/** The detail pages of one venue (app.py:206-267) and one artist
    (app.py:418-478): the record's fields, its genre list decoded, and its
    shows joined with the other party and split into past and upcoming. */
module Detail {
  import opened Sequences
  import opened Records
  import opened Timeline
  import opened Genres

  /** The row the venue page lists for show `s`, when its artist exists:
      the artist's id, name and image, and the show's start time. */
  predicate ArtistRowOf(e: ShowEntry, s: Show, artists: seq<Artist>) {
    match ArtistIndex(artists, s.artistId)
      case None => false
      case Some(k) => e == ShowEntry(artists[k].id, artists[k].name, artists[k].imageLink, s.startTime)
  }

  /** The row the artist page lists for show `s`, when its venue exists. */
  predicate VenueRowOf(e: ShowEntry, s: Show, venues: seq<Venue>) {
    match VenueIndex(venues, s.venueId)
      case None => false
      case Some(k) => e == ShowEntry(venues[k].id, venues[k].name, venues[k].imageLink, s.startTime)
  }

  /** `Show.query.filter_by(venue_id=...).join(Artist)`: each show whose
      artist exists, as the row the venue page lists (app.py:224-229). */
  function JoinArtists(shows: seq<Show>, artists: seq<Artist>): (entries: seq<ShowEntry>)
    ensures |entries| <= |shows|
    ensures (forall s :: s in shows ==> ArtistIndex(artists, s.artistId).Some?) ==> |entries| == |shows|
    ensures forall e :: e in entries ==> exists s :: s in shows && ArtistRowOf(e, s, artists)
    ensures forall s, e :: s in shows && ArtistRowOf(e, s, artists) ==> e in entries
    decreases |shows|
  {
    if shows == [] then []
    else
      var init, last := shows[..|shows| - 1], shows[|shows| - 1];
      assert forall s :: s in init ==> s in shows;
      assert forall s :: s in shows ==> s in init || s == last;
      JoinArtists(init, artists) +
      match ArtistIndex(artists, last.artistId)
        case None => []
        case Some(k) =>
          var row := ShowEntry(artists[k].id, artists[k].name, artists[k].imageLink, last.startTime);
          assert ArtistRowOf(row, last, artists);
          [row]
  }

  /** `Show.query.filter_by(artist_id=...).join(Venue)`: each show whose
      venue exists, as the row the artist page lists (app.py:436-441). */
  function JoinVenues(shows: seq<Show>, venues: seq<Venue>): (entries: seq<ShowEntry>)
    ensures |entries| <= |shows|
    ensures (forall s :: s in shows ==> VenueIndex(venues, s.venueId).Some?) ==> |entries| == |shows|
    ensures forall e :: e in entries ==> exists s :: s in shows && VenueRowOf(e, s, venues)
    ensures forall s, e :: s in shows && VenueRowOf(e, s, venues) ==> e in entries
    decreases |shows|
  {
    if shows == [] then []
    else
      var init, last := shows[..|shows| - 1], shows[|shows| - 1];
      assert forall s :: s in init ==> s in shows;
      assert forall s :: s in shows ==> s in init || s == last;
      JoinVenues(init, venues) +
      match VenueIndex(venues, last.venueId)
        case None => []
        case Some(k) =>
          var row := ShowEntry(venues[k].id, venues[k].name, venues[k].imageLink, last.startTime);
          assert VenueRowOf(row, last, venues);
          [row]
  }

  /** Rows matching shows position by position still do after one more
      show and its row. */
  lemma ArtistRowsExtend(rows: seq<ShowEntry>, shows: seq<Show>, row: ShowEntry, last: Show, artists: seq<Artist>)
    requires |rows| == |shows|
    requires forall k :: 0 <= k < |shows| ==> ArtistRowOf(rows[k], shows[k], artists)
    requires ArtistRowOf(row, last, artists)
    ensures forall k :: 0 <= k < |shows| + 1 ==> ArtistRowOf((rows + [row])[k], (shows + [last])[k], artists)
  {
    forall k | 0 <= k < |shows| + 1 ensures ArtistRowOf((rows + [row])[k], (shows + [last])[k], artists) {
      if k < |shows| {
        assert (rows + [row])[k] == rows[k] && (shows + [last])[k] == shows[k];
      }
    }
  }

  /** The last show, when its artist is at position `i`, adds its row at the end. */
  lemma JoinArtistsLast(shows: seq<Show>, artists: seq<Artist>, i: nat)
    requires shows != [] && ArtistIndex(artists, shows[|shows| - 1].artistId) == Some(i)
    ensures JoinArtists(shows, artists) == JoinArtists(shows[..|shows| - 1], artists) +
              [ShowEntry(artists[i].id, artists[i].name, artists[i].imageLink, shows[|shows| - 1].startTime)]
  {
  }

  /** When every show's artist exists, the join lists the shows one row
      each, in order: row k is the row of show k. */
  lemma {:induction false} JoinArtistsRowByRow(shows: seq<Show>, artists: seq<Artist>)
    requires forall s :: s in shows ==> ArtistIndex(artists, s.artistId).Some?
    ensures |JoinArtists(shows, artists)| == |shows|
    ensures forall k :: 0 <= k < |shows| ==> ArtistRowOf(JoinArtists(shows, artists)[k], shows[k], artists)
    decreases |shows|
  {
    if shows != [] {
      var init, last := shows[..|shows| - 1], shows[|shows| - 1];
      assert init + [last] == shows;
      assert forall s :: s in init ==> s in shows;
      JoinArtistsRowByRow(init, artists);
      var i := ArtistIndex(artists, last.artistId).value;
      var row := ShowEntry(artists[i].id, artists[i].name, artists[i].imageLink, last.startTime);
      JoinArtistsLast(shows, artists, i);
      assert ArtistRowOf(row, last, artists);
      ArtistRowsExtend(JoinArtists(init, artists), init, row, last, artists);
    }
  }

  /** Rows matching shows position by position still do after one more
      show and its row. */
  lemma VenueRowsExtend(rows: seq<ShowEntry>, shows: seq<Show>, row: ShowEntry, last: Show, venues: seq<Venue>)
    requires |rows| == |shows|
    requires forall k :: 0 <= k < |shows| ==> VenueRowOf(rows[k], shows[k], venues)
    requires VenueRowOf(row, last, venues)
    ensures forall k :: 0 <= k < |shows| + 1 ==> VenueRowOf((rows + [row])[k], (shows + [last])[k], venues)
  {
    forall k | 0 <= k < |shows| + 1 ensures VenueRowOf((rows + [row])[k], (shows + [last])[k], venues) {
      if k < |shows| {
        assert (rows + [row])[k] == rows[k] && (shows + [last])[k] == shows[k];
      }
    }
  }

  /** The last show, when its venue is at position `i`, adds its row at the end. */
  lemma JoinVenuesLast(shows: seq<Show>, venues: seq<Venue>, i: nat)
    requires shows != [] && VenueIndex(venues, shows[|shows| - 1].venueId) == Some(i)
    ensures JoinVenues(shows, venues) == JoinVenues(shows[..|shows| - 1], venues) +
              [ShowEntry(venues[i].id, venues[i].name, venues[i].imageLink, shows[|shows| - 1].startTime)]
  {
  }

  /** When every show's venue exists, row k of the join is the row of show k. */
  lemma {:induction false} JoinVenuesRowByRow(shows: seq<Show>, venues: seq<Venue>)
    requires forall s :: s in shows ==> VenueIndex(venues, s.venueId).Some?
    ensures |JoinVenues(shows, venues)| == |shows|
    ensures forall k :: 0 <= k < |shows| ==> VenueRowOf(JoinVenues(shows, venues)[k], shows[k], venues)
    decreases |shows|
  {
    if shows != [] {
      var init, last := shows[..|shows| - 1], shows[|shows| - 1];
      assert init + [last] == shows;
      assert forall s :: s in init ==> s in shows;
      JoinVenuesRowByRow(init, venues);
      var i := VenueIndex(venues, last.venueId).value;
      var row := ShowEntry(venues[i].id, venues[i].name, venues[i].imageLink, last.startTime);
      JoinVenuesLast(shows, venues, i);
      assert VenueRowOf(row, last, venues);
      VenueRowsExtend(JoinVenues(init, venues), init, row, last, venues);
    }
  }

  /** The `data` dictionary of the venue page (app.py:240-257). */
  datatype VenueDetail = VenueDetail(
    id: int,
    name: string,
    genres: seq<string>,
    address: string,
    city: string,
    state: string,
    phone: string,
    website: string,
    facebookLink: string,
    seekingTalent: bool,
    seekingDescription: string,
    imageLink: string,
    pastShows: seq<ShowEntry>,
    upcomingShows: seq<ShowEntry>,
    pastShowsCount: nat,
    upcomingShowsCount: nat)

  /** The `data` dictionary of the artist page (app.py:452-468). */
  datatype ArtistDetail = ArtistDetail(
    id: int,
    name: string,
    genres: seq<string>,
    city: string,
    state: string,
    phone: string,
    website: string,
    facebookLink: string,
    seekingVenue: bool,
    seekingDescription: string,
    imageLink: string,
    pastShows: seq<ShowEntry>,
    upcomingShows: seq<ShowEntry>,
    pastShowsCount: nat,
    upcomingShowsCount: nat)

  /** The `show_venue` handler. None is the 404 answer for an unknown id.
      Otherwise the page carries the venue's own fields, its decoded genres,
      its shows split at `now`, and each list's length. */
  method ShowVenue(venues: seq<Venue>, artists: seq<Artist>, shows: seq<Show>, venueId: int, now: int)
    returns (page: Option<VenueDetail>)
    ensures page.None? <==> VenueIndex(venues, venueId).None?
    ensures page.Some? ==>
      var v := venues[VenueIndex(venues, venueId).value];
      var entries := JoinArtists(ShowsAtVenue(shows, venueId), artists);
      && page.value.id == v.id == venueId
      && page.value.name == v.name && page.value.address == v.address
      && page.value.city == v.city && page.value.state == v.state
      && page.value.phone == v.phone && page.value.website == v.website
      && page.value.facebookLink == v.facebookLink && page.value.imageLink == v.imageLink
      && page.value.seekingTalent == v.seekingTalent
      && page.value.seekingDescription == v.seekingDescription
      && page.value.genres == Decode(v.genres)
      && page.value.pastShows == PastOf(entries, now)
      && page.value.upcomingShows == UpcomingOf(entries, now)
      && page.value.pastShowsCount == |page.value.pastShows|
      && page.value.upcomingShowsCount == |page.value.upcomingShows|
      && page.value.pastShowsCount + page.value.upcomingShowsCount == |entries|
  {
    match VenueIndex(venues, venueId) {
      case None =>
        return None;
      case Some(k) =>
        var v := venues[k];
        var entries := JoinArtists(ShowsAtVenue(shows, venueId), artists);
        var past, upcoming := SplitByTime(entries, now);
        page := Some(VenueDetail(v.id, v.name, Decode(v.genres), v.address, v.city, v.state,
                                 v.phone, v.website, v.facebookLink, v.seekingTalent,
                                 v.seekingDescription, v.imageLink, past, upcoming, |past|, |upcoming|));
    }
  }

  /** The `show_artist` handler, the same shape from the artist's side. */
  method ShowArtist(venues: seq<Venue>, artists: seq<Artist>, shows: seq<Show>, artistId: int, now: int)
    returns (page: Option<ArtistDetail>)
    ensures page.None? <==> ArtistIndex(artists, artistId).None?
    ensures page.Some? ==>
      var a := artists[ArtistIndex(artists, artistId).value];
      var entries := JoinVenues(ShowsByArtist(shows, artistId), venues);
      && page.value.id == a.id == artistId
      && page.value.name == a.name
      && page.value.city == a.city && page.value.state == a.state
      && page.value.phone == a.phone && page.value.website == a.website
      && page.value.facebookLink == a.facebookLink && page.value.imageLink == a.imageLink
      && page.value.seekingVenue == a.seekingVenue
      && page.value.seekingDescription == a.seekingDescription
      && page.value.genres == Decode(a.genres)
      && page.value.pastShows == PastOf(entries, now)
      && page.value.upcomingShows == UpcomingOf(entries, now)
      && page.value.pastShowsCount == |page.value.pastShows|
      && page.value.upcomingShowsCount == |page.value.upcomingShows|
      && page.value.pastShowsCount + page.value.upcomingShowsCount == |entries|
  {
    match ArtistIndex(artists, artistId) {
      case None =>
        return None;
      case Some(k) =>
        var a := artists[k];
        var entries := JoinVenues(ShowsByArtist(shows, artistId), venues);
        var past, upcoming := SplitByTime(entries, now);
        page := Some(ArtistDetail(a.id, a.name, Decode(a.genres), a.city, a.state,
                                  a.phone, a.website, a.facebookLink, a.seekingVenue,
                                  a.seekingDescription, a.imageLink, past, upcoming, |past|, |upcoming|));
    }
  }

  /** In a well-formed store the join drops nothing: the two counts of a
      venue page add up to the number of shows booked at the venue. */
  lemma VenuePageCountsAllShows(venues: seq<Venue>, artists: seq<Artist>, shows: seq<Show>, venueId: int, now: int)
    requires WellFormed(venues, artists, shows)
    ensures |PastOf(JoinArtists(ShowsAtVenue(shows, venueId), artists), now)| +
            |UpcomingOf(JoinArtists(ShowsAtVenue(shows, venueId), artists), now)| ==
            |ShowsAtVenue(shows, venueId)|
  {
    SplitIsPartition(JoinArtists(ShowsAtVenue(shows, venueId), artists), now);
  }

  /** The same for an artist page. */
  lemma ArtistPageCountsAllShows(venues: seq<Venue>, artists: seq<Artist>, shows: seq<Show>, artistId: int, now: int)
    requires WellFormed(venues, artists, shows)
    ensures |PastOf(JoinVenues(ShowsByArtist(shows, artistId), venues), now)| +
            |UpcomingOf(JoinVenues(ShowsByArtist(shows, artistId), venues), now)| ==
            |ShowsByArtist(shows, artistId)|
  {
    SplitIsPartition(JoinVenues(ShowsByArtist(shows, artistId), venues), now);
  }

  /** The two conventions side by side: when every artist resolves, a venue
      page lists as upcoming the shows its listing entry counts as upcoming
      plus the shows starting exactly at `now`. */
  lemma {:induction false} UpcomingPageVersusCount(shows: seq<Show>, artists: seq<Artist>, now: int)
    requires forall s :: s in shows ==> ArtistIndex(artists, s.artistId).Some?
    ensures |UpcomingOf(JoinArtists(shows, artists), now)| == CountUpcoming(shows, now) + |ShowsStartingAt(shows, now)|
    decreases |shows|
  {
    if shows != [] {
      var init, last := shows[..|shows| - 1], shows[|shows| - 1];
      assert shows == init + [last];
      assert forall s :: s in init ==> s in shows;
      UpcomingPageVersusCount(init, artists, now);
      var k := ArtistIndex(artists, last.artistId).value;
      var e := ShowEntry(artists[k].id, artists[k].name, artists[k].imageLink, last.startTime);
      var joined := JoinArtists(init, artists);
      assert JoinArtists(shows, artists) == joined + [e];
      assert (joined + [e])[..|joined|] == joined;
    }
  }

  /** A concrete instance of the asymmetry: one show starting exactly at
      `now` is listed as upcoming on the venue page, yet the venue listing
      counts no upcoming show for it. */
  lemma ShowAtNowListedNotCounted(artist: Artist, venueId: int, now: int)
    ensures var shows := [Show(1, now, artist.id, venueId)];
            && |UpcomingOf(JoinArtists(shows, [artist]), now)| == 1
            && CountUpcoming(shows, now) == 0
  {
    var shows := [Show(1, now, artist.id, venueId)];
    assert shows == [] + [shows[0]];
    assert JoinArtists(shows, [artist]) == [ShowEntry(artist.id, artist.name, artist.imageLink, now)];
    UpcomingPageVersusCount(shows, [artist], now);
    assert ShowsStartingAt(shows, now) == [shows[0]];
  }
}
