/** The store of the booking site and its two kinds of change: deleting a
    venue together with its shows (app.py:325-347) and overwriting the
    editable fields of a venue or an artist from a submitted form
    (app.py:527-555, 613-641). Each change is one atomic update of the
    store; a missing id changes nothing. */
module Directory {
  import opened Sequences
  import opened Records
  import opened Genres

  /** The fields of the venue form the edit handler reads (app.py:626-636).
      `genres` is the multi-select's list of names. */
  datatype VenueForm = VenueForm(
    name: string,
    city: string,
    state: string,
    address: string,
    phone: string,
    genres: seq<string>,
    facebookLink: string,
    imageLink: string,
    websiteLink: string,
    seekingTalent: bool,
    seekingDescription: string)

  /** The fields of the artist form the edit handler reads (app.py:540-549). */
  datatype ArtistForm = ArtistForm(
    name: string,
    city: string,
    state: string,
    phone: string,
    genres: seq<string>,
    facebookLink: string,
    imageLink: string,
    websiteLink: string,
    seekingVenue: bool,
    seekingDescription: string)

  /** The venue after `edit_venue_submission` assigns every editable field
      from the form; the primary key is not among them. */
  function ApplyVenueForm(v: Venue, f: VenueForm): (r: Venue)
    ensures r.id == v.id
  {
    v.(name := f.name, city := f.city, state := f.state, address := f.address,
       phone := f.phone, genres := Encode(f.genres), facebookLink := f.facebookLink,
       imageLink := f.imageLink, website := f.websiteLink, seekingTalent := f.seekingTalent,
       seekingDescription := f.seekingDescription)
  }

  /** The artist after `edit_artist_submission`. */
  function ApplyArtistForm(a: Artist, f: ArtistForm): (r: Artist)
    ensures r.id == a.id
  {
    a.(name := f.name, city := f.city, state := f.state, phone := f.phone,
       genres := Encode(f.genres), facebookLink := f.facebookLink, imageLink := f.imageLink,
       website := f.websiteLink, seekingVenue := f.seekingVenue,
       seekingDescription := f.seekingDescription)
  }

  /** The form `edit_venue` pre-fills from the stored venue (app.py:575-586):
      every field shows the venue's value, the genre string as its list of
      names, which stores back to the same string. */
  function VenueFormOf(v: Venue): (f: VenueForm)
    ensures f.name == v.name && f.city == v.city && f.state == v.state
    ensures f.address == v.address && f.phone == v.phone
    ensures f.facebookLink == v.facebookLink && f.imageLink == v.imageLink
    ensures f.websiteLink == v.website
    ensures f.seekingTalent == v.seekingTalent && f.seekingDescription == v.seekingDescription
    ensures f.genres == Decode(v.genres) && Encode(f.genres) == v.genres
  {
    EncodeDecode(v.genres);
    VenueForm(v.name, v.city, v.state, v.address, v.phone, Decode(v.genres),
              v.facebookLink, v.imageLink, v.website, v.seekingTalent, v.seekingDescription)
  }

  /** The form `edit_artist` pre-fills from the stored artist (app.py:491-501). */
  function ArtistFormOf(a: Artist): (f: ArtistForm)
    ensures f.name == a.name && f.city == a.city && f.state == a.state
    ensures f.phone == a.phone
    ensures f.facebookLink == a.facebookLink && f.imageLink == a.imageLink
    ensures f.websiteLink == a.website
    ensures f.seekingVenue == a.seekingVenue && f.seekingDescription == a.seekingDescription
    ensures f.genres == Decode(a.genres) && Encode(f.genres) == a.genres
  {
    EncodeDecode(a.genres);
    ArtistForm(a.name, a.city, a.state, a.phone, Decode(a.genres),
               a.facebookLink, a.imageLink, a.website, a.seekingVenue, a.seekingDescription)
  }

  /** Submitting the pre-filled venue form unchanged leaves the venue as it
      was, its stored genre string included. */
  lemma ResubmitVenueFormUnchanged(v: Venue)
    ensures ApplyVenueForm(v, VenueFormOf(v)) == v
  {
    EncodeDecode(v.genres);
  }

  /** Submitting the pre-filled artist form unchanged leaves the artist as it
      was. */
  lemma ResubmitArtistFormUnchanged(a: Artist)
    ensures ApplyArtistForm(a, ArtistFormOf(a)) == a
  {
    EncodeDecode(a.genres);
  }

  /** After an edit the pages show the submitted genres, provided no name
      holds a comma and the list is not the single empty name. */
  lemma EditedVenueShowsSubmittedGenres(v: Venue, f: VenueForm)
    requires forall i :: 0 <= i < |f.genres| ==> Separator !in f.genres[i]
    requires f.genres != [""]
    ensures Decode(ApplyVenueForm(v, f).genres) == f.genres
  {
    DecodeEncode(f.genres);
  }

  lemma EditedArtistShowsSubmittedGenres(a: Artist, f: ArtistForm)
    requires forall i :: 0 <= i < |f.genres| ==> Separator !in f.genres[i]
    requires f.genres != [""]
    ensures Decode(ApplyArtistForm(a, f).genres) == f.genres
  {
    DecodeEncode(f.genres);
  }

  /** Whatever the submitted genre list, the edit assigns every editable
      field of the venue from the form: the genres as their joined string,
      every other field as submitted. */
  lemma EditSetsEveryVenueField(v: Venue, f: VenueForm)
    ensures var r := ApplyVenueForm(v, f);
      r.id == v.id && r.name == f.name && r.city == f.city && r.state == f.state
      && r.address == f.address && r.phone == f.phone && r.genres == Encode(f.genres)
      && r.facebookLink == f.facebookLink && r.imageLink == f.imageLink
      && r.website == f.websiteLink && r.seekingTalent == f.seekingTalent
      && r.seekingDescription == f.seekingDescription
  {
  }

  /** The same for the artist. */
  lemma EditSetsEveryArtistField(a: Artist, f: ArtistForm)
    ensures var r := ApplyArtistForm(a, f);
      r.id == a.id && r.name == f.name && r.city == f.city && r.state == f.state
      && r.phone == f.phone && r.genres == Encode(f.genres)
      && r.facebookLink == f.facebookLink && r.imageLink == f.imageLink
      && r.website == f.websiteLink && r.seekingVenue == f.seekingVenue
      && r.seekingDescription == f.seekingDescription
  {
  }

  /** Reopening the edit form right after a submission shows exactly what
      was submitted, every field included, provided no genre name holds a
      comma and the list is not the single empty name. */
  lemma EditThenReopenVenue(v: Venue, f: VenueForm)
    requires forall i :: 0 <= i < |f.genres| ==> Separator !in f.genres[i]
    requires f.genres != [""]
    ensures VenueFormOf(ApplyVenueForm(v, f)) == f
  {
    DecodeEncode(f.genres);
  }

  lemma EditThenReopenArtist(a: Artist, f: ArtistForm)
    requires forall i :: 0 <= i < |f.genres| ==> Separator !in f.genres[i]
    requires f.genres != [""]
    ensures ArtistFormOf(ApplyArtistForm(a, f)) == f
  {
    DecodeEncode(f.genres);
  }

  /** The venue table after deleting the venue with primary key `id`
      (`db.session.delete(venue)`); unchanged when there is none. */
  function RemoveVenue(venues: seq<Venue>, id: int): (r: seq<Venue>)
    ensures VenueIndex(venues, id).None? ==> r == venues
    ensures VenueIndex(venues, id).Some? ==> |r| == |venues| - 1
    ensures forall v :: v in r ==> v in venues
    ensures UniqueVenueIds(venues) ==> forall v :: v in r <==> v in venues && v.id != id
  {
    match VenueIndex(venues, id)
      case None => venues
      case Some(k) =>
        var r := venues[..k] + venues[k + 1..];
        assert forall v :: v in r <==> exists j :: 0 <= j < |venues| && j != k && venues[j] == v;
        r
  }

  /** The venue table after editing the venue with primary key `id`. */
  function EditedVenues(venues: seq<Venue>, id: int, form: VenueForm): (r: seq<Venue>)
    ensures |r| == |venues|
    ensures forall i :: 0 <= i < |r| ==> r[i].id == venues[i].id
    ensures forall i :: 0 <= i < |r| && venues[i].id != id ==> r[i] == venues[i]
    ensures forall i :: 0 <= i < |r| && venues[i].id == id && UniqueVenueIds(venues) ==>
              r[i] == ApplyVenueForm(venues[i], form)
  {
    match VenueIndex(venues, id)
      case None => venues
      case Some(k) => venues[k := ApplyVenueForm(venues[k], form)]
  }

  /** The artist table after editing the artist with primary key `id`. */
  function EditedArtists(artists: seq<Artist>, id: int, form: ArtistForm): (r: seq<Artist>)
    ensures |r| == |artists|
    ensures forall i :: 0 <= i < |r| ==> r[i].id == artists[i].id
    ensures forall i :: 0 <= i < |r| && artists[i].id != id ==> r[i] == artists[i]
    ensures forall i :: 0 <= i < |r| && artists[i].id == id && UniqueArtistIds(artists) ==>
              r[i] == ApplyArtistForm(artists[i], form)
  {
    match ArtistIndex(artists, id)
      case None => artists
      case Some(k) => artists[k := ApplyArtistForm(artists[k], form)]
  }

  /** Lookup by primary key sees only the keys. */
  lemma {:induction false} VenueIndexByIds(a: seq<Venue>, b: seq<Venue>, id: int)
    requires |a| == |b| && forall i :: 0 <= i < |a| ==> a[i].id == b[i].id
    ensures VenueIndex(a, id) == VenueIndex(b, id)
    decreases |a|
  {
    if a != [] {
      VenueIndexByIds(a[1..], b[1..], id);
    }
  }

  lemma {:induction false} ArtistIndexByIds(a: seq<Artist>, b: seq<Artist>, id: int)
    requires |a| == |b| && forall i :: 0 <= i < |a| ==> a[i].id == b[i].id
    ensures ArtistIndex(a, id) == ArtistIndex(b, id)
    decreases |a|
  {
    if a != [] {
      ArtistIndexByIds(a[1..], b[1..], id);
    }
  }

  /** Deleting a venue with its shows keeps the store's integrity: no show
      is left pointing at the deleted venue. */
  lemma DeleteKeepsIntegrity(venues: seq<Venue>, artists: seq<Artist>, shows: seq<Show>, id: int)
    requires WellFormed(venues, artists, shows)
    ensures WellFormed(RemoveVenue(venues, id), artists, ShowsElsewhere(shows, id))
  {
    var rest := RemoveVenue(venues, id);
    RemoveVenueKeepsUniqueIds(venues, id);
    forall s | s in ShowsElsewhere(shows, id) ensures VenueIndex(rest, s.venueId).Some? {
      var m := VenueIndex(venues, s.venueId).value;
      assert venues[m] in rest;
    }
  }

  lemma RemoveVenueKeepsUniqueIds(venues: seq<Venue>, id: int)
    requires UniqueVenueIds(venues)
    ensures UniqueVenueIds(RemoveVenue(venues, id))
  {
    var rest := RemoveVenue(venues, id);
    match VenueIndex(venues, id) {
      case None =>
      case Some(k) =>
        assert rest == venues[..k] + venues[k + 1..];
        RemoveAtKeepsUniqueIds(venues, k);
    }
  }

  /** Dropping the row at position `k` keeps keys unique. */
  lemma RemoveAtKeepsUniqueIds(venues: seq<Venue>, k: nat)
    requires UniqueVenueIds(venues) && k < |venues|
    ensures UniqueVenueIds(venues[..k] + venues[k + 1..])
  {
    var rest := venues[..k] + venues[k + 1..];
    forall i, j | 0 <= i < j < |rest| ensures rest[i].id != rest[j].id {
      var i', j' := if i < k then i else i + 1, if j < k then j else j + 1;
      assert rest[i] == venues[i'] && rest[j] == venues[j'];
    }
  }

  /** Editing a venue keeps the store's integrity, since no primary key
      changes. */
  lemma EditVenueKeepsIntegrity(venues: seq<Venue>, artists: seq<Artist>, shows: seq<Show>, id: int, form: VenueForm)
    requires WellFormed(venues, artists, shows)
    ensures WellFormed(EditedVenues(venues, id, form), artists, shows)
  {
    var edited := EditedVenues(venues, id, form);
    forall s | s in shows ensures VenueIndex(edited, s.venueId).Some? {
      VenueIndexByIds(venues, edited, s.venueId);
    }
  }

  /** Editing an artist keeps the store's integrity. */
  lemma EditArtistKeepsIntegrity(venues: seq<Venue>, artists: seq<Artist>, shows: seq<Show>, id: int, form: ArtistForm)
    requires WellFormed(venues, artists, shows)
    ensures WellFormed(venues, EditedArtists(artists, id, form), shows)
  {
    var edited := EditedArtists(artists, id, form);
    forall s | s in shows ensures ArtistIndex(edited, s.artistId).Some? {
      ArtistIndexByIds(artists, edited, s.artistId);
    }
  }

  /** Deleting one venue's shows leaves every other venue's shows as they
      were, in the same order. */
  lemma {:induction false} DeleteKeepsOtherVenuesShows(shows: seq<Show>, id: int, other: int)
    requires other != id
    ensures ShowsAtVenue(ShowsElsewhere(shows, id), other) == ShowsAtVenue(shows, other)
    decreases |shows|
  {
    if shows != [] {
      var init, last := shows[..|shows| - 1], shows[|shows| - 1];
      DeleteKeepsOtherVenuesShows(init, id, other);
      var kept := ShowsElsewhere(init, id);
      var at := ShowsAtVenue(init, other);
      if last.venueId != id {
        assert ShowsElsewhere(shows, id) == kept + [last];
        assert (kept + [last])[..|kept|] == kept;
        assert ShowsAtVenue(kept + [last], other) == at + (if last.venueId == other then [last] else []);
      } else {
        assert ShowsElsewhere(shows, id) == kept;
      }
    }
  }

  /** After the cascade no show of the deleted venue is left. */
  lemma DeleteLeavesNoShowAtVenue(shows: seq<Show>, id: int)
    ensures ShowsAtVenue(ShowsElsewhere(shows, id), id) == []
  {
    var kept := ShowsElsewhere(shows, id);
    FilterNone(kept, (s: Show) => s.venueId == id);
  }

  /** The cascade removes exactly the venue's shows: the shows kept and the
      shows removed add up to the table, and those kept are in table
      order. */
  lemma DeleteSplitsShows(shows: seq<Show>, id: int)
    ensures |ShowsElsewhere(shows, id)| + |ShowsAtVenue(shows, id)| == |shows|
    ensures Subsequence(ShowsElsewhere(shows, id), shows)
  {
    FilterComplement(shows, (s: Show) => s.venueId != id, (s: Show) => s.venueId == id);
    FilterIsSubsequence(shows, (s: Show) => s.venueId != id);
  }

  /** The database: the three tables, kept well formed. */
  class Store {
    var venues: seq<Venue>
    var artists: seq<Artist>
    var shows: seq<Show>

    ghost predicate Valid()
      reads this
    {
      WellFormed(venues, artists, shows)
    }

    constructor(venues: seq<Venue>, artists: seq<Artist>, shows: seq<Show>)
      requires WellFormed(venues, artists, shows)
      ensures Valid()
      ensures this.venues == venues && this.artists == artists && this.shows == shows
    {
      this.venues := venues;
      this.artists := artists;
      this.shows := shows;
    }

    /** `delete_venue`: for a known id, first the venue's shows go, then
        the venue; an unknown id changes nothing. */
    method DeleteVenue(venueId: int) returns (deleted: bool)
      requires Valid()
      modifies this
      ensures Valid()
      ensures deleted <==> VenueIndex(old(venues), venueId).Some?
      ensures venues == RemoveVenue(old(venues), venueId)
      ensures shows == if deleted then ShowsElsewhere(old(shows), venueId) else old(shows)
      ensures artists == old(artists)
    {
      DeleteKeepsIntegrity(venues, artists, shows, venueId);
      match VenueIndex(venues, venueId) {
        case None =>
          deleted := false;
        case Some(k) =>
          shows := ShowsElsewhere(shows, venueId);
          venues := venues[..k] + venues[k + 1..];
          deleted := true;
      }
    }

    /** `edit_venue_submission`: every editable field of the venue is
        overwritten from the form; an unknown id changes nothing. */
    method EditVenue(venueId: int, form: VenueForm) returns (found: bool)
      requires Valid()
      modifies this
      ensures Valid()
      ensures found <==> VenueIndex(old(venues), venueId).Some?
      ensures venues == EditedVenues(old(venues), venueId, form)
      ensures artists == old(artists) && shows == old(shows)
    {
      EditVenueKeepsIntegrity(venues, artists, shows, venueId, form);
      match VenueIndex(venues, venueId) {
        case None =>
          found := false;
        case Some(k) =>
          venues := venues[k := ApplyVenueForm(venues[k], form)];
          found := true;
      }
    }

    /** `edit_artist_submission`. */
    method EditArtist(artistId: int, form: ArtistForm) returns (found: bool)
      requires Valid()
      modifies this
      ensures Valid()
      ensures found <==> ArtistIndex(old(artists), artistId).Some?
      ensures artists == EditedArtists(old(artists), artistId, form)
      ensures venues == old(venues) && shows == old(shows)
    {
      EditArtistKeepsIntegrity(venues, artists, shows, artistId, form);
      match ArtistIndex(artists, artistId) {
        case None =>
          found := false;
        case Some(k) =>
          artists := artists[k := ApplyArtistForm(artists[k], form)];
          found := true;
      }
    }
  }
}
