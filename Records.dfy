/** The three tables of the booking site (app.py:36-86) as values, the
    lookups by primary key (`query.get`) and the relationships
    `venue.shows` / `artist.shows` as selections over the show table. */
module Records {
  import opened Sequences

  datatype Option<T> = None | Some(value: T)

  /** A row of the `Venue` table. `genres` is the stored comma-joined
      string; an absent value is represented by "". */
  datatype Venue = Venue(
    id: int,
    name: string,
    city: string,
    state: string,
    address: string,
    phone: string,
    imageLink: string,
    facebookLink: string,
    genres: string,
    website: string,
    seekingTalent: bool,
    seekingDescription: string)

  /** A row of the `Artist` table. */
  datatype Artist = Artist(
    id: int,
    name: string,
    city: string,
    state: string,
    phone: string,
    genres: string,
    imageLink: string,
    facebookLink: string,
    website: string,
    seekingVenue: bool,
    seekingDescription: string)

  /** A row of the `Show` table; `startTime` is an instant on an integer
      time line (larger is later). */
  datatype Show = Show(id: int, startTime: int, artistId: int, venueId: int)

  /** `Venue.query.get(id)`: the position of the venue with that primary
      key, or None when there is none. */
  function VenueIndex(venues: seq<Venue>, id: int): (r: Option<nat>)
    ensures r.Some? ==> r.value < |venues| && venues[r.value].id == id
    ensures r.None? ==> forall k :: 0 <= k < |venues| ==> venues[k].id != id
    decreases |venues|
  {
    if venues == [] then None
    else if venues[0].id == id then Some(0)
    else match VenueIndex(venues[1..], id)
      case None => None
      case Some(k) => Some(k + 1)
  }

  /** `Artist.query.get(id)`. */
  function ArtistIndex(artists: seq<Artist>, id: int): (r: Option<nat>)
    ensures r.Some? ==> r.value < |artists| && artists[r.value].id == id
    ensures r.None? ==> forall k :: 0 <= k < |artists| ==> artists[k].id != id
    decreases |artists|
  {
    if artists == [] then None
    else if artists[0].id == id then Some(0)
    else match ArtistIndex(artists[1..], id)
      case None => None
      case Some(k) => Some(k + 1)
  }

  /** `venue.shows`, or `Show.query.filter_by(venue_id=...)`: the shows
      booked at the venue, in table order. */
  function ShowsAtVenue(shows: seq<Show>, venueId: int): (r: seq<Show>)
    ensures forall s :: s in r <==> s in shows && s.venueId == venueId
  {
    Filter(shows, (s: Show) => s.venueId == venueId)
  }

  /** The shows not booked at the venue: what the show table keeps when
      the venue's shows are deleted. */
  function ShowsElsewhere(shows: seq<Show>, venueId: int): (r: seq<Show>)
    ensures forall s :: s in r <==> s in shows && s.venueId != venueId
  {
    Filter(shows, (s: Show) => s.venueId != venueId)
  }

  /** `artist.shows`, or `Show.query.filter_by(artist_id=...)`. */
  function ShowsByArtist(shows: seq<Show>, artistId: int): (r: seq<Show>)
    ensures forall s :: s in r <==> s in shows && s.artistId == artistId
  {
    Filter(shows, (s: Show) => s.artistId == artistId)
  }

  /** Primary keys are unique. */
  ghost predicate UniqueVenueIds(venues: seq<Venue>) {
    forall i, j :: 0 <= i < j < |venues| ==> venues[i].id != venues[j].id
  }

  ghost predicate UniqueArtistIds(artists: seq<Artist>) {
    forall i, j :: 0 <= i < j < |artists| ==> artists[i].id != artists[j].id
  }

  /** The store's integrity: primary keys are unique and both foreign keys
      of every show resolve (app.py:85-86 declare them non-null
      `ForeignKey`s). */
  ghost predicate WellFormed(venues: seq<Venue>, artists: seq<Artist>, shows: seq<Show>) {
    && UniqueVenueIds(venues)
    && UniqueArtistIds(artists)
    && (forall s :: s in shows ==> VenueIndex(venues, s.venueId).Some? && ArtistIndex(artists, s.artistId).Some?)
  }
}
