/** The `/venues` page (app.py:144-187): every venue, grouped by its
    (city, state) pair, each tagged with its number of upcoming shows. */
module Listing {
  import opened Sequences
  import opened Records
  import opened Timeline

  /** A grouping key: the `(venue.city, venue.state)` tuple of app.py:159. */
  datatype Location = Location(city: string, state: string)

  /** One venue of a group: `{"id", "name", "num_upcoming_shows"}`. */
  datatype VenueSummary = VenueSummary(id: int, name: string, numUpcomingShows: nat)

  /** One group: `{"city", "state", "venues"}` (app.py:172-176). */
  datatype Area = Area(city: string, state: string, venues: seq<VenueSummary>)

  function LocationOf(v: Venue): Location {
    Location(v.city, v.state)
  }

  function AreaLocation(a: Area): Location {
    Location(a.city, a.state)
  }

  /** The set `locations` built by the first loop (app.py:157-159). */
  function Locations(venues: seq<Venue>): set<Location> {
    set v | v in venues :: LocationOf(v)
  }

  /** The venues at one location, in table order. */
  function VenuesAt(venues: seq<Venue>, loc: Location): (r: seq<Venue>)
    ensures forall v :: v in r <==> v in venues && LocationOf(v) == loc
  {
    Filter(venues, (v: Venue) => LocationOf(v) == loc)
  }

  /** The venues at any of a set of locations, in table order. */
  function VenuesIn(venues: seq<Venue>, locs: set<Location>): (r: seq<Venue>)
    ensures forall v :: v in r <==> v in venues && LocationOf(v) in locs
  {
    Filter(venues, (v: Venue) => LocationOf(v) in locs)
  }

  /** The entry of app.py:167-171; the venue's shows are `venue.shows`. */
  function Summarize(v: Venue, shows: seq<Show>, now: int): (s: VenueSummary)
    ensures s.id == v.id && s.name == v.name
    ensures s.numUpcomingShows == |UpcomingPositions(ShowsAtVenue(shows, v.id), now)|
    ensures s.numUpcomingShows <= |ShowsAtVenue(shows, v.id)|
  {
    CountUpcomingCountsPositions(ShowsAtVenue(shows, v.id), now);
    VenueSummary(v.id, v.name, CountUpcoming(ShowsAtVenue(shows, v.id), now))
  }

  /** The summaries of `vs`, one per venue and in the same order. */
  function SummarizeAll(vs: seq<Venue>, shows: seq<Show>, now: int): (r: seq<VenueSummary>)
    ensures |r| == |vs|
    ensures forall k :: 0 <= k < |vs| ==> r[k] == Summarize(vs[k], shows, now)
    decreases |vs|
  {
    if vs == [] then []
    else SummarizeAll(vs[..|vs| - 1], shows, now) + [Summarize(vs[|vs| - 1], shows, now)]
  }

  /** The group the page shows for `loc`. */
  function AreaOf(venues: seq<Venue>, shows: seq<Show>, now: int, loc: Location): (a: Area)
    ensures AreaLocation(a) == loc
    ensures |a.venues| == |VenuesAt(venues, loc)|
  {
    Area(loc.city, loc.state, SummarizeAll(VenuesAt(venues, loc), shows, now))
  }

  /** Total number of venue entries over all groups. */
  function Listed(areas: seq<Area>): nat
    decreases |areas|
  {
    if areas == [] then 0
    else Listed(areas[..|areas| - 1]) + |areas[|areas| - 1].venues|
  }

  /** What the page promises of its groups, whatever order the set of
      locations is walked in: one group per distinct location and no other,
      each holding exactly the venues at its location, and every venue
      listed once overall. */
  ghost predicate IsLocationGrouping(areas: seq<Area>, venues: seq<Venue>, shows: seq<Show>, now: int) {
    && |areas| == |Locations(venues)|
    && (forall i :: 0 <= i < |areas| ==>
          AreaLocation(areas[i]) in Locations(venues) &&
          areas[i] == AreaOf(venues, shows, now, AreaLocation(areas[i])))
    && (forall i, j :: 0 <= i < j < |areas| ==> AreaLocation(areas[i]) != AreaLocation(areas[j]))
    && (forall loc :: loc in Locations(venues) ==>
          exists i :: 0 <= i < |areas| && AreaLocation(areas[i]) == loc)
    && Listed(areas) == |venues|
  }

  /** The `venues` handler: the early return on an empty table, then the set
      of locations, then one group per location. The set is walked in an
      unspecified order, as a Python set is. */
  method GroupByLocation(venues: seq<Venue>, shows: seq<Show>, now: int) returns (areas: seq<Area>)
    ensures venues == [] ==> areas == []
    ensures IsLocationGrouping(areas, venues, shows, now)
  {
    if venues == [] {
      return [];
    }
    var locations := CollectLocations(venues);
    areas := [];
    var remaining := locations;
    ghost var done: set<Location> := {};
    ghost var keys: seq<Location> := [];
    ProgressStart(venues, shows, now, locations);
    while remaining != {}
      invariant Progress(areas, keys, done, remaining, locations, venues, shows, now)
      decreases |remaining|
    {
      var loc :| loc in remaining;
      var area := CollectArea(venues, shows, now, loc);
      ProgressStep(areas, keys, done, remaining, locations, venues, shows, now, loc);
      areas := areas + [area];
      keys := keys + [loc];
      done := done + {loc};
      remaining := remaining - {loc};
    }
    ProgressEnd(areas, keys, done, locations, venues, shows, now);
  }

  /** What the handler's second loop has built so far: one group for each
      location handled (`keys`, in the order handled), no location twice,
      and every venue at a handled location listed; `done` and `remaining`
      split the set of locations. */
  ghost predicate Progress(areas: seq<Area>, keys: seq<Location>, done: set<Location>, remaining: set<Location>,
                           locations: set<Location>, venues: seq<Venue>, shows: seq<Show>, now: int) {
    && locations == Locations(venues)
    && done + remaining == locations && done !! remaining
    && |keys| + |remaining| == |locations|
    && HandledOnce(keys, done)
    && AreasFor(areas, keys, venues, shows, now)
    && Listed(areas) == |VenuesIn(venues, done)|
  }

  /** `areas` holds the group of each location of `keys`, position by
      position. */
  ghost predicate AreasFor(areas: seq<Area>, keys: seq<Location>, venues: seq<Venue>, shows: seq<Show>, now: int) {
    && |areas| == |keys|
    && (forall i :: 0 <= i < |keys| ==> areas[i] == AreaOf(venues, shows, now, keys[i]))
  }

  /** `keys` lists the locations of `done`, each exactly once. */
  ghost predicate HandledOnce(keys: seq<Location>, done: set<Location>) {
    && (forall i :: 0 <= i < |keys| ==> keys[i] in done)
    && (forall loc :: loc in done ==> loc in keys)
    && (forall i, j :: 0 <= i < j < |keys| ==> keys[i] != keys[j])
  }

  lemma ProgressStart(venues: seq<Venue>, shows: seq<Show>, now: int, locations: set<Location>)
    requires locations == Locations(venues)
    ensures Progress([], [], {}, locations, locations, venues, shows, now)
  {
    var none: set<Location> := {};
    FilterNone(venues, (v: Venue) => LocationOf(v) in none);
  }

  /** Handling one more location keeps the bookkeeping right. */
  lemma ProgressStep(areas: seq<Area>, keys: seq<Location>, done: set<Location>, remaining: set<Location>,
                     locations: set<Location>, venues: seq<Venue>, shows: seq<Show>, now: int, loc: Location)
    requires Progress(areas, keys, done, remaining, locations, venues, shows, now)
    requires loc in remaining
    ensures Progress(areas + [AreaOf(venues, shows, now, loc)], keys + [loc], done + {loc}, remaining - {loc},
                     locations, venues, shows, now)
    ensures |remaining - {loc}| < |remaining|
  {
    MoveToDone(done, remaining, locations, loc);
    HandledOnceStep(keys, done, loc);
    AreasForStep(areas, keys, venues, shows, now, loc);
    ListedStep(areas, done, venues, shows, now, loc);
  }

  /** Once no location remains, the bookkeeping is the promised grouping. */
  lemma ProgressEnd(areas: seq<Area>, keys: seq<Location>, done: set<Location>,
                    locations: set<Location>, venues: seq<Venue>, shows: seq<Show>, now: int)
    requires Progress(areas, keys, done, {}, locations, venues, shows, now)
    ensures IsLocationGrouping(areas, venues, shows, now)
  {
    assert done == locations;
    VenuesInAll(venues, locations);
  }

  /** Moving one location from `remaining` to `done` keeps the two a
      partition of all locations. */
  lemma MoveToDone(done: set<Location>, remaining: set<Location>, locations: set<Location>, loc: Location)
    requires done + remaining == locations && done !! remaining
    requires loc in remaining
    ensures (done + {loc}) + (remaining - {loc}) == locations
    ensures (done + {loc}) !! (remaining - {loc})
    ensures |remaining - {loc}| == |remaining| - 1
  {
  }

  lemma HandledOnceStep(keys: seq<Location>, done: set<Location>, loc: Location)
    requires HandledOnce(keys, done)
    requires loc !in done
    ensures HandledOnce(keys + [loc], done + {loc})
  {
  }

  lemma AreasForStep(areas: seq<Area>, keys: seq<Location>, venues: seq<Venue>, shows: seq<Show>, now: int, loc: Location)
    requires AreasFor(areas, keys, venues, shows, now)
    ensures AreasFor(areas + [AreaOf(venues, shows, now, loc)], keys + [loc], venues, shows, now)
  {
  }

  lemma ListedStep(areas: seq<Area>, done: set<Location>, venues: seq<Venue>, shows: seq<Show>, now: int, loc: Location)
    requires Listed(areas) == |VenuesIn(venues, done)|
    requires loc !in done
    ensures Listed(areas + [AreaOf(venues, shows, now, loc)]) == |VenuesIn(venues, done + {loc})|
  {
    VenuesInAddLocation(venues, done, loc);
    assert (areas + [AreaOf(venues, shows, now, loc)])[..|areas|] == areas;
  }

  /** The first loop of the handler (app.py:157-159): the set of distinct
      (city, state) pairs. */
  method CollectLocations(venues: seq<Venue>) returns (locations: set<Location>)
    ensures locations == Locations(venues)
  {
    locations := {};
    for i := 0 to |venues|
      invariant locations == Locations(venues[..i])
    {
      assert venues[..i + 1] == venues[..i] + [venues[i]];
      LocationsSnoc(venues[..i], venues[i]);
      locations := locations + {Location(venues[i].city, venues[i].state)};
    }
    assert venues[..|venues|] == venues;
  }

  /** The inner loop of the handler (app.py:162-176): one pass over all
      venues, keeping those at `loc`, in table order. */
  method CollectArea(venues: seq<Venue>, shows: seq<Show>, now: int, loc: Location) returns (area: Area)
    ensures area == AreaOf(venues, shows, now, loc)
  {
    var cityVenues: seq<VenueSummary> := [];
    for j := 0 to |venues|
      invariant cityVenues == SummarizeAll(VenuesAt(venues[..j], loc), shows, now)
    {
      assert venues[..j + 1][..j] == venues[..j];
      if venues[j].city == loc.city && venues[j].state == loc.state {
        cityVenues := cityVenues + [Summarize(venues[j], shows, now)];
      }
    }
    assert venues[..|venues|] == venues;
    area := Area(loc.city, loc.state, cityVenues);
  }

  /** Adding a new location to a set adds exactly that location's venues. */
  lemma {:induction false} VenuesInAddLocation(venues: seq<Venue>, done: set<Location>, loc: Location)
    requires loc !in done
    ensures |VenuesIn(venues, done + {loc})| == |VenuesIn(venues, done)| + |VenuesAt(venues, loc)|
    decreases |venues|
  {
    if venues != [] {
      var n := |venues| - 1;
      assert venues == venues[..n] + [venues[n]];
      VenuesInAddLocation(venues[..n], done, loc);
    }
  }

  /** Every venue is at one of the locations collected from the table. */
  lemma VenuesInAll(venues: seq<Venue>, locs: set<Location>)
    requires locs == Locations(venues)
    ensures VenuesIn(venues, locs) == venues
  {
    FilterAll(venues, (v: Venue) => LocationOf(v) in locs);
  }

  /** Each venue appears in exactly one group, the one for its own
      (city, state): its entry is there, and any group holding its entry is
      that group (primary keys being unique, no other venue has the same
      entry). */
  lemma {:induction false} EachVenueInOneArea(areas: seq<Area>, venues: seq<Venue>, shows: seq<Show>, now: int, v: Venue)
    requires IsLocationGrouping(areas, venues, shows, now)
    requires UniqueVenueIds(venues)
    requires v in venues
    ensures exists i :: 0 <= i < |areas| && AreaLocation(areas[i]) == LocationOf(v) &&
                        Summarize(v, shows, now) in areas[i].venues
    ensures forall i :: 0 <= i < |areas| && Summarize(v, shows, now) in areas[i].venues ==>
                        AreaLocation(areas[i]) == LocationOf(v)
  {
    var loc := LocationOf(v);
    assert loc in Locations(venues);
    var i :| 0 <= i < |areas| && AreaLocation(areas[i]) == loc;
    SummaryInOwnArea(venues, shows, now, v);
    assert areas[i] == AreaOf(venues, shows, now, loc);
    forall j | 0 <= j < |areas| && Summarize(v, shows, now) in areas[j].venues
      ensures AreaLocation(areas[j]) == loc
    {
      assert areas[j] == AreaOf(venues, shows, now, AreaLocation(areas[j]));
      SummaryOnlyInOwnArea(venues, shows, now, v, AreaLocation(areas[j]));
    }
  }

  lemma SummaryInOwnArea(venues: seq<Venue>, shows: seq<Show>, now: int, v: Venue)
    requires v in venues
    ensures Summarize(v, shows, now) in AreaOf(venues, shows, now, LocationOf(v)).venues
  {
    var at := VenuesAt(venues, LocationOf(v));
    assert v in at;
    var k :| 0 <= k < |at| && at[k] == v;
    assert SummarizeAll(at, shows, now)[k] == Summarize(v, shows, now);
  }

  lemma SummaryOnlyInOwnArea(venues: seq<Venue>, shows: seq<Show>, now: int, v: Venue, loc: Location)
    requires UniqueVenueIds(venues)
    requires v in venues
    requires Summarize(v, shows, now) in AreaOf(venues, shows, now, loc).venues
    ensures LocationOf(v) == loc
  {
    var at := VenuesAt(venues, loc);
    var summaries := SummarizeAll(at, shows, now);
    var m :| 0 <= m < |summaries| && summaries[m] == Summarize(v, shows, now);
    var w := at[m];
    assert w in at;
    assert w in venues && w.id == v.id;
    SameIdSameVenue(venues, v, w);
  }

  lemma SameIdSameVenue(venues: seq<Venue>, v: Venue, w: Venue)
    requires UniqueVenueIds(venues)
    requires v in venues && w in venues && v.id == w.id
    ensures v == w
  {
    var a :| 0 <= a < |venues| && venues[a] == v;
    var b :| 0 <= b < |venues| && venues[b] == w;
    assert a == b;
  }

  lemma LocationsSnoc(vs: seq<Venue>, v: Venue)
    ensures Locations(vs + [v]) == Locations(vs) + {LocationOf(v)}
  {
    forall loc | loc in Locations(vs + [v]) ensures loc in Locations(vs) + {LocationOf(v)} {
      var w :| w in vs + [v] && LocationOf(w) == loc;
      if w != v {
        assert w in vs;
      }
    }
  }

  /** An empty table gives an empty page, and a non-empty one at least one
      group. */
  lemma {:induction false} NoVenuesNoAreas(areas: seq<Area>, venues: seq<Venue>, shows: seq<Show>, now: int)
    requires IsLocationGrouping(areas, venues, shows, now)
    ensures areas == [] <==> venues == []
  {
    if venues != [] {
      assert LocationOf(venues[0]) in Locations(venues);
    }
  }
}
