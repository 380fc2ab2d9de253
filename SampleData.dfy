/** The fixture of add_sample_data.py:11-125 as values, and what the model
    says about it. Primary keys are the ones the database hands out in
    insertion order; start times are written yyyymmddhhmm, which orders
    them as the instants they stand for. Absent optional fields are "". */
module SampleData {
  import opened Sequences
  import opened Records
  import opened Timeline
  import opened Genres
  import opened Listing
  import opened Search
  import opened Detail

  const MusicalHop := Venue(1, "The Musical Hop", "San Francisco", "CA", "1015 Folsom Street", "123-123-1234",
    "https://images.unsplash.com/photo-1543900694-133f37abaaa5?ixlib=rb-1.2.1&ixid=eyJhcHBfaWQiOjEyMDd9&auto=format&fit=crop&w=400&q=60",
    "https://www.facebook.com/TheMusicalHop", "Jazz,Reggae,Swing,Classical,Folk",
    "https://www.themusicalhop.com", true,
    "We are on the lookout for a local artist to play every two weeks. Please call us.")

  const DuelingPianos := Venue(2, "The Dueling Pianos Bar", "New York", "NY", "335 Delancey Street", "914-003-1132",
    "https://images.unsplash.com/photo-1497032205916-ac775f0649ae?ixlib=rb-1.2.1&ixid=eyJhcHBfaWQiOjEyMDd9&auto=format&fit=crop&w=750&q=80",
    "https://www.facebook.com/theduelingpianos", "Classical,R&B,Hip-Hop",
    "https://www.theduelingpianos.com", false, "")

  const ParkSquare := Venue(3, "Park Square Live Music & Coffee", "San Francisco", "CA", "34 Whiskey Moore Ave", "415-000-1234",
    "https://images.unsplash.com/photo-1485686531765-ba63b07845a7?ixlib=rb-1.2.1&ixid=eyJhcHBfaWQiOjEyMDd9&auto=format&fit=crop&w=747&q=80",
    "https://www.facebook.com/ParkSquareLiveMusicAndCoffee", "Rock n Roll,Jazz,Classical,Folk",
    "https://www.parksquarelivemusicandcoffee.com", false, "")

  const GunsNPetals := Artist(1, "Guns N Petals", "San Francisco", "CA", "326-123-5000", "Rock n Roll",
    "https://images.unsplash.com/photo-1549213783-8284d0336c4f?ixlib=rb-1.2.1&ixid=eyJhcHBfaWQiOjEyMDd9&auto=format&fit=crop&w=300&q=80",
    "https://www.facebook.com/GunsNPetals", "https://www.gunsnpetalsband.com", true,
    "Looking for shows to perform at in the San Francisco Bay Area!")

  const MattQuevedo := Artist(2, "Matt Quevedo", "New York", "NY", "300-400-5000", "Jazz",
    "https://images.unsplash.com/photo-1495223153807-b916f75de8c5?ixlib=rb-1.2.1&ixid=eyJhcHBfaWQiOjEyMDd9&auto=format&fit=crop&w=334&q=80",
    "https://www.facebook.com/mattquevedo923251523", "", false, "")

  const WildSaxBand := Artist(3, "The Wild Sax Band", "San Francisco", "CA", "432-325-5432", "Jazz,Classical",
    "https://images.unsplash.com/photo-1558369981-f9ca78462e61?ixlib=rb-1.2.1&ixid=eyJhcHBfaWQiOjEyMDd9&auto=format&fit=crop&w=794&q=80",
    "", "", false, "")

  const SampleVenues := [MusicalHop, DuelingPianos, ParkSquare]
  const SampleArtists := [GunsNPetals, MattQuevedo, WildSaxBand]
  const SampleShows := [
    Show(1, 201905212130, 1, 1),
    Show(2, 201906152300, 2, 3),
    Show(3, 203504012000, 3, 3),
    Show(4, 203504082000, 3, 3),
    Show(5, 203504152000, 3, 3)]

  /** An instant between the 2019 and the 2035 shows. */
  const SampleNow := 202401010000

  /** The fixture is a well-formed store. */
  lemma SampleIsWellFormed()
    ensures WellFormed(SampleVenues, SampleArtists, SampleShows)
  {
    assert SampleVenues[1..][1..] == [ParkSquare];
    assert VenueIndex([ParkSquare], 3) == Some(0);
    assert SampleArtists[1..][1..] == [WildSaxBand];
    assert ArtistIndex([WildSaxBand], 3) == Some(0);
    assert ArtistIndex(SampleArtists[1..], 2) == Some(0);
  }

  /** Three venues of which the first and the last share a location and
      the middle one is elsewhere give two locations. */
  lemma TwoLocationsOfThree(venues: seq<Venue>)
    requires |venues| == 3
    requires LocationOf(venues[0]) == LocationOf(venues[2]) != LocationOf(venues[1])
    ensures Locations(venues) == {LocationOf(venues[0]), LocationOf(venues[1])}
  {
    forall loc | loc in Locations(venues) ensures loc in {LocationOf(venues[0]), LocationOf(venues[1])} {
      var v :| v in venues && LocationOf(v) == loc;
    }
  }

  /** The fixture's venues are in two cities. */
  lemma SampleLocations()
    ensures |Locations(SampleVenues)| == 2
  {
    TwoLocationsOfThree(SampleVenues);
  }

  /** The `/venues` page of the fixture has two groups, whatever order the
      locations are walked in. */
  lemma SampleHasTwoAreas(areas: seq<Area>)
    requires IsLocationGrouping(areas, SampleVenues, SampleShows, SampleNow)
    ensures |areas| == 2
  {
    SampleLocations();
  }

  /** Filtering three elements of which only the middle one fails the
      predicate. */
  lemma FilterOfThree<T(!new)>(s: seq<T>, p: T -> bool)
    requires |s| == 3 && p(s[0]) && !p(s[1]) && p(s[2])
    ensures Filter(s, p) == [s[0], s[2]]
  {
    var s2 := s[..2];
    var s1 := s2[..1];
    assert Filter(s1, p) == [s[0]] by {
      assert s1 == [s[0]];
      assert s1[..0] == [];
    }
    assert s2[1] == s[1];
    assert Filter(s2, p) == [s[0]];
  }

  /** Filtering a sequence whose first `n` elements fail the predicate and
      whose others satisfy it drops exactly the first `n`. */
  lemma FilterDropsPrefix<T(!new)>(s: seq<T>, p: T -> bool, n: nat)
    requires n <= |s|
    requires forall k :: 0 <= k < n ==> !p(s[k])
    requires forall k :: n <= k < |s| ==> p(s[k])
    ensures Filter(s, p) == s[n..]
  {
    FilterAppend(s[..n], s[n..], p);
    assert s[..n] + s[n..] == s;
    FilterNone(s[..n], p);
    FilterAll(s[n..], p);
  }

  /** The San Francisco venues, in table order. */
  lemma SampleSanFranciscoVenues()
    ensures VenuesAt(SampleVenues, LocationOf(MusicalHop)) == [MusicalHop, ParkSquare]
  {
    FilterOfThree(SampleVenues, (v: Venue) => LocationOf(v) == LocationOf(MusicalHop));
  }

  /** Park Square hosts every show but the first. */
  lemma SampleParkSquareShows()
    ensures ShowsAtVenue(SampleShows, 3) == SampleShows[1..]
  {
    FilterDropsPrefix(SampleShows, (s: Show) => s.venueId == 3, 1);
  }

  /** Of those, the three in 2035 are upcoming at `SampleNow`. */
  lemma SampleParkSquareUpcoming()
    ensures CountUpcoming(SampleShows[1..], SampleNow) == 3
  {
    FilterDropsPrefix(SampleShows[1..], (s: Show) => s.startTime > SampleNow, 1);
  }

  /** Park Square's entry on the listing counts three upcoming shows. */
  lemma SampleParkSquareCount()
    ensures Summarize(ParkSquare, SampleShows, SampleNow) == VenueSummary(3, "Park Square Live Music & Coffee", 3)
  {
    SampleParkSquareShows();
    SampleParkSquareUpcoming();
  }

  /** The San Francisco group lists The Musical Hop and Park Square, the
      latter with three upcoming shows. */
  lemma SampleSanFranciscoArea()
    ensures var a := AreaOf(SampleVenues, SampleShows, SampleNow, LocationOf(MusicalHop));
            && |a.venues| == 2
            && a.venues[0].id == 1
            && a.venues[1] == VenueSummary(3, "Park Square Live Music & Coffee", 3)
  {
    SampleSanFranciscoVenues();
    SampleParkSquareCount();
  }

  /** The five pieces of a string with four commas. */
  lemma SplitFive(raw: string, a: string, b: string, c: string, d: string, e: string)
    requires Separator !in a && Separator !in b && Separator !in c && Separator !in d && Separator !in e
    requires raw == a + [Separator] + (b + [Separator] + (c + [Separator] + (d + [Separator] + e)))
    ensures Decode(raw) == [a, b, c, d, e]
  {
    SplitWithoutSeparator(e);
    SplitAfterPiece(d, e);
    SplitAfterPiece(c, d + [Separator] + e);
    SplitAfterPiece(b, c + [Separator] + (d + [Separator] + e));
    SplitAfterPiece(a, b + [Separator] + (c + [Separator] + (d + [Separator] + e)));
  }

  /** The stored genre string of The Musical Hop, cut at its commas. */
  lemma SampleGenresShape()
    ensures "Jazz,Reggae,Swing,Classical,Folk" ==
            "Jazz" + [Separator] + ("Reggae" + [Separator] + ("Swing" + [Separator] + ("Classical" + [Separator] + "Folk")))
  {
    var tail := "Swing,Classical,Folk";
    assert tail == "Swing" + [Separator] + ("Classical" + [Separator] + "Folk");
  }

  /** The stored genre string of The Musical Hop reads back as five genres. */
  lemma SampleGenres()
    ensures Decode("Jazz,Reggae,Swing,Classical,Folk") == ["Jazz", "Reggae", "Swing", "Classical", "Folk"]
  {
    SampleGenresShape();
    SplitFive("Jazz,Reggae,Swing,Classical,Folk", "Jazz", "Reggae", "Swing", "Classical", "Folk");
  }

  /** A name with "Sax" at position 9 matches the term "sax". */
  lemma SaxMatches(name: string, term: string)
    requires |name| >= 12 && name[9..12] == "Sax" && term == "sax"
    ensures NameMatches(name, term)
  {
    var low, pattern := Lower(name), Lower(term);
    assert pattern == "sax";
    var word := name[9..12];
    assert Lower(word) == "sax";
    assert low[9..12] == Lower(word);
    assert OccursAt(low, pattern, 9);
  }

  /** Searching for "sax" finds The Wild Sax Band. */
  lemma SampleSearchFindsSax()
    ensures NameMatches(WildSaxBand.name, "sax")
    ensures WildSaxBand in Matching(SampleArtists, "sax")
  {
    SaxMatches(WildSaxBand.name, "sax");
  }

  /** The Wild Sax Band plays the last three shows. */
  lemma SampleWildSaxBandShows()
    ensures ShowsByArtist(SampleShows, 3) == SampleShows[2..]
  {
    FilterDropsPrefix(SampleShows, (s: Show) => s.artistId == 3, 2);
  }

  /** The rows of The Wild Sax Band's page: one per show, none before
      `SampleNow`. */
  lemma SampleWildSaxBandRows()
    ensures |JoinVenues(SampleShows[2..], SampleVenues)| == 3
    ensures forall e :: e in JoinVenues(SampleShows[2..], SampleVenues) ==> e.startTime >= SampleNow
  {
    var band := SampleShows[2..];
    assert VenueIndex(SampleVenues, 3).Some? by {
      assert SampleVenues[2].id == 3;
    }
    assert forall s :: s in band ==> s.venueId == 3 && s.startTime >= SampleNow;
  }

  /** The Wild Sax Band's page has no past show: all three of its shows are
      upcoming. */
  lemma SampleWildSaxBandAllUpcoming()
    ensures PastOf(JoinVenues(ShowsByArtist(SampleShows, 3), SampleVenues), SampleNow) == []
    ensures |UpcomingOf(JoinVenues(ShowsByArtist(SampleShows, 3), SampleVenues), SampleNow)| == 3
  {
    SampleWildSaxBandShows();
    SampleWildSaxBandRows();
    NothingPastYet(JoinVenues(SampleShows[2..], SampleVenues), SampleNow);
  }
}
