/** Classifying shows against the current instant `now`, which the handlers
    read from the clock (`datetime.now()`) and this model takes as a
    parameter. Two conventions coexist in the source and are kept apart:
    the detail pages call a show past when it starts strictly before `now`
    and upcoming otherwise (app.py:231-234, 443-446), while the upcoming
    counts only take shows starting strictly after `now` (app.py:166, 397). */
module Timeline {
  import opened Sequences
  import opened Records

  /** One row of a detail page's show list: the other party of the booking
      (the artist on a venue page, the venue on an artist page) and the
      start time (app.py:224-229, 436-441). */
  datatype ShowEntry = ShowEntry(
    counterpartId: int,
    counterpartName: string,
    counterpartImageLink: string,
    startTime: int)

  /** The entries a detail page lists under `past_shows`. */
  function PastOf(entries: seq<ShowEntry>, now: int): (past: seq<ShowEntry>)
    ensures forall e :: e in past <==> e in entries && e.startTime < now
  {
    Filter(entries, (e: ShowEntry) => e.startTime < now)
  }

  /** The entries a detail page lists under `upcoming_shows`: the `else`
      branch, so a show starting exactly at `now` is among them. */
  function UpcomingOf(entries: seq<ShowEntry>, now: int): (upcoming: seq<ShowEntry>)
    ensures forall e :: e in upcoming <==> e in entries && e.startTime >= now
  {
    Filter(entries, (e: ShowEntry) => !(e.startTime < now))
  }

  /** The loop of `show_venue` / `show_artist` (app.py:220-234, 432-446):
      one pass over the entries, appending each to `past` or `upcoming`. */
  method SplitByTime(entries: seq<ShowEntry>, now: int) returns (past: seq<ShowEntry>, upcoming: seq<ShowEntry>)
    ensures past == PastOf(entries, now)
    ensures upcoming == UpcomingOf(entries, now)
    ensures |past| + |upcoming| == |entries|
  {
    past, upcoming := [], [];
    for i := 0 to |entries|
      invariant past == PastOf(entries[..i], now)
      invariant upcoming == UpcomingOf(entries[..i], now)
    {
      assert entries[..i + 1][..i] == entries[..i];
      if entries[i].startTime < now {
        past := past + [entries[i]];
      } else {
        upcoming := upcoming + [entries[i]];
      }
    }
    assert entries[..|entries|] == entries;
    SplitIsPartition(entries, now);
  }

  /** The split is a partition that keeps the input order: every entry lands
      in exactly one list (as a multiset, so duplicates are kept), the two
      lengths add up to the input's, and each list is a subsequence of it. */
  lemma {:induction false} SplitIsPartition(entries: seq<ShowEntry>, now: int)
    ensures |PastOf(entries, now)| + |UpcomingOf(entries, now)| == |entries|
    ensures multiset(PastOf(entries, now)) + multiset(UpcomingOf(entries, now)) == multiset(entries)
    ensures Subsequence(PastOf(entries, now), entries)
    ensures Subsequence(UpcomingOf(entries, now), entries)
  {
    FilterComplement(entries, (e: ShowEntry) => e.startTime < now, (e: ShowEntry) => !(e.startTime < now));
    FilterIsSubsequence(entries, (e: ShowEntry) => e.startTime < now);
    FilterIsSubsequence(entries, (e: ShowEntry) => !(e.startTime < now));
  }

  /** When every show starts at or after `now` there is nothing past and
      everything is upcoming, in the given order. */
  lemma {:induction false} NothingPastYet(entries: seq<ShowEntry>, now: int)
    requires forall e :: e in entries ==> e.startTime >= now
    ensures PastOf(entries, now) == []
    ensures UpcomingOf(entries, now) == entries
  {
    FilterNone(entries, (e: ShowEntry) => e.startTime < now);
    FilterAll(entries, (e: ShowEntry) => !(e.startTime < now));
  }

  /** The comprehension `[show for show in shows if show.start_time > now]`
      (app.py:166, 397). */
  function UpcomingShows(shows: seq<Show>, now: int): (r: seq<Show>)
    ensures forall s :: s in r <==> s in shows && s.startTime > now
  {
    Filter(shows, (s: Show) => s.startTime > now)
  }

  /** The shows starting exactly at `now`: the ones the two conventions
      disagree on. */
  function ShowsStartingAt(shows: seq<Show>, now: int): (r: seq<Show>)
    ensures forall s :: s in r <==> s in shows && s.startTime == now
  {
    Filter(shows, (s: Show) => s.startTime == now)
  }

  /** `num_upcoming_shows`: never more than the number of shows. */
  function CountUpcoming(shows: seq<Show>, now: int): (n: nat)
    ensures n <= |shows|
  {
    |UpcomingShows(shows, now)|
  }

  /** The positions in `shows` of the shows starting after `now`. */
  ghost function UpcomingPositions(shows: seq<Show>, now: int): set<nat> {
    set i: nat | i < |shows| && shows[i].startTime > now
  }

  /** `num_upcoming_shows` is the number of shows starting strictly after
      `now`, counted by position (so two equal rows count twice). */
  lemma {:induction false} CountUpcomingCountsPositions(shows: seq<Show>, now: int)
    ensures CountUpcoming(shows, now) == |UpcomingPositions(shows, now)|
    decreases |shows|
  {
    if shows != [] {
      var n := |shows| - 1;
      var init := shows[..n];
      CountUpcomingCountsPositions(init, now);
      assert shows == init + [shows[n]];
      var before := UpcomingPositions(init, now);
      if shows[n].startTime > now {
        assert UpcomingPositions(shows, now) == before + {n};
        assert n !in before;
      } else {
        assert UpcomingPositions(shows, now) == before;
      }
    }
  }

  /** A later instant never counts more upcoming shows. */
  lemma {:induction false} CountUpcomingAntitone(shows: seq<Show>, now: int, later: int)
    requires now <= later
    ensures CountUpcoming(shows, later) <= CountUpcoming(shows, now)
    decreases |shows|
  {
    if shows != [] {
      var n := |shows| - 1;
      assert shows == shows[..n] + [shows[n]];
      CountUpcomingAntitone(shows[..n], now, later);
    }
  }
}
