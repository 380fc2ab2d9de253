/** The artist search of app.py:387-408: the artists whose name contains
    the search term, ignoring case, each with its number of upcoming
    shows, and the number of hits. The SQL pattern `%term%` is read as a
    literal substring test, and case is folded on ASCII letters only. */
module Search {
  import opened Sequences
  import opened Records
  import opened Timeline

  /** ASCII lower-casing of one character: an upper-case letter becomes
      the same letter in lower case, every other character stays. */
  function LowerChar(c: char): (d: char)
    ensures !('A' <= d <= 'Z')
    ensures 'a' <= d <= 'z' <==> 'a' <= c <= 'z' || 'A' <= c <= 'Z'
    ensures !('A' <= c <= 'Z') ==> d == c
    ensures 'A' <= c <= 'Z' ==> d as int - c as int == 'a' as int - 'A' as int
  {
    if 'A' <= c <= 'Z' then (c as int + 32) as char else c
  }

  /** Two characters fold to the same one exactly when they are equal or
      are the same ASCII letter in the two cases. */
  lemma LowerCharEqual(c: char, e: char)
    ensures LowerChar(c) == LowerChar(e) <==>
              c == e
              || ('A' <= c <= 'Z' && e as int == c as int + 32)
              || ('A' <= e <= 'Z' && c as int == e as int + 32)
  {
  }

  /** A string lower-cased character by character. */
  function Lower(s: string): (r: string)
    ensures |r| == |s|
    ensures forall i :: 0 <= i < |s| ==> r[i] == LowerChar(s[i])
    decreases |s|
  {
    if s == [] then [] else [LowerChar(s[0])] + Lower(s[1..])
  }

  /** Lower-casing twice is lower-casing once. */
  lemma LowerIdempotent(s: string)
    ensures Lower(Lower(s)) == Lower(s)
  {
    assert forall i :: 0 <= i < |s| ==> Lower(Lower(s))[i] == Lower(s)[i];
  }

  /** `t` occurs in `s` starting at position `i`. */
  predicate OccursAt(s: string, t: string, i: int) {
    0 <= i && i + |t| <= |s| && s[i..i + |t|] == t
  }

  /** The substring test of the SQL pattern `%t%`, with any wildcard in `t`
      read literally: `t` occurs somewhere in `s`, scanning from the front. */
  function Contains(s: string, t: string): (r: bool)
    ensures r <==> exists i :: OccursAt(s, t, i)
    decreases |s|
  {
    if |t| <= |s| && s[..|t|] == t then
      assert OccursAt(s, t, 0);
      true
    else if s == [] then
      assert forall i :: !OccursAt(s, t, i);
      false
    else
      ShiftOccurrence(s, t);
      Contains(s[1..], t)
  }

  /** Without a match at the front, the matches in `s` are those in its tail,
      one position later. */
  lemma ShiftOccurrence(s: string, t: string)
    requires s != [] && !(|t| <= |s| && s[..|t|] == t)
    ensures (exists i :: OccursAt(s, t, i)) <==> (exists i :: OccursAt(s[1..], t, i))
  {
    forall i | OccursAt(s, t, i) ensures OccursAt(s[1..], t, i - 1) {
      assert i != 0;
      assert s[1..][i - 1..i - 1 + |t|] == s[i..i + |t|];
    }
    forall i | OccursAt(s[1..], t, i) ensures OccursAt(s, t, i + 1) {
      assert s[1..][i..i + |t|] == s[i + 1..i + 1 + |t|];
    }
  }

  /** The search predicate: `name ilike '%term%'`. */
  predicate NameMatches(name: string, term: string) {
    Contains(Lower(name), Lower(term))
  }

  /** `Artist.query.filter(Artist.name.ilike(...)).all()`: the matching
      artists, in table order. */
  function Matching(artists: seq<Artist>, term: string): (r: seq<Artist>)
    ensures forall a :: a in r <==> a in artists && NameMatches(a.name, term)
  {
    Filter(artists, (a: Artist) => NameMatches(a.name, term))
  }

  /** One hit: `{"id", "name", "num_upcoming_shows"}` (app.py:399-403). */
  datatype ArtistSummary = ArtistSummary(id: int, name: string, numUpcomingShows: nat)

  /** The response of app.py:405-408. */
  datatype SearchResponse = SearchResponse(count: nat, data: seq<ArtistSummary>)

  /** The entry for one artist; its shows are `artist.shows`. */
  function SummarizeArtist(a: Artist, shows: seq<Show>, now: int): (s: ArtistSummary)
    ensures s.id == a.id && s.name == a.name
    ensures s.numUpcomingShows == |UpcomingPositions(ShowsByArtist(shows, a.id), now)|
    ensures s.numUpcomingShows <= |ShowsByArtist(shows, a.id)|
  {
    CountUpcomingCountsPositions(ShowsByArtist(shows, a.id), now);
    ArtistSummary(a.id, a.name, CountUpcoming(ShowsByArtist(shows, a.id), now))
  }

  /** The entries for `hits`, one per artist and in the same order. */
  function SummarizeArtists(hits: seq<Artist>, shows: seq<Show>, now: int): (r: seq<ArtistSummary>)
    ensures |r| == |hits|
    ensures forall k :: 0 <= k < |hits| ==> r[k] == SummarizeArtist(hits[k], shows, now)
    decreases |hits|
  {
    if hits == [] then []
    else SummarizeArtists(hits[..|hits| - 1], shows, now) + [SummarizeArtist(hits[|hits| - 1], shows, now)]
  }

  /** The `search_artists` handler: the query, then one pass over its rows
      building the entries, then the count. */
  method SearchArtists(artists: seq<Artist>, shows: seq<Show>, term: string, now: int) returns (response: SearchResponse)
    ensures response.count == |response.data|
    ensures response.data == SummarizeArtists(Matching(artists, term), shows, now)
  {
    var hits := Matching(artists, term);
    var data: seq<ArtistSummary> := [];
    for k := 0 to |hits|
      invariant data == SummarizeArtists(hits[..k], shows, now)
    {
      SummarizeArtistsSnoc(hits, shows, now, k);
      data := data + [SummarizeArtist(hits[k], shows, now)];
    }
    assert hits[..|hits|] == hits;
    response := SearchResponse(|data|, data);
  }

  lemma SummarizeArtistsSnoc(hits: seq<Artist>, shows: seq<Show>, now: int, k: nat)
    requires k < |hits|
    ensures SummarizeArtists(hits[..k + 1], shows, now) ==
            SummarizeArtists(hits[..k], shows, now) + [SummarizeArtist(hits[k], shows, now)]
  {
    assert hits[..k + 1][..k] == hits[..k];
  }

  /** The hits are exactly the matching artists: an artist's entry is in the
      response if and only if its name matches (primary keys being unique,
      no other artist has the same entry). */
  lemma {:induction false} SearchFindsExactly(artists: seq<Artist>, shows: seq<Show>, term: string, now: int, a: Artist)
    requires UniqueArtistIds(artists)
    requires a in artists
    ensures SummarizeArtist(a, shows, now) in SummarizeArtists(Matching(artists, term), shows, now)
            <==> NameMatches(a.name, term)
  {
    var hits := Matching(artists, term);
    var data := SummarizeArtists(hits, shows, now);
    if NameMatches(a.name, term) {
      assert a in hits;
      var k :| 0 <= k < |hits| && hits[k] == a;
      assert data[k] == SummarizeArtist(a, shows, now);
    }
    if SummarizeArtist(a, shows, now) in data {
      var k :| 0 <= k < |data| && data[k] == SummarizeArtist(a, shows, now);
      var b := hits[k];
      assert b in hits;
      SameIdSameArtist(artists, a, b);
    }
  }

  lemma SameIdSameArtist(artists: seq<Artist>, a: Artist, b: Artist)
    requires UniqueArtistIds(artists)
    requires a in artists && b in artists && a.id == b.id
    ensures a == b
  {
    var i :| 0 <= i < |artists| && artists[i] == a;
    var j :| 0 <= j < |artists| && artists[j] == b;
    assert i == j;
  }

  /** The default search term "" matches every artist. */
  lemma EmptyTermMatchesAll(artists: seq<Artist>)
    ensures Matching(artists, "") == artists
  {
    forall a | a in artists ensures NameMatches(a.name, "") {
      assert OccursAt(Lower(a.name), Lower(""), 0);
    }
    FilterAll(artists, (a: Artist) => NameMatches(a.name, ""));
  }

  /** Matching ignores the case of both the name and the term. */
  lemma MatchIgnoresCase(name: string, term: string)
    ensures NameMatches(Lower(name), term) == NameMatches(name, term)
    ensures NameMatches(name, Lower(term)) == NameMatches(name, term)
  {
    LowerIdempotent(name);
    LowerIdempotent(term);
  }
}
