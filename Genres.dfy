/** The genre list of a venue or artist is stored as one comma-joined string
    (app.py:305, 544, 631, 672) and read back with
    `s.split(',') if s else []` (app.py:237, 449, 496, 507, 581, 592). */
module Genres {

  const Separator: char := ','

  /** Number of occurrences of `c` in `s`. */
  function Occurrences(s: string, c: char): nat
    decreases |s|
  {
    if s == [] then 0 else (if s[0] == c then 1 else 0) + Occurrences(s[1..], c)
  }

  lemma {:induction false} OccurrencesAppend(a: string, b: string, c: char)
    ensures Occurrences(a + b, c) == Occurrences(a, c) + Occurrences(b, c)
    decreases |a|
  {
    if a != [] {
      assert (a + b)[0] == a[0];
      assert (a + b)[1..] == a[1..] + b;
      OccurrencesAppend(a[1..], b, c);
    } else {
      assert a + b == b;
    }
  }

  lemma {:induction false} NoOccurrences(s: string, c: char)
    requires c !in s
    ensures Occurrences(s, c) == 0
    decreases |s|
  {
    if s != [] {
      NoOccurrences(s[1..], c);
    }
  }

  /** Python's `str.split(',')`: one piece more than there are commas, no
      piece holds a comma, and empty pieces are kept ("" splits to [""]). */
  function Split(s: string): (pieces: seq<string>)
    ensures |pieces| == Occurrences(s, Separator) + 1
    ensures forall i :: 0 <= i < |pieces| ==> Separator !in pieces[i]
    decreases |s|
  {
    if s == [] then [""]
    else if s[0] == Separator then [""] + Split(s[1..])
    else
      var rest := Split(s[1..]);
      [[s[0]] + rest[0]] + rest[1..]
  }

  /** Python's `','.join(parts)`. When no part holds a comma, the joined
      string holds exactly one comma between each two neighbouring parts. */
  function Join(parts: seq<string>): (s: string)
    ensures |parts| > 0 && (forall i :: 0 <= i < |parts| ==> Separator !in parts[i]) ==>
              Occurrences(s, Separator) == |parts| - 1
    decreases |parts|
  {
    if |parts| == 0 then ""
    else if |parts| == 1 then
      if Separator !in parts[0] then NoOccurrences(parts[0], Separator); parts[0] else parts[0]
    else
      var tail := Join(parts[1..]);
      OccurrencesAppend(parts[0], [Separator] + tail, Separator);
      OccurrencesAppend([Separator], tail, Separator);
      assert parts[0] + [Separator] + tail == parts[0] + ([Separator] + tail);
      if Separator !in parts[0] then NoOccurrences(parts[0], Separator); parts[0] + [Separator] + tail
      else parts[0] + [Separator] + tail
  }

  /** The stored string read back as a genre list: empty (or absent) gives
      the empty list, anything else is split on commas. */
  function Decode(raw: string): (genres: seq<string>)
    ensures genres == [] <==> raw == ""
    ensures forall i :: 0 <= i < |genres| ==> Separator !in genres[i]
  {
    if raw == "" then [] else Split(raw)
  }

  /** A submitted genre list as it is stored. */
  function Encode(genres: seq<string>): (raw: string)
    ensures raw == "" <==> genres == [] || genres == [""]
  {
    JoinEmpty(genres);
    Join(genres)
  }

  lemma JoinEmpty(parts: seq<string>)
    ensures Join(parts) == "" <==> parts == [] || parts == [""]
  {
    if |parts| > 1 {
      assert |Join(parts)| >= 1;
    }
  }

  /** Joining the pieces of a split gives back the original string. */
  lemma {:induction false} JoinSplit(s: string)
    ensures Join(Split(s)) == s
    decreases |s|
  {
    if s == [] {
    } else if s[0] == Separator {
      JoinSplit(s[1..]);
      var rest := Split(s[1..]);
      assert Split(s) == [""] + rest;
      assert ([""] + rest)[1..] == rest;
      assert s == [Separator] + s[1..];
    } else {
      JoinSplit(s[1..]);
      var rest := Split(s[1..]);
      var pieces := [[s[0]] + rest[0]] + rest[1..];
      assert Split(s) == pieces;
      assert pieces[1..] == rest[1..];
      if |rest| == 1 {
        assert s == [s[0]] + s[1..];
      } else {
        assert Join(rest) == rest[0] + [Separator] + Join(rest[1..]);
        assert s == [s[0]] + s[1..];
      }
    }
  }

  /** A string without commas splits into itself alone. */
  lemma {:induction false} SplitWithoutSeparator(x: string)
    requires Separator !in x
    ensures Split(x) == [x]
    decreases |x|
  {
    if x != [] {
      SplitWithoutSeparator(x[1..]);
      assert x == [x[0]] + x[1..];
    }
  }

  /** A comma-free prefix followed by a comma splits off as the first piece. */
  lemma {:induction false} SplitAfterPiece(x: string, rest: string)
    requires Separator !in x
    ensures Split(x + [Separator] + rest) == [x] + Split(rest)
    decreases |x|
  {
    var s := x + [Separator] + rest;
    if x == [] {
      assert s == [Separator] + rest;
      assert s[1..] == rest;
    } else {
      assert s[1..] == x[1..] + [Separator] + rest;
      SplitAfterPiece(x[1..], rest);
      assert x == [x[0]] + x[1..];
    }
  }

  /** Splitting a join of comma-free parts gives the parts back. */
  lemma {:induction false} SplitJoin(parts: seq<string>)
    requires |parts| > 0
    requires forall i :: 0 <= i < |parts| ==> Separator !in parts[i]
    ensures Split(Join(parts)) == parts
    decreases |parts|
  {
    if |parts| == 1 {
      SplitWithoutSeparator(parts[0]);
    } else {
      SplitJoin(parts[1..]);
      SplitAfterPiece(parts[0], Join(parts[1..]));
      assert parts == [parts[0]] + parts[1..];
    }
  }

  /** Storing a decoded genre string reproduces it exactly, for every
      string, the empty one included. */
  lemma {:induction false} EncodeDecode(raw: string)
    ensures Encode(Decode(raw)) == raw
  {
    if raw != "" {
      JoinSplit(raw);
    }
  }

  /** A genre list whose names hold no comma survives storage, except for
      the one list [""], which is stored as "" and read back as []. */
  lemma {:induction false} DecodeEncode(genres: seq<string>)
    requires forall i :: 0 <= i < |genres| ==> Separator !in genres[i]
    requires genres != [""]
    ensures Decode(Encode(genres)) == genres
  {
    if genres != [] {
      SplitJoin(genres);
    }
  }

  /** Witnesses of the two ways the encoding loses information: a genre name
      containing a comma comes back as two genres, and a single empty genre
      comes back as no genre at all. */
  lemma LossyCases()
    ensures Decode(Encode(["R,B"])) == ["R", "B"]
    ensures Decode(Encode([""])) == []
  {
    assert Encode(["R,B"]) == "R,B";
    assert Split("R,B") == ["R"] + Split("B") by {
      SplitAfterPiece("R", "B");
      assert "R" + [Separator] + "B" == "R,B";
    }
    SplitWithoutSeparator("B");
  }
}
