/** The pieces of Go's standard library that the normalizer leans on:
    reading a string map (an absent key reads as the empty string) and
    splitting a string on a one-character separator. */
module Strings {

  type StringMap = map<string, string>

  /** Go's `m[key]` on a map with string values: an absent key yields "". */
  function Lookup<K>(m: map<K, string>, key: K): (v: string)
    ensures key in m ==> v == m[key]
    ensures key !in m ==> v == ""
  {
    if key in m then m[key] else ""
  }

  /** Go's `strings.Split(s, string(sep))`: the pieces between the separators,
      so there is always one piece more than there are separators, and the
      empty string splits into one empty piece. */
  function Split(s: string, sep: char): (parts: seq<string>)
    ensures |parts| >= 1
    ensures forall i :: 0 <= i < |parts| ==> sep !in parts[i]
    decreases |s|
  {
    if |s| == 0 then [""]
    else
      var rest := Split(s[1..], sep);
      if s[0] == sep then [""] + rest
      else [[s[0]] + rest[0]] + rest[1..]
  }

  /** There is one piece more than there are separators. */
  lemma {:induction false} SplitCount(s: string, sep: char)
    ensures |Split(s, sep)| == multiset(s)[sep] + 1
    decreases |s|
  {
    if |s| > 0 {
      SplitCount(s[1..], sep);
      assert s == [s[0]] + s[1..];
      assert multiset(s) == multiset([s[0]]) + multiset(s[1..]);
    }
  }

  /** Go's `strings.Join(parts, string(sep))`. */
  function Join(parts: seq<string>, sep: char): string
  {
    if |parts| == 0 then ""
    else if |parts| == 1 then parts[0]
    else parts[0] + [sep] + Join(parts[1..], sep)
  }

  /** Joining the pieces of a split gives back the original string. */
  lemma {:induction false} JoinSplit(s: string, sep: char)
    ensures Join(Split(s, sep), sep) == s
    decreases |s|
  {
    if |s| > 0 {
      var rest := Split(s[1..], sep);
      JoinSplit(s[1..], sep);
      assert s == [s[0]] + s[1..];
      if s[0] == sep {
        assert Split(s, sep) == [""] + rest;
        assert ([""] + rest)[1..] == rest;
      } else {
        var parts := Split(s, sep);
        assert parts == [[s[0]] + rest[0]] + rest[1..];
        if |rest| == 1 {
          assert parts == [[s[0]] + rest[0]];
        } else {
          assert parts[1..] == rest[1..];
          assert Join(rest, sep) == rest[0] + [sep] + Join(rest[1..], sep);
        }
      }
    }
  }

  /** A join of two or more pieces is the first piece, a separator, and the
      join of the others. */
  lemma JoinUnfold(p: seq<string>, sep: char)
    requires |p| >= 2
    ensures Join(p, sep) == p[0] + [sep] + Join(p[1..], sep)
  {
  }

  /** The first three pieces of a split, rejoined one at a time: the string
      is p0/r1, r1 is p1/r2, and r2 is p2, alone or followed by the
      separator and the remaining pieces. */
  lemma SplitFirstThreePieces(s: string, sep: char)
    requires |Split(s, sep)| >= 3
    ensures var p := Split(s, sep);
            && s == p[0] + [sep] + Join(p[1..], sep)
            && Join(p[1..], sep) == p[1] + [sep] + Join(p[2..], sep)
            && Join(p[2..], sep) == p[2] + (if |p| == 3 then "" else [sep] + Join(p[3..], sep))
  {
    var p := Split(s, sep);
    JoinSplit(s, sep);
    JoinUnfold(p, sep);
    assert p[1..][1..] == p[2..];
    JoinUnfold(p[1..], sep);
    if |p| > 3 {
      assert p[2..][1..] == p[3..];
      JoinUnfold(p[2..], sep);
    }
  }

  /** A separator-free prefix glues onto the first piece of what follows it. */
  lemma {:induction false} SplitSeparatorFreePrefix(a: string, t: string, sep: char)
    requires sep !in a
    ensures Split(a + t, sep) == [a + Split(t, sep)[0]] + Split(t, sep)[1..]
    decreases |a|
  {
    if |a| > 0 {
      var pt := Split(t, sep);
      SplitSeparatorFreePrefix(a[1..], t, sep);
      var rest := Split(a[1..] + t, sep);
      assert rest == [a[1..] + pt[0]] + pt[1..];
      assert (a + t)[0] == a[0] != sep;
      assert (a + t)[1..] == a[1..] + t;
      assert Split(a + t, sep) == [[a[0]] + rest[0]] + rest[1..];
      assert [a[0]] + (a[1..] + pt[0]) == a + pt[0];
    } else {
      var pt := Split(t, sep);
      assert a + t == t && a + pt[0] == pt[0];
      assert pt == [pt[0]] + pt[1..];
    }
  }

  /** A leading separator closes an empty first piece. */
  lemma SplitLeadingSeparator(t: string, sep: char)
    ensures Split([sep] + t, sep) == [""] + Split(t, sep)
  {
    assert ([sep] + t)[1..] == t;
  }

  /** A separator-free piece followed by a separator is the first piece. */
  lemma SplitFirstPiece(a: string, t: string, sep: char)
    requires sep !in a
    ensures Split(a + [sep] + t, sep) == [a] + Split(t, sep)
  {
    SplitSeparatorFreePrefix(a, [sep] + t, sep);
    SplitLeadingSeparator(t, sep);
    assert a + [sep] + t == a + ([sep] + t);
    assert a + "" == a;
  }

  /** Splitting a join of separator-free pieces gives back the pieces: the
      decomposition `Split` computes is the only one there is. */
  lemma {:induction false} SplitJoin(parts: seq<string>, sep: char)
    requires |parts| >= 1
    requires forall i :: 0 <= i < |parts| ==> sep !in parts[i]
    ensures Split(Join(parts, sep), sep) == parts
    decreases |parts|
  {
    if |parts| == 1 {
      SplitSeparatorFreePrefix(parts[0], "", sep);
      assert parts[0] + "" == parts[0];
    } else {
      var tail := Join(parts[1..], sep);
      SplitJoin(parts[1..], sep);
      SplitSeparatorFreePrefix(parts[0], [sep] + tail, sep);
      assert parts[0] + [sep] + tail == parts[0] + ([sep] + tail);
      assert ([sep] + tail)[1..] == tail;
      assert Split([sep] + tail, sep) == [""] + parts[1..];
      assert parts[0] + "" == parts[0];
    }
  }
}
