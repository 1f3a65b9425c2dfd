/** The behaviour of Go's strings.Split, strings.SplitN(s, sep, 2) and of
    "%s/%s/..." formatting, for a one-character separator. Resource names
    and request paths in the provider are built and taken apart with these. */
module Strings {

  /** strings.Split(s, string(sep)): the pieces between separators, in
      order; an input without a separator is one piece, "" gives [""]. */
  function Split(s: string, sep: char): (parts: seq<string>)
    ensures |parts| >= 1
    decreases |s|
  {
    if s == [] then [""]
    else
      var rest := Split(s[1..], sep);
      if s[0] == sep then [""] + rest
      else [[s[0]] + rest[0]] + rest[1..]
  }

  /** The pieces written one after another with the separator between them:
      fmt.Sprintf("%s/%s/%s", a, b, c) is Join([a, b, c], '/'). */
  function Join(parts: seq<string>, sep: char): string
  {
    if parts == [] then ""
    else if |parts| == 1 then parts[0]
    else parts[0] + [sep] + Join(parts[1..], sep)
  }

  function Last<T>(s: seq<T>): T
    requires |s| > 0
  {
    s[|s| - 1]
  }

  /** The first position of c in s (strings.Index). */
  function IndexOf(s: string, c: char): (i: nat)
    requires c in s
    ensures i < |s| && s[i] == c && c !in s[..i]
  {
    if s[0] == c then 0
    else
      assert c in s[1..] by { assert s == [s[0]] + s[1..]; }
      var j := IndexOf(s[1..], c);
      assert s[..j + 1] == [s[0]] + s[1..][..j];
      j + 1
  }

  /** strings.SplitN(s, string(sep), 2): the text before the first separator
      and everything after it, or the whole input alone when there is no
      separator. */
  function SplitN2(s: string, sep: char): (parts: seq<string>)
    ensures |parts| == 2 <==> sep in s
    ensures |parts| == 1 <==> sep !in s
    ensures |parts| == 1 ==> parts[0] == s
    ensures |parts| == 2 ==> sep !in parts[0] && parts[0] + [sep] + parts[1] == s
  {
    if sep in s then
      var i := IndexOf(s, sep);
      SplitAround(s, i);
      [s[..i], s[i + 1..]]
    else [s]
  }

  lemma SplitAround(s: string, i: nat)
    requires i < |s|
    ensures s[..i] + [s[i]] + s[i + 1..] == s
  {
    assert s == s[..i] + s[i..];
    assert s[i..] == [s[i]] + s[i + 1..];
  }

  /** No piece of a split contains the separator. */
  lemma {:induction false} SplitPiecesAreFree(s: string, sep: char)
    ensures forall i :: 0 <= i < |Split(s, sep)| ==> sep !in Split(s, sep)[i]
    decreases |s|
  {
    if s != [] {
      SplitPiecesAreFree(s[1..], sep);
      var rest := Split(s[1..], sep);
      if s[0] != sep {
        var parts := Split(s, sep);
        assert parts == [[s[0]] + rest[0]] + rest[1..];
        forall i | 0 <= i < |parts| ensures sep !in parts[i] {
          if i > 0 { assert parts[i] == rest[i]; }
        }
      }
    }
  }

  /** Splitting a separator-free prefix in front of t only extends the first
      piece of t. */
  lemma {:induction false} SplitFreePrefix(p: string, t: string, sep: char)
    requires sep !in p
    ensures Split(p + t, sep) == [p + Split(t, sep)[0]] + Split(t, sep)[1..]
    decreases |p|
  {
    if p == [] {
      var pt := Split(t, sep);
      assert p + t == t && p + pt[0] == pt[0];
      assert pt == [pt[0]] + pt[1..];
    } else {
      assert (p + t)[0] == p[0] && (p + t)[1..] == p[1..] + t;
      SplitFreePrefix(p[1..], t, sep);
      assert [p[0]] + (p[1..] + Split(t, sep)[0]) == p + Split(t, sep)[0];
    }
  }

  /** Joining the pieces of a split gives back the input. */
  lemma {:induction false} JoinSplit(s: string, sep: char)
    ensures Join(Split(s, sep), sep) == s
    decreases |s|
  {
    if s != [] {
      JoinSplit(s[1..], sep);
      var rest := Split(s[1..], sep);
      if s[0] == sep {
        assert Join([""] + rest, sep) == "" + [sep] + Join(rest, sep) by {
          assert ([""] + rest)[1..] == rest;
        }
        assert s == [sep] + s[1..];
      } else {
        var parts := [[s[0]] + rest[0]] + rest[1..];
        if |rest| == 1 {
          assert s == [s[0]] + s[1..];
        } else {
          assert parts[1..] == rest[1..];
          assert Join(rest, sep) == rest[0] + [sep] + Join(rest[1..], sep);
          assert s == [s[0]] + s[1..];
        }
      }
    }
  }

  /** Splitting pieces that hold no separator, once joined, gives them back. */
  lemma {:induction false} SplitJoin(parts: seq<string>, sep: char)
    requires |parts| >= 1
    requires forall i :: 0 <= i < |parts| ==> sep !in parts[i]
    ensures Split(Join(parts, sep), sep) == parts
    decreases |parts|
  {
    if |parts| == 1 {
      SplitFreePrefix(parts[0], "", sep);
      assert parts[0] + "" == parts[0];
    } else {
      var u := Join(parts[1..], sep);
      SplitJoin(parts[1..], sep);
      assert Split([sep] + u, sep) == [""] + Split(u, sep) by {
        assert ([sep] + u)[1..] == u;
      }
      SplitFreePrefix(parts[0], [sep] + u, sep);
      assert parts[0] + [sep] + u == parts[0] + ([sep] + u);
      assert parts[0] + "" == parts[0];
      assert parts == [parts[0]] + parts[1..];
    }
  }

  /** A join of two or more pieces ends with the separator and the last piece. */
  lemma {:induction false} JoinLast(parts: seq<string>, sep: char)
    requires |parts| >= 2
    ensures Join(parts, sep) == Join(parts[..|parts| - 1], sep) + [sep] + Last(parts)
    decreases |parts|
  {
    if |parts| > 2 {
      JoinLast(parts[1..], sep);
      assert parts[1..][..|parts| - 2] == parts[..|parts| - 1][1..];
    }
  }

  /** The last piece of a split is the longest separator-free suffix of the
      input: it is a suffix, holds no separator, and is either the whole
      input or preceded by a separator. */
  lemma LastPieceIsFinalSegment(s: string, sep: char)
    ensures var r := Last(Split(s, sep));
      && sep !in r
      && |r| <= |s| && s[|s| - |r|..] == r
      && (|r| == |s| || s[|s| - |r| - 1] == sep)
  {
    var parts := Split(s, sep);
    SplitPiecesAreFree(s, sep);
    JoinSplit(s, sep);
    if |parts| >= 2 {
      JoinLast(parts, sep);
      var front := Join(parts[..|parts| - 1], sep);
      assert s == (front + [sep]) + Last(parts);
      assert s[|s| - |Last(parts)|..] == Last(parts);
    }
  }

  /** Splitting at a first separator gives the free prefix, then the pieces of the rest. */
  lemma SplitAtSeparator(p: string, u: string, sep: char)
    requires sep !in p
    ensures Split(p + [sep] + u, sep) == [p] + Split(u, sep)
  {
    var t := [sep] + u;
    assert p + [sep] + u == p + t;
    SplitOfLeadingSeparator(u, sep);
    SplitFreePrefix(p, t, sep);
    assert p + "" == p;
  }

  lemma SplitOfLeadingSeparator(u: string, sep: char)
    ensures Split([sep] + u, sep) == [""] + Split(u, sep)
  {
    assert ([sep] + u)[1..] == u;
  }

  /** The first piece of SplitN2 is the first piece of Split, and the second
      is the remaining pieces of Split joined back together. */
  lemma SplitN2AgreesWithSplit(s: string, sep: char)
    requires sep in s
    ensures SplitN2(s, sep)[0] == Split(s, sep)[0]
    ensures SplitN2(s, sep)[1] == Join(Split(s, sep)[1..], sep)
  {
    var parts := SplitN2(s, sep);
    SplitAtSeparator(parts[0], parts[1], sep);
    JoinSplit(parts[1], sep);
  }
}
