/** The functions of Go's `strings` package that the model needs, over ASCII text. */
module Strings {
  import opened Common

  /** strings.Join */
  function Join(elems: seq<string>, sep: string): string {
    if elems == [] then ""
    else if |elems| == 1 then elems[0]
    else elems[0] + sep + Join(elems[1..], sep)
  }

  /** `sep` occurs in `s` at position `j`. */
  predicate HasAt(s: string, sep: string, j: int) {
    0 <= j <= |s| - |sep| && s[j..j + |sep|] == sep
  }

  lemma HasAtTail(s: string, sep: string, j: nat)
    requires s != ""
    ensures HasAt(s[1..], sep, j) <==> HasAt(s, sep, j + 1)
  {
    if j + 1 <= |s| - |sep| {
      assert s[1..][j..j + |sep|] == s[j + 1..j + 1 + |sep|];
    }
  }

  /** strings.Index: the first position of `sep` in `s`, or -1. */
  function Index(s: string, sep: string): (r: int)
    ensures r == -1 || HasAt(s, sep, r)
  {
    if HasAt(s, sep, 0) then 0
    else if s == "" then -1
    else
      var r := Index(s[1..], sep);
      assert r >= 0 ==> HasAt(s, sep, r + 1) by { if r >= 0 { HasAtTail(s, sep, r); } }
      if r < 0 then -1 else r + 1
  }

  lemma {:induction false} IndexIsFirst(s: string, sep: string, j: int)
    requires HasAt(s, sep, j)
    ensures 0 <= Index(s, sep) <= j
  {
    if j > 0 {
      HasAtTail(s, sep, j - 1);
      IndexIsFirst(s[1..], sep, j - 1);
    }
  }

  lemma OccursAtChar(s: string, sep: string, j: int, k: nat)
    requires HasAt(s, sep, j) && k < |sep|
    ensures s[j + k] == sep[k]
  {
    assert s[j..j + |sep|][k] == s[j + k];
  }

  lemma OccursAtFirstChar(s: string, sep: string, j: int)
    requires HasAt(s, sep, j) && sep != ""
    ensures s[j] == sep[0]
  {
    OccursAtChar(s, sep, j, 0);
  }

  lemma {:induction false} IndexOfChar(s: string, c: char)
    ensures Index(s, [c]) >= 0 <==> c in s
    ensures Index(s, [c]) >= 0 ==> s[Index(s, [c])] == c && c !in s[..Index(s, [c])]
  {
    if s != "" {
      assert s[..1] == [s[0]] && s == [s[0]] + s[1..];
      IndexOfChar(s[1..], c);
      var r := Index(s[1..], [c]);
      assert r >= 0 ==> s[..r + 1] == [s[0]] + s[1..][..r];
    }
  }

  /** strings.Split with a non-empty separator. */
  function Split(s: string, sep: string): (r: seq<string>)
    requires sep != ""
    ensures |r| >= 1
    decreases |s|, 1
  {
    SplitAt(s, sep, Index(s, sep))
  }

  /** The pieces when the first separator is at `i`, or -1. */
  function SplitAt(s: string, sep: string, i: int): (r: seq<string>)
    requires sep != "" && (i < 0 || i + |sep| <= |s|)
    ensures |r| >= 1
    decreases |s|, 0
  {
    if i < 0 then [s] else [s[..i]] + Split(s[i + |sep|..], sep)
  }

  /** No proper suffix of the separator is also a prefix of it. */
  predicate Unbordered(sep: string) {
    sep != "" && forall k :: 0 < k < |sep| ==> sep[k..] != sep[..|sep| - k]
  }

  /** strings.Contains */
  predicate Contains(s: string, sep: string) { Index(s, sep) >= 0 }

  /** An unbordered separator does not occur across the beginning of another one. */
  lemma FirstOccurrence(x: string, sep: string, rest: string, j: int)
    requires Unbordered(sep) && 0 <= j < |x|
    ensures HasAt(x + sep + rest, sep, j) <==> HasAt(x, sep, j)
  {
    var s := x + sep + rest;
    if j + |sep| <= |x| {
      assert s[j..j + |sep|] == x[j..j + |sep|];
    } else {
      var k := |x| - j;
      assert s[j..j + |sep|][k..] == sep[..|sep| - k] != sep[k..];
    }
  }

  lemma IndexBeforeSeparator(x: string, sep: string, rest: string)
    requires Unbordered(sep)
    ensures Index(x + sep + rest, sep) == if Index(x, sep) >= 0 then Index(x, sep) else |x|
  {
    var s := x + sep + rest;
    var i, r := Index(x, sep), Index(s, sep);
    assert HasAt(s, sep, |x|);
    IndexIsFirst(s, sep, |x|);
    if r < |x| {
      FirstOccurrence(x, sep, rest, r);
      IndexIsFirst(x, sep, r);
    }
    if i >= 0 {
      FirstOccurrence(x, sep, rest, i);
      IndexIsFirst(s, sep, i);
    }
  }

  /** Splitting a text at one of its separators: the pieces of both sides. */
  lemma {:induction false} SplitConcat(x: string, sep: string, rest: string)
    requires Unbordered(sep)
    ensures Split(x + sep + rest, sep) == Split(x, sep) + Split(rest, sep)
    decreases |x|, 1
  {
    IndexBeforeSeparator(x, sep, rest);
    if Index(x, sep) < 0 {
      assert Split(x + sep + rest, sep) == SplitAt(x + sep + rest, sep, |x|);
      assert (x + sep + rest)[..|x|] == x && (x + sep + rest)[|x| + |sep|..] == rest;
    } else {
      SplitLater(x, sep, rest, Index(x, sep));
    }
  }

  lemma {:induction false} SplitLater(x: string, sep: string, rest: string, i: nat)
    requires Unbordered(sep) && Index(x, sep) == i == Index(x + sep + rest, sep)
    ensures Split(x + sep + rest, sep) == Split(x, sep) + Split(rest, sep)
    decreases |x|, 0
  {
    var head, tail := [x[..i]], x[i + |sep|..];
    assert Split(x, sep) == SplitAt(x, sep, i);
    assert Split(x + sep + rest, sep) == SplitAt(x + sep + rest, sep, i);
    TailOfRest(x, sep, rest, i);
    assert Split(tail + sep + rest, sep) == Split(tail, sep) + Split(rest, sep) by {
      SplitConcat(tail, sep, rest);
    }
    Regroup(head, Split(tail, sep), Split(rest, sep));
  }

  lemma TailOfRest(x: string, sep: string, rest: string, i: nat)
    requires i + |sep| <= |x|
    ensures (x + sep + rest)[..i] == x[..i]
    ensures (x + sep + rest)[i + |sep|..] == x[i + |sep|..] + sep + rest
  {
  }

  /** The pieces of all elements, one after the other. */
  function Pieces(elems: seq<string>, sep: string): (r: seq<string>)
    requires sep != ""
    ensures |r| >= |elems|
  {
    if elems == [] then [] else Split(elems[0], sep) + Pieces(elems[1..], sep)
  }

  lemma {:induction false} SplitJoinPieces(elems: seq<string>, sep: string)
    requires Unbordered(sep) && elems != []
    ensures Split(Join(elems, sep), sep) == Pieces(elems, sep)
  {
    if |elems| == 1 {
      assert Pieces(elems[1..], sep) == [];
    } else {
      SplitJoinPieces(elems[1..], sep);
      SplitConcat(elems[0], sep, Join(elems[1..], sep));
    }
  }

  lemma PiecesOfOne(x: string, sep: string)
    requires sep != ""
    ensures |Split(x, sep)| == 1 <==> !Contains(x, sep)
    ensures !Contains(x, sep) ==> Split(x, sep) == [x]
  {
  }

  /** There are as many pieces as elements exactly when no element contains the separator,
      and then the pieces are the elements. */
  lemma {:induction false} AsManyPieces(elems: seq<string>, sep: string)
    requires sep != ""
    ensures |Pieces(elems, sep)| == |elems| <==> NoneContains(elems, sep)
    ensures NoneContains(elems, sep) ==> Pieces(elems, sep) == elems
  {
    if elems != [] {
      PiecesOfOne(elems[0], sep);
      AsManyPieces(elems[1..], sep);
      assert NoneContains(elems, sep) <==> !Contains(elems[0], sep) && NoneContains(elems[1..], sep) by {
        assert elems == [elems[0]] + elems[1..];
      }
    }
  }

  predicate NoneContains(elems: seq<string>, sep: string) {
    forall i :: 0 <= i < |elems| ==> !Contains(elems[i], sep)
  }

  /** Splitting undoes joining if and only if no element contains the separator. */
  lemma SplitJoinIff(elems: seq<string>, sep: string)
    requires Unbordered(sep) && elems != []
    ensures Split(Join(elems, sep), sep) == elems <==> NoneContains(elems, sep)
    ensures |Split(Join(elems, sep), sep)| == |elems| <==> NoneContains(elems, sep)
  {
    SplitJoinPieces(elems, sep);
    AsManyPieces(elems, sep);
  }

  /** strings.ReplaceAll with a non-empty pattern: left to right, without overlaps. */
  function ReplaceAll(s: string, pattern: string, replacement: string): string
    requires pattern != ""
    decreases |s|
  {
    if |pattern| <= |s| && s[..|pattern|] == pattern then replacement + ReplaceAll(s[|pattern|..], pattern, replacement)
    else if s == "" then ""
    else [s[0]] + ReplaceAll(s[1..], pattern, replacement)
  }

  function LowerChar(c: char): char {
    if 'A' <= c <= 'Z' then (c as int + 32) as char else c
  }

  /** strings.ToLower on ASCII text. */
  function ToLower(s: string): (r: string)
    ensures |r| == |s| && forall i :: 0 <= i < |s| ==> r[i] == LowerChar(s[i])
  {
    seq(|s|, i requires 0 <= i < |s| => LowerChar(s[i]))
  }

  predicate Upper(c: char) { 'A' <= c <= 'Z' }

  /** The same character, or the two cases of one letter. */
  predicate SameLetter(c: char, d: char) {
    c == d || (Upper(c) && d as int == c as int + 32) || (Upper(d) && c as int == d as int + 32)
  }

  /** Two texts are the same in lower case exactly when they differ in case only. */
  lemma SameInLowerCaseIff(s: string, t: string)
    ensures ToLower(s) == ToLower(t) <==> |s| == |t| && forall i :: 0 <= i < |s| ==> SameLetter(s[i], t[i])
  {
    if ToLower(s) == ToLower(t) {
      assert |s| == |t|;
      forall i | 0 <= i < |s| ensures SameLetter(s[i], t[i]) {
        assert ToLower(s)[i] == ToLower(t)[i];
      }
    }
  }
}
