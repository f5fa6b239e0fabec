/** What is left of a list when some of its elements are taken out. */
module Subsequences {

  predicate IsSubsequence<T(==)>(a: seq<T>, b: seq<T>) {
    if a == [] then true
    else if b == [] then false
    else
      || (a[|a| - 1] == b[|b| - 1] && IsSubsequence(a[..|a| - 1], b[..|b| - 1]))
      || IsSubsequence(a, b[..|b| - 1])
  }

  lemma BothGrow<T>(a: seq<T>, b: seq<T>, x: T)
    requires IsSubsequence(a, b)
    ensures IsSubsequence(a + [x], b + [x])
  {
    assert (a + [x])[..|a|] == a && (b + [x])[..|b|] == b;
  }

  lemma LongerGrows<T>(a: seq<T>, b: seq<T>, x: T)
    requires IsSubsequence(a, b)
    ensures IsSubsequence(a, b + [x])
  {
    assert (b + [x])[..|b|] == b;
  }

  lemma {:induction false} EverySubsequence<T>(a: seq<T>)
    ensures IsSubsequence(a, a)
  {
    if a != [] { EverySubsequence(a[..|a| - 1]); }
  }

  /** Taking out a segment leaves a subsequence. */
  lemma {:induction false} SegmentRemoved<T>(a: seq<T>, x: seq<T>, c: seq<T>, b: seq<T>)
    requires IsSubsequence(a + x + c, b)
    ensures IsSubsequence(a + c, b)
    decreases |b|, |x|
  {
    if c == [] && x == [] {
      assert a + x + c == a + c;
    } else if b != [] {
      var all, init, last := a + x + c, b[..|b| - 1], b[|b| - 1];
      if IsSubsequence(all, init) {
        SegmentRemoved(a, x, c, init);
        LongerGrows(a + c, init, last);
      } else if c == [] {
        assert all[..|all| - 1] == a + x[..|x| - 1] + c;
        SegmentRemoved(a, x[..|x| - 1], c, init);
        LongerGrows(a + c, init, last);
      } else {
        assert all[..|all| - 1] == a + x + c[..|c| - 1];
        SegmentRemoved(a, x, c[..|c| - 1], init);
        BothGrow(a + c[..|c| - 1], init, last);
        assert a + c[..|c| - 1] + [last] == a + c;
      }
      assert init + [last] == b;
    }
  }

  lemma {:induction false} NoMoreElements<T>(a: seq<T>, b: seq<T>)
    requires IsSubsequence(a, b)
    ensures multiset(a) <= multiset(b)
    ensures |a| <= |b| && (|a| == |b| ==> a == b)
  {
    if a != [] {
      var init := b[..|b| - 1];
      assert b == init + [b[|b| - 1]];
      assert a == a[..|a| - 1] + [a[|a| - 1]];
      if IsSubsequence(a, init) {
        NoMoreElements(a, init);
      } else {
        NoMoreElements(a[..|a| - 1], init);
      }
    }
  }

  lemma AroundPlace<T>(b: seq<T>, p: nat)
    requires p < |b| - 1
    ensures var init := b[..|b| - 1];
      b[p] == init[p] && b[..p] == init[..p] && b[p + 1..] == init[p + 1..] + [b[|b| - 1]]
  {
  }

  /** An element of a subsequence lies somewhere in the list, with what precedes it before
      that place and what follows it behind. */
  lemma {:induction false} PlaceOf<T>(a: seq<T>, x: T, c: seq<T>, b: seq<T>) returns (p: nat)
    requires IsSubsequence(a + [x] + c, b)
    ensures p < |b| && b[p] == x
    ensures IsSubsequence(a, b[..p]) && IsSubsequence(c, b[p + 1..])
    decreases |b|, 0
  {
    var all, init, last := a + [x] + c, b[..|b| - 1], b[|b| - 1];
    if IsSubsequence(all, init) {
      p := PlaceOf(a, x, c, init);
      AroundPlace(b, p);
      LongerGrows(c, init[p + 1..], last);
    } else if c == [] {
      p := |b| - 1;
      assert all[..|all| - 1] == a;
    } else {
      p := PlaceBefore(a, x, c[..|c| - 1], init, all, last);
      AroundPlace(b, p);
      assert c == c[..|c| - 1] + [last];
    }
  }

  lemma {:induction false} PlaceBefore<T>(a: seq<T>, x: T, c: seq<T>, b: seq<T>, all: seq<T>, last: T)
    returns (p: nat)
    requires all == a + [x] + c + [last] && IsSubsequence(all[..|all| - 1], b)
    ensures p < |b| && b[p] == x
    ensures IsSubsequence(a, b[..p]) && IsSubsequence(c + [last], b[p + 1..] + [last])
    decreases |b|, 1
  {
    assert all[..|all| - 1] == a + [x] + c;
    p := PlaceOf(a, x, c, b);
    BothGrow(c, b[p + 1..], last);
  }
}
