/**
 The binary heap both timer heaps are built on: sifting with a hole, Floyd's
 rebuild and dropping the root, each as a function on sequences with its heap
 order, contents and cost, and as a method on the first `n` places of an array.
 */
module BinaryHeap {

  /** `less` orders strictly and its negation is a total preorder. */
  ghost predicate Orders<T(!new)>(less: (T, T) -> bool) {
    && (forall x, y :: less(x, y) ==> !less(y, x))
    && (forall x, y, z :: !less(y, x) && !less(z, y) ==> !less(z, x))
  }

  function Parent(i: nat): nat
    requires i > 0
  {
    (i - 1) / 2
  }

  /** Place `i` is in order with its parent. */
  predicate Ordered<T>(s: seq<T>, i: nat, less: (T, T) -> bool)
    requires 0 < i < |s|
  {
    !less(s[i], s[Parent(i)])
  }

  /** Every place whose parent is not below `lo` is in order with it. */
  ghost predicate HeapFrom<T>(s: seq<T>, lo: nat, less: (T, T) -> bool) {
    forall i | 0 < i < |s| && Parent(i) >= lo :: Ordered(s, i, less)
  }

  ghost predicate IsHeap<T>(s: seq<T>, less: (T, T) -> bool) {
    HeapFrom(s, 0, less)
  }

  /** The root is a least element. */
  lemma {:induction false} RootIsLeast<T(!new)>(s: seq<T>, i: nat, less: (T, T) -> bool)
    requires Orders(less) && IsHeap(s, less) && i < |s|
    ensures !less(s[i], s[0])
    decreases i
  {
    if i > 0 {
      RootIsLeast(s, Parent(i), less);
      assert Ordered(s, i, less);
    }
  }

  // ---------------------------------------------------------------------------
  // Sifting up
  // ---------------------------------------------------------------------------

  /** The heap once `e` has been moved up from the hole at `pos`. */
  function SiftUp<T>(s: seq<T>, pos: nat, e: T, less: (T, T) -> bool): (r: seq<T>)
    requires pos < |s|
    ensures |r| == |s|
    decreases pos
  {
    if pos > 0 && less(e, s[Parent(pos)]) then SiftUp(s[pos := s[Parent(pos)]], Parent(pos), e, less)
    else s[pos := e]
  }

  lemma {:induction false} SiftUpContents<T>(s: seq<T>, pos: nat, e: T, less: (T, T) -> bool)
    requires pos < |s|
    ensures multiset(SiftUp(s, pos, e, less)) == multiset(s) - multiset{s[pos]} + multiset{e}
    decreases pos
  {
    if pos > 0 && less(e, s[Parent(pos)]) {
      SiftUpContents(s[pos := s[Parent(pos)]], Parent(pos), e, less);
    }
  }

  /** All is in order but the hole, and what is above the hole or goes into it is in order with what is below. */
  ghost predicate HoleUp<T>(s: seq<T>, pos: nat, e: T, less: (T, T) -> bool)
    requires pos < |s|
  {
    && (forall i | 0 < i < |s| && i != pos && Parent(i) != pos :: Ordered(s, i, less))
    && (forall i | 0 < i < |s| && Parent(i) == pos :: !less(s[i], e) && (pos > 0 ==> !less(s[i], s[Parent(pos)])))
  }

  lemma {:induction false} SiftUpOrders<T(!new)>(s: seq<T>, pos: nat, e: T, less: (T, T) -> bool)
    requires Orders(less) && pos < |s| && HoleUp(s, pos, e, less)
    ensures IsHeap(SiftUp(s, pos, e, less), less)
    decreases pos
  {
    if pos > 0 && less(e, s[Parent(pos)]) {
      HoleMovesUp(s, pos, e, less);
      SiftUpOrders(s[pos := s[Parent(pos)]], Parent(pos), e, less);
    } else {
      var r := s[pos := e];
      forall i | 0 < i < |r| && Parent(i) >= 0 ensures Ordered(r, i, less) {
        if i != pos && Parent(i) != pos { assert Ordered(s, i, less); }
      }
    }
  }

  lemma HoleMovesUp<T(!new)>(s: seq<T>, pos: nat, e: T, less: (T, T) -> bool)
    requires Orders(less) && 0 < pos < |s| && HoleUp(s, pos, e, less) && less(e, s[Parent(pos)])
    ensures HoleUp(s[pos := s[Parent(pos)]], Parent(pos), e, less)
  {
    var p := Parent(pos);
    var r := s[pos := s[p]];
    forall i | 0 < i < |r| && i != p && Parent(i) != p ensures Ordered(r, i, less) {
      if Parent(i) != pos { assert Ordered(s, i, less); }
    }
    forall i | 0 < i < |r| && Parent(i) == p ensures !less(r[i], e) && (p > 0 ==> !less(r[i], r[Parent(p)])) {
      if i != pos { assert Ordered(s, i, less); }
      if p > 0 { assert Ordered(s, p, less); }
    }
  }

  // ---------------------------------------------------------------------------
  // Sifting down
  // ---------------------------------------------------------------------------

  /** The lesser child of `pos`, the left one on a tie. */
  function LesserChild<T>(s: seq<T>, pos: nat, less: (T, T) -> bool): (c: nat)
    requires 2 * pos + 1 < |s|
    ensures pos < c < |s| && Parent(c) == pos
  {
    var left := 2 * pos + 1;
    if left + 1 < |s| && less(s[left + 1], s[left]) then left + 1 else left
  }

  /** The child moves up into the hole at `pos`. */
  predicate Promotes<T>(s: seq<T>, pos: nat, e: T, less: (T, T) -> bool)
  {
    2 * pos + 1 < |s| && less(s[LesserChild(s, pos, less)], e)
  }

  function SiftDown<T>(s: seq<T>, pos: nat, e: T, less: (T, T) -> bool): (r: seq<T>)
    requires pos < |s|
    ensures |r| == |s|
    decreases |s| - pos
  {
    if Promotes(s, pos, e, less) then
      var c := LesserChild(s, pos, less);
      SiftDown(s[pos := s[c]], c, e, less)
    else s[pos := e]
  }

  lemma {:induction false} SiftDownContents<T>(s: seq<T>, pos: nat, e: T, less: (T, T) -> bool)
    requires pos < |s|
    ensures multiset(SiftDown(s, pos, e, less)) == multiset(s) - multiset{s[pos]} + multiset{e}
    decreases |s| - pos
  {
    if Promotes(s, pos, e, less) {
      var c := LesserChild(s, pos, less);
      SiftDownContents(s[pos := s[c]], c, e, less);
    }
  }

  /**
   From `lo` on all is in order but the hole, and what is above the hole is in
   order with what goes into it or is below.
   */
  ghost predicate HoleDown<T>(s: seq<T>, lo: nat, pos: nat, e: T, less: (T, T) -> bool)
    requires pos < |s|
  {
    && (forall i | 0 < i < |s| && Parent(i) >= lo && i != pos && Parent(i) != pos :: Ordered(s, i, less))
    && (pos > 0 && Parent(pos) >= lo ==>
          && !less(e, s[Parent(pos)])
          && forall i | 0 < i < |s| && Parent(i) == pos :: !less(s[i], s[Parent(pos)]))
  }

  lemma {:induction false} SiftDownOrders<T(!new)>(s: seq<T>, lo: nat, pos: nat, e: T, less: (T, T) -> bool)
    requires Orders(less) && lo <= pos < |s| && HoleDown(s, lo, pos, e, less)
    ensures HeapFrom(SiftDown(s, pos, e, less), lo, less)
    decreases |s| - pos
  {
    if Promotes(s, pos, e, less) {
      var c := LesserChild(s, pos, less);
      HoleMovesDown(s, lo, pos, e, less);
      SiftDownOrders(s[pos := s[c]], lo, c, e, less);
    } else {
      HoleFilled(s, lo, pos, e, less);
    }
  }

  lemma HoleFilled<T(!new)>(s: seq<T>, lo: nat, pos: nat, e: T, less: (T, T) -> bool)
    requires Orders(less) && lo <= pos < |s| && HoleDown(s, lo, pos, e, less) && !Promotes(s, pos, e, less)
    ensures HeapFrom(s[pos := e], lo, less)
  {
    var r := s[pos := e];
    forall i | 0 < i < |r| && Parent(i) >= lo ensures Ordered(r, i, less) {
      if i == pos {
      } else if Parent(i) == pos {
        assert i == 2 * pos + 1 || i == 2 * pos + 2;
      } else {
        assert Ordered(s, i, less);
      }
    }
  }

  lemma HoleMovesDown<T(!new)>(s: seq<T>, lo: nat, pos: nat, e: T, less: (T, T) -> bool)
    requires Orders(less) && lo <= pos < |s| && HoleDown(s, lo, pos, e, less) && Promotes(s, pos, e, less)
    ensures var c := LesserChild(s, pos, less); HoleDown(s[pos := s[c]], lo, c, e, less)
  {
    var c := LesserChild(s, pos, less);
    var r := s[pos := s[c]];
    forall i | 0 < i < |r| && Parent(i) >= lo && i != c && Parent(i) != c ensures Ordered(r, i, less) {
      if i == pos {
      } else if Parent(i) == pos {
        assert i == 2 * pos + 1 || i == 2 * pos + 2;
      } else {
        assert Ordered(s, i, less);
      }
    }
    forall i | 0 < i < |r| && Parent(i) == c ensures !less(r[i], r[pos]) {
      assert Ordered(s, i, less);
    }
  }

  // ---------------------------------------------------------------------------
  // Pushing, dropping the root, rebuilding
  // ---------------------------------------------------------------------------

  function Push<T>(s: seq<T>, e: T, less: (T, T) -> bool): seq<T> {
    SiftUp(s + [e], |s|, e, less)
  }

  lemma AppendLeavesHole<T>(s: seq<T>, e: T, less: (T, T) -> bool)
    requires IsHeap(s, less)
    ensures HoleUp(s + [e], |s|, e, less)
  {
    var t := s + [e];
    forall i | 0 < i < |t| && i != |s| && Parent(i) != |s| ensures Ordered(t, i, less) {
      assert Ordered(s, i, less);
    }
  }

  lemma PushIsHeap<T(!new)>(s: seq<T>, e: T, less: (T, T) -> bool)
    requires Orders(less) && IsHeap(s, less)
    ensures IsHeap(Push(s, e, less), less) && multiset(Push(s, e, less)) == multiset(s) + multiset{e}
  {
    AppendLeavesHole(s, e, less);
    SiftUpOrders(s + [e], |s|, e, less);
    SiftUpContents(s + [e], |s|, e, less);
  }

  function PopRoot<T>(s: seq<T>, less: (T, T) -> bool): seq<T>
    requires s != []
  {
    var last := |s| - 1;
    if last == 0 then [] else SiftDown(s[..last], 0, s[last], less)
  }

  lemma PopRootIsHeap<T(!new)>(s: seq<T>, less: (T, T) -> bool)
    requires Orders(less) && s != [] && IsHeap(s, less)
    ensures IsHeap(PopRoot(s, less), less) && multiset(PopRoot(s, less)) == multiset(s) - multiset{s[0]}
  {
    var last := |s| - 1;
    if last > 0 {
      var t := s[..last];
      assert s == t + [s[last]];
      forall i | 0 < i < |t| && Parent(i) >= 0 && i != 0 && Parent(i) != 0 ensures Ordered(t, i, less) {
        assert Ordered(s, i, less);
      }
      SiftDownOrders(t, 0, 0, s[last], less);
      SiftDownContents(t, 0, s[last], less);
    } else {
      assert s == [s[0]];
    }
  }

  /** Floyd's rebuild of the first `k` subtrees, from the last one back to the root. */
  function Rebuild<T>(s: seq<T>, k: nat, less: (T, T) -> bool): (r: seq<T>)
    requires k <= |s|
    ensures |r| == |s|
    decreases k
  {
    if k == 0 then s else Rebuild(SiftDown(s, k - 1, s[k - 1], less), k - 1, less)
  }

  lemma {:induction false} RebuildIsHeap<T(!new)>(s: seq<T>, k: nat, less: (T, T) -> bool)
    requires Orders(less) && k <= |s| && HeapFrom(s, k, less)
    ensures IsHeap(Rebuild(s, k, less), less) && multiset(Rebuild(s, k, less)) == multiset(s)
    decreases k
  {
    if k > 0 {
      var i := k - 1;
      assert HoleDown(s, i, i, s[i], less) by {
        forall j | 0 < j < |s| && Parent(j) >= i && j != i && Parent(j) != i ensures Ordered(s, j, less) {
          assert Parent(j) >= k;
        }
      }
      SiftDownOrders(s, i, i, s[i], less);
      SiftDownContents(s, i, s[i], less);
      RebuildIsHeap(SiftDown(s, i, s[i], less), i, less);
    }
  }

  /** The lower half has no children, so a rebuild may start at half the size. */
  lemma LowerHalfIsHeap<T>(s: seq<T>, less: (T, T) -> bool)
    ensures HeapFrom(s, |s| / 2, less)
  {
  }

  /** The elements that satisfy `keep`, in their order. */
  function Filter<T>(s: seq<T>, keep: T -> bool): seq<T> {
    if s == [] then [] else Filter(s[..|s| - 1], keep) + (if keep(s[|s| - 1]) then [s[|s| - 1]] else [])
  }

  lemma {:induction false} FilterContents<T>(s: seq<T>, keep: T -> bool, x: T)
    ensures multiset(Filter(s, keep))[x] == if keep(x) then multiset(s)[x] else 0
    ensures |Filter(s, keep)| <= |s|
  {
    if s != [] {
      var n := |s| - 1;
      FilterContents(s[..n], keep, x);
      assert s == s[..n] + [s[n]];
    }
  }

  // ---------------------------------------------------------------------------
  // What a rebuild costs
  // ---------------------------------------------------------------------------

  /** Children promoted by one sift down. */
  function Promotions<T>(s: seq<T>, pos: nat, e: T, less: (T, T) -> bool): nat
    requires pos < |s|
    decreases |s| - pos
  {
    if Promotes(s, pos, e, less) then
      var c := LesserChild(s, pos, less);
      1 + Promotions(s[pos := s[c]], c, e, less)
    else 0
  }

  /** Children promoted by a rebuild of the first `k` subtrees. */
  function RebuildPromotions<T>(s: seq<T>, k: nat, less: (T, T) -> bool): nat
    requires k <= |s|
    decreases k
  {
    if k == 0 then 0
    else Promotions(s, k - 1, s[k - 1], less) + RebuildPromotions(SiftDown(s, k - 1, s[k - 1], less), k - 1, less)
  }

  /** Levels below place `pos` in a heap of `n`: how often n can be halved before it falls to `pos`. */
  function Levels(n: nat, pos: nat): nat {
    if n / 2 <= pos then 0 else 1 + Levels(n / 2, pos)
  }

  /** Going down to a child costs a level. */
  lemma {:induction false} LevelsBelowChild(n: nat, pos: nat, c: nat)
    requires c < n && (c == 2 * pos + 1 || c == 2 * pos + 2)
    ensures 1 + Levels(n, c) <= Levels(n, pos)
    decreases n
  {
    assert n / 2 > pos;
    if n / 2 > c {
      LevelsBelowChild(n / 2, pos, c);
    }
  }

  lemma {:induction false} PromotionsBounded<T>(s: seq<T>, pos: nat, e: T, less: (T, T) -> bool)
    requires pos < |s|
    ensures Promotions(s, pos, e, less) <= Levels(|s|, pos)
    decreases |s| - pos
  {
    if Promotes(s, pos, e, less) {
      var c := LesserChild(s, pos, less);
      PromotionsBounded(s[pos := s[c]], c, e, less);
      LevelsBelowChild(|s|, pos, c);
    }
  }

  function LevelsSum(n: nat, k: nat): nat {
    if k == 0 then 0 else LevelsSum(n, k - 1) + Levels(n, k - 1)
  }

  /** Halving the heap takes one level off each of the first `k` places. */
  lemma {:induction false} LevelsSumHalves(n: nat, k: nat)
    requires k <= n / 2
    ensures LevelsSum(n, k) == k + LevelsSum(n / 2, k)
  {
    if k > 0 {
      LevelsSumHalves(n, k - 1);
    }
  }

  lemma {:induction false} LevelsSumFlat(n: nat, k: nat)
    requires n / 2 <= k
    ensures LevelsSum(n, k) == LevelsSum(n, n / 2)
  {
    if n / 2 < k {
      LevelsSumFlat(n, k - 1);
    }
  }

  /** All levels of a heap of `n` together are fewer than `n`. */
  lemma {:induction false} LevelsSumBounded(n: nat)
    requires n > 0
    ensures LevelsSum(n, n / 2) < n
  {
    if n > 1 {
      LevelsSumHalves(n, n / 2);
      LevelsSumFlat(n / 2, n / 2);
      LevelsSumBounded(n / 2);
    }
  }

  lemma {:induction false} RebuildWithinLevels<T>(s: seq<T>, k: nat, less: (T, T) -> bool)
    requires k <= |s|
    ensures RebuildPromotions(s, k, less) <= LevelsSum(|s|, k)
    decreases k
  {
    if k > 0 {
      PromotionsBounded(s, k - 1, s[k - 1], less);
      RebuildWithinLevels(SiftDown(s, k - 1, s[k - 1], less), k - 1, less);
    }
  }

  /** One rebuild promotes fewer children than there are entries. */
  lemma RebuildIsLinear<T>(s: seq<T>, less: (T, T) -> bool)
    requires s != []
    ensures RebuildPromotions(s, |s| / 2, less) < |s|
  {
    RebuildWithinLevels(s, |s| / 2, less);
    LevelsSumBounded(|s|);
  }

  // ---------------------------------------------------------------------------
  // In place
  // ---------------------------------------------------------------------------

  method SiftUpInPlace<T>(a: array<T>, n: nat, start: nat, e: T, less: (T, T) -> bool)
    requires start < n <= a.Length
    modifies a
    ensures a[..n] == SiftUp(old(a[..n]), start, e, less)
    ensures a[n..] == old(a[n..])
  {
    var pos: nat := start;
    while pos > 0
      invariant pos < n
      invariant SiftUp(a[..n], pos, e, less) == SiftUp(old(a[..n]), start, e, less)
      invariant a[n..] == old(a[n..])
    {
      var parent := (pos - 1) / 2;
      if !less(e, a[parent]) {
        break;
      }
      ghost var before := a[..n];
      a[pos] := a[parent];
      assert a[..n] == before[pos := before[parent]];
      pos := parent;
    }
    ghost var before := a[..n];
    a[pos] := e;
    assert a[..n] == before[pos := e];
  }

  method SiftDownInPlace<T>(a: array<T>, n: nat, start: nat, e: T, less: (T, T) -> bool)
    requires start < n <= a.Length
    modifies a
    ensures a[..n] == SiftDown(old(a[..n]), start, e, less)
    ensures a[n..] == old(a[n..])
  {
    var pos: nat := start;
    while true
      invariant pos < n
      invariant SiftDown(a[..n], pos, e, less) == SiftDown(old(a[..n]), start, e, less)
      invariant a[n..] == old(a[n..])
      decreases n - pos
    {
      var left := pos * 2 + 1;
      if left >= n {
        break;
      }
      var right := left + 1;
      var child := left;
      if right < n && less(a[right], a[left]) {
        child := right;
      }
      assert child == LesserChild(a[..n], pos, less);
      if !less(a[child], e) {
        break;
      }
      ghost var before := a[..n];
      a[pos] := a[child];
      assert a[..n] == before[pos := before[child]];
      pos := child;
    }
    ghost var before := a[..n];
    assert !Promotes(before, pos, e, less);
    a[pos] := e;
    assert a[..n] == before[pos := e];
  }

  method RebuildInPlace<T>(a: array<T>, n: nat, less: (T, T) -> bool)
    requires n <= a.Length
    modifies a
    ensures a[..n] == Rebuild(old(a[..n]), n / 2, less)
    ensures a[n..] == old(a[n..])
  {
    var i: nat := n / 2;
    while i > 0
      invariant i <= n / 2
      invariant Rebuild(a[..n], i, less) == Rebuild(old(a[..n]), n / 2, less)
      invariant a[n..] == old(a[n..])
    {
      i := i - 1;
      SiftDownInPlace(a, n, i, a[i], less);
    }
  }

  /** Move what is kept to the front; `out` says how much that is. */
  method FilterInPlace<T>(a: array<T>, n: nat, keep: T -> bool) returns (out: nat)
    requires n <= a.Length
    modifies a
    ensures out <= n && a[..out] == Filter(old(a[..n]), keep)
  {
    out := 0;
    var pos: nat := 0;
    while pos < n
      invariant out <= pos <= n
      invariant a[..out] == Filter(old(a[..n])[..pos], keep)
      invariant forall k | pos <= k < n :: a[k] == old(a[k])
    {
      ghost var seen := old(a[..n])[..pos + 1];
      assert seen[..pos] == old(a[..n])[..pos];
      assert a[pos] == seen[pos];
      ghost var kept := a[..out];
      if keep(a[pos]) {
        a[out] := a[pos];
        out := out + 1;
        assert a[..out] == kept + [seen[pos]];
      }
      pos := pos + 1;
    }
    assert old(a[..n])[..n] == old(a[..n]);
  }
}
