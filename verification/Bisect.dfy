/** Binary search for insertion points, as in Python's `bisect` module. */
module Bisect {

  /** `less` compares keys: it is asymmetric and its complement is transitive. */
  ghost predicate StrictOrder<T(!new)>(less: (T, T) -> bool) {
    && (forall x, y :: less(x, y) ==> !less(y, x))
    && (forall x, y, z :: less(x, y) && !less(z, y) ==> less(x, z))
  }

  ghost predicate Sorted<T>(a: seq<T>, less: (T, T) -> bool) {
    forall i, j :: 0 <= i < j < |a| ==> !less(a[j], a[i])
  }

  function BisectRightIn<T>(a: seq<T>, x: T, less: (T, T) -> bool, lo: nat, hi: nat): nat
    requires lo <= hi <= |a|
    decreases hi - lo
  {
    if lo == hi then lo
    else
      var mid := (lo + hi) / 2;
      if less(x, a[mid]) then BisectRightIn(a, x, less, lo, mid) else BisectRightIn(a, x, less, mid + 1, hi)
  }

  function BisectLeftIn<T>(a: seq<T>, x: T, less: (T, T) -> bool, lo: nat, hi: nat): nat
    requires lo <= hi <= |a|
    decreases hi - lo
  {
    if lo == hi then lo
    else
      var mid := (lo + hi) / 2;
      if less(a[mid], x) then BisectLeftIn(a, x, less, mid + 1, hi) else BisectLeftIn(a, x, less, lo, mid)
  }

  function BisectRight<T>(a: seq<T>, x: T, less: (T, T) -> bool): nat { BisectRightIn(a, x, less, 0, |a|) }

  function BisectLeft<T>(a: seq<T>, x: T, less: (T, T) -> bool): nat { BisectLeftIn(a, x, less, 0, |a|) }

  lemma {:induction false} BisectRightInSplits<T(!new)>(a: seq<T>, x: T, less: (T, T) -> bool, lo: nat, hi: nat)
    requires StrictOrder(less) && Sorted(a, less) && lo <= hi <= |a|
    requires forall i :: 0 <= i < lo ==> !less(x, a[i])
    requires forall i :: hi <= i < |a| ==> less(x, a[i])
    ensures var r := BisectRightIn(a, x, less, lo, hi);
            r <= |a| && (forall i :: 0 <= i < r ==> !less(x, a[i])) && (forall i :: r <= i < |a| ==> less(x, a[i]))
    decreases hi - lo
  {
    if lo < hi {
      var mid := (lo + hi) / 2;
      if less(x, a[mid]) {
        BisectRightInSplits(a, x, less, lo, mid);
      } else {
        BisectRightInSplits(a, x, less, mid + 1, hi);
      }
    }
  }

  lemma {:induction false} BisectLeftInSplits<T(!new)>(a: seq<T>, x: T, less: (T, T) -> bool, lo: nat, hi: nat)
    requires StrictOrder(less) && Sorted(a, less) && lo <= hi <= |a|
    requires forall i :: 0 <= i < lo ==> less(a[i], x)
    requires forall i :: hi <= i < |a| ==> !less(a[i], x)
    ensures var r := BisectLeftIn(a, x, less, lo, hi);
            r <= |a| && (forall i :: 0 <= i < r ==> less(a[i], x)) && (forall i :: r <= i < |a| ==> !less(a[i], x))
    decreases hi - lo
  {
    if lo < hi {
      var mid := (lo + hi) / 2;
      if less(a[mid], x) {
        BisectLeftInSplits(a, x, less, mid + 1, hi);
      } else {
        BisectLeftInSplits(a, x, less, lo, mid);
      }
    }
  }

  /** On a sorted list, bisect_right splits it into the keys not above `x` and the keys above it. */
  lemma BisectRightSplits<T(!new)>(a: seq<T>, x: T, less: (T, T) -> bool)
    requires StrictOrder(less) && Sorted(a, less)
    ensures var r := BisectRight(a, x, less);
            r <= |a| && (forall i :: 0 <= i < r ==> !less(x, a[i])) && (forall i :: r <= i < |a| ==> less(x, a[i]))
  {
    BisectRightInSplits(a, x, less, 0, |a|);
  }

  /** On a sorted list, bisect_left splits it into the keys below `x` and the keys not below it. */
  lemma BisectLeftSplits<T(!new)>(a: seq<T>, x: T, less: (T, T) -> bool)
    requires StrictOrder(less) && Sorted(a, less)
    ensures var r := BisectLeft(a, x, less);
            r <= |a| && (forall i :: 0 <= i < r ==> less(a[i], x)) && (forall i :: r <= i < |a| ==> !less(a[i], x))
  {
    BisectLeftInSplits(a, x, less, 0, |a|);
  }
}
