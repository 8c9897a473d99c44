/** Percentile ranks by sorting twice: the stable order of the positions, ordered once more, is the rank function. */
module PercentileRanks {

  /** `i` comes before `j` in a stable ascending sort. */
  predicate Before(keys: seq<real>, i: int, j: int) {
    && 0 <= i < |keys| && 0 <= j < |keys|
    && (keys[i] < keys[j] || (keys[i] == keys[j] && i < j))
  }

  function InsertIndex(keys: seq<real>, i: nat, order: seq<int>): (r: seq<int>)
    ensures |r| == |order| + 1
    ensures (forall k :: 0 <= k < |order| ==> 0 <= order[k] < i) ==> forall k :: 0 <= k < |r| ==> 0 <= r[k] <= i
  {
    if order == [] || Before(keys, i, order[0]) then [i] + order
    else [order[0]] + InsertIndex(keys, i, order[1..])
  }

  /** The first `n` indices, sorted. */
  function ArgsortFirst(keys: seq<real>, n: nat): (r: seq<int>)
    ensures |r| == n && forall k :: 0 <= k < n ==> 0 <= r[k] < n
  {
    if n == 0 then [] else InsertIndex(keys, n - 1, ArgsortFirst(keys, n - 1))
  }

  function Argsort(keys: seq<real>): (r: seq<int>)
    ensures |r| == |keys| && forall k :: 0 <= k < |r| ==> 0 <= r[k] < |r|
  {
    ArgsortFirst(keys, |keys|)
  }

  ghost predicate InOrder(keys: seq<real>, order: seq<int>) {
    && (forall k :: 0 <= k < |order| ==> 0 <= order[k] < |keys|)
    && (forall a, b :: 0 <= a < b < |order| ==> Before(keys, order[a], order[b]))
  }

  /** Where the index is inserted, and what moves. */
  lemma {:induction false} InsertIndexAt(keys: seq<real>, i: nat, order: seq<int>) returns (q: nat)
    requires 0 <= i < |keys| && InOrder(keys, order) && forall k :: 0 <= k < |order| ==> order[k] != i
    ensures q <= |order| && InsertIndex(keys, i, order) == order[..q] + [i] + order[q..]
    ensures forall k :: 0 <= k < q ==> Before(keys, order[k], i)
    ensures forall k :: q <= k < |order| ==> Before(keys, i, order[k])
  {
    hide Before;
    if order == [] || Before(keys, i, order[0]) {
      q := 0;
      assert order[..0] + [i] + order[0..] == [i] + order;
      AheadOfAll(keys, i, order);
    } else {
      var p := InsertIndexAt(keys, i, order[1..]);
      q := p + 1;
      assert order[..q] == [order[0]] + order[1..][..p] && order[q..] == order[1..][p..];
      assert order[..q] + [i] + order[q..] == [order[0]] + (order[1..][..p] + [i] + order[1..][p..]);
      BeforeTotal(keys, i, order[0], i);
      assert forall k :: 0 < k < |order| ==> order[k] == order[1..][k - 1];
    }
  }

  lemma AheadOfAll(keys: seq<real>, i: nat, order: seq<int>)
    requires 0 <= i < |keys| && InOrder(keys, order) && (order != [] ==> Before(keys, i, order[0]))
    ensures forall k :: 0 <= k < |order| ==> Before(keys, i, order[k])
  {
  }

  lemma {:induction false} ArgsortInOrder(keys: seq<real>, n: nat)
    requires n <= |keys|
    ensures InOrder(keys, ArgsortFirst(keys, n))
  {
    hide Before, InsertIndex;
    if n > 0 {
      ArgsortInOrder(keys, n - 1);
      var order := ArgsortFirst(keys, n - 1);
      var q := InsertIndexAt(keys, n - 1, order);
      InsertedInOrder(keys, n - 1, order, q);
    }
  }

  lemma InsertedInOrder(keys: seq<real>, i: int, order: seq<int>, q: nat)
    requires 0 <= i < |keys| && InOrder(keys, order) && q <= |order|
    requires forall k :: 0 <= k < q ==> Before(keys, order[k], i)
    requires forall k :: q <= k < |order| ==> Before(keys, i, order[k])
    ensures InOrder(keys, order[..q] + [i] + order[q..])
  {
    hide Before;
  }

  /** The sorted first `n` indices are the sorted first `n - 1` with the last one put at its place. */
  lemma ArgsortStep(keys: seq<real>, n: nat) returns (q: nat)
    requires 0 < n <= |keys|
    ensures q < n
    ensures var order, longer := ArgsortFirst(keys, n - 1), ArgsortFirst(keys, n);
            && (forall k :: 0 <= k < q ==> longer[k] == order[k] && Before(keys, order[k], n - 1))
            && longer[q] == n - 1
            && (forall k :: q <= k < n - 1 ==> longer[k + 1] == order[k] && Before(keys, n - 1, order[k]))
  {
    hide Before, InsertIndex, InOrder;
    ArgsortInOrder(keys, n - 1);
    var order := ArgsortFirst(keys, n - 1);
    q := InsertIndexAt(keys, n - 1, order);
  }

  // ----- ranks are counts -----

  /** How many of the first `n` come before `i`. */
  function CountBefore(keys: seq<real>, i: int, n: nat): nat {
    if n == 0 then 0 else (if Before(keys, n - 1, i) then 1 else 0) + CountBefore(keys, i, n - 1)
  }

  lemma {:induction false} SameCount(keys: seq<real>, i: int, j: int, n: nat)
    requires forall k :: 0 <= k < n ==> (Before(keys, k, i) <==> Before(keys, k, j))
    ensures CountBefore(keys, i, n) == CountBefore(keys, j, n)
  {
    if n > 0 {
      SameCount(keys, i, j, n - 1);
    }
  }

  lemma {:induction false} FullCount(keys: seq<real>, i: int, n: nat)
    requires forall k :: 0 <= k < n ==> Before(keys, k, i)
    ensures CountBefore(keys, i, n) == n
  {
    if n > 0 {
      FullCount(keys, i, n - 1);
    }
  }

  lemma BeforeTotal(keys: seq<real>, i: int, j: int, k: int)
    requires 0 <= i < |keys| && 0 <= j < |keys| && 0 <= k < |keys|
    ensures i == j || Before(keys, i, j) || Before(keys, j, i)
    ensures !(Before(keys, i, j) && Before(keys, j, i))
    ensures Before(keys, i, j) && Before(keys, j, k) ==> Before(keys, i, k)
  {
  }

  /** The index that stands at place `k` of the sorted order has exactly `k` indices before it. */
  lemma {:induction false} PlaceIsCount(keys: seq<real>, n: nat, k: nat)
    requires k < n <= |keys|
    ensures CountBefore(keys, ArgsortFirst(keys, n)[k], n) == k
    decreases n, k
  {
    hide Before, ArgsortFirst;
    var i := n - 1;
    var order := ArgsortFirst(keys, i);
    var q := ArgsortStep(keys, n);
    if k == q {
      if q < i {
        PlaceIsCount(keys, i, q);
        LikeNext(keys, i, q);
        SameCount(keys, i, order[q], i);
      } else {
        forall j | 0 <= j < i
          ensures Before(keys, j, i)
        {
          var p := Placed(keys, i, j);
        }
        FullCount(keys, i, i);
      }
      BeforeTotal(keys, i, i, i);
    } else {
      var p := if k < q then k else k - 1;
      PlaceIsCount(keys, i, p);
      BeforeTotal(keys, i, order[p], i);
    }
  }

  /** The new index has the same indices before it as the one it is put in front of. */
  lemma LikeNext(keys: seq<real>, i: nat, q: nat)
    requires q < i < |keys|
    requires forall k :: 0 <= k < q ==> Before(keys, ArgsortFirst(keys, i)[k], i)
    requires forall k :: q <= k < i ==> Before(keys, i, ArgsortFirst(keys, i)[k])
    ensures forall j :: 0 <= j < i ==> (Before(keys, j, i) <==> Before(keys, j, ArgsortFirst(keys, i)[q]))
  {
    hide Before, ArgsortFirst;
    ArgsortInOrder(keys, i);
    var order := ArgsortFirst(keys, i);
    var next := order[q];
    forall j | 0 <= j < i
      ensures Before(keys, j, i) <==> Before(keys, j, next)
    {
      var p := Placed(keys, i, j);
      BeforeTotal(keys, j, next, i);
      BeforeTotal(keys, j, i, next);
    }
  }

  /** Every index has a place. */
  lemma {:induction false} Placed(keys: seq<real>, n: nat, j: int) returns (k: nat)
    requires 0 <= j < n <= |keys|
    ensures k < n && ArgsortFirst(keys, n)[k] == j
  {
    hide Before, ArgsortFirst;
    var q := ArgsortStep(keys, n);
    if j == n - 1 {
      k := q;
    } else {
      var p := Placed(keys, n - 1, j);
      k := if p < q then p else p + 1;
    }
  }

  // ----- sorting the order -----

  function AsReals(order: seq<int>): (r: seq<real>)
    ensures |r| == |order| && forall k :: 0 <= k < |order| ==> r[k] == order[k] as real
  {
    seq(|order|, k requires 0 <= k < |order| => order[k] as real)
  }

  /** The ranks: where each position stands after sorting. */
  function Ranks(values: seq<real>): (r: seq<int>)
    ensures |r| == |values| && forall k :: 0 <= k < |r| ==> 0 <= r[k] < |r|
  {
    Argsort(AsReals(Argsort(values)))
  }

  lemma {:induction false} AtLeastPlace(v: seq<int>, k: nat)
    requires k < |v| && v[0] >= 0 && forall a, b :: 0 <= a < b < |v| ==> v[a] < v[b]
    ensures v[k] >= k
  {
    if k > 0 {
      AtLeastPlace(v, k - 1);
    }
  }

  lemma {:induction false} AtMostPlace(v: seq<int>, k: nat)
    requires k < |v| && v[|v| - 1] < |v| && forall a, b :: 0 <= a < b < |v| ==> v[a] < v[b]
    ensures v[k] <= k
    decreases |v| - k
  {
    if k < |v| - 1 {
      AtMostPlace(v, k + 1);
    }
  }

  /** The second sort inverts the first. */
  lemma SecondSortInverts(values: seq<real>, k: nat)
    requires k < |values|
    ensures 0 <= Ranks(values)[k] < |values| && Argsort(values)[Ranks(values)[k]] == k
  {
    hide Before, ArgsortFirst;
    var n := |values|;
    var order := Argsort(values);
    ArgsortInOrder(values, n);
    var keys := AsReals(order);
    ArgsortInOrder(keys, n);
    var ranks := Ranks(values);
    var v := seq(n, i requires 0 <= i < n => order[ranks[i]]);
    forall a, b | 0 <= a < b < n
      ensures v[a] < v[b]
    {
      assert Before(keys, ranks[a], ranks[b]);
      BeforeMeans(keys, ranks[a], ranks[b]);
      if order[ranks[a]] == order[ranks[b]] {
        SamePlace(values, order, ranks[a], ranks[b]);
      }
    }
    AtLeastPlace(v, k);
    AtMostPlace(v, k);
  }

  lemma BeforeMeans(keys: seq<real>, i: int, j: int)
    requires Before(keys, i, j)
    ensures 0 <= i < |keys| && 0 <= j < |keys| && keys[i] <= keys[j] && i != j
  {
  }

  lemma SamePlace(keys: seq<real>, order: seq<int>, a: int, b: int)
    requires InOrder(keys, order) && 0 <= a < |order| && 0 <= b < |order| && order[a] == order[b]
    ensures a == b
  {
    BeforeTotal(keys, order[a], order[b], order[a]);
  }

  /** The double sort is the rank function: position `i` gets the number of smaller and of equal earlier values. */
  lemma RankIsCount(values: seq<real>, i: nat)
    requires i < |values|
    ensures Ranks(values)[i] == CountBefore(values, i, |values|)
  {
    SecondSortInverts(values, i);
    PlaceIsCount(values, |values|, Ranks(values)[i]);
  }

  /** The places of the values that come before value `i`: those smaller, and those equal and earlier. */
  function PlacesBefore(values: seq<real>, i: nat, n: nat): set<nat>
    requires i < |values| && n <= |values|
  {
    set j: nat | j < n && (values[j] < values[i] || (values[j] == values[i] && j < i))
  }

  lemma {:induction false} CountIsSize(values: seq<real>, i: nat, n: nat)
    requires i < |values| && n <= |values|
    ensures CountBefore(values, i, n) == |PlacesBefore(values, i, n)|
    decreases n
  {
    if n == 0 {
      assert PlacesBefore(values, i, 0) == {};
    } else {
      CountIsSize(values, i, n - 1);
      var j := n - 1;
      assert PlacesBefore(values, i, n) ==
             PlacesBefore(values, i, j) +
             if values[j] < values[i] || (values[j] == values[i] && j < i) then {j} else {};
    }
  }

  /** Ranks are a permutation of `0..n-1`, and agree with the values. */
  lemma RanksPermuteAndAscend(values: seq<real>, i: nat, j: nat)
    requires i < |values| && j < |values|
    ensures i != j ==> Ranks(values)[i] != Ranks(values)[j]
    ensures values[i] < values[j] ==> Ranks(values)[i] < Ranks(values)[j]
    ensures Ranks(values)[Argsort(values)[i]] == i
  {
    hide Ranks;
    SecondSortInverts(values, i);
    SecondSortInverts(values, j);
    ArgsortInOrder(values, |values|);
    var order, ranks := Argsort(values), Ranks(values);
    if ranks[j] < ranks[i] {
      assert Before(values, order[ranks[j]], order[ranks[i]]);
    }
    SecondSortInverts(values, order[i]);
    SamePlace(values, order, ranks[order[i]], i);
  }

  // ----- percentile_ranks -----

  function PercentileRanks(values: seq<real>): (r: seq<real>)
    ensures |r| == |values|
  {
    var ranks := Ranks(values);
    var last := if |values| - 1 > 1 then |values| - 1 else 1;
    seq(|values|, i requires 0 <= i < |values| => ranks[i] as real / last as real)
  }

  /** A percentile is the share of the other values that come before: 0 for a single value. */
  lemma PercentileIsShare(values: seq<real>, i: nat)
    requires i < |values|
    ensures |values| == 1 ==> PercentileRanks(values)[i] == 0.0
    ensures |values| > 1 ==>
              PercentileRanks(values)[i] * (|values| - 1) as real == |PlacesBefore(values, i, |values|)| as real
  {
    hide Ranks;
    RankIsCount(values, i);
    CountIsSize(values, i, |values|);
    if |values| > 1 {
      DividedBack(Ranks(values)[i], |values| - 1);
    } else {
      hide PlacesBefore;
      SingleValue(values);
      DivAscends(0, 1, 1);
    }
  }

  lemma DividedBack(a: int, b: int)
    requires b > 0
    ensures a as real / b as real * b as real == a as real
  {
  }

  lemma SingleValue(values: seq<real>)
    requires |values| == 1
    ensures PlacesBefore(values, 0, 1) == {}
  {
  }

  /** Percentiles lie in the unit interval, start at 0, reach 1 given two values, and ascend with the values. */
  lemma PercentilesAscend(values: seq<real>, i: nat, j: nat)
    requires i < |values| && j < |values|
    ensures 0.0 <= PercentileRanks(values)[i] <= 1.0
    ensures values[i] < values[j] ==> PercentileRanks(values)[i] < PercentileRanks(values)[j]
    ensures PercentileRanks(values)[Argsort(values)[0]] == 0.0
    ensures |values| > 1 ==> PercentileRanks(values)[Argsort(values)[|values| - 1]] == 1.0
  {
    hide Ranks, Argsort;
    var n, ranks, order := |values|, Ranks(values), Argsort(values);
    var last := if n - 1 > 1 then n - 1 else 1;
    RanksPermuteAndAscend(values, i, j);
    RanksPermuteAndAscend(values, 0, 0);
    RanksPermuteAndAscend(values, n - 1, 0);
    DivAscends(ranks[i], ranks[j], last);
    DivAscends(ranks[i], last, last);
    DivAscends(0, ranks[i], last);
    assert PercentileRanks(values)[order[0]] == ranks[order[0]] as real / last as real;
    assert PercentileRanks(values)[order[n - 1]] == ranks[order[n - 1]] as real / last as real;
  }

  lemma DivAscends(a: int, b: int, c: int)
    requires c > 0
    ensures a < b ==> a as real / c as real < b as real / c as real
    ensures a == b ==> a as real / c as real == b as real / c as real
    ensures c as real / c as real == 1.0 && 0 as real / c as real == 0.0
  {
  }
}
