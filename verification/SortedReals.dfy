/** Sorting numbers, and counting them on either side of a threshold. */
module SortedReals {

  function Insert(x: real, s: seq<real>): seq<real> {
    if s == [] || x <= s[0] then [x] + s else [s[0]] + Insert(x, s[1..])
  }

  function Sort(s: seq<real>): (r: seq<real>)
    ensures |r| == |s|
  {
    if s == [] then [] else
      InsertSize(s[0], Sort(s[1..]));
      Insert(s[0], Sort(s[1..]))
  }

  lemma {:induction false} InsertSize(x: real, s: seq<real>)
    ensures |Insert(x, s)| == |s| + 1
  {
    if s != [] && x > s[0] {
      InsertSize(x, s[1..]);
    }
  }

  ghost predicate Ascending(s: seq<real>) {
    forall i, j :: 0 <= i < j < |s| ==> s[i] <= s[j]
  }

  ghost predicate Above(m: real, s: seq<real>) {
    forall i :: 0 <= i < |s| ==> m <= s[i]
  }

  lemma {:induction false} InsertAbove(m: real, x: real, s: seq<real>)
    requires m <= x && Above(m, s)
    ensures Above(m, Insert(x, s))
  {
    if s != [] && x > s[0] {
      InsertAbove(m, x, s[1..]);
    }
  }

  lemma {:induction false} InsertAscends(x: real, s: seq<real>)
    requires Ascending(s)
    ensures Ascending(Insert(x, s))
  {
    if s != [] && x > s[0] {
      InsertAscends(x, s[1..]);
      InsertAbove(s[0], x, s[1..]);
    }
  }

  lemma {:induction false} SortAscends(s: seq<real>)
    ensures Ascending(Sort(s))
  {
    if s != [] {
      SortAscends(s[1..]);
      InsertAscends(s[0], Sort(s[1..]));
    }
  }

  /** How many of the values are at least `m`. */
  function AtLeast(values: seq<real>, m: real): nat {
    if values == [] then 0 else (if values[0] >= m then 1 else 0) + AtLeast(values[1..], m)
  }

  lemma {:induction false} InsertCounts(x: real, s: seq<real>, m: real)
    ensures AtLeast(Insert(x, s), m) == (if x >= m then 1 else 0) + AtLeast(s, m)
  {
    if s != [] && x > s[0] {
      InsertCounts(x, s[1..], m);
    }
  }

  lemma {:induction false} SortCounts(s: seq<real>, m: real)
    ensures AtLeast(Sort(s), m) == AtLeast(s, m)
  {
    if s != [] {
      SortCounts(s[1..], m);
      InsertCounts(s[0], Sort(s[1..]), m);
    }
  }

  lemma {:induction false} AtLeastFrom(s: seq<real>, k: nat, m: real)
    requires Ascending(s) && k <= |s| && (k < |s| ==> s[k] >= m)
    ensures AtLeast(s, m) >= |s| - k
    ensures (forall i :: 0 <= i < k ==> s[i] < m) ==> AtLeast(s, m) == |s| - k
  {
    if k == 0 {
      if s != [] {
        AtLeastFrom(s[1..], 0, m);
      }
    } else {
      AtLeastFrom(s[1..], k - 1, m);
    }
  }

  /** How many of the values are greater than `m`. */
  function GreaterThan(values: seq<real>, m: real): nat {
    if values == [] then 0 else (if values[0] > m then 1 else 0) + GreaterThan(values[1..], m)
  }

  lemma {:induction false} InsertCountsGreater(x: real, s: seq<real>, m: real)
    ensures GreaterThan(Insert(x, s), m) == (if x > m then 1 else 0) + GreaterThan(s, m)
  {
    if s != [] && x > s[0] {
      InsertCountsGreater(x, s[1..], m);
    }
  }

  lemma {:induction false} SortCountsGreater(s: seq<real>, m: real)
    ensures GreaterThan(Sort(s), m) == GreaterThan(s, m)
  {
    if s != [] {
      SortCountsGreater(s[1..], m);
      InsertCountsGreater(s[0], Sort(s[1..]), m);
    }
  }

  lemma {:induction false} GreaterThanFrom(s: seq<real>, k: nat, m: real)
    requires k <= |s| && (forall i :: 0 <= i < k ==> s[i] <= m) && (forall i :: k <= i < |s| ==> s[i] > m)
    ensures GreaterThan(s, m) == |s| - k
  {
    if s != [] {
      GreaterThanFrom(s[1..], if k == 0 then 0 else k - 1, m);
    }
  }

  /** One of the values, with at most `k` below it and more than `k` not above it. */
  ghost predicate IsNth(values: seq<real>, k: nat, x: real) {
    x in values && |values| - AtLeast(values, x) <= k < |values| - GreaterThan(values, x)
  }

  lemma {:induction false} AtLeastSome(s: seq<real>, k: nat, x: real)
    requires k <= |s| && forall i :: k <= i < |s| ==> s[i] >= x
    ensures AtLeast(s, x) >= |s| - k
  {
    if s != [] {
      AtLeastSome(s[1..], if k == 0 then 0 else k - 1, x);
    }
  }

  lemma {:induction false} GreaterThanFew(s: seq<real>, k: nat, x: real)
    requires k <= |s| && forall i :: 0 <= i < k ==> s[i] <= x
    ensures GreaterThan(s, x) <= |s| - k
  {
    if s != [] {
      GreaterThanFew(s[1..], if k == 0 then 0 else k - 1, x);
    }
  }

  lemma {:induction false} InsertMember(x: real, s: seq<real>, y: real)
    requires y in Insert(x, s)
    ensures y == x || y in s
  {
    if s != [] && x > s[0] && y != s[0] {
      InsertMember(x, s[1..], y);
    }
  }

  lemma {:induction false} SortMember(s: seq<real>, y: real)
    requires y in Sort(s)
    ensures y in s
  {
    if s != [] {
      InsertMember(s[0], Sort(s[1..]), y);
      if y != s[0] {
        SortMember(s[1..], y);
      }
    }
  }

  /** Place `k` of the sorted values holds the `k`-th of them. */
  lemma SortedNth(values: seq<real>, k: nat)
    requires k < |values|
    ensures IsNth(values, k, Sort(values)[k])
  {
    hide Sort, AtLeast, GreaterThan;
    var s := Sort(values);
    SortAscends(values);
    SortMember(values, s[k]);
    SortCounts(values, s[k]);
    SortCountsGreater(values, s[k]);
    AtLeastSome(s, k, s[k]);
    GreaterThanFew(s, k + 1, s[k]);
  }
}
