/** Splitting the rows of every domain into four buckets around its two medians. */
module GrpoBuckets {
  import opened SortedReals
  import opened GrpoRows

  // ----- the median -----

  /** The middle value, or the mean of the two middle values. */
  function Median(values: seq<real>): real
    requires values != []
  {
    var s, n := Sort(values), |values|;
    if n % 2 == 1 then s[n / 2] else (s[n / 2 - 1] + s[n / 2]) / 2.0
  }

  /** The median is the middle of the middle value, or values: those with half of the others on either side. */
  lemma MedianIsMiddle(values: seq<real>) returns (lo: real, hi: real)
    requires values != []
    ensures IsNth(values, (|values| - 1) / 2, lo) && IsNth(values, |values| / 2, hi)
    ensures Median(values) == (lo + hi) / 2.0
  {
    hide Sort, IsNth;
    var s, n := Sort(values), |values|;
    SortedNth(values, (n - 1) / 2);
    SortedNth(values, n / 2);
    lo, hi := s[(n - 1) / 2], s[n / 2];
  }

  /** At least half of the values reach the median, and at most half reach anything above it. */
  lemma MedianSplits(values: seq<real>, above: real)
    requires values != [] && above > Median(values)
    ensures 2 * AtLeast(values, Median(values)) >= |values|
    ensures 2 * AtLeast(values, above) <= |values|
  {
    hide Median, Sort, AtLeast;
    var s, n := Sort(values), |values|;
    SortAscends(values);
    MedianInMiddle(values);
    SortCounts(values, Median(values));
    SortCounts(values, above);
    AtLeastFrom(s, n / 2, Median(values));
    AtMostAfter(s, (n + 1) / 2, above);
  }

  lemma MedianInMiddle(values: seq<real>)
    requires values != []
    ensures var s := Sort(values);
            && s[|s| / 2] >= Median(values)
            && forall i :: 0 <= i < (|s| + 1) / 2 ==> s[i] <= Median(values)
  {
    hide Sort;
    SortAscends(values);
  }

  lemma {:induction false} AtMostAfter(s: seq<real>, k: nat, m: real)
    requires k <= |s| && forall i :: 0 <= i < k ==> s[i] < m
    ensures AtLeast(s, m) <= |s| - k
  {
    if s != [] {
      AtMostAfter(s[1..], if k > 0 then k - 1 else 0, m);
    }
  }

  // ----- the buckets -----

  function Means(rows: seq<Row>): (r: seq<real>)
    ensures |r| == |rows| && forall i :: 0 <= i < |r| ==> r[i] == rows[i].rewardMean
  {
    if rows == [] then [] else [rows[0].rewardMean] + Means(rows[1..])
  }

  function Stds(rows: seq<Row>): (r: seq<real>)
    ensures |r| == |rows| && forall i :: 0 <= i < |r| ==> r[i] == rows[i].rewardStd
  {
    if rows == [] then [] else [rows[0].rewardStd] + Stds(rows[1..])
  }

  function BucketFor(row: Row, meanMid: real, stdMid: real): Bucket {
    if row.rewardMean >= meanMid then
      if row.rewardStd >= stdMid then HighMeanHighStd else HighMeanLowStd
    else
      if row.rewardStd >= stdMid then LowMeanHighStd else LowMeanLowStd
  }

  /** The rows with their bucket filled in. */
  function Marked(rows: seq<Row>, meanMid: real, stdMid: real): (r: seq<Row>)
    ensures |r| == |rows|
    ensures forall i :: 0 <= i < |rows| ==> r[i] == rows[i].(bucket := BucketFor(rows[i], meanMid, stdMid))
  {
    if rows == [] then []
    else [rows[0].(bucket := BucketFor(rows[0], meanMid, stdMid))] + Marked(rows[1..], meanMid, stdMid)
  }

  /** The rows of one domain, marked by the medians of that domain. */
  function MarkedDomain(all: seq<Row>, d: Domain): seq<Row> {
    var rows := OfDomain(all, d);
    if rows == [] then [] else Marked(rows, Median(Means(rows)), Median(Stds(rows)))
  }

  /** All the rows, in place, each marked by the medians of its own domain in `all`. */
  function Assigned(rows: seq<Row>, all: seq<Row>): (r: seq<Row>)
    requires forall x :: x in rows ==> OfDomain(all, x.category) != []
    ensures |r| == |rows|
    ensures forall i :: 0 <= i < |rows| ==> r[i] == rows[i].(bucket := r[i].bucket)
  {
    if rows == [] then []
    else
      var mine := OfDomain(all, rows[0].category);
      [rows[0].(bucket := BucketFor(rows[0], Median(Means(mine)), Median(Stds(mine))))] + Assigned(rows[1..], all)
  }

  lemma {:induction false} AssignedOfDomain(rows: seq<Row>, all: seq<Row>, d: Domain)
    requires forall x :: x in rows ==> OfDomain(all, x.category) != []
    requires OfDomain(all, d) != []
    ensures OfDomain(Assigned(rows, all), d) ==
            Marked(OfDomain(rows, d), Median(Means(OfDomain(all, d))), Median(Stds(OfDomain(all, d))))
  {
    hide Median, Means, Stds;
    if rows != [] {
      AssignedOfDomain(rows[1..], all, d);
    }
  }

  lemma {:induction false} HasOwnDomain(rows: seq<Row>, r: Row)
    requires r in rows
    ensures r in OfDomain(rows, r.category)
  {
    if rows[0] != r {
      HasOwnDomain(rows[1..], r);
    }
  }

  lemma {:induction false} NoneOfDomain(rows: seq<Row>, d: Domain)
    requires forall i :: 0 <= i < |rows| ==> rows[i].category != d
    ensures OfDomain(rows, d) == []
  {
    if rows != [] {
      NoneOfDomain(rows[1..], d);
    }
  }

  lemma AllHaveDomains(rows: seq<Row>)
    ensures forall x :: x in rows ==> OfDomain(rows, x.category) != []
  {
    forall x | x in rows {
      HasOwnDomain(rows, x);
    }
  }

  /** Domain by domain, the marked rows are the whole input marked in place. */
  lemma MarkedDomains(rows: seq<Row>, d: Domain)
    requires forall x :: x in rows ==> OfDomain(rows, x.category) != []
    ensures OfDomain(Assigned(rows, rows), d) == MarkedDomain(rows, d)
  {
    if OfDomain(rows, d) != [] {
      AssignedOfDomain(rows, rows, d);
    } else {
      NoneOfDomain(Assigned(rows, rows), d);
    }
  }

  /** A row of a domain is marked high in a respect exactly if it reaches the median of its domain in that respect. */
  lemma MarkedByMedians(all: seq<Row>, d: Domain, i: nat)
    requires i < |MarkedDomain(all, d)|
    ensures var rows := OfDomain(all, d);
            && i < |rows| && |MarkedDomain(all, d)| == |rows|
            && var b := MarkedDomain(all, d)[i].bucket;
               && (b == HighMeanLowStd || b == HighMeanHighStd <==> rows[i].rewardMean >= Median(Means(rows)))
               && (b == LowMeanHighStd || b == HighMeanHighStd <==> rows[i].rewardStd >= Median(Stds(rows)))
               && MarkedDomain(all, d)[i] == rows[i].(bucket := b)
  {
    hide Median, OfDomain, Marked, BucketFor, Means, Stds;
    var rows := OfDomain(all, d);
    if rows != [] {
      MarkedIs(all, d);
      BucketIs(rows[i], Median(Means(rows)), Median(Stds(rows)));
    }
  }

  lemma BucketIs(row: Row, meanMid: real, stdMid: real)
    ensures var b := BucketFor(row, meanMid, stdMid);
            && (b == HighMeanLowStd || b == HighMeanHighStd <==> row.rewardMean >= meanMid)
            && (b == LowMeanHighStd || b == HighMeanHighStd <==> row.rewardStd >= stdMid)
  {
  }

  /** Rows whose mean level is high. */
  function HighMeans(rows: seq<Row>): nat {
    if rows == [] then 0
    else (if rows[0].bucket.HighMeanLowStd? || rows[0].bucket.HighMeanHighStd? then 1 else 0) + HighMeans(rows[1..])
  }

  function HighStds(rows: seq<Row>): nat {
    if rows == [] then 0
    else (if rows[0].bucket.HighMeanHighStd? || rows[0].bucket.LowMeanHighStd? then 1 else 0) + HighStds(rows[1..])
  }

  lemma {:induction false} HighsAreCounts(rows: seq<Row>, meanMid: real, stdMid: real)
    ensures HighMeans(Marked(rows, meanMid, stdMid)) == AtLeast(Means(rows), meanMid)
    ensures HighStds(Marked(rows, meanMid, stdMid)) == AtLeast(Stds(rows), stdMid)
  {
    if rows != [] {
      HighsAreCounts(rows[1..], meanMid, stdMid);
    }
  }

  /** In every domain at least half of the rows are marked high, on either axis. */
  lemma AtLeastHalfAreHigh(all: seq<Row>, d: Domain)
    ensures 2 * HighMeans(MarkedDomain(all, d)) >= |MarkedDomain(all, d)|
    ensures 2 * HighStds(MarkedDomain(all, d)) >= |MarkedDomain(all, d)|
  {
    var rows := OfDomain(all, d);
    if rows != [] {
      var meanMid, stdMid := Median(Means(rows)), Median(Stds(rows));
      HighsAreCounts(rows, meanMid, stdMid);
      MedianSplits(Means(rows), meanMid + 1.0);
      MedianSplits(Stds(rows), stdMid + 1.0);
    }
  }

  // ----- assign_buckets -----

  /** `keys` lists the domains of `rows` once each, and each domain has its rows in input order. */
  ghost predicate Grouped(rows: seq<Row>, byDomain: map<Domain, seq<Row>>, keys: seq<Domain>) {
    && Distinct(keys)
    && (forall d :: d in keys <==> d in byDomain)
    && (forall d :: d in byDomain <==> OfDomain(rows, d) != [])
    && (forall d :: d in byDomain ==> byDomain[d] == OfDomain(rows, d))
  }

  lemma OfDomainSnoc(rows: seq<Row>, row: Row, d: Domain)
    ensures OfDomain(rows + [row], d) == if d == row.category then OfDomain(rows, d) + [row] else OfDomain(rows, d)
  {
    hide OfDomain;
    OfDomainAppend(rows, [row], d);
    OfDomainAll([row], row.category, d);
    assert OfDomain(rows, d) + [] == OfDomain(rows, d);
  }

  lemma GroupOne(rows: seq<Row>, row: Row, byDomain: map<Domain, seq<Row>>, keys: seq<Domain>)
    requires Grouped(rows, byDomain, keys)
    ensures var d := row.category;
            if d in byDomain then Grouped(rows + [row], byDomain[d := byDomain[d] + [row]], keys)
            else Grouped(rows + [row], byDomain[d := [row]], keys + [d])
  {
    hide OfDomain;
    var d := row.category;
    forall e {
      OfDomainSnoc(rows, row, e);
    }
    assert d !in byDomain ==> OfDomain(rows, d) == [];
    assert [] + [row] == [row];
  }

  /** The rows by domain, and the domains in the order in which they first occur. */
  method GroupByDomain(rows: seq<Row>) returns (byDomain: map<Domain, seq<Row>>, keys: seq<Domain>)
    ensures Grouped(rows, byDomain, keys)
  {
    byDomain, keys := map[], [];
    for i := 0 to |rows|
      invariant Grouped(rows[..i], byDomain, keys)
    {
      hide Grouped;
      var d := rows[i].category;
      assert rows[..i + 1] == rows[..i] + [rows[i]];
      GroupOne(rows[..i], rows[i], byDomain, keys);
      if d in byDomain {
        byDomain := byDomain[d := byDomain[d] + [rows[i]]];
      } else {
        byDomain, keys := byDomain[d := [rows[i]]], keys + [d];
      }
    }
    assert rows[..|rows|] == rows;
  }

  /** `assign_buckets`: every domain that occurs, its rows in input order, marked by its own medians. */
  method AssignBuckets(rows: seq<Row>) returns (byDomain: map<Domain, seq<Row>>, keys: seq<Domain>)
    ensures Distinct(keys) && forall d :: d in keys <==> d in byDomain
    ensures forall d :: d in byDomain <==> OfDomain(rows, d) != []
    ensures forall d :: d in byDomain ==> byDomain[d] == MarkedDomain(rows, d)
  {
    hide OfDomain, Median, Means, Stds, Marked, MarkedDomain;
    var grouped;
    grouped, keys := GroupByDomain(rows);
    byDomain := grouped;
    for i := 0 to |keys|
      invariant forall d :: d in byDomain <==> d in grouped
      invariant forall d :: d in keys[..i] ==> byDomain[d] == MarkedDomain(rows, d)
      invariant forall d :: d in keys[i..] ==> byDomain[d] == grouped[d]
    {
      var d := keys[i];
      assert d in keys[i..] && d !in keys[..i] && d !in keys[i + 1..] && keys[..i + 1] == keys[..i] + [d];
      assert forall e :: e in keys[i + 1..] ==> e in keys[i..];
      var mine := byDomain[d];
      MarkedIs(rows, d);
      var meanMid, stdMid := Median(Means(mine)), Median(Stds(mine));
      byDomain := byDomain[d := Marked(mine, meanMid, stdMid)];
    }
    assert keys[..|keys|] == keys;
  }

  lemma MarkedIs(rows: seq<Row>, d: Domain)
    requires OfDomain(rows, d) != []
    ensures var mine := OfDomain(rows, d);
            MarkedDomain(rows, d) == Marked(mine, Median(Means(mine)), Median(Stds(mine)))
  {
  }
}
