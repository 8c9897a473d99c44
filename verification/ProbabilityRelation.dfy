/** How selection depends on probability: the rank statistic by bisection, and the quantile bins. */
module ProbabilityRelation {
  import opened SortedReals
  import opened Sequences
  import opened Quotients
  import Bisect

  /** A row: its probability and whether it was selected. */
  datatype Row = Row(p: real, selected: bool)

  function Picked(rows: seq<Row>, selected: bool): seq<real> {
    if rows == [] then []
    else if rows[0].selected == selected then [rows[0].p] + Picked(rows[1..], selected)
    else Picked(rows[1..], selected)
  }

  // ----- the pairwise statistic -----

  /** A win counts one, a tie one half. */
  function Score(p: real, u: real): real {
    if p > u then 1.0 else if p == u then 0.5 else 0.0
  }

  function ScoreOf(p: real, us: seq<real>): real {
    if us == [] then 0.0 else Score(p, us[0]) + ScoreOf(p, us[1..])
  }

  /** The sum over all pairs. */
  function PairTotal(ps: seq<real>, us: seq<real>): real {
    if ps == [] then 0.0 else ScoreOf(ps[0], us) + PairTotal(ps[1..], us)
  }

  function Times(n: nat, x: real): real {
    n as real * x
  }

  lemma {:induction false} ScoreBounds(p: real, us: seq<real>)
    ensures 0.0 <= ScoreOf(p, us) <= |us| as real
  {
    if us != [] {
      ScoreBounds(p, us[1..]);
    }
  }

  lemma {:induction false} PairBounds(ps: seq<real>, us: seq<real>)
    ensures 0.0 <= PairTotal(ps, us) <= Times(|ps|, |us| as real)
  {
    if ps != [] {
      ScoreBounds(ps[0], us);
      PairBounds(ps[1..], us);
      assert Times(|ps|, |us| as real) == Times(|ps| - 1, |us| as real) + |us| as real;
    }
  }

  lemma {:induction false} ScoreIsCounts(p: real, us: seq<real>)
    ensures ScoreOf(p, us) ==
            (|us| - AtLeast(us, p)) as real + 0.5 * (AtLeast(us, p) - GreaterThan(us, p)) as real
  {
    if us != [] {
      ScoreIsCounts(p, us[1..]);
    }
  }

  predicate Less(x: real, y: real) { x < y }

  /** On the sorted list the two bisections give the score. */
  lemma BisectionsScore(p: real, us: seq<real>)
    ensures var s := Sort(us);
            var lt, le := Bisect.BisectLeft(s, p, Less), Bisect.BisectRight(s, p, Less);
            ScoreOf(p, us) == lt as real + 0.5 * (le - lt) as real
  {
    var s := Sort(us);
    SortAscends(us);
    Bisect.BisectLeftSplits(s, p, Less);
    Bisect.BisectRightSplits(s, p, Less);
    var lt, le := Bisect.BisectLeft(s, p, Less), Bisect.BisectRight(s, p, Less);
    AtLeastFrom(s, lt, p);
    GreaterThanFrom(s, le, p);
    SortCounts(us, p);
    SortCountsGreater(us, p);
    ScoreIsCounts(p, us);
  }

  lemma {:induction false} InsertTotal(x: real, ps: seq<real>, us: seq<real>)
    ensures PairTotal(Insert(x, ps), us) == ScoreOf(x, us) + PairTotal(ps, us)
  {
    if ps != [] && x > ps[0] {
      InsertTotal(x, ps[1..], us);
    }
  }

  lemma {:induction false} SortTotal(ps: seq<real>, us: seq<real>)
    ensures PairTotal(Sort(ps), us) == PairTotal(ps, us)
  {
    if ps != [] {
      SortTotal(ps[1..], us);
      InsertTotal(ps[0], Sort(ps[1..]), us);
    }
  }

  /** The wins, accumulated over the sorted lists with two bisections a row. */
  method CountWins(selected: seq<real>, unselected: seq<real>) returns (wins: real)
    ensures wins == PairTotal(selected, unselected)
  {
    hide Sort, ScoreOf, Less;
    var sortedUnselected, sortedSelected := Sort(unselected), Sort(selected);
    wins := 0.0;
    for i := 0 to |sortedSelected|
      invariant wins + PairTotal(sortedSelected[i..], unselected) == PairTotal(sortedSelected, unselected)
    {
      var p := sortedSelected[i];
      var lt: int := Bisect.BisectLeft(sortedUnselected, p, Less);
      var le: int := Bisect.BisectRight(sortedUnselected, p, Less);
      BisectionsScore(p, unselected);
      assert sortedSelected[i..][1..] == sortedSelected[i + 1..];
      wins := wins + (lt as real + 0.5 * (le - lt) as real);
    }
    SortTotal(selected, unselected);
  }

  // ----- the statistic over the rows themselves -----

  /** What a selected row scores against one that is not: one if its probability is greater, a half if it is equal. */
  function Beats(x: Row, y: Row): real {
    if !x.selected || y.selected then 0.0 else if x.p > y.p then 1.0 else if x.p == y.p then 0.5 else 0.0
  }

  function BeatsAll(x: Row, ys: seq<Row>): real {
    if ys == [] then 0.0 else Beats(x, ys[0]) + BeatsAll(x, ys[1..])
  }

  /** The scores of all pairs of rows, one of `xs` and one of `ys`. */
  function PairScores(xs: seq<Row>, ys: seq<Row>): real {
    if xs == [] then 0.0 else BeatsAll(xs[0], ys) + PairScores(xs[1..], ys)
  }

  /** The places of the selected rows, or of the others. */
  function Places(rows: seq<Row>, selected: bool): set<nat> {
    set i: nat | i < |rows| && rows[i].selected == selected
  }

  lemma {:induction false} PickedAppend(a: seq<Row>, b: seq<Row>, selected: bool)
    ensures Picked(a + b, selected) == Picked(a, selected) + Picked(b, selected)
  {
    if a == [] {
      assert a + b == b;
    } else {
      assert (a + b)[1..] == a[1..] + b && (a + b)[0] == a[0];
      PickedAppend(a[1..], b, selected);
    }
  }

  lemma OnePicked(x: Row, selected: bool)
    ensures Picked([x], selected) == if x.selected == selected then [x.p] else []
  {
    assert [x][1..] == [];
  }

  lemma NonePicked(selected: bool)
    ensures Picked([], selected) == [] && Places([], selected) == {}
  {
  }

  lemma {:induction false} PickedCounts(rows: seq<Row>, selected: bool)
    ensures |Picked(rows, selected)| == |Places(rows, selected)|
    decreases |rows|
  {
    hide Picked, Places;
    if rows == [] {
      NonePicked(selected);
    } else {
      var n := |rows| - 1;
      assert rows == rows[..n] + [rows[n]];
      PickedCounts(rows[..n], selected);
      PickedAppend(rows[..n], [rows[n]], selected);
      OnePicked(rows[n], selected);
      LastPlace(rows, selected);
    }
  }

  lemma LastPlace(rows: seq<Row>, selected: bool)
    requires rows != []
    ensures var n := |rows| - 1;
            |Places(rows, selected)| == |Places(rows[..n], selected)| + if rows[n].selected == selected then 1 else 0
  {
    var n := |rows| - 1;
    assert forall i: nat :: i < n ==> rows[..n][i] == rows[i];
    assert Places(rows, selected) == Places(rows[..n], selected) + if rows[n].selected == selected then {n} else {};
  }

  lemma {:induction false} ScoreOfRows(x: Row, ys: seq<Row>)
    ensures BeatsAll(x, ys) == if x.selected then ScoreOf(x.p, Picked(ys, false)) else 0.0
  {
    if ys != [] {
      ScoreOfRows(x, ys[1..]);
    }
  }

  lemma {:induction false} TotalOfRows(xs: seq<Row>, ys: seq<Row>)
    ensures PairScores(xs, ys) == PairTotal(Picked(xs, true), Picked(ys, false))
  {
    if xs != [] {
      TotalOfRows(xs[1..], ys);
      ScoreOfRows(xs[0], ys);
    }
  }

  /** The statistic: 0 without rows, one half when no row is selected or every row is, and otherwise the mean score over
      all pairs of a selected row and one that is not. */
  method PairwiseAucLike(rows: seq<Row>) returns (auc: real)
    ensures 0.0 <= auc <= 1.0
    ensures var selected, others := |Places(rows, true)|, |Places(rows, false)|;
            if rows == [] then auc == 0.0
            else if selected == 0 || others == 0 then auc == 0.5
            else auc * Times(selected, others as real) == PairScores(rows, rows)
  {
    PickedCounts(rows, true);
    PickedCounts(rows, false);
    TotalOfRows(rows, rows);
    hide Places, PairScores, Picked;
    auc := AucOfPicked(rows);
  }

  method AucOfPicked(rows: seq<Row>) returns (auc: real)
    ensures 0.0 <= auc <= 1.0
    ensures var ps, us := Picked(rows, true), Picked(rows, false);
            if rows == [] then auc == 0.0
            else if ps == [] || us == [] then auc == 0.5
            else auc * Times(|ps|, |us| as real) == PairTotal(ps, us)
  {
    if rows == [] {
      return 0.0;
    }
    hide Picked, PairTotal;
    var selected, unselected := Picked(rows, true), Picked(rows, false);
    auc := 0.5;
    if selected != [] && unselected != [] {
      var wins := CountWins(selected, unselected);
      PairBounds(selected, unselected);
      hide Times;
      var pairs := Times(|selected|, |unselected| as real);
      auc := wins / pairs;
      InUnit(wins, pairs);
    }
  }

  lemma InUnit(x: real, y: real)
    requires 0.0 <= x <= y && y > 0.0
    ensures 0.0 <= x / y <= 1.0 && x / y * y == x
  {
  }

  // ----- the bins -----

  /** Where bin `idx` starts: its share of the rows, rounded down. */
  function Cut(idx: nat, n: nat, bins: nat): nat
    requires bins > 0
  {
    idx * n / bins
  }

  lemma CutIsFloor(idx: nat, n: nat, bins: nat)
    requires bins > 0
    ensures Cut(idx, n, bins) * bins <= idx * n < Cut(idx, n, bins) * bins + bins
  {
  }

  lemma CutsTile(n: nat, bins: nat)
    requires bins > 0
    ensures Cut(0, n, bins) == 0 && Cut(bins, n, bins) == n
  {
    QuotientIs(0, bins, 0);
    QuotientIs(n * bins, bins, n);
    assert bins * n == n * bins;
  }

  function Share(n: nat, bins: nat): nat
    requires bins > 0
  {
    n / bins
  }

  /** The bins are balanced: each has the rounded-down share, or one row more. */
  lemma BinSize(idx: nat, n: nat, bins: nat)
    requires bins > 0
    ensures var size := Cut(idx + 1, n, bins) - Cut(idx, n, bins);
            size == Share(n, bins) || (size == Share(n, bins) + 1 && n % bins > 0)
  {
    Distribute(idx, 1, n);
    QuotientIs(n, bins, n / bins);
    DivShift(idx * n, n / bins, n % bins, bins);
  }

  function InsertRow(x: Row, s: seq<Row>): seq<Row> {
    if s == [] || x.p <= s[0].p then [x] + s else [s[0]] + InsertRow(x, s[1..])
  }

  /** The rows by ascending probability; equal ones keep their order. */
  function SortRows(rows: seq<Row>): seq<Row> {
    if rows == [] then [] else InsertRow(rows[0], SortRows(rows[1..]))
  }

  ghost predicate ByProbability(rows: seq<Row>) {
    forall i, j :: 0 <= i < j < |rows| ==> rows[i].p <= rows[j].p
  }

  lemma {:induction false} InsertRowAbove(low: real, x: Row, s: seq<Row>)
    requires low <= x.p && forall i :: 0 <= i < |s| ==> low <= s[i].p
    ensures forall i :: 0 <= i < |InsertRow(x, s)| ==> low <= InsertRow(x, s)[i].p
  {
    if s != [] && x.p > s[0].p {
      InsertRowAbove(low, x, s[1..]);
    }
  }

  lemma {:induction false} InsertRowSorts(x: Row, s: seq<Row>)
    requires ByProbability(s)
    ensures ByProbability(InsertRow(x, s))
  {
    if s != [] && x.p > s[0].p {
      InsertRowSorts(x, s[1..]);
      InsertRowAbove(s[0].p, x, s[1..]);
    }
  }

  lemma {:induction false} InsertRowAdds(x: Row, s: seq<Row>)
    ensures multiset(InsertRow(x, s)) == multiset{x} + multiset(s)
  {
    if s != [] && x.p > s[0].p {
      InsertRowAdds(x, s[1..]);
      assert s == [s[0]] + s[1..];
    }
  }

  lemma {:induction false} RowsSorted(rows: seq<Row>)
    ensures ByProbability(SortRows(rows)) && multiset(SortRows(rows)) == multiset(rows)
  {
    if rows != [] {
      RowsSorted(rows[1..]);
      assert rows == [rows[0]] + rows[1..];
      InsertRowSorts(rows[0], SortRows(rows[1..]));
      InsertRowAdds(rows[0], SortRows(rows[1..]));
    }
  }

  /** The rows of one probability. */
  function OfProbability(rows: seq<Row>, p: real): seq<Row> {
    if rows == [] then []
    else (if rows[0].p == p then [rows[0]] else []) + OfProbability(rows[1..], p)
  }

  lemma InsertRowStep(x: Row, s: seq<Row>)
    ensures InsertRow(x, s) == if s == [] || x.p <= s[0].p then [x] + s else [s[0]] + InsertRow(x, s[1..])
  {
  }

  lemma FrontOfProbability(x: Row, s: seq<Row>, p: real)
    ensures OfProbability([x] + s, p) == (if x.p == p then [x] else []) + OfProbability(s, p)
  {
    assert ([x] + s)[1..] == s;
  }

  lemma {:induction false} InsertRowStable(x: Row, s: seq<Row>, p: real)
    ensures OfProbability(InsertRow(x, s), p) == (if x.p == p then [x] else []) + OfProbability(s, p)
  {
    hide InsertRow, OfProbability;
    InsertRowStep(x, s);
    if s == [] || x.p <= s[0].p {
      FrontOfProbability(x, s, p);
    } else {
      var first, rest := s[0], s[1..];
      assert s == [first] + rest;
      InsertRowStable(x, rest, p);
      FrontOfProbability(first, InsertRow(x, rest), p);
      FrontOfProbability(first, rest, p);
      var mine := OfProbability(rest, p);
      if first.p == p {
        assert [first] + ([] + mine) == [] + ([first] + mine);
      } else {
        assert [] + OfProbability(InsertRow(x, rest), p) == OfProbability(InsertRow(x, rest), p);
        assert [] + mine == mine;
      }
    }
  }

  /** The sort is stable: rows of equal probability stay in order. */
  lemma {:induction false} SortRowsStable(rows: seq<Row>, p: real)
    ensures OfProbability(SortRows(rows), p) == OfProbability(rows, p)
  {
    if rows != [] {
      SortRowsStable(rows[1..], p);
      InsertRowStable(rows[0], SortRows(rows[1..]), p);
    }
  }

  // ----- what is recorded of a bin -----

  function SumP(rows: seq<Row>): real {
    if rows == [] then 0.0 else rows[0].p + SumP(rows[1..])
  }

  function CountSelected(rows: seq<Row>): nat {
    if rows == [] then 0 else (if rows[0].selected then 1 else 0) + CountSelected(rows[1..])
  }

  function LeastP(rows: seq<Row>): real
    requires rows != []
  {
    if |rows| == 1 then rows[0].p
    else
      var rest := LeastP(rows[1..]);
      if rows[0].p <= rest then rows[0].p else rest
  }

  function GreatestP(rows: seq<Row>): real
    requires rows != []
  {
    if |rows| == 1 then rows[0].p
    else
      var rest := GreatestP(rows[1..]);
      if rows[0].p >= rest then rows[0].p else rest
  }

  /** A bin with its rows and what is recorded of them. */
  datatype Bin = Bin(number: nat, rows: seq<Row>, pMin: real, pMax: real, pMean: real, selectRate: real)

  function MakeBin(number: nat, rows: seq<Row>): Bin
    requires rows != []
  {
    Bin(number, rows, LeastP(rows), GreatestP(rows), SumP(rows) / |rows| as real,
        CountSelected(rows) as real / |rows| as real)
  }

  lemma {:induction false} SelectedAtMostAll(rows: seq<Row>)
    ensures CountSelected(rows) <= |rows|
  {
    if rows != [] {
      SelectedAtMostAll(rows[1..]);
    }
  }

  lemma {:induction false} ExtremesOfSorted(rows: seq<Row>)
    requires rows != [] && ByProbability(rows)
    ensures LeastP(rows) == rows[0].p && GreatestP(rows) == rows[|rows| - 1].p
  {
    if |rows| > 1 {
      ExtremesOfSorted(rows[1..]);
    }
  }

  /** Rate and mean of a bin are those of its rows, and lie where they should. */
  lemma BinIsDescribed(number: nat, rows: seq<Row>)
    requires rows != []
    ensures var bin := MakeBin(number, rows);
            && bin.pMean * |rows| as real == SumP(rows)
            && bin.selectRate * |rows| as real == CountSelected(rows) as real
            && 0.0 <= bin.selectRate <= 1.0
  {
    hide SumP, CountSelected, LeastP, GreatestP;
    SelectedAtMostAll(rows);
    InUnit(CountSelected(rows) as real, |rows| as real);
  }

  /** What the recorded means and rates add up to. */
  function Weighted(bins: seq<Bin>, rates: bool): real {
    if bins == [] then 0.0
    else
      (if rates then bins[0].selectRate else bins[0].pMean) * |bins[0].rows| as real + Weighted(bins[1..], rates)
  }

  lemma {:induction false} SumsAppend(a: seq<Row>, b: seq<Row>)
    ensures SumP(a + b) == SumP(a) + SumP(b) && CountSelected(a + b) == CountSelected(a) + CountSelected(b)
  {
    if a == [] {
      assert a + b == b;
    } else {
      assert (a + b)[1..] == a[1..] + b;
      SumsAppend(a[1..], b);
    }
  }

  lemma {:induction false} SumsInsert(x: Row, s: seq<Row>)
    ensures SumP(InsertRow(x, s)) == x.p + SumP(s)
    ensures CountSelected(InsertRow(x, s)) == (if x.selected then 1 else 0) + CountSelected(s)
  {
    if s != [] && x.p > s[0].p {
      SumsInsert(x, s[1..]);
    }
  }

  lemma {:induction false} SumsSort(rows: seq<Row>)
    ensures SumP(SortRows(rows)) == SumP(rows) && CountSelected(SortRows(rows)) == CountSelected(rows)
  {
    if rows != [] {
      SumsSort(rows[1..]);
      SumsInsert(rows[0], SortRows(rows[1..]));
    }
  }

  /** Every bin is made of its rows. */
  ghost predicate AllMade(bins: seq<Bin>) {
    forall i :: 0 <= i < |bins| ==> bins[i].rows != [] && bins[i] == MakeBin(bins[i].number, bins[i].rows)
  }

  lemma {:induction false} WeightedSums(bins: seq<Bin>)
    requires AllMade(bins)
    ensures Weighted(bins, false) == SumP(Flatten(Members(bins)))
    ensures Weighted(bins, true) == CountSelected(Flatten(Members(bins))) as real
  {
    hide SumP, CountSelected, MakeBin;
    if bins != [] {
      WeightedSums(bins[1..]);
      BinIsDescribed(bins[0].number, bins[0].rows);
      MembersFront(bins);
      SumsAppend(bins[0].rows, Flatten(Members(bins[1..])));
    } else {
      NoSums();
    }
  }

  lemma MembersFront(bins: seq<Bin>)
    requires bins != []
    ensures Flatten(Members(bins)) == bins[0].rows + Flatten(Members(bins[1..]))
  {
  }

  lemma NoSums()
    ensures SumP([]) == 0.0 && CountSelected([]) == 0 && Flatten(Members([])) == []
  {
  }

  /** Weighted by their sizes, the recorded means and rates of the bins give the sum of all probabilities and the number
      of all selected rows. */
  lemma BinsConserve(rows: seq<Row>, bins: seq<Bin>)
    requires AllMade(bins) && Flatten(Members(bins)) == SortRows(rows)
    ensures Weighted(bins, false) == SumP(rows) && Weighted(bins, true) == CountSelected(rows) as real
  {
    WeightedSums(bins);
    SumsSort(rows);
  }

  function Members(bins: seq<Bin>): (r: seq<seq<Row>>)
    ensures |r| == |bins| && forall i :: 0 <= i < |bins| ==> r[i] == bins[i].rows
  {
    if bins == [] then [] else [bins[0].rows] + Members(bins[1..])
  }

  lemma {:induction false} MembersSnoc(bins: seq<Bin>, bin: Bin)
    ensures Members(bins + [bin]) == Members(bins) + [bin.rows]
  {
  }

  /** The bins made so far tile the rows before the cut, in order, balanced, and without empty ones. */
  ghost predicate Tiled(made: seq<Bin>, rows: seq<Row>, idx: nat, bins: nat)
    requires bins > 0
  {
    && Cut(idx, |rows|, bins) <= |rows|
    && Flatten(Members(made)) == rows[..Cut(idx, |rows|, bins)]
    && (forall i :: 0 <= i < |made| ==> BinOk(made[i], rows, idx, bins))
    && (forall i, j :: 0 <= i < j < |made| ==> made[i].number < made[j].number)
    && (|rows| >= bins ==> |made| == idx)
  }

  /** The bin is one of the first `idx`: not empty, the rows between its cuts, and what is recorded of them. */
  predicate BinOk(bin: Bin, rows: seq<Row>, idx: nat, bins: nat)
    requires bins > 0
  {
    && bin.rows != [] && 1 <= bin.number <= idx && |bin.rows| <= Share(|rows|, bins) + 1
    && IsSlice(bin.rows, rows, Cut(bin.number - 1, |rows|, bins), Cut(bin.number, |rows|, bins))
    && bin == MakeBin(bin.number, bin.rows)
  }

  predicate IsSlice(part: seq<Row>, rows: seq<Row>, lo: nat, hi: nat) {
    lo <= hi <= |rows| && part == rows[lo..hi]
  }

  lemma {:induction false} CutsAscend(i: nat, j: nat, n: nat, bins: nat)
    requires bins > 0 && i <= j
    ensures Cut(i, n, bins) <= Cut(j, n, bins)
  {
    MulMonotone(i, j, n);
    DivMonotone(i * n, j * n, bins);
  }

  /** The recorded ranges ascend from bin to bin. */
  lemma RangesAscend(rows: seq<Row>, a: Bin, b: Bin, idx: nat, bins: nat)
    requires bins > 0 && BinOk(a, SortRows(rows), idx, bins) && BinOk(b, SortRows(rows), idx, bins)
    requires a.number < b.number
    ensures a.pMin <= a.pMax <= b.pMin <= b.pMax
  {
    var sorted := SortRows(rows);
    hide SortRows, Cut, SumP, CountSelected, LeastP, GreatestP, Share;
    RowsSorted(rows);
    CutsAscend(a.number, b.number - 1, |sorted|, bins);
    var lo, hi := Cut(a.number - 1, |sorted|, bins), Cut(a.number, |sorted|, bins);
    var from, to := Cut(b.number - 1, |sorted|, bins), Cut(b.number, |sorted|, bins);
    SliceSorted(sorted, lo, hi);
    SliceSorted(sorted, from, to);
    ExtremesOfSorted(a.rows);
    ExtremesOfSorted(b.rows);
  }

  lemma SliceSorted(rows: seq<Row>, lo: nat, hi: nat)
    requires lo <= hi <= |rows| && ByProbability(rows)
    ensures ByProbability(rows[lo..hi])
  {
  }

  lemma CutStep(idx: nat, n: nat, bins: nat)
    requires idx < bins
    ensures var left, right := Cut(idx, n, bins), Cut(idx + 1, n, bins);
            left <= right <= n && right - left <= Share(n, bins) + 1 && (n >= bins ==> left < right)
  {
    BinSize(idx, n, bins);
    CutBelow(idx + 1, n, bins);
    if n >= bins {
      DivMonotone(bins, n, bins);
      QuotientIs(bins, bins, 1);
    }
  }

  lemma MadeOfRows(number: nat, rows: seq<Row>)
    requires rows != []
    ensures MakeBin(number, rows).number == number && MakeBin(number, rows).rows == rows
  {
  }

  lemma TileOne(made: seq<Bin>, rows: seq<Row>, idx: nat, bins: nat)
    requires idx < bins && Tiled(made, rows, idx, bins)
    ensures var n := |rows|;
            Cut(idx, n, bins) <= Cut(idx + 1, n, bins) <= n &&
            var chunk := rows[Cut(idx, n, bins)..Cut(idx + 1, n, bins)];
            Tiled(if chunk == [] then made else made + [MakeBin(idx + 1, chunk)], rows, idx + 1, bins)
  {
    hide Cut, Flatten, Members, Share, MakeBin;
    var n := |rows|;
    CutStep(idx, n, bins);
    var left, right := Cut(idx, n, bins), Cut(idx + 1, n, bins);
    assert rows[..right] == rows[..left] + rows[left..right];
    var chunk := rows[left..right];
    if chunk != [] {
      MadeOfRows(idx + 1, chunk);
      MembersSnoc(made, MakeBin(idx + 1, chunk));
    }
    FlattenSnoc(Members(made), chunk);
  }

  /** The bins tile the sorted rows, without gap or overlap; empty ones are left out, and none is empty when there are
      at least as many rows as bins. */
  method DecileBins(rows: seq<Row>, bins: int) returns (bucketRows: seq<Bin>)
    ensures bins <= 0 ==> bucketRows == []
    ensures bins > 0 ==> Flatten(Members(bucketRows)) == SortRows(rows)
    ensures bins > 0 ==> forall i :: 0 <= i < |bucketRows| ==> BinOk(bucketRows[i], SortRows(rows), bins, bins)
    ensures forall i, j :: 0 <= i < j < |bucketRows| ==> bucketRows[i].number < bucketRows[j].number
    ensures bins > 0 && |rows| >= bins ==> |bucketRows| == bins
  {
    bucketRows := [];
    if bins <= 0 {
      return;
    }
    var rowsSorted := SortRows(rows);
    var n := |rowsSorted|;
    SameSize(rows);
    for idx := 0 to bins
      invariant Tiled(bucketRows, rowsSorted, idx, bins)
    {
      TileOne(bucketRows, rowsSorted, idx, bins);
      hide Tiled;
      var chunk := rowsSorted[Cut(idx, n, bins)..Cut(idx + 1, n, bins)];
      if chunk != [] {
        bucketRows := bucketRows + [MakeBin(idx + 1, chunk)];
      }
    }
    CutsTile(n, bins);
    assert rowsSorted[..n] == rowsSorted;
  }

  lemma SameSize(rows: seq<Row>)
    ensures |SortRows(rows)| == |rows|
  {
    RowsSorted(rows);
    assert |multiset(SortRows(rows))| == |multiset(rows)|;
  }

  lemma CutBelow(idx: nat, n: nat, bins: nat)
    requires 0 < bins && idx <= bins
    ensures Cut(idx, n, bins) <= n
  {
    MulMonotone(idx, bins, n);
    CutsTile(n, bins);
    DivMonotone(idx * n, bins * n, bins);
  }
}
