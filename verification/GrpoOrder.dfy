/** Ordering the rows of one domain, for every behaviour of the random number generator. */
module GrpoOrder {
  import opened GrpoRows

  datatype Schedule = FourStage | CurriculumMix | RandomOrder

  /** `rng.shuffle`: a permutation, whatever is drawn. */
  method Shuffle(rows: seq<Row>) returns (shuffled: seq<Row>)
    ensures multiset(shuffled) == multiset(rows)
  {
    shuffled := rows;
    for i := 0 to |rows|
      invariant |shuffled| == |rows| && multiset(shuffled) == multiset(rows)
    {
      var j :| i <= j < |rows|;
      shuffled := shuffled[i := shuffled[j]][j := shuffled[i]];
    }
  }

  /** The four buckets of a domain. */
  datatype Buckets = Buckets(hl: seq<Row>, ll: seq<Row>, hh: seq<Row>, lh: seq<Row>) {
    function Get(b: Bucket): seq<Row> {
      match b
      case HighMeanLowStd => hl
      case LowMeanLowStd => ll
      case HighMeanHighStd => hh
      case LowMeanHighStd => lh
    }

    function Set(b: Bucket, rows: seq<Row>): Buckets {
      match b
      case HighMeanLowStd => this.(hl := rows)
      case LowMeanLowStd => this.(ll := rows)
      case HighMeanHighStd => this.(hh := rows)
      case LowMeanHighStd => this.(lh := rows)
    }

    function Total(): nat { |hl| + |ll| + |hh| + |lh| }

    ghost predicate Valid() {
      forall b, r :: r in Get(b) ==> r.bucket == b
    }
  }

  lemma GetSet(q: Buckets, b: Bucket, rows: seq<Row>)
    ensures forall c :: q.Set(b, rows).Get(c) == if c == b then rows else q.Get(c)
    ensures q.Set(b, rows).Total() == q.Total() - |q.Get(b)| + |rows|
  {
  }

  /** The place of a bucket in BUCKET_ORDER. */
  function Place(b: Bucket): (k: nat)
    ensures k < 4 && BUCKET_ORDER[k] == b
  {
    match b
    case HighMeanLowStd => 0
    case LowMeanLowStd => 1
    case HighMeanHighStd => 2
    case LowMeanHighStd => 3
  }

  /** The weights of the three phases, in percent. */
  function Weight(phase: nat, b: Bucket): nat {
    match (phase, b)
    case (0, HighMeanLowStd) => 70
    case (0, LowMeanLowStd) => 20
    case (0, HighMeanHighStd) => 10
    case (0, LowMeanHighStd) => 0
    case (1, HighMeanLowStd) => 30
    case (1, LowMeanLowStd) => 35
    case (1, HighMeanHighStd) => 25
    case (1, LowMeanHighStd) => 10
    case (_, HighMeanLowStd) => 15
    case (_, LowMeanLowStd) => 25
    case (_, HighMeanHighStd) => 35
    case (_, LowMeanHighStd) => 25
  }

  /** First in, first out: what was emitted and what is still queued make up each bucket. */
  ghost predicate Drawn(buckets: Buckets, ordered: seq<Row>, queues: Buckets) {
    && (forall b :: OfBucket(ordered, b) + queues.Get(b) == buckets.Get(b))
    && |ordered| + queues.Total() == buckets.Total()
  }

  /** Only the first phase leaves a bucket out, the rows of low mean and high deviation, and the weights of each phase
      add up to a whole. */
  lemma PhaseWeights(phase: nat, b: Bucket)
    requires phase < 3
    ensures Weight(phase, b) == 0 <==> phase == 0 && b == LowMeanHighStd
    ensures Weight(phase, HighMeanLowStd) + Weight(phase, LowMeanLowStd) + Weight(phase, HighMeanHighStd) +
            Weight(phase, LowMeanHighStd) == 100
  {
  }

  /** Between `from` and `to`, a row of a zero-weight bucket was emitted only when a weighted bucket had run out. */
  ghost predicate PhaseFair(phase: nat, buckets: Buckets, ordered: seq<Row>, from: nat, to: nat) {
    && from <= to <= |ordered|
    && forall k :: from <= k < to && Weight(phase, ordered[k].bucket) == 0 ==>
                     exists b :: Weight(phase, b) > 0 && OfBucket(ordered[..k], b) == buckets.Get(b)
  }

  /** How many rows a phase adds: a third of all rows, at least one, but no more than are left. */
  function PhaseTarget(total: nat, done: nat): nat
    requires done <= total
  {
    var phaseSize := if total / 3 > 1 then total / 3 else 1;
    if phaseSize < total - done then phaseSize else total - done
  }

  lemma DrawOne(buckets: Buckets, ordered: seq<Row>, queues: Buckets, b: Bucket)
    requires buckets.Valid() && Drawn(buckets, ordered, queues) && queues.Get(b) != []
    ensures Drawn(buckets, ordered + [queues.Get(b)[0]], queues.Set(b, queues.Get(b)[1..]))
  {
    var row, rest := queues.Get(b)[0], queues.Get(b)[1..];
    assert OfBucket(ordered, b) + queues.Get(b) == buckets.Get(b);
    assert row in buckets.Get(b);
    GetSet(queues, b, rest);
    forall c
      ensures OfBucket(ordered + [row], c) + queues.Set(b, rest).Get(c) == buckets.Get(c)
    {
      DrawnBucket(ordered, row, b, c, queues.Get(c), buckets.Get(c));
    }
  }

  lemma DrawnBucket(ordered: seq<Row>, row: Row, b: Bucket, c: Bucket, queue: seq<Row>, whole: seq<Row>)
    requires OfBucket(ordered, c) + queue == whole && row.bucket == b
    requires b == c ==> queue != [] && queue[0] == row
    ensures OfBucket(ordered + [row], c) + (if b == c then queue[1..] else queue) == whole
  {
    hide OfBucket;
    OfBucketAppend(ordered, [row], c);
    OfBucketAll([row], b, c);
    if b == c {
    } else {
      assert OfBucket(ordered, c) + [] == OfBucket(ordered, c);
    }
  }

  lemma FairOne(phase: nat, buckets: Buckets, ordered: seq<Row>, queues: Buckets, from: nat, drawn: Bucket, b: Bucket)
    requires buckets.Valid() && Drawn(buckets, ordered, queues) && queues.Get(b) != []
    requires Weight(phase, drawn) > 0 && (b == drawn || queues.Get(drawn) == [])
    requires PhaseFair(phase, buckets, ordered, from, |ordered|)
    ensures PhaseFair(phase, buckets, ordered + [queues.Get(b)[0]], from, |ordered| + 1)
  {
    var row := queues.Get(b)[0];
    var ordered' := ordered + [row];
    assert OfBucket(ordered, b) + queues.Get(b) == buckets.Get(b);
    assert row in buckets.Get(b);
    assert OfBucket(ordered, drawn) + queues.Get(drawn) == buckets.Get(drawn);
    hide OfBucket;
    forall k | from <= k < |ordered'| && Weight(phase, ordered'[k].bucket) == 0
      ensures exists c :: Weight(phase, c) > 0 && OfBucket(ordered'[..k], c) == buckets.Get(c)
    {
      if k < |ordered| {
        assert ordered'[..k] == ordered[..k];
      } else {
        assert ordered'[..k] == ordered;
        assert Weight(phase, drawn) > 0 && OfBucket(ordered'[..k], drawn) == buckets.Get(drawn);
      }
    }
  }

  /** One phase of the mix: exactly `amount` rows, drawn from the fronts of the queues. */
  method MixPhase(phase: nat, buckets: Buckets, before: seq<Row>, start: Buckets, amount: nat)
    returns (ordered: seq<Row>, queues: Buckets)
    requires buckets.Valid() && Drawn(buckets, before, start) && amount <= start.Total()
    ensures Drawn(buckets, ordered, queues)
    ensures before <= ordered && |ordered| == |before| + amount
    ensures PhaseFair(phase, buckets, ordered, |before|, |ordered|)
  {
    ordered, queues := before, start;
    var target := amount;
    while target > 0 && queues.Total() > 0
      invariant 0 <= target <= queues.Total()
      invariant Drawn(buckets, ordered, queues)
      invariant before <= ordered && |ordered| == |before| + amount - target
      invariant PhaseFair(phase, buckets, ordered, |before|, |ordered|)
      decreases target
    {
      hide PhaseFair, Drawn;
      var bucket := DrawWeighted(phase);
      ghost var drawn := bucket;
      if queues.Get(bucket) == [] {
        bucket := DrawAvailable(queues);
      }
      DrawOne(buckets, ordered, queues, bucket);
      FairOne(phase, buckets, ordered, queues, |before|, drawn, bucket);
      GetSet(queues, bucket, queues.Get(bucket)[1..]);
      ordered, queues := ordered + [queues.Get(bucket)[0]], queues.Set(bucket, queues.Get(bucket)[1..]);
      target := target - 1;
    }
  }

  /** `rng.choices` with weights: any bucket whose weight is not zero. */
  method DrawWeighted(phase: nat) returns (b: Bucket)
    ensures Weight(phase, b) > 0
  {
    assert Weight(phase, HighMeanLowStd) > 0;
    b :| Weight(phase, b) > 0;
  }

  /** `rng.choice` among the non-empty buckets. */
  method DrawAvailable(queues: Buckets) returns (b: Bucket)
    requires queues.Total() > 0
    ensures queues.Get(b) != []
  {
    assert queues.Get(HighMeanLowStd) != [] || queues.Get(LowMeanLowStd) != [] || queues.Get(HighMeanHighStd) != [] ||
           queues.Get(LowMeanHighStd) != [];
    b :| queues.Get(b) != [];
  }

  // ----- draining in bucket order -----

  /** The queues from bucket number `k` on, one after the other. */
  function DrainFrom(q: Buckets, k: nat): seq<Row>
    requires k <= 4
    decreases 4 - k
  {
    if k == 4 then [] else q.Get(BUCKET_ORDER[k]) + DrainFrom(q, k + 1)
  }

  /** Rows in the order of the buckets. */
  predicate Staged(rows: seq<Row>) {
    forall i, j :: 0 <= i < j < |rows| ==> Place(rows[i].bucket) <= Place(rows[j].bucket)
  }

  lemma DrainStep(q: Buckets, k: nat)
    requires k < 4
    ensures DrainFrom(q, k) == q.Get(BUCKET_ORDER[k]) + DrainFrom(q, k + 1)
    ensures forall b :: Place(b) == k <==> b == BUCKET_ORDER[k]
  {
  }

  lemma DrainNone(q: Buckets, b: Bucket)
    ensures OfBucket(DrainFrom(q, 4), b) == [] && Place(b) < 4
  {
  }

  lemma {:induction false} DrainBucket(q: Buckets, k: nat, b: Bucket)
    requires q.Valid() && k <= 4
    ensures OfBucket(DrainFrom(q, k), b) == if Place(b) >= k then q.Get(b) else []
    decreases 4 - k
  {
    hide OfBucket, DrainFrom, Place;
    if k < 4 {
      DrainBucket(q, k + 1, b);
      DrainStep(q, k);
      OneBucketFirst(q.Get(BUCKET_ORDER[k]), BUCKET_ORDER[k], DrainFrom(q, k + 1), b);
      assert q.Get(b) + [] == q.Get(b) && [] + q.Get(b) == q.Get(b);
    } else {
      DrainNone(q, b);
    }
  }

  lemma OneBucketFirst(first: seq<Row>, c: Bucket, rest: seq<Row>, b: Bucket)
    requires forall r :: r in first ==> r.bucket == c
    ensures OfBucket(first + rest, b) == (if b == c then first else []) + OfBucket(rest, b)
  {
    hide OfBucket;
    OfBucketAppend(first, rest, b);
    OfBucketAll(first, c, b);
  }

  lemma DrainFromIs(q: Buckets)
    requires q.Valid()
    ensures forall b :: OfBucket(DrainFrom(q, 0), b) == q.Get(b)
  {
    forall b {
      DrainBucket(q, 0, b);
    }
  }

  lemma {:induction false} DrainIsStaged(q: Buckets, k: nat)
    requires q.Valid() && k <= 4
    ensures Staged(DrainFrom(q, k)) && forall r :: r in DrainFrom(q, k) ==> Place(r.bucket) >= k
    decreases 4 - k
  {
    if k < 4 {
      DrainIsStaged(q, k + 1);
      var c := BUCKET_ORDER[k];
      assert forall r :: r in q.Get(c) ==> Place(r.bucket) == k;
    }
  }

  method Drain(before: seq<Row>, q: Buckets) returns (ordered: seq<Row>)
    requires q.Valid()
    ensures ordered == before + DrainFrom(q, 0)
  {
    ordered := before;
    for k := 0 to 4
      invariant ordered + DrainFrom(q, k) == before + DrainFrom(q, 0)
    {
      assert ordered + (q.Get(BUCKET_ORDER[k]) + DrainFrom(q, k + 1)) ==
             ordered + q.Get(BUCKET_ORDER[k]) + DrainFrom(q, k + 1);
      ordered := ordered + q.Get(BUCKET_ORDER[k]);
    }
    assert ordered + [] == ordered;
  }

  lemma DrainCompletes(buckets: Buckets, before: seq<Row>, q: Buckets)
    requires buckets.Valid() && Drawn(buckets, before, q)
    ensures q.Valid()
    ensures forall b :: OfBucket(before + DrainFrom(q, 0), b) == buckets.Get(b)
    ensures |before + DrainFrom(q, 0)| == buckets.Total()
  {
    forall b, r | r in q.Get(b)
      ensures r.bucket == b
    {
      assert OfBucket(before, b) + q.Get(b) == buckets.Get(b);
      assert r in buckets.Get(b);
    }
    DrainFromIs(q);
    forall b
      ensures OfBucket(before + DrainFrom(q, 0), b) == buckets.Get(b)
    {
      hide OfBucket;
      OfBucketAppend(before, DrainFrom(q, 0), b);
      assert OfBucket(before, b) + q.Get(b) == buckets.Get(b);
    }
  }

  // ----- curriculum_mix_order -----

  /** Phase `i` runs from one end mark to the next: it fills its target, fairly. */
  ghost predicate PhaseOk(i: nat, buckets: Buckets, ordered: seq<Row>, ends: seq<nat>) {
    && i + 1 < |ends| && ends[i] <= ends[i + 1] <= |ordered| && ends[i] <= buckets.Total()
    && ends[i + 1] - ends[i] == PhaseTarget(buckets.Total(), ends[i])
    && PhaseFair(i, buckets, ordered, ends[i], ends[i + 1])
  }

  lemma PhaseStaysOk(i: nat, buckets: Buckets, before: seq<Row>, ordered: seq<Row>, ends: seq<nat>, ends': seq<nat>)
    requires PhaseOk(i, buckets, before, ends) && before <= ordered && ends <= ends'
    ensures PhaseOk(i, buckets, ordered, ends')
  {
    forall k | ends[i] <= k < ends[i + 1] && Weight(i, ordered[k].bucket) == 0
      ensures exists b :: Weight(i, b) > 0 && OfBucket(ordered[..k], b) == buckets.Get(b)
    {
      hide OfBucket;
      assert ordered[..k] == before[..k];
    }
  }

  /** The mix of three phases and a drain. For every random generator: each phase emits exactly its target, buckets are
      emptied first in first out, a phase turns to a bucket of weight zero only when a weighted one has run dry; the
      final drain takes what is left, in bucket order. */
  method CurriculumMixOrder(buckets: Buckets) returns (ordered: seq<Row>, ghost ends: seq<nat>)
    requires buckets.Valid()
    ensures forall b :: OfBucket(ordered, b) == buckets.Get(b)
    ensures |ordered| == buckets.Total()
    ensures |ends| == 4 && ends[0] == 0 && ends[3] <= |ordered|
    ensures PhaseOk(0, buckets, ordered, ends) && PhaseOk(1, buckets, ordered, ends) &&
            PhaseOk(2, buckets, ordered, ends)
    ensures Staged(ordered[ends[3]..])
  {
    var queues := buckets;
    ordered, ends := [], [0];
    for phase := 0 to 3
      invariant Drawn(buckets, ordered, queues)
      invariant |ends| == phase + 1 && ends[0] == 0 && ends[phase] == |ordered|
      invariant forall i: nat :: i < phase ==> PhaseOk(i, buckets, ordered, ends)
    {
      ghost var before, marks := ordered, ends;
      var target := PhaseTarget(buckets.Total(), |ordered|);
      ordered, queues := MixPhase(phase, buckets, ordered, queues, target);
      ends := ends + [|ordered|];
      forall i: nat | i < phase
        ensures PhaseOk(i, buckets, ordered, ends)
      {
        PhaseStaysOk(i, buckets, before, ordered, marks, ends);
      }
    }
    ghost var before := ordered;
    DrainCompletes(buckets, ordered, queues);
    ordered := Drain(ordered, queues);
    DrainIsStaged(queues, 0);
    forall i: nat | i < 3
      ensures PhaseOk(i, buckets, ordered, ends)
    {
      PhaseStaysOk(i, buckets, before, ordered, ends, ends);
    }
  }

  /** The three targets cover the total but for its remainder; fewer than three rows are covered completely. */
  lemma PhaseTargets(total: nat)
    ensures var e1 := PhaseTarget(total, 0);
            e1 <= total &&
            var e2 := e1 + PhaseTarget(total, e1);
            e2 <= total &&
            var e3 := e2 + PhaseTarget(total, e2);
            if total >= 3 then e1 == total / 3 && e2 == 2 * e1 && e3 == 3 * e1 && total - e3 == total % 3
            else e3 == total
  {
  }

  /** Where the first phase ends, a third of the rows, and where the last one does, but for a remainder. */
  function FirstEnd(total: nat): nat {
    if total >= 3 then total / 3 else if total > 0 then 1 else 0
  }

  function LastEnd(total: nat): nat {
    if total >= 3 then total - total % 3 else total
  }

  /** What a mixed list looks like, whatever was drawn: no row of low mean and high deviation in its first third, unless
      one of the other buckets has run out before; and behind the phases the remainder in bucket order. */
  ghost predicate Curriculum(ordered: seq<Row>) {
    && (forall k :: 0 <= k < FirstEnd(|ordered|) && ordered[k].bucket == LowMeanHighStd ==>
                      exists b :: b != LowMeanHighStd && OfBucket(ordered[..k], b) == OfBucket(ordered, b))
    && LastEnd(|ordered|) <= |ordered| && Staged(ordered[LastEnd(|ordered|)..])
  }

  lemma MixIsCurriculum(buckets: Buckets, ordered: seq<Row>, ends: seq<nat>)
    requires |ends| == 4 && ends[0] == 0 && ends[3] <= |ordered| && |ordered| == buckets.Total()
    requires forall b :: OfBucket(ordered, b) == buckets.Get(b)
    requires PhaseOk(0, buckets, ordered, ends) && PhaseOk(1, buckets, ordered, ends) &&
             PhaseOk(2, buckets, ordered, ends)
    requires Staged(ordered[ends[3]..])
    ensures Curriculum(ordered)
  {
    PhaseTargets(|ordered|);
    hide OfBucket, Staged;
    assert ends[1] == FirstEnd(|ordered|) && ends[3] == LastEnd(|ordered|);
    forall k | 0 <= k < ends[1] && ordered[k].bucket == LowMeanHighStd
      ensures exists b :: b != LowMeanHighStd && OfBucket(ordered[..k], b) == OfBucket(ordered, b)
    {
      var b :| Weight(0, b) > 0 && OfBucket(ordered[..k], b) == buckets.Get(b);
      PhaseWeights(0, b);
    }
  }

  // ----- order_domain_rows -----

  /** The rows put into their buckets, in order. */
  method FillBuckets(rows: seq<Row>) returns (buckets: Buckets)
    ensures forall b :: buckets.Get(b) == OfBucket(rows, b)
  {
    buckets := Buckets([], [], [], []);
    for i := 0 to |rows|
      invariant forall b :: buckets.Get(b) == OfBucket(rows[..i], b)
    {
      var row := rows[i];
      assert rows[..i + 1] == rows[..i] + [row];
      forall b
        ensures OfBucket(rows[..i + 1], b) == OfBucket(rows[..i], b) + if b == row.bucket then [row] else []
      {
        OfBucketAppend(rows[..i], [row], b);
        OfBucketAll([row], row.bucket, b);
      }
      GetSet(buckets, row.bucket, buckets.Get(row.bucket) + [row]);
      buckets := buckets.Set(row.bucket, buckets.Get(row.bucket) + [row]);
    }
    assert rows[..|rows|] == rows;
  }

  method ShuffleBuckets(filled: Buckets) returns (buckets: Buckets)
    ensures forall b :: multiset(buckets.Get(b)) == multiset(filled.Get(b))
  {
    buckets := filled;
    for k := 0 to 4
      invariant forall b :: multiset(buckets.Get(b)) == multiset(filled.Get(b))
    {
      var shuffled := Shuffle(buckets.Get(BUCKET_ORDER[k]));
      GetSet(buckets, BUCKET_ORDER[k], shuffled);
      buckets := buckets.Set(BUCKET_ORDER[k], shuffled);
    }
  }

  lemma ShuffledBucketsValid(rows: seq<Row>, buckets: Buckets)
    requires forall b :: multiset(buckets.Get(b)) == multiset(OfBucket(rows, b))
    ensures buckets.Valid()
  {
    forall b, r | r in buckets.Get(b)
      ensures r.bucket == b
    {
      assert r in multiset(buckets.Get(b)) && r in multiset(OfBucket(rows, b));
      OfBucketMembers(rows, b);
    }
  }

  method FourStageOrder(buckets: Buckets) returns (ordered: seq<Row>)
    requires buckets.Valid()
    ensures forall b :: OfBucket(ordered, b) == buckets.Get(b)
    ensures Staged(ordered)
  {
    ordered := Drain([], buckets);
    assert ordered == DrainFrom(buckets, 0);
    DrainFromIs(buckets);
    DrainIsStaged(buckets, 0);
  }

  /** `order_domain_rows`: a permutation for every schedule; stage by stage for the four-stage schedule, in phases for
      the curriculum. */
  method OrderDomainRows(rows: seq<Row>, schedule: Schedule) returns (ordered: seq<Row>)
    ensures multiset(ordered) == multiset(rows)
    ensures schedule.FourStage? ==> Staged(ordered)
    ensures schedule.CurriculumMix? ==> Curriculum(ordered)
  {
    var filled := FillBuckets(rows);
    var buckets := ShuffleBuckets(filled);
    ShuffledBucketsValid(rows, buckets);
    match schedule
    case RandomOrder => ordered := Shuffle(rows);
    case FourStage =>
      ordered := FourStageOrder(buckets);
      SameBucketsPermute(ordered, rows);
    case CurriculumMix =>
      ghost var ends;
      ordered, ends := CurriculumMixOrder(buckets);
      MixIsCurriculum(buckets, ordered, ends);
      SameBucketsPermute(ordered, rows);
  }
}
