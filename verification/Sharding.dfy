/** Distributing batches: every rank samples its own stride of a common order, or rank 0 reads and scatters. */
module Sharding {
  import opened Wrappers
  import opened Sequences
  import opened Quotients

  // ----- ranks under tensor parallelism -----

  /** Every process gets a rank below the world size exactly when the tensor-parallel size divides the processes. */
  lemma RanksFit(processes: nat, tp: nat)
    requires 0 < tp <= processes
    ensures (forall g: nat :: g < processes ==> g / tp < processes / tp) <==> processes % tp == 0
  {
    var world := processes / tp;
    QuotientIs(processes, tp, world);
    if processes % tp == 0 {
      forall g: nat | g < processes
        ensures g / tp < world
      {
        if g / tp >= world {
          MulMonotone(world, g / tp, tp);
        }
      }
    } else {
      QuotientIs(processes - 1, tp, world);
      var last: nat := processes - 1;
      assert last < processes && !(last / tp < world);
    }
  }

  // ----- strides -----

  /** Every `world`-th position of the order, from the rank on. */
  function Strided<T>(order: seq<T>, rank: nat, world: nat): seq<T>
    requires world > 0
    decreases |order| - rank
  {
    if rank >= |order| then [] else [order[rank]] + Strided(order, rank + world, world)
  }

  /** Position `k` of a stride. */
  function Position(start: nat, k: nat, world: nat): nat {
    start + k * world
  }

  lemma PositionShift(start: nat, k: nat, world: nat)
    ensures Position(start + world, k, world) == Position(start, k + 1, world)
    ensures Position(start, 0, world) == start
  {
    Distribute(k, 1, world);
  }

  /** Every `world`-th element from `start` on, `count` of them. */
  ghost predicate Stride<T(!new)>(stream: seq<T>, order: seq<T>, start: nat, world: nat, count: nat) {
    && |stream| == count
    && forall k: nat :: k < count ==>
                            var p := Position(start, k, world); p < |order| && stream[k] == order[p]
  }

  lemma {:induction false} StridedAt<T(!new)>(order: seq<T>, rank: nat, world: nat, count: nat)
    requires world > 0 && Position(rank, count, world) >= |order|
    requires count > 0 ==> Position(rank, count - 1, world) < |order|
    ensures Stride(Strided(order, rank, world), order, rank, world, count)
    decreases count
  {
    hide Position;
    PositionShift(rank, 0, world);
    if count > 0 {
      PositionShift(rank, count - 1, world);
      if count > 1 {
        PositionShift(rank, count - 2, world);
      }
      StridedAt(order, rank + world, world, count - 1);
      forall k: nat | k < count
        ensures var p := Position(rank, k, world); p < |order| && Strided(order, rank, world)[k] == order[p]
      {
        if k > 0 {
          PositionShift(rank, k - 1, world);
        }
      }
    }
  }

  /** The ranks' streams of a common order have equal length. */
  lemma StreamsEqual<T(!new)>(order: seq<T>, rank: nat, world: nat, share: nat)
    requires rank < world && |order| == share * world
    ensures Stride(Strided(order, rank, world), order, rank, world, share)
  {
    if share > 0 {
      Distribute(share - 1, 1, world);
    }
    StridedAt(order, rank, world, share);
  }

  /** How long the streams are in general: the first ranks get one element more when the order does not divide. */
  lemma StreamSize<T(!new)>(order: seq<T>, rank: nat, world: nat)
    requires rank < world
    ensures var size := |order| / world + if rank < |order| % world then 1 else 0;
            Stride(Strided(order, rank, world), order, rank, world, size)
  {
    SizeFits(|order|, rank, world);
    hide Position;
    StridedAt(order, rank, world, |order| / world + if rank < |order| % world then 1 else 0);
  }

  lemma SizeFits(n: nat, rank: nat, world: nat)
    requires rank < world
    ensures var size := n / world + if rank < n % world then 1 else 0;
            && Position(rank, size, world) >= n
            && (size > 0 ==> Position(rank, size - 1, world) < n)
  {
    var share := n / world;
    assert n == share * world + n % world;
    Distribute(share, 1, world);
    Distribute(share - 1, 1, world);
  }

  ghost predicate IsPermutation(order: seq<int>, n: nat) {
    && |order| == n
    && (forall i :: 0 <= i < n ==> 0 <= order[i] < n)
    && (forall i, j :: 0 <= i < j < n ==> order[i] != order[j])
  }

  /** Sampling without length grouping partitions the data: the streams have equal length, no index occurs twice, within
      a stream or across two, and every position of the common order is in the stream it is due to. */
  lemma ShardsPartition(order: seq<int>, total: nat, world: nat, r1: nat, k1: nat, r2: nat, k2: nat)
    requires world > 0 && IsPermutation(order, total / world * world)
    requires r1 < world && r2 < world && k1 < total / world && k2 < total / world
    ensures |Strided(order, r1, world)| == total / world == |Strided(order, r2, world)|
    ensures Strided(order, r1, world)[k1] == Strided(order, r2, world)[k2] ==> r1 == r2 && k1 == k2
  {
    hide Strided, Position;
    var share := total / world;
    StreamsEqual(order, r1, world, share);
    StreamsEqual(order, r2, world, share);
    PositionsDiffer(r1, k1, r2, k2, world);
    var p1, p2 := Position(r1, k1, world), Position(r2, k2, world);
    assert Strided(order, r1, world)[k1] == order[p1];
    assert Strided(order, r2, world)[k2] == order[p2];
  }

  lemma PositionsDiffer(r1: nat, k1: nat, r2: nat, k2: nat, world: nat)
    requires r1 < world && r2 < world
    ensures Position(r1, k1, world) == Position(r2, k2, world) ==> r1 == r2 && k1 == k2
  {
    QuotientIs(Position(r1, k1, world), world, k1);
    QuotientIs(Position(r2, k2, world), world, k2);
  }

  lemma ShardsCover(order: seq<int>, total: nat, world: nat, position: nat)
    requires world > 0 && |order| == total / world * world && position < |order|
    ensures var stream := Strided(order, position % world, world);
            position / world < |stream| == total / world && stream[position / world] == order[position]
  {
    hide Strided;
    var share, rank, k := total / world, position % world, position / world;
    if k >= share {
      MulMonotone(share, k, world);
    }
    StreamsEqual(order, rank, world, share);
    assert position == Position(rank, k, world);
  }

  /** Sampling grouped by length, where the order has every index and need not divide: still no index occurs twice, and
      every index is in exactly the stream it is due to. */
  lemma GroupedPartition(order: seq<int>, n: nat, world: nat, r1: nat, k1: nat, r2: nat, k2: nat)
    requires world > 0 && IsPermutation(order, n) && r1 < world && r2 < world
    requires k1 < |Strided(order, r1, world)| && k2 < |Strided(order, r2, world)|
    ensures Strided(order, r1, world)[k1] == Strided(order, r2, world)[k2] ==> r1 == r2 && k1 == k2
  {
    hide Strided, Position;
    StreamSize(order, r1, world);
    StreamSize(order, r2, world);
    PositionsDiffer(r1, k1, r2, k2, world);
    var p1, p2 := Position(r1, k1, world), Position(r2, k2, world);
    assert Strided(order, r1, world)[k1] == order[p1];
    assert Strided(order, r2, world)[k2] == order[p2];
  }

  lemma GroupedCover(order: seq<int>, world: nat, rank: nat, k: nat)
    requires rank < world && Position(rank, k, world) < |order|
    ensures k < |Strided(order, rank, world)| && Strided(order, rank, world)[k] == order[Position(rank, k, world)]
  {
    hide Strided;
    StreamSize(order, rank, world);
    SizeReaches(|order|, rank, world, k);
  }

  lemma SizeReaches(n: nat, rank: nat, world: nat, k: nat)
    requires rank < world && Position(rank, k, world) < n
    ensures k < n / world + if rank < n % world then 1 else 0
  {
    var share := n / world;
    assert n == share * world + n % world;
    if k > share {
      Distribute(share, 1, world);
      MulMonotone(share + 1, k, world);
    }
  }

  /** A seeded permutation of the indices below a bound, whatever the seed. */
  ghost predicate Permutes(randperm: (int, nat) -> seq<int>) {
    forall seed: int, n: nat :: IsPermutation(randperm(seed, n), n)
  }

  lemma Drawn(randperm: (int, nat) -> seq<int>, seed: int, n: nat)
    requires Permutes(randperm)
    ensures IsPermutation(randperm(seed, n), n)
  {
  }

  /** Grouping by length, a seeded permutation of the indices of all lengths, mixed in portions of a given size. */
  ghost predicate Groups(grouped: (int, seq<int>, nat) -> seq<int>) {
    forall seed: int, lengths: seq<int>, portion: nat :: IsPermutation(grouped(seed, lengths, portion), |lengths|)
  }

  lemma Grouped(grouped: (int, seq<int>, nat) -> seq<int>, seed: int, lengths: seq<int>, portion: nat)
    requires Groups(grouped)
    ensures IsPermutation(grouped(seed, lengths, portion), |lengths|)
  {
  }

  // ----- batches -----

  /** `__len__` */
  function BatchCount(samples: nat, batchSize: nat, dropLast: bool): nat
    requires batchSize > 0
  {
    if dropLast then samples / batchSize else (samples + batchSize - 1) / batchSize
  }

  /** What a run of the sampler yields. */
  ghost predicate BatchesOf<T(!new)>(stream: seq<T>, batchSize: nat, dropLast: bool, batches: seq<seq<T>>)
    requires batchSize > 0
  {
    && |batches| == BatchCount(|stream|, batchSize, dropLast)
    && (forall i :: 0 <= i < |batches| ==> 0 < |batches[i]| <= batchSize)
    && (forall i :: 0 <= i < |batches| - 1 ==> |batches[i]| == batchSize)
    && (dropLast ==> forall i :: 0 <= i < |batches| ==> |batches[i]| == batchSize)
    && Flatten(batches) <= stream
    && (!dropLast ==> Flatten(batches) == stream)
    && |stream| - |Flatten(batches)| < batchSize
  }

  lemma CountOf(samples: nat, batchSize: nat, full: nat, rest: nat)
    requires rest < batchSize && samples == full * batchSize + rest
    ensures BatchCount(samples, batchSize, true) == full
    ensures BatchCount(samples, batchSize, false) == if rest > 0 then full + 1 else full
  {
    QuotientIs(samples, batchSize, full);
    Distribute(full, 1, batchSize);
    QuotientIs(samples + batchSize - 1, batchSize, if rest > 0 then full + 1 else full);
  }

  /** Whether one more sample makes one more batch. */
  predicate FillsBatch(samples: nat, batchSize: nat, dropLast: bool)
    requires batchSize > 0
  {
    if dropLast then (samples + 1) % batchSize == 0 else samples % batchSize == 0
  }

  lemma OneMore(samples: nat, batchSize: nat, dropLast: bool)
    requires batchSize > 0
    ensures BatchCount(samples + 1, batchSize, dropLast) ==
            BatchCount(samples, batchSize, dropLast) + if FillsBatch(samples, batchSize, dropLast) then 1 else 0
  {
    var full, rest := samples / batchSize, samples % batchSize;
    CountOf(samples, batchSize, full, rest);
    if rest + 1 < batchSize {
      CountOf(samples + 1, batchSize, full, rest + 1);
      QuotientIs(samples + 1, batchSize, full);
    } else {
      Distribute(full, 1, batchSize);
      CountOf(samples + 1, batchSize, full + 1, 0);
      QuotientIs(samples + 1, batchSize, full + 1);
    }
  }

  /** The iterator of the sampler. */
  class BatchSamplerShard {
    const worldSize: nat
    const totalSamples: nat
    const batchSize: nat
    const shuffle: bool
    const dropLast: bool
    const groupByLength: bool
    const lengths: seq<int>
    const baseSeed: int
    var currSeed: int

    ghost predicate Valid() {
      && worldSize > 0 && batchSize > 0
      && (groupByLength ==> shuffle && totalSamples == |lengths| / worldSize)
    }

    constructor (totalSamples: nat, worldSize: nat, batchSize: nat, shuffle: bool, dropLast: bool,
                 dataSeed: Option<int>, groupByLength: bool, lengths: seq<int>)
      requires worldSize > 0 && batchSize > 0
      requires groupByLength ==> shuffle && |lengths| == totalSamples
      ensures Valid()
      ensures this.worldSize == worldSize && this.batchSize == batchSize
      ensures this.shuffle == shuffle && this.dropLast == dropLast
      ensures this.groupByLength == groupByLength && this.lengths == lengths
      ensures this.totalSamples == totalSamples / worldSize
      ensures currSeed == baseSeed == if dataSeed.Some? then dataSeed.value else 0
    {
      this.worldSize := worldSize;
      this.totalSamples := totalSamples / worldSize;
      this.batchSize := batchSize;
      this.shuffle := shuffle;
      this.dropLast := dropLast;
      var seed := if dataSeed.Some? then dataSeed.value else 0;
      this.baseSeed := seed;
      this.currSeed := seed;
      this.groupByLength := groupByLength;
      this.lengths := lengths;
    }

    /** The sampler, or the `ValueError` for grouping by length without shuffling. */
    static method Create(totalSamples: nat, worldSize: nat, batchSize: nat, shuffle: bool, dropLast: bool,
                         dataSeed: Option<int>, groupByLength: bool, lengths: seq<int>)
      returns (sampler: Option<BatchSamplerShard>)
      requires worldSize > 0 && batchSize > 0
      requires groupByLength ==> |lengths| == totalSamples
      ensures sampler.None? <==> groupByLength && !shuffle
      ensures sampler.Some? ==>
                && sampler.value.Valid() && fresh(sampler.value)
                && sampler.value.totalSamples == totalSamples / worldSize
    {
      if groupByLength && !shuffle {
        return None;
      }
      var made := new BatchSamplerShard(totalSamples, worldSize, batchSize, shuffle, dropLast, dataSeed,
                                        groupByLength, lengths);
      sampler := Some(made);
    }

    method SetEpoch(epoch: int)
      modifies this
      ensures currSeed == baseSeed + epoch
    {
      currSeed := baseSeed + epoch;
    }

    /** The common order: all indices grouped by length, or a permutation drawn from the current seed, or the
        identity. */
    function Order(randperm: (int, nat) -> seq<int>, grouped: (int, seq<int>, nat) -> seq<int>): (order: seq<int>)
      requires Valid() && Permutes(randperm) && Groups(grouped)
      reads this
      ensures IsPermutation(order, if groupByLength then |lengths| else totalSamples * worldSize)
    {
      if groupByLength then
        Grouped(grouped, currSeed, lengths, batchSize * worldSize);
        grouped(currSeed, lengths, batchSize * worldSize)
      else if shuffle then
        Drawn(randperm, currSeed, totalSamples * worldSize);
        randperm(currSeed, totalSamples * worldSize)
      else
        seq(totalSamples * worldSize, i => i)
    }

    /** One pass: the batches cover the rank's stream in order. There are as many as `__len__` says, but for grouping by
        length, when a rank may have one sample more than its share, and then one batch more if that sample fills it. */
    method Iter(rank: nat, randperm: (int, nat) -> seq<int>, grouped: (int, seq<int>, nat) -> seq<int>)
      returns (batches: seq<seq<int>>)
      requires Valid() && rank < worldSize
      requires Permutes(randperm) && Groups(grouped)
      ensures BatchesOf(Strided(Order(randperm, grouped), rank, worldSize), batchSize, dropLast, batches)
      ensures |batches| == BatchCount(totalSamples, batchSize, dropLast) +
                           if groupByLength && rank < |lengths| % worldSize &&
                              FillsBatch(totalSamples, batchSize, dropLast) then 1 else 0
      ensures !shuffle ==> forall k: nat :: k < |Flatten(batches)| ==> Flatten(batches)[k] == rank + k * worldSize
      ensures shuffle && !groupByLength ==>
                BatchesOf(Strided(randperm(currSeed, totalSamples * worldSize), rank, worldSize), batchSize, dropLast,
                          batches)
      ensures groupByLength ==>
                BatchesOf(Strided(grouped(currSeed, lengths, batchSize * worldSize), rank, worldSize), batchSize,
                          dropLast, batches)
    {
      hide Strided, BatchCount, FillsBatch;
      var totalIdx := Strided(Order(randperm, grouped), rank, worldSize);
      if groupByLength {
        StreamSize(Order(randperm, grouped), rank, worldSize);
        OneMore(totalSamples, batchSize, dropLast);
      } else {
        StreamsEqual(Order(randperm, grouped), rank, worldSize, totalSamples);
      }
      batches := CollectBatches(totalIdx, batchSize, dropLast);
      if !shuffle {
        InNaturalOrder(Order(randperm, grouped), totalIdx, Flatten(batches), rank, worldSize, totalSamples);
      }
    }
  }

  /** Without shuffling a rank goes through its places in natural order. */
  lemma InNaturalOrder(order: seq<int>, stream: seq<int>, taken: seq<int>, rank: nat, world: nat, share: nat)
    requires Stride(stream, order, rank, world, share) && taken <= stream
    requires forall i :: 0 <= i < |order| ==> order[i] == i
    ensures forall k: nat :: k < |taken| ==> taken[k] == rank + k * world
  {
    forall k: nat | k < |taken|
      ensures taken[k] == rank + k * world
    {
      assert stream[k] == order[Position(rank, k, world)];
    }
  }

  lemma FlattenNone<T>()
    ensures Flatten<T>([]) == []
  {
  }

  method CollectBatches<T(!new)>(totalIdx: seq<T>, batchSize: nat, dropLast: bool) returns (batches: seq<seq<T>>)
    requires batchSize > 0
    ensures BatchesOf(totalIdx, batchSize, dropLast, batches)
  {
    hide Flatten, BatchCount;
    batches := [];
    var batch := [];
    FlattenNone<T>();
    for i := 0 to |totalIdx|
      invariant |batch| < batchSize && i == |batches| * batchSize + |batch|
      invariant forall j :: 0 <= j < |batches| ==> |batches[j]| == batchSize
      invariant Flatten(batches) + batch == totalIdx[..i]
    {
      batch := batch + [totalIdx[i]];
      assert totalIdx[..i + 1] == totalIdx[..i] + [totalIdx[i]];
      if |batch| == batchSize {
        FlattenSnoc(batches, batch);
        Distribute(|batches|, 1, batchSize);
        batches := batches + [batch];
        batch := [];
      }
    }
    assert totalIdx[..|totalIdx|] == totalIdx;
    CountOf(|totalIdx|, batchSize, |batches|, |batch|);
    if !dropLast && |batch| > 0 {
      FlattenSnoc(batches, batch);
      batches := batches + [batch];
    }
  }

  // ----- the dispatcher -----

  /** Rank 0 reads `world` batches a round and scatters them. `None` when the batches to skip are not there: the
      iterator of rank 0 then fails. Otherwise all ranks stop in the same round, with fewer than `world` left. */
  method Dispatch<T(!new)>(base: seq<T>, world: nat, skipBatches: int) returns (ranks: Option<seq<seq<T>>>)
    requires world > 0
    ensures ranks.None? <==> skipBatches * world > |base|
    ensures ranks.Some? ==>
              var skipped := if skipBatches > 0 then skipBatches * world else 0;
              var rounds := (|base| - skipped) / world;
              && 0 <= skipped <= |base| && |ranks.value| == world
              && forall r: nat :: r < world ==> Stride(ranks.value[r], base, skipped + r, world, rounds)
  {
    var cursor := 0;
    if skipBatches > 0 {
      for i := 0 to skipBatches
        invariant cursor == i * world <= |base|
      {
        Distribute(i, 1, world);
        if cursor + world > |base| {
          MulMonotone(i + 1, skipBatches, world);
          return None;
        }
        cursor := cursor + world;
      }
    } else {
      MulMonotone(skipBatches, 0, world);
    }
    var out := Rounds(base, world, cursor);
    ranks := Some(out);
  }

  /** The rounds of the main loop, from a position of the base iterator on. */
  method Rounds<T(!new)>(base: seq<T>, world: nat, start: nat) returns (out: seq<seq<T>>)
    requires 0 < world && start <= |base|
    ensures |out| == world
    ensures forall r: nat :: r < world ==> Stride(out[r], base, start + r, world, (|base| - start) / world)
  {
    var cursor := start;
    ghost var round := 0;
    out := seq(world, _ => []);
    while cursor + world <= |base|
      invariant start <= cursor <= |base| && cursor == start + round * world
      invariant |out| == world
      invariant forall r: nat :: r < world ==> Stride(out[r], base, start + r, world, round)
    {
      var data := base[cursor..cursor + world];
      ghost var before := out;
      out := seq(world, r requires 0 <= r < world => out[r] + [data[r]]);
      forall r: nat | r < world
        ensures Stride(out[r], base, start + r, world, round + 1)
      {
        ServeOne(before[r], base, start + r, world, round);
      }
      Distribute(round, 1, world);
      cursor := cursor + world;
      round := round + 1;
    }
    QuotientIs(|base| - start, world, round);
  }

  lemma ServeOne<T(!new)>(given: seq<T>, base: seq<T>, start: nat, world: nat, round: nat)
    requires Stride(given, base, start, world, round) && Position(start, round, world) < |base|
    ensures Stride(given + [base[Position(start, round, world)]], base, start, world, round + 1)
  {
  }
}
