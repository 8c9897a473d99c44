/** The dataset builder: `add_items` feeds a bounded queue that a writer thread drains. */
module IndexedDatasetBuilder {
  import opened Wrappers
  import opened Sequences
  import opened IndexedDataset

  /** The queue between producer and writer; None tells the writer to stop. */
  datatype Pipeline = Pipeline(queue: seq<Option<seq<Pickled>>>, shards: Shards, closed: bool, stopped: bool)

  const START: Pipeline := Pipeline([], NO_ITEMS, false, false)

  const QUEUE_SIZE := 1000

  /** `add_items`, the stop signal of `finalize`, and one iteration of the writer's loop. */
  datatype Step = Put(batch: seq<Pickled>) | Close | Work

  predicate Enabled(p: Pipeline, step: Step) {
    match step
    case Put(_) => !p.closed && |p.queue| < QUEUE_SIZE
    case Close => !p.closed && |p.queue| < QUEUE_SIZE
    case Work => !p.stopped && p.queue != []
  }

  function Do(chunkSize: nat, p: Pipeline, step: Step): Pipeline
    requires Enabled(p, step) && Usable(p.shards)
  {
    match step
    case Put(batch) => p.(queue := p.queue + [Some(batch)])
    case Close => p.(queue := p.queue + [None], closed := true)
    case Work =>
      match p.queue[0]
      case None => p.(queue := p.queue[1..], stopped := true)
      case Some(batch) => p.(queue := p.queue[1..], shards := WriteBatch(chunkSize, p.shards, batch))
  }

  /** Some interleaving of producer and writer takes `steps`, in this order. */
  predicate Possible(chunkSize: nat, p: Pipeline, steps: seq<Step>)
    requires Usable(p.shards)
    decreases |steps|
  {
    steps == [] || (Enabled(p, steps[0]) && Possible(chunkSize, Do(chunkSize, p, steps[0]), steps[1..]))
  }

  function Run(chunkSize: nat, p: Pipeline, steps: seq<Step>): Pipeline
    requires Usable(p.shards) && Possible(chunkSize, p, steps)
    decreases |steps|
  {
    if steps == [] then p else Run(chunkSize, Do(chunkSize, p, steps[0]), steps[1..])
  }

  /** The queue never holds more than its thousand places, and the writer can go on whenever the producer cannot: the
      one waits only for a full queue, the other for an empty one. */
  lemma {:induction false} QueueIsBounded(chunkSize: nat, p: Pipeline, steps: seq<Step>)
    requires Usable(p.shards) && Possible(chunkSize, p, steps) && |p.queue| <= 1000
    ensures |Run(chunkSize, p, steps).queue| <= 1000
    ensures var end := Run(chunkSize, p, steps);
            && (!end.closed && !end.stopped ==> Enabled(end, Close) || Enabled(end, Work))
            && (!end.stopped && end.queue != [] ==> Enabled(end, Work))
            && (!end.closed && |end.queue| < 1000 ==> Enabled(end, Close) && forall b :: Enabled(end, Put(b)))
    decreases |steps|
  {
    hide WriteBatch;
    if steps != [] {
      QueueIsBounded(chunkSize, Do(chunkSize, p, steps[0]), steps[1..]);
    }
  }

  /** The batches the producer added, in its order. */
  function Added(steps: seq<Step>): seq<seq<Pickled>> {
    if steps == [] then [] else (if steps[0].Put? then [steps[0].batch] else []) + Added(steps[1..])
  }

  function Waiting(batches: seq<seq<Pickled>>): seq<Option<seq<Pickled>>> {
    if batches == [] then [] else [Some(batches[0])] + Waiting(batches[1..])
  }

  lemma {:induction false} WaitingSnoc(batches: seq<seq<Pickled>>, b: seq<Pickled>)
    ensures Waiting(batches + [b]) == Waiting(batches) + [Some(b)]
  {
    if batches != [] {
      assert (batches + [b])[1..] == batches[1..] + [b];
      WaitingSnoc(batches[1..], b);
    }
  }

  /** What is written and what is still queued make up what was added; the stop signal comes last. */
  ghost predicate PipelineOk(chunkSize: nat, p: Pipeline, written: seq<seq<Pickled>>, queued: seq<seq<Pickled>>) {
    && p.shards == WriteAll(chunkSize, written)
    && p.queue == Waiting(queued) + (if p.closed && !p.stopped then [None] else [])
    && (p.stopped ==> p.closed && queued == [])
  }

  lemma WorkKeeps(chunkSize: nat, p: Pipeline, written: seq<seq<Pickled>>, queued: seq<seq<Pickled>>)
    requires PipelineOk(chunkSize, p, written, queued) && Enabled(p, Work)
    ensures var p' := Do(chunkSize, p, Work);
            if queued == [] then PipelineOk(chunkSize, p', written, []) && p'.stopped
            else PipelineOk(chunkSize, p', written + [queued[0]], queued[1..])
  {
    if queued != [] {
      assert (written + [queued[0]])[..|written|] == written;
      assert p.queue[0] == Some(queued[0]);
      assert p.queue[1..] == Waiting(queued[1..]) + (if p.closed && !p.stopped then [None] else []);
    }
  }

  lemma PutKeeps(chunkSize: nat, p: Pipeline, written: seq<seq<Pickled>>, queued: seq<seq<Pickled>>,
                 batch: seq<Pickled>)
    requires PipelineOk(chunkSize, p, written, queued) && Enabled(p, Put(batch))
    ensures PipelineOk(chunkSize, Do(chunkSize, p, Put(batch)), written, queued + [batch])
  {
    hide WriteAll, Waiting;
    WaitingSnoc(queued, batch);
  }

  lemma CloseKeeps(chunkSize: nat, p: Pipeline, written: seq<seq<Pickled>>, queued: seq<seq<Pickled>>)
    requires PipelineOk(chunkSize, p, written, queued) && Enabled(p, Close)
    ensures PipelineOk(chunkSize, Do(chunkSize, p, Close), written, queued)
  {
    hide WriteAll, Waiting;
  }

  /** What one step adds. */
  function AddedBy(step: Step): seq<seq<Pickled>> {
    if step.Put? then [step.batch] else []
  }

  lemma StepWritesAdded(
      chunkSize: nat, p: Pipeline, step: Step, written: seq<seq<Pickled>>, queued: seq<seq<Pickled>>)
    returns (written': seq<seq<Pickled>>, queued': seq<seq<Pickled>>)
    requires PipelineOk(chunkSize, p, written, queued) && Enabled(p, step)
    ensures PipelineOk(chunkSize, Do(chunkSize, p, step), written', queued')
    ensures written' + queued' == written + queued + AddedBy(step)
  {
    hide PipelineOk, Do, Enabled;
    match step {
      case Put(batch) =>
        PutKeeps(chunkSize, p, written, queued, batch);
        written', queued' := written, queued + [batch];
        Regroup(written, queued, [batch]);
      case Close =>
        CloseKeeps(chunkSize, p, written, queued);
        written', queued' := written, queued;
      case Work =>
        WorkKeeps(chunkSize, p, written, queued);
        if queued == [] {
          written', queued' := written, [];
        } else {
          written', queued' := written + [queued[0]], queued[1..];
          assert queued == [queued[0]] + queued[1..];
          Regroup(written, [queued[0]], queued[1..]);
        }
    }
  }

  lemma RunStep(chunkSize: nat, p: Pipeline, steps: seq<Step>)
    requires steps != [] && Usable(p.shards) && Possible(chunkSize, p, steps)
    ensures Enabled(p, steps[0]) && Possible(chunkSize, Do(chunkSize, p, steps[0]), steps[1..])
    ensures Run(chunkSize, p, steps) == Run(chunkSize, Do(chunkSize, p, steps[0]), steps[1..])
    ensures Added(steps) == AddedBy(steps[0]) + Added(steps[1..])
  {
    hide Do;
  }

  lemma {:induction false} RunWritesAdded(
      chunkSize: nat, p: Pipeline, steps: seq<Step>, written: seq<seq<Pickled>>, queued: seq<seq<Pickled>>)
    returns (written': seq<seq<Pickled>>, queued': seq<seq<Pickled>>)
    requires Usable(p.shards) && PipelineOk(chunkSize, p, written, queued) && Possible(chunkSize, p, steps)
    ensures PipelineOk(chunkSize, Run(chunkSize, p, steps), written', queued')
    ensures written' + queued' == written + queued + Added(steps)
    decreases |steps|
  {
    if steps == [] {
      return written, queued;
    }
    hide PipelineOk, Enabled, Do, AddedBy, Added, Possible, Run;
    RunStep(chunkSize, p, steps);
    var written1, queued1 := StepWritesAdded(chunkSize, p, steps[0], written, queued);
    written', queued' := RunWritesAdded(chunkSize, Do(chunkSize, p, steps[0]), steps[1..], written1, queued1);
    Regroup(written + queued, AddedBy(steps[0]), Added(steps[1..]));
  }

  lemma Regroup<T>(a: seq<T>, b: seq<T>, c: seq<T>)
    ensures a + b + c == a + (b + c)
  {
  }

  /** However puts and writer iterations interleave, once the writer has stopped the disk holds what writing the
      producer's batches one after the other would give. */
  lemma InterleavingIsSequential(chunkSize: nat, steps: seq<Step>)
    requires Possible(chunkSize, START, steps) && Run(chunkSize, START, steps).stopped
    ensures Run(chunkSize, START, steps).shards == WriteAll(chunkSize, Added(steps))
  {
    assert PipelineOk(chunkSize, START, [], []);
    var written, queued := RunWritesAdded(chunkSize, START, steps, [], []);
    assert written + [] == written;
    assert [] + [] + Added(steps) == Added(steps);
  }

  // ----- items -----

  /** The pickle codec and the `length` entry of an item. */
  datatype Codec<!T> = Codec(dumps: T -> seq<Byte>, loads: seq<Byte> -> T, lengthOf: T -> int)

  /** What is relied on for an item: its pickle loads back, and is not empty. */
  ghost predicate Lawful<T>(codec: Codec<T>, x: T) {
    codec.loads(codec.dumps(x)) == x && codec.dumps(x) != []
  }

  function Dump<T>(codec: Codec<T>, items: seq<T>): (r: seq<Pickled>)
    ensures |r| == |items|
    ensures forall i :: 0 <= i < |items| ==> r[i] == Pickled(codec.dumps(items[i]), codec.lengthOf(items[i]))
  {
    if items == [] then []
    else [Pickled(codec.dumps(items[0]), codec.lengthOf(items[0]))] + Dump(codec, items[1..])
  }

  function DumpAll<T>(codec: Codec<T>, batches: seq<seq<T>>): seq<seq<Pickled>> {
    if batches == [] then [] else [Dump(codec, batches[0])] + DumpAll(codec, batches[1..])
  }

  lemma {:induction false} DumpFlatten<T>(codec: Codec<T>, batches: seq<seq<T>>)
    ensures Flatten(DumpAll(codec, batches)) == Dump(codec, Flatten(batches))
  {
    if batches != [] {
      DumpFlatten(codec, batches[1..]);
      assert DumpAll(codec, batches)[1..] == DumpAll(codec, batches[1..]);
    }
  }

  /** The decoded item at an index. */
  function GetItem<T>(codec: Codec<T>, s: Shards, index: int): Option<T> {
    var buffer :- Get(s, index);
    Some(codec.loads(buffer))
  }

  /** Round trip: for any batches of items, any positive chunk size and any interleaving, the finished dataset has as
      many items as were added, and index `i` reads the `i`-th of them; negative indices wrap around. */
  lemma AddedItemsReadBack<T>(codec: Codec<T>, chunkSize: nat, batches: seq<seq<T>>, steps: seq<Step>, index: int)
    requires chunkSize > 0 && forall x :: x in Flatten(batches) ==> Lawful(codec, x)
    requires Possible(chunkSize, START, steps) && Run(chunkSize, START, steps).stopped
    requires Added(steps) == DumpAll(codec, batches)
    ensures var s, items := Run(chunkSize, START, steps).shards, Flatten(batches);
            && Length(s) == |items|
            && GetItem(codec, s, index) ==
               match Resolve(|items|, index) case None => None case Some(i) => Some(items[i])
  {
    var items := Flatten(batches);
    var shards := Run(chunkSize, START, steps).shards;
    InterleavingIsSequential(chunkSize, steps);
    DumpFlatten(codec, batches);
    DumpedNotEmpty(codec, items);
    ReadBack(chunkSize, Added(steps), index);
    hide Run, Possible, WriteAll, Get, Flatten, DumpAll, Added, Dump, Lawful;
    match Resolve(|items|, index)
    case None =>
    case Some(i) => LoadsBack(codec, items, i);
  }

  lemma DumpedNotEmpty<T>(codec: Codec<T>, items: seq<T>)
    requires forall x :: x in items ==> Lawful(codec, x)
    ensures forall x :: x in Dump(codec, items) ==> x.bytes != []
  {
    forall x | x in Dump(codec, items)
      ensures x.bytes != []
    {
      var i :| 0 <= i < |items| && Dump(codec, items)[i] == x;
      assert Lawful(codec, items[i]);
    }
  }

  lemma LoadsBack<T>(codec: Codec<T>, items: seq<T>, i: nat)
    requires i < |items| && forall x :: x in items ==> Lawful(codec, x)
    ensures codec.loads(Dump(codec, items)[i].bytes) == items[i]
  {
    assert Lawful(codec, items[i]);
  }

  // ----- finalize -----

  /** What the writer makes of the batches that are still queued. */
  function Drain(chunkSize: nat, s: Shards, queue: seq<Option<seq<Pickled>>>): (r: Shards)
    requires Usable(s)
    ensures Usable(r)
    decreases |queue|
  {
    if queue == [] then s
    else Drain(chunkSize, if queue[0].Some? then WriteBatch(chunkSize, s, queue[0].value) else s, queue[1..])
  }

  /** Waiting for the writer completes what was added: nothing queued is lost. */
  lemma {:induction false} DrainWritesQueued(chunkSize: nat, written: seq<seq<Pickled>>, queued: seq<seq<Pickled>>)
    ensures Drain(chunkSize, WriteAll(chunkSize, written), Waiting(queued)) == WriteAll(chunkSize, written + queued)
    decreases |queued|
  {
    hide WriteBatch;
    if queued == [] {
      assert written + [] == written;
    } else {
      var more := written + [queued[0]];
      assert more[..|written|] == written;
      assert more + queued[1..] == written + queued;
      DrainWritesQueued(chunkSize, more, queued[1..]);
      assert Waiting(queued)[1..] == Waiting(queued[1..]);
    }
  }

  // ----- the builder object -----

  /** The index file. */
  datatype IndexFile = IndexFile(idx: seq<nat>, lengths: seq<int>, nShard: nat, shardOffset: seq<nat>)

  /** The builder, with the threads' turns as method calls: any interleaving is a sequence of them. */
  class Builder {
    const chunkSize: nat
    var queue: seq<Option<seq<Pickled>>>
    var binFiles: seq<seq<Byte>>  // the last one is open for appending
    var nShard: nat
    var lengthList: seq<int>
    var idxList: seq<nat>
    var shardOffset: seq<nat>
    var started: bool  // the writer thread exists
    var closed: bool
    var stopped: bool
    var indexFile: Option<IndexFile>

    ghost predicate Valid()
      reads this
    {
      && nShard == |binFiles| && Usable(Abs().shards)
      && (!started ==> queue == [] && !closed)
      && (!closed ==> !stopped && forall i :: 0 <= i < |queue| ==> queue[i].Some?)
    }

    ghost function Abs(): Pipeline
      reads this
    {
      Pipeline(queue, Shards(binFiles, idxList, lengthList, shardOffset), closed, stopped)
    }

    constructor (chunkSize: nat)
      ensures Valid() && Abs() == START && this.chunkSize == chunkSize && indexFile == None && !started
    {
      this.chunkSize := chunkSize;
      queue, started, closed, stopped := [], false, false, false;
      binFiles, nShard := [[]], 1;
      lengthList, idxList, shardOffset := [], [0], [0];
      indexFile := None;
    }

    /** The first call starts the writer; a put blocks while the queue is full. */
    method AddItems(items: seq<Pickled>)
      requires Valid() && Enabled(Abs(), Put(items))
      modifies this`queue, this`started
      ensures Valid() && Abs() == Do(chunkSize, old(Abs()), Put(items))
    {
      started := true;
      queue := queue + [Some(items)];
    }

    /** The stop signal. */
    method PutStop()
      requires Valid() && started && Enabled(Abs(), Close)
      modifies this`queue, this`closed
      ensures Valid() && Abs() == Do(chunkSize, old(Abs()), Close)
    {
      queue := queue + [None];
      closed := true;
    }

    /** One iteration of the writer's loop; the writer blocks while the queue is empty. */
    method WriteWorkerIteration()
      requires Valid() && Enabled(Abs(), Work) && (queue[0].None? ==> closed)
      modifies this`queue, this`binFiles, this`nShard, this`lengthList, this`idxList, this`shardOffset, this`stopped
      ensures Valid() && Abs() == Do(chunkSize, old(Abs()), Work)
    {
      var items := queue[0];
      queue := queue[1..];
      match items
      case None => stopped := true;
      case Some(batch) =>
        WriteBinFile(batch);
        RollBinFile();
    }

    /** `finalize`: the stop signal goes in once there is room, the writer runs until it has taken it, and the index
        file records the lists. What was queued is all written. */
    method Finalize()
      requires Valid() && !closed
      modifies this
      ensures Valid() && queue == []
      ensures Abs().shards == Drain(chunkSize, old(Abs().shards), old(queue))
      ensures indexFile == Some(IndexFile(idxList, lengthList, |binFiles|, shardOffset))
    {
      hide Drain;
      if started {
        MakeRoom();
        StopWritesNothing(chunkSize, Abs().shards, queue);
        ghost var queued := queue;
        PutStop();
        assert OnlyLastStops(queue);
        Join();
      } else {
        NothingToDrain(chunkSize, Abs().shards);
      }
      indexFile := Some(IndexFile(idxList, lengthList, nShard, shardOffset));
    }

    /** The producer blocks while the queue is full. */
    method MakeRoom()
      requires Valid() && started && !closed
      modifies this`queue, this`binFiles, this`nShard, this`lengthList, this`idxList, this`shardOffset, this`stopped
      ensures Valid() && !stopped && |queue| < QUEUE_SIZE
      ensures Drain(chunkSize, Abs().shards, queue) == old(Drain(chunkSize, Abs().shards, queue))
    {
      while |queue| >= QUEUE_SIZE
        invariant Valid() && !stopped
        invariant Drain(chunkSize, Abs().shards, queue) == old(Drain(chunkSize, Abs().shards, queue))
        decreases |queue|
      {
        hide Drain, WriteBatch;
        DrainStep(chunkSize, Abs(), queue);
        WriteWorkerIteration();
      }
    }

    /** The writer runs until it has taken the stop signal. */
    method Join()
      requires Valid() && started && closed && !stopped && OnlyLastStops(queue)
      modifies this`queue, this`binFiles, this`nShard, this`lengthList, this`idxList, this`shardOffset, this`stopped
      ensures Valid() && stopped && queue == []
      ensures Abs().shards == old(Drain(chunkSize, Abs().shards, queue))
    {
      while !stopped
        invariant Valid()
        invariant if stopped then queue == [] else OnlyLastStops(queue)
        invariant Drain(chunkSize, Abs().shards, queue) == old(Drain(chunkSize, Abs().shards, queue))
        decreases !stopped, |queue|
      {
        hide Drain, WriteBatch, OnlyLastStops;
        DrainStep(chunkSize, Abs(), queue);
        OneStopLess(queue);
        WriteWorkerIteration();
      }
      NothingToDrain(chunkSize, Abs().shards);
    }

    method WriteBinFile(batch: seq<Pickled>)
      requires Valid() && started
      modifies this`binFiles, this`lengthList, this`idxList
      ensures Valid() && Abs() == old(Abs()).(shards := WriteItems(old(Abs()).shards, batch))
    {
      hide WriteItems, Buffered;
      ghost var before := Abs().shards;
      var binBuffer: seq<Byte> := [];
      NothingBuffered(before, batch);
      for i := 0 to |batch|
        invariant idxList != [] && |lengthList| >= |old(lengthList)|
        invariant WriteItems(before, batch[..i]) == Buffered(binFiles, binBuffer, idxList, lengthList, shardOffset)
        modifies this`lengthList, this`idxList
      {
        var itemBuffer := batch[i].bytes;
        assert batch[..i + 1][..i] == batch[..i];
        BufferOne(before, batch[..i + 1], binFiles, binBuffer, idxList, lengthList, shardOffset);
        binBuffer := binBuffer + itemBuffer;
        idxList := idxList + [Last(idxList) + |itemBuffer|];
        lengthList := lengthList + [batch[i].length];
      }
      assert batch[..|batch|] == batch;
      BufferWritten(binFiles, binBuffer, idxList, lengthList, shardOffset);
      binFiles := binFiles[|binFiles| - 1 := Last(binFiles) + binBuffer];
    }

    method RollBinFile()
      requires Valid()
      modifies this`binFiles, this`nShard, this`shardOffset
      ensures Valid() && Abs() == old(Abs()).(shards := Roll(old(Abs()).shards, chunkSize))
    {
      var offset := Last(idxList) as int - Last(shardOffset);
      if offset >= chunkSize {
        assert Last(shardOffset) + offset == Last(idxList);
        shardOffset := shardOffset + [Last(idxList)];
        nShard := nShard + 1;
        binFiles := binFiles + [[]];
      }
    }
  }

  /** The stop signal, and nothing after it. */
  ghost predicate OnlyLastStops(queue: seq<Option<seq<Pickled>>>) {
    && queue != [] && queue[|queue| - 1].None?
    && forall i :: 0 <= i < |queue| - 1 ==> queue[i].Some?
  }

  lemma OneStopLess(queue: seq<Option<seq<Pickled>>>)
    requires OnlyLastStops(queue)
    ensures queue != [] && if queue[0].None? then queue[1..] == [] else OnlyLastStops(queue[1..])
  {
  }

  lemma NothingToDrain(chunkSize: nat, s: Shards)
    requires Usable(s)
    ensures Drain(chunkSize, s, []) == s
  {
  }

  lemma DrainStep(chunkSize: nat, p: Pipeline, queue: seq<Option<seq<Pickled>>>)
    requires Usable(p.shards) && p.queue == queue && Enabled(p, Work)
    ensures var p' := Do(chunkSize, p, Work);
            Usable(p'.shards) && Drain(chunkSize, p'.shards, p'.queue) == Drain(chunkSize, p.shards, queue)
  {
    hide WriteBatch;
  }

  lemma {:induction false} StopWritesNothing(chunkSize: nat, s: Shards, queue: seq<Option<seq<Pickled>>>)
    requires Usable(s)
    ensures Drain(chunkSize, s, queue + [None]) == Drain(chunkSize, s, queue)
    decreases |queue|
  {
    hide WriteBatch;
    var longer := queue + [None];
    if queue != [] {
      assert longer[1..] == queue[1..] + [None] && longer[0] == queue[0];
      StopWritesNothing(chunkSize, if queue[0].Some? then WriteBatch(chunkSize, s, queue[0].value) else s, queue[1..]);
    } else {
      assert longer[1..] == [];
    }
  }

  /** The shards once the buffered bytes are written to the open file. */
  function Buffered(binFiles: seq<seq<Byte>>, binBuffer: seq<Byte>, idx: seq<nat>, lengths: seq<int>,
                    offsets: seq<nat>):
      Shards
    requires binFiles != []
  {
    Shards(binFiles[|binFiles| - 1 := Last(binFiles) + binBuffer], idx, lengths, offsets)
  }

  lemma NothingBuffered(s: Shards, batch: seq<Pickled>)
    requires Usable(s)
    ensures WriteItems(s, batch[..0]) == Buffered(s.bins, [], s.idx, s.lengths, s.shardOffset)
  {
    assert Last(s.bins) + [] == Last(s.bins);
  }

  lemma BufferWritten(
      binFiles: seq<seq<Byte>>, binBuffer: seq<Byte>, idx: seq<nat>, lengths: seq<int>, offsets: seq<nat>)
    requires binFiles != []
    ensures Buffered(binFiles, binBuffer, idx, lengths, offsets) ==
            Shards(binFiles[|binFiles| - 1 := Last(binFiles) + binBuffer], idx, lengths, offsets)
  {
  }

  lemma BufferOne(before: Shards, batch: seq<Pickled>, binFiles: seq<seq<Byte>>, binBuffer: seq<Byte>, idx: seq<nat>,
                  lengths: seq<int>, offsets: seq<nat>)
    requires Usable(before) && batch != [] && binFiles != [] && idx != []
    requires WriteItems(before, batch[..|batch| - 1]) == Buffered(binFiles, binBuffer, idx, lengths, offsets)
    ensures var x := Last(batch);
            WriteItems(before, batch) ==
            Buffered(binFiles, binBuffer + x.bytes, idx + [Last(idx) + |x.bytes|], lengths + [x.length], offsets)
  {
    hide WriteItems, WriteItem, Buffered;
    WriteItemsStep(before, batch);
    BufferGrows(binFiles, binBuffer, idx, lengths, offsets, Last(batch));
  }

  lemma BufferGrows(binFiles: seq<seq<Byte>>, binBuffer: seq<Byte>, idx: seq<nat>, lengths: seq<int>, offsets: seq<nat>,
                    x: Pickled)
    requires binFiles != [] && Usable(Buffered(binFiles, binBuffer, idx, lengths, offsets))
    ensures idx != [] && WriteItem(Buffered(binFiles, binBuffer, idx, lengths, offsets), x) ==
                         Buffered(binFiles, binBuffer + x.bytes, idx + [Last(idx) + |x.bytes|], lengths + [x.length],
                                  offsets)
  {
    Regroup(Last(binFiles), binBuffer, x.bytes);
    var last := |binFiles| - 1;
    var now := Last(binFiles) + binBuffer;
    assert binFiles[last := now][last := now + x.bytes] == binFiles[last := now + x.bytes];
  }
}
