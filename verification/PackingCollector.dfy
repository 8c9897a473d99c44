/** The collecting side of offline packing, for every order in which the workers' messages can arrive. */
module PackingCollector {
  import opened Sequences
  import opened Packing
  import opened PackingDataset

  /** The messages of one worker, in order. */
  function From(messages: seq<Message>, rank: nat): seq<Message> {
    if messages == [] then []
    else (if messages[0].rank == rank then [messages[0]] else []) + From(messages[1..], rank)
  }

  /** `received` is some interleaving of the workers' messages: each worker's own stay in order. */
  ghost predicate Interleaves(received: seq<Message>, outs: seq<seq<Message>>) {
    && (forall k :: 0 <= k < |received| ==> received[k].rank < |outs|)
    && (forall r :: 0 <= r < |outs| ==> From(received, r) == outs[r])
  }

  function Markers(messages: seq<Message>): nat {
    if messages == [] then 0 else (if messages[0].dataLen == -1 then 1 else 0) + Markers(messages[1..])
  }

  lemma FromAppend(a: seq<Message>, b: seq<Message>, rank: nat)
    ensures From(a + b, rank) == From(a, rank) + From(b, rank)
    ensures Markers(a + b) == Markers(a) + Markers(b)
  {
    FilterAppend(a, b, rank);
    MarkersAppend(a, b);
  }

  lemma {:induction false} FilterAppend(a: seq<Message>, b: seq<Message>, rank: nat)
    ensures From(a + b, rank) == From(a, rank) + From(b, rank)
  {
    if a == [] {
      assert a + b == b;
    } else {
      FilterAppend(a[1..], b, rank);
      var first := if a[0].rank == rank then [a[0]] else [];
      assert (a + b)[1..] == a[1..] + b && (a + b)[0] == a[0];
      assert first + (From(a[1..], rank) + From(b, rank)) == first + From(a[1..], rank) + From(b, rank);
    }
  }

  lemma {:induction false} MarkersAppend(a: seq<Message>, b: seq<Message>)
    ensures Markers(a + b) == Markers(a) + Markers(b)
  {
    if a == [] {
      assert a + b == b;
    } else {
      assert (a + b)[1..] == a[1..] + b;
      MarkersAppend(a[1..], b);
    }
  }

  lemma {:induction false} FromKeepsMarkers(messages: seq<Message>, rank: nat)
    ensures Markers(From(messages, rank)) <= Markers(messages)
    ensures forall k :: 0 <= k < |messages| && messages[k].rank == rank ==> From(messages, rank) != []
  {
    if messages != [] {
      FromKeepsMarkers(messages[1..], rank);
      FromAppend(if messages[0].rank == rank then [messages[0]] else [], From(messages[1..], rank), rank);
      forall k | 0 <= k < |messages| && messages[k].rank == rank
        ensures From(messages, rank) != []
      {
        assert k > 0 ==> messages[1..][k - 1].rank == rank;
      }
    }
  }

  /** End markers of the first `procs` workers. */
  function MarkersOf(messages: seq<Message>, procs: nat): nat {
    if procs == 0 then 0 else MarkersOf(messages, procs - 1) + Markers(From(messages, procs - 1))
  }

  lemma {:induction false} MarkersOfCons(m: Message, rest: seq<Message>, procs: nat)
    ensures MarkersOf([m] + rest, procs) == MarkersOf(rest, procs) + if m.rank < procs && m.dataLen == -1 then 1 else 0
  {
    if procs > 0 {
      MarkersOfCons(m, rest, procs - 1);
      FromAppend([m], rest, procs - 1);
      FromAppend(From([m], procs - 1), From(rest, procs - 1), procs - 1);
    }
  }

  lemma {:induction false} MarkersByWorker(messages: seq<Message>, procs: nat)
    requires forall k :: 0 <= k < |messages| ==> messages[k].rank < procs
    ensures Markers(messages) == MarkersOf(messages, procs)
  {
    if messages != [] {
      MarkersByWorker(messages[1..], procs);
      assert messages == [messages[0]] + messages[1..];
      MarkersOfCons(messages[0], messages[1..], procs);
    } else {
      NoMessages(procs);
    }
  }

  lemma {:induction false} NoMessages(procs: nat)
    ensures MarkersOf([], procs) == 0
  {
    if procs > 0 {
      NoMessages(procs - 1);
    }
  }

  lemma {:induction false} EndsOnceMarkers(messages: seq<Message>, rank: nat)
    requires EndsOnce(messages, rank)
    ensures Markers(messages) == 1
    ensures forall a, b :: messages == a + b && b != [] ==> Markers(b) >= 1
  {
    if |messages| > 1 {
      EndsOnceMarkers(messages[1..], rank);
    }
    forall a, b | messages == a + b && b != []
      ensures Markers(b) >= 1
    {
      LastMarks(b);
    }
  }

  lemma {:induction false} LastMarks(b: seq<Message>)
    requires b != [] && b[|b| - 1].dataLen == -1
    ensures Markers(b) >= 1
  {
    if |b| > 1 {
      LastMarks(b[1..]);
    }
  }

  lemma {:induction false} OneMarkerEach(received: seq<Message>, outs: seq<seq<Message>>, procs: nat)
    requires Interleaves(received, outs) && procs <= |outs|
    requires forall r :: 0 <= r < |outs| ==> EndsOnce(outs[r], r)
    ensures MarkersOf(received, procs) == procs
  {
    hide Markers, From, EndsOnce;
    if procs > 0 {
      OneMarkerEach(received, outs, procs - 1);
      EndsOnceMarkers(outs[procs - 1], procs - 1);
    }
  }

  /** The end markers seen so far tell exactly whether everything has been received. */
  lemma AllMarkersAllMessages(received: seq<Message>, outs: seq<seq<Message>>, taken: nat)
    requires Interleaves(received, outs) && taken <= |received|
    requires forall r :: 0 <= r < |outs| ==> EndsOnce(outs[r], r)
    ensures Markers(received[..taken]) == |outs| <==> taken == |received|
    ensures Markers(received[..taken]) <= |outs|
  {
    var seen, rest := received[..taken], received[taken..];
    assert received == seen + rest;
    FromAppend(seen, rest, 0);
    MarkersByWorker(received, |outs|);
    OneMarkerEach(received, outs, |outs|);
    if rest != [] {
      var r := rest[0].rank;
      assert rest[0] == received[taken];
      FromAppend(seen, rest, r);
      FromKeepsMarkers(rest, r);
      EndsOnceMarkers(outs[r], r);
    }
  }

  // ----- what is collected -----

  function Data(bin: seq<IndexRow>): seq<int> {
    if bin == [] then [] else [bin[0].data] + Data(bin[1..])
  }

  /** For every bin the dataset indices of its rows. */
  function Indices(bins: seq<seq<IndexRow>>): seq<seq<int>> {
    if bins == [] then [] else [Data(bins[0])] + Indices(bins[1..])
  }

  /** The recorded length of every bin: the sum of the lengths of its rows. */
  function Volumes(bins: seq<seq<IndexRow>>): seq<int> {
    if bins == [] then [] else [Volume(bins[0])] + Volumes(bins[1..])
  }

  lemma {:induction false} IndicesAppend(a: seq<seq<IndexRow>>, b: seq<seq<IndexRow>>)
    ensures Indices(a + b) == Indices(a) + Indices(b)
  {
    if a == [] {
      assert a + b == b;
    } else {
      assert (a + b)[1..] == a[1..] + b;
      IndicesAppend(a[1..], b);
    }
  }

  lemma {:induction false} VolumesAppend(a: seq<seq<IndexRow>>, b: seq<seq<IndexRow>>)
    ensures Volumes(a + b) == Volumes(a) + Volumes(b)
  {
    if a == [] {
      assert a + b == b;
    } else {
      assert (a + b)[1..] == a[1..] + b;
      VolumesAppend(a[1..], b);
    }
  }

  /** The workers' bins, worker by worker. */
  function AllBins(outs: seq<seq<Message>>): seq<seq<IndexRow>> {
    if outs == [] then [] else Bins(outs[0]) + AllBins(outs[1..])
  }

  lemma {:induction false} ChainIsAllBins(idx: seq<seq<seq<int>>>, lens: seq<seq<int>>, outs: seq<seq<Message>>)
    requires |idx| == |lens| == |outs|
    requires forall r :: 0 <= r < |outs| ==> idx[r] == Indices(Bins(outs[r])) && lens[r] == Volumes(Bins(outs[r]))
    ensures Flatten(idx) == Indices(AllBins(outs)) && Flatten(lens) == Volumes(AllBins(outs))
  {
    if outs != [] {
      ChainIsAllBins(idx[1..], lens[1..], outs[1..]);
      IndicesAppend(Bins(outs[0]), AllBins(outs[1..]));
      VolumesAppend(Bins(outs[0]), AllBins(outs[1..]));
    }
  }

  /** The collecting loop of the constructor. Whatever the interleaving, it stops exactly when every message has been
      received, with the workers' bins in rank order: the result does not depend on the arrival order. */
  method CollectPacked(procs: nat, received: seq<Message>, ghost outs: seq<seq<Message>>)
    returns (packedIdx: seq<seq<int>>, packedLength: seq<int>, taken: nat)
    requires |outs| == procs && Interleaves(received, outs)
    requires forall r :: 0 <= r < |outs| ==> EndsOnce(outs[r], r)
    ensures taken == |received|
    ensures packedIdx == Indices(AllBins(outs)) && packedLength == Volumes(AllBins(outs))
  {
    var idx: seq<seq<seq<int>>> := seq(procs, _ => []);
    var lens: seq<seq<int>> := seq(procs, _ => []);
    var finishedWorkers := 0;
    taken := 0;
    AllMarkersAllMessages(received, outs, 0);
    while finishedWorkers < procs
      invariant taken <= |received| && finishedWorkers == Markers(received[..taken]) <= procs
      invariant |idx| == |lens| == procs
      invariant forall r :: 0 <= r < procs ==>
                  idx[r] == Indices(Bins(From(received[..taken], r))) &&
                      lens[r] == Volumes(Bins(From(received[..taken], r)))
      decreases |received| - taken
    {
      AllMarkersAllMessages(received, outs, taken);
      var m := received[taken];
      MarkerHasNoBins(received, outs, taken);
      ReceiveOne(received, taken, procs);
      taken := taken + 1;
      AllMarkersAllMessages(received, outs, taken);
      if m.dataLen == -1 {
        finishedWorkers := finishedWorkers + 1;
      } else {
        idx := idx[m.rank := idx[m.rank] + Indices(m.bins)];
        lens := lens[m.rank := lens[m.rank] + Volumes(m.bins)];
      }
    }
    AllMarkersAllMessages(received, outs, taken);
    assert received[..taken] == received;
    ChainIsAllBins(idx, lens, outs);
    packedIdx, packedLength := Flatten(idx), Flatten(lens);
  }

  lemma MarkerHasNoBins(received: seq<Message>, outs: seq<seq<Message>>, k: nat)
    requires Interleaves(received, outs) && k < |received|
    requires forall r :: 0 <= r < |outs| ==> EndsOnce(outs[r], r)
    ensures received[k].dataLen == -1 ==> received[k].bins == []
  {
    var r := received[k].rank;
    FromHasIt(received, k);
  }

  lemma {:induction false} FromHasIt(messages: seq<Message>, k: nat)
    requires k < |messages|
    ensures messages[k] in From(messages, messages[k].rank)
  {
    if k > 0 {
      FromHasIt(messages[1..], k - 1);
    }
  }

  lemma ReceiveOne(received: seq<Message>, k: nat, procs: nat)
    requires k < |received|
    ensures Markers(received[..k + 1]) == Markers(received[..k]) + if received[k].dataLen == -1 then 1 else 0
    ensures forall r: nat :: r < procs ==>
              var was, now := Bins(From(received[..k], r)), Bins(From(received[..k + 1], r));
              if r == received[k].rank
              then Indices(now) == Indices(was) + Indices(received[k].bins) &&
                   Volumes(now) == Volumes(was) + Volumes(received[k].bins)
              else now == was
  {
    assert received[..k + 1] == received[..k] + [received[k]];
    forall r: nat | r < procs
      ensures var was, now := Bins(From(received[..k], r)), Bins(From(received[..k + 1], r));
              if r == received[k].rank
              then Indices(now) == Indices(was) + Indices(received[k].bins) &&
                   Volumes(now) == Volumes(was) + Volumes(received[k].bins)
              else now == was
    {
      FromAppend(received[..k], [received[k]], r);
      BinsAppend(From(received[..k], r), From([received[k]], r));
      IndicesAppend(Bins(From(received[..k], r)), received[k].bins);
      VolumesAppend(Bins(From(received[..k], r)), received[k].bins);
      if r == received[k].rank {
        OneMessage(received[k]);
        assert From([received[k]], r) == [received[k]];
      }
    }
    FromAppend(received[..k], [received[k]], 0);
  }

  // ----- the whole dataset -----

  function Offset(chunks: seq<seq<Length>>, r: nat): nat
    requires r <= |chunks|
  {
    if r == 0 then 0 else Offset(chunks, r - 1) + |chunks[r - 1]|
  }

  function RowsOf(chunks: seq<seq<Length>>, r: nat): seq<IndexRow>
    requires r < |chunks|
  {
    Rows(Offset(chunks, r), chunks[r])
  }

  /** The messages of worker `r`, for a split of the lengths into contiguous chunks. */
  function WorkerOutput(pack: Packer, batchSize: nat, chunks: seq<seq<Length>>, r: nat): seq<Message>
    requires batchSize > 0 && r < |chunks|
  {
    WorkerMessages(r, pack, batchSize, RowsOf(chunks, r), 0, [])
  }

  function WorkerOutputs(pack: Packer, batchSize: nat, chunks: seq<seq<Length>>, procs: nat): seq<seq<Message>>
    requires batchSize > 0 && procs <= |chunks|
  {
    if procs == 0 then []
    else WorkerOutputs(pack, batchSize, chunks, procs - 1) + [WorkerOutput(pack, batchSize, chunks, procs - 1)]
  }

  lemma {:induction false} AllBinsSnoc(outs: seq<seq<Message>>, out: seq<Message>)
    ensures AllBins(outs + [out]) == AllBins(outs) + Bins(out)
  {
    if outs != [] {
      assert (outs + [out])[1..] == outs[1..] + [out];
      AllBinsSnoc(outs[1..], out);
    } else {
      assert [out][1..] == [];
    }
  }

  lemma {:induction false} OutputsEndOnce(pack: Packer, batchSize: nat, chunks: seq<seq<Length>>, procs: nat)
    requires batchSize > 0 && procs <= |chunks|
    ensures var outs := WorkerOutputs(pack, batchSize, chunks, procs);
            |outs| == procs && forall r :: 0 <= r < procs ==> EndsOnce(outs[r], r)
  {
    if procs > 0 {
      hide EndsOnce, WorkerOutput;
      OutputsEndOnce(pack, batchSize, chunks, procs - 1);
      OutputEndsOnce(pack, batchSize, chunks, procs - 1);
    }
  }

  lemma OutputEndsOnce(pack: Packer, batchSize: nat, chunks: seq<seq<Length>>, r: nat)
    requires batchSize > 0 && r < |chunks|
    ensures EndsOnce(WorkerOutput(pack, batchSize, chunks, r), r)
  {
    hide WorkerMessages, EndsOnce;
    WorkerEndsOnce(r, pack, batchSize, RowsOf(chunks, r), 0, []);
  }

  lemma OutputConserves(pack: Packer, volume: nat, batchSize: nat, chunks: seq<seq<Length>>, r: nat)
    requires BinPacking(pack, volume) && batchSize > 0 && r < |chunks|
    ensures multiset(Flatten(Bins(WorkerOutput(pack, batchSize, chunks, r)))) == multiset(RowsOf(chunks, r))
  {
    hide WorkerMessages, BinPacking, Bins, Flatten;
    WorkerConserves(r, pack, volume, batchSize, RowsOf(chunks, r));
  }

  /** How often row `x` occurs in the bins of the first `procs` workers. */
  lemma {:induction false} OutputsPackRow(pack: Packer, volume: nat, batchSize: nat,
                                          chunks: seq<seq<Length>>, procs: nat, x: IndexRow)
    requires BinPacking(pack, volume) && batchSize > 0 && procs <= |chunks|
    ensures multiset(Flatten(AllBins(WorkerOutputs(pack, batchSize, chunks, procs))))[x] ==
            multiset(Rows(0, Flatten(chunks[..procs])))[x]
  {
    hide WorkerOutput, WorkerOutputs, Bins, Flatten, Rows, RowsOf, BinPacking, AllBins;
    if procs == 0 {
      NoOutputs(pack, batchSize, chunks);
    } else {
      OutputConserves(pack, volume, batchSize, chunks, procs - 1);
      OutputsPackRow(pack, volume, batchSize, chunks, procs - 1, x);
      RowsGrow(chunks, procs);
      OutputsGrow(pack, batchSize, chunks, procs);
      CountsAdd(Flatten(AllBins(WorkerOutputs(pack, batchSize, chunks, procs))),
                Flatten(AllBins(WorkerOutputs(pack, batchSize, chunks, procs - 1))),
                Flatten(Bins(WorkerOutput(pack, batchSize, chunks, procs - 1))),
                Rows(0, Flatten(chunks[..procs])), Rows(0, Flatten(chunks[..procs - 1])), RowsOf(chunks, procs - 1), x);
    }
  }

  lemma NoOutputs(pack: Packer, batchSize: nat, chunks: seq<seq<Length>>)
    requires batchSize > 0
    ensures Flatten(AllBins(WorkerOutputs(pack, batchSize, chunks, 0))) == Rows(0, Flatten(chunks[..0]))
  {
    assert chunks[..0] == [];
  }

  lemma OutputsGrow(pack: Packer, batchSize: nat, chunks: seq<seq<Length>>, procs: nat)
    requires batchSize > 0 && 0 < procs <= |chunks|
    ensures Flatten(AllBins(WorkerOutputs(pack, batchSize, chunks, procs))) ==
            Flatten(AllBins(WorkerOutputs(pack, batchSize, chunks, procs - 1))) +
            Flatten(Bins(WorkerOutput(pack, batchSize, chunks, procs - 1)))
  {
    hide WorkerOutput, AllBins, Bins, Flatten;
    var before := WorkerOutputs(pack, batchSize, chunks, procs - 1);
    var out := WorkerOutput(pack, batchSize, chunks, procs - 1);
    AllBinsSnoc(before, out);
    FlattenAppend(AllBins(before), Bins(out));
  }

  lemma CountsAdd(ab: seq<IndexRow>, a: seq<IndexRow>, b: seq<IndexRow>,
                  cd: seq<IndexRow>, c: seq<IndexRow>, d: seq<IndexRow>, x: IndexRow)
    requires ab == a + b && cd == c + d
    requires multiset(a)[x] == multiset(c)[x] && multiset(b) == multiset(d)
    ensures multiset(ab)[x] == multiset(cd)[x]
  {
  }

  /** Together the workers pack every row of the dataset exactly once. */
  lemma OutputsConserve(pack: Packer, volume: nat, batchSize: nat, chunks: seq<seq<Length>>)
    requires BinPacking(pack, volume) && batchSize > 0
    ensures multiset(Flatten(AllBins(WorkerOutputs(pack, batchSize, chunks, |chunks|)))) ==
            multiset(Rows(0, Flatten(chunks)))
  {
    assert chunks[..|chunks|] == chunks;
    forall x {
      OutputsPackRow(pack, volume, batchSize, chunks, |chunks|, x);
    }
  }

  lemma {:induction false} OffsetIsLength(chunks: seq<seq<Length>>, r: nat)
    requires r <= |chunks|
    ensures Offset(chunks, r) == |Flatten(chunks[..r])|
  {
    if r > 0 {
      OffsetIsLength(chunks, r - 1);
      FlattenLast(chunks[..r]);
      assert chunks[..r][..r - 1] == chunks[..r - 1];
    }
  }

  lemma RowsGrow(chunks: seq<seq<Length>>, procs: nat)
    requires 0 < procs <= |chunks|
    ensures Rows(0, Flatten(chunks[..procs])) == Rows(0, Flatten(chunks[..procs - 1])) + RowsOf(chunks, procs - 1)
  {
    OffsetIsLength(chunks, procs - 1);
    FlattenLast(chunks[..procs]);
    assert chunks[..procs][..procs - 1] == chunks[..procs - 1];
  }

  lemma OutputWithinVolume(pack: Packer, volume: nat, batchSize: nat, chunks: seq<seq<Length>>, r: nat)
    requires BinPacking(pack, volume) && batchSize > 0 && r < |chunks|
    requires forall l :: l in chunks[r] ==> Total(l) <= volume
    ensures forall b :: b in Bins(WorkerOutput(pack, batchSize, chunks, r)) ==> Volume(b) <= volume
  {
    hide WorkerMessages, BinPacking, Bins;
    WorkerWithinVolume(r, pack, volume, batchSize, RowsOf(chunks, r), 0, []);
  }

  lemma OutputsStep(pack: Packer, batchSize: nat, chunks: seq<seq<Length>>, procs: nat)
    requires batchSize > 0 && procs <= |chunks|
    ensures AllBins(WorkerOutputs(pack, batchSize, chunks, procs)) ==
            if procs == 0 then []
            else AllBins(WorkerOutputs(pack, batchSize, chunks, procs - 1)) +
                 Bins(WorkerOutput(pack, batchSize, chunks, procs - 1))
  {
    hide WorkerOutput, Bins;
    if procs > 0 {
      AllBinsSnoc(WorkerOutputs(pack, batchSize, chunks, procs - 1), WorkerOutput(pack, batchSize, chunks, procs - 1));
    }
  }

  lemma {:induction false} OutputsWithinVolume(pack: Packer, volume: nat, batchSize: nat,
                                               chunks: seq<seq<Length>>, procs: nat)
    requires BinPacking(pack, volume) && batchSize > 0 && procs <= |chunks|
    requires forall c, l :: c in chunks && l in c ==> Total(l) <= volume
    ensures forall b :: b in AllBins(WorkerOutputs(pack, batchSize, chunks, procs)) ==> Volume(b) <= volume
  {
    hide WorkerOutput, WorkerOutputs, AllBins, Bins, Volume, BinPacking;
    OutputsStep(pack, batchSize, chunks, procs);
    if procs > 0 {
      OutputsWithinVolume(pack, volume, batchSize, chunks, procs - 1);
      OutputWithinVolume(pack, volume, batchSize, chunks, procs - 1);
    }
  }

  lemma {:induction false} DataPermutes(a: seq<IndexRow>, b: seq<IndexRow>)
    requires multiset(a) == multiset(b)
    ensures multiset(Data(a)) == multiset(Data(b))
  {
    if a == [] {
      assert |b| == |multiset(b)| == 0;
    } else {
      var k := DropCommon(a, b);
      assert b == b[..k] + [b[k]] + b[k + 1..];
      DataPermutes(a[1..], b[..k] + b[k + 1..]);
      DataAppend(b[..k], b[k + 1..]);
      DataAppend(b[..k] + [b[k]], b[k + 1..]);
      DataAppend(b[..k], [b[k]]);
      assert Data([b[k]]) == [b[k].data];
    }
  }

  lemma {:induction false} DataAppend(a: seq<IndexRow>, b: seq<IndexRow>)
    ensures Data(a + b) == Data(a) + Data(b)
  {
    if a == [] {
      assert a + b == b;
    } else {
      assert (a + b)[1..] == a[1..] + b;
      DataAppend(a[1..], b);
    }
  }

  lemma {:induction false} DataOfFlatten(bins: seq<seq<IndexRow>>)
    ensures Flatten(Indices(bins)) == Data(Flatten(bins))
  {
    if bins != [] {
      DataOfFlatten(bins[1..]);
      DataAppend(bins[0], Flatten(bins[1..]));
    }
  }

  lemma {:induction false} DataOfRows(offset: nat, lengths: seq<Length>)
    ensures Data(Rows(offset, lengths)) == seq(|lengths|, i => offset + i)
    decreases |lengths|
  {
    if lengths != [] {
      assert Rows(offset, lengths)[1..] == Rows(offset + 1, lengths[1..]);
      DataOfRows(offset + 1, lengths[1..]);
    }
  }

  /** The recorded length a pack of indices should have. */
  function PackTotal(lengths: seq<Length>, idx: seq<int>): int {
    if idx == [] then 0
    else (if 0 <= idx[0] < |lengths| then Total(lengths[idx[0]]) else 0) + PackTotal(lengths, idx[1..])
  }

  lemma {:induction false} VolumeIsTotal(lengths: seq<Length>, bin: seq<IndexRow>)
    requires forall x: IndexRow :: x in bin ==> 0 <= x.data < |lengths| && x.len == Total(lengths[x.data])
    ensures Volume(bin) == PackTotal(lengths, Data(bin))
  {
    if bin != [] {
      VolumeIsTotal(lengths, bin[1..]);
    }
  }

  lemma {:induction false} VolumesAreTotals(lengths: seq<Length>, bins: seq<seq<IndexRow>>)
    requires forall x: IndexRow :: x in Flatten(bins) ==> 0 <= x.data < |lengths| && x.len == Total(lengths[x.data])
    ensures |Volumes(bins)| == |Indices(bins)| == |bins|
    ensures forall j :: 0 <= j < |bins| ==> Volumes(bins)[j] == Volume(bins[j]) == PackTotal(lengths, Indices(bins)[j])
  {
    hide Flatten, Volume, PackTotal, Data, Total;
    if bins != [] {
      BinStep(bins);
      VolumeIsTotal(lengths, bins[0]);
      VolumesAreTotals(lengths, bins[1..]);
    }
  }

  lemma BinStep(bins: seq<seq<IndexRow>>)
    requires bins != []
    ensures Flatten(bins) == bins[0] + Flatten(bins[1..])
  {
  }

  /** Offline packing is exact, for every split into contiguous chunks and every interleaving (the collector's result
      is a function of the chunks): each dataset index is in exactly one pack, and the recorded length of a pack is
      the sum of its members', within the volume when every item fits. */
  lemma PackingIsExact(pack: Packer, volume: nat, batchSize: nat, chunks: seq<seq<Length>>)
    requires BinPacking(pack, volume) && batchSize > 0
    ensures var lengths := Flatten(chunks);
            var bins := AllBins(WorkerOutputs(pack, batchSize, chunks, |chunks|));
            && multiset(Flatten(Indices(bins))) == multiset(seq(|lengths|, i => i))
            && |Volumes(bins)| == |Indices(bins)|
            && (forall j :: 0 <= j < |Volumes(bins)| ==> Volumes(bins)[j] == PackTotal(lengths, Indices(bins)[j]))
            && ((forall l :: l in lengths ==> Total(l) <= volume) ==> forall v :: v in Volumes(bins) ==> v <= volume)
  {
    var lengths := Flatten(chunks);
    var bins := AllBins(WorkerOutputs(pack, batchSize, chunks, |chunks|));
    hide WorkerOutputs, AllBins, Volumes, Indices, Flatten, Rows, BinPacking;
    OutputsConserve(pack, volume, batchSize, chunks);
    PermutedRows(lengths, bins);
    if forall l :: l in lengths ==> Total(l) <= volume {
      forall c, l | c in chunks && l in c
        ensures Total(l) <= volume
      {
        FlattenMembers(chunks, l);
      }
      OutputsWithinVolume(pack, volume, batchSize, chunks, |chunks|);
    }
  }

  lemma PermutedIndices(lengths: seq<Length>, bins: seq<seq<IndexRow>>)
    requires multiset(Flatten(bins)) == multiset(Rows(0, lengths))
    ensures multiset(Flatten(Indices(bins))) == multiset(seq(|lengths|, i => i))
  {
    hide Indices, Flatten, Rows, Data;
    DataPermutes(Flatten(bins), Rows(0, lengths));
    DataOfFlatten(bins);
    DataOfRows(0, lengths);
    assert seq(|lengths|, i => 0 + i) == seq(|lengths|, i => i);
  }

  /** Bins that hold the rows of the dataset in any order. */
  lemma PermutedRows(lengths: seq<Length>, bins: seq<seq<IndexRow>>)
    requires multiset(Flatten(bins)) == multiset(Rows(0, lengths))
    ensures multiset(Flatten(Indices(bins))) == multiset(seq(|lengths|, i => i))
    ensures |Volumes(bins)| == |Indices(bins)| == |bins|
    ensures forall j :: 0 <= j < |bins| ==> Volumes(bins)[j] == Volume(bins[j]) == PackTotal(lengths, Indices(bins)[j])
  {
    PermutedIndices(lengths, bins);
    hide Indices, Volumes, Flatten, PackTotal;
    forall x: IndexRow | x in Flatten(bins)
      ensures 0 <= x.data < |lengths| && x.len == Total(lengths[x.data])
    {
      assert x in multiset(Flatten(bins)) && x in multiset(Rows(0, lengths));
    }
    VolumesAreTotals(lengths, bins);
  }

  /** The constructor, from the messages in whatever order they arrive: the packing is exact, and the same for every
      order. */
  method PackDataset(pack: Packer, ghost volume: nat, batchSize: nat, chunks: seq<seq<Length>>,
                     received: seq<Message>)
    returns (packedIdx: seq<seq<int>>, packedLength: seq<int>)
    requires BinPacking(pack, volume) && batchSize > 0
    requires Interleaves(received, WorkerOutputs(pack, batchSize, chunks, |chunks|))
    ensures packedIdx == Indices(AllBins(WorkerOutputs(pack, batchSize, chunks, |chunks|)))
    ensures multiset(Flatten(packedIdx)) == multiset(seq(|Flatten(chunks)|, i => i))
    ensures |packedLength| == |packedIdx|
    ensures forall j :: 0 <= j < |packedIdx| ==> packedLength[j] == PackTotal(Flatten(chunks), packedIdx[j])
    ensures (forall l :: l in Flatten(chunks) ==> Total(l) <= volume) ==> forall v :: v in packedLength ==> v <= volume
  {
    hide WorkerOutputs, Interleaves, EndsOnce;
    OutputsEndOnce(pack, batchSize, chunks, |chunks|);
    var taken;
    packedIdx, packedLength, taken :=
      CollectPacked(|chunks|, received, WorkerOutputs(pack, batchSize, chunks, |chunks|));
    PackingIsExact(pack, volume, batchSize, chunks);
  }
}
