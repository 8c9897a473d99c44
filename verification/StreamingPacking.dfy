/** Streaming packing: rounds of samples encoded by a worker pool that answers in any order. */
module StreamingPacking {
  import opened Wrappers
  import opened Sequences
  import opened Packing

  type Sample = int

  /** An encoded sample with its number of input ids; encoded samples are named by numbers. */
  type EncodedRow = Row<int>

  type Packer = seq<EncodedRow> -> seq<seq<EncodedRow>>

  /** The template's encoder; None when it raises or returns nothing. */
  type Encoder = Sample -> Option<EncodedRow>

  /** A queue entry: the sample's position in its round. Its answer is the position and the encoding. */
  datatype Ticket = Ticket(i: nat, sample: Sample)

  function Tickets(samples: seq<Sample>): (r: seq<Ticket>)
    ensures |r| == |samples| && forall i :: 0 <= i < |r| ==> r[i] == Ticket(i, samples[i])
  {
    seq(|samples|, i requires 0 <= i < |samples| => Ticket(i, samples[i]))
  }

  /** The samples that could be encoded, in order. */
  function Encodable(encode: Encoder, samples: seq<Sample>): seq<EncodedRow> {
    if samples == [] then []
    else
      match encode(samples[0])
      case None => Encodable(encode, samples[1..])
      case Some(row) => [row] + Encodable(encode, samples[1..])
  }

  lemma {:induction false} EncodableAppend(encode: Encoder, a: seq<Sample>, b: seq<Sample>)
    ensures Encodable(encode, a + b) == Encodable(encode, a) + Encodable(encode, b)
  {
    if a == [] {
      assert a + b == b;
    } else {
      EncodableAppend(encode, a[1..], b);
      assert (a + b)[1..] == a[1..] + b && (a + b)[0] == a[0];
    }
  }

  // ----- the worker pool -----

  /** Every ticket is in exactly one of the four places. */
  ghost predicate Shared(a: seq<Ticket>, b: seq<Ticket>, c: seq<Ticket>, d: seq<Ticket>, all: seq<Ticket>) {
    && |a| + |b| + |c| + |d| == |all|
    && multiset(a) + multiset(b) + multiset(c) + multiset(d) == multiset(all)
  }

  function Without(s: seq<Ticket>, k: nat): (r: seq<Ticket>)
    requires k < |s|
    ensures |r| == |s| - 1
  {
    s[..k] + s[k + 1..]
  }

  lemma Moved(from: seq<Ticket>, k: nat, to: seq<Ticket>)
    requires k < |from|
    ensures multiset(Without(from, k)) + multiset(to + [from[k]]) == multiset(from) + multiset(to)
  {
    assert from == from[..k] + ([from[k]] + from[k + 1..]);
  }

  lemma Grouped(a: seq<Ticket>, b: seq<Ticket>, c: seq<Ticket>, d: seq<Ticket>)
    ensures multiset(a) + multiset(b) + multiset(c) + multiset(d) ==
            multiset(a) + (multiset(b) + multiset(c)) + multiset(d)
    ensures multiset(a) + multiset(b) + multiset(c) + multiset(d) ==
            multiset(a) + multiset(b) + (multiset(c) + multiset(d))
  {
  }

  /** One round of the pool: workers take tickets in queue order, finish in any order, and the main process reads the
      answers. Whatever the schedule, it has read each answer exactly once when it has read as many as it put in. */
  method RunPool(numProc: nat, samples: seq<Sample>) returns (received: seq<Ticket>)
    requires numProc > 0
    ensures |received| == |samples|
    ensures multiset(received) == multiset(Tickets(samples))
  {
    hide Without;
    var inQueue, busy, outQueue := Tickets(samples), [], [];
    received := [];
    while |received| < |samples|
      invariant Shared(inQueue, busy, outQueue, received, Tickets(samples))
      decreases 3 * |inQueue| + 2 * |busy| + |outQueue|
    {
      if
      case inQueue != [] && |busy| < numProc =>
        Moved(inQueue, 0, busy);
        inQueue, busy := Without(inQueue, 0), busy + [inQueue[0]];
      case busy != [] =>
        var k :| 0 <= k < |busy|;
        Moved(busy, k, outQueue);
        Grouped(inQueue, busy, outQueue, received);
        Grouped(inQueue, Without(busy, k), outQueue + [busy[k]], received);
        busy, outQueue := Without(busy, k), outQueue + [busy[k]];
      case outQueue != [] =>
        Moved(outQueue, 0, received);
        Grouped(inQueue, busy, outQueue, received);
        Grouped(inQueue, busy, Without(outQueue, 0), received + [outQueue[0]]);
        outQueue, received := Without(outQueue, 0), received + [outQueue[0]];
    }
    assert inQueue == [] && busy == [] && outQueue == [];
  }

  // ----- one round -----

  /** The slots that hold an answer; a slot stays empty if its sample was not encodable. */
  function Filled(slots: seq<Option<EncodedRow>>): seq<EncodedRow> {
    if slots == [] then []
    else
      match slots[0]
      case None => Filled(slots[1..])
      case Some(row) => [row] + Filled(slots[1..])
  }

  lemma {:induction false} FilledIsEncodable(encode: Encoder, slots: seq<Option<EncodedRow>>, samples: seq<Sample>)
    requires |slots| == |samples|
    requires forall i :: 0 <= i < |slots| ==> slots[i] == encode(samples[i])
    ensures Filled(slots) == Encodable(encode, samples)
  {
    if slots != [] {
      FilledIsEncodable(encode, slots[1..], samples[1..]);
    }
  }

  lemma TicketsArrive(received: seq<Ticket>, samples: seq<Sample>)
    requires multiset(received) == multiset(Tickets(samples))
    ensures |received| == |samples|
    ensures forall k :: 0 <= k < |received| ==>
            received[k].i < |samples| && received[k].sample == samples[received[k].i]
    ensures forall i :: 0 <= i < |samples| ==> Ticket(i, samples[i]) in received
  {
    assert |received| == |multiset(received)| == |multiset(Tickets(samples))|;
    forall k | 0 <= k < |received|
      ensures received[k].i < |samples| && received[k].sample == samples[received[k].i]
    {
      assert received[k] in multiset(Tickets(samples));
    }
    forall i | 0 <= i < |samples|
      ensures Ticket(i, samples[i]) in received
    {
      assert Tickets(samples)[i] in multiset(received);
    }
  }

  /** `_fetch_data_out_queue`: whatever the order of the answers, the encodable samples are appended in input order. */
  method FetchData(encode: Encoder, lastRes: seq<EncodedRow>, samples: seq<Sample>, received: seq<Ticket>)
    returns (data: seq<EncodedRow>)
    requires multiset(received) == multiset(Tickets(samples))
    ensures data == lastRes + Encodable(encode, samples)
  {
    TicketsArrive(received, samples);
    var res := new Option<EncodedRow>[|samples|](_ => None);
    for k := 0 to |received|
      invariant forall i :: 0 <= i < |samples| ==>
                  res[i] == None || res[i] == encode(samples[i])
      invariant forall j :: 0 <= j < k ==> res[received[j].i] == encode(samples[received[j].i])
    {
      var i, answer := received[k].i, encode(received[k].sample);
      if answer.None? {
        continue;
      }
      res[i] := answer;
    }
    forall i | 0 <= i < |samples|
      ensures res[i] == encode(samples[i])
    {
      var j :| 0 <= j < |received| && received[j] == Ticket(i, samples[i]);
    }
    FilledIsEncodable(encode, res[..], samples);
    data := lastRes + Filled(res[..]);
  }

  // ----- the stream -----

  /** The encoded samples of a bin. */
  function DataOf(bin: seq<EncodedRow>): (r: seq<int>)
    ensures |r| == |bin| && forall i :: 0 <= i < |bin| ==> r[i] == bin[i].data
  {
    if bin == [] then [] else [bin[0].data] + DataOf(bin[1..])
  }

  function PacksOf(bins: seq<seq<EncodedRow>>): (r: seq<seq<int>>)
    ensures |r| == |bins| && forall k :: 0 <= k < |bins| ==> r[k] == DataOf(bins[k])
  {
    if bins == [] then [] else [DataOf(bins[0])] + PacksOf(bins[1..])
  }

  /** The places in the dataset whose sample is encoded as `d`. */
  function EncodedAs(encode: Encoder, samples: seq<Sample>, d: int): set<nat> {
    set i: nat | i < |samples| && encode(samples[i]).Some? && encode(samples[i]).value.data == d
  }

  lemma {:induction false} EncodableCounts(encode: Encoder, samples: seq<Sample>, d: int)
    ensures multiset(DataOf(Encodable(encode, samples)))[d] == |EncodedAs(encode, samples, d)|
    decreases |samples|
  {
    hide DataOf, Encodable;
    if samples == [] {
      NoneEncoded(encode);
      assert EncodedAs(encode, samples, d) == {};
    } else {
      var n := |samples| - 1;
      var front := samples[..n];
      assert samples == front + [samples[n]];
      EncodableCounts(encode, front, d);
      EncodableAppend(encode, front, [samples[n]]);
      DataAppend(Encodable(encode, front), Encodable(encode, [samples[n]]));
      LastEncoded(encode, samples, d);
      OneEncoded(encode, samples[n], d);
    }
  }

  lemma NoneEncoded(encode: Encoder)
    ensures DataOf(Encodable(encode, [])) == []
  {
  }

  lemma OneEncoded(encode: Encoder, sample: Sample, d: int)
    ensures multiset(DataOf(Encodable(encode, [sample])))[d] ==
            if encode(sample).Some? && encode(sample).value.data == d then 1 else 0
  {
    assert [sample][1..] == [];
  }

  lemma LastEncoded(encode: Encoder, samples: seq<Sample>, d: int)
    requires samples != []
    ensures var n := |samples| - 1;
            |EncodedAs(encode, samples, d)| ==
            |EncodedAs(encode, samples[..n], d)| +
            if encode(samples[n]).Some? && encode(samples[n]).value.data == d then 1 else 0
  {
    var n := |samples| - 1;
    var all, front := EncodedAs(encode, samples, d), EncodedAs(encode, samples[..n], d);
    assert all == front + if encode(samples[n]).Some? && encode(samples[n]).value.data == d then {n} else {};
  }

  lemma {:induction false} DataAppend(a: seq<EncodedRow>, b: seq<EncodedRow>)
    ensures DataOf(a + b) == DataOf(a) + DataOf(b)
  {
  }

  lemma {:induction false} DataOfFlatten(bins: seq<seq<EncodedRow>>)
    ensures Flatten(PacksOf(bins)) == DataOf(Flatten(bins))
  {
    if bins != [] {
      DataOfFlatten(bins[1..]);
      DataAppend(bins[0], Flatten(bins[1..]));
    }
  }

  lemma {:induction false} DataPermutes(a: seq<EncodedRow>, b: seq<EncodedRow>)
    requires multiset(a) == multiset(b)
    ensures multiset(DataOf(a)) == multiset(DataOf(b))
    decreases |a|
  {
    hide DataOf;
    if a == [] {
      SameSize(a, b);
    } else {
      var k := DropCommon(a, b);
      DataPermutes(a[1..], b[..k] + b[k + 1..]);
      DataFront(a);
      DataSplits(b, k);
    }
  }

  lemma DataFront(s: seq<EncodedRow>)
    requires s != []
    ensures multiset(DataOf(s)) == multiset(DataOf(s[1..])) + multiset{s[0].data}
  {
    DataSplits(s, 0);
    assert s[..0] + s[1..] == s[1..];
  }

  lemma SameSize(a: seq<EncodedRow>, b: seq<EncodedRow>)
    requires multiset(a) == multiset(b)
    ensures |a| == |b|
  {
    assert |a| == |multiset(a)| && |b| == |multiset(b)|;
  }

  lemma DataSplits(s: seq<EncodedRow>, k: nat)
    requires k < |s|
    ensures multiset(DataOf(s)) == multiset(DataOf(s[..k] + s[k + 1..])) + multiset{s[k].data}
  {
    DataWithout(s, k);
    hide DataOf;
    Sequences.Without(DataOf(s), k);
  }

  lemma DataWithout(s: seq<EncodedRow>, k: nat)
    requires k < |s|
    ensures DataOf(s[..k] + s[k + 1..]) == DataOf(s)[..k] + DataOf(s)[k + 1..]
  {
    hide DataOf;
    DataAppend(s[..k], s[k + 1..]);
    DataSlice(s, 0, k);
    DataSlice(s, k + 1, |s|);
    assert s[0..k] == s[..k] && s[k + 1..|s|] == s[k + 1..];
  }

  lemma DataSlice(s: seq<EncodedRow>, lo: nat, hi: nat)
    requires lo <= hi <= |s|
    ensures DataOf(s[lo..hi]) == DataOf(s)[lo..hi]
  {
    hide DataOf;
    forall i | 0 <= i < hi - lo
      ensures DataOf(s[lo..hi])[i] == DataOf(s)[lo..hi][i]
    {
      assert s[lo..hi][i] == s[lo + i];
    }
  }

  /** What is yielded over a finite stream: every sample that can be encoded, as often as the dataset has it, and
      nothing else. */
  lemma YieldedExactly(encode: Encoder, pack: Packer, volume: nat, interval: nat, stream: seq<Sample>, d: int)
    requires BinPacking(pack, volume) && interval > 0
    ensures multiset(Flatten(PacksOf(StreamBins(encode, pack, interval, stream, []))))[d] ==
            |EncodedAs(encode, stream, d)|
  {
    hide BinPacking, StreamBins, PacksOf, DataOf, Flatten, Encodable;
    var bins := StreamBins(encode, pack, interval, stream, []);
    StreamIsPackedExactly(encode, pack, volume, interval, stream);
    DataOfFlatten(bins);
    DataPermutes(Flatten(bins), Encodable(encode, stream));
    EncodableCounts(encode, stream, d);
  }

  lemma {:induction false} PacksAppend(a: seq<seq<EncodedRow>>, b: seq<seq<EncodedRow>>)
    ensures PacksOf(a + b) == PacksOf(a) + PacksOf(b)
  {
    if a == [] {
      assert a + b == b;
    } else {
      assert (a + b)[1..] == a[1..] + b;
      PacksAppend(a[1..], b);
    }
  }

  /** The bins of a finite stream: full rounds that carry their last bin over, then one final, shorter (perhaps empty)
      round. */
  function StreamBins(encode: Encoder, pack: Packer, interval: nat, stream: seq<Sample>,
                      carry: seq<EncodedRow>): seq<seq<EncodedRow>>
    requires interval > 0
    decreases |stream|
  {
    if |stream| < interval then MatchedGroup(pack, carry + Encodable(encode, stream), true).0
    else
      var group := MatchedGroup(pack, carry + Encodable(encode, stream[..interval]), false);
      group.0 + StreamBins(encode, pack, interval, stream[interval..], group.1)
  }

  /** `__iter__` over a finite, non-cyclic stream: what it yields does not depend on the workers' schedule. */
  method Iterate(numProc: nat, encode: Encoder, pack: Packer, ghost volume: nat, interval: nat, dataset: seq<Sample>)
    returns (yielded: seq<seq<int>>)
    requires numProc > 0 && interval > 0 && BinPacking(pack, volume)
    ensures var bins := StreamBins(encode, pack, interval, dataset, []);
            && |yielded| == |bins|
            && (forall k :: 0 <= k < |bins| ==> |yielded[k]| == |bins[k]|)
            && (forall k, i :: 0 <= k < |bins| && 0 <= i < |bins[k]| ==> yielded[k][i] == bins[k][i].data)
    ensures forall d :: multiset(Flatten(yielded))[d] == |EncodedAs(encode, dataset, d)|
  {
    yielded := YieldAll(numProc, encode, pack, interval, dataset);
    forall d {
      YieldedExactly(encode, pack, volume, interval, dataset, d);
    }
  }

  /** The generator loop. */
  method YieldAll(numProc: nat, encode: Encoder, pack: Packer, interval: nat, dataset: seq<Sample>)
    returns (yielded: seq<seq<int>>)
    requires numProc > 0 && interval > 0
    ensures yielded == PacksOf(StreamBins(encode, pack, interval, dataset, []))
  {
    hide StreamBins, PacksOf;
    yielded := [];
    if dataset == [] {
      NothingToPack(encode, pack, interval);
      return;
    }
    var rest, data := dataset, [];
    while true
      invariant yielded + PacksOf(StreamBins(encode, pack, interval, rest, data)) ==
                PacksOf(StreamBins(encode, pack, interval, dataset, []))
      decreases |rest|
    {
      var numSamples := if |rest| < interval then |rest| else interval;
      var samples := rest[..numSamples];
      RoundUnfolds(encode, pack, interval, rest, data);
      rest := rest[numSamples..];
      var finished := numSamples != interval;
      var received := RunPool(numProc, samples);
      data := FetchData(encode, data, samples, received);
      var group := MatchedGroup(pack, data, finished);
      data := group.1;
      yielded := yielded + PacksOf(group.0);
      if finished {
        break;
      }
    }
  }

  lemma NothingToPack(encode: Encoder, pack: Packer, interval: nat)
    requires interval > 0
    ensures PacksOf(StreamBins(encode, pack, interval, [], [])) == []
  {
  }

  lemma RoundUnfolds(encode: Encoder, pack: Packer, interval: nat, stream: seq<Sample>,
                     carry: seq<EncodedRow>)
    requires interval > 0
    ensures |stream| < interval ==>
              PacksOf(StreamBins(encode, pack, interval, stream, carry)) ==
              PacksOf(MatchedGroup(pack, carry + Encodable(encode, stream[..|stream|]), true).0)
    ensures |stream| >= interval ==>
              var group := MatchedGroup(pack, carry + Encodable(encode, stream[..interval]), false);
              PacksOf(StreamBins(encode, pack, interval, stream, carry)) ==
              PacksOf(group.0) + PacksOf(StreamBins(encode, pack, interval, stream[interval..], group.1))
  {
    if |stream| < interval {
      assert stream[..|stream|] == stream;
    } else {
      var group := MatchedGroup(pack, carry + Encodable(encode, stream[..interval]), false);
      PacksAppend(group.0, StreamBins(encode, pack, interval, stream[interval..], group.1));
    }
  }

  // ----- conservation -----

  lemma {:induction false} StreamPacksRow(encode: Encoder, pack: Packer, volume: nat,
                                          interval: nat, stream: seq<Sample>, carry: seq<EncodedRow>, x: EncodedRow)
    requires BinPacking(pack, volume) && interval > 0
    ensures multiset(Flatten(StreamBins(encode, pack, interval, stream, carry)))[x] ==
            multiset(carry)[x] + multiset(Encodable(encode, stream))[x]
    decreases |stream|
  {
    hide BinPacking, MatchedGroup, Encodable, Flatten;
    if |stream| < interval {
      var group := MatchedGroup(pack, carry + Encodable(encode, stream), true);
      MatchedGroupConserves(pack, volume, carry + Encodable(encode, stream), true);
      assert (multiset(Flatten(group.0)) + multiset(group.1))[x] == multiset(carry + Encodable(encode, stream))[x];
    } else {
      var input := carry + Encodable(encode, stream[..interval]);
      var group := MatchedGroup(pack, input, false);
      MatchedGroupConserves(pack, volume, input, false);
      StreamPacksRow(encode, pack, volume, interval, stream[interval..], group.1, x);
      FlattenAppend(group.0, StreamBins(encode, pack, interval, stream[interval..], group.1));
      EncodableAppend(encode, stream[..interval], stream[interval..]);
      assert stream == stream[..interval] + stream[interval..];
      assert (multiset(Flatten(group.0)) + multiset(group.1))[x] == multiset(input)[x];
    }
  }

  /** Conservation: over a finite stream of any length, exact multiples of the interval included, every encodable
      sample is in exactly one of the packs yielded, and no pack exceeds the volume when every sample fits. */
  lemma StreamIsPackedExactly(encode: Encoder, pack: Packer, volume: nat, interval: nat,
                              stream: seq<Sample>)
    requires BinPacking(pack, volume) && interval > 0
    ensures var bins := StreamBins(encode, pack, interval, stream, []);
            && multiset(Flatten(bins)) == multiset(Encodable(encode, stream))
            && ((forall x :: x in Encodable(encode, stream) ==> x.len <= volume) ==>
                  forall b :: b in bins ==> Volume(b) <= volume)
  {
    forall x {
      StreamPacksRow(encode, pack, volume, interval, stream, [], x);
    }
    if forall x :: x in Encodable(encode, stream) ==> x.len <= volume {
      StreamWithinVolume(encode, pack, volume, interval, stream, []);
    }
  }

  /** Packing keeps up with the stream: after any number of full rounds exactly one bin is held back, if anything could
      be encoded so far. */
  lemma {:induction false} RoundsKeepUp(encode: Encoder, pack: Packer, volume: nat, interval: nat, stream: seq<Sample>,
                                        carry: seq<EncodedRow>, rounds: nat)
    returns (n: nat, held: seq<EncodedRow>)
    requires BinPacking(pack, volume) && interval > 0 && rounds * interval <= |stream|
    ensures var bins := StreamBins(encode, pack, interval, stream, carry);
            && n <= |bins|
            && multiset(Flatten(bins[..n])) + multiset(held) ==
               multiset(carry) + multiset(Encodable(encode, stream[..rounds * interval]))
            && bins[n..] == StreamBins(encode, pack, interval, stream[rounds * interval..], held)
    ensures Volume(carry) <= volume && Fits(carry, volume) && Fits(Encodable(encode, stream), volume) ==>
              Volume(held) <= volume && Fits(held, volume)
    ensures held == [] <==> carry == [] && Encodable(encode, stream[..rounds * interval]) == []
    decreases rounds
  {
    hide BinPacking, MatchedGroup, Encodable, Flatten, Volume, StreamBins;
    var bins := StreamBins(encode, pack, interval, stream, carry);
    if rounds == 0 {
      n, held := 0, carry;
      NothingRead(encode);
      assert bins[..0] == [] && bins[0..] == bins && stream[..0] == [] && stream[0..] == stream;
    } else {
      RoundFits(rounds, interval, |stream|);
      var first, rest := stream[..interval], stream[interval..];
      var input := carry + Encodable(encode, first);
      var group := MatchedGroup(pack, input, false);
      StreamUnfolds(encode, pack, interval, stream, carry);
      MatchedGroupConserves(pack, volume, input, false);
      EncodableAppend(encode, first, rest);
      assert stream == first + rest;
      if Fits(carry, volume) && Fits(Encodable(encode, stream), volume) {
        MatchedGroupWithinVolume(pack, volume, input, false);
      }
      var m;
      m, held := RoundsKeepUp(encode, pack, volume, interval, rest, group.1, rounds - 1);
      n := |group.0| + m;
      var more := StreamBins(encode, pack, interval, rest, group.1);
      assert bins[..n] == group.0 + more[..m] && bins[n..] == more[m..];
      FlattenAppend(group.0, more[..m]);
      var last := (rounds - 1) * interval;
      EncodableAppend(encode, first, rest[..last]);
      assert stream[..rounds * interval] == first + rest[..last];
      assert stream[rounds * interval..] == rest[last..];
      SumsMove(multiset(Flatten(group.0)), multiset(Flatten(more[..m])), multiset(held), multiset(group.1),
               multiset(carry), multiset(Encodable(encode, first)), multiset(Encodable(encode, rest[..last])));
    }
  }

  ghost predicate Fits(rows: seq<EncodedRow>, volume: nat) {
    forall x :: x in rows ==> x.len <= volume
  }

  lemma NothingRead(encode: Encoder)
    ensures Encodable(encode, []) == [] && Flatten<EncodedRow>([]) == []
  {
  }

  lemma RoundFits(rounds: nat, interval: nat, size: nat)
    requires rounds > 0 && rounds * interval <= size
    ensures interval <= size && (rounds - 1) * interval == rounds * interval - interval
  {
    assert (rounds - 1) * interval >= 0;
  }

  lemma StreamUnfolds(encode: Encoder, pack: Packer, interval: nat, stream: seq<Sample>, carry: seq<EncodedRow>)
    requires 0 < interval <= |stream|
    ensures var group := MatchedGroup(pack, carry + Encodable(encode, stream[..interval]), false);
            StreamBins(encode, pack, interval, stream, carry) ==
            group.0 + StreamBins(encode, pack, interval, stream[interval..], group.1)
  {
  }

  lemma {:induction false} StreamWithinVolume(encode: Encoder, pack: Packer, volume: nat,
                                              interval: nat, stream: seq<Sample>, carry: seq<EncodedRow>)
    requires BinPacking(pack, volume) && interval > 0
    requires forall x :: x in carry ==> x.len <= volume
    requires forall x :: x in Encodable(encode, stream) ==> x.len <= volume
    ensures forall b :: b in StreamBins(encode, pack, interval, stream, carry) ==> Volume(b) <= volume
    decreases |stream|
  {
    hide BinPacking, MatchedGroup, Encodable, Volume;
    if |stream| < interval {
      MatchedGroupWithinVolume(pack, volume, carry + Encodable(encode, stream), true);
    } else {
      EncodableAppend(encode, stream[..interval], stream[interval..]);
      assert stream == stream[..interval] + stream[interval..];
      var input := carry + Encodable(encode, stream[..interval]);
      MatchedGroupWithinVolume(pack, volume, input, false);
      StreamWithinVolume(encode, pack, volume, interval, stream[interval..], MatchedGroup(pack, input, false).1);
    }
  }
}
