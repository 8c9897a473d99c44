/** Offline packing: parallel workers pack chunks of the dataset, and a collector gathers their messages. */
module PackingDataset {
  import opened Sequences
  import opened Packing

  type IndexRow = Row<int>

  type Packer = seq<IndexRow> -> seq<seq<IndexRow>>

  /** A dataset length entry; a list counts with its sum. */
  datatype Length = One(n: nat) | Many(ns: seq<nat>)

  function Sum(ns: seq<nat>): nat {
    if ns == [] then 0 else ns[0] + Sum(ns[1..])
  }

  function Total(l: Length): nat {
    match l case One(n) => n case Many(ns) => Sum(ns)
  }

  /** A list counts with the sum of its parts, in whatever order: one part counts as itself, two lists together as
      both. */
  lemma {:induction false} SumAdds(a: seq<nat>, b: seq<nat>, n: nat)
    ensures Total(Many(a + b)) == Total(Many(a)) + Total(Many(b)) && Total(Many([n])) == Total(One(n)) == n
  {
    assert [n][1..] == [];
    if a == [] {
      assert a + b == b;
    } else {
      assert (a + b)[1..] == a[1..] + b;
      SumAdds(a[1..], b, n);
    }
  }

  function Rows(offset: nat, lengths: seq<Length>): (r: seq<IndexRow>)
    ensures |r| == |lengths|
    ensures forall i :: 0 <= i < |r| ==> r[i] == Row(offset + i, Total(lengths[i]))
  {
    seq(|lengths|, i requires 0 <= i < |lengths| => Row(offset + i, Total(lengths[i])))
  }

  /** (rank, sequences, number of rows taken); a count of -1 announces the end of the worker. */
  datatype Message = Message(rank: nat, bins: seq<seq<IndexRow>>, dataLen: int)

  // ----- one worker -----

  function Slice<T>(s: seq<T>, from: nat, to: nat): seq<T> {
    if from >= |s| then [] else if to > |s| then s[from..] else if to < from then [] else s[from..to]
  }

  /** The messages of a worker from position `i` on, with `carry` left over. */
  function WorkerMessages(rank: nat, pack: Packer, batchSize: nat, data: seq<IndexRow>,
                          i: nat, carry: seq<IndexRow>): seq<Message>
    requires batchSize > 0
    decreases if i < |data| then |data| - i else 0, |carry|
  {
    var newData := Slice(data, i, i + batchSize);
    var input := carry + newData;
    if input == [] then [Message(rank, [], -1)]
    else
      var group := MatchedGroup(pack, input, i + batchSize >= |data|);
      [Message(rank, group.0, |newData|)] + WorkerMessages(rank, pack, batchSize, data, i + batchSize, group.1)
  }

  /** `create_packed_idx`. */
  method CreatePackedIdx(rank: nat, pack: Packer, batchSize: nat, offset: nat,
                         lengths: seq<Length>)
    returns (out: seq<Message>)
    requires batchSize > 0
    ensures out == WorkerMessages(rank, pack, batchSize, Rows(offset, lengths), 0, [])
  {
    var data := Rows(offset, lengths);
    hide WorkerMessages;
    var i, inputData := 0, [];
    out := [];
    while true
      invariant out + WorkerMessages(rank, pack, batchSize, data, i, inputData) ==
                WorkerMessages(rank, pack, batchSize, data, 0, [])
      decreases if i < |data| then |data| - i else 0, |inputData|
    {
      var newData := Slice(data, i, i + batchSize);
      ghost var carry := inputData;
      inputData := inputData + newData;
      StepMessages(rank, pack, batchSize, data, i, carry);
      if inputData == [] {
        break;
      }
      var isFinished := i + batchSize >= |data|;
      var group := MatchedGroup(pack, inputData, isFinished);
      i := i + batchSize;
      inputData := group.1;
      var message := Message(rank, group.0, |newData|);
      AppendAssociates(out, [message], WorkerMessages(rank, pack, batchSize, data, i, inputData));
      out := out + [message];
    }
    out := out + [Message(rank, [], -1)];
  }

  lemma AppendAssociates<T>(a: seq<T>, b: seq<T>, c: seq<T>)
    ensures a + (b + c) == a + b + c
  {
  }

  lemma StepMessages(rank: nat, pack: Packer, batchSize: nat, data: seq<IndexRow>,
                     i: nat, carry: seq<IndexRow>)
    requires batchSize > 0
    ensures var input := carry + Slice(data, i, i + batchSize);
            var group := MatchedGroup(pack, input, i + batchSize >= |data|);
            WorkerMessages(rank, pack, batchSize, data, i, carry) ==
            if input == [] then [Message(rank, [], -1)]
            else [Message(rank, group.0, |Slice(data, i, i + batchSize)|)] +
                 WorkerMessages(rank, pack, batchSize, data, i + batchSize, group.1)
    ensures i >= |data| ==>
              var input := carry + Slice(data, i, i + batchSize);
              input == carry && MatchedGroup(pack, input, true).1 == []
  {
  }

  /** All bins announced by a list of messages. */
  function Bins(messages: seq<Message>): seq<seq<IndexRow>> {
    if messages == [] then [] else messages[0].bins + Bins(messages[1..])
  }

  lemma {:induction false} BinsAppend(a: seq<Message>, b: seq<Message>)
    ensures Bins(a + b) == Bins(a) + Bins(b)
  {
    if a == [] {
      assert a + b == b;
    } else {
      assert (a + b)[1..] == a[1..] + b;
      BinsAppend(a[1..], b);
    }
  }

  ghost predicate WithinVolume(rows: seq<IndexRow>, volume: nat) {
    forall x :: x in rows ==> x.len <= volume
  }

  /** Only the last message of a worker is an end marker. */
  ghost predicate EndsOnce(messages: seq<Message>, rank: nat) {
    && messages != []
    && (forall k :: 0 <= k < |messages| ==> messages[k].rank == rank)
    && (forall k :: 0 <= k < |messages| ==> (messages[k].dataLen == -1 <==> k == |messages| - 1))
    && messages[|messages| - 1].bins == []
  }

  /** How often row `x` occurs among the packed rows. */
  lemma {:induction false} WorkerPacksRow(rank: nat, pack: Packer, volume: nat, batchSize: nat,
                                          data: seq<IndexRow>, i: nat, carry: seq<IndexRow>, x: IndexRow)
    requires BinPacking(pack, volume) && batchSize > 0
    ensures multiset(Flatten(Bins(WorkerMessages(rank, pack, batchSize, data, i, carry))))[x] ==
            multiset(carry)[x] + multiset(Slice(data, i, |data|))[x]
    decreases if i < |data| then |data| - i else 0, |carry|
  {
    hide WorkerMessages, MatchedGroup, Slice, BinPacking, Bins, Flatten;
    var newData := Slice(data, i, i + batchSize);
    var input := carry + newData;
    SliceSplits(data, i, i + batchSize);
    StepMessages(rank, pack, batchSize, data, i, carry);
    if input != [] {
      var finished := i + batchSize >= |data|;
      var group := MatchedGroup(pack, input, finished);
      MatchedGroupConserves(pack, volume, input, finished);
      WorkerPacksRow(rank, pack, volume, batchSize, data, i + batchSize, group.1, x);
      var rest := WorkerMessages(rank, pack, batchSize, data, i + batchSize, group.1);
      CountCons(Message(rank, group.0, |newData|), rest, x);
      CountSum(multiset(Flatten(group.0)), multiset(group.1), multiset(input), x);
      CountSum(multiset(carry), multiset(newData), multiset(input), x);
    } else {
      OneMessage(Message(rank, [], -1));
      NothingCounted(x);
    }
  }

  lemma CountSum(a: multiset<IndexRow>, b: multiset<IndexRow>, c: multiset<IndexRow>, x: IndexRow)
    requires a + b == c
    ensures a[x] + b[x] == c[x]
  {
  }

  lemma NothingCounted(x: IndexRow)
    ensures multiset(Flatten<IndexRow>([]))[x] == 0
  {
  }

  lemma CountCons(m: Message, rest: seq<Message>, x: IndexRow)
    ensures multiset(Flatten(Bins([m] + rest)))[x] ==
            multiset(Flatten(m.bins))[x] + multiset(Flatten(Bins(rest)))[x]
  {
    hide Bins, Flatten;
    BinsAppend([m], rest);
    OneMessage(m);
    FlattenAppend(m.bins, Bins(rest));
  }

  /** A worker's bins hold its carry and the rest of its rows, each once, whatever the packing; its loop ends, although
      every round but the last puts a bin back. */
  lemma WorkerConserves(rank: nat, pack: Packer, volume: nat, batchSize: nat, data: seq<IndexRow>)
    requires BinPacking(pack, volume) && batchSize > 0
    ensures multiset(Flatten(Bins(WorkerMessages(rank, pack, batchSize, data, 0, [])))) == multiset(data)
  {
    forall x {
      WorkerPacksRow(rank, pack, volume, batchSize, data, 0, [], x);
    }
    assert Slice(data, 0, |data|) == data;
  }

  lemma OneMessage(m: Message)
    ensures Bins([m]) == m.bins
  {
  }

  lemma SliceSplits<T>(s: seq<T>, from: nat, mid: nat)
    requires from <= mid
    ensures multiset(Slice(s, from, |s|)) == multiset(Slice(s, from, mid)) + multiset(Slice(s, mid, |s|))
    ensures Slice(s, from, mid) == [] && from < mid ==> Slice(s, from, |s|) == []
    ensures forall x :: x in Slice(s, from, mid) ==> x in s
  {
    assert Slice(s, from, |s|) == Slice(s, from, mid) + Slice(s, mid, |s|);
  }

  lemma {:induction false} WorkerEndsOnce(rank: nat, pack: Packer, batchSize: nat,
                                          data: seq<IndexRow>, i: nat, carry: seq<IndexRow>)
    requires batchSize > 0
    ensures EndsOnce(WorkerMessages(rank, pack, batchSize, data, i, carry), rank)
    decreases if i < |data| then |data| - i else 0, |carry|
  {
    hide WorkerMessages, MatchedGroup, Slice, EndsOnce;
    var newData := Slice(data, i, i + batchSize);
    var input := carry + newData;
    StepMessages(rank, pack, batchSize, data, i, carry);
    if input != [] {
      var group := MatchedGroup(pack, input, i + batchSize >= |data|);
      WorkerEndsOnce(rank, pack, batchSize, data, i + batchSize, group.1);
      var rest := WorkerMessages(rank, pack, batchSize, data, i + batchSize, group.1);
      EndsOnceCons(Message(rank, group.0, |newData|), rest, rank);
    } else {
      EndMarkerEnds(rank);
    }
  }

  lemma EndMarkerEnds(rank: nat)
    ensures EndsOnce([Message(rank, [], -1)], rank)
  {
  }

  lemma EndsOnceCons(m: Message, rest: seq<Message>, rank: nat)
    requires EndsOnce(rest, rank) && m.rank == rank && m.dataLen != -1
    ensures EndsOnce([m] + rest, rank)
  {
  }

  /** The rows taken over all messages but the end marker. */
  function Taken(messages: seq<Message>): int {
    if messages == [] then 0 else (if messages[0].dataLen < 0 then 0 else messages[0].dataLen) + Taken(messages[1..])
  }

  /** A worker announces its rows portion by portion: no message more than `batchSize`, all together what is left. */
  lemma {:induction false} WorkerProgress(rank: nat, pack: Packer, batchSize: nat, data: seq<IndexRow>, i: nat,
                                          carry: seq<IndexRow>)
    requires batchSize > 0
    ensures var messages := WorkerMessages(rank, pack, batchSize, data, i, carry);
            && Taken(messages) == (if i < |data| then |data| - i else 0)
            && forall k :: 0 <= k < |messages| ==> messages[k].dataLen <= batchSize
    decreases if i < |data| then |data| - i else 0, |carry|
  {
    hide WorkerMessages, MatchedGroup;
    var newData := Slice(data, i, i + batchSize);
    var input := carry + newData;
    StepMessages(rank, pack, batchSize, data, i, carry);
    if input != [] {
      var group := MatchedGroup(pack, input, i + batchSize >= |data|);
      WorkerProgress(rank, pack, batchSize, data, i + batchSize, group.1);
    }
  }

  /** ... and as long as a full portion is to come, each portion is full. */
  lemma WorkerPortions(rank: nat, pack: Packer, batchSize: nat, data: seq<IndexRow>, i: nat, carry: seq<IndexRow>)
    requires batchSize > 0 && i + batchSize <= |data|
    ensures var messages := WorkerMessages(rank, pack, batchSize, data, i, carry);
            messages != [] && messages[0].dataLen == batchSize
  {
    hide WorkerMessages, MatchedGroup;
    StepMessages(rank, pack, batchSize, data, i, carry);
  }

  /** How many portions of a size there are. */
  function Portions(rows: int, batchSize: nat): nat
    requires batchSize > 0
    decreases if rows > 0 then rows else 0
  {
    if rows <= 0 then 0 else 1 + Portions(rows - batchSize, batchSize)
  }

  /** One message for every portion, and the end marker: with the last portion nothing is held back any more. */
  lemma {:induction false} WorkerRounds(rank: nat, pack: Packer, batchSize: nat, data: seq<IndexRow>, i: nat,
                                        carry: seq<IndexRow>)
    requires batchSize > 0 && (i < |data| || carry == [])
    ensures |WorkerMessages(rank, pack, batchSize, data, i, carry)| == Portions(|data| - i, batchSize) + 1
    decreases if i < |data| then |data| - i else 0
  {
    hide WorkerMessages, MatchedGroup, Slice;
    StepMessages(rank, pack, batchSize, data, i, carry);
    if i < |data| {
      LastHoldsNothing(pack, carry + Slice(data, i, i + batchSize));
      SomeRows(data, i, i + batchSize);
      var group := MatchedGroup(pack, carry + Slice(data, i, i + batchSize), i + batchSize >= |data|);
      WorkerRounds(rank, pack, batchSize, data, i + batchSize, group.1);
    } else {
      NoRows(data, i, i + batchSize);
    }
  }

  lemma LastHoldsNothing(pack: Packer, rows: seq<IndexRow>)
    ensures MatchedGroup(pack, rows, true).1 == []
  {
  }

  lemma SomeRows(data: seq<IndexRow>, i: nat, next: nat)
    requires i < |data| && i < next
    ensures Slice(data, i, next) != []
  {
  }

  lemma NoRows(data: seq<IndexRow>, i: nat, next: nat)
    requires i >= |data|
    ensures Slice(data, i, next) == []
  {
  }

  /** As long as rows are to come, a worker holds exactly one bin back after every portion: all it has taken but those
      rows are announced. */
  lemma {:induction false} WorkerHoldsBack(rank: nat, pack: Packer, volume: nat, batchSize: nat, data: seq<IndexRow>,
                                           i: nat, carry: seq<IndexRow>, k: nat) returns (held: seq<IndexRow>)
    requires BinPacking(pack, volume) && batchSize > 0 && i + k * batchSize < |data|
    ensures var messages := WorkerMessages(rank, pack, batchSize, data, i, carry);
            && k <= |messages|
            && messages[k..] == WorkerMessages(rank, pack, batchSize, data, i + k * batchSize, held)
            && multiset(Flatten(Bins(messages[..k]))) + multiset(held) ==
               multiset(carry) + multiset(Slice(data, i, i + k * batchSize))
    ensures held == [] <==> k == 0 && carry == []
    decreases k
  {
    hide WorkerMessages, MatchedGroup, BinPacking, Bins, Flatten, Slice;
    var messages := WorkerMessages(rank, pack, batchSize, data, i, carry);
    if k == 0 {
      held := carry;
      NothingSent(data, i);
      assert messages[..0] == [] && messages[0..] == messages;
    } else {
      PortionFits(i, k, batchSize, |data|);
      var next, last := i + batchSize, i + k * batchSize;
      var newData := Slice(data, i, next);
      var input := carry + newData;
      SlicesJoin(data, i, next, last);
      StepMessages(rank, pack, batchSize, data, i, carry);
      var group := MatchedGroup(pack, input, false);
      MatchedGroupConserves(pack, volume, input, false);
      held := WorkerHoldsBack(rank, pack, volume, batchSize, data, next, group.1, k - 1);
      var first := Message(rank, group.0, |newData|);
      var rest := WorkerMessages(rank, pack, batchSize, data, next, group.1);
      MessagesSplit(first, rest, k);
      SentAlso(first, rest[..k - 1]);
      SumsMove(multiset(Flatten(group.0)), multiset(Flatten(Bins(rest[..k - 1]))), multiset(held), multiset(group.1),
               multiset(carry), multiset(newData), multiset(Slice(data, next, last)));
    }
  }

  lemma NothingSent(data: seq<IndexRow>, i: nat)
    ensures Bins([]) == [] && Flatten<IndexRow>([]) == [] && Slice(data, i, i) == []
  {
  }

  lemma SlicesJoin(data: seq<IndexRow>, i: nat, next: nat, last: nat)
    requires i < next <= last < |data|
    ensures Slice(data, i, next) != [] && Slice(data, i, last) == Slice(data, i, next) + Slice(data, next, last)
  {
  }

  lemma MessagesSplit(first: Message, rest: seq<Message>, k: nat)
    requires 0 < k <= |rest| + 1
    ensures ([first] + rest)[..k] == [first] + rest[..k - 1] && ([first] + rest)[k..] == rest[k - 1..]
  {
  }

  lemma SentAlso(m: Message, rest: seq<Message>)
    ensures Flatten(Bins([m] + rest)) == Flatten(m.bins) + Flatten(Bins(rest))
  {
    hide Bins, Flatten;
    BinsAppend([m], rest);
    OneMessage(m);
    FlattenAppend(m.bins, Bins(rest));
  }

  lemma PortionFits(i: nat, k: nat, batchSize: nat, size: nat)
    requires k > 0 && i + k * batchSize < size
    ensures i + batchSize < size && i + batchSize + (k - 1) * batchSize == i + k * batchSize
  {
    assert (k - 1) * batchSize == k * batchSize - batchSize;
    assert (k - 1) * batchSize >= 0;
  }

  lemma {:induction false} WorkerWithinVolume(rank: nat, pack: Packer, volume: nat, batchSize: nat,
                                              data: seq<IndexRow>, i: nat, carry: seq<IndexRow>)
    requires BinPacking(pack, volume) && batchSize > 0
    requires WithinVolume(carry, volume) && WithinVolume(data, volume)
    ensures forall b :: b in Bins(WorkerMessages(rank, pack, batchSize, data, i, carry)) ==> Volume(b) <= volume
    decreases if i < |data| then |data| - i else 0, |carry|
  {
    hide WorkerMessages, MatchedGroup, Slice, BinPacking, Bins, Volume, WithinVolume;
    var newData := Slice(data, i, i + batchSize);
    var input := carry + newData;
    StepMessages(rank, pack, batchSize, data, i, carry);
    OneMessage(Message(rank, [], -1));
    if input != [] {
      var finished := i + batchSize >= |data|;
      var group := MatchedGroup(pack, input, finished);
      InputWithin(data, i, i + batchSize, carry, volume);
      GroupWithin(pack, volume, input, finished);
      WorkerWithinVolume(rank, pack, volume, batchSize, data, i + batchSize, group.1);
      var rest := WorkerMessages(rank, pack, batchSize, data, i + batchSize, group.1);
      BinsAppend([Message(rank, group.0, |newData|)], rest);
      OneMessage(Message(rank, group.0, |newData|));
    }
  }

  lemma InputWithin(data: seq<IndexRow>, from: nat, to: nat, carry: seq<IndexRow>, volume: nat)
    requires WithinVolume(carry, volume) && WithinVolume(data, volume) && from <= to
    ensures WithinVolume(carry + Slice(data, from, to), volume)
  {
    SliceSplits(data, from, to);
    hide Slice;
  }

  lemma GroupWithin(pack: Packer, volume: nat, input: seq<IndexRow>, finished: bool)
    requires BinPacking(pack, volume) && WithinVolume(input, volume)
    ensures var group := MatchedGroup(pack, input, finished);
            (forall b :: b in group.0 ==> Volume(b) <= volume) && WithinVolume(group.1, volume)
  {
    hide MatchedGroup, Volume, BinPacking;
    MatchedGroupWithinVolume(pack, volume, input, finished);
  }
}
