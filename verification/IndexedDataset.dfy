/** The sharded binary dataset: the writer, and the reader that finds items by bisection. */
module IndexedDataset {
  import opened Wrappers
  import opened Sequences
  import opened Bisect

  type Byte = b: int | 0 <= b < 256 witness 0

  /** An item as the writer sees it: its pickle and its `length` entry. */
  datatype Pickled = Pickled(bytes: seq<Byte>, length: int)

  /** The files and index lists of the builder; the last bin file is the open one. */
  datatype Shards = Shards(bins: seq<seq<Byte>>, idx: seq<nat>, lengths: seq<int>, shardOffset: seq<nat>)

  const NO_ITEMS: Shards := Shards([[]], [0], [], [0])

  function Last<U>(s: seq<U>): U
    requires s != []
  {
    s[|s| - 1]
  }

  predicate Usable(s: Shards) { s.bins != [] && s.idx != [] && s.shardOffset != [] }

  /** One item: its bytes go to the open file, its end position and length to the lists. */
  function WriteItem(s: Shards, x: Pickled): Shards
    requires Usable(s)
  {
    s.(bins := s.bins[|s.bins| - 1 := Last(s.bins) + x.bytes],
       idx := s.idx + [Last(s.idx) + |x.bytes|],
       lengths := s.lengths + [x.length])
  }

  function WriteItems(s: Shards, items: seq<Pickled>): (r: Shards)
    requires Usable(s)
    ensures Usable(r)
    decreases |items|
  {
    if items == [] then s else WriteItem(WriteItems(s, items[..|items| - 1]), Last(items))
  }

  /** After a batch, a file that reached the chunk size is closed and an empty one opened. */
  function Roll(s: Shards, chunkSize: nat): (r: Shards)
    requires Usable(s)
    ensures Usable(r)
  {
    if Last(s.idx) - Last(s.shardOffset) >= chunkSize
    then s.(bins := s.bins + [[]], shardOffset := s.shardOffset + [Last(s.idx)])
    else s
  }

  function WriteBatch(chunkSize: nat, s: Shards, items: seq<Pickled>): (r: Shards)
    requires Usable(s)
    ensures Usable(r)
  {
    Roll(WriteItems(s, items), chunkSize)
  }

  /** What the files hold once a list of batches has been written. */
  function WriteAll(chunkSize: nat, batches: seq<seq<Pickled>>): (s: Shards)
    ensures Usable(s)
    decreases |batches|
  {
    if batches == [] then NO_ITEMS
    else WriteBatch(chunkSize, WriteAll(chunkSize, batches[..|batches| - 1]), Last(batches))
  }

  // ----- reading -----

  function IntLess(): (int, int) -> bool { (x: int, y: int) => x < y }

  /** `BinReader.read_buffer`; an empty file has no memory map. */
  function ReadBuffer(bin: seq<Byte>, offset: int, size: int): Option<seq<Byte>> {
    if offset < 0 || size < 0 || bin == [] || offset + size > |bin| then None else Some(bin[offset..offset + size])
  }

  /** The number of items of the dataset. */
  function Length(s: Shards): int { |s.idx| - 1 }

  function ReadAt(s: Shards, i: nat): Option<seq<Byte>> {
    if i + 1 >= |s.idx| then None
    else
      var numShard := BisectRight(s.shardOffset, s.idx[i], IntLess());
      if numShard == 0 || numShard > |s.shardOffset| || numShard > |s.bins| then None
      else
        var offset: int := s.shardOffset[numShard - 1];
        ReadBuffer(s.bins[numShard - 1], s.idx[i] - offset, s.idx[i + 1] as int - s.idx[i])
  }

  /** The pickle behind `dataset[index]`; None stands for the exceptions of an empty dataset, a bad index or read. */
  function Get(s: Shards, index: int): Option<seq<Byte>> {
    if index >= 0 then ReadAt(s, index)
    else if Length(s) <= 0 then None
    else ReadAt(s, index % Length(s))
  }

  // ----- the representation invariant -----

  function Bytes(items: seq<Pickled>): seq<Byte>
    decreases |items|
  {
    if items == [] then [] else Bytes(items[..|items| - 1]) + Last(items).bytes
  }

  function ShardEnd(s: Shards, k: nat, total: nat): nat
    requires k < |s.shardOffset|
  {
    if k + 1 < |s.shardOffset| then s.shardOffset[k + 1] else total
  }

  /** `idx` holds the item boundaries in the concatenation of all pickles, `lengths` the items' lengths. */
  ghost predicate IndexOk(s: Shards, items: seq<Pickled>) {
    && |s.idx| == |items| + 1 && |s.lengths| == |items|
    && (forall i :: 0 <= i <= |items| ==> s.idx[i] == |Bytes(items[..i])|)
    && (forall i :: 0 <= i < |items| ==> s.lengths[i] == items[i].length)
  }

  /** Shard offsets are item boundaries, starting at 0 and growing strictly. */
  ghost predicate OffsetsOk(s: Shards) {
    && |s.bins| == |s.shardOffset| > 0
    && s.shardOffset[0] == 0
    && (forall k :: 0 <= k < |s.shardOffset| ==> s.shardOffset[k] in s.idx)
    && (forall j, k :: 0 <= j < k < |s.shardOffset| ==> s.shardOffset[j] < s.shardOffset[k])
  }

  /** Each file holds the stretch of the concatenation between two shard offsets. */
  ghost predicate BinsHold(s: Shards, data: seq<Byte>) {
    && |s.bins| == |s.shardOffset|
    && forall k :: 0 <= k < |s.bins| ==>
         s.shardOffset[k] <= ShardEnd(s, k, |data|) <= |data| &&
         s.bins[k] == data[s.shardOffset[k]..ShardEnd(s, k, |data|)]
  }

  lemma {:induction false} BytesPrefix(items: seq<Pickled>, i: nat)
    requires i <= |items|
    ensures |Bytes(items[..i])| <= |Bytes(items)|
    ensures Bytes(items)[..|Bytes(items[..i])|] == Bytes(items[..i])
    decreases |items|
  {
    if i < |items| {
      BytesPrefix(items[..|items| - 1], i);
      assert items[..|items| - 1][..i] == items[..i];
    } else {
      assert items[..i] == items;
    }
  }

  /** The bytes of item `i` lie between positions `i` and `i + 1`. */
  lemma ItemBytes(s: Shards, items: seq<Pickled>, i: nat)
    requires IndexOk(s, items) && i < |items|
    ensures s.idx[i] <= s.idx[i + 1] <= |Bytes(items)| && Bytes(items)[s.idx[i]..s.idx[i + 1]] == items[i].bytes
  {
    BytesPrefix(items, i);
    BytesPrefix(items, i + 1);
    assert items[..i + 1][..i] == items[..i];
    var hi := |Bytes(items[..i + 1])|;
    assert Bytes(items)[..hi] == Bytes(items[..i]) + items[i].bytes;
  }

  lemma IndexGrows(s: Shards, items: seq<Pickled>, x: Pickled)
    requires Usable(s) && IndexOk(s, items)
    ensures IndexOk(WriteItem(s, x), items + [x])
    ensures Bytes(items + [x]) == Bytes(items) + x.bytes
  {
    var items' := items + [x];
    var s' := WriteItem(s, x);
    assert items'[..|items|] == items == items[..|items|];
    forall i | 0 <= i <= |items'|
      ensures s'.idx[i] == |Bytes(items'[..i])|
    {
      if i <= |items| {
        assert items'[..i] == items[..i];
      } else {
        assert items'[..i] == items';
      }
    }
  }

  lemma BinsGrow(s: Shards, data: seq<Byte>, more: seq<Byte>, s': Shards)
    requires s.bins != [] && BinsHold(s, data)
    requires s'.bins == s.bins[|s.bins| - 1 := Last(s.bins) + more] && s'.shardOffset == s.shardOffset
    ensures BinsHold(s', data + more)
  {
    forall k | 0 <= k < |s'.bins|
      ensures s'.shardOffset[k] <= ShardEnd(s', k, |data + more|) <= |data + more|
      ensures s'.bins[k] == (data + more)[s'.shardOffset[k]..ShardEnd(s', k, |data + more|)]
    {
      assert s.bins[k] == data[s.shardOffset[k]..ShardEnd(s, k, |data|)];
    }
  }

  lemma OffsetsKept(s: Shards, s': Shards, end: nat)
    requires OffsetsOk(s) && |s'.bins| == |s.bins| && s'.shardOffset == s.shardOffset && s'.idx == s.idx + [end]
    ensures OffsetsOk(s')
  {
    forall k | 0 <= k < |s'.shardOffset|
      ensures s'.shardOffset[k] in s'.idx
    {
      assert s.shardOffset[k] in s.idx;
    }
  }

  /** The three parts of the representation invariant. */
  ghost predicate Holds(s: Shards, items: seq<Pickled>) {
    IndexOk(s, items) && OffsetsOk(s) && BinsHold(s, Bytes(items))
  }

  lemma WriteItemKeeps(s: Shards, items: seq<Pickled>, x: Pickled)
    requires Usable(s) && Holds(s, items)
    ensures Holds(WriteItem(s, x), items + [x])
  {
    hide IndexOk, OffsetsOk, BinsHold, Bytes;
    IndexGrows(s, items, x);
    BinsGrow(s, Bytes(items), x.bytes, WriteItem(s, x));
    OffsetsKept(s, WriteItem(s, x), Last(s.idx) + |x.bytes|);
  }

  lemma WriteItemsStep(s: Shards, items: seq<Pickled>)
    requires Usable(s) && items != []
    ensures WriteItems(s, items) == WriteItem(WriteItems(s, items[..|items| - 1]), Last(items))
  {
    hide WriteItem;
  }

  lemma NoItems(s: Shards, before: seq<Pickled>)
    requires Usable(s)
    ensures WriteItems(s, []) == s && before + [] == before
  {
  }

  lemma Regroup(before: seq<Pickled>, init: seq<Pickled>, x: Pickled)
    ensures before + (init + [x]) == before + init + [x]
  {
  }

  lemma {:induction false} WriteItemsKeeps(s: Shards, before: seq<Pickled>, items: seq<Pickled>)
    requires Usable(s) && Holds(s, before)
    ensures Holds(WriteItems(s, items), before + items)
    decreases |items|
  {
    hide Holds, WriteItems, WriteItem;
    if items == [] {
      NoItems(s, before);
    } else {
      var init, x := items[..|items| - 1], Last(items);
      WriteItemsKeeps(s, before, init);
      WriteItemKeeps(WriteItems(s, init), before + init, x);
      WriteItemsStep(s, items);
      assert items == init + [x];
      Regroup(before, init, x);
    }
  }

  /** Items only go to the open file, byte by byte as the index counts them. */
  lemma {:induction false} WriteItemsShape(s: Shards, items: seq<Pickled>)
    requires Usable(s)
    ensures var s' := WriteItems(s, items);
            && |s'.bins| == |s.bins| && s'.shardOffset == s.shardOffset
            && s'.bins[..|s.bins| - 1] == s.bins[..|s.bins| - 1]
            && |Last(s'.bins)| + Last(s.idx) == |Last(s.bins)| + Last(s'.idx)
    decreases |items|
  {
    hide WriteItems;
    if items == [] {
      NoItems(s, []);
    } else {
      WriteItemsShape(s, items[..|items| - 1]);
      WriteItemsStep(s, items);
    }
  }

  /** Every file but the open one has reached the chunk size; the open one has not. */
  ghost predicate Rolled(s: Shards, chunkSize: nat) {
    && s.bins != [] && |s.bins[|s.bins| - 1]| < chunkSize
    && forall k :: 0 <= k < |s.bins| - 1 ==> |s.bins[k]| >= chunkSize
  }

  lemma {:induction false} FilesRoll(chunkSize: nat, batches: seq<seq<Pickled>>)
    requires chunkSize > 0
    ensures var s := WriteAll(chunkSize, batches);
            Rolled(s, chunkSize) && |Last(s.bins)| + Last(s.shardOffset) == Last(s.idx)
    decreases |batches|
  {
    hide WriteItems;
    if batches != [] {
      var before := batches[..|batches| - 1];
      FilesRoll(chunkSize, before);
      var s := WriteAll(chunkSize, before);
      hide WriteAll;
      WriteItemsShape(s, Last(batches));
      BatchRolls(chunkSize, s, Last(batches));
      LastBatch(chunkSize, batches);
    }
  }

  lemma LastBatch(chunkSize: nat, batches: seq<seq<Pickled>>)
    requires batches != []
    ensures WriteAll(chunkSize, batches) ==
            WriteBatch(chunkSize, WriteAll(chunkSize, batches[..|batches| - 1]), Last(batches))
  {
    hide WriteBatch;
  }

  lemma BatchRolls(chunkSize: nat, s: Shards, items: seq<Pickled>)
    requires chunkSize > 0 && Usable(s) && Rolled(s, chunkSize) && |Last(s.bins)| + Last(s.shardOffset) == Last(s.idx)
    requires var s' := WriteItems(s, items);
             && |s'.bins| == |s.bins| && s'.shardOffset == s.shardOffset
             && s'.bins[..|s.bins| - 1] == s.bins[..|s.bins| - 1]
             && |Last(s'.bins)| + Last(s.idx) == |Last(s.bins)| + Last(s'.idx)
    ensures var s' := WriteBatch(chunkSize, s, items);
            Rolled(s', chunkSize) && |Last(s'.bins)| + Last(s'.shardOffset) == Last(s'.idx)
  {
    hide WriteItems;
    var s' := WriteItems(s, items);
    forall k | 0 <= k < |s.bins| - 1
      ensures s'.bins[k] == s.bins[k]
    {
      assert s'.bins[..|s.bins| - 1][k] == s.bins[..|s.bins| - 1][k];
    }
  }

  lemma RollKeepsBins(s: Shards, data: seq<Byte>, chunkSize: nat)
    requires Usable(s) && BinsHold(s, data) && Last(s.idx) == |data|
    ensures BinsHold(Roll(s, chunkSize), data)
  {
    var s' := Roll(s, chunkSize);
    if s' != s {
      forall k | 0 <= k < |s'.bins|
        ensures s'.shardOffset[k] <= ShardEnd(s', k, |data|) <= |data|
        ensures s'.bins[k] == data[s'.shardOffset[k]..ShardEnd(s', k, |data|)]
      {
        if k < |s.bins| {
          assert s.bins[k] == data[s.shardOffset[k]..ShardEnd(s, k, |data|)];
        }
      }
    }
  }

  lemma RollKeepsIndex(s: Shards, items: seq<Pickled>, chunkSize: nat)
    requires Usable(s) && IndexOk(s, items)
    ensures IndexOk(Roll(s, chunkSize), items)
    ensures Last(s.idx) == |Bytes(items)|
  {
    assert items[..|items|] == items;
  }

  lemma RollKeepsOffsets(s: Shards, chunkSize: nat)
    requires Usable(s) && OffsetsOk(s) && chunkSize > 0
    ensures OffsetsOk(Roll(s, chunkSize))
  {
    var s' := Roll(s, chunkSize);
    forall k | 0 <= k < |s'.shardOffset|
      ensures s'.shardOffset[k] in s'.idx
    {
      assert k < |s.shardOffset| ==> s.shardOffset[k] in s.idx;
      assert Last(s.idx) in s.idx;
    }
  }

  lemma RollKeeps(s: Shards, items: seq<Pickled>, chunkSize: nat)
    requires Usable(s) && Holds(s, items) && chunkSize > 0
    ensures Holds(Roll(s, chunkSize), items)
  {
    hide IndexOk, OffsetsOk, BinsHold, Bytes, Roll;
    RollKeepsIndex(s, items, chunkSize);
    RollKeepsOffsets(s, chunkSize);
    RollKeepsBins(s, Bytes(items), chunkSize);
  }

  lemma WriteAllStep(chunkSize: nat, batches: seq<seq<Pickled>>)
    requires batches != []
    ensures WriteAll(chunkSize, batches) ==
            Roll(WriteItems(WriteAll(chunkSize, batches[..|batches| - 1]), Last(batches)), chunkSize)
  {
  }

  lemma NoBatches(chunkSize: nat)
    ensures Holds(WriteAll(chunkSize, []), Flatten([]))
  {
  }

  /** What is on disk after any batches: a valid index of their items, shards cut at item boundaries only. */
  lemma {:induction false} WriteAllKeeps(chunkSize: nat, batches: seq<seq<Pickled>>)
    requires chunkSize > 0
    ensures Holds(WriteAll(chunkSize, batches), Flatten(batches))
    decreases |batches|
  {
    hide Holds, WriteAll, WriteItems, Roll, Flatten;
    if batches == [] {
      NoBatches(chunkSize);
    } else {
      var init, b := batches[..|batches| - 1], Last(batches);
      WriteAllKeeps(chunkSize, init);
      WriteItemsKeeps(WriteAll(chunkSize, init), Flatten(init), b);
      RollKeeps(WriteItems(WriteAll(chunkSize, init), b), Flatten(init) + b, chunkSize);
      WriteAllStep(chunkSize, batches);
      FlattenLast(batches);
    }
  }

  lemma IndexMonotone(s: Shards, items: seq<Pickled>, i: nat, j: nat)
    requires IndexOk(s, items) && i < |items| && j <= |items|
    ensures j <= i ==> s.idx[j] <= s.idx[i]
    ensures i < j ==> s.idx[i + 1] <= s.idx[j]
  {
    if j <= i {
      BytesPrefix(items[..i], j);
      assert items[..i][..j] == items[..j];
    } else {
      BytesPrefix(items[..j], i + 1);
      assert items[..j][..i + 1] == items[..i + 1];
    }
  }

  /** A non-empty item lies in one file, the one bisection finds. */
  lemma ItemShard(s: Shards, items: seq<Pickled>, i: nat)
    requires IndexOk(s, items) && OffsetsOk(s) && i < |items| && items[i].bytes != []
    ensures var k := BisectRight(s.shardOffset, s.idx[i], IntLess());
            && 0 < k <= |s.shardOffset|
            && s.shardOffset[k - 1] <= s.idx[i] < s.idx[i + 1] <= ShardEnd(s, k - 1, |Bytes(items)|)
  {
    var less := IntLess();
    var k := BisectRight(s.shardOffset, s.idx[i], less);
    BisectRightSplits(s.shardOffset, s.idx[i], less);
    ItemBytes(s, items, i);
    assert !less(s.idx[i], s.shardOffset[0]);
    assert s.shardOffset[k - 1] <= s.idx[i];
    if k < |s.shardOffset| {
      assert less(s.idx[i], s.shardOffset[k]);
      var j :| 0 <= j < |s.idx| && s.idx[j] == s.shardOffset[k];
      IndexMonotone(s, items, i, j);
    }
  }

  lemma ReadStretch(s: Shards, data: seq<Byte>, k: nat, from: nat, to: nat)
    requires BinsHold(s, data) && k < |s.bins|
    requires s.shardOffset[k] <= from < to <= ShardEnd(s, k, |data|)
    ensures to <= |data|
    ensures ReadBuffer(s.bins[k], from - s.shardOffset[k], to - from) == Some(data[from..to])
  {
    var lo, hi := s.shardOffset[k], ShardEnd(s, k, |data|);
    assert s.bins[k] == data[lo..hi];
    SliceOfSlice(data, lo, hi, from, to);
  }

  lemma ReadItem(s: Shards, items: seq<Pickled>, i: nat)
    requires Holds(s, items) && i < |items| && items[i].bytes != []
    ensures ReadAt(s, i) == Some(items[i].bytes)
  {
    ItemShard(s, items, i);
    ItemBytes(s, items, i);
    ReadFromShard(s, Bytes(items), i, BisectRight(s.shardOffset, s.idx[i], IntLess()));
  }

  lemma ReadFromShard(s: Shards, data: seq<Byte>, i: nat, k: nat)
    requires BinsHold(s, data) && i + 1 < |s.idx| && k == BisectRight(s.shardOffset, s.idx[i], IntLess())
    requires 0 < k <= |s.shardOffset| && s.shardOffset[k - 1] <= s.idx[i] < s.idx[i + 1] <= ShardEnd(s, k - 1, |data|)
    ensures s.idx[i + 1] <= |data| && ReadAt(s, i) == Some(data[s.idx[i]..s.idx[i + 1]])
  {
    hide BisectRight;
    ReadStretch(s, data, k - 1, s.idx[i], s.idx[i + 1]);
  }

  /** Where index `i` points: itself, or cyclically from the end; None for an error. */
  function Resolve(length: nat, index: int): Option<nat> {
    if length == 0 || index >= length then None else Some(if index < 0 then index % length else index)
  }

  /** Round trip: every index of the finished dataset reads the pickle of the item added there, or is an error. */
  lemma ReadBack(chunkSize: nat, batches: seq<seq<Pickled>>, index: int)
    requires chunkSize > 0 && forall x :: x in Flatten(batches) ==> x.bytes != []
    ensures var s, items := WriteAll(chunkSize, batches), Flatten(batches);
            && Length(s) == |items|
            && Get(s, index) == match Resolve(|items|, index) case None => None case Some(i) => Some(items[i].bytes)
  {
    WriteAllKeeps(chunkSize, batches);
    var s, items := WriteAll(chunkSize, batches), Flatten(batches);
    match Resolve(|items|, index)
    case None =>
    case Some(i) => ReadItem(s, items, i);
  }
}
