/** Whether saved generations may be reused: accepted exactly when they are the items times the sample indices. */
module ResumeCheck {
  import opened Wrappers
  import opened IntSets
  import opened Quotients

  datatype Sample = Sample(modelName: string, rewardMode: string, itemId: int, sampleIndex: int)

  /** Accepted, or the test that rejected. */
  datatype Verdict =
    | Accepted | NothingSaved | WrongCount | OtherRun | UnknownItem | IndexOutOfRange | Repeated | Incomplete

  predicate Fits(s: Sample, model: string, mode: string, items: seq<int>, perItem: int) {
    && s.modelName == model && s.rewardMode == mode
    && s.itemId in items && 0 <= s.sampleIndex < perItem
  }

  /** One of the first `n` samples is number `j` of the item. */
  ghost predicate Seen(saved: seq<Sample>, n: nat, id: int, j: int) {
    exists t :: 0 <= t < n && t < |saved| && saved[t].itemId == id && saved[t].sampleIndex == j
  }

  ghost predicate PairsDistinct(saved: seq<Sample>, n: nat) {
    forall a, b :: 0 <= a < b < n && b < |saved| ==>
                       saved[a].itemId != saved[b].itemId || saved[a].sampleIndex != saved[b].sampleIndex
  }

  /** As many samples as expected, all of this run, and their (item, index) pairs a bijection with items and indices. */
  ghost predicate Complete(saved: seq<Sample>, model: string, mode: string, items: seq<int>, perItem: int) {
    && |saved| == |items| * perItem
    && (forall i :: 0 <= i < |saved| ==> Fits(saved[i], model, mode, items, perItem))
    && PairsDistinct(saved, |saved|)
    && (forall id, j :: id in items && 0 <= j < perItem ==> Seen(saved, |saved|, id, j))
  }

  // ----- counting -----

  /** The distinct items. */
  function Ids(items: seq<int>): (r: seq<int>)
    ensures |r| <= |items|
    ensures forall i, j :: 0 <= i < j < |r| ==> r[i] != r[j]
    ensures forall i :: 0 <= i < |r| ==> r[i] in items
  {
    if items == [] then []
    else
      var rest := Ids(items[1..]);
      assert items == [items[0]] + items[1..];
      if items[0] in rest then rest else [items[0]] + rest
  }

  lemma {:induction false} IdIndex(items: seq<int>, id: int) returns (i: nat)
    requires id in items
    ensures i < |Ids(items)| && Ids(items)[i] == id
  {
    var rest := Ids(items[1..]);
    if items[0] in rest {
      i :| 0 <= i < |rest| && rest[i] == items[0];
    } else {
      i := 0;
    }
    if id != items[0] {
      var j := IdIndex(items[1..], id);
      i := if items[0] in rest then j else j + 1;
    }
  }

  type Indices = map<int, set<int>>

  function Total(m: Indices, ids: seq<int>): nat {
    if ids == [] then 0 else (if ids[0] in m then |m[ids[0]]| else 0) + Total(m, ids[1..])
  }

  lemma {:induction false} TotalGrows(m: Indices, ids: seq<int>, id: int, j: int)
    requires id in m && j !in m[id] && forall a, b :: 0 <= a < b < |ids| ==> ids[a] != ids[b]
    ensures (exists i :: 0 <= i < |ids| && ids[i] == id) ==> Total(m[id := m[id] + {j}], ids) == Total(m, ids) + 1
    ensures (forall i :: 0 <= i < |ids| ==> ids[i] != id) ==> Total(m[id := m[id] + {j}], ids) == Total(m, ids)
  {
    if ids != [] {
      TotalGrows(m, ids[1..], id, j);
      assert forall i :: 0 < i < |ids| ==> ids[i] == ids[1..][i - 1];
    }
  }

  /** When every item holds at most `k` and the sum is the largest possible, every item holds exactly `k`. */
  lemma {:induction false} TotalBound(m: Indices, ids: seq<int>, k: nat)
    requires forall i :: 0 <= i < |ids| ==> ids[i] in m && |m[ids[i]]| <= k
    ensures Total(m, ids) <= |ids| * k
    ensures Total(m, ids) == |ids| * k ==> forall i :: 0 <= i < |ids| ==> |m[ids[i]]| == k
  {
    if ids != [] {
      TotalBound(m, ids[1..], k);
      Distribute(|ids| - 1, 1, k);
      assert Total(m, ids) == |m[ids[0]]| + Total(m, ids[1..]);
      forall i | 0 <= i < |ids| && Total(m, ids) == |ids| * k
        ensures |m[ids[i]]| == k
      {
        assert i > 0 ==> ids[i] == ids[1..][i - 1];
      }
    }
  }

  // ----- the loop's invariant -----

  /** The sets hold exactly the pairs of the first `n` samples, none of which occurs twice. */
  ghost predicate Tallied(saved: seq<Sample>, n: nat, model: string, mode: string, items: seq<int>, perItem: int,
                          m: Indices)
  {
    && n <= |saved|
    && (forall id :: id in m <==> id in items)
    && (forall i :: 0 <= i < n ==> Fits(saved[i], model, mode, items, perItem))
    && PairsDistinct(saved, n)
    && (forall id, j :: id in m ==> (j in m[id] <==> Seen(saved, n, id, j)))
    && (forall id :: id in m ==> m[id] <= Below(perItem))
    && Total(m, Ids(items)) == n
  }

  lemma SeenNext(saved: seq<Sample>, n: nat, id: int, j: int)
    requires n < |saved|
    ensures Seen(saved, n + 1, id, j) <==>
            Seen(saved, n, id, j) || (saved[n].itemId == id && saved[n].sampleIndex == j)
  {
  }

  lemma TallyOne(saved: seq<Sample>, n: nat, model: string, mode: string, items: seq<int>, perItem: int, m: Indices)
    requires Tallied(saved, n, model, mode, items, perItem, m) && n < |saved|
    requires Fits(saved[n], model, mode, items, perItem)
    ensures saved[n].itemId in m
    ensures var id, j := saved[n].itemId, saved[n].sampleIndex;
            if j in m[id] then !PairsDistinct(saved, |saved|)
            else Tallied(saved, n + 1, model, mode, items, perItem, m[id := m[id] + {j}])
  {
    hide Total, Ids, Below;
    var id, j := saved[n].itemId, saved[n].sampleIndex;
    if j in m[id] {
      assert Seen(saved, n, id, j);
      var t :| 0 <= t < n && t < |saved| && saved[t].itemId == id && saved[t].sampleIndex == j;
      assert saved[t].itemId == saved[n].itemId;
    } else {
      TotalIsNext(m, items, id, j);
      InBelow(j, perItem);
      DistinctNext(saved, n);
      MarkSeen(saved, n, m);
    }
  }

  lemma TotalIsNext(m: Indices, items: seq<int>, id: int, j: int)
    requires id in m && id in items && j !in m[id]
    ensures Total(m[id := m[id] + {j}], Ids(items)) == Total(m, Ids(items)) + 1
  {
    TotalGrows(m, Ids(items), id, j);
    var i := IdIndex(items, id);
  }

  lemma MarkSeen(saved: seq<Sample>, n: nat, m: Indices)
    requires n < |saved| && saved[n].itemId in m
    requires forall id, j :: id in m ==> (j in m[id] <==> Seen(saved, n, id, j))
    ensures var id := saved[n].itemId;
            var longer := m[id := m[id] + {saved[n].sampleIndex}];
            forall e, x :: e in longer ==> (x in longer[e] <==> Seen(saved, n + 1, e, x))
  {
    hide Seen;
    var id := saved[n].itemId;
    var longer := m[id := m[id] + {saved[n].sampleIndex}];
    forall e, x | e in longer
      ensures x in longer[e] <==> Seen(saved, n + 1, e, x)
    {
      SeenNext(saved, n, e, x);
      assert x in m[e] <==> Seen(saved, n, e, x);
    }
  }

  lemma DistinctNext(saved: seq<Sample>, n: nat)
    requires n < |saved| && PairsDistinct(saved, n) && !Seen(saved, n, saved[n].itemId, saved[n].sampleIndex)
    ensures PairsDistinct(saved, n + 1)
  {
  }

  /** After the loop every item has all its indices: by pigeonhole there is no room for a gap. */
  lemma Pigeonhole(saved: seq<Sample>, model: string, mode: string, items: seq<int>, perItem: int, m: Indices)
    requires Tallied(saved, |saved|, model, mode, items, perItem, m) && |saved| == |items| * perItem
    ensures forall id :: id in m ==> |m[id]| == perItem
    ensures Complete(saved, model, mode, items, perItem)
  {
    hide Fits, PairsDistinct, Total;
    if items == [] {
      assert forall id :: id !in m;
    } else {
      var ids := Ids(items);
      PerItemPositive(|items|, perItem);
      forall id | id in m
        ensures |m[id]| <= perItem
      {
        SmallSet(saved, model, mode, items, perItem, m, id);
      }
      forall i | 0 <= i < |ids|
        ensures ids[i] in m
      {
        var id := ids[i];
        assert id in items;
      }
      TotalBound(m, ids, perItem);
      MulMonotone(|ids|, |items|, perItem);
      forall id | id in m
        ensures |m[id]| == perItem
      {
        var i := IdIndex(items, id);
      }
      forall id, j | id in items && 0 <= j < perItem
        ensures Seen(saved, |saved|, id, j)
      {
        SmallSet(saved, model, mode, items, perItem, m, id);
        assert j in m[id];
      }
    }
  }

  lemma PerItemPositive(n: nat, k: int)
    requires n > 0 && n * k >= 0
    ensures k >= 0
  {
  }

  lemma SmallSet(saved: seq<Sample>, model: string, mode: string, items: seq<int>, perItem: int, m: Indices, id: int)
    requires Tallied(saved, |saved|, model, mode, items, perItem, m) && id in m && perItem >= 0
    ensures |m[id]| <= perItem
    ensures |m[id]| == perItem ==> forall j :: 0 <= j < perItem ==> j in m[id]
  {
    hide Total, PairsDistinct, Fits, Seen;
    BelowCard(m[id], perItem);
    forall j | 0 <= j < perItem {
      InBelow(j, perItem);
    }
  }

  // ----- load_complete_model_samples -----

  /** Accepted exactly when complete; and the last test, that no item lacks a sample, is never the one to reject. */
  method LoadCompleteModelSamples(loaded: Option<seq<Sample>>, model: string, mode: string, items: seq<int>,
                                  perItem: int)
    returns (verdict: Verdict)
    ensures verdict.Accepted? <==> loaded.Some? && Complete(loaded.value, model, mode, items, perItem)
    ensures verdict != Incomplete
    ensures verdict == NothingSaved <==> loaded.None?
    ensures verdict == WrongCount <==> loaded.Some? && |loaded.value| != |items| * perItem
  {
    if loaded.None? {
      return NothingSaved;
    }
    var saved := loaded.value;
    if |saved| != |items| * perItem {
      return WrongCount;
    }
    var itemSampleIndices: Indices := map id | id in items :: {};
    NothingTallied(saved, model, mode, items, perItem, itemSampleIndices);
    for i := 0 to |saved|
      invariant Tallied(saved, i, model, mode, items, perItem, itemSampleIndices)
    {
      hide Tallied, PairsDistinct, Seen;
      var sample := saved[i];
      assert Complete(saved, model, mode, items, perItem) ==> Fits(sample, model, mode, items, perItem);
      if sample.modelName != model || sample.rewardMode != mode {
        return OtherRun;
      }
      TalliedKeys(saved, i, model, mode, items, perItem, itemSampleIndices);
      if sample.itemId !in itemSampleIndices {
        return UnknownItem;
      }
      if !(0 <= sample.sampleIndex < perItem) {
        return IndexOutOfRange;
      }
      TallyOne(saved, i, model, mode, items, perItem, itemSampleIndices);
      if sample.sampleIndex in itemSampleIndices[sample.itemId] {
        return Repeated;
      }
      itemSampleIndices :=
        itemSampleIndices[sample.itemId := itemSampleIndices[sample.itemId] + {sample.sampleIndex}];
    }
    Pigeonhole(saved, model, mode, items, perItem, itemSampleIndices);
    var incomplete := exists id :: id in itemSampleIndices && |itemSampleIndices[id]| != perItem;
    verdict := if incomplete then Incomplete else Accepted;
  }

  lemma TalliedKeys(saved: seq<Sample>, n: nat, model: string, mode: string, items: seq<int>, perItem: int, m: Indices)
    requires Tallied(saved, n, model, mode, items, perItem, m)
    ensures forall id :: id in m <==> id in items
  {
  }

  lemma NothingTallied(saved: seq<Sample>, model: string, mode: string, items: seq<int>, perItem: int, m: Indices)
    requires (forall id :: id in m <==> id in items) && forall id :: id in m ==> m[id] == {}
    ensures Tallied(saved, 0, model, mode, items, perItem, m)
  {
    EmptyTotal(m, Ids(items));
  }

  lemma {:induction false} EmptyTotal(m: Indices, ids: seq<int>)
    requires forall id :: id in m ==> m[id] == {}
    ensures Total(m, ids) == 0
  {
    if ids != [] {
      EmptyTotal(m, ids[1..]);
    }
  }
}
