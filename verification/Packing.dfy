/** Packing rows into bins with carry-over: the step shared by the offline and the streaming packer. */
module Packing {
  import opened Sequences

  /** A row to pack: what it stands for, and its length in tokens. */
  datatype Row<D> = Row(data: D, len: nat)

  function Volume<D>(bin: seq<Row<D>>): nat {
    if bin == [] then 0 else bin[0].len + Volume(bin[1..])
  }

  /** The volume is additive, and that of one row is its length. */
  lemma {:induction false} VolumeAdds<D>(a: seq<Row<D>>, b: seq<Row<D>>, x: Row<D>)
    ensures Volume(a + b) == Volume(a) + Volume(b) && Volume([x]) == x.len
  {
    assert [x][1..] == [];
    if a == [] {
      assert a + b == b;
    } else {
      assert (a + b)[1..] == a[1..] + b;
      VolumeAdds(a[1..], b, x);
    }
  }

  /** What is relied on of `binpacking.to_constant_volume` for one input: a partition into non-empty bins, within the
      volume if every row is. */
  ghost predicate PacksInto<D>(bins: seq<seq<Row<D>>>, rows: seq<Row<D>>, volume: nat) {
    && multiset(Flatten(bins)) == multiset(rows)
    && (forall b :: b in bins ==> b != [])
    && ((forall x :: x in rows ==> x.len <= volume) ==> forall b :: b in bins ==> Volume(b) <= volume)
  }

  ghost predicate BinPacking<D(!new)>(pack: seq<Row<D>> -> seq<seq<Row<D>>>, volume: nat) {
    forall rows :: PacksInto(pack(rows), rows, volume)
  }

  /** One bin for every row. */
  function Singles<D>(rows: seq<Row<D>>): (bins: seq<seq<Row<D>>>)
    ensures |bins| == |rows| && forall i :: 0 <= i < |bins| ==> bins[i] == [rows[i]]
  {
    if rows == [] then [] else [[rows[0]]] + Singles(rows[1..])
  }

  lemma {:induction false} SinglesFlat<D>(rows: seq<Row<D>>)
    ensures Flatten(Singles(rows)) == rows
  {
    if rows != [] {
      SinglesFlat(rows[1..]);
    }
  }

  /** What is relied on can be had. */
  lemma SinglesPack<D>(rows: seq<Row<D>>, volume: nat)
    ensures PacksInto(Singles(rows), rows, volume)
  {
    hide Flatten;
    SinglesFlat(rows);
    forall i | 0 <= i < |rows|
      ensures Volume(Singles(rows)[i]) == rows[i].len
    {
      assert [rows[i]][1..] == [];
    }
  }

  /** `calculate_matched_group`: finished bins, and the last bin carried over unless this is the last call. */
  function MatchedGroup<D>(pack: seq<Row<D>> -> seq<seq<Row<D>>>, rows: seq<Row<D>>, finished: bool):
      (seq<seq<Row<D>>>, seq<Row<D>>)
  {
    if rows == [] then ([], [])
    else
      var bins := pack(rows);
      if bins != [] && !finished then (bins[..|bins| - 1], bins[|bins| - 1]) else (bins, [])
  }

  /** What is held back: nothing in the last call, and otherwise one bin, the last. */
  lemma MatchedGroupHolds<D>(pack: seq<Row<D>> -> seq<seq<Row<D>>>, rows: seq<Row<D>>, finished: bool)
    requires rows != [] && pack(rows) != []
    ensures var (bins, held) := MatchedGroup(pack, rows, finished);
            if finished then bins == pack(rows) && held == [] else bins + [held] == pack(rows)
  {
  }

  lemma MatchedGroupConserves<D(!new)>(
      pack: seq<Row<D>> -> seq<seq<Row<D>>>, volume: nat, rows: seq<Row<D>>, finished: bool)
    requires BinPacking(pack, volume)
    ensures var r := MatchedGroup(pack, rows, finished);
            && multiset(Flatten(r.0)) + multiset(r.1) == multiset(rows)
            && (finished || rows == [] <==> r.1 == [])
  {
    if rows != [] {
      var bins := pack(rows);
      assert PacksInto(bins, rows, volume);
      assert rows[0] in multiset(rows);
      if bins != [] && !finished {
        FlattenLast(bins);
        assert bins[|bins| - 1] in bins;
      }
    }
  }

  lemma MatchedGroupWithinVolume<D(!new)>(
      pack: seq<Row<D>> -> seq<seq<Row<D>>>, volume: nat, rows: seq<Row<D>>, finished: bool)
    requires BinPacking(pack, volume) && forall x :: x in rows ==> x.len <= volume
    ensures var r := MatchedGroup(pack, rows, finished);
            && (forall b :: b in r.0 ==> Volume(b) <= volume) && Volume(r.1) <= volume
            && forall x :: x in r.1 ==> x.len <= volume
  {
    MatchedGroupConserves(pack, volume, rows, finished);
    var r := MatchedGroup(pack, rows, finished);
    if rows != [] {
      assert PacksInto(pack(rows), rows, volume);
      forall b | b in r.0
        ensures Volume(b) <= volume
      {
        assert b in pack(rows);
      }
      forall x | x in r.1
        ensures x in rows
      {
        assert x in multiset(r.1) && x in multiset(rows);
      }
    }
  }

  /** What is emitted and held back over a first round and the others, and what came in. */
  lemma SumsMove<T>(emitted: multiset<T>, more: multiset<T>, held: multiset<T>, between: multiset<T>,
                    carry: multiset<T>, first: multiset<T>, rest: multiset<T>)
    requires emitted + between == carry + first && more + held == between + rest
    ensures emitted + more + held == carry + (first + rest)
  {
    assert emitted + more + held == emitted + (more + held) == (emitted + between) + rest;
  }

  lemma {:induction false} FlattenMembers<T>(xss: seq<seq<T>>, x: T)
    ensures x in Flatten(xss) <==> exists xs :: xs in xss && x in xs
  {
    if xss != [] {
      FlattenMembers(xss[1..], x);
    }
  }
}
