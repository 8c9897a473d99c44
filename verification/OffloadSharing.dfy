/** Tensors of one group that share a storage key: only one of them is copied, so the others come back as that one. */
module OffloadSharing {
  import opened Wrappers
  import opened OffloadWindows
  import opened StreamOrder
  import opened Offload
  import opened OffloadRuns

  /** The group is still as its bulk offload left it: (key, shape) pairs under its tags, and the copies made then. */
  ghost predicate StillOnHost(states: map<Tag, Saved>, h: Handler, group: int) {
    && GroupTags(h.states, group) == GroupTags(states, group)
    && (forall t :: t in GroupTags(states, group) ==>
                        t in h.states && states[t].OnDevice? &&
                        h.states[t] == OnHost(states[t].tensor.key, states[t].tensor.shape))
    && group in h.copies && h.copies[group] == HostCopies(states, group)
  }

  lemma OffloadedIsOnHost(h: Handler, group: int)
    requires BulkOffload(h, group).Some?
    ensures StillOnHost(h.states, BulkOffload(h, group).value, group)
  {
    hide HostCopies;
  }

  lemma SameUnderTags(states: map<Tag, Saved>, h: Handler, h': Handler, group: int)
    requires StillOnHost(states, h, group) && group in h'.copies && h'.copies[group] == h.copies[group]
    requires forall t :: t in h.states && h.states[t].OnHost? && t.group == group ==>
                           t in h'.states && h'.states[t] == h.states[t]
    requires forall t :: t in h'.states && t.group == group ==> t in h.states
    ensures StillOnHost(states, h', group)
  {
    hide HostCopies;
    assert forall t :: t in GroupTags(h.states, group) ==> h.states[t].OnHost?;
    assert GroupTags(h'.states, group) == GroupTags(h.states, group);
  }

  /** Nothing pushed for another group and nothing popped touches it. */
  lemma OthersLeaveOnHost(states: map<Tag, Saved>, groups: nat, h: Handler, group: int, t: Tensor, need: bool,
                          handle: Handle)
    requires StillOnHost(states, h, group) && h.current != group
    ensures Push(groups, h, t, need).Some? ==> StillOnHost(states, Push(groups, h, t, need).value.1, group)
    ensures Pop(h, handle).Some? ==> StillOnHost(states, Pop(h, handle).value.1, group)
  {
    hide StillOnHost;
    StillCopied(states, h, group);
    if Push(groups, h, t, need).Some? {
      SameUnderTags(states, h, Push(groups, h, t, need).value.1, group);
    }
    if Pop(h, handle).Some? {
      SameUnderTags(states, h, Pop(h, handle).value.1, group);
    }
  }

  /** Nor does a copy of another group, in either direction. */
  lemma OtherCopiesLeaveOnHost(states: map<Tag, Saved>, groups: nat, h: Handler, group: int, other: int)
    requires StillOnHost(states, h, group) && other != group
    ensures BulkOffload(h, other).Some? ==> StillOnHost(states, BulkOffload(h, other).value, group)
    ensures BulkReload(groups, h, other).Some? ==> StillOnHost(states, BulkReload(groups, h, other).value, group)
  {
    hide StillOnHost, HostCopies, CanReload;
    StillCopied(states, h, group);
    if BulkOffload(h, other).Some? {
      SameUnderTags(states, h, BulkOffload(h, other).value, group);
    }
    if BulkReload(groups, h, other).Some? {
      SameUnderTags(states, h, BulkReload(groups, h, other).value, group);
    }
  }

  lemma StillCopied(states: map<Tag, Saved>, h: Handler, group: int)
    requires StillOnHost(states, h, group)
    ensures group in h.copies
  {
  }

  /** The elements kept for a tag: those of the tensor chosen for its key. */
  ghost function Kept(states: map<Tag, Saved>, group: int, t: Tag): seq<int>
    requires t in GroupTags(states, group) && states[t].OnDevice?
  {
    assert states[t].tensor.key in GroupKeys(states, group);
    HostCopies(states, group)[states[t].tensor.key]
  }

  /** The reload succeeds exactly when every kept copy fits the shapes it is viewed with. */
  lemma ReloadSucceedsIff(states: map<Tag, Saved>, groups: nat, h: Handler, group: int)
    requires StillOnHost(states, h, group) && group < groups
    ensures BulkReload(groups, h, group).Some? <==>
            forall t :: t in GroupTags(states, group) ==> |Kept(states, group, t)| == Product(states[t].tensor.shape)
  {
    hide HostCopies, Product;
    assert HostTags(h.states, group) == GroupTags(states, group);
    forall t | t in GroupTags(states, group)
      ensures h.states[t].key in h.copies[group] && h.copies[group][h.states[t].key] == Kept(states, group, t)
    {
    }
  }

  /** After the reload a pop gives back the pushed value exactly when the pushed elements are those kept. */
  lemma PopIsFaithfulIff(states: map<Tag, Saved>, groups: nat, h: Handler, group: int, t: Tag)
    requires StillOnHost(states, h, group) && BulkReload(groups, h, group).Some? && t in GroupTags(states, group)
    ensures var h' := BulkReload(groups, h, group).value;
            && Pop(h', Tagged(t)).Some?
            && (SameValue(Pop(h', Tagged(t)).value.0, states[t].tensor) <==>
                states[t].tensor.flat == Kept(states, group, t))
  {
    hide HostCopies, Product;
    assert t in HostTags(h.states, group);
  }

  lemma KeptIsHeld(states: map<Tag, Saved>, group: int, t: Tag) returns (u: Tag)
    requires t in GroupTags(states, group) && states[t].OnDevice?
    ensures Holds(states, group, u, states[t].tensor.key, Kept(states, group, t))
  {
    hide HostCopies;
    var key := states[t].tensor.key;
    assert key in HostCopies(states, group);
    u :| Holds(states, group, u, key, HostCopies(states, group)[key]);
  }

  /** All tensors of the group are kept as they are exactly when those sharing a key agree. */
  lemma KeptIffAgree(states: map<Tag, Saved>, group: int)
    requires CanOffload(states, group)
    ensures (forall t :: t in GroupTags(states, group) ==> states[t].tensor.flat == Kept(states, group, t)) <==>
            KeysAgree(states, group)
  {
    hide HostCopies;
    if KeysAgree(states, group) {
      forall t | t in GroupTags(states, group)
        ensures states[t].tensor.flat == Kept(states, group, t)
      {
        var u := KeptIsHeld(states, group, t);
      }
    }
    if forall t :: t in GroupTags(states, group) ==> states[t].tensor.flat == Kept(states, group, t) {
      forall t, u | t in GroupTags(states, group) && u in GroupTags(states, group) &&
                    states[t].OnDevice? && states[u].OnDevice? && states[t].tensor.key == states[u].tensor.key
        ensures states[t].tensor.flat == states[u].tensor.flat
      {
        assert Kept(states, group, t) == Kept(states, group, u);
      }
    }
  }

  /** A group comes back as it was pushed, the reload succeeding and every pop faithful, exactly when its tensors that
      share a key hold the same elements. */
  lemma GroupIsFaithfulIff(states: map<Tag, Saved>, groups: nat, h: Handler, group: int)
    requires StillOnHost(states, h, group) && group < groups
    requires forall t :: t in GroupTags(states, group) ==> WellFormed(states[t].tensor)
    ensures (BulkReload(groups, h, group).Some? &&
             forall t :: t in GroupTags(states, group) ==>
                           var pop := Pop(BulkReload(groups, h, group).value, Tagged(t));
                           pop.Some? && SameValue(pop.value.0, states[t].tensor)) <==>
            KeysAgree(states, group)
  {
    hide BulkReload, KeysAgree, Product, Kept, Pop;
    ReloadSucceedsIff(states, groups, h, group);
    KeptIffAgree(states, group);
    if BulkReload(groups, h, group).Some? {
      forall t | t in GroupTags(states, group)
        ensures var pop := Pop(BulkReload(groups, h, group).value, Tagged(t));
                pop.Some? &&
                (SameValue(pop.value.0, states[t].tensor) <==> states[t].tensor.flat == Kept(states, group, t))
      {
        PopIsFaithfulIff(states, groups, h, group, t);
      }
    }
  }

  // ----- a whole run of two such tensors -----

  const FIRST: Tag := Tag(0, 0)
  const SECOND: Tag := Tag(0, 1)

  lemma RunCons(c: Config, w: World, op: Op, ops: seq<Op>)
    requires c.groups > 0 && Apply(c, w, op).Some?
    ensures Run(c, w, [op] + ops) == Run(c, Apply(c, w, op).value, ops)
  {
    assert ([op] + ops)[1..] == ops;
  }

  /** Two tensors of group 0 saved in a model of two layers, the first of which is offloaded; then the backward pass up
      to the two pops. */
  function SharedKeyOps(a: Tensor, b: Tensor): seq<Op> {
    [PushOp(a, true)] + ([PushOp(b, true)] +
    ([CommitForwardOp] + ([CommitForwardOp] + ([CommitBackwardOp] + ([CommitBackwardOp] + [])))))
  }

  function TwoSaved(a: Saved, b: Saved): map<Tag, Saved> {
    map[FIRST := a, SECOND := b]
  }

  lemma TwoPushed(a: Tensor, b: Tensor) returns (w: World)
    ensures var c := Config(2, 1);
            && var w1 := Apply(c, START, PushOp(a, true));
               w1.Some? && Apply(c, w1.value, PushOp(b, true)) == Some(w)
    ensures w.phase.Forward? && w.h.current == 0 && w.h.offloaded == 0 && w.h.copies == map[]
    ensures w.h.states == TwoSaved(OnDevice(a), OnDevice(b)) && w.pushed == map[FIRST := a, SECOND := b]
  {
    var c := Config(2, 1);
    var w1 := Apply(c, START, PushOp(a, true)).value;
    w := Apply(c, w1, PushOp(b, true)).value;
  }

  lemma OneWindow()
    ensures Window(2, 1, 0) == 1 && Config(2, 1).WindowMap() == map[0 := 1]
  {
  }

  /** The first commit copies the group, keeping the elements of one of the two tensors. */
  lemma OneCopied(w: World, a: Tensor, b: Tensor) returns (w': World)
    requires w.phase.Forward? && w.h.current == 0 && w.h.offloaded == 0 && w.h.copies == map[]
    requires w.h.states == TwoSaved(OnDevice(a), OnDevice(b)) && a.key == b.key
    ensures Apply(Config(2, 1), w, CommitForwardOp) == Some(w')
    ensures w'.phase.Forward? && w'.h.current == 1 && w'.h.offloaded == 0 && w'.pushed == w.pushed
    ensures w'.h.states == TwoSaved(OnHost(a.key, a.shape), OnHost(b.key, b.shape))
    ensures w'.h.copies == map[0 := map[a.key := a.flat]] || w'.h.copies == map[0 := map[a.key := b.flat]]
  {
    hide BulkOffload;
    OneWindow();
    var h1 := Issue(w.h, [Wait(D2H, Compute)]);
    FirstCopied(h1, a, b);
    w' := Apply(Config(2, 1), w, CommitForwardOp).value;
  }

  lemma FirstCopied(h: Handler, a: Tensor, b: Tensor)
    requires h.copies == map[] && h.states == TwoSaved(OnDevice(a), OnDevice(b)) && a.key == b.key
    ensures BulkOffload(h, 0).Some?
    ensures var h' := BulkOffload(h, 0).value;
            && h'.states == TwoSaved(OnHost(a.key, a.shape), OnHost(b.key, b.shape))
            && (h'.copies == map[0 := map[a.key := a.flat]] || h'.copies == map[0 := map[a.key := b.flat]])
            && h'.current == h.current && h'.offloaded == h.offloaded
  {
    hide HostCopies, AreHostCopies, LeaveOnHost;
    OneOfTwo(a, b, HostCopies(h.states, 0));
    BothLeft(a, b);
  }

  lemma BothLeft(a: Tensor, b: Tensor)
    ensures CanOffload(TwoSaved(OnDevice(a), OnDevice(b)), 0)
    ensures LeaveOnHost(TwoSaved(OnDevice(a), OnDevice(b)), 0) ==
            TwoSaved(OnHost(a.key, a.shape), OnHost(b.key, b.shape))
  {
  }

  lemma OneOfTwo(a: Tensor, b: Tensor, copies: map<Key, seq<int>>)
    requires a.key == b.key && AreHostCopies(copies, TwoSaved(OnDevice(a), OnDevice(b)), 0)
    ensures copies == map[a.key := a.flat] || copies == map[a.key := b.flat]
  {
    var states := TwoSaved(OnDevice(a), OnDevice(b));
    assert FIRST in GroupTags(states, 0) && states[FIRST].tensor.key == a.key;
    assert a.key in GroupKeys(states, 0);
    var t :| Holds(states, 0, t, a.key, copies[a.key]);
    assert t == FIRST || t == SECOND;
    assert forall k :: k in copies ==> k == a.key;
  }

  /** The second commit only hands the buffers over; the group stays on the host. */
  lemma HandedOver(w: World) returns (w': World)
    requires w.phase.Forward? && w.h.current == 1 && w.h.offloaded == 0
    ensures Apply(Config(2, 1), w, CommitForwardOp) == Some(w')
    ensures w'.phase.Forward? && w'.h.current == 2 && w'.h.offloaded == 1 && w'.pushed == w.pushed
    ensures w'.h.states == w.h.states && w'.h.copies == w.h.copies
  {
    OneWindow();
    w' := Apply(Config(2, 1), w, CommitForwardOp).value;
  }

  /** The first backward commit views the one copy with either shape. */
  lemma BothReloaded(w: World, key: Key, flat: seq<int>, a: seq<nat>, b: seq<nat>) returns (w': World)
    requires w.h.current == 2 && w.h.offloaded == 1 && w.h.copies == map[0 := map[key := flat]]
    requires w.h.states == TwoSaved(OnHost(key, a), OnHost(key, b)) && |flat| == Product(a) == Product(b)
    ensures Apply(Config(2, 1), w, CommitBackwardOp) == Some(w')
    ensures w'.phase.Backward? && w'.h.current == 1 && w'.h.offloaded == 1 && w'.pushed == w.pushed
    ensures w'.h.states == TwoSaved(OnDevice(Tensor(Reloaded(key), flat, a)), OnDevice(Tensor(Reloaded(key), flat, b)))
  {
    OneWindow();
    hide Product, ReloadAtWindow;
    var h1 := w.h.(current := 1);
    ViewedTwice(h1, key, flat, a, b);
    CommitBackwardUnfolds(Config(2, 1), w.h);
    w' := Apply(Config(2, 1), w, CommitBackwardOp).value;
  }

  lemma ViewedTwice(h: Handler, key: Key, flat: seq<int>, a: seq<nat>, b: seq<nat>)
    requires h.offloaded == 1 && h.copies == map[0 := map[key := flat]]
    requires h.states == TwoSaved(OnHost(key, a), OnHost(key, b)) && |flat| == Product(a) == Product(b)
    ensures ReloadAtWindow(1, h).Some?
    ensures var h' := ReloadAtWindow(1, h).value;
            && h'.states == TwoSaved(OnDevice(Tensor(Reloaded(key), flat, a)), OnDevice(Tensor(Reloaded(key), flat, b)))
            && h'.current == h.current && h'.offloaded == 1
  {
    hide Product;
    assert HostTags(h.states, 0) == {FIRST, SECOND};
    assert CanReload(h.states, h.copies[0], 0);
  }

  lemma LastCommit(w: World) returns (w': World)
    requires w.phase.Backward? && w.h.current == 1 && w.h.offloaded == 1 && w.pushed != map[]
    ensures Apply(Config(2, 1), w, CommitBackwardOp) == Some(w')
    ensures w'.h.states == w.h.states && w'.phase.Backward? && w'.h.current == 0 && w'.pushed == w.pushed
  {
    OneWindow();
    w' := Apply(Config(2, 1), w, CommitBackwardOp).value;
  }

  /** Two tensors of equal size under one key: the run goes through, both come back with the elements of one of them,
      so both are faithful only if they agree. */
  lemma SharedKeyRun(a: Tensor, b: Tensor)
    requires WellFormed(a) && WellFormed(b) && a.key == b.key && |a.flat| == |b.flat|
    ensures Run(Config(2, 1), START, SharedKeyOps(a, b)).Some?
    ensures var w := Run(Config(2, 1), START, SharedKeyOps(a, b)).value;
            && w.pushed == map[FIRST := a, SECOND := b]
            && (forall tag :: tag in w.pushed ==> Legal(Config(2, 1), w, PopOp(Tagged(tag))))
            && var first, second := Pop(w.h, Tagged(FIRST)), Pop(w.h, Tagged(SECOND));
               && first.Some? && second.Some?
               && first.value.0.shape == a.shape && second.value.0.shape == b.shape
               && (SameValue(first.value.0, a) || SameValue(second.value.0, b))
               && (SameValue(first.value.0, a) && SameValue(second.value.0, b) <==> a.flat == b.flat)
  {
    hide Apply, Run, Product;
    var w2 := TwoPushed(a, b);
    var w3 := OneCopied(w2, a, b);
    var w4 := HandedOver(w3);
    var flat := if w3.h.copies == map[0 := map[a.key := a.flat]] then a.flat else b.flat;
    var w5 := BothReloaded(w4, a.key, flat, a.shape, b.shape);
    assert FIRST in w5.pushed;
    var w6 := LastCommit(w5);
    SharedKeySteps(a, b, w2, w3, w4, w5, w6);
    PopsOfTwo(w6, Tensor(Reloaded(a.key), flat, a.shape), Tensor(Reloaded(a.key), flat, b.shape), a, b);
  }

  lemma PopsOfTwo(w: World, x: Tensor, y: Tensor, a: Tensor, b: Tensor)
    requires w.h.states == TwoSaved(OnDevice(x), OnDevice(y)) && w.pushed == map[FIRST := a, SECOND := b]
    requires w.phase.Backward? && w.h.current == 0
    ensures Pop(w.h, Tagged(FIRST)).Some? && Pop(w.h, Tagged(FIRST)).value.0 == x
    ensures Pop(w.h, Tagged(SECOND)).Some? && Pop(w.h, Tagged(SECOND)).value.0 == y
    ensures forall tag :: tag in w.pushed ==> Legal(Config(2, 1), w, PopOp(Tagged(tag)))
  {
  }

  lemma SharedKeySteps(a: Tensor, b: Tensor, w2: World, w3: World, w4: World, w5: World, w6: World)
    requires Apply(Config(2, 1), START, PushOp(a, true)).Some?
    requires Apply(Config(2, 1), Apply(Config(2, 1), START, PushOp(a, true)).value, PushOp(b, true)) == Some(w2)
    requires Apply(Config(2, 1), w2, CommitForwardOp) == Some(w3)
    requires Apply(Config(2, 1), w3, CommitForwardOp) == Some(w4)
    requires Apply(Config(2, 1), w4, CommitBackwardOp) == Some(w5)
    requires Apply(Config(2, 1), w5, CommitBackwardOp) == Some(w6)
    ensures Run(Config(2, 1), START, SharedKeyOps(a, b)) == Some(w6)
  {
    hide Apply, Run;
    var c := Config(2, 1);
    var w1 := Apply(c, START, PushOp(a, true)).value;
    RunCons(c, START, PushOp(a, true), [PushOp(b, true)] +
      ([CommitForwardOp] + ([CommitForwardOp] + ([CommitBackwardOp] + ([CommitBackwardOp] + [])))));
    RunCons(c, w1, PushOp(b, true),
      [CommitForwardOp] + ([CommitForwardOp] + ([CommitBackwardOp] + ([CommitBackwardOp] + []))));
    RunCons(c, w2, CommitForwardOp, [CommitForwardOp] + ([CommitBackwardOp] + ([CommitBackwardOp] + [])));
    RunCons(c, w3, CommitForwardOp, [CommitBackwardOp] + ([CommitBackwardOp] + []));
    RunCons(c, w4, CommitBackwardOp, [CommitBackwardOp] + []);
    RunCons(c, w5, CommitBackwardOp, []);
    RunNone(c, w6);
  }

  lemma RunNone(c: Config, w: World)
    requires c.groups > 0
    ensures Run(c, w, []) == Some(w)
  {
  }

  /** A two-by-three tensor and its transpose are views of one storage, so they share a key: one of them comes back
      with its elements in the wrong order. */
  lemma TransposeIsConfused(key: Key)
    ensures var a, b := Tensor(key, [0, 1, 2, 3, 4, 5], [2, 3]), Tensor(key, [0, 3, 1, 4, 2, 5], [3, 2]);
            && WellFormed(a) && WellFormed(b)
            && Run(Config(2, 1), START, SharedKeyOps(a, b)).Some?
            && var w := Run(Config(2, 1), START, SharedKeyOps(a, b)).value;
               exists tag :: tag in w.pushed && Legal(Config(2, 1), w, PopOp(Tagged(tag))) &&
                             Pop(w.h, Tagged(tag)).Some? &&
                             Pop(w.h, Tagged(tag)).value.0.flat != w.pushed[tag].flat
  {
    var a, b := Tensor(key, [0, 1, 2, 3, 4, 5], [2, 3]), Tensor(key, [0, 3, 1, 4, 2, 5], [3, 2]);
    assert a.flat[1] != b.flat[1];
    TwoByThree();
    SharedKeyRun(a, b);
    hide Run, Legal, WellFormed, Pop, SharedKeyOps;
    var w := Run(Config(2, 1), START, SharedKeyOps(a, b)).value;
    assert FIRST in w.pushed && SECOND in w.pushed && w.pushed[FIRST] == a && w.pushed[SECOND] == b;
    assert Pop(w.h, Tagged(FIRST)).value.0.flat != a.flat || Pop(w.h, Tagged(SECOND)).value.0.flat != b.flat;
  }

  lemma TwoByThree()
    ensures Product([2, 3]) == 6 && Product([3, 2]) == 6
  {
    assert [2, 3][1..] == [3] && [3, 2][1..] == [2];
    assert Product([3]) == 3 && Product([2]) == 2;
  }
}
