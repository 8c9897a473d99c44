/** Whole runs of the offloader under the order autograd fixes: no assertion fails and every pop is faithful. */
module OffloadRuns {
  import opened Wrappers
  import opened OffloadWindows
  import opened StreamOrder
  import opened Offload

  datatype Phase = Forward | Backward

  /** The handler, the direction of the current pass, and the tensors pushed and not yet popped. */
  datatype World = World(h: Handler, phase: Phase, pushed: map<Tag, Tensor>)

  datatype Op = PushOp(t: Tensor, needOffload: bool) | CommitForwardOp | CommitBackwardOp | PopOp(handle: Handle)

  const START: World := World(INITIAL, Forward, map[])

  predicate WellFormed(t: Tensor) { |t.flat| == Product(t.shape) }

  /** Autograd's order: pushes and forward commits, then backward commits, each tag popped once, after the backward
      commit that reaches its group. Tensors of a group that share storage hold the same elements. */
  ghost predicate Legal(c: Config, w: World, op: Op) {
    match op
    case PushOp(t, need) =>
      w.phase.Forward? && w.h.current < c.layers && WellFormed(t) &&
      (need ==> forall u :: u in w.pushed && u.group == w.h.current && w.pushed[u].key == t.key ==>
                              w.pushed[u].flat == t.flat)
    case CommitForwardOp => w.phase.Forward? && w.h.current < c.layers
    case CommitBackwardOp => if w.phase.Forward? then w.h.current == c.layers else w.h.current > 0
    case PopOp(Stray(_)) => true
    case PopOp(Tagged(tag)) => w.phase.Backward? && tag in w.pushed && tag.group >= w.h.current
  }

  /** A pass is over when the backward commits reached group 0 and every tag was popped. */
  function Settle(w: World): World {
    if w.phase.Backward? && w.h.current == 0 && w.pushed == map[] then w.(phase := Forward) else w
  }

  /** One step; None when one of the handler's assertions or lookups fails. */
  ghost function Apply(c: Config, w: World, op: Op): Option<World>
    requires c.groups > 0
  {
    match op
    case PushOp(t, need) =>
      var r :- Push(c.groups, w.h, t, need);
      Some(w.(h := r.1, pushed := match r.0 case Tagged(tag) => w.pushed[tag := t] case Stray(_) => w.pushed))
    case CommitForwardOp =>
      var h :- CommitForward(c.groups, c.WindowMap(), w.h);
      Some(w.(h := h))
    case CommitBackwardOp =>
      var h :- CommitBackward(c.groups, c.WindowMap(), w.h);
      Some(Settle(World(h, Backward, w.pushed)))
    case PopOp(handle) =>
      var r :- Pop(w.h, handle);
      Some(Settle(w.(h := r.1, pushed := match handle case Tagged(tag) => w.pushed - {tag} case Stray(_) => w.pushed)))
  }

  // ----- the invariant -----

  function Done(c: Config, k: int): nat
    requires c.groups > 0
  {
    WindowsBefore(c.layers, c.groups, c.groups, k)
  }

  ghost predicate PushedOk(c: Config, pushed: map<Tag, Tensor>) {
    && (forall t :: t in pushed ==> t.group < c.layers && WellFormed(pushed[t]))
    && (forall t, u :: t in pushed && u in pushed && t.group == u.group && pushed[t].key == pushed[u].key ==>
                         pushed[t].flat == pushed[u].flat)
  }

  ghost predicate FaithfulAt(h: Handler, t: Tag, original: Tensor)
    requires t in h.states
  {
    match h.states[t]
    case OnDevice(x) => SameValue(x, original)
    case OnHost(key, shape) =>
      t.group in h.copies && key in h.copies[t.group] && h.copies[t.group][key] == original.flat &&
      shape == original.shape
  }

  /** Under every live tag lies the pushed tensor's value, on the device or as a host copy that is still kept. */
  ghost predicate Faithful(c: Config, h: Handler, pushed: map<Tag, Tensor>) {
    && h.states.Keys == pushed.Keys
    && (forall t :: t in h.bufs <==> t in pushed && t.group < c.groups)
    && (forall t :: t in pushed ==> FaithfulAt(h, t, pushed[t]))
  }

  ghost predicate Untouched(h: Handler, pushed: map<Tag, Tensor>) {
    forall t :: t in h.states && h.states[t].OnDevice? ==> t in pushed && h.states[t].tensor == pushed[t]
  }

  ghost predicate CountersOk(c: Config, w: World)
    requires c.groups > 0
  {
    && 0 <= w.h.current <= c.layers
    && (w.phase.Forward? ==>
          && w.h.offloaded == Done(c, w.h.current)
          && (forall g :: g in w.h.copies <==> 0 <= g < c.groups && w.h.current > 0 && g <= w.h.offloaded)
          && (w.h.current == c.layers ==> w.h.tensorCount == 0)
          && (forall t :: t in w.pushed ==> t.group <= w.h.current)
          && (forall t :: t in w.pushed && t.group == w.h.current ==> t.index < w.h.tensorCount))
    && (w.phase.Backward? ==>
          && w.h.offloaded ==
             (if w.h.current == 0 then 0 else if Done(c, w.h.current) > 1 then Done(c, w.h.current) else 1)
          && (forall g :: g in w.h.copies <==> 0 <= g < Done(c, w.h.current))
          && w.h.tensorCount == 0
          && w.h.current < c.layers
          && (w.h.current == 0 ==> w.pushed != map[]))
  }

  /** Which tensors are on the host: all of a copied group, if some group of the model is never offloaded; when
      every group is, only those of group 0. */
  ghost predicate HostOk(c: Config, h: Handler) {
    if c.groups < c.layers
    then forall t :: t in h.states && t.group in h.copies ==> h.states[t].OnHost?
    else forall t :: t in h.states && h.states[t].OnHost? ==> t.group == 0
  }

  ghost predicate BufsOk(w: World) {
    forall t :: t in w.h.bufs && w.h.bufs[t].Some? ==> w.phase.Forward? && w.h.offloaded <= t.group
  }

  ghost predicate Inv(c: Config, w: World)
    requires c.Valid()
  {
    && PushedOk(c, w.pushed)
    && Faithful(c, w.h, w.pushed)
    && (w.phase.Forward? ==> Untouched(w.h, w.pushed))
    && CountersOk(c, w)
    && HostOk(c, w.h)
    && BufsOk(w)
  }

  lemma StartInv(c: Config)
    requires c.Valid()
    ensures Inv(c, START)
  {
    WindowsBeforeEnds(c.layers, c.groups);
  }

  // ----- pushes -----

  lemma PushKeepsFaithful(c: Config, w: World, t: Tensor, tag: Tag, h': Handler)
    requires PushedOk(c, w.pushed) && Faithful(c, w.h, w.pushed) && Untouched(w.h, w.pushed)
    requires tag !in w.pushed && tag.group < c.layers && WellFormed(t)
    requires forall u :: u in w.pushed && u.group == tag.group && w.pushed[u].key == t.key ==>
                             w.pushed[u].flat == t.flat
    requires h'.states == w.h.states[tag := OnDevice(t)] && h'.copies == w.h.copies
    requires h'.bufs == if tag.group < c.groups then w.h.bufs[tag := Some(t)] else w.h.bufs
    ensures PushedOk(c, w.pushed[tag := t]) && Faithful(c, h', w.pushed[tag := t]) && Untouched(h', w.pushed[tag := t])
  {
    hide PushedOk, Faithful, Untouched;
    PushKeepsAgreement(c, w.pushed, t, tag);
    PushKeepsUntouched(w.h, w.pushed, t, tag, h');
    PushKeepsValues(c, w.h, w.pushed, t, tag, h');
  }

  lemma PushKeepsValues(c: Config, h: Handler, pushed: map<Tag, Tensor>, t: Tensor, tag: Tag, h': Handler)
    requires Faithful(c, h, pushed) && tag !in pushed
    requires h'.states == h.states[tag := OnDevice(t)] && h'.copies == h.copies
    requires h'.bufs == if tag.group < c.groups then h.bufs[tag := Some(t)] else h.bufs
    ensures Faithful(c, h', pushed[tag := t])
  {
    var pushed' := pushed[tag := t];
    forall u | u in pushed'
      ensures FaithfulAt(h', u, pushed'[u])
    {
      if u != tag {
        assert FaithfulAt(h, u, pushed[u]);
      }
    }
  }

  lemma PushKeepsAgreement(c: Config, pushed: map<Tag, Tensor>, t: Tensor, tag: Tag)
    requires PushedOk(c, pushed) && tag !in pushed && tag.group < c.layers && WellFormed(t)
    requires forall u :: u in pushed && u.group == tag.group && pushed[u].key == t.key ==> pushed[u].flat == t.flat
    ensures PushedOk(c, pushed[tag := t])
  {
  }

  lemma PushKeepsUntouched(h: Handler, pushed: map<Tag, Tensor>, t: Tensor, tag: Tag, h': Handler)
    requires Untouched(h, pushed) && tag !in pushed && h'.states == h.states[tag := OnDevice(t)]
    ensures Untouched(h', pushed[tag := t])
  {
  }

  lemma PushKeeps(c: Config, w: World, t: Tensor, need: bool)
    requires c.Valid() && Inv(c, w) && Legal(c, w, PushOp(t, need))
    ensures Apply(c, w, PushOp(t, need)).Some?
    ensures Inv(c, Apply(c, w, PushOp(t, need)).value)
  {
    hide Faithful, PushedOk, Untouched, HostOk, BufsOk;
    if need {
      var tag := Tag(w.h.current, w.h.tensorCount);
      PushedKeys(c, w);
      var w' := Apply(c, w, PushOp(t, need)).value;
      PushedInv(c, w, t, tag, w');
    }
  }

  /** Tags in use are those pushed and not yet popped. */
  lemma PushedKeys(c: Config, w: World)
    requires c.Valid() && Inv(c, w)
    ensures w.h.states.Keys == w.pushed.Keys
  {
  }

  lemma PushedInv(c: Config, w: World, t: Tensor, tag: Tag, w': World)
    requires c.Valid() && Inv(c, w) && Legal(c, w, PushOp(t, true))
    requires tag == Tag(w.h.current, w.h.tensorCount)
    requires w'.pushed == w.pushed[tag := t] && w'.phase == w.phase
    requires w'.h.states == w.h.states[tag := OnDevice(t)] && w'.h.copies == w.h.copies
    requires w'.h.bufs == if tag.group < c.groups then w.h.bufs[tag := Some(t)] else w.h.bufs
    requires w'.h.current == w.h.current && w'.h.offloaded == w.h.offloaded
    requires w'.h.tensorCount == w.h.tensorCount + 1
    ensures Inv(c, w')
  {
    hide Faithful, PushedOk, Untouched, HostOk;
    PushKeepsFaithful(c, w, t, tag, w'.h);
    PushKeepsCounters(c, w, t, tag, w');
    PushKeepsHost(c, w, t, tag, w'.h);
    OffloadedNotAhead(c, w);
  }

  lemma PushKeepsCounters(c: Config, w: World, t: Tensor, tag: Tag, w': World)
    requires c.Valid() && CountersOk(c, w) && w.phase.Forward? && w.h.current < c.layers
    requires tag == Tag(w.h.current, w.h.tensorCount)
    requires w'.pushed == w.pushed[tag := t] && w'.phase == w.phase && w'.h.copies == w.h.copies
    requires w'.h.current == w.h.current && w'.h.offloaded == w.h.offloaded
    requires w'.h.tensorCount == w.h.tensorCount + 1
    ensures CountersOk(c, w')
  {
  }

  lemma PushKeepsHost(c: Config, w: World, t: Tensor, tag: Tag, h': Handler)
    requires c.Valid() && CountersOk(c, w) && HostOk(c, w.h) && w.phase.Forward?
    requires tag == Tag(w.h.current, w.h.tensorCount)
    requires h'.states == w.h.states[tag := OnDevice(t)] && h'.copies == w.h.copies
    ensures HostOk(c, h')
  {
    if c.groups < c.layers {
      ForwardCopiesArePast(c, w);
    }
  }

  lemma OffloadedNotAhead(c: Config, w: World)
    requires c.Valid() && w.phase.Forward? && CountersOk(c, w)
    ensures w.h.offloaded <= w.h.current
  {
    var n := Done(c, w.h.current);
    WindowsBeforeIsPrefix(c.layers, c.groups, c.groups, w.h.current);
    WindowAfterGroup(c.layers, c.groups);
    if n > 0 {
      assert Window(c.layers, c.groups, n - 1) < w.h.current;
    }
  }

  /** While going forward with groups < layers, only groups already completed are being copied. */
  lemma ForwardCopiesArePast(c: Config, w: World)
    requires c.Valid() && c.groups < c.layers && w.phase.Forward? && CountersOk(c, w)
    ensures forall g :: g in w.h.copies ==> g < w.h.current
  {
    var n := Done(c, w.h.current);
    WindowsBeforeIsPrefix(c.layers, c.groups, c.groups, w.h.current);
    WindowAfterGroup(c.layers, c.groups);
    if n > 0 {
      assert Window(c.layers, c.groups, n - 1) < w.h.current;
    }
  }

  // ----- forward commits -----

  lemma BulkOffloadKeeps(c: Config, h: Handler, pushed: map<Tag, Tensor>, group: int)
    requires PushedOk(c, pushed) && Faithful(c, h, pushed) && Untouched(h, pushed)
    requires group !in h.copies
    ensures BulkOffload(h, group).Some?
    ensures var h' := BulkOffload(h, group).value;
            Faithful(c, h', pushed) && Untouched(h', pushed)
    ensures var h' := BulkOffload(h, group).value;
            forall t :: t in h.states ==> (h'.states[t].OnHost? <==> h.states[t].OnHost? || t.group == group)
  {
    hide Faithful, Untouched, PushedOk, AreHostCopies, CanOffload;
    GroupOnDevice(c, h, pushed, group);
    FaithfulKeys(c, h, pushed);
    forall t | t in pushed && t.group == group {
      CopiesHoldPushed(c, h, pushed, group, t);
    }
    OffloadedFaithful(c, h, pushed, group, BulkOffload(h, group).value);
    OffloadedUntouched(h, pushed, group);
    OffloadedOnHost(h, group);
  }

  lemma FaithfulKeys(c: Config, h: Handler, pushed: map<Tag, Tensor>)
    requires Faithful(c, h, pushed)
    ensures h.states.Keys == pushed.Keys
  {
  }

  lemma OffloadedOnHost(h: Handler, group: int)
    requires BulkOffload(h, group).Some?
    ensures var h' := BulkOffload(h, group).value;
            forall t :: t in h.states ==>
                            t in h'.states && (h'.states[t].OnHost? <==> h.states[t].OnHost? || t.group == group)
  {
    hide HostCopies;
  }

  lemma OffloadedFaithful(c: Config, h: Handler, pushed: map<Tag, Tensor>, group: int, h': Handler)
    requires Faithful(c, h, pushed) && group !in h.copies
    requires h'.states == LeaveOnHost(h.states, group) && h'.bufs == h.bufs
    requires h'.copies == h.copies[group := HostCopies(h.states, group)]
    requires forall t :: t in GroupTags(h.states, group) ==> h.states[t].OnDevice? && h.states[t].tensor == pushed[t]
    requires forall t :: t in pushed && t.group == group ==>
                             var copies := HostCopies(h.states, group);
                             pushed[t].key in copies && copies[pushed[t].key] == pushed[t].flat
    ensures Faithful(c, h', pushed)
  {
    hide HostCopies;
    forall t | t in pushed
      ensures FaithfulAt(h', t, pushed[t])
    {
      assert FaithfulAt(h, t, pushed[t]);
      assert t.group == group ==> t in GroupTags(h.states, group);
    }
  }

  /** Before its copy a group is on the device as it was pushed. */
  lemma GroupOnDevice(c: Config, h: Handler, pushed: map<Tag, Tensor>, group: int)
    requires Faithful(c, h, pushed) && Untouched(h, pushed) && group !in h.copies
    ensures CanOffload(h.states, group)
    ensures forall t :: t in GroupTags(h.states, group) ==> t in pushed && h.states[t].tensor == pushed[t]
  {
    forall t | t in GroupTags(h.states, group)
      ensures h.states[t].OnDevice? && t in pushed && h.states[t].tensor == pushed[t]
    {
      assert FaithfulAt(h, t, pushed[t]);
    }
  }

  /** The kept copy of a key has the elements of every tensor of the group with that key. */
  lemma CopiesHoldPushed(c: Config, h: Handler, pushed: map<Tag, Tensor>, group: int, t: Tag)
    requires PushedOk(c, pushed) && CanOffload(h.states, group) && t in h.states && t.group == group && t in pushed
    requires forall u :: u in GroupTags(h.states, group) ==> u in pushed && h.states[u].tensor == pushed[u]
    ensures var copies := HostCopies(h.states, group);
            pushed[t].key in copies && copies[pushed[t].key] == pushed[t].flat
  {
    assert t in GroupTags(h.states, group);
    var key := pushed[t].key;
    assert key in GroupKeys(h.states, group);
    var copies := HostCopies(h.states, group);
    var u :| Holds(h.states, group, u, key, copies[key]);
    assert u in pushed && pushed[u].key == pushed[t].key;
  }

  lemma OffloadedUntouched(h: Handler, pushed: map<Tag, Tensor>, group: int)
    requires BulkOffload(h, group).Some? && Untouched(h, pushed)
    ensures Untouched(BulkOffload(h, group).value, pushed)
  {
    hide HostCopies;
  }

  lemma KickstartKeeps(c: Config, w: World)
    requires c.Valid() && Inv(c, w) && Legal(c, w, CommitForwardOp)
    ensures Kickstart(w.h).Some?
    ensures var h1 := Kickstart(w.h).value;
            && Faithful(c, h1, w.pushed) && Untouched(h1, w.pushed) && HostOk(c, h1)
            && h1.bufs == w.h.bufs && h1.offloaded == w.h.offloaded && h1.current == w.h.current
            && (forall g :: g in h1.copies <==> 0 <= g < c.groups && g <= w.h.offloaded)
  {
    hide Faithful, PushedOk, Untouched, BufsOk, HostOk, BulkOffload;
    WindowsBeforeEnds(c.layers, c.groups);
    if w.h.current == 0 {
      var h0 := Issue(w.h, [Wait(D2H, Compute)]);
      SameData(c, w.h, h0, w.pushed);
      BulkOffloadKeeps(c, h0, w.pushed, 0);
      OffloadChanges(h0, 0);
      FaithfulKeys(c, h0, w.pushed);
      OffloadKeepsHost(c, h0, BulkOffload(h0, 0).value, 0, w.pushed.Keys);
    }
  }

  /** At its window, group `n` is handed over and group `n + 1`, already pushed in full, is copied. */
  lemma AtWindowKeeps(c: Config, h: Handler, pushed: map<Tag, Tensor>)
    requires c.Valid() && PushedOk(c, pushed) && Faithful(c, h, pushed) && Untouched(h, pushed) && HostOk(c, h)
    requires forall g :: g in h.copies <==> 0 <= g < c.groups && g <= h.offloaded
    requires 0 <= h.offloaded < c.groups
    requires c.groups == c.layers ==> forall t :: t in pushed ==> t.group <= h.offloaded
    ensures AtWindow(c.groups, h).Some?
    ensures var h' := AtWindow(c.groups, h).value;
            && Faithful(c, h', pushed) && Untouched(h', pushed) && HostOk(c, h')
            && (forall g :: g in h'.copies <==> 0 <= g < c.groups && g <= h.offloaded + 1)
            && h'.bufs == ReleaseGroup(h.bufs, h.offloaded) && h'.offloaded == h.offloaded + 1 &&
               h'.current == h.current
  {
    hide Faithful, Untouched, PushedOk, HostOk, HandOver, AtWindow, BulkOffload;
    var h1 := HandOver(h);
    HandOverKeepsData(h);
    SameData(c, h, h1, pushed);
    AtWindowUnfolds(c.groups, h);
    if h.offloaded < c.groups - 1 {
      BulkOffloadKeeps(c, h1, pushed, h.offloaded + 1);
      OffloadChanges(h1, h.offloaded + 1);
      var h2 := BulkOffload(h1, h.offloaded + 1).value;
      FaithfulKeys(c, h1, pushed);
      OffloadKeepsHost(c, h1, h2, h.offloaded + 1, pushed.Keys);
      SameData(c, h2, AtWindow(c.groups, h).value, pushed);
    } else {
      SameData(c, h1, AtWindow(c.groups, h).value, pushed);
    }
  }

  lemma HandOverKeepsData(h: Handler)
    ensures var h' := HandOver(h);
            && h'.states == h.states && h'.copies == h.copies && h'.offloaded == h.offloaded
            && h'.current == h.current && h'.bufs == ReleaseGroup(h.bufs, h.offloaded) && h'.bufs.Keys == h.bufs.Keys
  {
  }

  lemma OffloadChanges(h: Handler, group: int)
    requires BulkOffload(h, group).Some?
    ensures var h' := BulkOffload(h, group).value;
            && h'.states.Keys == h.states.Keys && h'.copies.Keys == h.copies.Keys + {group} && h'.bufs == h.bufs
            && h'.offloaded == h.offloaded && h'.current == h.current && h'.tensorCount == h.tensorCount
  {
    hide HostCopies;
  }

  /** Copying a group keeps the rule of what is on the host; if every group is offloaded, the group has no tags yet. */
  lemma OffloadKeepsHost(c: Config, h: Handler, h': Handler, group: int, tags: set<Tag>)
    requires HostOk(c, h) && h.states.Keys == tags && h'.states.Keys == tags &&
             h'.copies.Keys == h.copies.Keys + {group}
    requires c.groups <= c.layers
    requires c.groups == c.layers ==> group == 0 || forall t :: t in tags ==> t.group < group
    requires forall t :: t in h.states ==> (h'.states[t].OnHost? <==> h.states[t].OnHost? || t.group == group)
    ensures HostOk(c, h')
  {
  }

  lemma AtWindowUnfolds(groups: nat, h: Handler)
    ensures h.offloaded < groups - 1 && BulkOffload(HandOver(h), h.offloaded + 1).Some? ==>
              AtWindow(groups, h) ==
                  Some(BulkOffload(HandOver(h), h.offloaded + 1).value.(offloaded := h.offloaded + 1))
    ensures h.offloaded >= groups - 1 ==> AtWindow(groups, h) == Some(HandOver(h).(offloaded := h.offloaded + 1))
  {
  }

  /** The data invariants only look at the saved states, the host copies and which tags have buffers. */
  lemma SameData(c: Config, h: Handler, h': Handler, pushed: map<Tag, Tensor>)
    requires Faithful(c, h, pushed)
    requires h'.states == h.states && h'.copies == h.copies && h'.bufs.Keys == h.bufs.Keys
    ensures Faithful(c, h', pushed)
    ensures Untouched(h, pushed) ==> Untouched(h', pushed)
    ensures HostOk(c, h) ==> HostOk(c, h')
  {
    forall t | t in pushed
      ensures FaithfulAt(h', t, pushed[t])
    {
      assert FaithfulAt(h, t, pushed[t]);
    }
  }

  lemma CommitForwardKeeps(c: Config, w: World)
    requires c.Valid() && Inv(c, w) && Legal(c, w, CommitForwardOp)
    ensures Apply(c, w, CommitForwardOp).Some?
    ensures Inv(c, Apply(c, w, CommitForwardOp).value)
  {
    hide Faithful, Untouched, HostOk, PushedOk, BufsOk, AtWindow, Kickstart;
    var k, n := w.h.current, w.h.offloaded;
    WindowFacts(c, k);
    KickstartKeeps(c, w);
    var h1 := Kickstart(w.h).value;
    if Window(c.layers, c.groups, n) == k {
      AtWindowKeeps(c, h1, w.pushed);
    }
    var h2 := if Window(c.layers, c.groups, n) == k then AtWindow(c.groups, h1).value else h1;
    CommittedInv(c, w, h1, h2);
    CommitForwardUnfolds(c, w.h);
  }

  lemma CommitForwardUnfolds(c: Config, h: Handler)
    requires c.groups > 0 && Kickstart(h).Some? && 0 <= h.offloaded < c.groups
    requires Kickstart(h).value.offloaded == h.offloaded && Kickstart(h).value.current == h.current
    ensures var h1 := Kickstart(h).value;
            var atWindow := Window(c.layers, c.groups, h.offloaded) == h.current;
            CommitForward(c.groups, c.WindowMap(), h) ==
            if !atWindow then Some(h1.(current := h.current + 1, tensorCount := 0))
            else if AtWindow(c.groups, h1).None? then None
            else Some(AtWindow(c.groups, h1).value.(current := AtWindow(c.groups, h1).value.current + 1,
                                                    tensorCount := 0))
  {
    assert c.WindowMap()[h.offloaded] == Window(c.layers, c.groups, h.offloaded);
  }

  lemma CommittedInv(c: Config, w: World, h1: Handler, h2: Handler)
    requires c.Valid() && Inv(c, w) && Legal(c, w, CommitForwardOp)
    requires Faithful(c, h2, w.pushed) && Untouched(h2, w.pushed) && HostOk(c, h2)
    requires h1.bufs == w.h.bufs && h2.current == w.h.current
    requires var n := w.h.offloaded;
             if 0 <= n && Window(c.layers, c.groups, n) == w.h.current
             then h2.offloaded == n + 1 && h2.bufs == ReleaseGroup(h1.bufs, n) &&
                  (forall g :: g in h2.copies <==> 0 <= g < c.groups && g <= n + 1)
             else h2.offloaded == n && h2.bufs == h1.bufs &&
                  (forall g :: g in h2.copies <==> 0 <= g < c.groups && g <= n)
    ensures Inv(c, w.(h := h2.(current := w.h.current + 1, tensorCount := 0)))
  {
    hide Faithful, Untouched, HostOk, PushedOk, BufsOk, WindowsBefore, Window;
    var h' := h2.(current := w.h.current + 1, tensorCount := 0);
    SameData(c, h2, h', w.pushed);
    WindowFacts(c, w.h.current);
    assert h'.offloaded == Done(c, w.h.current + 1);
    CommittedCounters(c, w, h');
    CommittedBufs(w, h');
  }

  lemma CommittedBufs(w: World, h': Handler)
    requires w.phase.Forward? && BufsOk(w)
    requires (h'.offloaded == w.h.offloaded + 1 && h'.bufs == ReleaseGroup(w.h.bufs, w.h.offloaded)) ||
             (h'.offloaded == w.h.offloaded && h'.bufs == w.h.bufs)
    ensures BufsOk(w.(h := h'))
  {
    forall t | t in h'.bufs && h'.bufs[t].Some?
      ensures h'.offloaded <= t.group
    {
      assert t in w.h.bufs && w.h.bufs[t].Some?;
    }
  }

  lemma CommittedCounters(c: Config, w: World, h': Handler)
    requires c.Valid() && CountersOk(c, w) && Legal(c, w, CommitForwardOp)
    requires h'.current == w.h.current + 1 && h'.offloaded == Done(c, w.h.current + 1) && h'.tensorCount == 0
    requires forall g :: g in h'.copies <==> 0 <= g < c.groups && g <= h'.offloaded
    ensures CountersOk(c, w.(h := h'))
  {
  }

  lemma WindowFacts(c: Config, k: nat)
    requires c.Valid() && k < c.layers
    ensures var n := Done(c, k);
            && n < c.groups && Window(c.layers, c.groups, n) >= k
            && (c.groups == c.layers ==> n == k)
            && Done(c, k + 1) == if Window(c.layers, c.groups, n) == k then n + 1 else n
    ensures k == 0 ==> Done(c, k) == 0
  {
    WindowsBeforeStep(c.layers, c.groups, k);
    WindowsBeforeEnds(c.layers, c.groups);
    WindowsBeforeIsPrefix(c.layers, c.groups, c.groups, k);
    WindowAfterGroup(c.layers, c.groups);
    WindowLast(c.layers, c.groups);
    var n := Done(c, k);
    var last := Window(c.layers, c.groups, c.groups - 1);
    assert n < c.groups;
    if c.groups == c.layers {
      assert n > 0 ==> Window(c.layers, c.groups, n - 1) < k;
    }
  }

  // ----- backward commits -----

  lemma BulkReloadKeeps(c: Config, h: Handler, pushed: map<Tag, Tensor>, group: nat)
    requires PushedOk(c, pushed) && Faithful(c, h, pushed)
    requires group < c.groups && group in h.copies
    ensures BulkReload(c.groups, h, group).Some?
    ensures var h' := BulkReload(c.groups, h, group).value;
            && Faithful(c, h', pushed)
            && (forall t :: t in h.states ==> (h'.states[t].OnHost? <==> h.states[t].OnHost? && t.group != group))
  {
    hide PushedOk, Product, Faithful;
    HostTagsReload(c, h, pushed, group);
    ReloadedFaithful(c, h, pushed, group, BulkReload(c.groups, h, group).value);
  }

  lemma ReloadedFaithful(c: Config, h: Handler, pushed: map<Tag, Tensor>, group: nat, h': Handler)
    requires Faithful(c, h, pushed) && group in h.copies && CanReload(h.states, h.copies[group], group)
    requires h'.states == Restore(h.states, h.copies[group], HostTags(h.states, group)) && h'.bufs == h.bufs
    requires h'.copies == h.copies - {group}
    ensures Faithful(c, h', pushed)
  {
    hide Product;
    forall t | t in pushed
      ensures FaithfulAt(h', t, pushed[t])
    {
      assert FaithfulAt(h, t, pushed[t]);
    }
  }

  lemma HostTagsReload(c: Config, h: Handler, pushed: map<Tag, Tensor>, group: nat)
    requires PushedOk(c, pushed) && Faithful(c, h, pushed) && group in h.copies
    ensures CanReload(h.states, h.copies[group], group)
  {
    hide Product;
    forall t | t in HostTags(h.states, group)
      ensures h.states[t].key in h.copies[group]
      ensures |h.copies[group][h.states[t].key]| == Product(h.states[t].shape)
    {
      assert FaithfulAt(h, t, pushed[t]);
    }
  }

  /** What the counters are when the backward pass stands at group `k`, for the handler `h`. */
  ghost predicate BackwardCounters(c: Config, h: Handler, k: int, count: nat)
    requires c.groups > 0
  {
    && h.current == k && h.tensorCount == 0
    && h.offloaded == (if count > 1 then count else 1)
    && (forall g :: g in h.copies <==> 0 <= g < count)
    && (forall t :: t in h.bufs ==> h.bufs[t].None?)
  }

  lemma BackwardWindowFacts(c: Config, k: nat)
    requires c.Valid() && k < c.layers
    ensures var n := Done(c, k + 1);
            && Done(c, k) == (if n > 0 && Window(c.layers, c.groups, n - 1) == k then n - 1 else n)
            && (k == 0 ==> Done(c, k) == 0)
            && (n == 0 ==> Window(c.layers, c.groups, 0) != k)
  {
    WindowFacts(c, k);
    WindowsBeforeStep(c.layers, c.groups, k);
    WindowsBeforeIsPrefix(c.layers, c.groups, c.groups, k);
    WindowsBeforeIsPrefix(c.layers, c.groups, c.groups, k + 1);
  }

  lemma ReloadAtWindowKeeps(c: Config, h: Handler, pushed: map<Tag, Tensor>, count: nat)
    requires c.Valid() && PushedOk(c, pushed) && Faithful(c, h, pushed) && HostOk(c, h)
    requires 0 < count <= c.groups && BackwardCounters(c, h, h.current, count)
    ensures ReloadAtWindow(c.groups, h).Some?
    ensures var h' := ReloadAtWindow(c.groups, h).value;
            Faithful(c, h', pushed) && HostOk(c, h') && BackwardCounters(c, h', h.current, count - 1)
  {
    var h1 := Issue(h, [Wait(H2D, Compute), Wait(Compute, H2D)]);
    SameData(c, h, h1, pushed);
    BulkReloadKeeps(c, h1, pushed, count - 1);
    var h2 := BulkReload(c.groups, h1, count - 1).value;
    SameData(c, h2, ReloadAtWindow(c.groups, h).value, pushed);
  }

  lemma CommitBackwardUnfolds(c: Config, h: Handler)
    requires c.groups > 0 && h.current > 0 && 0 < h.offloaded <= c.groups
    ensures var h1 := h.(current := h.current - 1);
            var atWindow := Window(c.layers, c.groups, h.offloaded - 1) == h1.current;
            CommitBackward(c.groups, c.WindowMap(), h) ==
            if !atWindow then Some(FinishBackward(h1))
            else if ReloadAtWindow(c.groups, h1).None? then None
            else Some(FinishBackward(ReloadAtWindow(c.groups, h1).value))
  {
    assert c.WindowMap()[h.offloaded - 1] == Window(c.layers, c.groups, h.offloaded - 1);
  }

  lemma CommitBackwardKeeps(c: Config, w: World)
    requires c.Valid() && Inv(c, w) && Legal(c, w, CommitBackwardOp)
    ensures Apply(c, w, CommitBackwardOp).Some?
    ensures Inv(c, Apply(c, w, CommitBackwardOp).value)
  {
    hide Faithful, Untouched, HostOk, PushedOk, BufsOk, ReloadAtWindow, Settle;
    var k := w.h.current - 1;
    BackwardStart(c, w);
    BackwardWindowFacts(c, k);
    CommitBackwardUnfolds(c, w.h);
    var h1 := w.h.(current := k);
    var count := Done(c, k + 1);
    SameData(c, w.h, h1, w.pushed);
    if Window(c.layers, c.groups, w.h.offloaded - 1) == k {
      ReloadAtWindowKeeps(c, h1, w.pushed, count);
    }
    var h2 := if Window(c.layers, c.groups, w.h.offloaded - 1) == k then ReloadAtWindow(c.groups, h1).value else h1;
    BackwardInv(c, w, h2, k);
  }

  /** Standing before a backward commit, the counters have their backward form, at the turn as well. */
  lemma BackwardStart(c: Config, w: World)
    requires c.Valid() && Inv(c, w) && Legal(c, w, CommitBackwardOp)
    ensures 0 < w.h.current <= c.layers
    ensures BackwardCounters(c, w.h.(tensorCount := 0), w.h.current, Done(c, w.h.current))
    ensures w.h.tensorCount == 0
  {
    WindowsBeforeEnds(c.layers, c.groups);
    if w.phase.Forward? {
      assert Done(c, w.h.current) == c.groups;
    }
  }

  lemma BackwardInv(c: Config, w: World, h2: Handler, k: nat)
    requires c.Valid() && PushedOk(c, w.pushed) && Faithful(c, h2, w.pushed) && HostOk(c, h2)
    requires k < c.layers && BackwardCounters(c, h2, k, Done(c, k))
    requires k == 0 ==> Done(c, k) == 0
    ensures Inv(c, Settle(World(FinishBackward(h2), Backward, w.pushed)))
  {
    SameData(c, h2, FinishBackward(h2), w.pushed);
  }

  // ----- pops -----

  lemma PopKeeps(c: Config, w: World, handle: Handle)
    requires c.Valid() && Inv(c, w) && Legal(c, w, PopOp(handle))
    ensures Apply(c, w, PopOp(handle)).Some?
    ensures Inv(c, Apply(c, w, PopOp(handle)).value)
    ensures match handle
            case Stray(t) => Pop(w.h, handle).value.0 == t
            case Tagged(tag) => SameValue(Pop(w.h, handle).value.0, w.pushed[tag])
  {
    match handle
    case Stray(_) =>
    case Tagged(tag) =>
      PoppableIsOnDevice(c, w, tag);
      var h' := Pop(w.h, handle).value.1;
      PoppedInv(c, w, tag, h');
  }

  lemma PoppableIsOnDevice(c: Config, w: World, tag: Tag)
    requires c.Valid() && Faithful(c, w.h, w.pushed) && CountersOk(c, w) && w.phase.Backward?
    requires tag in w.pushed && tag.group >= w.h.current
    ensures w.h.states[tag].OnDevice? && SameValue(w.h.states[tag].tensor, w.pushed[tag])
  {
    assert FaithfulAt(w.h, tag, w.pushed[tag]);
    CopiedBehind(c, w.h.current, tag.group);
  }

  /** Going backward, the groups with a kept copy lie below the group the pass stands at. */
  lemma CopiedBehind(c: Config, k: int, g: nat)
    requires c.Valid()
    ensures g < Done(c, k) ==> g < k
  {
    WindowsBeforeIsPrefix(c.layers, c.groups, c.groups, k);
    WindowAfterGroup(c.layers, c.groups);
    var w := Window(c.layers, c.groups, g);
  }

  lemma PoppedInv(c: Config, w: World, tag: Tag, h': Handler)
    requires c.Valid() && Inv(c, w) && w.phase.Backward? && tag in w.pushed
    requires h'.states == w.h.states - {tag} && h'.bufs == w.h.bufs - {tag} && h'.copies == w.h.copies
    requires h'.current == w.h.current && h'.offloaded == w.h.offloaded && h'.tensorCount == w.h.tensorCount
    ensures Inv(c, Settle(w.(h := h', pushed := w.pushed - {tag})))
  {
    hide Faithful, FaithfulAt, PushedOk, HostOk, WindowsBefore, Window;
    WindowsBeforeEnds(c.layers, c.groups);
    PoppedFaithful(c, w.h, w.pushed, tag, h');
    PoppedHost(c, w.h, w.pushed, tag, h');
  }

  lemma PoppedHost(c: Config, h: Handler, pushed: map<Tag, Tensor>, tag: Tag, h': Handler)
    requires PushedOk(c, pushed) && HostOk(c, h)
    requires h'.states == h.states - {tag} && h'.copies == h.copies
    ensures PushedOk(c, pushed - {tag}) && HostOk(c, h')
  {
  }

  lemma PoppedFaithful(c: Config, h: Handler, pushed: map<Tag, Tensor>, tag: Tag, h': Handler)
    requires Faithful(c, h, pushed) && tag in pushed
    requires h'.states == h.states - {tag} && h'.bufs == h.bufs - {tag} && h'.copies == h.copies
    ensures Faithful(c, h', pushed - {tag})
    ensures h'.states.Keys == (pushed - {tag}).Keys && forall t :: t in h'.bufs ==> t in pushed - {tag}
  {
    forall t | t in pushed - {tag}
      ensures FaithfulAt(h', t, pushed[t])
    {
      assert FaithfulAt(h, t, pushed[t]);
    }
  }

  // ----- whole runs -----

  ghost predicate LegalRun(c: Config, w: World, ops: seq<Op>)
    requires c.groups > 0
    decreases |ops|
  {
    ops == [] ||
    (Legal(c, w, ops[0]) && (Apply(c, w, ops[0]).Some? ==> LegalRun(c, Apply(c, w, ops[0]).value, ops[1..])))
  }

  ghost function Run(c: Config, w: World, ops: seq<Op>): Option<World>
    requires c.groups > 0
    decreases |ops|
  {
    if ops == [] then Some(w)
    else
      var w' :- Apply(c, w, ops[0]);
      Run(c, w', ops[1..])
  }

  lemma StepKeeps(c: Config, w: World, op: Op)
    requires c.Valid() && Inv(c, w) && Legal(c, w, op)
    ensures Apply(c, w, op).Some? && Inv(c, Apply(c, w, op).value)
  {
    match op
    case PushOp(t, need) => PushKeeps(c, w, t, need);
    case CommitForwardOp => CommitForwardKeeps(c, w);
    case CommitBackwardOp => CommitBackwardKeeps(c, w);
    case PopOp(handle) => PopKeeps(c, w, handle);
  }

  lemma {:induction false} RunKeeps(c: Config, w: World, ops: seq<Op>)
    requires c.Valid() && Inv(c, w) && LegalRun(c, w, ops)
    ensures Run(c, w, ops).Some? && Inv(c, Run(c, w, ops).value)
    decreases |ops|
  {
    if ops != [] {
      StepKeeps(c, w, ops[0]);
      RunKeeps(c, Apply(c, w, ops[0]).value, ops[1..]);
    }
  }

  /** Transparency: in any run autograd can produce, over any number of passes, no assertion or lookup of the
      handler fails, and a legal pop hands back the elements and shape of the tensor pushed under its tag. */
  lemma OffloadIsTransparent(c: Config, ops: seq<Op>, handle: Handle)
    requires c.Valid() && LegalRun(c, START, ops)
    ensures Run(c, START, ops).Some?
    ensures var w := Run(c, START, ops).value;
            Legal(c, w, PopOp(handle)) ==>
              Pop(w.h, handle).Some? &&
              SameValue(Pop(w.h, handle).value.0,
                        match handle case Stray(t) => t case Tagged(tag) => w.pushed[tag])
  {
    StartInv(c);
    RunKeeps(c, START, ops);
    var w := Run(c, START, ops).value;
    if Legal(c, w, PopOp(handle)) {
      PopKeeps(c, w, handle);
    }
  }

  /** The step that ends a pass leaves the handler in its initial state, so the next pass can reuse every tag. */
  lemma PassEndsClean(c: Config, ops: seq<Op>, op: Op)
    requires c.Valid() && LegalRun(c, START, ops)
    ensures Run(c, START, ops).Some?
    ensures var w := Run(c, START, ops).value;
            w.phase.Backward? && Legal(c, w, op) ==>
              && Apply(c, w, op).Some?
              && var w' := Apply(c, w, op).value;
                 w'.phase.Forward? ==> w'.h.(log := []) == INITIAL && w'.pushed == map[]
  {
    StartInv(c);
    RunKeeps(c, START, ops);
    var w := Run(c, START, ops).value;
    if w.phase.Backward? && Legal(c, w, op) {
      EndedPassIsClean(c, w, op);
    }
  }

  lemma EndedPassIsClean(c: Config, w: World, op: Op)
    requires c.Valid() && Inv(c, w) && w.phase.Backward? && Legal(c, w, op)
    ensures Apply(c, w, op).Some?
    ensures var w' := Apply(c, w, op).value;
            w'.phase.Forward? ==> w'.h.(log := []) == INITIAL && w'.pushed == map[]
  {
    StepKeeps(c, w, op);
    var w' := Apply(c, w, op).value;
    if w'.phase.Forward? {
      NothingCounted(c, w, op);
      SettledIsClean(c, w');
    }
  }

  /** A step that ends a pass leaves the counters of a fresh handler and no live tag. */
  lemma NothingCounted(c: Config, w: World, op: Op)
    requires c.Valid() && CountersOk(c, w) && w.phase.Backward? && Legal(c, w, op)
    requires Apply(c, w, op).Some? && Apply(c, w, op).value.phase.Forward?
    ensures var w' := Apply(c, w, op).value;
            w'.h.current == 0 && w'.h.tensorCount == 0 && w'.pushed == map[]
  {
    hide Faithful, PushedOk, Untouched, BufsOk, HostOk, CanReload, Restore, HostTags, WindowsBefore;
  }

  lemma SettledIsClean(c: Config, w: World)
    requires c.Valid() && Faithful(c, w.h, w.pushed) && CountersOk(c, w)
    requires w.phase.Forward? && w.h.current == 0 && w.h.tensorCount == 0 && w.pushed == map[]
    ensures w.h.(log := []) == INITIAL
  {
    WindowsBeforeEnds(c.layers, c.groups);
    assert forall g :: g !in w.h.copies;
    assert w.h.states == map[] && w.h.bufs == map[];
  }

  /** The counter during a pass: windows passed so far going forward, reloads outstanding (at least one until the
      last commit) going backward; and the groups with a kept host copy. */
  lemma CountersFollowWindows(c: Config, ops: seq<Op>)
    requires c.Valid() && LegalRun(c, START, ops)
    ensures Run(c, START, ops).Some?
    ensures var w := Run(c, START, ops).value;
            var n := Done(c, w.h.current);
            && (w.phase.Forward? ==> w.h.offloaded == n)
            && (w.phase.Backward? && w.h.current > 0 ==> w.h.offloaded == if n > 1 then n else 1)
            && (w.phase.Backward? ==> forall g :: g in w.h.copies <==> 0 <= g < n)
  {
    StartInv(c);
    RunKeeps(c, START, ops);
  }
}
