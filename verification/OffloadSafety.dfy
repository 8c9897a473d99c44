/** Device-memory residency and stream safety of the offloader, over every legal run. */
module OffloadSafety {
  import opened Wrappers
  import opened OffloadWindows
  import opened StreamOrder
  import opened Offload
  import opened OffloadRuns

  // ----- residency -----

  /** Groups with a tensor on the device: saved under a tag, or held by the double buffer. */
  function ResidentGroups(h: Handler): set<int> {
    (set t | t in h.states && h.states[t].OnDevice? :: t.group) + (set t | t in h.bufs && h.bufs[t].Some? :: t.group)
  }

  function Interval(lo: int, hi: int): (r: set<int>)
    requires lo <= hi + 1
    ensures forall g :: g in r <==> lo <= g <= hi
    ensures |r| == hi - lo + 1
    decreases hi - lo
  {
    if lo > hi then {} else Interval(lo, hi - 1) + {hi}
  }

  lemma SubsetSize(a: set<int>, b: set<int>)
    requires a <= b
    ensures |a| <= |b|
  {
    assert b == a + (b - a);
  }

  /** In backward every later group has been popped in full. */
  predicate LaterGroupsPopped(w: World) {
    w.phase.Backward? ==> forall t :: t in w.pushed ==> t.group <= w.h.current
  }

  /** With at least one group never offloaded, at most `layers - groups + 1` groups are on the device at any moment,
      provided each group is popped in full before the next backward commit. */
  lemma ResidencyBound(c: Config, w: World)
    requires c.Valid() && c.groups < c.layers && Inv(c, w) && LaterGroupsPopped(w)
    ensures |ResidentGroups(w.h)| <= c.layers - c.groups + 1
  {
    var k, n := w.h.current, Done(c, w.h.current);
    WindowsBeforeIsPrefix(c.layers, c.groups, c.groups, k);
    WindowAfterGroup(c.layers, c.groups);
    ResidentFrom(c, w);
    var hi := if k < c.layers then k else c.layers - 1;
    assert n < c.groups ==> k <= Window(c.layers, c.groups, n) <= n + c.layers - c.groups;
    if n <= hi + 1 {
      SubsetSize(ResidentGroups(w.h), Interval(n, hi));
    } else {
      SubsetSize(ResidentGroups(w.h), {});
    }
  }

  lemma ResidentFrom(c: Config, w: World)
    requires c.Valid() && c.groups < c.layers && Inv(c, w) && LaterGroupsPopped(w)
    ensures forall g :: g in ResidentGroups(w.h) ==> Done(c, w.h.current) <= g <= w.h.current && g < c.layers
  {
    forall t | t in w.h.states && w.h.states[t].OnDevice?
      ensures Done(c, w.h.current) <= t.group
    {
      assert t.group !in w.h.copies;
      if w.phase.Forward? && w.h.current == 0 {
        WindowsBeforeEnds(c.layers, c.groups);
      }
    }
  }

  /** The configuration the trainer builds, all layers but one: at most two groups on the device. */
  lemma AtMostTwoGroupsResident(c: Config, ops: seq<Op>)
    requires c.layers >= 2 && c.groups == c.layers - 1
    requires LegalRun(c, START, ops)
    ensures Run(c, START, ops).Some?
    ensures LaterGroupsPopped(Run(c, START, ops).value) ==> |ResidentGroups(Run(c, START, ops).value.h)| <= 2
  {
    StartInv(c);
    RunKeeps(c, START, ops);
    if LaterGroupsPopped(Run(c, START, ops).value) {
      ResidencyBound(c, Run(c, START, ops).value);
    }
  }

  // ----- stream safety -----

  /** Pairs of actions the device must not reorder. */
  predicate Conflict(a: Action, b: Action) {
    match (a, b)
    case (Produce(t), CopyOut(_, tags)) => t in tags               // copy what was computed
    case (CopyOut(_, tags), Release(more)) => tags * more != {}    // finish the copy before the buffer is reused
    case (CopyOut(_, tags), CopyIn(_, more)) => tags * more != {}  // reload only complete host copies
    case (CopyIn(_, tags), Use(t)) => t in tags                    // reload before use
    case _ => false
  }

  ghost predicate ConflictsOrdered(log: seq<Event<Action>>) {
    forall i: nat, j: nat :: i < j < |log| && log[i].Work? && log[j].Work? && Conflict(log[i].what, log[j].what) ==>
                               HappensBefore(log, i, j)
  }

  predicate OnOwnStream(e: Event<Action>) {
    e.Work? ==> e.on == match e.what
      case Produce(_) => Compute
      case Use(_) => Compute
      case Release(_) => Compute
      case CopyOut(_, _) => D2H
      case CopyIn(_, _) => H2D
  }

  /** The only device-to-host copies the compute stream has not waited for are of `group` (none, if negative). */
  ghost predicate PendingOutOnly(log: seq<Event<Action>>, group: int) {
    forall i: nat, t ::
      i < |log| && log[i].Work? && log[i].what.CopyOut? && t in log[i].what.tags && i >= Known(log, Compute, D2H)
      ==> t.group == group
  }

  ghost predicate PendingInOnly(log: seq<Event<Action>>, group: int) {
    forall i: nat, t ::
      i < |log| && log[i].Work? && log[i].what.CopyIn? && t in log[i].what.tags && i >= Known(log, Compute, H2D)
      ==> t.group == group
  }

  ghost predicate LogOk(log: seq<Event<Action>>, copyingOut: int, copyingIn: int) {
    && ConflictsOrdered(log)
    && (forall i: nat :: i < |log| ==> OnOwnStream(log[i]))
    && PendingOutOnly(log, copyingOut)
    && PendingInOnly(log, copyingIn)
  }

  lemma AppendOrdered(log: seq<Event<Action>>, e: Event<Action>)
    requires ConflictsOrdered(log)
    requires e.Work? ==> forall i: nat :: i < |log| && log[i].Work? && Conflict(log[i].what, e.what) ==>
                                            i < Known(log, e.on, log[i].on)
    ensures ConflictsOrdered(log + [e])
  {
    var log' := log + [e];
    forall i: nat, j: nat | i < j < |log'| && log'[i].Work? && log'[j].Work? && Conflict(log'[i].what, log'[j].what)
      ensures HappensBefore(log', i, j)
    {
      if j < |log| {
        HappensBeforeExtends(log, [e], i, j);
      } else {
        assert log'[..j] == log;
        KnownHappensBefore(log', i, j);
      }
    }
  }

  lemma AppendWait(log: seq<Event<Action>>, s: Stream, t: Stream, copyingOut: int, copyingIn: int)
    requires LogOk(log, copyingOut, copyingIn)
    ensures LogOk(log + [Wait(s, t)],
                  if s == Compute && t == D2H then -1 else copyingOut,
                  if s == Compute && t == H2D then -1 else copyingIn)
    ensures Known(log + [Wait(s, t)], s, t) == |log|
  {
    AppendOrdered(log, Wait(s, t));
    WaitKeepsPendingOut(log, s, t, copyingOut);
    WaitKeepsPendingIn(log, s, t, copyingIn);
    KnownAfterEvent(log, Wait(s, t), s, t);
  }

  lemma WaitKeepsPendingOut(log: seq<Event<Action>>, s: Stream, t: Stream, copyingOut: int)
    requires PendingOutOnly(log, copyingOut)
    ensures PendingOutOnly(log + [Wait(s, t)], if s == Compute && t == D2H then -1 else copyingOut)
  {
    KnownAfterEvent(log, Wait(s, t), Compute, D2H);
  }

  lemma WaitKeepsPendingIn(log: seq<Event<Action>>, s: Stream, t: Stream, copyingIn: int)
    requires PendingInOnly(log, copyingIn)
    ensures PendingInOnly(log + [Wait(s, t)], if s == Compute && t == H2D then -1 else copyingIn)
  {
    KnownAfterEvent(log, Wait(s, t), Compute, H2D);
  }

  lemma AppendWork(log: seq<Event<Action>>, e: Event<Action>, copyingOut: int, copyingIn: int, out': int, in': int)
    requires LogOk(log, copyingOut, copyingIn) && e.Work? && OnOwnStream(e)
    requires forall i: nat :: i < |log| && log[i].Work? && Conflict(log[i].what, e.what) ==>
                                i < Known(log, e.on, log[i].on)
    requires out' == copyingOut || copyingOut < 0
    requires e.what.CopyOut? ==> forall t :: t in e.what.tags ==> t.group == out'
    requires in' == copyingIn || copyingIn < 0
    requires e.what.CopyIn? ==> forall t :: t in e.what.tags ==> t.group == in'
    ensures LogOk(log + [e], out', in')
    ensures forall s, t :: Known(log + [e], s, t) == Known(log, s, t)
  {
    AppendOrdered(log, e);
    forall s, t { KnownAfterEvent(log, e, s, t); }
  }

  // The groups a world may still be copying.
  function CopyingOut(c: Config, w: World): int {
    if w.phase.Forward? && w.h.offloaded < c.groups then w.h.offloaded else -1
  }

  function CopyingIn(c: Config, w: World): int
    requires c.groups > 0
  {
    if w.phase.Backward? && c.groups < c.layers && w.h.current > 0 then Done(c, w.h.current) else -1
  }

  ghost predicate StreamInv(c: Config, w: World)
    requires c.groups > 0
  {
    LogOk(w.h.log, CopyingOut(c, w), CopyingIn(c, w))
  }

  lemma PushKeepsStreams(c: Config, w: World, t: Tensor, need: bool)
    requires c.Valid() && Inv(c, w) && StreamInv(c, w) && Legal(c, w, PushOp(t, need))
    ensures Apply(c, w, PushOp(t, need)).Some? && StreamInv(c, Apply(c, w, PushOp(t, need)).value)
  {
    hide LogOk, Faithful, Untouched, HostOk, PushedOk, BufsOk, WindowsBefore, Window;
    PushKeeps(c, w, t, need);
    if need {
      AppendWork(w.h.log, Work(Compute, Produce(Tag(w.h.current, w.h.tensorCount))),
                 CopyingOut(c, w), CopyingIn(c, w), CopyingOut(c, w), CopyingIn(c, w));
    }
  }

  /** A group is reloaded strictly before its turn, if some group is never offloaded. */
  lemma DoneBelow(c: Config, k: nat)
    requires c.Valid() && c.groups < c.layers && k > 0
    ensures Done(c, k) < k
  {
    WindowsBeforeIsPrefix(c.layers, c.groups, c.groups, k);
    WindowAfterGroup(c.layers, c.groups);
    if Done(c, k) > 0 {
      var w := Window(c.layers, c.groups, Done(c, k) - 1);
    }
  }

  lemma PopKeepsStreams(c: Config, w: World, handle: Handle)
    requires c.Valid() && Inv(c, w) && StreamInv(c, w) && Legal(c, w, PopOp(handle))
    ensures Apply(c, w, PopOp(handle)).Some? && StreamInv(c, Apply(c, w, PopOp(handle)).value)
  {
    hide LogOk, Faithful, Untouched, HostOk, PushedOk, BufsOk, WindowsBefore, Window;
    PopKeeps(c, w, handle);
    WindowsBeforeEnds(c.layers, c.groups);
    if handle.Tagged? {
      if w.h.current > 0 && c.groups < c.layers {
        DoneBelow(c, w.h.current);
      }
      UseAfterReload(w.h.log, handle.tag, CopyingOut(c, w), CopyingIn(c, w));
      var h' := Pop(w.h, handle).value.1;
      if h'.current == 0 {
        NothingPending(h'.log, 0);
      }
    }
  }

  /** When no copy is outstanding, any group may be named as the one being copied out. */
  lemma NothingPending(log: seq<Event<Action>>, group: int)
    requires LogOk(log, -1, -1)
    ensures LogOk(log, group, -1)
  {
  }

  lemma UseAfterReload(log: seq<Event<Action>>, tag: Tag, copyingOut: int, copyingIn: int)
    requires LogOk(log, copyingOut, copyingIn) && tag.group != copyingIn
    ensures LogOk(log + [Work(Compute, Use(tag))], copyingOut, copyingIn)
  {
    AppendWork(log, Work(Compute, Use(tag)), copyingOut, copyingIn, copyingOut, copyingIn);
  }

  /** Every tensor produced so far is known complete to the copy stream: what a device-to-host copy needs. */
  ghost predicate ProductionKnown(log: seq<Event<Action>>) {
    forall i: nat :: i < |log| && log[i].Work? && log[i].what.Produce? ==> i < Known(log, D2H, Compute)
  }

  lemma BulkOffloadKeepsStreams(h: Handler, group: nat, copyingOut: int, copyingIn: int)
    requires BulkOffload(h, group).Some? && LogOk(h.log, copyingOut, copyingIn) && ProductionKnown(h.log)
    requires copyingOut == group || copyingOut < 0
    ensures LogOk(BulkOffload(h, group).value.log, group, copyingIn)
  {
    AppendWork(h.log, Work(D2H, CopyOut(group, GroupTags(h.states, group))), copyingOut, copyingIn, group, copyingIn);
  }

  lemma KickstartKeepsStreams(h: Handler, copyingIn: int)
    requires Kickstart(h).Some? && LogOk(h.log, h.offloaded, copyingIn) && (h.current == 0 ==> h.offloaded == 0)
    ensures LogOk(Kickstart(h).value.log, h.offloaded, copyingIn)
  {
    if h.current == 0 {
      AppendWait(h.log, D2H, Compute, 0, copyingIn);
      BulkOffloadKeepsStreams(Issue(h, [Wait(D2H, Compute)]), 0, 0, copyingIn);
    }
  }

  lemma HandOverKeepsStreams(h: Handler, copyingIn: int)
    requires LogOk(h.log, h.offloaded, copyingIn)
    ensures LogOk(HandOver(h).log, -1, copyingIn) && ProductionKnown(HandOver(h).log)
  {
    var log1 := h.log + [Wait(D2H, Compute)];
    AppendWait(h.log, D2H, Compute, h.offloaded, copyingIn);
    var log2 := log1 + [Wait(Compute, D2H)];
    AppendWait(log1, Compute, D2H, h.offloaded, copyingIn);
    KnownAfterEvent(log1, Wait(Compute, D2H), D2H, Compute);
    var e := Work(Compute, Release(GroupTags(h.bufs, h.offloaded)));
    AppendWork(log2, e, -1, copyingIn, -1, copyingIn);
    assert HandOver(h).log == log2 + [e];
  }

  lemma AtWindowKeepsStreams(groups: nat, h: Handler, copyingIn: int)
    requires h.offloaded >= 0 && AtWindow(groups, h).Some? && LogOk(h.log, h.offloaded, copyingIn)
    ensures LogOk(AtWindow(groups, h).value.log, if h.offloaded < groups - 1 then h.offloaded + 1 else -1, copyingIn)
  {
    HandOverKeepsStreams(h, copyingIn);
    if h.offloaded < groups - 1 {
      BulkOffloadKeepsStreams(HandOver(h), h.offloaded + 1, -1, copyingIn);
    }
    AtWindowUnfolds(groups, h);
  }

  lemma CommitForwardKeepsStreams(c: Config, w: World)
    requires c.Valid() && Inv(c, w) && StreamInv(c, w) && Legal(c, w, CommitForwardOp)
    ensures Apply(c, w, CommitForwardOp).Some? && StreamInv(c, Apply(c, w, CommitForwardOp).value)
  {
    hide LogOk, Faithful, Untouched, HostOk, PushedOk, BufsOk, AtWindow, Kickstart, WindowsBefore, Window;
    CommitForwardKeeps(c, w);
    WindowFacts(c, w.h.current);
    KickstartKeeps(c, w);
    KickstartKeepsStreams(w.h, -1);
    var h1 := Kickstart(w.h).value;
    CommitForwardUnfolds(c, w.h);
    if Window(c.layers, c.groups, w.h.offloaded) == w.h.current {
      AtWindowKeepsStreams(c.groups, h1, -1);
      AtWindowCounts(c.groups, h1);
    }
  }

  lemma AtWindowCounts(groups: nat, h: Handler)
    requires AtWindow(groups, h).Some?
    ensures AtWindow(groups, h).value.offloaded == h.offloaded + 1
  {
    hide BulkOffload;
  }

  /** Reloading a group whose host copies are complete; only a group the tensors of which are on the host, below the
      current one, can still be under way afterwards. */
  lemma ReloadKeepsStreams(c: Config, h: Handler, copyingIn: int, in': int)
    requires c.groups > 0 && ReloadAtWindow(c.groups, h).Some? && LogOk(h.log, -1, copyingIn)
    requires forall t :: t in HostTags(h.states, h.offloaded - 1) ==> t.group == in'
    ensures LogOk(ReloadAtWindow(c.groups, h).value.log, -1, in')
  {
    var log1 := h.log + [Wait(H2D, Compute)];
    AppendWait(h.log, H2D, Compute, -1, copyingIn);
    KnownAfterEvent(h.log, Wait(H2D, Compute), H2D, D2H);
    var log2 := log1 + [Wait(Compute, H2D)];
    AppendWait(log1, Compute, H2D, -1, copyingIn);
    KnownAfterEvent(log1, Wait(Compute, H2D), H2D, D2H);
    var e := Work(H2D, CopyIn(h.offloaded - 1, HostTags(h.states, h.offloaded - 1)));
    forall i: nat | i < |log2| && log2[i].Work? && Conflict(log2[i].what, e.what)
      ensures i < Known(log2, H2D, log2[i].on)
    {
      var t :| t in log2[i].what.tags * e.what.tags;
      assert log2[i] == h.log[i] && OnOwnStream(h.log[i]);
    }
    AppendWork(log2, e, -1, -1, -1, in');
    assert h.log + [Wait(H2D, Compute), Wait(Compute, H2D)] == log2;
  }

  lemma FinishKeepsStreams(h: Handler, copyingIn: int)
    requires LogOk(h.log, -1, copyingIn)
    ensures LogOk(FinishBackward(h).log, -1, if h.current == 0 then -1 else copyingIn)
  {
    if h.current == 0 {
      AppendWait(h.log, Compute, H2D, -1, copyingIn);
    }
  }

  lemma CommitBackwardKeepsLog(c: Config, h: Handler, copyingIn: int)
    requires c.Valid() && 0 < h.current <= c.layers && 0 < h.offloaded <= c.groups && HostOk(c, h)
    requires LogOk(h.log, -1, copyingIn)
    requires CommitBackward(c.groups, c.WindowMap(), h).Some?
    requires var k := h.current - 1;
             if Window(c.layers, c.groups, h.offloaded - 1) == k then Done(c, k) == h.offloaded - 1
             else k > 0 && c.groups < c.layers && copyingIn >= 0 ==> copyingIn == Done(c, k)
    ensures LogOk(CommitBackward(c.groups, c.WindowMap(), h).value.log, -1,
                  if h.current > 1 && c.groups < c.layers then Done(c, h.current - 1)
                  else if h.current > 1 then copyingIn else -1)
  {
    var k := h.current - 1;
    CommitBackwardUnfolds(c, h);
    var h1 := h.(current := k);
    if Window(c.layers, c.groups, h.offloaded - 1) == k {
      ReloadedGroup(c, h, k);
      var in' := if k > 0 && c.groups == c.layers then copyingIn else h.offloaded - 1;
      ReloadKeepsStreams(c, h1, copyingIn, in');
      FinishKeepsStreams(ReloadAtWindow(c.groups, h1).value, in');
    } else {
      FinishKeepsStreams(h1, copyingIn);
    }
  }

  lemma CommitBackwardFacts(c: Config, w: World)
    requires c.Valid() && Inv(c, w) && Legal(c, w, CommitBackwardOp)
    ensures 0 < w.h.current <= c.layers && 0 < w.h.offloaded <= c.groups && HostOk(c, w.h)
    ensures CommitBackward(c.groups, c.WindowMap(), w.h).Some?
    ensures CopyingOut(c, w) == -1
    ensures var k := w.h.current - 1;
            if Window(c.layers, c.groups, w.h.offloaded - 1) == k then Done(c, k) == w.h.offloaded - 1
            else w.phase.Backward? ==> Done(c, k + 1) == Done(c, k)
  {
    CommitBackwardKeeps(c, w);
    BackwardStart(c, w);
    BackwardWindowFacts(c, w.h.current - 1);
    WindowsBeforeEnds(c.layers, c.groups);
  }

  lemma CommitBackwardKeepsStreams(c: Config, w: World)
    requires c.Valid() && Inv(c, w) && StreamInv(c, w) && Legal(c, w, CommitBackwardOp)
    ensures Apply(c, w, CommitBackwardOp).Some? && StreamInv(c, Apply(c, w, CommitBackwardOp).value)
  {
    CommitBackwardFacts(c, w);
    CommitBackwardKeepsLog(c, w.h, CopyingIn(c, w));
    var h' := CommitBackward(c.groups, c.WindowMap(), w.h).value;
    SettleKeepsStreams(c, w, h');
  }

  lemma SettleKeepsStreams(c: Config, w: World, h': Handler)
    requires c.groups > 0 && w.h.current > 0 && h'.current == w.h.current - 1
    requires LogOk(h'.log, -1, if w.h.current > 1 && c.groups < c.layers then Done(c, w.h.current - 1)
                               else if w.h.current > 1 then CopyingIn(c, w) else -1)
    ensures StreamInv(c, Settle(World(h', Backward, w.pushed)))
  {
  }

  /** When every group is offloaded, only group 0 ever has tensors on the host, and it is reloaded last. */
  lemma ReloadedGroup(c: Config, h: Handler, k: nat)
    requires c.Valid() && HostOk(c, h) && h.offloaded - 1 == Done(c, k) && k < c.layers
    ensures c.groups == c.layers && k > 0 ==> HostTags(h.states, h.offloaded - 1) == {}
  {
    if c.groups == c.layers {
      WindowFacts(c, k);
    }
  }

  lemma {:induction false} RunKeepsStreams(c: Config, w: World, ops: seq<Op>)
    requires c.Valid() && Inv(c, w) && StreamInv(c, w) && LegalRun(c, w, ops)
    ensures Run(c, w, ops).Some? && Inv(c, Run(c, w, ops).value) && StreamInv(c, Run(c, w, ops).value)
    decreases |ops|
  {
    hide Inv, StreamInv, Apply, Legal;
    if ops != [] {
      match ops[0] {
        case PushOp(t, need) => PushKeepsStreams(c, w, t, need);
        case CommitForwardOp => CommitForwardKeepsStreams(c, w);
        case CommitBackwardOp => CommitBackwardKeepsStreams(c, w);
        case PopOp(handle) => PopKeepsStreams(c, w, handle);
      }
      StepKeeps(c, w, ops[0]);
      RunKeepsStreams(c, Apply(c, w, ops[0]).value, ops[1..]);
    }
  }

  /** Stream safety: in any run autograd can produce, the device may reorder no two conflicting actions: a copy out
      follows the computation it copies, a release and a reload follow the copy out, a use follows the reload. */
  lemma RunsAreStreamSafe(c: Config, ops: seq<Op>)
    requires c.Valid() && LegalRun(c, START, ops)
    ensures Run(c, START, ops).Some? && ConflictsOrdered(Run(c, START, ops).value.h.log)
  {
    StartInv(c);
    WindowsBeforeEnds(c.layers, c.groups);
    RunKeepsStreams(c, START, ops);
  }

  /** What is offloaded: with some group never offloaded, every copied group is complete (no later push can join it)
      and all of its tensors are on the host; with groups == layers, copies start a layer early and only tensors of
      group 0 are ever on the host. */
  lemma CopiedGroupsAreComplete(c: Config, ops: seq<Op>)
    requires c.Valid() && LegalRun(c, START, ops)
    ensures Run(c, START, ops).Some?
    ensures var w := Run(c, START, ops).value;
            c.groups < c.layers ==>
              && (w.phase.Forward? ==> forall g :: g in w.h.copies ==> g < w.h.current)
              && (forall t :: t in w.h.states ==> (w.h.states[t].OnHost? <==> t.group in w.h.copies))
    ensures var w := Run(c, START, ops).value;
            c.groups == c.layers ==> forall t :: t in w.h.states && w.h.states[t].OnHost? ==> t.group == 0
  {
    StartInv(c);
    RunKeeps(c, START, ops);
    var w := Run(c, START, ops).value;
    if c.groups < c.layers && w.phase.Forward? {
      ForwardCopiesArePast(c, w);
    }
    forall t | t in w.pushed
      ensures w.h.states[t].OnHost? ==> t.group in w.h.copies
    {
      assert FaithfulAt(w.h, t, w.pushed[t]);
    }
  }
}
