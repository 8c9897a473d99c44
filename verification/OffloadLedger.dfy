/** The books of a run kept from its steps alone: which group is current, how many tensors it has, which are live. */
module OffloadLedger {
  import opened Wrappers
  import opened OffloadWindows
  import opened StreamOrder
  import opened Offload
  import opened OffloadRuns

  /** Nothing in a ledger is read off the handler. */
  datatype Ledger = Ledger(phase: Phase, group: int, count: nat, live: map<Tag, Tensor>)

  const EMPTY: Ledger := Ledger(Forward, 0, 0, map[])

  /** A push that is to be offloaded takes the next number of its group, a commit moves on to the next group, a pop
      closes its tag; with the last one, in front of group 0, the pass is over. */
  function Note(l: Ledger, op: Op): Ledger {
    match op
    case PushOp(t, need) =>
      if need && l.group >= 0 then l.(count := l.count + 1, live := l.live[Tag(l.group, l.count) := t]) else l
    case CommitForwardOp => l.(group := l.group + 1, count := 0)
    case CommitBackwardOp => EndIfDone(l.(phase := Backward, group := l.group - 1))
    case PopOp(Stray(_)) => l
    case PopOp(Tagged(tag)) => EndIfDone(l.(live := l.live - {tag}))
  }

  function EndIfDone(l: Ledger): Ledger {
    if l.phase.Backward? && l.group == 0 && l.live == map[] then l.(phase := Forward) else l
  }

  function NoteAll(l: Ledger, ops: seq<Op>): Ledger
    decreases |ops|
  {
    if ops == [] then l else NoteAll(Note(l, ops[0]), ops[1..])
  }

  ghost predicate Agrees(w: World, l: Ledger) {
    l == Ledger(w.phase, w.h.current, w.h.tensorCount, w.pushed)
  }

  // ----- what a push does -----

  /** A tensor that is to be offloaded is taken over: its caller gets the next tag of the current group, one that is not
      in use, and finds the tensor under it, on the device, and in the double buffer exactly if the group is one of
      those to be offloaded. Nothing else changes. */
  lemma PushTakesOver(c: Config, w: World, t: Tensor)
    requires c.Valid() && Inv(c, w) && Legal(c, w, PushOp(t, true))
    ensures w.h.current >= 0
    ensures var tag := Tag(w.h.current, w.h.tensorCount);
            && tag !in w.h.states && tag !in w.pushed
            && Push(c.groups, w.h, t, true).Some?
            && var (handle, h') := Push(c.groups, w.h, t, true).value;
               && handle == Tagged(tag)
               && h'.states.Keys == w.h.states.Keys + {tag} && h'.states[tag] == OnDevice(t)
               && (forall u :: u in w.h.states ==> h'.states[u] == w.h.states[u])
               && (tag in h'.bufs <==> tag.group < c.groups) && (tag in h'.bufs ==> h'.bufs[tag] == Some(t))
               && (forall u :: u != tag ==> (u in h'.bufs <==> u in w.h.bufs))
               && (forall u :: u != tag && u in w.h.bufs ==> h'.bufs[u] == w.h.bufs[u])
               && h'.copies == w.h.copies && h'.offloaded == w.h.offloaded && h'.current == w.h.current
               && h'.tensorCount == w.h.tensorCount + 1
               && h'.log == w.h.log + [Work(Compute, Produce(tag))]
               && Apply(c, w, PushOp(t, true)) == Some(w.(h := h', pushed := w.pushed[tag := t]))
  {
    hide Faithful, Untouched, HostOk, PushedOk, BufsOk, WindowsBefore, Window;
    PushedKeys(c, w);
    NothingBuffered(c, w, Tag(w.h.current, w.h.tensorCount));
  }

  lemma NothingBuffered(c: Config, w: World, tag: Tag)
    requires c.Valid() && Faithful(c, w.h, w.pushed) && tag !in w.pushed
    ensures tag !in w.h.bufs
  {
  }

  /** A tensor that is not to be offloaded is handed back as it is, and the handler is as before. */
  lemma PushHandsBack(c: Config, w: World, t: Tensor)
    requires c.groups > 0
    ensures Push(c.groups, w.h, t, false) == Some((Stray(t), w.h))
    ensures Apply(c, w, PushOp(t, false)) == Some(w)
  {
  }

  // ----- runs follow the ledger -----

  lemma StepAgrees(c: Config, w: World, op: Op, l: Ledger)
    requires c.Valid() && Inv(c, w) && Legal(c, w, op) && Agrees(w, l)
    ensures Apply(c, w, op).Some? && Agrees(Apply(c, w, op).value, Note(l, op))
  {
    StepKeeps(c, w, op);
    hide Inv, Legal;
    match op
    case PushOp(t, need) => PushAgrees(c, w, t, need, l);
    case CommitForwardOp => ForwardAgrees(c, w, l);
    case CommitBackwardOp => BackwardAgrees(c, w, l);
    case PopOp(handle) => PopAgrees(c, w, handle, l);
  }

  lemma PushAgrees(c: Config, w: World, t: Tensor, need: bool, l: Ledger)
    requires c.Valid() && Inv(c, w) && Legal(c, w, PushOp(t, need)) && Agrees(w, l)
    ensures Apply(c, w, PushOp(t, need)).Some? && Agrees(Apply(c, w, PushOp(t, need)).value, Note(l, PushOp(t, need)))
  {
    hide Inv, Legal, Apply, Push;
    if need {
      PushTakesOver(c, w, t);
    } else {
      PushHandsBack(c, w, t);
    }
  }

  lemma ForwardAgrees(c: Config, w: World, l: Ledger)
    requires c.Valid() && Inv(c, w) && Legal(c, w, CommitForwardOp) && Agrees(w, l)
    ensures Apply(c, w, CommitForwardOp).Some? && Agrees(Apply(c, w, CommitForwardOp).value, Note(l, CommitForwardOp))
  {
    hide Inv, Legal, AtWindow, Kickstart;
    CommitForwardKeeps(c, w);
    ForwardCounts(c, w);
  }

  /** A forward commit moves on by one group, with no tensors yet. */
  lemma ForwardCounts(c: Config, w: World)
    requires c.Valid() && Inv(c, w) && Legal(c, w, CommitForwardOp)
    ensures CommitForward(c.groups, c.WindowMap(), w.h).Some?
    ensures var h' := CommitForward(c.groups, c.WindowMap(), w.h).value;
            h'.current == w.h.current + 1 && h'.tensorCount == 0
  {
    hide Faithful, Untouched, HostOk, PushedOk, BufsOk, AtWindow, Kickstart, WindowsBefore, Window;
    CommitForwardKeeps(c, w);
    WindowFacts(c, w.h.current);
    KickstartKeeps(c, w);
    var h1 := Kickstart(w.h).value;
    CommitForwardUnfolds(c, w.h);
    if Window(c.layers, c.groups, w.h.offloaded) == w.h.current {
      AtWindowStays(c.groups, h1);
    }
  }

  lemma AtWindowStays(groups: nat, h: Handler)
    requires AtWindow(groups, h).Some?
    ensures AtWindow(groups, h).value.current == h.current
  {
    hide HostCopies;
  }

  lemma BackwardAgrees(c: Config, w: World, l: Ledger)
    requires c.Valid() && Inv(c, w) && Legal(c, w, CommitBackwardOp) && Agrees(w, l)
    ensures Apply(c, w, CommitBackwardOp).Some?
    ensures Agrees(Apply(c, w, CommitBackwardOp).value, Note(l, CommitBackwardOp))
  {
    CommitBackwardKeeps(c, w);
    BackwardCounts(c.groups, c.WindowMap(), w.h);
    hide Inv, Legal, CommitBackward;
  }

  lemma BackwardCounts(groups: nat, windows: map<int, int>, h: Handler)
    requires CommitBackward(groups, windows, h).Some?
    ensures var h' := CommitBackward(groups, windows, h).value;
            h'.current == h.current - 1 && h'.tensorCount == h.tensorCount
  {
    hide CanReload, Restore, HostTags;
  }

  lemma PopAgrees(c: Config, w: World, handle: Handle, l: Ledger)
    requires c.Valid() && Inv(c, w) && Legal(c, w, PopOp(handle)) && Agrees(w, l)
    ensures Apply(c, w, PopOp(handle)).Some? && Agrees(Apply(c, w, PopOp(handle)).value, Note(l, PopOp(handle)))
  {
    PopKeeps(c, w, handle);
    hide Inv, Legal;
  }

  lemma {:induction false} RunAgrees(c: Config, w: World, ops: seq<Op>, l: Ledger)
    requires c.Valid() && Inv(c, w) && LegalRun(c, w, ops) && Agrees(w, l)
    ensures Run(c, w, ops).Some? && Inv(c, Run(c, w, ops).value)
    ensures Agrees(Run(c, w, ops).value, NoteAll(l, ops))
    decreases |ops|
  {
    hide Inv, Agrees, Apply, Legal, Note;
    if ops != [] {
      StepAgrees(c, w, ops[0], l);
      StepKeeps(c, w, ops[0]);
      RunAgrees(c, Apply(c, w, ops[0]).value, ops[1..], Note(l, ops[0]));
    }
  }

  /** In every run the handler's group and count, and what is under its tags, are those of the ledger: every tensor that
      was pushed to be offloaded and not popped, and no other. */
  lemma RunFollowsLedger(c: Config, ops: seq<Op>)
    requires c.Valid() && LegalRun(c, START, ops)
    ensures Run(c, START, ops).Some?
    ensures var w, l := Run(c, START, ops).value, NoteAll(EMPTY, ops);
            && w.phase == l.phase && w.h.current == l.group && w.h.tensorCount == l.count
            && w.pushed == l.live && w.h.states.Keys == l.live.Keys
  {
    StartInv(c);
    RunAgrees(c, START, ops, EMPTY);
    PushedKeys(c, Run(c, START, ops).value);
    hide Run, LegalRun, Inv;
  }

  /** Transparency, by the ledger: whatever was pushed under a tag and not popped comes back with its elements and its
      shape, once the backward pass has reached its group. */
  lemma PushedComesBack(c: Config, ops: seq<Op>, tag: Tag)
    requires c.Valid() && LegalRun(c, START, ops)
    ensures Run(c, START, ops).Some?
    ensures var w, l := Run(c, START, ops).value, NoteAll(EMPTY, ops);
            tag in l.live && l.phase.Backward? && tag.group >= l.group ==>
              && Pop(w.h, Tagged(tag)).Some?
              && SameValue(Pop(w.h, Tagged(tag)).value.0, l.live[tag])
  {
    RunFollowsLedger(c, ops);
    OffloadIsTransparent(c, ops, Tagged(tag));
    hide Run, LegalRun, Pop, NoteAll;
  }

  /** ... and a push in any reachable state is taken over under the ledger's next tag. */
  lemma PushIsTagged(c: Config, ops: seq<Op>, t: Tensor)
    requires c.Valid() && LegalRun(c, START, ops)
    ensures Run(c, START, ops).Some?
    ensures var w, l := Run(c, START, ops).value, NoteAll(EMPTY, ops);
            Legal(c, w, PushOp(t, true)) ==>
              && l.group >= 0
              && Push(c.groups, w.h, t, true).Some?
              && Push(c.groups, w.h, t, true).value.0 == Tagged(Tag(l.group, l.count))
              && Tag(l.group, l.count) !in l.live
  {
    StartInv(c);
    RunAgrees(c, START, ops, EMPTY);
    hide Run, LegalRun, NoteAll, Legal, Push, Inv;
    var w := Run(c, START, ops).value;
    if Legal(c, w, PushOp(t, true)) {
      PushTakesOver(c, w, t);
    }
  }
}
