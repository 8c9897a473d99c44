/** How often a group crosses between device and host: once out and once back in every pass. */
module OffloadOnce {
  import opened Wrappers
  import opened OffloadWindows
  import opened StreamOrder
  import opened Offload
  import opened OffloadRuns

  datatype Direction = Out | In

  predicate Moves(e: Event<Action>, dir: Direction, g: int) {
    e.Work? && match e.what
               case CopyOut(group, _) => dir.Out? && group == g
               case CopyIn(group, _) => dir.In? && group == g
               case _ => false
  }

  /** How many copies of group `g` in one direction were enqueued. */
  function Transfers(log: seq<Event<Action>>, dir: Direction, g: int): nat {
    if log == [] then 0 else (if Moves(log[0], dir, g) then 1 else 0) + Transfers(log[1..], dir, g)
  }

  lemma {:induction false} TransfersAppend(a: seq<Event<Action>>, b: seq<Event<Action>>, dir: Direction, g: int)
    ensures Transfers(a + b, dir, g) == Transfers(a, dir, g) + Transfers(b, dir, g)
  {
    if a == [] {
      assert a + b == b;
    } else {
      assert (a + b)[1..] == a[1..] + b;
      TransfersAppend(a[1..], b, dir, g);
    }
  }

  // ----- what one hook enqueues -----

  /** The log grew by exactly one copy out per group that was added to the host, and one copy in per group dropped. */
  ghost predicate Accounts(h: Handler, h': Handler) {
    && h.log <= h'.log
    && forall g :: Transfers(h'.log[|h.log|..], Out, g) == (if g in h'.copies && g !in h.copies then 1 else 0) &&
                   Transfers(h'.log[|h.log|..], In, g) == (if g in h.copies && g !in h'.copies then 1 else 0)
  }

  lemma Compose(h: Handler, h1: Handler, h2: Handler)
    requires Accounts(h, h1) && Accounts(h1, h2)
    requires (h.copies.Keys <= h1.copies.Keys <= h2.copies.Keys) || (h.copies.Keys >= h1.copies.Keys >= h2.copies.Keys)
    ensures Accounts(h, h2)
  {
    hide Transfers;
    var a, b := h1.log[|h.log|..], h2.log[|h1.log|..];
    assert h2.log[|h.log|..] == a + b;
    forall g
      ensures Transfers(a + b, Out, g) == (if g in h2.copies && g !in h.copies then 1 else 0)
      ensures Transfers(a + b, In, g) == (if g in h.copies && g !in h2.copies then 1 else 0)
    {
      TransfersAppend(a, b, Out, g);
      TransfersAppend(a, b, In, g);
    }
  }

  predicate Local(e: Event<Action>) {
    e.Wait? || e.what.Produce? || e.what.Release? || e.what.Use?
  }

  lemma {:induction false} LocalMovesNothing(events: seq<Event<Action>>, dir: Direction, g: int)
    requires forall i :: 0 <= i < |events| ==> Local(events[i])
    ensures Transfers(events, dir, g) == 0
  {
    if events != [] {
      LocalMovesNothing(events[1..], dir, g);
    }
  }

  lemma LocalAccounts(h: Handler, h': Handler, events: seq<Event<Action>>)
    requires h'.log == h.log + events && h'.copies == h.copies
    requires forall i :: 0 <= i < |events| ==> Local(events[i])
    ensures Accounts(h, h')
  {
    hide Transfers, Local;
    assert h'.log[|h.log|..] == events;
    forall g, dir
      ensures Transfers(events, dir, g) == 0
    {
      LocalMovesNothing(events, dir, g);
    }
  }

  lemma OffloadAccounts(h: Handler, group: int)
    requires BulkOffload(h, group).Some? && group !in h.copies
    ensures Accounts(h, BulkOffload(h, group).value)
  {
    hide HostCopies, LeaveOnHost, CanOffload;
    var h' := BulkOffload(h, group).value;
    OneEvent(h.log, h'.log, Work(D2H, CopyOut(group, GroupTags(h.states, group))));
  }

  lemma ReloadAccounts(groups: nat, h: Handler, group: int)
    requires BulkReload(groups, h, group).Some?
    ensures Accounts(h, BulkReload(groups, h, group).value)
  {
    hide Restore, CanReload;
    var h' := BulkReload(groups, h, group).value;
    OneEvent(h.log, h'.log, Work(H2D, CopyIn(group, HostTags(h.states, group))));
  }

  lemma OneEvent(log: seq<Event<Action>>, log': seq<Event<Action>>, e: Event<Action>)
    requires log' == log + [e]
    ensures log <= log' && log'[|log|..] == [e]
    ensures forall dir, g :: Transfers([e], dir, g) == if Moves(e, dir, g) then 1 else 0
  {
    assert [e][1..] == [];
  }

  lemma KickstartAccounts(h: Handler)
    requires Kickstart(h).Some? && (h.current == 0 ==> 0 !in h.copies)
    ensures Accounts(h, Kickstart(h).value) && h.copies.Keys <= Kickstart(h).value.copies.Keys
  {
    hide Accounts, BulkOffload;
    if h.current == 0 {
      var h1 := Issue(h, [Wait(D2H, Compute)]);
      LocalAccounts(h, h1, [Wait(D2H, Compute)]);
      OffloadAccounts(h1, 0);
      OffloadChanges(h1, 0);
      Compose(h, h1, Kickstart(h).value);
    } else {
      LocalAccounts(h, h, []);
    }
  }

  lemma AtWindowAccounts(groups: nat, h: Handler)
    requires AtWindow(groups, h).Some? && (h.offloaded < groups - 1 ==> h.offloaded + 1 !in h.copies)
    ensures Accounts(h, AtWindow(groups, h).value) && h.copies.Keys <= AtWindow(groups, h).value.copies.Keys
  {
    hide Accounts, BulkOffload, ReleaseGroup;
    var h1 := HandOver(h);
    LocalAccounts(h, h1, [Wait(D2H, Compute), Wait(Compute, D2H),
                          Work(Compute, Release(GroupTags(h.bufs, h.offloaded)))]);
    if h.offloaded < groups - 1 {
      OffloadAccounts(h1, h.offloaded + 1);
      OffloadChanges(h1, h.offloaded + 1);
      var h2 := BulkOffload(h1, h.offloaded + 1).value;
      Compose(h, h1, h2);
      SameLog(h, h2, AtWindow(groups, h).value);
    } else {
      SameLog(h, h1, AtWindow(groups, h).value);
    }
  }

  lemma SameLog(h: Handler, h': Handler, h'': Handler)
    requires Accounts(h, h') && h''.log == h'.log && h''.copies == h'.copies
    ensures Accounts(h, h'')
  {
    hide Transfers;
  }

  lemma CommitForwardAccounts(c: Config, w: World)
    requires c.Valid() && Inv(c, w) && Legal(c, w, CommitForwardOp)
    ensures CommitForward(c.groups, c.WindowMap(), w.h).Some?
    ensures Accounts(w.h, CommitForward(c.groups, c.WindowMap(), w.h).value)
    ensures w.h.copies.Keys <= CommitForward(c.groups, c.WindowMap(), w.h).value.copies.Keys
  {
    hide Accounts, Faithful, Untouched, HostOk, PushedOk, BufsOk, AtWindow, Kickstart, WindowsBefore, Window;
    CommitForwardKeeps(c, w);
    WindowFacts(c, w.h.current);
    KickstartKeeps(c, w);
    KickstartAccounts(w.h);
    var h1 := Kickstart(w.h).value;
    CommitForwardUnfolds(c, w.h);
    var h' := CommitForward(c.groups, c.WindowMap(), w.h).value;
    if Window(c.layers, c.groups, w.h.offloaded) == w.h.current {
      AtWindowAccounts(c.groups, h1);
      var h2 := AtWindow(c.groups, h1).value;
      Compose(w.h, h1, h2);
      SameLog(w.h, h2, h');
    } else {
      SameLog(w.h, h1, h');
    }
  }

  lemma ReloadAtWindowAccounts(groups: nat, h: Handler)
    requires ReloadAtWindow(groups, h).Some?
    ensures Accounts(h, ReloadAtWindow(groups, h).value)
    ensures h.copies.Keys >= ReloadAtWindow(groups, h).value.copies.Keys
  {
    hide Accounts, Restore, CanReload;
    var h1 := Issue(h, [Wait(H2D, Compute), Wait(Compute, H2D)]);
    LocalAccounts(h, h1, [Wait(H2D, Compute), Wait(Compute, H2D)]);
    ReloadAccounts(groups, h1, h.offloaded - 1);
    var h2 := BulkReload(groups, h1, h.offloaded - 1).value;
    Compose(h, h1, h2);
    SameLog(h, h2, ReloadAtWindow(groups, h).value);
  }

  lemma FinishAccounts(h: Handler)
    ensures Accounts(h, FinishBackward(h)) && FinishBackward(h).copies == h.copies
  {
    LocalAccounts(h, FinishBackward(h), if h.current == 0 then [Wait(Compute, H2D)] else []);
  }

  lemma CommitBackwardAccounts(groups: nat, windows: map<int, int>, h: Handler)
    requires CommitBackward(groups, windows, h).Some?
    ensures Accounts(h, CommitBackward(groups, windows, h).value)
    ensures h.copies.Keys >= CommitBackward(groups, windows, h).value.copies.Keys
  {
    hide Accounts, FinishBackward, ReloadAtWindow;
    var h1 := h.(current := h.current - 1);
    LocalAccounts(h, h1, []);
    var h2 := if windows[h1.offloaded - 1] == h1.current then ReloadAtWindow(groups, h1).value else h1;
    if windows[h1.offloaded - 1] == h1.current {
      ReloadAtWindowAccounts(groups, h1);
      Compose(h, h1, h2);
    }
    FinishAccounts(h2);
    Compose(h, h2, FinishBackward(h2));
  }

  lemma PushAccounts(groups: nat, h: Handler, t: Tensor, need: bool)
    requires Push(groups, h, t, need).Some?
    ensures Accounts(h, Push(groups, h, t, need).value.1) && Push(groups, h, t, need).value.1.copies == h.copies
  {
    LocalAccounts(h, Push(groups, h, t, need).value.1,
                  if need then [Work(Compute, Produce(Tag(h.current, h.tensorCount)))] else []);
  }

  lemma PopAccounts(h: Handler, handle: Handle)
    requires Pop(h, handle).Some?
    ensures Accounts(h, Pop(h, handle).value.1) && Pop(h, handle).value.1.copies == h.copies
  {
    LocalAccounts(h, Pop(h, handle).value.1,
                  match handle case Stray(_) => [] case Tagged(tag) => [Work(Compute, Use(tag))]);
  }

  /** Every legal step accounts for the host copies it makes, going forward, and drops, going backward. */
  lemma StepAccounts(c: Config, w: World, op: Op)
    requires c.Valid() && Inv(c, w) && Legal(c, w, op)
    ensures Apply(c, w, op).Some?
    ensures var h' := Apply(c, w, op).value.h;
            && Accounts(w.h, h')
            && (op.CommitBackwardOp? || op.PopOp? ==> h'.copies.Keys <= w.h.copies.Keys)
            && (!op.CommitBackwardOp? ==> w.h.copies.Keys <= h'.copies.Keys)
  {
    StepKeeps(c, w, op);
    hide Accounts, Inv, CommitBackward, CommitForward, Push, Pop, Legal;
    match op
    case PushOp(t, need) => PushAccounts(c.groups, w.h, t, need);
    case CommitForwardOp => CommitForwardAccounts(c, w);
    case CommitBackwardOp => CommitBackwardAccounts(c.groups, c.WindowMap(), w.h);
    case PopOp(handle) => PopAccounts(w.h, handle);
  }

  // ----- whole passes -----

  /** The step from `w` to `w'` ends a pass. */
  predicate EndsPass(w: World, op: Op, w': World) {
    w'.phase.Forward? && (w.phase.Backward? || op.CommitBackwardOp?)
  }

  /** Where in the log the pass under way at the end of a run began, if the one at its start began at `mark`. */
  ghost function PassStart(c: Config, w: World, ops: seq<Op>, mark: nat): nat
    requires c.groups > 0
    decreases |ops|
  {
    if ops == [] then mark
    else
      match Apply(c, w, ops[0])
      case None => mark
      case Some(w') => PassStart(c, w', ops[1..], if EndsPass(w, ops[0], w') then |w'.h.log| else mark)
  }

  /** Going forward, the groups on the host were copied out once since the pass began; going backward all were, and
      those no longer on the host were copied in once. */
  ghost predicate MovedOnce(c: Config, phase: Phase, copies: set<int>, pass: seq<Event<Action>>) {
    match phase
    case Forward =>
      forall g :: Transfers(pass, Out, g) == (if g in copies then 1 else 0) && Transfers(pass, In, g) == 0
    case Backward =>
      forall g :: Transfers(pass, Out, g) == (if 0 <= g < c.groups then 1 else 0) &&
                  Transfers(pass, In, g) == (if 0 <= g < c.groups && g !in copies then 1 else 0)
  }

  ghost predicate OnceInv(c: Config, w: World, mark: nat) {
    mark <= |w.h.log| && MovedOnce(c, w.phase, w.h.copies.Keys, w.h.log[mark..])
  }

  lemma TurnMoved(c: Config, copies: set<int>, pass: seq<Event<Action>>)
    requires MovedOnce(c, Forward, copies, pass) && forall g :: g in copies <==> 0 <= g < c.groups
    ensures MovedOnce(c, Backward, copies, pass)
  {
    hide Transfers;
  }

  lemma ExtendForward(c: Config, h: Handler, h': Handler, pass: seq<Event<Action>>)
    requires MovedOnce(c, Forward, h.copies.Keys, pass) && Accounts(h, h') && h.copies.Keys <= h'.copies.Keys
    ensures MovedOnce(c, Forward, h'.copies.Keys, pass + h'.log[|h.log|..])
  {
    hide Transfers;
    var more := h'.log[|h.log|..];
    forall g
      ensures Transfers(pass + more, Out, g) == (if g in h'.copies.Keys then 1 else 0)
      ensures Transfers(pass + more, In, g) == 0
    {
      TransfersAppend(pass, more, Out, g);
      TransfersAppend(pass, more, In, g);
    }
  }

  lemma ExtendBackward(c: Config, h: Handler, h': Handler, pass: seq<Event<Action>>)
    requires MovedOnce(c, Backward, h.copies.Keys, pass) && Accounts(h, h') && h'.copies.Keys <= h.copies.Keys
    requires forall g :: g in h.copies ==> 0 <= g < c.groups
    ensures MovedOnce(c, Backward, h'.copies.Keys, pass + h'.log[|h.log|..])
  {
    hide Transfers;
    var more := h'.log[|h.log|..];
    forall g
      ensures Transfers(pass + more, Out, g) == (if 0 <= g < c.groups then 1 else 0)
      ensures Transfers(pass + more, In, g) == (if 0 <= g < c.groups && g !in h'.copies.Keys then 1 else 0)
    {
      TransfersAppend(pass, more, Out, g);
      TransfersAppend(pass, more, In, g);
    }
  }

  /** What the steps do to the direction of the pass. */
  lemma StepPhase(c: Config, w: World, op: Op)
    requires c.Valid() && Legal(c, w, op) && Apply(c, w, op).Some?
    ensures var w' := Apply(c, w, op).value;
            && (op.PushOp? || op.CommitForwardOp? ==> w.phase.Forward? && w'.phase.Forward?)
            && (op.PopOp? && w.phase.Forward? ==> w'.phase.Forward?)
            && (EndsPass(w, op, w') ==> w'.h.current == 0)
            && (op.CommitBackwardOp? && w.phase.Forward? ==> w.h.current == c.layers)
  {
    hide CommitBackward, CommitForward, Push, Pop;
  }

  /** The host copies by the counters: never outside the offloaded groups, all of them at the turn, none at the end. */
  lemma CopiesInRange(c: Config, w: World)
    requires c.Valid() && CountersOk(c, w)
    ensures forall g :: g in w.h.copies ==> 0 <= g < c.groups
    ensures w.phase.Forward? && w.h.current == c.layers ==> forall g :: g in w.h.copies <==> 0 <= g < c.groups
    ensures w.phase.Forward? && w.h.current == 0 ==> w.h.copies.Keys == {}
  {
    WindowsBeforeEnds(c.layers, c.groups);
  }

  lemma StepMoves(c: Config, w: World, op: Op, mark: nat)
    requires c.Valid() && Inv(c, w) && Legal(c, w, op) && OnceInv(c, w, mark)
    ensures Apply(c, w, op).Some?
    ensures var w' := Apply(c, w, op).value;
            if EndsPass(w, op, w')
            then mark <= |w'.h.log| && MovedOnce(c, Backward, {}, w'.h.log[mark..]) && OnceInv(c, w', |w'.h.log|)
            else OnceInv(c, w', mark)
  {
    hide MovedOnce, Transfers, Apply, Legal, Faithful, Untouched, HostOk, PushedOk, BufsOk, CountersOk;
    StepAccounts(c, w, op);
    StepKeeps(c, w, op);
    StepPhase(c, w, op);
    var w' := Apply(c, w, op).value;
    CopiesInRange(c, w);
    CopiesInRange(c, w');
    var pass := w.h.log[mark..];
    TailGrows(w.h.log, w'.h.log, mark);
    if op.CommitBackwardOp? || w.phase.Backward? {
      if w.phase.Forward? {
        TurnMoved(c, w.h.copies.Keys, pass);
      }
      ExtendBackward(c, w.h, w'.h, pass);
      NothingMoved(c);
      assert w'.h.log[|w'.h.log|..] == [];
    } else {
      ExtendForward(c, w.h, w'.h, pass);
    }
  }

  lemma TailGrows(log: seq<Event<Action>>, log': seq<Event<Action>>, mark: nat)
    requires log <= log' && mark <= |log|
    ensures log'[mark..] == log[mark..] + log'[|log|..]
  {
  }

  lemma NothingMoved(c: Config)
    ensures MovedOnce(c, Forward, {}, [])
  {
  }

  lemma {:induction false} RunMoves(c: Config, w: World, ops: seq<Op>, mark: nat)
    requires c.Valid() && Inv(c, w) && LegalRun(c, w, ops) && OnceInv(c, w, mark)
    ensures Run(c, w, ops).Some? && Inv(c, Run(c, w, ops).value)
    ensures OnceInv(c, Run(c, w, ops).value, PassStart(c, w, ops, mark))
    decreases |ops|
  {
    hide Inv, OnceInv, Apply, Legal, MovedOnce, EndsPass;
    if ops != [] {
      StepMoves(c, w, ops[0], mark);
      StepKeeps(c, w, ops[0]);
      var w' := Apply(c, w, ops[0]).value;
      RunMoves(c, w', ops[1..], if EndsPass(w, ops[0], w') then |w'.h.log| else mark);
    }
  }

  /** At every moment of a run no group was copied out, or in, more than once since the pass began; the groups copied
      out and not back in are those with a host copy. */
  lemma NoGroupTwice(c: Config, ops: seq<Op>, g: int)
    requires c.Valid() && LegalRun(c, START, ops)
    ensures Run(c, START, ops).Some?
    ensures var w := Run(c, START, ops).value;
            var start := PassStart(c, START, ops, 0);
            && start <= |w.h.log|
            && var out, back := Transfers(w.h.log[start..], Out, g), Transfers(w.h.log[start..], In, g);
               back <= out <= 1 && (g in w.h.copies <==> out == 1 && back == 0)
  {
    StartInv(c);
    NothingMoved(c);
    assert START.h.log[0..] == [];
    RunMoves(c, START, ops, 0);
    CopiesInRange(c, Run(c, START, ops).value);
  }

  /** Over a whole pass: the step that ends it leaves a log in which, since the pass began, every offloaded group was
      copied out exactly once and back in exactly once, and no other group at all. */
  lemma EachGroupOnce(c: Config, ops: seq<Op>, op: Op, g: int)
    requires c.Valid() && LegalRun(c, START, ops)
    ensures Run(c, START, ops).Some?
    ensures var w := Run(c, START, ops).value;
            Legal(c, w, op) ==>
              && Apply(c, w, op).Some?
              && var w' := Apply(c, w, op).value;
                 var start := PassStart(c, START, ops, 0);
                 EndsPass(w, op, w') ==>
                   && start <= |w'.h.log|
                   && var pass := w'.h.log[start..];
                      Transfers(pass, Out, g) == Transfers(pass, In, g) == if 0 <= g < c.groups then 1 else 0
  {
    hide Inv, Legal, Apply, EndsPass, Transfers;
    StartInv(c);
    NothingMoved(c);
    assert START.h.log[0..] == [];
    RunMoves(c, START, ops, 0);
    var w := Run(c, START, ops).value;
    if Legal(c, w, op) {
      StepMoves(c, w, op, PassStart(c, START, ops, 0));
    }
  }
}
