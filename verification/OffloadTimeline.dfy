/** What the timeline of the device streams says is what happened to the tensors, and who has to wait when. */
module OffloadTimeline {
  import opened Wrappers
  import opened OffloadWindows
  import opened StreamOrder
  import opened Offload
  import opened OffloadRuns

  datatype Kind = Produced | Used | WentOut | CameIn | Freed

  /** The event works on the tensor under `t` in the way of `kind`. */
  predicate Mentions(e: Event<Action>, kind: Kind, t: Tag) {
    e.Work? && match e.what
               case Produce(u) => kind.Produced? && u == t
               case Use(u) => kind.Used? && u == t
               case CopyOut(_, tags) => kind.WentOut? && t in tags
               case CopyIn(_, tags) => kind.CameIn? && t in tags
               case Release(tags) => kind.Freed? && t in tags
  }

  function Count(log: seq<Event<Action>>, kind: Kind, t: Tag): nat {
    if log == [] then 0 else (if Mentions(log[0], kind, t) then 1 else 0) + Count(log[1..], kind, t)
  }

  lemma {:induction false} CountAppend(a: seq<Event<Action>>, b: seq<Event<Action>>, kind: Kind, t: Tag)
    ensures Count(a + b, kind, t) == Count(a, kind, t) + Count(b, kind, t)
  {
    if a == [] {
      assert a + b == b;
    } else {
      assert (a + b)[1..] == a[1..] + b;
      CountAppend(a[1..], b, kind, t);
    }
  }

  predicate OnHostAt(h: Handler, t: Tag) {
    t in h.states && h.states[t].OnHost?
  }

  predicate OnDeviceAt(h: Handler, t: Tag) {
    t in h.states && h.states[t].OnDevice?
  }

  predicate Buffered(h: Handler, t: Tag) {
    t in h.bufs && h.bufs[t].Some?
  }

  function One(b: bool): nat {
    if b then 1 else 0
  }

  /** What the timeline gained between two states: one production for every new tag, one use for every closed one, one
      copy out or in for every tensor that changed sides, and a release of every buffer that was given up. */
  ghost predicate Told(h: Handler, h': Handler) {
    && h.log <= h'.log
    && forall t :: ToldOf(h'.log[|h.log|..], h, h', t)
  }

  ghost predicate ToldOf(more: seq<Event<Action>>, h: Handler, h': Handler, t: Tag) {
    && Count(more, Produced, t) == One(t in h'.states && t !in h.states)
    && Count(more, Used, t) == One(t in h.states && t !in h'.states)
    && Count(more, WentOut, t) == One(OnDeviceAt(h, t) && OnHostAt(h', t))
    && Count(more, CameIn, t) == One(OnHostAt(h, t) && OnDeviceAt(h', t))
    && (Buffered(h, t) && t in h'.bufs ==> (Count(more, Freed, t) > 0 <==> !Buffered(h', t)))
    && (Count(more, Freed, t) > 0 ==> !Buffered(h', t))
  }

  // ----- one event after the other -----

  /** The same tags before and after, and tensors change sides one way at most. */
  ghost predicate OneWay(h: Handler, h': Handler, out: bool) {
    && h.states.Keys == h'.states.Keys && h.bufs.Keys == h'.bufs.Keys
    && (forall t :: t in h.bufs && h.bufs[t].None? ==> h'.bufs[t].None?)
    && (forall t :: t in h.states ==>
                        if out then h.states[t].OnHost? ==> h'.states[t].OnHost?
                        else h.states[t].OnDevice? ==> h'.states[t].OnDevice?)
  }

  lemma Compose(h: Handler, h1: Handler, h2: Handler, out: bool)
    requires Told(h, h1) && Told(h1, h2) && OneWay(h, h1, out) && OneWay(h1, h2, out)
    ensures Told(h, h2) && OneWay(h, h2, out)
  {
    hide Count;
    var a, b := h1.log[|h.log|..], h2.log[|h1.log|..];
    assert h2.log[|h.log|..] == a + b;
    forall t
      ensures ToldOf(a + b, h, h2, t)
    {
      ComposeOne(a, b, h, h1, h2, out, t);
    }
  }

  lemma ComposeOne(a: seq<Event<Action>>, b: seq<Event<Action>>, h: Handler, h1: Handler, h2: Handler, out: bool,
                   t: Tag)
    requires ToldOf(a, h, h1, t) && ToldOf(b, h1, h2, t) && OneWay(h, h1, out) && OneWay(h1, h2, out)
    ensures ToldOf(a + b, h, h2, t)
  {
    hide Count;
    CountAppend(a, b, Produced, t);
    CountAppend(a, b, Used, t);
    CountAppend(a, b, WentOut, t);
    CountAppend(a, b, CameIn, t);
    CountAppend(a, b, Freed, t);
    assert t in h.states <==> t in h1.states;
    assert t in h1.states <==> t in h2.states;
    assert t in h.bufs <==> t in h1.bufs;
    assert t in h1.bufs <==> t in h2.bufs;
  }

  lemma {:induction false} WaitsSayNothing(events: seq<Event<Action>>, kind: Kind, t: Tag)
    requires forall i :: 0 <= i < |events| ==> events[i].Wait?
    ensures Count(events, kind, t) == 0
  {
    if events != [] {
      WaitsSayNothing(events[1..], kind, t);
    }
  }

  /** Waiting tells nothing and does nothing. */
  lemma WaitsTold(h: Handler, h': Handler, events: seq<Event<Action>>, out: bool)
    requires h'.log == h.log + events && (forall i :: 0 <= i < |events| ==> events[i].Wait?)
    requires h'.states == h.states && h'.bufs == h.bufs
    ensures Told(h, h') && OneWay(h, h', out)
  {
    hide Count;
    assert h'.log[|h.log|..] == events;
    forall t
      ensures ToldOf(events, h, h', t)
    {
      forall kind {
        WaitsSayNothing(events, kind, t);
      }
    }
  }

  lemma OneEvent(log: seq<Event<Action>>, log': seq<Event<Action>>, e: Event<Action>)
    requires log' == log + [e]
    ensures log <= log' && log'[|log|..] == [e]
    ensures forall kind, t :: Count([e], kind, t) == One(Mentions(e, kind, t))
  {
    assert [e][1..] == [];
  }

  lemma PushTold(groups: nat, h: Handler, t: Tensor, need: bool)
    requires Push(groups, h, t, need).Some?
    requires forall u :: u in h.bufs ==> u in h.states
    ensures Told(h, Push(groups, h, t, need).value.1)
  {
    var h' := Push(groups, h, t, need).value.1;
    if need {
      OneEvent(h.log, h'.log, Work(Compute, Produce(Tag(h.current, h.tensorCount))));
      hide Count;
    } else {
      assert h'.log == h.log + [];
      WaitsTold(h, h', [], true);
    }
  }

  lemma PopTold(h: Handler, handle: Handle)
    requires Pop(h, handle).Some?
    ensures Told(h, Pop(h, handle).value.1)
  {
    var h' := Pop(h, handle).value.1;
    match handle
    case Stray(_) =>
      assert h'.log == h.log + [];
      WaitsTold(h, h', [], true);
    case Tagged(tag) =>
      OneEvent(h.log, h'.log, Work(Compute, Use(tag)));
      hide Count;
  }

  lemma OffloadTold(h: Handler, group: int)
    requires BulkOffload(h, group).Some?
    ensures Told(h, BulkOffload(h, group).value) && OneWay(h, BulkOffload(h, group).value, true)
  {
    hide HostCopies;
    var h' := BulkOffload(h, group).value;
    OneEvent(h.log, h'.log, Work(D2H, CopyOut(group, GroupTags(h.states, group))));
    hide Count;
  }

  lemma ReloadTold(groups: nat, h: Handler, group: int)
    requires BulkReload(groups, h, group).Some?
    ensures Told(h, BulkReload(groups, h, group).value) && OneWay(h, BulkReload(groups, h, group).value, false)
  {
    var h' := BulkReload(groups, h, group).value;
    OneEvent(h.log, h'.log, Work(H2D, CopyIn(group, HostTags(h.states, group))));
    hide Count, Product;
  }

  lemma ReleaseTold(h: Handler, h': Handler, group: int)
    requires h'.states == h.states && h'.bufs == ReleaseGroup(h.bufs, group)
    requires h'.log == h.log + [Work(Compute, Release(GroupTags(h.bufs, group)))]
    ensures Told(h, h') && OneWay(h, h', true)
  {
    OneEvent(h.log, h'.log, Work(Compute, Release(GroupTags(h.bufs, group))));
    hide Count;
  }

  lemma SameStory(h: Handler, h': Handler, h'': Handler, out: bool)
    requires Told(h, h') && OneWay(h, h', out)
    requires h''.log == h'.log && h''.states == h'.states && h''.bufs == h'.bufs
    ensures Told(h, h'') && OneWay(h, h'', out)
  {
    hide Count;
    forall t
      ensures ToldOf(h''.log[|h.log|..], h, h'', t)
    {
      assert ToldOf(h'.log[|h.log|..], h, h', t);
    }
  }

  lemma KickstartTold(h: Handler)
    requires Kickstart(h).Some?
    ensures Told(h, Kickstart(h).value) && OneWay(h, Kickstart(h).value, true)
  {
    hide Told, OneWay, BulkOffload;
    if h.current == 0 {
      var h1 := Issue(h, [Wait(D2H, Compute)]);
      WaitsTold(h, h1, [Wait(D2H, Compute)], true);
      OffloadTold(h1, 0);
      Compose(h, h1, Kickstart(h).value, true);
    } else {
      assert h.log == h.log + [];
      WaitsTold(h, h, [], true);
    }
  }

  lemma HandOverTold(h: Handler)
    ensures Told(h, HandOver(h)) && OneWay(h, HandOver(h), true)
  {
    hide Told, OneWay, ReleaseGroup;
    var waits := [Wait(D2H, Compute), Wait(Compute, D2H)];
    var h1 := Issue(h, waits);
    WaitsTold(h, h1, waits, true);
    var e := Work(Compute, Release(GroupTags(h.bufs, h.offloaded)));
    assert HandOver(h).log == h1.log + [e];
    ReleaseTold(h1, HandOver(h), h.offloaded);
    Compose(h, h1, HandOver(h), true);
  }

  lemma AtWindowTold(groups: nat, h: Handler)
    requires AtWindow(groups, h).Some?
    ensures Told(h, AtWindow(groups, h).value) && OneWay(h, AtWindow(groups, h).value, true)
  {
    hide Told, OneWay, BulkOffload, HandOver;
    var h1 := HandOver(h);
    HandOverTold(h);
    if h.offloaded < groups - 1 {
      var h2 := BulkOffload(h1, h.offloaded + 1).value;
      OffloadTold(h1, h.offloaded + 1);
      Compose(h, h1, h2, true);
      SameStory(h, h2, AtWindow(groups, h).value, true);
    } else {
      SameStory(h, h1, AtWindow(groups, h).value, true);
    }
  }

  lemma CommitForwardTold(groups: nat, windows: map<int, int>, h: Handler)
    requires CommitForward(groups, windows, h).Some?
    ensures Told(h, CommitForward(groups, windows, h).value)
  {
    hide Told, OneWay, AtWindow, Kickstart;
    KickstartTold(h);
    var h1 := Kickstart(h).value;
    var h' := CommitForward(groups, windows, h).value;
    if windows[h1.offloaded] == h1.current {
      AtWindowTold(groups, h1);
      var h2 := AtWindow(groups, h1).value;
      Compose(h, h1, h2, true);
      SameStory(h, h2, h', true);
    } else {
      SameStory(h, h1, h', true);
    }
  }

  lemma ReloadAtWindowTold(groups: nat, h: Handler)
    requires ReloadAtWindow(groups, h).Some?
    ensures Told(h, ReloadAtWindow(groups, h).value) && OneWay(h, ReloadAtWindow(groups, h).value, false)
  {
    hide Told, OneWay, BulkReload;
    var waits := [Wait(H2D, Compute), Wait(Compute, H2D)];
    var h1 := Issue(h, waits);
    WaitsTold(h, h1, waits, false);
    var h2 := BulkReload(groups, h1, h.offloaded - 1).value;
    ReloadTold(groups, h1, h.offloaded - 1);
    Compose(h, h1, h2, false);
    SameStory(h, h2, ReloadAtWindow(groups, h).value, false);
  }

  lemma CommitBackwardTold(groups: nat, windows: map<int, int>, h: Handler)
    requires CommitBackward(groups, windows, h).Some?
    ensures Told(h, CommitBackward(groups, windows, h).value)
  {
    hide Told, OneWay, ReloadAtWindow;
    var h1 := h.(current := h.current - 1);
    assert h1.log == h.log + [];
    WaitsTold(h, h1, [], false);
    var h2 := if windows[h1.offloaded - 1] == h1.current then ReloadAtWindow(groups, h1).value else h1;
    if windows[h1.offloaded - 1] == h1.current {
      ReloadAtWindowTold(groups, h1);
      Compose(h, h1, h2, false);
    }
    var h3 := FinishBackward(h2);
    var waits := if h2.current == 0 then [Wait(Compute, H2D)] else [];
    assert h3.log == h2.log + waits;
    WaitsTold(h2, h3, waits, false);
    Compose(h, h2, h3, false);
  }

  /** Every legal step is told on the timeline as it happened, tensor by tensor. */
  lemma StepIsTold(c: Config, w: World, op: Op)
    requires c.Valid() && Inv(c, w) && Legal(c, w, op)
    ensures Apply(c, w, op).Some? && Told(w.h, Apply(c, w, op).value.h)
  {
    hide Told, Inv, CommitBackward, CommitForward, Push, Pop, Legal;
    StepKeeps(c, w, op);
    BuffersAreTagged(c, w);
    match op
    case PushOp(t, need) => PushTold(c.groups, w.h, t, need);
    case CommitForwardOp => CommitForwardTold(c.groups, c.WindowMap(), w.h);
    case CommitBackwardOp => CommitBackwardTold(c.groups, c.WindowMap(), w.h);
    case PopOp(handle) => PopTold(w.h, handle);
  }

  lemma BuffersAreTagged(c: Config, w: World)
    requires c.Valid() && Inv(c, w)
    ensures forall u :: u in w.h.bufs ==> u in w.h.states
  {
  }

  // ----- who waits -----

  /** How often a stream is made to wait. */
  function Waits(log: seq<Event<Action>>, s: Stream): nat {
    if log == [] then 0 else One(log[0].Wait? && log[0].on == s) + Waits(log[1..], s)
  }

  lemma {:induction false} WaitsAppend(a: seq<Event<Action>>, b: seq<Event<Action>>, s: Stream)
    ensures Waits(a + b, s) == Waits(a, s) + Waits(b, s)
  {
    if a == [] {
      assert a + b == b;
    } else {
      assert (a + b)[1..] == a[1..] + b;
      WaitsAppend(a[1..], b, s);
    }
  }

  lemma ShortWaits(a: Event<Action>, b: Event<Action>, s: Stream)
    ensures Waits([], s) == 0
    ensures Waits([a], s) == One(a.Wait? && a.on == s)
    ensures Waits([a, b], s) == One(a.Wait? && a.on == s) + One(b.Wait? && b.on == s)
  {
    assert [a, b][1..] == [b] && [a][1..] == [] && [b][1..] == [];
  }

  /** Between two states the stream was made to wait `n` times more. */
  ghost predicate Waited(h: Handler, h': Handler, s: Stream, n: int) {
    Waits(h'.log, s) == Waits(h.log, s) + n
  }

  lemma IssueWaited(h: Handler, h': Handler, a: Event<Action>, b: Event<Action>, s: Stream)
    ensures h'.log == h.log ==> Waited(h, h', s, 0)
    ensures h'.log == h.log + [a] ==> Waited(h, h', s, One(a.Wait? && a.on == s))
    ensures h'.log == h.log + [a, b] ==> Waited(h, h', s, One(a.Wait? && a.on == s) + One(b.Wait? && b.on == s))
  {
    hide Waits;
    ShortWaits(a, b, s);
    WaitsAppend(h.log, [a], s);
    WaitsAppend(h.log, [a, b], s);
  }

  lemma OffloadWaited(h: Handler, group: int)
    requires BulkOffload(h, group).Some?
    ensures Waited(h, BulkOffload(h, group).value, Compute, 0)
  {
    hide HostCopies, LeaveOnHost, Waited;
    var e := Work(D2H, CopyOut(group, GroupTags(h.states, group)));
    IssueWaited(h, BulkOffload(h, group).value, e, e, Compute);
  }

  lemma KickstartWaited(h: Handler)
    requires Kickstart(h).Some?
    ensures Waited(h, Kickstart(h).value, Compute, 0)
  {
    hide BulkOffload, Waits;
    if h.current == 0 {
      var h1 := Issue(h, [Wait(D2H, Compute)]);
      IssueWaited(h, h1, Wait(D2H, Compute), Wait(D2H, Compute), Compute);
      OffloadWaited(h1, 0);
    }
  }

  lemma AtWindowWaited(groups: nat, h: Handler)
    requires AtWindow(groups, h).Some?
    ensures Waited(h, AtWindow(groups, h).value, Compute, 1)
  {
    hide BulkOffload, Waits, ReleaseGroup;
    var h1 := Issue(h, [Wait(D2H, Compute), Wait(Compute, D2H)]);
    IssueWaited(h, h1, Wait(D2H, Compute), Wait(Compute, D2H), Compute);
    var e := Work(Compute, Release(GroupTags(h.bufs, h.offloaded)));
    var h2 := HandOver(h);
    assert h2.log == h1.log + [e];
    IssueWaited(h1, h2, e, e, Compute);
    if h.offloaded < groups - 1 {
      OffloadWaited(h2, h.offloaded + 1);
    }
  }

  /** The copies run beside the computation: a push, a pop or a forward commit makes the compute stream wait at the
      window of a group, once, and at no other commit. */
  lemma ForwardWaitsAtWindows(c: Config, w: World)
    requires c.Valid() && Inv(c, w) && Legal(c, w, CommitForwardOp)
    ensures CommitForward(c.groups, c.WindowMap(), w.h).Some?
    ensures Waited(w.h, CommitForward(c.groups, c.WindowMap(), w.h).value, Compute,
                   One(exists g: nat :: g < c.groups && Window(c.layers, c.groups, g) == w.h.current))
  {
    hide Waits, Faithful, Untouched, HostOk, PushedOk, BufsOk, AtWindow, Kickstart, WindowsBefore, Window;
    CommitForwardKeeps(c, w);
    WindowFacts(c, w.h.current);
    KickstartKeeps(c, w);
    KickstartWaited(w.h);
    CommitForwardUnfolds(c, w.h);
    OnlyWindow(c, w.h.current);
    if Window(c.layers, c.groups, w.h.offloaded) == w.h.current {
      AtWindowWaited(c.groups, Kickstart(w.h).value);
    }
  }

  /** A commit at a window is at the one of the next group. */
  lemma OnlyWindow(c: Config, k: nat)
    requires c.Valid() && k < c.layers
    ensures (exists g: nat :: g < c.groups && Window(c.layers, c.groups, g) == k) <==>
            Window(c.layers, c.groups, Done(c, k)) == k
  {
    WindowFacts(c, k);
    var n := Done(c, k);
    forall g: nat | g < c.groups && Window(c.layers, c.groups, g) == k
      ensures g == n
    {
      WindowsBeforeIsPrefix(c.layers, c.groups, c.groups, k);
      WindowSlackGrows(c.layers, c.groups, if g < n then g else n, if g < n then n else g);
    }
  }

  lemma NoWaitsBetween(c: Config, w: World, op: Op)
    requires c.Valid() && Inv(c, w) && Legal(c, w, op) && (op.PushOp? || op.PopOp?)
    ensures Apply(c, w, op).Some? && forall s :: Waited(w.h, Apply(c, w, op).value.h, s, 0)
  {
    hide Inv, Legal, Waited, Push, Pop;
    StepKeeps(c, w, op);
    match op
    case PushOp(t, need) => PushWaits(c.groups, w.h, t, need);
    case PopOp(handle) => PopWaits(w.h, handle);
  }

  lemma PushWaits(groups: nat, h: Handler, t: Tensor, need: bool)
    requires Push(groups, h, t, need).Some?
    ensures forall s :: Waited(h, Push(groups, h, t, need).value.1, s, 0)
  {
    hide Waited;
    var e := if need then Work(Compute, Produce(Tag(h.current, h.tensorCount))) else Work(Compute, Release({}));
    forall s {
      IssueWaited(h, Push(groups, h, t, need).value.1, e, e, s);
    }
  }

  lemma PopWaits(h: Handler, handle: Handle)
    requires Pop(h, handle).Some?
    ensures forall s :: Waited(h, Pop(h, handle).value.1, s, 0)
  {
    hide Waited;
    var e := match handle case Stray(_) => Work(Compute, Release({})) case Tagged(tag) => Work(Compute, Use(tag));
    forall s {
      IssueWaited(h, Pop(h, handle).value.1, e, e, s);
    }
  }

  lemma ReloadWaited(groups: nat, h: Handler)
    requires ReloadAtWindow(groups, h).Some?
    ensures Waited(h, ReloadAtWindow(groups, h).value, Compute, 1)
  {
    hide Waits, CanReload, Restore;
    var h1 := Issue(h, [Wait(H2D, Compute), Wait(Compute, H2D)]);
    IssueWaited(h, h1, Wait(H2D, Compute), Wait(Compute, H2D), Compute);
    var h2 := BulkReload(groups, h1, h.offloaded - 1).value;
    var e := Work(H2D, CopyIn(h.offloaded - 1, HostTags(h.states, h.offloaded - 1)));
    IssueWaited(h1, h2, e, e, Compute);
  }

  /** Going backward it waits where a window is passed, once, and once more in front of group 0 for what is still
      coming in. */
  lemma BackwardWaitsAtWindows(c: Config, w: World)
    requires c.Valid() && Inv(c, w) && Legal(c, w, CommitBackwardOp)
    ensures CommitBackward(c.groups, c.WindowMap(), w.h).Some?
    ensures w.h.current > 0
    ensures var k: nat := w.h.current - 1;
            Waited(w.h, CommitBackward(c.groups, c.WindowMap(), w.h).value, Compute,
                   One(exists g: nat :: g < c.groups && Window(c.layers, c.groups, g) == k) + One(k == 0))
  {
    hide Waits, Faithful, Untouched, HostOk, PushedOk, BufsOk, WindowsBefore, Window, ReloadAtWindow;
    CommitBackwardKeeps(c, w);
    BackwardStart(c, w);
    var k: nat := w.h.current - 1;
    BackwardWindowFacts(c, k);
    CommitBackwardUnfolds(c, w.h);
    PassedWindow(c, k);
    var h1 := w.h.(current := k);
    IssueWaited(w.h, h1, Wait(Compute, H2D), Wait(Compute, H2D), Compute);
    var h2 := if Window(c.layers, c.groups, w.h.offloaded - 1) == k then ReloadAtWindow(c.groups, h1).value else h1;
    if Window(c.layers, c.groups, w.h.offloaded - 1) == k {
      ReloadWaited(c.groups, h1);
      ReloadStays(c.groups, h1);
    }
    IssueWaited(h2, FinishBackward(h2), Wait(Compute, H2D), Wait(Compute, H2D), Compute);
  }

  lemma ReloadStays(groups: nat, h: Handler)
    requires ReloadAtWindow(groups, h).Some?
    ensures ReloadAtWindow(groups, h).value.current == h.current
  {
    hide CanReload, Restore;
  }

  /** The window a backward commit may pass is the last of those before the commit above it. */
  lemma PassedWindow(c: Config, k: nat)
    requires c.Valid() && k < c.layers
    ensures var n := Done(c, k + 1);
            (exists g: nat :: g < c.groups && Window(c.layers, c.groups, g) == k) <==>
            (n > 0 && Window(c.layers, c.groups, n - 1) == k)
  {
    WindowFacts(c, k);
    OnlyWindow(c, k);
    BackwardWindowFacts(c, k);
    WindowsBeforeIsPrefix(c.layers, c.groups, c.groups, k);
    WindowsBeforeIsPrefix(c.layers, c.groups, c.groups, k + 1);
  }
}
