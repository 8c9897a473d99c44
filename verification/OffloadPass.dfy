/** A whole pass in which every layer saves a tensor is a legal run, for every configuration. */
module OffloadPass {
  import opened Wrappers
  import opened OffloadWindows
  import opened Offload
  import opened OffloadRuns
  import opened OffloadLedger

  function ForwardOps(t: Tensor, n: nat): seq<Op> {
    if n == 0 then [] else ForwardOps(t, n - 1) + ([PushOp(t, true)] + [CommitForwardOp])
  }

  function BackwardOps(n: nat): seq<Op> {
    if n == 0 then [] else [CommitBackwardOp] + ([PopOp(Tagged(Tag(n - 1, 0)))] + BackwardOps(n - 1))
  }

  /** What is live when `n` layers have saved and none has been popped. */
  function Live(t: Tensor, n: nat): (live: map<Tag, Tensor>)
    ensures forall tag :: tag in live <==> tag.index == 0 && tag.group < n
    ensures forall tag :: tag in live ==> live[tag] == t
  {
    map i | 0 <= i < n :: Tag(i, 0) := t
  }

  lemma LiveStep(t: Tensor, n: nat)
    ensures Live(t, n)[Tag(n, 0) := t] == Live(t, n + 1)
    ensures Live(t, n + 1) - {Tag(n, 0)} == Live(t, n)
    ensures Live(t, n) == map[] <==> n == 0
  {
    if n > 0 {
      assert Tag(0, 0) in Live(t, n);
    }
  }

  lemma {:induction false} RunAppend(c: Config, w: World, a: seq<Op>, b: seq<Op>)
    requires c.groups > 0 && LegalRun(c, w, a) && Run(c, w, a).Some? && LegalRun(c, Run(c, w, a).value, b)
    ensures LegalRun(c, w, a + b) && Run(c, w, a + b) == Run(c, Run(c, w, a).value, b)
    decreases |a|
  {
    hide Legal, Apply;
    if a == [] {
      assert a + b == b;
    } else {
      assert (a + b)[1..] == a[1..] + b && (a + b)[0] == a[0];
      RunAppend(c, Apply(c, w, a[0]).value, a[1..], b);
    }
  }

  lemma OneOp(c: Config, w: World, op: Op)
    requires c.groups > 0 && Legal(c, w, op) && Apply(c, w, op).Some?
    ensures LegalRun(c, w, [op]) && Run(c, w, [op]) == Apply(c, w, op)
  {
    hide Legal, Apply;
    var w' := Apply(c, w, op).value;
    assert [op][1..] == [];
    assert Run(c, w', []) == Some(w');
  }

  /** One legal operation, by the ledger. */
  lemma OneMore(c: Config, w: World, l: Ledger, op: Op) returns (w': World)
    requires c.Valid() && Inv(c, w) && Agrees(w, l) && Legal(c, w, op)
    ensures Inv(c, w') && Agrees(w', Note(l, op))
    ensures LegalRun(c, w, [op]) && Run(c, w, [op]) == Some(w')
  {
    StepAgrees(c, w, op, l);
    StepKeeps(c, w, op);
    w' := Apply(c, w, op).value;
    OneOp(c, w, op);
  }

  /** What the ledger of such a pass says before and between the operations of a layer. */
  function Before(t: Tensor, n: nat): Ledger {
    Ledger(Forward, n, 0, Live(t, n))
  }

  function Pushed(t: Tensor, n: nat): Ledger {
    Ledger(Forward, n, 1, Live(t, n + 1))
  }

  function Turned(c: Config, t: Tensor, n: nat): Ledger {
    Ledger(if n == c.layers then Forward else if n == 0 then Forward else Backward, n, 0, Live(t, n))
  }

  function Reached(t: Tensor, n: nat): Ledger {
    Ledger(Backward, n, 0, Live(t, n + 1))
  }

  lemma PushIsLegal(c: Config, t: Tensor, n: nat, w: World)
    requires c.Valid() && WellFormed(t) && n < c.layers && Agrees(w, Before(t, n))
    ensures Legal(c, w, PushOp(t, true)) && Note(Before(t, n), PushOp(t, true)) == Pushed(t, n)
  {
    LiveStep(t, n);
  }

  lemma CommitIsLegal(c: Config, t: Tensor, n: nat, w: World)
    requires c.Valid() && n < c.layers && Agrees(w, Pushed(t, n))
    ensures Legal(c, w, CommitForwardOp) && Note(Pushed(t, n), CommitForwardOp) == Before(t, n + 1)
  {
  }

  lemma TurnIsLegal(c: Config, t: Tensor, n: nat, w: World)
    requires c.Valid() && 0 < n <= c.layers && Agrees(w, Turned(c, t, n))
    ensures Legal(c, w, CommitBackwardOp) && Note(Turned(c, t, n), CommitBackwardOp) == Reached(t, n - 1)
  {
    LiveStep(t, n);
  }

  lemma PopIsLegal(c: Config, t: Tensor, n: nat, w: World)
    requires c.Valid() && n < c.layers && Agrees(w, Reached(t, n))
    ensures Legal(c, w, PopOp(Tagged(Tag(n, 0)))) && Note(Reached(t, n), PopOp(Tagged(Tag(n, 0)))) == Turned(c, t, n)
  {
    LiveStep(t, n);
  }

  lemma NothingYet(c: Config, t: Tensor)
    requires c.Valid()
    ensures LegalRun(c, START, ForwardOps(t, 0)) && Run(c, START, ForwardOps(t, 0)) == Some(START)
    ensures Inv(c, START) && Agrees(START, Before(t, 0))
  {
    hide Inv;
    StartInv(c);
    LiveStep(t, 0);
  }

  lemma Forwards(c: Config, t: Tensor, n: nat) returns (w: World)
    requires c.Valid() && WellFormed(t) && n <= c.layers
    ensures LegalRun(c, START, ForwardOps(t, n)) && Run(c, START, ForwardOps(t, n)) == Some(w)
    ensures Inv(c, w) && Agrees(w, Before(t, n))
  {
    hide Inv, LegalRun, Run, WellFormed, Agrees, Legal, Apply, Note, Before, Pushed;
    if n == 0 {
      NothingYet(c, t);
      w := START;
    } else {
      var w0 := Forwards(c, t, n - 1);
      PushIsLegal(c, t, n - 1, w0);
      var w1 := OneMore(c, w0, Before(t, n - 1), PushOp(t, true));
      CommitIsLegal(c, t, n - 1, w1);
      w := OneMore(c, w1, Pushed(t, n - 1), CommitForwardOp);
      RunAppend(c, w0, [PushOp(t, true)], [CommitForwardOp]);
      RunAppend(c, START, ForwardOps(t, n - 1), [PushOp(t, true)] + [CommitForwardOp]);
    }
  }

  lemma Backwards(c: Config, t: Tensor, n: nat, w: World) returns (w': World)
    requires c.Valid() && 0 < n <= c.layers && Inv(c, w) && Agrees(w, Turned(c, t, n))
    ensures LegalRun(c, w, BackwardOps(n)) && Run(c, w, BackwardOps(n)) == Some(w')
    ensures Inv(c, w') && Agrees(w', Turned(c, t, 0))
  {
    hide Inv, LegalRun, Run, Agrees, Legal, Apply, Note, Turned, Reached;
    var pop := PopOp(Tagged(Tag(n - 1, 0)));
    TurnIsLegal(c, t, n, w);
    var w1 := OneMore(c, w, Turned(c, t, n), CommitBackwardOp);
    PopIsLegal(c, t, n - 1, w1);
    var w2 := OneMore(c, w1, Reached(t, n - 1), pop);
    if n > 1 {
      w' := Backwards(c, t, n - 1, w2);
    } else {
      w' := w2;
      NoOps(c, w2);
    }
    RunAppend(c, w1, [pop], BackwardOps(n - 1));
    RunAppend(c, w, [CommitBackwardOp], [pop] + BackwardOps(n - 1));
  }

  lemma NoOps(c: Config, w: World)
    requires c.groups > 0
    ensures LegalRun(c, w, BackwardOps(0)) && Run(c, w, BackwardOps(0)) == Some(w)
  {
  }

  /** There is such a pass: every layer saves a tensor, all of them live at the turn, and the backward pass pops them
      one by one and leaves a fresh handler. What is proved of all legal runs is proved of this one. */
  lemma WholePassIsLegal(c: Config, t: Tensor)
    requires c.Valid() && WellFormed(t)
    ensures LegalRun(c, START, ForwardOps(t, c.layers)) &&
            NoteAll(EMPTY, ForwardOps(t, c.layers)).live == Live(t, c.layers)
    ensures LegalRun(c, START, ForwardOps(t, c.layers) + BackwardOps(c.layers))
    ensures NoteAll(EMPTY, ForwardOps(t, c.layers) + BackwardOps(c.layers)) == EMPTY
  {
    var w := Forwards(c, t, c.layers);
    RunFollowsLedger(c, ForwardOps(t, c.layers));
    LiveStep(t, 0);
    var w' := Backwards(c, t, c.layers, w);
    RunAppend(c, START, ForwardOps(t, c.layers), BackwardOps(c.layers));
    hide LegalRun, Run, Inv, NoteAll;
    RunFollowsLedger(c, ForwardOps(t, c.layers) + BackwardOps(c.layers));
  }
}
