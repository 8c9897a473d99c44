/** The benchmark's experiment scheduler: who runs on which GPUs, and how often each experiment is launched. */
module GpuScheduler {
  import opened Wrappers
  import opened IntSets

  datatype Command = Sft | Rlhf | Export | Eval | Other

  /** `id` tells experiment objects apart; names may clash. `doEval` says that the evaluation is what is to be run. */
  datatype Experiment =
    Experiment(id: int, name: string, cmd: Command, gpu: nat, evalGpu: nat, hasEvalDataset: bool, doEval: bool)
  {
    /** How many GPUs its next command asks for. */
    function Needed(): nat { if doEval then evalGpu else gpu }
  }

  /** A running process and the GPUs it was given. */
  datatype Running = Running(exp: Experiment, gpus: set<int>)

  datatype Launch = Launch(id: int, eval: bool)

  // ----- the invariant -----

  ghost predicate DistinctIds(exps: seq<Running>, queue: seq<Experiment>) {
    && (forall i, j :: 0 <= i < j < |exps| ==> exps[i].exp.id != exps[j].exp.id)
    && (forall i, j :: 0 <= i < j < |queue| ==> queue[i].id != queue[j].id)
    && (forall i, j :: 0 <= i < |exps| && 0 <= j < |queue| ==> exps[i].exp.id != queue[j].id)
  }

  /** Running experiments hold disjoint sets of existing GPUs, as many as they asked for. */
  ghost predicate GpusOk(exps: seq<Running>, devices: nat) {
    && (forall i :: 0 <= i < |exps| ==> exps[i].gpus <= Below(devices) && |exps[i].gpus| == exps[i].exp.Needed())
    && (forall i, j :: 0 <= i < j < |exps| ==> exps[i].gpus !! exps[j].gpus)
  }

  ghost predicate NotLaunched(launches: seq<Launch>, id: int, eval: bool) {
    forall i :: 0 <= i < |launches| ==> launches[i] != Launch(id, eval)
  }

  ghost predicate AtMostOnce(launches: seq<Launch>) {
    forall i, j :: 0 <= i < j < |launches| ==> launches[i] != launches[j]
  }

  /** No evaluation has been launched of what still waits; no main command of what waits for it; and no evaluation of
      what runs its main command. */
  ghost predicate LaunchesOk(exps: seq<Running>, queue: seq<Experiment>, launches: seq<Launch>) {
    && AtMostOnce(launches)
    && (forall i :: 0 <= i < |queue| ==>
                        && NotLaunched(launches, queue[i].id, true)
                        && (!queue[i].doEval ==> NotLaunched(launches, queue[i].id, false)))
    && (forall i :: 0 <= i < |exps| && !exps[i].exp.doEval ==> NotLaunched(launches, exps[i].exp.id, true))
  }

  ghost predicate Inv(exps: seq<Running>, queue: seq<Experiment>, launches: seq<Launch>, devices: nat) {
    DistinctIds(exps, queue) && GpusOk(exps, devices) && LaunchesOk(exps, queue, launches)
  }

  // ----- free GPUs -----

  predicate Unused(exps: seq<Running>, x: int) {
    forall i :: 0 <= i < |exps| ==> x !in exps[i].gpus
  }

  function FreeBelow(exps: seq<Running>, k: nat): set<int> {
    if k == 0 then {} else FreeBelow(exps, k - 1) + if Unused(exps, k - 1) then {k - 1} else {}
  }

  lemma {:induction false} FreeIsFree(exps: seq<Running>, k: nat, i: nat, x: int)
    requires i < |exps|
    ensures FreeBelow(exps, k) !! exps[i].gpus && FreeBelow(exps, k) <= Below(k)
    ensures x >= k ==> x !in FreeBelow(exps, k)
  {
    if k > 0 {
      FreeIsFree(exps, k - 1, i, x);
    }
  }

  lemma {:induction false} FreeInRange(exps: seq<Running>, k: nat, x: int)
    ensures FreeBelow(exps, k) <= Below(k)
    ensures x >= k ==> x !in FreeBelow(exps, k)
  {
    if k > 0 {
      FreeInRange(exps, k - 1, x);
    }
  }

  /** Exactly the existing devices that nothing running holds. */
  lemma {:induction false} FreeBelowIs(exps: seq<Running>, k: nat)
    ensures FreeBelow(exps, k) == set x: int | 0 <= x < k && Unused(exps, x)
  {
    if k > 0 {
      FreeBelowIs(exps, k - 1);
    }
  }

  // ----- steps keep the invariant -----

  /** The front of the queue is launched, on free GPUs, perhaps after a saved record has turned it to its evaluation. */
  lemma LaunchKeeps(exps: seq<Running>, queue: seq<Experiment>, launches: seq<Launch>, devices: nat,
                    exp: Experiment, gpus: set<int>)
    requires Inv(exps, queue, launches, devices) && queue != []
    requires exp.id == queue[0].id && (queue[0].doEval ==> exp.doEval)
    requires gpus <= FreeBelow(exps, devices) && |gpus| == exp.Needed()
    ensures Inv(exps + [Running(exp, gpus)], queue[1..], launches + [Launch(exp.id, exp.doEval)], devices)
  {
    LaunchGpus(exps, devices, exp, gpus);
  }

  lemma LaunchGpus(exps: seq<Running>, devices: nat, exp: Experiment, gpus: set<int>)
    requires GpusOk(exps, devices) && gpus <= FreeBelow(exps, devices) && |gpus| == exp.Needed()
    ensures GpusOk(exps + [Running(exp, gpus)], devices)
  {
    FreeInRange(exps, devices, 0);
    forall i | 0 <= i < |exps|
      ensures exps[i].gpus !! gpus
    {
      FreeIsFree(exps, devices, i, 0);
    }
  }

  lemma DropKeeps(exps: seq<Running>, queue: seq<Experiment>, launches: seq<Launch>, devices: nat)
    requires Inv(exps, queue, launches, devices) && queue != []
    ensures Inv(exps, queue[1..], launches, devices)
  {
  }

  /** A record may change everything but whose experiment it is; it never turns an evaluation back. */
  lemma LoadKeeps(exps: seq<Running>, queue: seq<Experiment>, launches: seq<Launch>, devices: nat, exp: Experiment)
    requires Inv(exps, queue, launches, devices) && queue != []
    requires exp.id == queue[0].id && exp.doEval
    ensures Inv(exps, queue[0 := exp], launches, devices)
  {
  }

  // ----- polling -----

  /** What is seen of a process: it still runs; it ended with an error; it ended well, with a metric or without; or it
      ended unseen, between the loop and the filter. */
  datatype Outcome = Still | Crashed | Ended(metric: bool) | Unseen

  predicate Requeues(r: Running, o: Outcome) {
    o.Ended? && o.metric && !r.exp.doEval && r.exp.hasEvalDataset
  }

  /** The queue after the loop: what needs evaluation is put in front, one after the other. */
  function Requeued(exps: seq<Running>, outcomes: seq<Outcome>, queue: seq<Experiment>): seq<Experiment>
    requires |exps| == |outcomes|
    decreases |exps|
  {
    if exps == [] then queue
    else
      Requeued(exps[1..], outcomes[1..],
               if Requeues(exps[0], outcomes[0]) then [exps[0].exp.(doEval := true)] + queue else queue)
  }

  /** What still runs. */
  function Remaining(exps: seq<Running>, outcomes: seq<Outcome>): seq<Running>
    requires |exps| == |outcomes|
  {
    if exps == [] then []
    else (if outcomes[0].Still? then [exps[0]] else []) + Remaining(exps[1..], outcomes[1..])
  }

  /** The experiment with its evaluation due. */
  function Due(r: Running): Experiment {
    r.exp.(doEval := true)
  }

  predicate NeedsEvaluation(r: Running, o: Outcome) {
    o == Ended(true) && !r.exp.doEval && r.exp.hasEvalDataset
  }

  /** What goes back into the queue is what ended with a metric and still needs its evaluation; it goes in front of all
      that waits, which keeps its order. */
  lemma {:induction false} RequeuedIs(exps: seq<Running>, outcomes: seq<Outcome>, queue: seq<Experiment>)
    returns (front: seq<Experiment>)
    requires |exps| == |outcomes|
    ensures Requeued(exps, outcomes, queue) == front + queue
    ensures forall i :: 0 <= i < |exps| && NeedsEvaluation(exps[i], outcomes[i]) ==> Due(exps[i]) in front
    ensures forall e :: e in front ==>
                          exists i :: 0 <= i < |exps| && NeedsEvaluation(exps[i], outcomes[i]) && e == Due(exps[i])
    decreases |exps|
  {
    hide NeedsEvaluation, Due;
    if exps == [] {
      front := [];
      assert [] + queue == queue;
    } else {
      var first := FirstRequeued(exps[0], outcomes[0]);
      RequeuedStep(exps, outcomes, queue, first);
      var more := RequeuedIs(exps[1..], outcomes[1..], first + queue);
      front := more + first;
      assert more + (first + queue) == front + queue;
      forall i | 0 <= i < |exps| && NeedsEvaluation(exps[i], outcomes[i])
        ensures Due(exps[i]) in front
      {
        if i > 0 {
          assert exps[1..][i - 1] == exps[i] && outcomes[1..][i - 1] == outcomes[i];
        }
      }
      forall e | e in front
        ensures exists i :: 0 <= i < |exps| && NeedsEvaluation(exps[i], outcomes[i]) && e == Due(exps[i])
      {
        if e in more {
          var i :| 0 <= i < |exps[1..]| && NeedsEvaluation(exps[1..][i], outcomes[1..][i]) && e == Due(exps[1..][i]);
          assert exps[1..][i] == exps[i + 1] && outcomes[1..][i] == outcomes[i + 1];
        } else {
          assert NeedsEvaluation(exps[0], outcomes[0]) && e == Due(exps[0]);
        }
      }
    }
  }

  lemma FirstRequeued(r: Running, o: Outcome) returns (first: seq<Experiment>)
    ensures first == if NeedsEvaluation(r, o) then [Due(r)] else []
  {
    first := if NeedsEvaluation(r, o) then [Due(r)] else [];
  }

  lemma RequeuedStep(exps: seq<Running>, outcomes: seq<Outcome>, queue: seq<Experiment>, first: seq<Experiment>)
    requires exps != [] && |exps| == |outcomes|
    requires first == if NeedsEvaluation(exps[0], outcomes[0]) then [Due(exps[0])] else []
    ensures Requeued(exps, outcomes, queue) == Requeued(exps[1..], outcomes[1..], first + queue)
  {
    assert [] + queue == queue;
  }

  /** What stays is what still runs. */
  lemma {:induction false} RemainingIs(exps: seq<Running>, outcomes: seq<Outcome>, r: Running)
    requires |exps| == |outcomes|
    ensures r in Remaining(exps, outcomes) <==> exists i :: 0 <= i < |exps| && exps[i] == r && outcomes[i].Still?
  {
    if exps != [] {
      RemainingIs(exps[1..], outcomes[1..], r);
      assert forall i :: 0 < i < |exps| ==> exps[i] == exps[1..][i - 1] && outcomes[i] == outcomes[1..][i - 1];
      if r in Remaining(exps, outcomes) {
        if !(outcomes[0].Still? && exps[0] == r) {
          var i :| 0 <= i < |exps[1..]| && exps[1..][i] == r && outcomes[1..][i].Still?;
          assert exps[i + 1] == r && outcomes[i + 1].Still?;
        }
      }
    }
  }

  lemma TakeOut(kept: seq<Running>, r: Running, todo: seq<Running>, queue: seq<Experiment>, launches: seq<Launch>,
                devices: nat, requeue: bool)
    requires Inv(kept + ([r] + todo), queue, launches, devices) && (requeue ==> !r.exp.doEval)
    ensures Inv(kept + todo, if requeue then [r.exp.(doEval := true)] + queue else queue, launches, devices)
  {
    var all, fewer := kept + ([r] + todo), kept + todo;
    assert forall i :: 0 <= i < |fewer| ==> fewer[i] == all[if i < |kept| then i else i + 1];
    assert all[|kept|] == r;
    TakeOutGpus(all, fewer, |kept|, devices);
    TakeOutLaunches(all, fewer, |kept|, queue, launches, requeue);
  }

  lemma TakeOutGpus(all: seq<Running>, fewer: seq<Running>, k: nat, devices: nat)
    requires GpusOk(all, devices) && k < |all| && |fewer| == |all| - 1
    requires forall i :: 0 <= i < |fewer| ==> fewer[i] == all[if i < k then i else i + 1]
    ensures GpusOk(fewer, devices)
  {
  }

  lemma TakeOutLaunches(all: seq<Running>, fewer: seq<Running>, k: nat, queue: seq<Experiment>, launches: seq<Launch>,
                        requeue: bool)
    requires LaunchesOk(all, queue, launches) && k < |all| && |fewer| == |all| - 1
    requires forall i :: 0 <= i < |fewer| ==> fewer[i] == all[if i < k then i else i + 1]
    requires requeue ==> !all[k].exp.doEval
    ensures LaunchesOk(fewer, if requeue then [all[k].exp.(doEval := true)] + queue else queue, launches)
  {
    hide NotLaunched;
  }

  /** A poll keeps the invariant, whatever has ended and however. */
  lemma {:induction false} PollKeeps(kept: seq<Running>, todo: seq<Running>, outcomes: seq<Outcome>,
                                     queue: seq<Experiment>, launches: seq<Launch>, devices: nat)
    requires |todo| == |outcomes| && Inv(kept + todo, queue, launches, devices)
    ensures Inv(kept + Remaining(todo, outcomes), Requeued(todo, outcomes, queue), launches, devices)
    decreases |todo|
  {
    hide Inv;
    if todo != [] {
      var r, o := todo[0], outcomes[0];
      assert todo == [r] + todo[1..];
      if o.Still? {
        assert kept + todo == (kept + [r]) + todo[1..];
        PollKeeps(kept + [r], todo[1..], outcomes[1..], queue, launches, devices);
        assert (kept + [r]) + Remaining(todo[1..], outcomes[1..]) == kept + Remaining(todo, outcomes);
      } else {
        TakeOut(kept, r, todo[1..], queue, launches, devices, Requeues(r, o));
        PollKeeps(kept, todo[1..], outcomes[1..],
                  if Requeues(r, o) then [r.exp.(doEval := true)] + queue else queue, launches, devices);
        assert [] + Remaining(todo[1..], outcomes[1..]) == Remaining(todo[1..], outcomes[1..]);
        assert Remaining(todo, outcomes) == Remaining(todo[1..], outcomes[1..]);
      }
    }
  }

  // ----- the overlap check -----

  function UsedBy(exps: seq<Running>, i: nat): set<int>
    requires i <= |exps|
  {
    if i == 0 then {} else UsedBy(exps, i - 1) + exps[i - 1].gpus
  }

  lemma {:induction false} ClearOfAll(exps: seq<Running>, i: nat, g: set<int>)
    requires i <= |exps|
    ensures g !! UsedBy(exps, i) <==> forall j :: 0 <= j < i ==> exps[j].gpus !! g
  {
    if i > 0 {
      ClearOfAll(exps, i - 1, g);
    }
  }

  /** In every reachable state the overlap check raises exactly when some running command was given no GPU. */
  lemma OverlapCheckPasses(exps: seq<Running>, queue: seq<Experiment>, launches: seq<Launch>, devices: nat)
    requires Inv(exps, queue, launches, devices)
    ensures NoOverlap(exps) <==> forall i :: 0 <= i < |exps| ==> exps[i].exp.Needed() > 0
  {
    forall i | 0 <= i < |exps|
      ensures exps[i].gpus == {} <==> exps[i].exp.Needed() == 0
    {
      assert |exps[i].gpus| == exps[i].exp.Needed();
    }
  }

  /** What the check demands: every running command has GPUs in its environment, and no two share one. */
  ghost predicate NoOverlap(exps: seq<Running>) {
    && (forall i :: 0 <= i < |exps| ==> exps[i].gpus != {})
    && (forall i, j :: 0 <= i < j < |exps| ==> exps[i].gpus !! exps[j].gpus)
  }

  // ----- ExpManager -----

  /** The record file of an experiment: what it says of the experiment, and whether it holds a result of the
      evaluation. */
  datatype Saved = NoFile | Record(name: string, cmd: Command, gpu: nat, hasEvalResult: bool)

  /** What is left to run of an experiment once its record file has been read; nothing when it is done. */
  function ToRun(exp: Experiment, saved: Saved): Option<Experiment> {
    match saved
    case NoFile => Some(exp)
    case Record(name, cmd, gpu, hasEvalResult) =>
      if !exp.hasEvalDataset || hasEvalResult then None
      else if exp.doEval then Some(exp)
      else Some(exp.(name := name, cmd := cmd, gpu := gpu, doEval := true))
  }

  /** Nothing is left to run exactly if there is a record and no evaluation is asked for or its result is there. A
      record without the result turns what is not an evaluation yet into one, and its name, command and requirements
      are those recorded; without a record, and for an evaluation, nothing changes. */
  lemma ToRunIs(exp: Experiment, saved: Saved)
    ensures ToRun(exp, saved).None? <==> saved.Record? && (!exp.hasEvalDataset || saved.hasEvalResult)
    ensures ToRun(exp, saved).Some? ==>
              var e := ToRun(exp, saved).value;
              && e.id == exp.id && e.evalGpu == exp.evalGpu && e.hasEvalDataset == exp.hasEvalDataset
              && (e.doEval <==> exp.doEval || saved.Record?)
              && (saved.NoFile? || exp.doEval ==> e == exp)
              && (saved.Record? && !exp.doEval ==> e.name == saved.name && e.cmd == saved.cmd && e.gpu == saved.gpu)
  {
  }

  /** How `run` ends. `Overlap` is the exception of the check that follows a launch. */
  datatype Result = Launched | Skipped | NoFreeGpu | ExportBusy | Failed(assertion: bool) | Overlap {
    predicate Started() { Launched? || Overlap? }

    /** After assertions the experiment stays in the queue. */
    predicate Stays() { NoFreeGpu? || ExportBusy? || (Failed? && assertion) }
  }

  /** Whether putting the command line together raises, and then whether an assertion. */
  datatype Build = Fine | Raises(assertion: bool)

  /** An experiment that left the queue without being started, and why. */
  datatype Dropped = Dropped(id: int, why: Result)

  /** What is still to be run of the experiment asks for GPUs. */
  ghost predicate RequestsGpus(exp: Experiment) {
    (exp.doEval || exp.gpu > 0) && exp.evalGpu > 0
  }

  ghost predicate AllRequest(exps: seq<Running>, queue: seq<Experiment>) {
    && (forall i :: 0 <= i < |exps| ==> RequestsGpus(exps[i].exp))
    && (forall i :: 0 <= i < |queue| ==> RequestsGpus(queue[i]))
  }

  lemma {:induction false} PollRequests(todo: seq<Running>, outcomes: seq<Outcome>, queue: seq<Experiment>)
    requires |todo| == |outcomes| && AllRequest(todo, queue)
    ensures AllRequest(Remaining(todo, outcomes), Requeued(todo, outcomes, queue))
    decreases |todo|
  {
    if todo != [] {
      PollRequests(todo[1..], outcomes[1..],
                   if Requeues(todo[0], outcomes[0]) then [todo[0].exp.(doEval := true)] + queue else queue);
    }
  }

  class ExpManager {
    const devices: nat
    var exps: seq<Running>
    var expQueue: seq<Experiment>
    ghost var launches: seq<Launch>
    ghost var dropped: seq<Dropped>

    /** The experiment waits, or has been started, or was dropped. */
    ghost predicate Known(id: int)
      reads this
    {
      OnList(expQueue, launches, dropped, id)
    }

    /** Nothing is dropped but what is done already or raised something other than an assertion. */
    ghost predicate DroppedForGood()
      reads this
    {
      forall i :: 0 <= i < |dropped| ==> dropped[i].why == Skipped || dropped[i].why == Failed(false)
    }

    ghost predicate Valid()
      reads this
    {
      Inv(exps, expQueue, launches, devices)
    }

    constructor (devices: nat, experiments: seq<Experiment>)
      requires forall i, j :: 0 <= i < j < |experiments| ==> experiments[i].id != experiments[j].id
      ensures Valid() && launches == [] && dropped == [] && exps == [] && expQueue == experiments
      ensures this.devices == devices
    {
      this.devices := devices;
      exps := [];
      expQueue := experiments;
      launches := [];
      dropped := [];
    }

    /** `n` free GPUs, or none when there are fewer. */
    method FindFreeGpu(n: nat) returns (gpus: Option<set<int>>)
      ensures gpus.None? <==> |FreeBelow(exps, devices)| < n
      ensures gpus.Some? ==> gpus.value <= FreeBelow(exps, devices) && |gpus.value| == n
    {
      var found: set<int> := {};
      var free: set<int> := {};
      for x := 0 to devices
        invariant free == FreeBelow(exps, x) && found <= free
        invariant if |free| <= n then found == free else |found| == n
      {
        FreeInRange(exps, x, x);
        if Unused(exps, x) {
          free := free + {x};
          if |found| < n {
            found := found + {x};
          }
        }
      }
      gpus := if |free| < n then None else Some(found);
    }

    method AssertGpuNotOverlap() returns (ok: bool)
      ensures ok <==> NoOverlap(exps)
    {
      var allGpus: set<int> := {};
      for i := 0 to |exps|
        invariant allGpus == UsedBy(exps, i)
        invariant forall j :: 0 <= j < i ==> exps[j].gpus != {}
        invariant forall j, k :: 0 <= j < k < i ==> exps[j].gpus !! exps[k].gpus
      {
        var gpus := exps[i].gpus;
        ClearOfAll(exps, i, gpus);
        if gpus == {} || !(gpus !! allGpus) {
          return false;
        }
        allGpus := allGpus + gpus;
      }
      ok := true;
    }

    predicate NameTaken(name: string)
      reads this
    {
      exists i :: 0 <= i < |exps| && exps[i].exp.name == name
    }

    predicate ExportRunning()
      reads this
    {
      exists i :: 0 <= i < |exps| && exps[i].exp.cmd.Export?
    }

    /** What has to hold for a command to be started: unless it is an evaluation, its name is not taken, no other export
        runs beside an export, and the command is known; as many devices are free as it asks for; nothing raises. */
    ghost predicate CanStart(exp: Experiment, build: Build)
      reads this
    {
      && (!exp.doEval ==>
          && (forall i :: 0 <= i < |exps| ==> exps[i].exp.name != exp.name)
          && (exp.cmd.Export? ==> forall i :: 0 <= i < |exps| ==> !exps[i].exp.cmd.Export?)
          && (exp.cmd.Sft? || exp.cmd.Rlhf? || exp.cmd.Export?))
      && (if exp.doEval then exp.evalGpu else exp.gpu) <= |set x: int | 0 <= x < devices && Unused(exps, x)|
      && build.Fine?
    }

    /** Why the next command cannot be started, or that it can. `build` stands for an exception while the command line
        is put together, after the GPUs are chosen. */
    function Verdict(exp: Experiment, build: Build): Result
      reads this
    {
      if !exp.doEval && NameTaken(exp.name) then Failed(false)
      else if !exp.doEval && exp.cmd.Export? && ExportRunning() then ExportBusy
      else if exp.Needed() > 0 && |FreeBelow(exps, devices)| < exp.Needed() then NoFreeGpu
      else if !exp.doEval && (exp.cmd.Eval? || exp.cmd.Other?) then Failed(false)
      else if build.Raises? then Failed(build.assertion)
      else Launched
    }

    /** The verdict is favourable exactly when the command can be started; otherwise it has its reason. A taken name and
        an unknown command are no assertions; a busy export, short GPUs and failed assertions are. */
    lemma VerdictIs(exp: Experiment, build: Build)
      ensures Verdict(exp, build).Launched? <==> CanStart(exp, build)
      ensures Verdict(exp, build) == NoFreeGpu ==> exp.Needed() > |set x: int | 0 <= x < devices && Unused(exps, x)|
      ensures Verdict(exp, build) == ExportBusy ==>
                !exp.doEval && exp.cmd.Export? && exists i :: 0 <= i < |exps| && exps[i].exp.cmd.Export?
      ensures Verdict(exp, build) == Failed(true) ==> build == Raises(true)
      ensures Verdict(exp, build) == Failed(false) ==>
                || build == Raises(false)
                || (!exp.doEval && (exp.cmd.Eval? || exp.cmd.Other?))
                || (!exp.doEval && exists i :: 0 <= i < |exps| && exps[i].exp.name == exp.name)
      ensures !exp.doEval && (exists i :: 0 <= i < |exps| && exps[i].exp.name == exp.name) ==>
                Verdict(exp, build) == Failed(false)
    {
      FreeBelowIs(exps, devices);
    }

    /** `run` on the front of the queue: the record may turn it to its evaluation; a started command gets free GPUs, is
        recorded, and the check that follows raises exactly when something running has no GPU. */
    method Run(saved: Saved, build: Build) returns (result: Result)
      requires Valid() && expQueue != []
      modifies this`exps, this`expQueue, this`launches
      ensures result.Skipped? <==> saved.Record? && (!old(expQueue[0]).hasEvalDataset || saved.hasEvalResult)
      ensures result.Skipped? ==> expQueue == old(expQueue)
      ensures !result.Skipped? ==>
                var exp := ToRun(old(expQueue[0]), saved).value;
                && expQueue == old(expQueue)[0 := exp]
                && (result.Started() <==> old(CanStart(exp, build)))
                && (!result.Started() ==> result == old(Verdict(exp, build)))
      ensures if result.Started() then
                && |exps| == old(|exps|) + 1 && exps[..old(|exps|)] == old(exps)
                && exps[old(|exps|)].exp == expQueue[0]
                && exps[old(|exps|)].gpus <= old(FreeBelow(exps, devices))
                && |exps[old(|exps|)].gpus| == (if expQueue[0].doEval then expQueue[0].evalGpu else expQueue[0].gpu)
                && launches == old(launches) + [Launch(expQueue[0].id, expQueue[0].doEval)]
                && Inv(exps, expQueue[1..], launches, devices)
                && (result.Overlap? <==> exists i :: 0 <= i < |exps| && exps[i].exp.Needed() == 0)
              else exps == old(exps) && launches == old(launches) && Valid()
    {
      hide Inv, NoOverlap, FreeBelow, CanStart;
      if ToRun(expQueue[0], saved).Some? {
        VerdictIs(ToRun(expQueue[0], saved).value, build);
      }
      var exp := expQueue[0];
      match saved {
        case NoFile =>
          assert expQueue[0 := exp] == expQueue;
        case Record(name, cmd, gpu, hasEvalResult) =>
          if !exp.hasEvalDataset || hasEvalResult {
            return Skipped;
          }
          if !exp.doEval {
            exp := exp.(name := name, cmd := cmd, gpu := gpu, doEval := true);
          }
          LoadKeeps(exps, expQueue, launches, devices, exp);
          expQueue := expQueue[0 := exp];
      }
      if !exp.doEval && NameTaken(exp.name) {
        return Failed(false);
      }
      if !exp.doEval && exp.cmd.Export? && ExportRunning() {
        return ExportBusy;
      }
      var gpus: set<int> := {};
      if exp.Needed() > 0 {
        var chosen := FindFreeGpu(exp.Needed());
        if chosen.None? {
          return NoFreeGpu;
        }
        gpus := chosen.value;
      }
      if !exp.doEval && (exp.cmd.Eval? || exp.cmd.Other?) {
        return Failed(false);
      }
      if build.Raises? {
        return Failed(build.assertion);
      }
      LaunchKeeps(exps, expQueue, launches, devices, exp, gpus);
      launches := launches + [Launch(exp.id, exp.doEval)];
      exps := exps + [Running(exp, gpus)];
      OverlapCheckPasses(exps, expQueue[1..], launches, devices);
      var ok := AssertGpuNotOverlap();
      result := if ok then Launched else Overlap;
    }

    /** `_poll`: what ended is taken out, and what needs evaluation goes back to the front of the queue. */
    method Poll(outcomes: seq<Outcome>)
      requires Valid() && |outcomes| == |exps|
      modifies this`exps, this`expQueue
      ensures Valid()
      ensures exps == Remaining(old(exps), outcomes) && expQueue == Requeued(old(exps), outcomes, old(expQueue))
    {
      hide Inv;
      PollKeeps([], exps, outcomes, expQueue, launches, devices) by {
        assert [] + exps == exps;
      }
      assert [] + Remaining(exps, outcomes) == Remaining(exps, outcomes);
      hide Requeues;
      for i := 0 to |exps|
        invariant exps == old(exps)
        invariant Requeued(exps[i..], outcomes[i..], expQueue) == Requeued(exps, outcomes, old(expQueue))
      {
        assert exps[i..][1..] == exps[i + 1..] && outcomes[i..][1..] == outcomes[i + 1..];
        if Requeues(exps[i], outcomes[i]) {
          expQueue := [exps[i].exp.(doEval := true)] + expQueue;
        }
      }
      FilterRunning(outcomes);
    }

    /** The filter at the end of a poll. */
    method FilterRunning(outcomes: seq<Outcome>)
      requires |outcomes| == |exps|
      modifies this`exps
      ensures exps == Remaining(old(exps), outcomes)
    {
      var running := exps;
      exps := [];
      assert [] + Remaining(running, outcomes) == Remaining(running, outcomes);
      for i := 0 to |running|
        invariant exps + Remaining(running[i..], outcomes[i..]) == Remaining(running, outcomes)
      {
        assert running[i..][1..] == running[i + 1..] && outcomes[i..][1..] == outcomes[i + 1..];
        ghost var rest := Remaining(running[i + 1..], outcomes[i + 1..]);
        assert [] + rest == rest;
        if outcomes[i].Still? {
          assert exps + ([running[i]] + rest) == exps + [running[i]] + rest;
          exps := exps + [running[i]];
        }
      }
      assert exps + [] == exps;
    }

    /** The inner loop of `begin`: experiments are started from the front of the queue until it is empty, GPUs run out,
        or the attempts do. */
    method StartFromQueue(attempts: nat) returns (overlaps: nat, ghost tried: nat, ghost last: Option<Result>)
      requires Valid() && DroppedForGood()
      modifies this`exps, this`expQueue, this`launches, this`dropped
      ensures Valid() && DroppedForGood()
      ensures forall id :: old(Known(id)) ==> Known(id)
      ensures expQueue == [] || last == Some(NoFreeGpu) || tried == attempts
      ensures old(AllRequest(exps, expQueue)) ==> AllRequest(exps, expQueue) && overlaps == 0
    {
      overlaps, tried, last := 0, 0, None;
      for attempt := 0 to attempts
        invariant Valid() && DroppedForGood() && tried == attempt
        invariant forall id :: old(Known(id)) ==> Known(id)
        invariant old(AllRequest(exps, expQueue)) ==> AllRequest(exps, expQueue) && overlaps == 0
      {
        hide Inv, Known, AllRequest;
        if expQueue == [] {
          return;
        }
        var saved: Saved := *;
        var build: Build := *;
        var result := Attempt(saved, build);
        tried, last := attempt + 1, Some(result);
        if result.NoFreeGpu? {
          return;
        }
        if result.Overlap? {
          overlaps := overlaps + 1;
        }
      }
    }

    /** One attempt: the front leaves the queue, unless GPUs are short, an export is in the way, or what failed was an
        assertion. */
    method Attempt(saved: Saved, build: Build) returns (result: Result)
      requires Valid() && expQueue != [] && DroppedForGood()
      modifies this`exps, this`expQueue, this`launches, this`dropped
      ensures Valid() && DroppedForGood()
      ensures if result.Stays() then |expQueue| == old(|expQueue|) && expQueue[1..] == old(expQueue)[1..] &&
                                     ToRun(old(expQueue[0]), saved) == Some(expQueue[0])
              else expQueue == old(expQueue)[1..]
      ensures result.Skipped? <==> ToRun(old(expQueue[0]), saved).None?
      ensures !result.Skipped? ==> (result.Started() <==> old(CanStart(ToRun(expQueue[0], saved).value, build)))
      ensures result.Started() ==>
                var exp := ToRun(old(expQueue[0]), saved).value;
                && |exps| == old(|exps|) + 1 && exps[..old(|exps|)] == old(exps) && exps[old(|exps|)].exp == exp
                && |exps[old(|exps|)].gpus| == (if exp.doEval then exp.evalGpu else exp.gpu)
                && launches == old(launches) + [Launch(exp.id, exp.doEval)]
      ensures !result.Started() ==> exps == old(exps) && launches == old(launches)
      ensures dropped == old(dropped) + if result.Started() || result.Stays() then []
                                        else [Dropped(old(expQueue[0]).id, result)]
      ensures forall id :: old(Known(id)) ==> Known(id)
      ensures old(AllRequest(exps, expQueue)) ==> AllRequest(exps, expQueue) && !result.Overlap?
    {
      hide Inv, NoOverlap, CanStart, FreeBelow;
      ghost var front, launched := expQueue[0], launches;
      ghost var waiting := expQueue;
      result := Run(saved, build);
      assert old(AllRequest(exps, expQueue)) ==> AllRequest(exps, expQueue);
      assert old(AllRequest(exps, expQueue)) ==> !result.Overlap?;
      if !result.Stays() {
        if !result.Started() {
          DropKeeps(exps, expQueue, launches, devices);
          dropped := dropped + [Dropped(front.id, result)];
        }
        assert expQueue[1..] == waiting[1..];
        expQueue := expQueue[1..];
      }
      assert result.Started() || result.Stays() ==> dropped == old(dropped) + [];
      StillKnown(waiting, expQueue, launched, launches, old(dropped), dropped, front.id);
    }

    /** `begin`, up to a number of rounds and of attempts in each: in every such run no experiment's main command or
        evaluation is launched twice, running experiments hold disjoint existing GPUs, and when every experiment
        requests GPUs no overlap check raises. No experiment is lost: it waits, or was started, or is done already, or
        raised something other than an assertion. */
    method Begin(rounds: nat, attempts: nat) returns (overlaps: nat)
      requires Valid() && DroppedForGood()
      modifies this`exps, this`expQueue, this`launches, this`dropped
      ensures AtMostOnce(launches)
      ensures GpusOk(exps, devices)
      ensures (forall id :: old(Known(id)) ==> Known(id)) && DroppedForGood()
      ensures old(AllRequest(exps, expQueue)) ==> overlaps == 0
    {
      overlaps := 0;
      for round := 0 to rounds
        invariant Valid() && DroppedForGood()
        invariant forall id :: old(Known(id)) ==> Known(id)
        invariant old(AllRequest(exps, expQueue)) ==> AllRequest(exps, expQueue) && overlaps == 0
      {
        hide Inv;
        ghost var tried, last;
        var more;
        more, tried, last := StartFromQueue(attempts);
        overlaps := overlaps + more;
        assert |seq(|exps|, _ => Still)| == |exps|;
        var outcomes: seq<Outcome> :| |outcomes| == |exps|;
        if old(AllRequest(exps, expQueue)) {
          PollRequests(exps, outcomes, expQueue);
        }
        ghost var front := RequeuedIs(exps, outcomes, expQueue);
        WaitersKept(front, expQueue);
        Poll(outcomes);
      }
    }
  }

  ghost predicate Waits(queue: seq<Experiment>, id: int) {
    exists i :: 0 <= i < |queue| && queue[i].id == id
  }

  lemma WaitersKept(front: seq<Experiment>, queue: seq<Experiment>)
    ensures forall id :: Waits(queue, id) ==> Waits(front + queue, id)
  {
    forall id | Waits(queue, id)
      ensures Waits(front + queue, id)
    {
      var i :| 0 <= i < |queue| && queue[i].id == id;
      assert (front + queue)[|front| + i].id == id;
    }
  }

  /** Only the front of the queue can leave it, and then it is on one of the lists. */
  lemma StillKnown(waiting: seq<Experiment>, queue: seq<Experiment>, launched: seq<Launch>, launches: seq<Launch>,
                   gone: seq<Dropped>, dropped: seq<Dropped>, front: int)
    requires waiting != [] && waiting[0].id == front && launched <= launches && gone <= dropped
    requires queue == waiting[1..] || (|queue| == |waiting| && queue[1..] == waiting[1..] && queue[0].id == front)
    requires |queue| == |waiting| ||
             (launches != [] && launches[|launches| - 1].id == front) ||
             (dropped != [] && dropped[|dropped| - 1].id == front)
    ensures forall id :: OnList(waiting, launched, gone, id) ==> OnList(queue, launches, dropped, id)
  {
  }

  ghost predicate OnList(queue: seq<Experiment>, launches: seq<Launch>, dropped: seq<Dropped>, id: int) {
    || Waits(queue, id)
    || (exists i :: 0 <= i < |launches| && launches[i].id == id)
    || (exists i :: 0 <= i < |dropped| && dropped[i].id == id)
  }
}
