/** Device streams as one host-ordered list of enqueued events, and the order the device must respect. */
module StreamOrder {

  datatype Stream = Compute | D2H | H2D

  /** `Work` runs on its stream; `Wait` makes its stream wait for everything enqueued so far on another one. */
  datatype Event<+W> = Work(on: Stream, what: W) | Wait(on: Stream, awaited: Stream)

  /** Event `i` is directly ordered before event `j`: same stream, or `j` waits for `i`'s stream. */
  predicate Directly<W>(log: seq<Event<W>>, i: nat, j: nat)
    requires i < |log| && j < |log|
  {
    i < j && (log[i].on == log[j].on || (log[j].Wait? && log[j].awaited == log[i].on))
  }

  /** The order every execution respects: the transitive closure of `Directly`. */
  ghost predicate HappensBefore<W>(log: seq<Event<W>>, i: nat, j: nat)
    requires i < |log| && j < |log|
    decreases j
  {
    i < j && (Directly(log, i, j) || exists k: nat :: k < j && HappensBefore(log, i, k) && Directly(log, k, j))
  }

  /** How many leading log entries of stream `t` are known complete to work enqueued next on stream `s`. */
  function Known<W>(log: seq<Event<W>>, s: Stream, t: Stream): (k: nat)
    ensures k <= |log|
  {
    if log == [] then 0
    else
      var rest, e := log[..|log| - 1], log[|log| - 1];
      if e.Wait? && e.on == s then
        if e.awaited == t then |log| - 1
        else if Known(rest, e.awaited, t) > Known(rest, s, t) then Known(rest, e.awaited, t)
        else Known(rest, s, t)
      else Known(rest, s, t)
  }

  lemma KnownAfterEvent<W>(log: seq<Event<W>>, e: Event<W>, s: Stream, t: Stream)
    ensures Known(log, s, t) <= Known(log + [e], s, t)
    ensures e.Work? || e.on != s ==> Known(log + [e], s, t) == Known(log, s, t)
    ensures e.Wait? && e.on == s && e.awaited == t ==> Known(log + [e], s, t) == |log|
    ensures e.Wait? && e.on == s && e.awaited != t ==> Known(log + [e], s, t) >= Known(log, e.awaited, t)
  {
    assert (log + [e])[..|log|] == log;
  }

  /** What the counter reads off the last of the first `j` events. */
  lemma KnownUnfolds<W>(log: seq<Event<W>>, j: nat, s: Stream, t: Stream)
    requires 0 < j <= |log|
    ensures var rest, e := log[..j - 1], log[j - 1];
            Known(log[..j], s, t) ==
            if e.Wait? && e.on == s then
              if e.awaited == t then j - 1
              else if Known(rest, e.awaited, t) > Known(rest, s, t) then Known(rest, e.awaited, t)
              else Known(rest, s, t)
            else Known(rest, s, t)
  {
    assert log[..j][..j - 1] == log[..j - 1];
  }

  lemma DirectlyHappens<W>(log: seq<Event<W>>, i: nat, j: nat)
    requires i < |log| && j < |log| && Directly(log, i, j)
    ensures HappensBefore(log, i, j)
  {
  }

  lemma Follows<W>(log: seq<Event<W>>, i: nat, m: nat, k: nat)
    requires i < m < |log| && k < |log| && HappensBefore(log, i, m) && Directly(log, m, k)
    ensures HappensBefore(log, i, k)
  {
  }

  /** The counters are sound: what they call complete does happen before. */
  lemma {:induction false} KnownHappensBefore<W>(log: seq<Event<W>>, i: nat, j: nat)
    requires i < j < |log|
    requires i < Known(log[..j], log[j].on, log[i].on)
    ensures HappensBefore(log, i, j)
  {
    hide Known, HappensBefore;
    var k := KnownWitness(log, i, j, log[j].on);
    Follows(log, i, k, j);
  }

  /** If stream `s` knows of `i` before event `j` is enqueued, some earlier event of `s` is ordered after `i`. */
  lemma {:induction false} KnownWitness<W>(log: seq<Event<W>>, i: nat, j: nat, s: Stream) returns (k: nat)
    requires i < j <= |log|
    requires i < Known(log[..j], s, log[i].on)
    ensures i < k < j && log[k].on == s && HappensBefore(log, i, k)
    decreases j
  {
    hide Known, HappensBefore;
    var rest, e := log[..j - 1], log[j - 1];
    KnownUnfolds(log, j, s, log[i].on);
    if e.Wait? && e.on == s && e.awaited == log[i].on {
      k := j - 1;
      DirectlyHappens(log, i, k);
    } else if e.Wait? && e.on == s && i < Known(rest, e.awaited, log[i].on) {
      var m := KnownWitness(log, i, j - 1, e.awaited);
      k := j - 1;
      Follows(log, i, m, k);
    } else {
      k := KnownWitness(log, i, j - 1, s);
    }
  }

  lemma LastStep<W>(log: seq<Event<W>>, i: nat, k: nat) returns (m: nat)
    requires i < |log| && k < |log| && HappensBefore(log, i, k) && !Directly(log, i, k)
    ensures i < m < k && HappensBefore(log, i, m) && Directly(log, m, k)
  {
    m :| m < k && HappensBefore(log, i, m) && Directly(log, m, k);
  }

  /** ... and they are complete, for events of different streams. */
  lemma {:induction false} HappensBeforeKnown<W>(log: seq<Event<W>>, i: nat, k: nat, j: nat)
    requires i < k < j <= |log|
    requires HappensBefore(log, i, k)
    requires log[k].on != log[i].on
    ensures i < Known(log[..j], log[k].on, log[i].on)
    decreases k, j
  {
    hide Known, HappensBefore;
    KnownUnfolds(log, j, log[k].on, log[i].on);
    if k < j - 1 {
      HappensBeforeKnown(log, i, k, j - 1);
    } else if !Directly(log, i, k) {
      var m := LastStep(log, i, k);
      if log[m].on != log[i].on {
        HappensBeforeKnown(log, i, m, k);
      }
    }
  }

  /** The counters decide the order exactly. */
  lemma KnownIsHappensBefore<W>(log: seq<Event<W>>, i: nat, j: nat)
    requires i < j < |log|
    ensures HappensBefore(log, i, j) <==>
            log[i].on == log[j].on || i < Known(log[..j + 1], log[j].on, log[i].on)
  {
    hide Known, HappensBefore;
    if log[i].on != log[j].on {
      if HappensBefore(log, i, j) {
        HappensBeforeKnown(log, i, j, j + 1);
      }
      if i < Known(log[..j + 1], log[j].on, log[i].on) {
        var k := KnownWitness(log, i, j + 1, log[j].on);
        if k < j {
          Follows(log, i, k, j);
        }
      }
    } else {
      DirectlyHappens(log, i, j);
    }
  }

  /** Later events do not change the order of earlier ones. */
  lemma {:induction false} HappensBeforeExtends<W>(log: seq<Event<W>>, more: seq<Event<W>>, i: nat, j: nat)
    requires i < j < |log| && HappensBefore(log, i, j)
    ensures HappensBefore(log + more, i, j)
  {
    if Directly(log, i, j) {
      assert Directly(log + more, i, j);
    } else {
      var k := LastStep(log, i, j);
      HappensBeforeExtends(log, more, i, k);
      assert Directly(log + more, k, j);
    }
  }
}
