/** Interleaving the domains' queues: one after the other, at random, or weighted round-robin. */
module GrpoInterleave {
  import opened GrpoRows

  type Queues = map<Domain, seq<Row>>

  function RatioOf(ratio: map<Domain, nat>, d: Domain): nat {
    if d in ratio then ratio[d] else 1
  }

  ghost predicate Positive(ratio: map<Domain, nat>) {
    forall d :: d in ratio ==> ratio[d] > 0
  }

  function Take(rows: seq<Row>, n: nat): seq<Row> {
    if n <= |rows| then rows[..n] else rows
  }

  function Drop(rows: seq<Row>, n: nat): seq<Row> {
    if n <= |rows| then rows[n..] else []
  }

  // ----- closed form of the weighted round-robin -----

  /** What cycle `k` emits: for each domain in turn, its next `ratio` rows. */
  function Round(names: seq<Domain>, m: Queues, ratio: map<Domain, nat>, k: nat): seq<Row>
    requires forall d :: d in names ==> d in m
  {
    if names == [] then []
    else
      var r := RatioOf(ratio, names[0]);
      Take(Drop(m[names[0]], k * r), r) + Round(names[1..], m, ratio, k)
  }

  function Rounds(names: seq<Domain>, m: Queues, ratio: map<Domain, nat>, k: nat): seq<Row>
    requires forall d :: d in names ==> d in m
  {
    if k == 0 then [] else Rounds(names, m, ratio, k - 1) + Round(names, m, ratio, k - 1)
  }

  lemma {:induction false} RoundOfDomain(names: seq<Domain>, m: Queues, ratio: map<Domain, nat>, k: nat, d: Domain)
    requires Distinct(names) && QueuesOk(m) && forall e :: e in names ==> e in m
    ensures OfDomain(Round(names, m, ratio, k), d) ==
            if d in names then Take(Drop(m[d], k * RatioOf(ratio, d)), RatioOf(ratio, d)) else []
  {
    if names != [] {
      var e := names[0];
      var block := Take(Drop(m[e], k * RatioOf(ratio, e)), RatioOf(ratio, e));
      RoundOfDomain(names[1..], m, ratio, k, d);
      forall r | r in block
        ensures r.category == e
      {
        assert r in m[e];
      }
      hide OfDomain;
      OfDomainAppend(block, Round(names[1..], m, ratio, k), d);
      OfDomainAll(block, e, d);
    }
  }

  /** After `k` full cycles every domain has emitted its first `k * ratio` rows, or all of them, in its own order. */
  lemma {:induction false} RoundsOfDomain(names: seq<Domain>, m: Queues, ratio: map<Domain, nat>, k: nat, d: Domain)
    requires Distinct(names) && QueuesOk(m) && forall e :: e in names ==> e in m
    ensures OfDomain(Rounds(names, m, ratio, k), d) == if d in names then Take(m[d], k * RatioOf(ratio, d)) else []
  {
    hide OfDomain, Round, Rounds, Take, Drop, RatioOf;
    if k > 0 {
      RoundsOfDomain(names, m, ratio, k - 1, d);
      RoundOfDomain(names, m, ratio, k - 1, d);
      RoundsStep(names, m, ratio, k);
      OfDomainAppend(Rounds(names, m, ratio, k - 1), Round(names, m, ratio, k - 1), d);
      if d in names {
        TakeAnother(m[d], k, RatioOf(ratio, d));
      }
    } else {
      NoRounds(names, m, ratio, d);
    }
  }

  lemma RoundsStep(names: seq<Domain>, m: Queues, ratio: map<Domain, nat>, k: nat)
    requires k > 0 && forall e :: e in names ==> e in m
    ensures Rounds(names, m, ratio, k) == Rounds(names, m, ratio, k - 1) + Round(names, m, ratio, k - 1)
  {
  }

  lemma TakeAnother(rows: seq<Row>, k: nat, r: nat)
    requires k > 0
    ensures Take(rows, (k - 1) * r) + Take(Drop(rows, (k - 1) * r), r) == Take(rows, k * r)
    ensures Drop(Drop(rows, (k - 1) * r), r) == Drop(rows, k * r)
  {
    assert (k - 1) * r + r == k * r;
  }

  lemma NoRounds(names: seq<Domain>, m: Queues, ratio: map<Domain, nat>, d: Domain)
    requires forall e :: e in names ==> e in m
    ensures OfDomain(Rounds(names, m, ratio, 0), d) == []
    ensures d in names ==> Take(m[d], 0 * RatioOf(ratio, d)) == []
  {
  }

  // ----- the cycle list -----

  function Repeat(d: Domain, n: nat): (r: seq<Domain>)
    ensures |r| == n && forall i :: 0 <= i < n ==> r[i] == d
  {
    seq(n, _ => d)
  }

  /** Each domain in turn, as many times as its ratio says. */
  function Cycle(names: seq<Domain>, ratio: map<Domain, nat>): seq<Domain> {
    if names == [] then [] else Repeat(names[0], RatioOf(ratio, names[0])) + Cycle(names[1..], ratio)
  }

  /** One pass over a piece of the cycle list: pop the front of each named queue that is not empty. */
  function Pass(cycle: seq<Domain>, queues: Queues): (seq<Row>, Queues)
    requires forall d :: d in cycle ==> d in queues
    decreases |cycle|
  {
    if cycle == [] then ([], queues)
    else
      var d := cycle[0];
      if queues[d] == [] then Pass(cycle[1..], queues)
      else
        var rest := Pass(cycle[1..], queues[d := queues[d][1..]]);
        ([queues[d][0]] + rest.0, rest.1)
  }

  lemma {:induction false} PassKeepsKeys(cycle: seq<Domain>, queues: Queues)
    requires forall d :: d in cycle ==> d in queues
    ensures Pass(cycle, queues).1.Keys == queues.Keys
    ensures forall d :: d in queues && d !in cycle ==> Pass(cycle, queues).1[d] == queues[d]
    decreases |cycle|
  {
    if cycle != [] {
      var d := cycle[0];
      PassKeepsKeys(cycle[1..], if queues[d] == [] then queues else queues[d := queues[d][1..]]);
    }
  }

  lemma {:induction false} PassAppend(a: seq<Domain>, b: seq<Domain>, queues: Queues)
    requires forall d :: d in a + b ==> d in queues
    ensures (forall d :: d in a ==> d in queues) && (forall d :: d in b ==> d in Pass(a, queues).1)
    ensures Pass(a + b, queues).0 == Pass(a, queues).0 + Pass(b, Pass(a, queues).1).0
    ensures Pass(a + b, queues).1 == Pass(b, Pass(a, queues).1).1
    decreases |a|
  {
    assert forall d :: d in a || d in b ==> d in a + b;
    PassKeepsKeys(a, queues);
    if a == [] {
      assert a + b == b;
    } else {
      var d, ab := a[0], a + b;
      assert ab[1..] == a[1..] + b && ab[0] == d;
      var next := if queues[d] == [] then queues else queues[d := queues[d][1..]];
      assert forall e :: e in a[1..] + b ==> e in ab;
      PassAppend(a[1..], b, next);
    }
  }

  lemma {:induction false} PassRepeat(d: Domain, n: nat, queues: Queues)
    requires d in queues
    ensures Pass(Repeat(d, n), queues) == (Take(queues[d], n), queues[d := Drop(queues[d], n)])
    decreases n
  {
    if n == 0 {
      assert queues[d := Drop(queues[d], 0)] == queues;
    } else {
      assert Repeat(d, n)[1..] == Repeat(d, n - 1);
      if queues[d] != [] {
        PassRepeat(d, n - 1, queues[d := queues[d][1..]]);
        assert [queues[d][0]] + Take(queues[d][1..], n - 1) == Take(queues[d], n);
        assert Drop(queues[d][1..], n - 1) == Drop(queues[d], n);
        assert queues[d := queues[d][1..]][d := Drop(queues[d], n)] == queues[d := Drop(queues[d], n)];
      } else {
        PassRepeat(d, n - 1, queues);
      }
    }
  }

  /** The queues at the start of cycle `k`. */
  ghost predicate AtRound(queues: Queues, names: seq<Domain>, m: Queues, ratio: map<Domain, nat>, k: nat) {
    && queues.Keys == m.Keys
    && forall d :: d in names ==> d in m && queues[d] == Drop(m[d], k * RatioOf(ratio, d))
  }

  /** A full pass over the cycle of `names` emits the closed form and leaves each queue `ratio` rows shorter. */
  lemma {:induction false} PassIsRound(names: seq<Domain>, m: Queues, ratio: map<Domain, nat>, k: nat, queues: Queues)
    requires Distinct(names) && AtRound(queues, names, m, ratio, k)
    ensures forall d :: d in Cycle(names, ratio) ==> d in names
    ensures Pass(Cycle(names, ratio), queues).0 == Round(names, m, ratio, k)
    ensures AtRound(Pass(Cycle(names, ratio), queues).1, names, m, ratio, k + 1)
    ensures forall d :: d in m && d !in names ==> Pass(Cycle(names, ratio), queues).1[d] == queues[d]
    decreases |names|
  {
    hide Round, Take, Drop, Pass, RatioOf;
    if names != [] {
      var d, rest := names[0], names[1..];
      var r := RatioOf(ratio, d);
      assert d !in rest;
      var queues1 := queues[d := Drop(queues[d], r)];
      PassIsRound(rest, m, ratio, k, queues1);
      assert forall e :: e in Repeat(d, r) + Cycle(rest, ratio) ==> e == d || e in rest;
      PassRepeat(d, r, queues);
      PassAppend(Repeat(d, r), Cycle(rest, ratio), queues);
      RoundStep(names, m, ratio, k);
      TakeAnother(m[d], k + 1, r);
      assert Pass(Cycle(rest, ratio), queues1).1[d] == queues1[d];
    } else {
      EmptyPass(queues, m, ratio, k);
    }
  }

  lemma EmptyPass(queues: Queues, m: Queues, ratio: map<Domain, nat>, k: nat)
    ensures Pass([], queues) == ([], queues) && Round([], m, ratio, k) == []
  {
  }

  lemma RoundStep(names: seq<Domain>, m: Queues, ratio: map<Domain, nat>, k: nat)
    requires names != [] && forall d :: d in names ==> d in m
    ensures var r := RatioOf(ratio, names[0]);
            Round(names, m, ratio, k) == Take(Drop(m[names[0]], k * r), r) + Round(names[1..], m, ratio, k)
  {
  }

  // ----- the loops -----

  predicate AnyLeft(queues: Queues) {
    exists d :: d in queues && queues[d] != []
  }

  method BuildCycle(names: seq<Domain>, ratio: map<Domain, nat>) returns (cycle: seq<Domain>)
    ensures cycle == Cycle(names, ratio)
  {
    cycle := [];
    for i := 0 to |names|
      invariant cycle + Cycle(names[i..], ratio) == Cycle(names, ratio)
    {
      var block := Repeat(names[i], RatioOf(ratio, names[i]));
      assert names[i..][0] == names[i] && names[i..][1..] == names[i + 1..];
      assert cycle + (block + Cycle(names[i + 1..], ratio)) == cycle + block + Cycle(names[i + 1..], ratio);
      cycle := cycle + block;
    }
    assert cycle + [] == cycle;
  }

  /** One iteration of the outer loop: a pass over the cycle list. */
  method RunCycle(cycle: seq<Domain>, start: Queues) returns (emitted: seq<Row>, queues: Queues, madeProgress: bool)
    requires forall d :: d in cycle ==> d in start
    ensures (emitted, queues) == Pass(cycle, start)
    ensures madeProgress <==> emitted != []
  {
    emitted, queues, madeProgress := [], start, false;
    PassKeepsKeys(cycle, start);
    for i := 0 to |cycle|
      invariant (madeProgress <==> emitted != []) && queues.Keys == start.Keys
      invariant emitted + Pass(cycle[i..], queues).0 == Pass(cycle, start).0
      invariant Pass(cycle[i..], queues).1 == Pass(cycle, start).1
    {
      var domain := cycle[i];
      assert cycle[i..][0] == domain && cycle[i..][1..] == cycle[i + 1..];
      if queues[domain] != [] {
        var row := queues[domain][0];
        ghost var rest := Pass(cycle[i + 1..], queues[domain := queues[domain][1..]]).0;
        assert emitted + ([row] + rest) == emitted + [row] + rest;
        emitted := emitted + [row];
        queues := queues[domain := queues[domain][1..]];
        madeProgress := true;
      }
    }
    assert emitted + [] == emitted;
  }

  /** The rows of a domain not yet emitted before cycle `k`. */
  function Unsent(m: Queues, ratio: map<Domain, nat>, d: Domain, k: nat): seq<Row>
    requires d in m
  {
    Drop(m[d], k * RatioOf(ratio, d))
  }

  /** How many rows of all domains are not yet emitted before cycle `k`. */
  function LeftOver(names: seq<Domain>, m: Queues, ratio: map<Domain, nat>, k: nat): nat
    requires forall d :: d in names ==> d in m
  {
    if names == [] then 0
    else
      var d := names[0];
      assert d in names;
      |Unsent(m, ratio, d, k)| + LeftOver(names[1..], m, ratio, k)
  }

  lemma LeftOverStep(names: seq<Domain>, m: Queues, ratio: map<Domain, nat>, k: nat)
    requires names != [] && forall d :: d in names ==> d in m
    ensures LeftOver(names, m, ratio, k) ==
            |Unsent(m, ratio, names[0], k)| + LeftOver(names[1..], m, ratio, k)
  {
  }

  /** A domain's share of a cycle shortens its queue, by something unless it is empty. */
  lemma ShareShortens(rows: seq<Row>, k: nat, r: nat)
    requires r > 0
    ensures |Drop(rows, (k + 1) * r)| <= |Drop(rows, k * r)|
    ensures Drop(rows, k * r) != [] ==>
              |Drop(rows, (k + 1) * r)| < |Drop(rows, k * r)| && Take(Drop(rows, k * r), r) != []
  {
    TakeAnother(rows, k + 1, r);
  }

  /** While some queue, that of domain `names[i]`, is not empty, a cycle emits something and leaves less. */
  lemma {:induction false} RoundMakesProgress(names: seq<Domain>, m: Queues, ratio: map<Domain, nat>, k: nat, i: int)
    requires Positive(ratio) && forall d :: d in names ==> d in m
    ensures LeftOver(names, m, ratio, k + 1) <= LeftOver(names, m, ratio, k)
    ensures 0 <= i < |names| && names[i] in m && Unsent(m, ratio, names[i], k) != [] ==>
              Round(names, m, ratio, k) != [] && LeftOver(names, m, ratio, k + 1) < LeftOver(names, m, ratio, k)
    decreases |names|
  {
    hide LeftOver, Round, Take, Drop;
    if names != [] {
      RoundMakesProgress(names[1..], m, ratio, k, i - 1);
      LeftOverStep(names, m, ratio, k);
      LeftOverStep(names, m, ratio, k + 1);
      RoundStep(names, m, ratio, k);
      ShareShortens(m[names[0]], k, RatioOf(ratio, names[0]));
      assert i > 0 ==> i < |names| ==> names[1..][i - 1] == names[i];
    } else {
      NothingLeftOver(m, ratio, k);
    }
  }

  lemma NothingLeftOver(m: Queues, ratio: map<Domain, nat>, k: nat)
    ensures LeftOver([], m, ratio, k) == LeftOver([], m, ratio, k + 1) == 0
  {
  }

  /** `cycles` is the least number of cycles after which every domain is exhausted: the maximum of ceil(rows/ratio). */
  predicate LeastCycles(names: seq<Domain>, m: Queues, ratio: map<Domain, nat>, cycles: nat)
    requires forall d :: d in names ==> d in m
  {
    && (forall d :: d in names ==> |m[d]| <= cycles * RatioOf(ratio, d))
    && (cycles > 0 ==>
        exists i :: 0 <= i < |names| && names[i] in m && |m[names[i]]| > (cycles - 1) * RatioOf(ratio, names[i]))
  }

  /** Weighted round-robin: the output is the closed form, after the least sufficient number of cycles. The branch for
      a cycle without progress is dead. */
  method InterleaveByRatio(names: seq<Domain>, m: Queues, ratio: map<Domain, nat>)
      returns (rows: seq<Row>, ghost cycles: nat)
    requires Distinct(names) && Positive(ratio) && (forall d :: d in names <==> d in m)
    ensures rows == Rounds(names, m, ratio, cycles)
    ensures LeastCycles(names, m, ratio, cycles)
  {
    hide Pass, Round, Rounds, Distinct, Positive, Drop, RatioOf, LeftOver, Cycle;
    var cycle := BuildCycle(names, ratio);
    var queues := m;
    rows, cycles := [], 0;
    StartRound(names, m, ratio);
    while AnyLeft(queues)
      invariant AtRound(queues, names, m, ratio, cycles)
      invariant rows == Rounds(names, m, ratio, cycles)
      invariant cycles > 0 ==>
                exists i :: 0 <= i < |names| && names[i] in m && |m[names[i]]| > (cycles - 1) * RatioOf(ratio, names[i])
      decreases LeftOver(names, m, ratio, cycles)
    {
      PassIsRound(names, m, ratio, cycles, queues);
      ghost var left := StillLeft(queues, names, m, ratio, cycles);
      RoundMakesProgress(names, m, ratio, cycles, left);
      var emitted, madeProgress;
      emitted, queues, madeProgress := RunCycle(cycle, queues);
      RoundsStep(names, m, ratio, cycles + 1);
      rows := rows + emitted;
      if !madeProgress {
        assert false;
      }
      cycles := cycles + 1;
    }
    NothingLeft(queues, names, m, ratio, cycles);
  }

  lemma StartRound(names: seq<Domain>, m: Queues, ratio: map<Domain, nat>)
    requires forall d :: d in names <==> d in m
    ensures AtRound(m, names, m, ratio, 0)
    ensures Rounds(names, m, ratio, 0) == []
  {
  }

  lemma StillLeft(queues: Queues, names: seq<Domain>, m: Queues, ratio: map<Domain, nat>, k: nat) returns (i: nat)
    requires AtRound(queues, names, m, ratio, k) && AnyLeft(queues) && forall d :: d in names <==> d in m
    ensures i < |names| && names[i] in m && Unsent(m, ratio, names[i], k) != []
    ensures |m[names[i]]| > k * RatioOf(ratio, names[i])
  {
    var d :| d in queues && queues[d] != [];
    assert d in names;
    i :| 0 <= i < |names| && names[i] == d;
    assert queues[names[i]] == Drop(m[names[i]], k * RatioOf(ratio, names[i]));
  }

  lemma NothingLeft(queues: Queues, names: seq<Domain>, m: Queues, ratio: map<Domain, nat>, k: nat)
    requires AtRound(queues, names, m, ratio, k) && !AnyLeft(queues) && forall d :: d in names <==> d in m
    ensures forall d :: d in names ==> |m[d]| <= k * RatioOf(ratio, d)
  {
    forall d | d in names
      ensures |m[d]| <= k * RatioOf(ratio, d)
    {
      assert queues[d] == [];
    }
  }

  /** ... which is an interleaving: nothing is lost, and each domain keeps its order. */
  lemma RoundsInterleave(names: seq<Domain>, m: Queues, ratio: map<Domain, nat>, cycles: nat)
    requires Distinct(names) && QueuesOk(m) && (forall d :: d in names <==> d in m)
    requires LeastCycles(names, m, ratio, cycles)
    ensures Interleaves(Rounds(names, m, ratio, cycles), m)
  {
    var rows := Rounds(names, m, ratio, cycles);
    forall d | d in m
      ensures OfDomain(rows, d) == m[d]
    {
      RoundsOfDomain(names, m, ratio, cycles, d);
      assert d in names;
    }
    forall r | r in rows
      ensures r.category in m
    {
      RoundsOfDomain(names, m, ratio, cycles, r.category);
      HasItself(rows, r);
    }
  }

  lemma {:induction false} HasItself(rows: seq<Row>, r: Row)
    requires r in rows
    ensures r in OfDomain(rows, r.category)
  {
    if rows[0] != r {
      HasItself(rows[1..], r);
    }
  }

  // ----- the other balances -----

  /** The queues one after the other, in the order of the names. */
  function Concatenated(names: seq<Domain>, m: Queues): seq<Row>
    requires forall d :: d in names ==> d in m
  {
    if names == [] then []
    else
      var d := names[0];
      assert d in names;
      m[d] + Concatenated(names[1..], m)
  }

  method InterleaveSequentially(names: seq<Domain>, m: Queues) returns (rows: seq<Row>)
    requires Distinct(names) && QueuesOk(m) && (forall d :: d in names <==> d in m)
    ensures Interleaves(rows, m)
    ensures rows == Concatenated(names, m)
  {
    rows := [];
    for i := 0 to |names|
      invariant Emitted(rows, m, names[..i])
      invariant rows + Concatenated(names[i..], m) == Concatenated(names, m)
    {
      var domain := names[i];
      assert names[..i + 1] == names[..i] + [domain];
      assert domain in names;
      ConcatenatedStep(names, m, i, domain, rows);
      EmitDomain(rows, m, names[..i], domain);
      hide Emitted, Concatenated;
      rows := rows + m[domain];
    }
    assert names[..|names|] == names;
    assert rows + [] == rows;
  }

  lemma ConcatenatedStep(names: seq<Domain>, m: Queues, i: nat, d: Domain, rows: seq<Row>)
    requires i < |names| && names[i] == d && d in m && forall e :: e in names ==> e in m
    ensures rows + Concatenated(names[i..], m) == rows + m[d] + Concatenated(names[i + 1..], m)
  {
    assert names[i..][1..] == names[i + 1..] && names[i..][0] == d;
    assert rows + (m[d] + Concatenated(names[i + 1..], m)) == rows + m[d] + Concatenated(names[i + 1..], m);
  }

  /** In a sequential schedule, and within every cycle of the round-robin, the domains come in the names' order. */
  ghost predicate ByNames(names: seq<Domain>, rows: seq<Row>) {
    forall i, j :: 0 <= i < j < |rows| ==> IndexOf(names, rows[i].category) <= IndexOf(names, rows[j].category)
  }

  lemma {:induction false} ConcatenatedByNames(names: seq<Domain>, m: Queues)
    requires Distinct(names) && QueuesOk(m) && forall d :: d in names ==> d in m
    ensures ByNames(names, Concatenated(names, m)) && forall r :: r in Concatenated(names, m) ==> r.category in names
  {
    if names != [] {
      var d := names[0];
      assert d in names;
      ConcatenatedByNames(names[1..], m);
      BlockByNames(names, m[d], Concatenated(names[1..], m));
    }
  }

  lemma {:induction false} RoundByNames(names: seq<Domain>, m: Queues, ratio: map<Domain, nat>, k: nat)
    requires Distinct(names) && QueuesOk(m) && forall d :: d in names ==> d in m
    ensures ByNames(names, Round(names, m, ratio, k))
    ensures forall r :: r in Round(names, m, ratio, k) ==> r.category in names
  {
    if names != [] {
      RoundByNames(names[1..], m, ratio, k);
      RoundStep(names, m, ratio, k);
      hide Round;
      var r := RatioOf(ratio, names[0]);
      var block := Take(Drop(m[names[0]], k * r), r);
      forall x | x in block
        ensures x.category == names[0]
      {
        assert x in m[names[0]];
      }
      BlockByNames(names, block, Round(names[1..], m, ratio, k));
    }
  }

  lemma BlockByNames(names: seq<Domain>, block: seq<Row>, rest: seq<Row>)
    requires Distinct(names) && names != [] && (forall x :: x in block ==> x.category == names[0])
    requires ByNames(names[1..], rest) && forall x :: x in rest ==> x.category in names[1..]
    ensures ByNames(names, block + rest) && forall x :: x in block + rest ==> x.category in names
  {
    var rows := block + rest;
    forall i | 0 <= i < |rows|
      ensures IndexOf(names, rows[i].category) ==
              if i < |block| then 0 else 1 + IndexOf(names[1..], rest[i - |block|].category)
    {
      if i < |block| {
        assert rows[i] in block;
      } else {
        assert rows[i] in rest && rows[i].category in names[1..];
      }
    }
  }

  /** By then a domain with a ratio has emitted that many rows a cycle, one without a ratio one, and no more than it
      has. */
  lemma RowsByRatio(names: seq<Domain>, m: Queues, ratio: map<Domain, nat>, k: nat, d: Domain)
    requires Distinct(names) && QueuesOk(m) && (forall e :: e in names ==> e in m) && d in names
    ensures var due := if d in ratio then k * ratio[d] else k;
            |OfDomain(Rounds(names, m, ratio, k), d)| == if due < |m[d]| then due else |m[d]|
  {
    RoundsOfDomain(names, m, ratio, k, d);
  }

  /** The queues of the domains in `done`, and nothing else. */
  ghost predicate Emitted(rows: seq<Row>, m: Queues, done: seq<Domain>) {
    && (forall r :: r in rows ==> r.category in m)
    && (forall d :: d in m ==> OfDomain(rows, d) == if d in done then m[d] else [])
  }

  lemma EmitDomain(rows: seq<Row>, m: Queues, done: seq<Domain>, domain: Domain)
    requires QueuesOk(m) && Emitted(rows, m, done) && domain in m && domain !in done
    ensures Emitted(rows + m[domain], m, done + [domain])
  {
    hide OfDomain;
    forall d | d in m
      ensures OfDomain(rows + m[domain], d) == if d in done + [domain] then m[d] else []
    {
      AppendDomain(rows, m, domain, d);
      assert OfDomain(rows, d) + [] == OfDomain(rows, d) && [] + m[d] == m[d];
    }
  }

  lemma AppendDomain(rows: seq<Row>, m: Queues, domain: Domain, d: Domain)
    requires QueuesOk(m) && domain in m
    ensures OfDomain(rows + m[domain], d) == OfDomain(rows, d) + if d == domain then m[domain] else []
  {
    hide OfDomain;
    OfDomainAppend(rows, m[domain], d);
    OfDomainAll(m[domain], domain, d);
  }

  /** Any active domain may be chosen at each step. */
  method InterleaveRandomly(names: seq<Domain>, m: Queues) returns (rows: seq<Row>)
    requires QueuesOk(m) && (forall d :: d in names <==> d in m)
    ensures Interleaves(rows, m)
  {
    var queues := m;
    rows := [];
    ghost var left := TotalSize(names, queues);
    while AnyLeft(queues)
      invariant queues.Keys == m.Keys
      invariant forall r :: r in rows ==> r.category in m
      invariant forall d :: d in m ==> OfDomain(rows, d) + queues[d] == m[d]
      decreases TotalSize(names, queues)
    {
      hide OfDomain;
      var domain :| domain in queues && queues[domain] != [];
      var row := queues[domain][0];
      assert OfDomain(rows, domain) + queues[domain] == m[domain];
      assert row in m[domain] && row.category == domain;
      PopShrinks(names, queues, domain);
      forall d | d in m
        ensures OfDomain(rows + [row], d) + (if d == domain then queues[d][1..] else queues[d]) == m[d]
      {
        PopMoves(rows, queues[d], row, domain, d, m[d]);
      }
      rows := rows + [row];
      queues := queues[domain := queues[domain][1..]];
    }
    forall d | d in m
      ensures OfDomain(rows, d) == m[d]
    {
      assert queues[d] == [];
    }
  }

  lemma PopMoves(rows: seq<Row>, queue: seq<Row>, row: Row, domain: Domain, d: Domain, whole: seq<Row>)
    requires OfDomain(rows, d) + queue == whole && row.category == domain
    requires d == domain ==> queue != [] && queue[0] == row
    ensures OfDomain(rows + [row], d) + (if d == domain then queue[1..] else queue) == whole
  {
    hide OfDomain;
    OfDomainAppend(rows, [row], d);
    OfDomainAll([row], domain, d);
    if d == domain {
      assert OfDomain(rows, d) + [queue[0]] + queue[1..] == OfDomain(rows, d) + queue;
    } else {
      assert OfDomain(rows, d) + [] == OfDomain(rows, d);
    }
  }

  function TotalSize(names: seq<Domain>, queues: Queues): nat {
    if names == [] then 0 else (if names[0] in queues then |queues[names[0]]| else 0) + TotalSize(names[1..], queues)
  }

  lemma {:induction false} PopShrinks(names: seq<Domain>, queues: Queues, d: Domain)
    requires d in queues && queues[d] != []
    ensures TotalSize(names, queues[d := queues[d][1..]]) <= TotalSize(names, queues)
    ensures d in names ==> TotalSize(names, queues[d := queues[d][1..]]) < TotalSize(names, queues)
  {
    if names != [] {
      PopShrinks(names[1..], queues, d);
    }
  }
}
