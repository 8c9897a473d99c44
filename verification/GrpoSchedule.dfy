/** The whole schedule: buckets, the order within each domain, and the interleaving of the domains. */
module GrpoSchedule {
  import opened Wrappers
  import opened GrpoRows
  import opened GrpoBuckets
  import opened GrpoOrder
  import opened GrpoInterleave

  datatype Balance = ByRatio | Randomly | Sequentially

  // ----- ordered_domain_names -----

  /** The first `k` names are the preferred ones, by first occurrence in the given order; the rest ascends. */
  ghost predicate NamesOrdered(names: seq<Domain>, order: seq<Domain>, k: nat) {
    && k <= |names|
    && (forall i :: 0 <= i < k ==> names[i] in order)
    && (forall i, j :: 0 <= i < j < k ==> IndexOf(order, names[i]) < IndexOf(order, names[j]))
    && (forall i :: k <= i < |names| ==> names[i] !in order)
    && (forall i, j :: k <= i < j < |names| ==> names[i] < names[j])
  }

  /** The names, whatever order they came in, ascending. */
  function InsertName(d: Domain, s: seq<Domain>): seq<Domain> {
    if s == [] || d < s[0] then [d] + s
    else if d == s[0] then s
    else [s[0]] + InsertName(d, s[1..])
  }

  ghost predicate Rising(s: seq<Domain>) {
    forall i, j :: 0 <= i < j < |s| ==> s[i] < s[j]
  }

  lemma {:induction false} InsertNameMembers(d: Domain, s: seq<Domain>, e: Domain)
    ensures e in InsertName(d, s) <==> e == d || e in s
  {
    if s != [] && d > s[0] {
      InsertNameMembers(d, s[1..], e);
      assert e in s <==> e == s[0] || e in s[1..];
    }
  }

  lemma {:induction false} InsertNameAbove(m: Domain, d: Domain, s: seq<Domain>)
    requires m < d && forall i :: 0 <= i < |s| ==> m < s[i]
    ensures forall i :: 0 <= i < |InsertName(d, s)| ==> m < InsertName(d, s)[i]
  {
    if s != [] && d > s[0] {
      InsertNameAbove(m, d, s[1..]);
    }
  }

  lemma {:induction false} InsertNameRises(d: Domain, s: seq<Domain>)
    requires Rising(s)
    ensures Rising(InsertName(d, s))
  {
    if s != [] && d > s[0] {
      InsertNameRises(d, s[1..]);
      InsertNameAbove(s[0], d, s[1..]);
    }
  }

  method SortedNames(names: seq<Domain>) returns (sorted: seq<Domain>)
    ensures Rising(sorted) && forall d :: d in sorted <==> d in names
  {
    sorted := [];
    for i := 0 to |names|
      invariant Rising(sorted) && forall d :: d in sorted <==> d in names[..i]
    {
      InsertNameRises(names[i], sorted);
      forall e {
        InsertNameMembers(names[i], sorted, e);
      }
      hide InsertName, Rising;
      assert names[..i + 1] == names[..i] + [names[i]];
      sorted := InsertName(names[i], sorted);
    }
    assert names[..|names|] == names;
  }

  predicate Available(ordered: Queues, d: Domain) {
    d in ordered && ordered[d] != []
  }

  ghost predicate Preferred(names: seq<Domain>, ordered: Queues, order: seq<Domain>, i: nat) {
    && i <= |order|
    && (forall d :: d in names <==> d in order[..i] && Available(ordered, d))
    && (forall x, y :: 0 <= x < y < |names| ==> IndexOf(order, names[x]) < IndexOf(order, names[y]))
    && (forall x :: 0 <= x < |names| ==> IndexOf(order, names[x]) < i)
  }

  /** The requested domains that have rows, each once. */
  method PreferredNames(ordered: Queues, order: seq<Domain>) returns (names: seq<Domain>)
    ensures Preferred(names, ordered, order, |order|)
  {
    names := [];
    for i := 0 to |order|
      invariant Preferred(names, ordered, order, i)
    {
      hide Preferred;
      var domain := order[i];
      if Available(ordered, domain) && domain !in names {
        names := names + [domain];
      }
    }
  }

  ghost predicate Rest(names: seq<Domain>, seen: seq<Domain>, ordered: Queues, sorted: seq<Domain>) {
    && (forall d :: d in names <==> d in sorted && d !in seen && Available(ordered, d))
    && Rising(names)
  }

  lemma RestOne(names: seq<Domain>, seen: seq<Domain>, ordered: Queues, sorted: seq<Domain>, domain: Domain)
    requires Rest(names, seen, ordered, sorted) && Rising(sorted + [domain])
    ensures if Available(ordered, domain) && domain !in seen
            then Rest(names + [domain], seen, ordered, sorted + [domain])
            else Rest(names, seen, ordered, sorted + [domain])
  {
    hide Available;
    forall x | 0 <= x < |names|
      ensures names[x] < domain
    {
      assert names[x] in names && names[x] in sorted;
      var k :| 0 <= k < |sorted| && sorted[k] == names[x];
      assert (sorted + [domain])[k] < (sorted + [domain])[|sorted|];
    }
  }

  /** The other domains that have rows, by name. */
  method RemainingNames(ordered: Queues, sorted: seq<Domain>, seen: seq<Domain>) returns (names: seq<Domain>)
    requires Rising(sorted)
    ensures Rest(names, seen, ordered, sorted)
  {
    names := [];
    for i := 0 to |sorted|
      invariant Rest(names, seen, ordered, sorted[..i])
    {
      var domain := sorted[i];
      assert sorted[..i + 1] == sorted[..i] + [domain];
      RestOne(names, seen, ordered, sorted[..i], domain);
      hide Rest;
      if Available(ordered, domain) && domain !in seen {
        names := names + [domain];
      }
    }
    assert sorted[..|sorted|] == sorted;
  }

  /** `ordered_domain_names`: every domain with rows, once; the requested order first, then by name. */
  method OrderedDomainNames(ordered: Queues, keys: seq<Domain>, order: seq<Domain>)
    returns (names: seq<Domain>, ghost k: nat)
    requires forall d :: d in keys <==> d in ordered
    ensures Distinct(names) && forall d :: d in names <==> Available(ordered, d)
    ensures NamesOrdered(names, order, k)
  {
    var seen := PreferredNames(ordered, order);
    var sorted := SortedNames(keys);
    var rest := RemainingNames(ordered, sorted, seen);
    names, k := seen + rest, |seen|;
    NamesJoin(seen, rest, ordered, order, sorted);
  }

  lemma NamesJoin(seen: seq<Domain>, rest: seq<Domain>, ordered: Queues, order: seq<Domain>, sorted: seq<Domain>)
    requires Preferred(seen, ordered, order, |order|) && Rest(rest, seen, ordered, sorted)
    requires forall d :: d in sorted <==> d in ordered
    ensures NamesOrdered(seen + rest, order, |seen|)
    ensures forall d :: d in seen + rest <==> Available(ordered, d)
  {
    hide IndexOf;
    assert order[..|order|] == order;
    forall i | |seen| <= i < |seen + rest|
      ensures (seen + rest)[i] !in order
    {
      var d := (seen + rest)[i];
      assert d == rest[i - |seen|] && d in rest;
    }
    forall i | 0 <= i < |seen|
      ensures (seen + rest)[i] in order
    {
      assert seen[i] in seen;
    }
    hide Available;
    forall d
      ensures d in seen + rest <==> Available(ordered, d)
    {
    }
  }

  // ----- interleave_domains -----

  function Nonempty(ordered: Queues): Queues {
    map d | d in ordered && ordered[d] != [] :: ordered[d]
  }

  lemma EmptyQueuesDoNotMatter(rows: seq<Row>, ordered: Queues)
    requires Interleaves(rows, Nonempty(ordered))
    ensures Interleaves(rows, ordered)
  {
    forall d | d in ordered
      ensures OfDomain(rows, d) == ordered[d]
    {
      if d !in Nonempty(ordered) {
        NoneOfDomain(rows, d);
      }
    }
  }

  lemma NonemptyQueues(ordered: Queues, names: seq<Domain>)
    requires QueuesOk(ordered) && forall d :: d in names <==> Available(ordered, d)
    ensures QueuesOk(Nonempty(ordered))
    ensures forall d :: d in names <==> d in Nonempty(ordered)
    ensures forall d :: d in names ==> d in ordered && ordered[d] == Nonempty(ordered)[d]
    ensures names == [] <==> forall d :: d in ordered ==> ordered[d] == []
  {
    if names != [] {
      var d := names[0];
      assert d in names;
      assert d in ordered && ordered[d] != [];
    } else {
      forall d | d in ordered
        ensures ordered[d] == []
      {
        assert Available(ordered, d) <==> d in names;
      }
    }
  }

  /** The balances other than the sequential one, over the queues that are not empty. */
  method DrawFromQueues(names: seq<Domain>, queues: Queues, balance: Balance, ratio: map<Domain, nat>)
    returns (rows: seq<Row>, ghost cycles: nat)
    requires Distinct(names) && QueuesOk(queues) && Positive(ratio) && forall d :: d in names <==> d in queues
    ensures Interleaves(rows, queues)
    ensures balance.ByRatio? ==>
              rows == Rounds(names, queues, ratio, cycles) && LeastCycles(names, queues, ratio, cycles)
  {
    hide OfDomain, Rounds, LeastCycles, Interleaves, QueuesOk, Positive;
    if balance.Randomly? {
      rows := InterleaveRandomly(names, queues);
      cycles := 0;
    } else {
      rows, cycles := InterleaveByRatio(names, queues, ratio);
      RoundsInterleave(names, queues, ratio, cycles);
    }
  }

  /** `interleave_domains`: refused exactly when no domain has rows and the balance is not sequential; otherwise an
      interleaving of the queues, whatever is drawn, and by ratio the closed form. */
  method InterleaveDomains(ordered: Queues, keys: seq<Domain>, balance: Balance, ratio: map<Domain, nat>,
                           order: seq<Domain>)
    returns (rows: Option<seq<Row>>, ghost names: seq<Domain>, ghost preferred: nat, ghost cycles: nat)
    requires QueuesOk(ordered) && Positive(ratio) && forall d :: d in keys <==> d in ordered
    ensures rows.None? <==> !balance.Sequentially? && forall d :: d in ordered ==> ordered[d] == []
    ensures rows.Some? ==> Interleaves(rows.value, ordered)
    ensures Distinct(names) && forall d :: d in names <==> Available(ordered, d)
    ensures NamesOrdered(names, order, preferred)
    ensures forall d :: d in names ==> d in ordered
    ensures rows.Some? && balance.Sequentially? ==> rows.value == Concatenated(names, ordered)
    ensures rows.Some? && balance.ByRatio? ==>
              rows.value == Rounds(names, ordered, ratio, cycles) && LeastCycles(names, ordered, ratio, cycles)
  {
    hide Nonempty, Available, Interleaves, QueuesOk, Positive, Rounds, LeastCycles, Cycle, OfDomain, Distinct,
         NamesOrdered;
    var domainNames;
    domainNames, preferred := OrderedDomainNames(ordered, keys, order);
    names, cycles := domainNames, 0;
    NonemptyQueues(ordered, names);
    var queues := Nonempty(ordered);
    if balance.Sequentially? {
      var sequential := InterleaveSequentially(domainNames, queues);
      rows := Some(sequential);
      EmptyQueuesDoNotMatter(sequential, ordered);
      ConcatenatedDependsOnNames(domainNames, queues, ordered);
    } else {
      CycleEmpty(domainNames, ratio);
      var cycle := BuildCycle(domainNames, ratio);
      if cycle == [] {
        rows := None;
      } else {
        var drawn;
        drawn, cycles := DrawFromQueues(domainNames, queues, balance, ratio);
        rows := Some(drawn);
        EmptyQueuesDoNotMatter(drawn, ordered);
        RoundsDependOnNames(domainNames, queues, ordered, ratio, cycles);
        if balance.ByRatio? {
          CyclesDependOnNames(domainNames, queues, ordered, ratio, cycles);
        }
      }
    }
  }

  lemma {:induction false} ConcatenatedDependsOnNames(names: seq<Domain>, a: Queues, b: Queues)
    requires forall d :: d in names ==> d in a && d in b && a[d] == b[d]
    ensures Concatenated(names, a) == Concatenated(names, b)
  {
    if names != [] {
      var d := names[0];
      assert d in names;
      ConcatenatedDependsOnNames(names[1..], a, b);
    }
  }

  lemma CycleEmpty(names: seq<Domain>, ratio: map<Domain, nat>)
    requires Positive(ratio)
    ensures Cycle(names, ratio) == [] <==> names == []
  {
    if names != [] {
      assert RatioOf(ratio, names[0]) > 0;
    }
  }

  lemma {:induction false} RoundDependsOnNames(names: seq<Domain>, a: Queues, b: Queues, ratio: map<Domain, nat>,
                                               k: nat)
    requires forall d :: d in names ==> d in a && d in b && a[d] == b[d]
    ensures Round(names, a, ratio, k) == Round(names, b, ratio, k)
  {
    if names != [] {
      RoundDependsOnNames(names[1..], a, b, ratio, k);
    }
  }

  lemma {:induction false} RoundsDependOnNames(names: seq<Domain>, a: Queues, b: Queues, ratio: map<Domain, nat>,
                                               k: nat)
    requires forall d :: d in names ==> d in a && d in b && a[d] == b[d]
    ensures Rounds(names, a, ratio, k) == Rounds(names, b, ratio, k)
  {
    if k > 0 {
      hide Round;
      RoundsDependOnNames(names, a, b, ratio, k - 1);
      RoundDependsOnNames(names, a, b, ratio, k - 1);
    }
  }

  lemma CyclesDependOnNames(names: seq<Domain>, a: Queues, b: Queues, ratio: map<Domain, nat>, k: nat)
    requires forall d :: d in names ==> d in a && d in b && a[d] == b[d]
    requires LeastCycles(names, a, ratio, k)
    ensures LeastCycles(names, b, ratio, k)
  {
    forall i | 0 <= i < |names|
      ensures names[i] in names
    {
    }
  }

  // ----- from the loaded rows to the schedule -----

  method OrderAll(byDomain: Queues, keys: seq<Domain>, schedule: Schedule) returns (ordered: Queues)
    requires Distinct(keys) && forall d :: d in keys <==> d in byDomain
    ensures forall d :: d in ordered <==> d in byDomain
    ensures forall d :: d in byDomain ==> multiset(ordered[d]) == multiset(byDomain[d])
    ensures schedule.FourStage? ==> forall d :: d in ordered ==> Staged(ordered[d])
    ensures schedule.CurriculumMix? ==> forall d :: d in ordered ==> Curriculum(ordered[d])
  {
    ordered := map[];
    for i := 0 to |keys|
      invariant forall d :: d in ordered <==> d in keys[..i]
      invariant forall d :: d in ordered ==> multiset(ordered[d]) == multiset(byDomain[d])
      invariant schedule.FourStage? ==> forall d :: d in ordered ==> Staged(ordered[d])
      invariant schedule.CurriculumMix? ==> forall d :: d in ordered ==> Curriculum(ordered[d])
    {
      hide Staged, Curriculum;
      var domain := keys[i];
      assert keys[..i + 1] == keys[..i] + [domain];
      assert domain in keys;
      var rows := OrderDomainRows(byDomain[domain], schedule);
      ordered := ordered[domain := rows];
    }
    assert keys[..|keys|] == keys;
  }

  /** A permutation of every domain's marked rows, interleaved, is a permutation of all the marked rows. */
  lemma InterleavedPermutes(rows: seq<Row>, ordered: Queues, out: seq<Row>)
    requires forall x :: x in rows ==> OfDomain(rows, x.category) != []
    requires forall d :: d in ordered <==> OfDomain(rows, d) != []
    requires forall d :: d in ordered ==> multiset(ordered[d]) == multiset(MarkedDomain(rows, d))
    requires Interleaves(out, ordered)
    ensures multiset(out) == multiset(Assigned(rows, rows))
  {
    forall x
      ensures multiset(out)[x] == multiset(Assigned(rows, rows))[x]
    {
      CountsAgree(rows, ordered, out, x);
    }
  }

  lemma CountsAgree(rows: seq<Row>, ordered: Queues, out: seq<Row>, x: Row)
    requires forall x :: x in rows ==> OfDomain(rows, x.category) != []
    requires forall d :: d in ordered <==> OfDomain(rows, d) != []
    requires forall d :: d in ordered ==> multiset(ordered[d]) == multiset(MarkedDomain(rows, d))
    requires Interleaves(out, ordered)
    ensures multiset(out)[x] == multiset(Assigned(rows, rows))[x]
  {
    var d := x.category;
    OfDomainCount(out, x);
    OfDomainCount(Assigned(rows, rows), x);
    MarkedDomains(rows, d);
    NothingElse(out, ordered, d);
    hide OfDomain, MarkedDomain, Assigned;
    if d !in ordered {
      assert OfDomain(out, d) == [];
    }
  }

  lemma NothingElse(out: seq<Row>, ordered: Queues, d: Domain)
    requires Interleaves(out, ordered)
    ensures OfDomain(out, d) == if d in ordered then ordered[d] else []
  {
    if d !in ordered {
      NoneOfDomain(out, d);
    }
  }

  lemma MarkedQueuesOk(rows: seq<Row>, ordered: Queues)
    requires forall d :: d in ordered ==> multiset(ordered[d]) == multiset(MarkedDomain(rows, d))
    ensures QueuesOk(ordered)
  {
    forall d, r | d in ordered && r in ordered[d]
      ensures r.category == d
    {
      assert r in multiset(ordered[d]) && r in multiset(MarkedDomain(rows, d));
      MarkedMembers(rows, d);
    }
  }

  lemma MarkedMembers(rows: seq<Row>, d: Domain)
    ensures forall r :: r in MarkedDomain(rows, d) ==> r.category == d
    ensures MarkedDomain(rows, d) == [] <==> OfDomain(rows, d) == []
  {
    OfDomainMembers(rows, d);
  }

  /** For every schedule, balance and random generator: every row exactly once, with its bucket filled in by its
      domain's medians; refused only when there is no row. Every domain keeps the order that the schedule gives it, and
      the domains follow each other as the balance says, the requested ones first. */
  method ScheduleRows(rows: seq<Row>, schedule: Schedule, balance: Balance, ratio: map<Domain, nat>, order: seq<Domain>)
    returns (scheduled: Option<seq<Row>>, ghost names: seq<Domain>, ghost preferred: nat, ghost cycles: nat)
    requires Positive(ratio)
    ensures forall x :: x in rows ==> OfDomain(rows, x.category) != []
    ensures scheduled.None? <==> !balance.Sequentially? && rows == []
    ensures scheduled.Some? ==> multiset(scheduled.value) == multiset(Assigned(rows, rows))
    ensures scheduled.Some? && schedule.FourStage? ==> forall d :: Staged(OfDomain(scheduled.value, d))
    ensures scheduled.Some? && schedule.CurriculumMix? ==> forall d :: Curriculum(OfDomain(scheduled.value, d))
    ensures Distinct(names) && NamesOrdered(names, order, preferred) &&
            forall d :: d in names <==> OfDomain(rows, d) != []
    ensures scheduled.Some? && balance.Sequentially? ==> InSequence(names, scheduled.value)
    ensures scheduled.Some? && balance.ByRatio? ==> InCycles(names, scheduled.value, ratio, cycles)
  {
    hide OfDomain, MarkedDomain, Staged, Curriculum, Rounds, LeastCycles, Assigned, Interleaves, NamesOrdered, Distinct,
         InSequence, InCycles, Concatenated, QueuesOk, Positive, Available;
    AllHaveDomains(rows);
    var byDomain, keys := AssignBuckets(rows);
    var ordered := OrderAll(byDomain, keys, schedule);
    MarkedQueuesOk(rows, ordered);
    scheduled, names, preferred, cycles := InterleaveDomains(ordered, keys, balance, ratio, order);
    NoRowsNoQueues(rows, ordered);
    WithRows(rows, ordered);
    if scheduled.Some? {
      InterleavedPermutes(rows, ordered, scheduled.value);
      EveryDomain(schedule, ordered, scheduled.value);
      DrawnFromItself(names, scheduled.value, ordered, ratio, cycles);
    }
  }

  /** Every domain of the schedule is in the order given to its queue. */
  lemma EveryDomain(schedule: Schedule, ordered: Queues, rows: seq<Row>)
    requires Interleaves(rows, ordered)
    requires schedule.FourStage? ==> forall d :: d in ordered ==> Staged(ordered[d])
    requires schedule.CurriculumMix? ==> forall d :: d in ordered ==> Curriculum(ordered[d])
    ensures schedule.FourStage? ==> forall d :: Staged(OfDomain(rows, d))
    ensures schedule.CurriculumMix? ==> forall d :: Curriculum(OfDomain(rows, d))
  {
    hide OfDomain, Staged, Curriculum, Interleaves;
    NothingToMix();
    forall d
      ensures OfDomain(rows, d) == if d in ordered then ordered[d] else []
    {
      NothingElse(rows, ordered, d);
    }
  }

  /** What is said of the queues can be said of the rows by domain. */
  lemma DrawnFromItself(names: seq<Domain>, rows: seq<Row>, ordered: Queues, ratio: map<Domain, nat>, cycles: nat)
    requires Interleaves(rows, ordered) && forall d :: d in names ==> d in ordered
    ensures rows == Concatenated(names, ordered) ==> InSequence(names, rows)
    ensures rows == Rounds(names, ordered, ratio, cycles) && LeastCycles(names, ordered, ratio, cycles) ==>
              InCycles(names, rows, ratio, cycles)
  {
    hide Concatenated, Rounds, LeastCycles, Queued, Interleaves;
    QueuedAre(names, rows, ordered);
    ConcatenatedDependsOnNames(names, ordered, Queued(names, rows));
    RoundsDependOnNames(names, ordered, Queued(names, rows), ratio, cycles);
    if LeastCycles(names, ordered, ratio, cycles) {
      CyclesDependOnNames(names, ordered, Queued(names, rows), ratio, cycles);
    }
  }

  /** The queues that a schedule was drawn from: its rows by domain. */
  function Queued(names: seq<Domain>, rows: seq<Row>): (m: Queues)
    ensures forall d :: d in names <==> d in m
  {
    map d | d in names :: OfDomain(rows, d)
  }

  /** One domain after the other, in the order of the names. */
  ghost predicate InSequence(names: seq<Domain>, rows: seq<Row>) {
    rows == Concatenated(names, Queued(names, rows))
  }

  /** Cycle by cycle, in the order of the names, until every domain has run out. */
  ghost predicate InCycles(names: seq<Domain>, rows: seq<Row>, ratio: map<Domain, nat>, cycles: nat) {
    && rows == Rounds(names, Queued(names, rows), ratio, cycles)
    && LeastCycles(names, Queued(names, rows), ratio, cycles)
  }

  lemma QueuedAre(names: seq<Domain>, rows: seq<Row>, ordered: Queues)
    requires Interleaves(rows, ordered) && forall d :: d in names ==> d in ordered
    ensures forall d :: d in names ==> Queued(names, rows)[d] == ordered[d]
  {
    hide OfDomain;
  }

  lemma NothingToMix()
    ensures Staged([]) && Curriculum([])
  {
  }

  lemma WithRows(rows: seq<Row>, ordered: Queues)
    requires forall d :: d in ordered <==> OfDomain(rows, d) != []
    requires forall d :: d in ordered ==> multiset(ordered[d]) == multiset(MarkedDomain(rows, d))
    ensures forall d :: Available(ordered, d) <==> OfDomain(rows, d) != []
  {
    forall d | d in ordered
      ensures ordered[d] != []
    {
      MarkedMembers(rows, d);
      hide MarkedDomain;
      assert |multiset(ordered[d])| == |multiset(MarkedDomain(rows, d))|;
    }
  }

  lemma NoRowsNoQueues(rows: seq<Row>, ordered: Queues)
    requires forall x :: x in rows ==> OfDomain(rows, x.category) != []
    requires forall d :: d in ordered <==> OfDomain(rows, d) != []
    requires forall d :: d in ordered ==> multiset(ordered[d]) == multiset(MarkedDomain(rows, d))
    ensures (forall d :: d in ordered ==> ordered[d] == []) <==> rows == []
  {
    if rows != [] {
      var d := rows[0].category;
      assert rows[0] in rows && d in ordered;
      MarkedMembers(rows, d);
      hide MarkedDomain;
      assert |multiset(ordered[d])| == |multiset(MarkedDomain(rows, d))|;
    }
  }
}
