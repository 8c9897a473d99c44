/** The geocode cache shared by processes: memory caches, one disk file, a file lock, unlocked readers. The protocol
    works on keys; an address comes in by way of its key. */
module GeocodeCache {
  import opened Wrappers
  import opened AddressKeys

  /** Geocoding results are opaque; they are named by numbers. */
  type Entries = map<string, int>

  /** Where a process is inside `_get_cached_geocoding` or `_write_cache_once`. */
  datatype Position =
    | Idle
    | Looked(key: string, snapshot: Entries)               // read the file without the lock
    | Waiting(key: string, result: int)                    // about to take the lock
    | Locked(key: string, result: int)                     // holds the lock
    | Read(key: string, result: int, diskCache: Entries)   // has read the file under the lock
    | Staged(diskCache: Entries)                           // has written the temporary file
    | Settled(diskCache: Entries)                          // the file is as it should be
    | Adopted                                              // has taken over the file's content

  datatype Process = Process(cache: Entries, at: Position)

  /** The cache file, the holder of its lock, and the processes. */
  datatype World = World(disk: Entries, lock: Option<nat>, procs: map<nat, Process>)

  datatype Step =
    | LookUp(p: nat, key: string)
    | AdoptOne(p: nat)
    | StartWrite(p: nat, key: string, result: int)
    | Acquire(p: nat)
    | ReadLocked(p: nat)
    | Stage(p: nat)
    | Replace(p: nat)
    | Adopt(p: nat)
    | Release(p: nat)
    | Crash(p: nat)

  predicate HoldsLock(at: Position) {
    at.Locked? || at.Read? || at.Staged? || at.Settled? || at.Adopted?
  }

  function Goto(w: World, p: nat, at: Position): World
    requires p in w.procs
  {
    w.(procs := w.procs[p := w.procs[p].(at := at)])
  }

  predicate Enabled(w: World, s: Step) {
    s.p in w.procs &&
    var at := w.procs[s.p].at;
    match s
    case LookUp(_, _) => at.Idle?
    case AdoptOne(_) => at.Looked?
    case StartWrite(_, _, _) => at.Idle?
    case Acquire(_) => at.Waiting? && w.lock.None?
    case ReadLocked(_) => at.Locked?
    case Stage(_) => at.Read?
    case Replace(_) => at.Staged?
    case Adopt(_) => at.Settled?
    case Release(_) => at.Adopted?
    case Crash(_) => true
  }

  function Do(w: World, s: Step): World
    requires Enabled(w, s)
  {
    var me := w.procs[s.p];
    match s
    case LookUp(p, key) => if key in me.cache then w else Goto(w, p, Looked(key, w.disk))
    case AdoptOne(p) =>
      var cache := if me.at.key in me.at.snapshot then me.cache[me.at.key := me.at.snapshot[me.at.key]] else me.cache;
      w.(procs := w.procs[p := Process(cache, Idle)])
    case StartWrite(p, key, result) => if key in me.cache then w else Goto(w, p, Waiting(key, result))
    case Acquire(p) => Goto(w, p, Locked(me.at.key, me.at.result)).(lock := Some(p))
    case ReadLocked(p) => Goto(w, p, Read(me.at.key, me.at.result, w.disk))
    case Stage(p) =>
      if me.at.key in me.at.diskCache then Goto(w, p, Settled(me.at.diskCache))
      else Goto(w, p, Staged(me.at.diskCache[me.at.key := me.at.result]))
    case Replace(p) => Goto(w, p, Settled(me.at.diskCache)).(disk := me.at.diskCache)
    case Adopt(p) => w.(procs := w.procs[p := Process(me.at.diskCache, Adopted)])
    case Release(p) => Goto(w, p, Idle).(lock := None)
    case Crash(p) =>
      w.(procs := w.procs[p := Process(map[], Idle)], lock := if HoldsLock(me.at) then None else w.lock)
  }

  // ----- the invariant -----

  ghost predicate SubMap(a: Entries, b: Entries) {
    forall k :: k in a ==> k in b && a[k] == b[k]
  }

  ghost predicate ProcessOk(disk: Entries, lock: Option<nat>, p: nat, me: Process) {
    && SubMap(me.cache, disk)
    && (HoldsLock(me.at) <==> lock == Some(p))
    && match me.at
       case Looked(_, snapshot) => SubMap(snapshot, disk)
       case Read(_, _, diskCache) => diskCache == disk
       case Staged(diskCache) => SubMap(disk, diskCache)
       case Settled(diskCache) => diskCache == disk
       case _ => true
  }

  /** Memory caches are part of the file; only the lock's holder is past `acquire`, and what it read is current. */
  ghost predicate Inv(w: World) {
    forall p :: p in w.procs ==> ProcessOk(w.disk, w.lock, p, w.procs[p])
  }

  /** What a step does to the process that takes it. */
  lemma OwnStepKeeps(w: World, s: Step)
    requires Enabled(w, s) && ProcessOk(w.disk, w.lock, s.p, w.procs[s.p])
    ensures s.p in Do(w, s).procs && ProcessOk(Do(w, s).disk, Do(w, s).lock, s.p, Do(w, s).procs[s.p])
    ensures SubMap(w.disk, Do(w, s).disk)
    ensures !s.Crash? ==> SubMap(w.procs[s.p].cache, Do(w, s).procs[s.p].cache)
  {
  }

  /** The file and the lock change in the hands of the lock's holder only. */
  lemma OthersHaveNoLock(w: World, s: Step, p: nat)
    requires Enabled(w, s) && ProcessOk(w.disk, w.lock, s.p, w.procs[s.p])
    requires p in w.procs && p != s.p && ProcessOk(w.disk, w.lock, p, w.procs[p])
    ensures p in Do(w, s).procs && Do(w, s).procs[p] == w.procs[p]
    ensures Do(w, s).disk == w.disk || !HoldsLock(w.procs[p].at)
    ensures HoldsLock(w.procs[p].at) <==> Do(w, s).lock == Some(p)
  {
    hide SubMap;
  }

  /** A process that takes no step stays as it should be when the file grows. */
  lemma OtherKeeps(w: World, s: Step, p: nat)
    requires Enabled(w, s) && ProcessOk(w.disk, w.lock, s.p, w.procs[s.p])
    requires p in w.procs && p != s.p && ProcessOk(w.disk, w.lock, p, w.procs[p])
    ensures p in Do(w, s).procs && Do(w, s).procs[p] == w.procs[p]
    ensures ProcessOk(Do(w, s).disk, Do(w, s).lock, p, w.procs[p])
  {
    hide Do, Enabled;
    OwnStepKeeps(w, s);
    OthersHaveNoLock(w, s, p);
  }

  lemma StepKeeps(w: World, s: Step)
    requires Inv(w) && Enabled(w, s)
    ensures Inv(Do(w, s)) && SubMap(w.disk, Do(w, s).disk)
    ensures Do(w, s).procs.Keys == w.procs.Keys
  {
    assert s.p in w.procs;
    assert Do(w, s).procs.Keys == w.procs.Keys;
    hide Do, Enabled, ProcessOk, SubMap;
    OwnStepKeeps(w, s);
    forall p | p in Do(w, s).procs
      ensures ProcessOk(Do(w, s).disk, Do(w, s).lock, p, Do(w, s).procs[p])
    {
      assert p in w.procs;
      if p != s.p {
        OtherKeeps(w, s, p);
      }
    }
  }

  /** A process that does not crash never forgets an entry it has in memory. */
  lemma MemoryGrows(w: World, s: Step, p: nat)
    requires Inv(w) && Enabled(w, s) && p in w.procs && !(s.Crash? && s.p == p)
    ensures p in Do(w, s).procs && SubMap(w.procs[p].cache, Do(w, s).procs[p].cache)
  {
    assert s.p in w.procs;
    hide Do, Enabled, ProcessOk;
    if p == s.p {
      OwnStepKeeps(w, s);
    } else {
      OtherKeeps(w, s, p);
    }
  }

  // ----- runs -----

  predicate Possible(w: World, steps: seq<Step>)
    decreases |steps|
  {
    steps == [] || (Enabled(w, steps[0]) && Possible(Do(w, steps[0]), steps[1..]))
  }

  function Run(w: World, steps: seq<Step>): World
    requires Possible(w, steps)
    decreases |steps|
  {
    if steps == [] then w else Run(Do(w, steps[0]), steps[1..])
  }

  /** Any number of processes with empty memory, over any existing file. */
  predicate Initial(w: World) {
    w.lock.None? && forall p :: p in w.procs ==> w.procs[p] == Process(map[], Idle)
  }

  lemma {:induction false} RunKeeps(w: World, steps: seq<Step>)
    requires Inv(w) && Possible(w, steps)
    ensures Inv(Run(w, steps)) && SubMap(w.disk, Run(w, steps).disk)
    decreases |steps|
  {
    hide Inv, Do, Enabled;
    if steps != [] {
      StepKeeps(w, steps[0]);
      RunKeeps(Do(w, steps[0]), steps[1..]);
    }
  }

  lemma InitialOk(w: World)
    requires Initial(w)
    ensures Inv(w)
  {
  }

  /** A look-up of the key by process `p` answers `value`: from memory, or from the file it has read. */
  predicate Hit(w: World, p: nat, key: string, value: int) {
    p in w.procs &&
    var me := w.procs[p];
    || (key in me.cache && me.cache[key] == value)
    || (me.at.Looked? && me.at.key == key && key in me.at.snapshot && me.at.snapshot[key] == value)
  }

  lemma HitIsOnDisk(w: World, p: nat, key: string, value: int)
    requires Inv(w) && Hit(w, p, key, value)
    ensures key in w.disk && w.disk[key] == value
  {
    assert ProcessOk(w.disk, w.lock, p, w.procs[p]);
  }

  /** Write-once: over every run of any number of processes, crashes included, the file only grows, an entry never
      changes its value, and every memory cache stays part of the file. */
  lemma CacheIsWriteOnce(w: World, before: seq<Step>, after: seq<Step>)
    requires Initial(w) && Possible(w, before) && Possible(Run(w, before), after)
    ensures var w1 := Run(w, before);
            var w2 := Run(w1, after);
            && SubMap(w1.disk, w2.disk)
            && forall p :: p in w2.procs ==> SubMap(w2.procs[p].cache, w2.disk)
  {
    hide Inv, Possible, Run, Initial;
    InitialOk(w);
    RunKeeps(w, before);
    RunKeeps(Run(w, before), after);
    MemoriesOnDisk(Run(Run(w, before), after));
  }

  lemma MemoriesOnDisk(w: World)
    requires Inv(w)
    ensures forall p :: p in w.procs ==> SubMap(w.procs[p].cache, w.disk)
  {
    forall p | p in w.procs
      ensures SubMap(w.procs[p].cache, w.disk)
    {
      assert ProcessOk(w.disk, w.lock, p, w.procs[p]);
    }
  }

  /** Two hits in one run, at any two times, by any two processes, for addresses with the same key, agree. */
  lemma HitsAgree(lower: string -> string, w: World, before: seq<Step>, after: seq<Step>,
                  p: nat, q: nat, a: string, b: string, x: int, y: int)
    requires Initial(w) && Possible(w, before) && Possible(Run(w, before), after)
    requires CacheKey(lower, a) == CacheKey(lower, b)
    requires Hit(Run(w, before), p, CacheKey(lower, a), x)
    requires Hit(Run(Run(w, before), after), q, CacheKey(lower, b), y)
    ensures x == y
  {
    hide Inv, Possible, Run, Initial, Hit, CacheKey;
    InitialOk(w);
    RunKeeps(w, before);
    RunKeeps(Run(w, before), after);
    HitIsOnDisk(Run(w, before), p, CacheKey(lower, a), x);
    HitIsOnDisk(Run(Run(w, before), after), q, CacheKey(lower, b), y);
  }

  // ----- a look-up answers -----

  /** A look-up by an idle process answers what memory or else the file has; after it the answer is in memory, and
      nothing else has changed. */
  lemma LookUpAnswers(w: World, p: nat, key: string)
    requires Inv(w) && p in w.procs && w.procs[p].at.Idle?
    ensures Enabled(w, LookUp(p, key))
    ensures var w1 := Do(w, LookUp(p, key));
            && (forall v :: Hit(w1, p, key, v) <==> key in w.disk && w.disk[key] == v)
            && (if key in w.procs[p].cache then w1 == w
                else
                  && Enabled(w1, AdoptOne(p))
                  && Do(w1, AdoptOne(p)) ==
                     w.(procs := w.procs[p := Process(if key in w.disk then w.procs[p].cache[key := w.disk[key]]
                                                      else w.procs[p].cache, Idle)]))
  {
    var me := w.procs[p];
    assert ProcessOk(w.disk, w.lock, p, me);
    var w1 := Do(w, LookUp(p, key));
    if key !in me.cache {
      assert w1.procs[p] == Process(me.cache, Looked(key, w.disk));
      var cache := if key in w.disk then me.cache[key := w.disk[key]] else me.cache;
      assert w1.procs[p := Process(cache, Idle)] == w.procs[p := Process(cache, Idle)];
    }
  }

  // ----- a write arrives -----

  /** Process `p` has the key in memory, or is on its way to write it. */
  ghost predicate Serving(w: World, p: nat, key: string) {
    p in w.procs &&
    var me := w.procs[p];
    || key in me.cache
    || match me.at
       case Waiting(k, _) => k == key
       case Locked(k, _) => k == key
       case Read(k, _, _) => k == key
       case Staged(diskCache) => key in diskCache
       case Settled(diskCache) => key in diskCache
       case _ => false
  }

  lemma ServingGoesOn(w: World, p: nat, key: string, s: Step)
    requires Inv(w) && Enabled(w, s) && Serving(w, p, key) && !(s.Crash? && s.p == p)
    ensures Serving(Do(w, s), p, key)
  {
    if s.p != p {
      assert Do(w, s).procs[p] == w.procs[p];
    } else {
      OwnServing(w, s, key);
    }
  }

  lemma OwnServing(w: World, s: Step, key: string)
    requires Inv(w) && Enabled(w, s) && Serving(w, s.p, key) && !s.Crash?
    ensures Serving(Do(w, s), s.p, key)
  {
    if key in w.procs[s.p].cache {
      MemoryGrows(w, s, s.p);
    }
  }

  ghost predicate NoCrashOf(steps: seq<Step>, p: nat) {
    forall i :: 0 <= i < |steps| ==> !(steps[i].Crash? && steps[i].p == p)
  }

  lemma {:induction false} ServedThrough(w: World, p: nat, key: string, steps: seq<Step>)
    requires Inv(w) && Possible(w, steps) && Serving(w, p, key) && NoCrashOf(steps, p)
    ensures Inv(Run(w, steps)) && Serving(Run(w, steps), p, key)
    decreases |steps|
  {
    hide Inv, Do, Enabled, Serving;
    if steps != [] {
      StepKeeps(w, steps[0]);
      ServingGoesOn(w, p, key, steps[0]);
      ServedThrough(Do(w, steps[0]), p, key, steps[1..]);
    }
  }

  /** A write arrives: whatever the other processes do in between, once its process is back, and has not crashed, the
      key is in the file and in the process's memory. */
  lemma WriteArrives(w: World, before: seq<Step>, p: nat, key: string, result: int, after: seq<Step>)
    requires Initial(w) && Possible(w, before) && Enabled(Run(w, before), StartWrite(p, key, result))
    requires Possible(Do(Run(w, before), StartWrite(p, key, result)), after) && NoCrashOf(after, p)
    ensures var end := Run(Do(Run(w, before), StartWrite(p, key, result)), after);
            p in end.procs &&
            (end.procs[p].at.Idle? ==> key in end.procs[p].cache && key in end.disk)
  {
    InitialOk(w);
    RunKeeps(w, before);
    var w0 := Run(w, before);
    var w1 := Do(w0, StartWrite(p, key, result));
    assert Serving(w1, p, key);
    hide Run, Possible, Enabled, Do;
    StepKeeps(w0, StartWrite(p, key, result));
    ServedThrough(w1, p, key, after);
    MemoriesOnDisk(Run(w1, after));
  }

  // ----- one process undisturbed -----

  /** Memory and file after a write that no other process interferes with. */
  function WriteOnce(cache: Entries, disk: Entries, key: string, result: int): (Entries, Entries) {
    if key in cache then (cache, disk)
    else
      var disk' := if key in disk then disk else disk[key := result];
      (disk', disk')
  }

  /** An entry that is new in memory and file is entered in both; one that either has keeps its value. Nothing else
      changes in the file. */
  lemma WriteTakesEffect(cache: Entries, disk: Entries, key: string, result: int)
    ensures var (cache', disk') := WriteOnce(cache, disk, key, result);
            && key in cache'
            && (key in cache ==> cache' == cache && disk' == disk)
            && (key !in cache ==>
                  && key in disk' && cache'[key] == disk'[key]
                  && disk'[key] == (if key in disk then disk[key] else result) && cache' == disk')
            && (forall k :: k in disk ==> k in disk' && disk'[k] == disk[k])
            && forall k :: k in disk' && k != key ==> k in disk
  {
  }

  function WriteSteps(cache: Entries, disk: Entries, p: nat, key: string, result: int): seq<Step> {
    if key in cache then [StartWrite(p, key, result)]
    else [StartWrite(p, key, result), Acquire(p), ReadLocked(p), Stage(p)] + LastOf(p, key in disk)
  }

  /** From the staged or settled file on. */
  function LastOf(p: nat, settled: bool): seq<Step> {
    if settled then [Adopt(p), Release(p)] else [Replace(p), Adopt(p), Release(p)]
  }

  /** The protocol's steps, taken one after the other, are the write of the object below. */
  lemma UndisturbedWrite(w: World, p: nat, key: string, result: int)
    requires w.lock.None? && p in w.procs && w.procs[p].at == Idle
    ensures var steps := WriteSteps(w.procs[p].cache, w.disk, p, key, result);
            var (cache, disk) := WriteOnce(w.procs[p].cache, w.disk, key, result);
            Possible(w, steps) && Run(w, steps) == World(disk, None, w.procs[p := Process(cache, Idle)])
  {
    hide Possible, Run, LastOf, Do, Enabled;
    var me := w.procs[p];
    if key in me.cache {
      CachedWrite(w, p, key, result);
    } else {
      FirstSteps(w, p, key, result);
      var first := [StartWrite(p, key, result), Acquire(p), ReadLocked(p), Stage(p)];
      var w4 := Run(w, first);
      LastSteps(w4, p, w.disk, if key in w.disk then w.disk else w.disk[key := result]);
      RunAppend(w, first, LastOf(p, key in w.disk));
    }
  }

  lemma CachedWrite(w: World, p: nat, key: string, result: int)
    requires w.lock.None? && p in w.procs && w.procs[p].at == Idle && key in w.procs[p].cache
    ensures Possible(w, [StartWrite(p, key, result)])
    ensures Run(w, [StartWrite(p, key, result)]) == World(w.disk, None, w.procs[p := Process(w.procs[p].cache, Idle)])
  {
    var step := StartWrite(p, key, result);
    assert Enabled(w, step) && Do(w, step) == w;
    hide Do, Enabled;
    OneStep(w, step);
    assert w.procs[p := Process(w.procs[p].cache, Idle)] == w.procs;
  }

  lemma FirstSteps(w: World, p: nat, key: string, result: int)
    requires w.lock.None? && p in w.procs && w.procs[p].at == Idle && key !in w.procs[p].cache
    ensures var first := [StartWrite(p, key, result), Acquire(p), ReadLocked(p), Stage(p)];
            var at := if key in w.disk then Settled(w.disk) else Staged(w.disk[key := result]);
            Possible(w, first) && Run(w, first) == World(w.disk, Some(p), w.procs[p := Process(w.procs[p].cache, at)])
  {
    var cache := w.procs[p].cache;
    var w1 := At(w, None, p, cache, Waiting(key, result));
    var w2 := At(w, Some(p), p, cache, Locked(key, result));
    var w3 := At(w, Some(p), p, cache, Read(key, result, w.disk));
    var at := if key in w.disk then Settled(w.disk) else Staged(w.disk[key := result]);
    StartToLock(w, p, key, result);
    LockToStage(w, p, key, result);
    hide Do, Enabled;
    OneStep(w3, Stage(p));
    RunCons(w2, ReadLocked(p), [Stage(p)]);
    RunCons(w1, Acquire(p), [ReadLocked(p), Stage(p)]);
    RunCons(w, StartWrite(p, key, result), [Acquire(p), ReadLocked(p), Stage(p)]);
  }

  lemma StartToLock(w: World, p: nat, key: string, result: int)
    requires w.lock.None? && p in w.procs && w.procs[p].at == Idle && key !in w.procs[p].cache
    ensures var cache := w.procs[p].cache;
            var w1 := At(w, None, p, cache, Waiting(key, result));
            && Enabled(w, StartWrite(p, key, result)) && Do(w, StartWrite(p, key, result)) == w1
            && Enabled(w1, Acquire(p)) && Do(w1, Acquire(p)) == At(w, Some(p), p, cache, Locked(key, result))
  {
  }

  lemma LockToStage(w: World, p: nat, key: string, result: int)
    requires p in w.procs
    ensures var cache := w.procs[p].cache;
            var w2 := At(w, Some(p), p, cache, Locked(key, result));
            var w3 := At(w, Some(p), p, cache, Read(key, result, w.disk));
            var at := if key in w.disk then Settled(w.disk) else Staged(w.disk[key := result]);
            && Enabled(w2, ReadLocked(p)) && Do(w2, ReadLocked(p)) == w3
            && Enabled(w3, Stage(p)) && Do(w3, Stage(p)) == At(w, Some(p), p, cache, at)
  {
  }

  /** The world with one process elsewhere. */
  function At(w: World, lock: Option<nat>, p: nat, cache: Entries, at: Position): World {
    World(w.disk, lock, w.procs[p := Process(cache, at)])
  }

  lemma {:induction false} RunAppend(w: World, a: seq<Step>, b: seq<Step>)
    requires Possible(w, a) && Possible(Run(w, a), b)
    ensures Possible(w, a + b) && Run(w, a + b) == Run(Run(w, a), b)
    decreases |a|
  {
    hide Do, Enabled;
    if a == [] {
      assert a + b == b;
    } else {
      RunAppend(Do(w, a[0]), a[1..], b);
      assert (a + b)[1..] == a[1..] + b && (a + b)[0] == a[0];
    }
  }

  lemma OneStep(w: World, s: Step)
    requires Enabled(w, s)
    ensures Possible(w, [s]) && Run(w, [s]) == Do(w, s)
  {
    hide Do, Enabled;
    assert [s][1..] == [];
  }

  lemma RunCons(w: World, s: Step, rest: seq<Step>)
    requires Enabled(w, s) && Possible(Do(w, s), rest)
    ensures Possible(w, [s] + rest) && Run(w, [s] + rest) == Run(Do(w, s), rest)
  {
    hide Do, Enabled;
    assert ([s] + rest)[1..] == rest;
  }

  lemma LastSteps(w: World, p: nat, disk: Entries, disk': Entries)
    requires p in w.procs && w.disk == disk && w.lock == Some(p)
    requires w.procs[p].at == Staged(disk') || (w.procs[p].at == Settled(disk') && disk' == disk)
    ensures var steps := LastOf(p, w.procs[p].at.Settled?);
            Possible(w, steps) && Run(w, steps) == World(disk', None, w.procs[p := Process(disk', Idle)])
  {
    var w1 := if w.procs[p].at.Staged? then Do(w, Replace(p)) else w;
    assert Enabled(w1, Adopt(p));
    var w2 := Do(w1, Adopt(p));
    assert Enabled(w2, Release(p));
    assert Do(w2, Release(p)) == World(disk', None, w.procs[p := Process(disk', Idle)]);
    assert w.procs[p].at.Staged? ==> Enabled(w, Replace(p));
    hide Do, Enabled;
    OneStep(w2, Release(p));
    RunCons(w1, Adopt(p), [Release(p)]);
    if w.procs[p].at.Staged? {
      RunCons(w, Replace(p), [Adopt(p), Release(p)]);
    }
  }

  class CacheFile {
    var content: Entries
    constructor ()
      ensures content == map[]
    {
      content := map[];
    }
  }

  /** The scorer's cache; without a file it is memory-only. */
  class LocalGeoScoreAccuracy {
    const lower: string -> string
    const cacheFile: CacheFile?
    var cache: Entries

    constructor (lower: string -> string, cacheFile: CacheFile?)
      ensures this.lower == lower && this.cacheFile == cacheFile && cache == map[]
    {
      this.lower, this.cacheFile, cache := lower, cacheFile, map[];
    }

    ghost function Disk(): Entries
      reads this, cacheFile
    {
      if cacheFile == null then map[] else cacheFile.content
    }

    method GetCachedGeocoding(address: string) returns (found: Option<int>)
      modifies this`cache
      ensures var key, was := CacheKey(lower, address), old(cache);
              && found == (if key in was then Some(was[key]) else if key in Disk() then Some(Disk()[key]) else None)
              && cache == if found.Some? then was[key := found.value] else was
    {
      var key := CacheKey(lower, address);
      if key in cache {
        return Some(cache[key]);
      }
      var diskCache := if cacheFile == null then map[] else cacheFile.content;
      if key in diskCache {
        cache := cache[key := diskCache[key]];
        return Some(diskCache[key]);
      }
      found := None;
    }

    method WriteCacheOnce(address: string, result: int)
      modifies this`cache, cacheFile
      ensures cacheFile != null ==>
                (cache, Disk()) == WriteOnce(old(cache), old(Disk()), CacheKey(lower, address), result)
      ensures cacheFile == null ==>
                var key, was := CacheKey(lower, address), old(cache);
                cache == if key in was then was else was[key := result]
    {
      var key := CacheKey(lower, address);
      if key in cache {
        return;
      }
      if cacheFile == null {
        cache := cache[key := result];
        return;
      }
      var diskCache := cacheFile.content;
      if key !in diskCache {
        diskCache := diskCache[key := result];
        cacheFile.content := diskCache;
      }
      cache := diskCache;
    }
  }
}
