/** The per-key publish throttle: a lock per provider key, a sleep until the minimum
    interval has passed since the last completed section, any number of threads. */
module PublishThrottle {
  import opened Common

  datatype Provider = Meta | GoogleBusiness | Other(name: string)

  datatype Key = Key(provider: Provider, text: string)

  datatype Settings = Settings(meta: real, googleBusiness: real)

  function MinInterval(cfg: Settings, p: Provider): (r: real)
    ensures r >= 0.0
    ensures p == Meta && cfg.meta >= 0.0 ==> r == cfg.meta
    ensures p == GoogleBusiness && cfg.googleBusiness >= 0.0 ==> r == cfg.googleBusiness
    ensures (p == Meta && cfg.meta < 0.0) || (p == GoogleBusiness && cfg.googleBusiness < 0.0) ==> r == 0.0
    ensures p.Other? ==> r == 0.0
  {
    var raw := match p case Meta => cfg.meta case GoogleBusiness => cfg.googleBusiness case Other(_) => 0.0;
    if raw > 0.0 then raw else 0.0
  }

  predicate Throttled(cfg: Settings, key: Key) { MinInterval(cfg, key.provider) > 0.0 }

  /** The dictionary key: provider, colon, throttle key. */
  function LockKey(key: Key): string {
    match key.provider
    case Meta => "meta:" + key.text
    case GoogleBusiness => "google_business:" + key.text
    case Other(name) => name + ":" + key.text
  }

  /** The provider and the key can be read back from it. */
  lemma LockKeyShape(key: Key)
    requires !key.provider.Other?
    ensures var name := if key.provider == Meta then "meta" else "google_business";
            var k := LockKey(key);
            && |k| == |name| + 1 + |key.text| && k[..|name|] == name && k[|name|] == ':' && k[|name| + 1..] == key.text
  {
  }

  /** Keys that are throttled never share a dictionary entry. */
  lemma LockKeyInjective(cfg: Settings, a: Key, b: Key)
    requires Throttled(cfg, a) && Throttled(cfg, b) && LockKey(a) == LockKey(b)
    ensures a == b
  {
    assert a.provider == Meta ==> LockKey(a)[0] == 'm';
    assert a.provider == GoogleBusiness ==> LockKey(a)[0] == 'g';
    assert b.provider == Meta ==> LockKey(b)[0] == 'm';
    assert b.provider == GoogleBusiness ==> LockKey(b)[0] == 'g';
    if a.provider == Meta && b.provider == Meta { PrefixInjective("meta:", a.text, b.text); }
    if a.provider == GoogleBusiness && b.provider == GoogleBusiness {
      PrefixInjective("google_business:", a.text, b.text);
    }
  }

  // ── Threads ─────────────────────────────────────────────────────────────

  /** Where a thread stands; everything from Sleeping on holds the lock. */
  datatype Phase =
    | Waiting(key: Key, lock: nat)
    | Sleeping(key: Key, lock: nat, until: real)
    | Running(key: Key, lock: nat, start: real)
    | Ending(key: Key, lock: nat, start: real, end: real)

  /** A protected section that is over; `normal` if it did not raise. */
  datatype Section = Section(key: Key, start: real, end: real, normal: bool)

  datatype State = State(
    locks: map<Key, nat>, last: map<Key, real>, threads: map<nat, Phase>,
    nextLock: nat, clock: real, log: seq<Section>)

  datatype Step =
    | Arrive(thread: nat, key: Key)
    | Acquire(thread: nat)
    | Start(thread: nat)
    | End(thread: nat)
    | Stamp(thread: nat)
    | Raise(thread: nat)
    | Tick(to: real)

  predicate Holding(p: Phase) { !p.Waiting? }

  predicate LockFree(s: State, lock: nat) {
    forall t :: t in s.threads && Holding(s.threads[t]) ==> s.threads[t].lock != lock
  }

  /** `setdefault`: a new lock object is kept only if the key has none yet. */
  function ArriveStep(s: State, thread: nat, key: Key): State {
    var locks := if key in s.locks then s.locks else s.locks[key := s.nextLock];
    s.(locks := locks, nextLock := s.nextLock + 1, threads := s.threads[thread := Waiting(key, locks[key])])
  }

  /** With the lock held: sleep for what is left of the interval, if anything is. */
  function WakeTime(cfg: Settings, last: map<Key, real>, key: Key, clock: real): real {
    if key in last && MinInterval(cfg, key.provider) - (clock - last[key]) > 0.0
    then clock + (MinInterval(cfg, key.provider) - (clock - last[key])) else clock
  }

  function At(s: State, thread: nat, p: Phase): State {
    s.(threads := s.threads[thread := p])
  }

  /** The section is over and the lock released. */
  function Leave(s: State, thread: nat, section: Section): State {
    s.(threads := s.threads - {thread}, log := s.log + [section])
  }

  /** A section whose key is not throttled takes no lock and leaves no trace here. */
  function Apply(cfg: Settings, s: State, step: Step): State {
    match step
    case Arrive(t, key) => if t in s.threads || !Throttled(cfg, key) then s else ArriveStep(s, t, key)
    case Acquire(t) =>
      if t in s.threads && s.threads[t].Waiting? && LockFree(s, s.threads[t].lock)
      then
        var wake := WakeTime(cfg, s.last, s.threads[t].key, s.clock);
        At(s, t, Sleeping(s.threads[t].key, s.threads[t].lock, wake))
      else s
    case Start(t) =>
      if t in s.threads && s.threads[t].Sleeping? && s.threads[t].until <= s.clock
      then At(s, t, Running(s.threads[t].key, s.threads[t].lock, s.clock)) else s
    case End(t) =>
      if t in s.threads && s.threads[t].Running?
      then At(s, t, Ending(s.threads[t].key, s.threads[t].lock, s.threads[t].start, s.clock)) else s
    case Stamp(t) =>
      if t in s.threads && s.threads[t].Ending?
      then
        var p := s.threads[t];
        Leave(s, t, Section(p.key, p.start, p.end, true)).(last := s.last[p.key := s.clock])
      else s
    case Raise(t) =>
      if t in s.threads && s.threads[t].Running?
      then Leave(s, t, Section(s.threads[t].key, s.threads[t].start, s.clock, false)) else s
    case Tick(to) => if to >= s.clock then s.(clock := to) else s
  }

  function Run(cfg: Settings, s: State, steps: seq<Step>): State
    decreases |steps|
  {
    if steps == [] then s else Run(cfg, Apply(cfg, s, steps[0]), steps[1..])
  }

  const EMPTY := State(map[], map[], map[], 0, 0.0, [])

  // ── Invariant ───────────────────────────────────────────────────────────

  /** One lock object per key and one key per lock object, for ever. */
  predicate LocksOk(s: State) {
    && (forall k :: k in s.locks ==> s.locks[k] < s.nextLock)
    && (forall k, l :: k in s.locks && l in s.locks && s.locks[k] == s.locks[l] ==> k == l)
    && (forall t :: t in s.threads ==> s.threads[t].key in s.locks && s.locks[s.threads[t].key] == s.threads[t].lock)
  }

  predicate Exclusive(threads: map<nat, Phase>) {
    forall t, u ::
      (t in threads && u in threads && Holding(threads[t]) && Holding(threads[u]) && threads[t].key == threads[u].key)
      ==> t == u
  }

  /** A section may start at `at`: after every section of the key, and the interval
      after every one that finished normally. */
  predicate MayStart(cfg: Settings, log: seq<Section>, n: nat, key: Key, at: real)
    requires n <= |log|
  {
    forall i :: 0 <= i < n && log[i].key == key ==>
      log[i].end <= at && (log[i].normal ==> log[i].end + MinInterval(cfg, key.provider) <= at)
  }

  predicate LogOk(cfg: Settings, log: seq<Section>) {
    forall j :: 0 <= j < |log| ==> log[j].start <= log[j].end && MayStart(cfg, log, j, log[j].key, log[j].start)
  }

  /** The stamp of a key: not before the end of any normal section of that key. */
  predicate LastOk(s: State) {
    && (forall i :: 0 <= i < |s.log| ==>
          && s.log[i].end <= s.clock
          && (s.log[i].normal ==> s.log[i].key in s.last && s.log[i].end <= s.last[s.log[i].key]))
    && (forall k :: k in s.last ==>
          s.last[k] <= s.clock && exists i :: 0 <= i < |s.log| && s.log[i].key == k && s.log[i].normal)
  }

  predicate PhaseOk(cfg: Settings, log: seq<Section>, clock: real, p: Phase) {
    match p
    case Waiting(_, _) => true
    case Sleeping(key, _, until) => MayStart(cfg, log, |log|, key, until)
    case Running(key, _, start) => start <= clock && MayStart(cfg, log, |log|, key, start)
    case Ending(key, _, start, end) => start <= end <= clock && MayStart(cfg, log, |log|, key, start)
  }

  predicate PhasesOk(cfg: Settings, s: State) {
    forall t :: t in s.threads ==> PhaseOk(cfg, s.log, s.clock, s.threads[t])
  }

  ghost predicate Inv(cfg: Settings, s: State) {
    LocksOk(s) && Exclusive(s.threads) && LogOk(cfg, s.log) && LastOk(s) && PhasesOk(cfg, s)
  }

  lemma WakeTimeOk(cfg: Settings, s: State, key: Key)
    requires LastOk(s)
    ensures MayStart(cfg, s.log, |s.log|, key, WakeTime(cfg, s.last, key, s.clock))
    ensures s.clock <= WakeTime(cfg, s.last, key, s.clock) <= s.clock + MinInterval(cfg, key.provider)
  {
  }

  /** A thread moves from one phase to another of the same key and lock. */
  lemma MoveInv(cfg: Settings, s: State, t: nat, p: Phase)
    requires Inv(cfg, s) && t in s.threads && PhaseOk(cfg, s.log, s.clock, p)
    requires p.key == s.threads[t].key && p.lock == s.threads[t].lock
    requires Holding(p) ==> Holding(s.threads[t]) || LockFree(s, p.lock)
    ensures Inv(cfg, At(s, t, p))
  {
    MoveExclusive(s, t, p);
  }

  lemma MoveExclusive(s: State, t: nat, p: Phase)
    requires LocksOk(s) && Exclusive(s.threads) && t in s.threads
    requires p.key == s.threads[t].key && p.lock == s.threads[t].lock
    requires Holding(p) ==> Holding(s.threads[t]) || LockFree(s, p.lock)
    ensures Exclusive(s.threads[t := p])
  {
    forall x | x in s.threads && x != t && Holding(s.threads[x]) && Holding(p) ensures s.threads[x].key != p.key {
      if Holding(s.threads[t]) { assert s.threads[x].key == s.threads[t].key ==> x == t; }
      else { assert s.threads[x].lock != p.lock; }
    }
  }

  lemma LeaveLogOk(cfg: Settings, log: seq<Section>, x: Section)
    requires LogOk(cfg, log) && x.start <= x.end && MayStart(cfg, log, |log|, x.key, x.start)
    ensures LogOk(cfg, log + [x])
  {
  }

  lemma OthersKept(cfg: Settings, s: State, t: nat, x: Section, clock: real)
    requires Exclusive(s.threads) && PhasesOk(cfg, s)
    requires t in s.threads && Holding(s.threads[t]) && x.key == s.threads[t].key
    requires s.clock == clock
    ensures forall u :: u in s.threads && u != t ==> PhaseOk(cfg, s.log + [x], clock, s.threads[u])
  {
  }

  lemma LeaveInv(cfg: Settings, s: State, t: nat, x: Section, last: map<Key, real>)
    requires Inv(cfg, s) && t in s.threads && Holding(s.threads[t]) && x.key == s.threads[t].key
    requires x.start <= x.end <= s.clock && MayStart(cfg, s.log, |s.log|, x.key, x.start)
    requires last == if x.normal then s.last[x.key := s.clock] else s.last
    ensures Inv(cfg, Leave(s, t, x).(last := last))
  {
    LeaveLogOk(cfg, s.log, x);
    OthersKept(cfg, s, t, x, s.clock);
    LastKept(s, x, last);
  }

  lemma LastKept(s: State, x: Section, last: map<Key, real>)
    requires LastOk(s) && x.end <= s.clock
    requires last == if x.normal then s.last[x.key := s.clock] else s.last
    ensures LastOk(s.(log := s.log + [x], last := last))
  {
    var all := s.log + [x];
    forall k | k in last
      ensures last[k] <= s.clock && exists i :: 0 <= i < |all| && all[i].key == k && all[i].normal
    {
      if k in s.last {
        var i :| 0 <= i < |s.log| && s.log[i].key == k && s.log[i].normal;
        assert all[i] == s.log[i];
      } else {
        assert all[|s.log|] == x;
      }
    }
  }

  lemma ArriveInv(cfg: Settings, s: State, t: nat, key: Key)
    requires Inv(cfg, s) && t !in s.threads
    ensures Inv(cfg, ArriveStep(s, t, key))
  {
  }

  lemma TickInv(cfg: Settings, s: State, to: real)
    requires Inv(cfg, s) && s.clock <= to
    ensures Inv(cfg, s.(clock := to))
  {
  }

  lemma StepInv(cfg: Settings, s: State, step: Step)
    requires Inv(cfg, s)
    ensures Inv(cfg, Apply(cfg, s, step))
  {
    match step
    case Tick(to) => if to >= s.clock { TickInv(cfg, s, to); }
    case Arrive(t, key) => if t !in s.threads { ArriveInv(cfg, s, t, key); }
    case _ => ThreadStepInv(cfg, s, step);
  }

  lemma ThreadStepInv(cfg: Settings, s: State, step: Step)
    requires Inv(cfg, s) && !step.Tick? && !step.Arrive?
    ensures Inv(cfg, Apply(cfg, s, step))
  {
    var t := step.thread;
    if t in s.threads {
      var p := s.threads[t];
      assert PhaseOk(cfg, s.log, s.clock, p);
      match step
      case Acquire(_) =>
        if p.Waiting? && LockFree(s, p.lock) {
          WakeTimeOk(cfg, s, p.key);
          MoveInv(cfg, s, t, Sleeping(p.key, p.lock, WakeTime(cfg, s.last, p.key, s.clock)));
        }
      case Start(_) => if p.Sleeping? && p.until <= s.clock { MoveInv(cfg, s, t, Running(p.key, p.lock, s.clock)); }
      case End(_) => if p.Running? { MoveInv(cfg, s, t, Ending(p.key, p.lock, p.start, s.clock)); }
      case Stamp(_) =>
        if p.Ending? { LeaveInv(cfg, s, t, Section(p.key, p.start, p.end, true), s.last[p.key := s.clock]); }
      case Raise(_) => if p.Running? { LeaveInv(cfg, s, t, Section(p.key, p.start, s.clock, false), s.last); }
    }
  }

  lemma {:induction false} RunInv(cfg: Settings, s: State, steps: seq<Step>)
    requires Inv(cfg, s)
    ensures Inv(cfg, Run(cfg, s, steps))
    decreases |steps|
  {
    if steps != [] {
      StepInv(cfg, s, steps[0]);
      RunInv(cfg, Apply(cfg, s, steps[0]), steps[1..]);
    }
  }

  /** With any number of threads: sections of one key never overlap, and each starts at
      least the interval after every earlier one of that key that finished normally. */
  lemma SectionsApart(cfg: Settings, steps: seq<Step>, i: nat, j: nat)
    requires i < j < |Run(cfg, EMPTY, steps).log|
    requires Run(cfg, EMPTY, steps).log[i].key == Run(cfg, EMPTY, steps).log[j].key
    ensures var a, b := Run(cfg, EMPTY, steps).log[i], Run(cfg, EMPTY, steps).log[j];
            && a.start <= a.end <= b.start <= b.end
            && (a.normal ==> b.start >= a.end + MinInterval(cfg, a.key.provider))
  {
    RunInv(cfg, EMPTY, steps);
    var log := Run(cfg, EMPTY, steps).log;
    assert LogOk(cfg, log) && MayStart(cfg, log, j, log[j].key, log[j].start);
  }

  /** The same for the section now running, and no two threads run one key's section. */
  lemma RunningApart(cfg: Settings, steps: seq<Step>, t: nat, i: nat)
    requires t in Run(cfg, EMPTY, steps).threads && Run(cfg, EMPTY, steps).threads[t].Running?
    requires i < |Run(cfg, EMPTY, steps).log|
    requires Run(cfg, EMPTY, steps).log[i].key == Run(cfg, EMPTY, steps).threads[t].key
    ensures var s := Run(cfg, EMPTY, steps);
            && s.log[i].end <= s.threads[t].start
            && (s.log[i].normal ==> s.threads[t].start >= s.log[i].end + MinInterval(cfg, s.log[i].key.provider))
            && forall u :: u in s.threads && u != t && Holding(s.threads[u]) ==>
                 s.threads[u].key != s.threads[t].key && s.threads[u].lock != s.threads[t].lock
  {
    RunInv(cfg, EMPTY, steps);
    var s := Run(cfg, EMPTY, steps);
    assert PhaseOk(cfg, s.log, s.clock, s.threads[t]) && LocksOk(s) && Exclusive(s.threads);
  }

  /** A section that raised leaves no stamp: a waiting thread of the same key sleeps as
      if that section had never been, and not at all if none has finished normally. */
  lemma RaisedIsNotCounted(cfg: Settings, s: State, t: nat, u: nat)
    requires Inv(cfg, s) && t in s.threads && s.threads[t].Running?
    requires u in s.threads && s.threads[u].Waiting? && s.threads[u].key == s.threads[t].key
    ensures var r := Apply(cfg, Apply(cfg, s, Raise(t)), Acquire(u));
            && u in r.threads && r.threads[u].Sleeping?
            && r.threads[u].until == WakeTime(cfg, s.last, s.threads[u].key, s.clock)
            && (s.threads[u].key !in s.last ==> r.threads[u].until == s.clock)
  {
  }

  // ── What a step does ────────────────────────────────────────────────────

  /** A thread of a throttled provider waits for the lock of its key: the one there is, or
      a new one. */
  lemma ArrivingWaits(cfg: Settings, s: State, t: nat, key: Key)
    requires t !in s.threads && MinInterval(cfg, key.provider) > 0.0
    ensures var u := Apply(cfg, s, Arrive(t, key));
            && key in u.locks && u.threads == s.threads[t := Waiting(key, u.locks[key])]
            && (key in s.locks ==> u.locks == s.locks)
            && (key !in s.locks ==> u.locks == s.locks[key := s.nextLock])
            && u.nextLock > s.nextLock && u.last == s.last && u.clock == s.clock && u.log == s.log
  {
  }

  /** Without an interval nothing waits. */
  lemma UnthrottledPasses(cfg: Settings, s: State, t: nat, key: Key)
    requires MinInterval(cfg, key.provider) == 0.0
    ensures Apply(cfg, s, Arrive(t, key)) == s
  {
  }

  /** With the lock free, a thread gets it and sleeps until the interval since the last
      normal end of its key has passed; not at all if there was none or it has passed. */
  lemma AcquiringSleeps(cfg: Settings, s: State, t: nat)
    requires t in s.threads && s.threads[t].Waiting? && LockFree(s, s.threads[t].lock)
    ensures var key, interval := s.threads[t].key, MinInterval(cfg, s.threads[t].key.provider);
            var u := Apply(cfg, s, Acquire(t));
            && u == s.(threads := s.threads[t := Sleeping(key, s.threads[t].lock, u.threads[t].until)])
            && (key !in s.last || s.last[key] + interval <= s.clock ==> u.threads[t].until == s.clock)
            && (key in s.last && s.last[key] + interval > s.clock ==> u.threads[t].until == s.last[key] + interval)
  {
  }

  /** A lock held by another thread keeps it waiting. */
  lemma HeldLockBlocks(cfg: Settings, s: State, t: nat, u: nat)
    requires t in s.threads && s.threads[t].Waiting?
    requires u in s.threads && !s.threads[u].Waiting? && s.threads[u].lock == s.threads[t].lock
    ensures Apply(cfg, s, Acquire(t)) == s
  {
  }

  /** Awake, the thread runs its section; the end of the section is stamped and the lock
      let go, or only let go if it raised. */
  lemma SectionRuns(cfg: Settings, s: State, t: nat)
    requires t in s.threads
    ensures var p := s.threads[t];
            && (p.Sleeping? && p.until <= s.clock ==>
                  Apply(cfg, s, Start(t)) == s.(threads := s.threads[t := Running(p.key, p.lock, s.clock)]))
            && (p.Sleeping? && p.until > s.clock ==> Apply(cfg, s, Start(t)) == s)
            && (p.Running? ==>
                  && Apply(cfg, s, End(t)) == s.(threads := s.threads[t := Ending(p.key, p.lock, p.start, s.clock)])
                  && Apply(cfg, s, Raise(t)) ==
                     s.(threads := s.threads - {t}, log := s.log + [Section(p.key, p.start, s.clock, false)]))
            && (p.Ending? ==>
                  Apply(cfg, s, Stamp(t)) ==
                  s.(threads := s.threads - {t}, last := s.last[p.key := s.clock],
                     log := s.log + [Section(p.key, p.start, p.end, true)]))
  {
  }

  /** The clock runs forward only. */
  lemma ClockMoves(cfg: Settings, s: State, to: real)
    ensures Apply(cfg, s, Tick(to)) == if to >= s.clock then s.(clock := to) else s
  {
  }

  // ── The module-level dictionaries ───────────────────────────────────────

  class Throttle {
    const cfg: Settings
    var locks: map<Key, nat>
    var last: map<Key, real>
    var nextLock: nat

    constructor (cfg: Settings)
      ensures this.cfg == cfg && locks == map[] && last == map[] && nextLock == 0
    {
      this.cfg := cfg;
      locks, last, nextLock := map[], map[], 0;
    }

    /** Up to the lock: None if the provider is not throttled. */
    method LockFor(key: Key) returns (lock: Option<nat>)
      modifies this`locks, this`nextLock
      ensures lock.Some? <==> Throttled(cfg, key)
      ensures lock.None? ==> locks == old(locks) && nextLock == old(nextLock)
      ensures lock.Some? ==> forall s: State, t: nat :: s.locks == old(locks) && s.nextLock == old(nextLock) ==>
        ArriveStep(s, t, key) ==
        s.(locks := locks, nextLock := nextLock, threads := s.threads[t := Waiting(key, lock.value)])
    {
      var interval := MinInterval(cfg, key.provider);
      if interval <= 0.0 { return None; }
      var created := nextLock;
      nextLock := nextLock + 1;
      if key !in locks { locks := locks[key := created]; }
      return Some(locks[key]);
    }

    /** With the lock held: how long to sleep. */
    method Remaining(key: Key, now: real) returns (sleep: real)
      ensures 0.0 <= sleep && now + sleep == WakeTime(cfg, last, key, now)
    {
      sleep := 0.0;
      if key in last {
        var remaining := MinInterval(cfg, key.provider) - (now - last[key]);
        if remaining > 0.0 { sleep := remaining; }
      }
    }

    /** After the section, unless it raised. */
    method Completed(key: Key, now: real)
      modifies this`last
      ensures last == old(last)[key := now]
    {
      last := last[key := now];
    }
  }
}
