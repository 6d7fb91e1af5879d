/** The Redis lock around cron jobs: one key, set only when absent, deleted only by its owner. */
module LockKey {
  import opened Wrappers

  datatype Entry = Entry(owner: nat, expiresAt: nat)

  /** What the server sees: an expired key is absent. */
  function Live(key: Option<Entry>, now: nat): Option<Entry> {
    if key.Some? && now < key.value.expiresAt then key else None
  }

  /** `SET key identifier EX ttl NX` */
  function SetIfAbsent(key: Option<Entry>, now: nat, identifier: nat, ttl: nat): Option<Entry> {
    if Live(key, now).Some? then key else Some(Entry(identifier, now + ttl))
  }

  predicate OwnedBy(key: Option<Entry>, now: nat, identifier: nat) {
    Live(key, now).Some? && key.value.owner == identifier
  }

  /** The release script: compare the value, then delete. */
  function DeleteIfOwned(key: Option<Entry>, now: nat, identifier: nat): Option<Entry> {
    if OwnedBy(key, now, identifier) then None else key
  }

  class Redis {
    var now: nat
    var key: Option<Entry>

    constructor ()
      ensures now == 0 && key == None
    {
      now, key := 0, None;
    }

    method SetNxEx(identifier: nat, ttl: nat) returns (ok: bool)
      modifies this`key
      ensures key == SetIfAbsent(old(key), now, identifier, ttl)
      ensures ok == Live(old(key), now).None?
    {
      if key.Some? && key.value.expiresAt <= now {
        key := None;  // expired
      }
      ok := key.None?;
      if ok {
        key := Some(Entry(identifier, now + ttl));
      }
    }

    method EvalRelease(identifier: nat) returns (deleted: bool)
      modifies this`key
      ensures key == DeleteIfOwned(old(key), now, identifier)
      ensures deleted == OwnedBy(old(key), now, identifier)
    {
      deleted := false;
      if key.Some? && now < key.value.expiresAt && key.value.owner == identifier {
        key := None;
        deleted := true;
      }
    }
  }

  datatype Lock = Lock(identifier: nat, until: nat)

  /** A lock when the key was free; `replied` is false when the connection fails after the command ran. */
  method AcquireLock(redis: Redis, identifier: nat, ttl: nat, replied: bool) returns (lock: Option<Lock>)
    modifies redis`key
    ensures redis.key == SetIfAbsent(old(redis.key), redis.now, identifier, ttl)
    ensures lock == if replied && Live(old(redis.key), redis.now).None?
                    then Some(Lock(identifier, redis.now + ttl)) else None
  {
    var result := redis.SetNxEx(identifier, ttl);
    if !replied { return None; }
    if result { return Some(Lock(identifier, redis.now + ttl)); }
    return None;
  }

  method ReleaseLock(redis: Redis, lock: Lock)
    modifies redis`key
    ensures redis.key == DeleteIfOwned(old(redis.key), redis.now, lock.identifier)
  {
    var deleted := redis.EvalRelease(lock.identifier);
  }
}

/** Any number of processes wrapping a job in the lock, with time, expiry, lost replies and crashes. */
module LockProtocol {
  import opened Wrappers
  import opened LockKey

  /** `since` and `until` are the beginning and the end of the lease on the server's clock. */
  datatype Phase = Idle | Working(identifier: nat, since: nat, until: nat) | Releasing(identifier: nat)

  datatype System = System(now: nat, key: Option<Entry>, procs: map<nat, Phase>, used: set<nat>)

  datatype Event =
    | Tick(elapsed: nat)
    | Acquire(p: nat, identifier: nat, ttl: nat, replied: bool)
    | JobEnds(p: nat)                 // returns or throws: the release runs in either case
    | Release(p: nat, executed: bool) // the script runs, or the connection fails before it
    | Crash(p: nat)

  function PhaseOf(s: System, p: nat): Phase {
    if p in s.procs then s.procs[p] else Idle
  }

  function Step(s: System, e: Event): System {
    match e
    case Tick(elapsed) => s.(now := s.now + elapsed)
    case Acquire(p, identifier, ttl, replied) =>
      if PhaseOf(s, p) != Idle || identifier in s.used then s
      else
        var attempt := s.(used := s.used + {identifier}, key := SetIfAbsent(s.key, s.now, identifier, ttl));
        if replied && Live(s.key, s.now).None?
        then attempt.(procs := s.procs[p := Working(identifier, s.now, s.now + ttl)])
        else attempt
    case JobEnds(p) =>
      if PhaseOf(s, p).Working? then s.(procs := s.procs[p := Releasing(s.procs[p].identifier)]) else s
    case Release(p, executed) =>
      if PhaseOf(s, p).Releasing? then
        var key := if executed then DeleteIfOwned(s.key, s.now, s.procs[p].identifier) else s.key;
        s.(key := key, procs := s.procs[p := Idle])
      else s
    case Crash(p) => s.(procs := s.procs[p := Idle])
  }

  const START: System := System(0, None, map[], {})

  function Run(events: seq<Event>): System {
    if events == [] then START else Step(Run(events[..|events| - 1]), events[|events| - 1])
  }

  predicate Leased(s: System, p: nat) {
    PhaseOf(s, p).Working? && s.now < PhaseOf(s, p).until
  }

  function Identifier(ph: Phase): Option<nat> {
    match ph
    case Idle => None
    case Working(i, _, _) => Some(i)
    case Releasing(i) => Some(i)
  }

  ghost predicate SystemOk(s: System) {
    && (forall p :: p in s.procs && !s.procs[p].Idle? ==> Identifier(s.procs[p]).value in s.used)
    && (forall p, q :: p in s.procs && q in s.procs && p != q && !s.procs[p].Idle? ==>
          Identifier(s.procs[p]) != Identifier(s.procs[q]))
    && (forall p :: p in s.procs && Leased(s, p) ==>
          s.key == Some(Entry(s.procs[p].identifier, s.procs[p].until)))
    && (s.key.Some? ==> s.key.value.owner in s.used)
  }

  lemma StepOk(s: System, e: Event)
    requires SystemOk(s)
    ensures SystemOk(Step(s, e))
  {
    var n := Step(s, e);
    forall p | p in n.procs && Leased(n, p)
      ensures n.key == Some(Entry(n.procs[p].identifier, n.procs[p].until))
    {
      if p in s.procs && s.procs[p] == n.procs[p] {
        assert Leased(s, p);
      }
    }
  }

  lemma {:induction false} RunOk(events: seq<Event>)
    ensures SystemOk(Run(events))
  {
    if events != [] {
      RunOk(events[..|events| - 1]);
      StepOk(Run(events[..|events| - 1]), events[|events| - 1]);
    }
  }

  /** In every run at most one process is in the job with an unexpired lease. */
  lemma OneLeaseHolder(events: seq<Event>, p: nat, q: nat)
    requires Leased(Run(events), p) && Leased(Run(events), q)
    ensures p == q
  {
    RunOk(events);
  }

  /** Every attempt asks for the same TTL. */
  ghost predicate TtlIs(events: seq<Event>, ttl: nat) {
    forall i :: 0 <= i < |events| && events[i].Acquire? ==> events[i].ttl == ttl
  }

  /** At every moment of the run each process in the job has been there for less than this long. */
  ghost predicate JobsEndWithin(events: seq<Event>, duration: nat) {
    forall n :: 0 <= n <= |events| ==> AllYoungerThan(Run(events[..n]), duration)
  }

  ghost predicate AllYoungerThan(s: System, duration: nat) {
    forall p :: p in s.procs && s.procs[p].Working? ==> s.now < s.procs[p].since + duration
  }

  ghost predicate AtMostOneWorking(s: System) {
    forall p, q :: PhaseOf(s, p).Working? && PhaseOf(s, q).Working? ==> p == q
  }

  ghost predicate Excludes(ttl: nat, duration: nat) {
    forall events :: TtlIs(events, ttl) && JobsEndWithin(events, duration) ==> AtMostOneWorking(Run(events))
  }

  ghost predicate LeaseLengths(s: System, ttl: nat) {
    forall p :: p in s.procs && s.procs[p].Working? ==> s.procs[p].until == s.procs[p].since + ttl
  }

  lemma LeaseStep(s: System, e: Event, ttl: nat)
    requires LeaseLengths(s, ttl) && (e.Acquire? ==> e.ttl == ttl)
    ensures LeaseLengths(Step(s, e), ttl)
  {
    var n := Step(s, e);
    forall p | p in n.procs && n.procs[p].Working? ensures n.procs[p].until == n.procs[p].since + ttl {
      assert (p in s.procs && n.procs[p] == s.procs[p]) || e.Acquire?;
    }
  }

  lemma {:induction false} LeasesLast(events: seq<Event>, ttl: nat)
    requires TtlIs(events, ttl)
    ensures LeaseLengths(Run(events), ttl)
  {
    if events != [] {
      LeasesLast(events[..|events| - 1], ttl);
      LeaseStep(Run(events[..|events| - 1]), events[|events| - 1], ttl);
    }
  }

  /** A job as long as the TTL or longer runs beside the next one, though each ends within its time. */
  lemma OverrunJobsOverlap(ttl: nat, duration: nat) returns (events: seq<Event>)
    requires duration > ttl
    ensures TtlIs(events, ttl) && JobsEndWithin(events, duration) && !AtMostOneWorking(Run(events))
  {
    var a, b, c := Acquire(1, 10, ttl, true), Tick(ttl), Acquire(2, 20, ttl, true);
    events := [a, b, c];
    assert events[..0] == [] && events[..1] == [a] && events[..2] == [a, b] && events[..3] == events;
    assert [a, b][..1] == [a] && [a][..0] == [];
    var one := System(0, Some(Entry(10, ttl)), map[1 := Working(10, 0, ttl)], {10});
    assert Run([a]) == Step(START, a) == one;
    var two := one.(now := ttl);
    assert Run([a, b]) == Step(Run([a]), b) == two;
    assert Live(two.key, two.now).None?;
    var three := Run(events);
    assert three == Step(two, c);
    assert three.procs == map[1 := Working(10, 0, ttl), 2 := Working(20, ttl, ttl + ttl)] && three.now == ttl;
    assert AllYoungerThan(Run([]), duration) && AllYoungerThan(one, duration) && AllYoungerThan(two, duration);
    assert AllYoungerThan(three, duration);
    forall n | 0 <= n <= |events| ensures AllYoungerThan(Run(events[..n]), duration) {
      assert n == 0 || n == 1 || n == 2 || n == 3;
    }
    assert PhaseOf(three, 1).Working? && PhaseOf(three, 2).Working?;
  }

  /**
   * Every schedule whose jobs end within a duration has one process in the job exactly when the TTL covers
   * it. Durations run from the grant on the server, so a late reply counts.
   */
  lemma TimelyJobsExcludeIff(ttl: nat, duration: nat)
    ensures Excludes(ttl, duration) <==> duration <= ttl
  {
    if duration <= ttl {
      forall events | TtlIs(events, ttl) && JobsEndWithin(events, duration) ensures AtMostOneWorking(Run(events)) {
        var s := Run(events);
        assert events[..|events|] == events && AllYoungerThan(s, duration);
        LeasesLast(events, ttl);
        forall p, q | PhaseOf(s, p).Working? && PhaseOf(s, q).Working? ensures p == q {
          OneLeaseHolder(events, p, q);
        }
      }
    } else {
      var events := OverrunJobsOverlap(ttl, duration);
    }
  }

  /** A release, however late, never removes a lock that another process holds or was granted. */
  lemma LateReleaseHarmless(events: seq<Event>, p: nat, executed: bool)
    ensures var s := Run(events); var n := Step(s, Release(p, executed));
      && (n.key != s.key ==> PhaseOf(s, p).Releasing? && s.key.Some? && s.key.value.owner == s.procs[p].identifier)
      && (forall q :: q != p && Leased(s, q) ==>
            Leased(n, q) && n.key == s.key == Some(Entry(PhaseOf(s, q).identifier, PhaseOf(s, q).until)))
  {
    RunOk(events);
  }

  ghost predicate TtlAtMost(events: seq<Event>, bound: nat) {
    forall i :: 0 <= i < |events| && events[i].Acquire? ==> events[i].ttl <= bound
  }

  lemma {:induction false} KeyExpiresWithin(events: seq<Event>, bound: nat)
    requires TtlAtMost(events, bound)
    ensures Run(events).key.Some? ==> Run(events).key.value.expiresAt <= Run(events).now + bound
  {
    if events != [] {
      KeyExpiresWithin(events[..|events| - 1], bound);
      var e := events[|events| - 1];
      assert e.Acquire? ==> e.ttl <= bound;
    }
  }

  /** Whatever was lost or crashed, after one TTL any idle process can take the lock. */
  lemma LockIsRecoverable(events: seq<Event>, bound: nat, p: nat, identifier: nat, ttl: nat)
    requires TtlAtMost(events, bound)
    requires PhaseOf(Run(events), p) == Idle && identifier !in Run(events).used
    ensures PhaseOf(Step(Step(Run(events), Tick(bound)), Acquire(p, identifier, ttl, true)), p).Working?
  {
    KeyExpiresWithin(events, bound);
    TakeExpired(Step(Run(events), Tick(bound)), p, identifier, ttl);
  }

  lemma TakeExpired(s: System, p: nat, identifier: nat, ttl: nat)
    requires PhaseOf(s, p) == Idle && identifier !in s.used
    requires s.key.Some? ==> s.key.value.expiresAt <= s.now
    ensures PhaseOf(Step(s, Acquire(p, identifier, ttl, true)), p) == Working(identifier, s.now, s.now + ttl)
  {
  }

  /** A job that ends within its lease hands the lock over: once the release has run, any idle process gets it. */
  lemma ReleaseHandsOver(events: seq<Event>, p: nat, q: nat, identifier: nat, ttl: nat)
    requires Leased(Run(events), p) && p != q
    requires PhaseOf(Run(events), q) == Idle && identifier !in Run(events).used
    ensures var s := Step(Step(Run(events), JobEnds(p)), Release(p, true));
      && PhaseOf(s, p) == Idle
      && PhaseOf(Step(s, Acquire(q, identifier, ttl, true)), q) == Working(identifier, s.now, s.now + ttl)
  {
    RunOk(events);
  }
}
