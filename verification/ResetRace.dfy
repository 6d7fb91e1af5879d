/**
 * One user's logins, requests for a reset token and resets, with their database and Redis statements
 * interleaved. A login reads the user, and signs with the version it read. A request looks the user up,
 * signs a token, deletes the user's rows and inserts one. A reset verifies its token, reads the user's
 * version, looks the row up, deletes it, writes the user, and then the tombstones one by one. As in the
 * service, a token is fixed by the second in which it was signed.
 */
module ResetRace {
  import opened Wrappers
  import opened AuthSpec

  type Lifetime = n: nat | n > 0 witness 1

  /**
   * What is known of the callers and the deployment: how many requests and resets are in flight at most;
   * how many milliseconds lie at least between the arrivals of two requests for a token, and between
   * their signings; how many seconds a session lives; whether a reset can fail among its tombstones; and
   * whether a login can be under way while a reset writes the user.
   */
  datatype Policy = Policy(
    inFlight: nat, arrivals: nat, gap: nat, ttl: Lifetime, lateFaults: bool, loginsSpan: bool)

  datatype LiveRow = LiveRow(id: nat, expiresAt: nat)

  datatype Phase =
    | Arrived
    | Signed(token: nat)
    | Requesting(token: nat)
    | Verified(token: nat)
    | Looking(token: nat, version: nat)
    | Found(token: nat, row: LiveRow, version: nat)
    | Consumed(token: nat, version: nat)
    | Blocking(version: nat, from: nat)

  /** `changes` counts the password changes that came before the session was signed. */
  datatype Session = Session(version: nat, iat: nat, exp: nat, changes: nat)

  /**
   * `rows` has the live tokens, which the table keeps unique; `logins` the version each login under way
   * has read; `arrival` and `last` are when the latest request arrived and when the latest was signed.
   */
  datatype Account = Account(
    now: nat, version: nat, rows: map<nat, LiveRow>, nextRow: nat, busy: map<nat, Phase>,
    arrival: Option<nat>, last: Option<nat>, signed: set<nat>, tombstones: map<nat, nat>,
    changes: seq<nat>, logins: map<nat, nat>, sessions: seq<Session>)

  datatype Event =
    | Elapse(ms: nat)
    | BeginLogin(p: nat)
    | EndLogin(p: nat)
    | FailLogin(p: nat)
    | BeginRequest(p: nat)
    | Sign(p: nat)
    | Delete(p: nat)
    | Insert(p: nat)
    | BeginReset(p: nat, token: nat)
    | ReadUser(p: nat)
    | FindToken(p: nat)
    | Consume(p: nat)
    | Write(p: nat)
    | Block(p: nat)
    | Fail(p: nat)  // an error ends the request where it stands

  predicate Free(c: Policy, s: Account, p: nat) {
    p !in s.busy && |s.busy| < c.inFlight
  }

  predicate Apart(before: Option<nat>, now: nat, gap: nat) {
    before.None? || now >= before.value + gap
  }

  function PhaseOf(s: Account, p: nat): Option<Phase> {
    if p in s.busy then Some(s.busy[p]) else None
  }

  function To(s: Account, p: nat, f: Phase): Account {
    s.(busy := s.busy[p := f])
  }

  function Ended(s: Account, p: nat): Account {
    s.(busy := s.busy - {p})
  }

  function WithoutRow(rows: map<nat, LiveRow>, token: nat, row: LiveRow): map<nat, LiveRow> {
    if token in rows && rows[token].id == row.id then rows - {token} else rows
  }

  function LoginStep(c: Policy, s: Account, e: Event): Account {
    match e
    case BeginLogin(p) => if p in s.logins then s else s.(logins := s.logins[p := s.version])
    case EndLogin(p) =>
      if p !in s.logins then s
      else
        var x := Session(s.logins[p], s.now / 1000, s.now / 1000 + c.ttl, |s.changes|);
        s.(logins := s.logins - {p}, sessions := s.sessions + [x])
    case FailLogin(p) => s.(logins := s.logins - {p})
    case _ => s
  }

  function RequestStep(c: Policy, s: Account, e: Event): Account {
    match e
    case BeginRequest(p) =>
      if Free(c, s, p) && Apart(s.arrival, s.now, c.arrivals) then To(s, p, Arrived).(arrival := Some(s.now)) else s
    case Sign(p) =>
      if PhaseOf(s, p) == Some(Arrived) && Apart(s.last, s.now, c.gap)
      then To(s, p, Signed(s.now / 1000)).(last := Some(s.now), signed := s.signed + {s.now / 1000}) else s
    case Delete(p) =>
      (match PhaseOf(s, p)
       case Some(Signed(token)) => To(s, p, Requesting(token)).(rows := map[])
       case _ => s)
    case Insert(p) =>
      (match PhaseOf(s, p)
       case Some(Requesting(token)) =>
         if token in s.rows then Ended(s, p)  // the insert fails
         else
           var row := LiveRow(s.nextRow, s.now + RESET_SECONDS * 1000);
           Ended(s, p).(rows := s.rows[token := row], nextRow := s.nextRow + 1)
       case _ => s)
    case _ => s
  }

  function ResetStep(c: Policy, s: Account, e: Event): Account {
    match e
    case BeginReset(p, token) =>
      if Free(c, s, p) && token in s.signed && s.now / 1000 < token + RESET_SECONDS
      then To(s, p, Verified(token)) else s
    case ReadUser(p) =>
      (match PhaseOf(s, p)
       case Some(Verified(token)) => To(s, p, Looking(token, s.version))
       case _ => s)
    case FindToken(p) =>
      (match PhaseOf(s, p)
       case Some(Looking(token, version)) =>
         if token in s.rows then To(s, p, Found(token, s.rows[token], version)) else Ended(s, p)
       case _ => s)
    case Consume(p) =>
      (match PhaseOf(s, p)
       case Some(Found(token, row, version)) =>
         var n := s.(rows := WithoutRow(s.rows, token, row));
         if s.now > row.expiresAt then Ended(n, p) else To(n, p, Consumed(token, version))
       case _ => s)
    case Write(p) =>
      (match PhaseOf(s, p)
       case Some(Consumed(token, version)) =>
         if s.logins != map[] && !c.loginsSpan then s
         else To(s, p, Blocking(version, 0)).(version := version + 1, changes := s.changes + [token])
       case _ => s)
    case Block(p) =>
      (match PhaseOf(s, p)
       case Some(Blocking(version, from)) =>
         var n := s.(tombstones := s.tombstones[from := s.now + SEVEN_DAYS * 1000]);
         if from >= version then Ended(n, p) else To(n, p, Blocking(version, from + 1))
       case _ => s)
    case _ => s
  }

  function Step(c: Policy, s: Account, e: Event): Account {
    match e
    case Elapse(ms) => s.(now := s.now + ms)
    case Fail(p) => if p in s.busy && (!s.busy[p].Blocking? || c.lateFaults) then Ended(s, p) else s
    case BeginLogin(_) => LoginStep(c, s, e)
    case EndLogin(_) => LoginStep(c, s, e)
    case FailLogin(_) => LoginStep(c, s, e)
    case BeginRequest(_) => RequestStep(c, s, e)
    case Sign(_) => RequestStep(c, s, e)
    case Delete(_) => RequestStep(c, s, e)
    case Insert(_) => RequestStep(c, s, e)
    case _ => ResetStep(c, s, e)
  }

  const NEW_ACCOUNT: Account :=
    Account(0, 0, map[], 0, map[], None, None, {}, map[], [], map[], [])

  function Run(c: Policy, events: seq<Event>): Account {
    if events == [] then NEW_ACCOUNT else Step(c, Run(c, events[..|events| - 1]), events[|events| - 1])
  }

  ghost predicate Reachable(c: Policy, s: Account) {
    exists events :: Run(c, events) == s
  }

  lemma Reach(c: Policy, s: Account, e: Event, n: Account)
    requires Reachable(c, s) && Step(c, s, e) == n
    ensures Reachable(c, n)
  {
    var events :| Run(c, events) == s;
    assert (events + [e])[..|events|] == events;
    assert Run(c, events + [e]) == n;
  }

  predicate IsLogin(e: Event) {
    e.BeginLogin? || e.EndLogin? || e.FailLogin?
  }

  predicate IsRequest(e: Event) {
    e.BeginRequest? || e.Sign? || e.Delete? || e.Insert?
  }

  predicate IsReset(e: Event) {
    e.BeginReset? || e.ReadUser? || e.FindToken? || e.Consume? || e.Write? || e.Block?
  }

  lemma ReachLogin(c: Policy, s: Account, e: Event, n: Account)
    requires Reachable(c, s) && IsLogin(e) && LoginStep(c, s, e) == n
    ensures Reachable(c, n)
  {
    Reach(c, s, e, n);
  }

  lemma ReachRequest(c: Policy, s: Account, e: Event, n: Account)
    requires Reachable(c, s) && IsRequest(e) && RequestStep(c, s, e) == n
    ensures Reachable(c, n)
  {
    Reach(c, s, e, n);
  }

  lemma ReachReset(c: Policy, s: Account, e: Event, n: Account)
    requires Reachable(c, s) && IsReset(e) && ResetStep(c, s, e) == n
    ensures Reachable(c, n)
  {
    Reach(c, s, e, n);
  }

  lemma ReachNew(c: Policy)
    ensures Reachable(c, NEW_ACCOUNT)
  {
    assert Run(c, []) == NEW_ACCOUNT;
  }

  // What each operation does when it runs alone

  /** A login that nothing interrupts opens one session, of the present version. */
  lemma AloneLogin(c: Policy, s: Account, p: nat)
    requires p !in s.logins
    ensures var n := Step(c, Step(c, s, BeginLogin(p)), EndLogin(p));
      n == s.(sessions := s.sessions + [Session(s.version, s.now / 1000, s.now / 1000 + c.ttl, |s.changes|)])
  {
    assert s.logins[p := s.version] - {p} == s.logins;
  }

  /** A request that nothing interrupts leaves its own token's row alone, for fifteen minutes. */
  lemma AloneRequest(c: Policy, s: Account, p: nat)
    requires Free(c, s, p) && Apart(s.arrival, s.now, c.arrivals) && Apart(s.last, s.now, c.gap)
    ensures var n := Step(c, Step(c, Step(c, Step(c, s, BeginRequest(p)), Sign(p)), Delete(p)), Insert(p));
      n == s.(rows := map[s.now / 1000 := LiveRow(s.nextRow, s.now + RESET_SECONDS * 1000)], nextRow := s.nextRow + 1,
              arrival := Some(s.now), last := Some(s.now), signed := s.signed + {s.now / 1000})
  {
    var b := SignedAlone(s, p);
    AloneSigns(c, s, p);
    AloneStores(c, b, p);
    assert b.busy[p := Requesting(b.now / 1000)] - {p} == s.busy;
  }

  function SignedAlone(s: Account, p: nat): Account {
    s.(busy := s.busy[p := Signed(s.now / 1000)], arrival := Some(s.now), last := Some(s.now),
       signed := s.signed + {s.now / 1000})
  }

  lemma AloneSigns(c: Policy, s: Account, p: nat)
    requires Free(c, s, p) && Apart(s.arrival, s.now, c.arrivals) && Apart(s.last, s.now, c.gap)
    ensures Step(c, Step(c, s, BeginRequest(p)), Sign(p)) == SignedAlone(s, p)
  {
    var a := To(s, p, Arrived).(arrival := Some(s.now));
    assert Step(c, s, BeginRequest(p)) == a;
    assert s.busy[p := Arrived][p := Signed(s.now / 1000)] == s.busy[p := Signed(s.now / 1000)];
  }

  lemma AloneStores(c: Policy, b: Account, p: nat)
    requires PhaseOf(b, p) == Some(Signed(b.now / 1000))
    ensures Step(c, Step(c, b, Delete(p)), Insert(p))
      == b.(rows := map[b.now / 1000 := LiveRow(b.nextRow, b.now + RESET_SECONDS * 1000)], nextRow := b.nextRow + 1,
            busy := b.busy[p := Requesting(b.now / 1000)] - {p})
  {
    var d := To(b, p, Requesting(b.now / 1000)).(rows := map[]);
    assert Step(c, b, Delete(p)) == d;
  }

  /**
   * A reset that nothing interrupts, and that takes some time over its lookups, changes the password
   * exactly when its token was signed, is within its lifetime and has a row that has not expired by then.
   */
  lemma AloneReset(c: Policy, s: Account, p: nat, token: nat, delay: nat)
    requires Free(c, s, p) && (s.logins == map[] || c.loginsSpan)
    ensures var looking := Step(c, Step(c, Step(c, s, BeginReset(p, token)), ReadUser(p)), Elapse(delay));
      var n := Step(c, Step(c, Step(c, looking, FindToken(p)), Consume(p)), Write(p));
      if token in s.signed && s.now / 1000 < token + RESET_SECONDS && token in s.rows
         && s.now + delay <= s.rows[token].expiresAt
      then n.changes == s.changes + [token] && n.version == s.version + 1 && n.rows == s.rows - {token}
      else n.changes == s.changes && n.version == s.version
  {
    AloneLooks(c, s, p, token, delay);
    if token in s.signed && s.now / 1000 < token + RESET_SECONDS {
      AloneConsumes(c, To(s, p, Looking(token, s.version)).(now := s.now + delay), p, token);
    } else {
      NotUnderWay(c, s.(now := s.now + delay), p);
    }
  }

  lemma AloneLooks(c: Policy, s: Account, p: nat, token: nat, delay: nat)
    requires Free(c, s, p)
    ensures Step(c, Step(c, Step(c, s, BeginReset(p, token)), ReadUser(p)), Elapse(delay))
      == if token in s.signed && s.now / 1000 < token + RESET_SECONDS
         then To(s, p, Looking(token, s.version)).(now := s.now + delay) else s.(now := s.now + delay)
  {
    assert s.busy[p := Verified(token)][p := Looking(token, s.version)] == s.busy[p := Looking(token, s.version)];
  }

  lemma NotUnderWay(c: Policy, s: Account, p: nat)
    requires p !in s.busy
    ensures Step(c, Step(c, Step(c, s, FindToken(p)), Consume(p)), Write(p)) == s
  {
  }

  lemma AloneConsumes(c: Policy, b: Account, p: nat, token: nat)
    requires PhaseOf(b, p) == Some(Looking(token, b.version)) && (b.logins == map[] || c.loginsSpan)
    ensures var n := Step(c, Step(c, Step(c, b, FindToken(p)), Consume(p)), Write(p));
      if token in b.rows && b.now <= b.rows[token].expiresAt
      then n.changes == b.changes + [token] && n.version == b.version + 1 && n.rows == b.rows - {token}
      else n.changes == b.changes && n.version == b.version
  {
    if token in b.rows {
      var d := To(b, p, Found(token, b.rows[token], b.version));
      assert Step(c, b, FindToken(p)) == d;
      AloneWrites(c, d, p, token);
    }
  }

  lemma AloneWrites(c: Policy, d: Account, p: nat, token: nat)
    requires token in d.rows && PhaseOf(d, p) == Some(Found(token, d.rows[token], d.version))
    requires d.logins == map[] || c.loginsSpan
    ensures var n := Step(c, Step(c, d, Consume(p)), Write(p));
      if d.now <= d.rows[token].expiresAt
      then n.changes == d.changes + [token] && n.version == d.version + 1 && n.rows == d.rows - {token}
      else n.changes == d.changes && n.version == d.version
  {
    var e := Step(c, d, Consume(p));
    if d.now <= d.rows[token].expiresAt {
      assert e == To(d.(rows := d.rows - {token}), p, Consumed(token, d.version));
    } else {
      assert p !in e.busy;
    }
  }

  // The two promises

  /** Every token changed the password at most once, one row at most is live, each reset made a new version. */
  ghost predicate TokensSafe(s: Account) {
    && (forall i, j :: 0 <= i < j < |s.changes| ==> s.changes[i] != s.changes[j])
    && (forall t, u :: t in s.rows && u in s.rows ==> t == u)
    && s.version == |s.changes|
  }

  predicate Blocked(s: Account, version: nat) {
    version in s.tombstones && s.now < s.tombstones[version]
  }

  ghost predicate Settled(s: Account) {
    forall p :: p in s.busy ==> !s.busy[p].Blocking?
  }

  /** Once no reset is among its tombstones, sessions older than a reset are dead, later ones not revoked. */
  ghost predicate SessionsSafe(s: Account) {
    forall x :: x in s.sessions ==>
      if x.changes < |s.changes| then Settled(s) ==> s.now / 1000 >= x.exp || Blocked(s, x.version)
      else !Blocked(s, x.version)
  }

  // One request at a time

  ghost predicate SerialOk(s: Account) {
    && (forall p, q :: p in s.busy && q in s.busy ==> p == q)
    && s.version == |s.changes|
    && (forall p :: p in s.busy ==> InStep(s, s.busy[p]))
  }

  predicate InStep(s: Account, f: Phase) {
    match f
    case Looking(_, version) => version == s.version
    case Found(_, _, version) => version == s.version
    case Consumed(_, version) => version == s.version
    case Blocking(version, from) => version + 1 == s.version && from <= version
    case _ => true
  }

  lemma NoneBusy(c: Policy, s: Account, p: nat)
    requires c.inFlight <= 1 && Free(c, s, p)
    ensures s.busy == map[]
  {
    assert |s.busy| == 0;
  }

  lemma SerialRequest(c: Policy, s: Account, e: Event)
    requires c.inFlight <= 1 && SerialOk(s) && IsRequest(e)
    ensures SerialOk(RequestStep(c, s, e))
  {
    if e.BeginRequest? && Free(c, s, e.p) {
      NoneBusy(c, s, e.p);
    }
  }

  lemma SerialReset(c: Policy, s: Account, e: Event)
    requires c.inFlight <= 1 && SerialOk(s) && IsReset(e)
    ensures SerialOk(ResetStep(c, s, e))
  {
    if e.BeginReset? && Free(c, s, e.p) {
      NoneBusy(c, s, e.p);
    }
  }

  lemma SerialOther(c: Policy, s: Account, e: Event)
    requires SerialOk(s) && !IsRequest(e) && !IsReset(e)
    ensures SerialOk(Step(c, s, e))
  {
  }

  lemma SerialStep(c: Policy, s: Account, e: Event)
    requires c.inFlight <= 1 && SerialOk(s)
    ensures SerialOk(Step(c, s, e))
  {
    if IsRequest(e) {
      SerialRequest(c, s, e);
    } else if IsReset(e) {
      SerialReset(c, s, e);
    } else {
      SerialOther(c, s, e);
    }
  }

  /** Tokens come from seconds no later than the last signing, and are spent only by a change. */
  ghost predicate FreshTokens(s: Account) {
    && (s.last.Some? ==> s.last.value <= s.now)
    && (forall t :: t in s.signed ==> s.last.Some? && t <= s.last.value / 1000)
    && (forall t :: t in s.changes ==> t in s.signed)
    && (forall t :: t in s.rows ==> t in s.signed && t !in s.changes)
    && (forall t, u :: t in s.rows && u in s.rows ==> t == u)
    && (forall i, j :: 0 <= i < j < |s.changes| ==> s.changes[i] != s.changes[j])
    && (forall p :: p in s.busy ==> Unspent(s, s.busy[p]))
  }

  predicate Unspent(s: Account, f: Phase) {
    match f
    case Signed(token) => token in s.signed && token !in s.changes
    case Requesting(token) => s.rows == map[] && token in s.signed && token !in s.changes
    case Found(token, row, _) => token in s.rows && s.rows[token] == row
    case Consumed(token, _) => s.rows == map[] && token in s.signed && token !in s.changes
    case _ => true
  }

  lemma FreshSign(c: Policy, s: Account, e: Event)
    requires c.gap >= 1000 && SerialOk(s) && FreshTokens(s) && e.Sign?
    ensures FreshTokens(Step(c, s, e))
  {
    var n := Step(c, s, e);
    if n != s {
      assert forall t :: t in s.signed ==> t < s.now / 1000;
      assert s.now / 1000 !in s.changes;
    }
  }

  lemma FreshRequest(c: Policy, s: Account, e: Event)
    requires c.inFlight <= 1 && SerialOk(s) && FreshTokens(s) && IsRequest(e) && !e.Sign?
    ensures FreshTokens(RequestStep(c, s, e))
  {
    if e.BeginRequest? && Free(c, s, e.p) {
      NoneBusy(c, s, e.p);
    }
  }

  lemma FreshReset(c: Policy, s: Account, e: Event)
    requires c.inFlight <= 1 && SerialOk(s) && FreshTokens(s) && IsReset(e) && !e.Consume? && !e.Write?
    ensures FreshTokens(ResetStep(c, s, e))
  {
    if e.BeginReset? && Free(c, s, e.p) {
      NoneBusy(c, s, e.p);
    }
  }

  lemma FreshConsume(c: Policy, s: Account, e: Event)
    requires SerialOk(s) && FreshTokens(s) && e.Consume?
    ensures FreshTokens(ResetStep(c, s, e))
  {
    if e.p in s.busy && s.busy[e.p].Found? {
      assert ResetStep(c, s, e).rows == map[];
    }
  }

  lemma FreshWrite(c: Policy, s: Account, e: Event)
    requires SerialOk(s) && FreshTokens(s) && e.Write?
    ensures FreshTokens(ResetStep(c, s, e))
  {
  }

  lemma FreshOther(c: Policy, s: Account, e: Event)
    requires FreshTokens(s) && !IsRequest(e) && !IsReset(e)
    ensures FreshTokens(Step(c, s, e))
  {
  }

  lemma FreshStep(c: Policy, s: Account, e: Event)
    requires c.inFlight <= 1 && c.gap >= 1000 && SerialOk(s) && FreshTokens(s)
    ensures FreshTokens(Step(c, s, e))
  {
    if e.Sign? {
      FreshSign(c, s, e);
    } else if IsRequest(e) {
      FreshRequest(c, s, e);
    } else if e.Consume? {
      FreshConsume(c, s, e);
    } else if e.Write? {
      FreshWrite(c, s, e);
    } else if IsReset(e) {
      FreshReset(c, s, e);
    } else {
      FreshOther(c, s, e);
    }
  }

  lemma {:induction false} FreshRun(c: Policy, events: seq<Event>)
    requires c.inFlight <= 1 && c.gap >= 1000
    ensures SerialOk(Run(c, events)) && FreshTokens(Run(c, events))
  {
    if events != [] {
      var before, e := events[..|events| - 1], events[|events| - 1];
      FreshRun(c, before);
      SerialStep(c, Run(c, before), e);
      FreshStep(c, Run(c, before), e);
    }
  }

  /** A tombstone outlives every session of its version by the time the session was still young. */
  ghost predicate SessionsOk(c: Policy, s: Account) {
    && (forall x :: x in s.sessions ==>
          && x.version == x.changes <= s.version && x.iat <= s.now / 1000 && x.exp == x.iat + c.ttl
          && (x.version in s.tombstones ==> s.tombstones[x.version] >= (x.iat + SEVEN_DAYS) * 1000))
    && (forall v :: v in s.tombstones ==> v < s.version)
    && (forall v: nat :: v < s.version && v !in s.tombstones ==> exists p :: p in s.busy && Awaited(s.busy[p], v))
    && (forall p :: p in s.logins ==> s.logins[p] == s.version)
  }

  /** A reset that has yet to write this version's tombstone. */
  predicate Awaited(f: Phase, v: nat) {
    f.Blocking? && f.from <= v
  }

  lemma BlockAwaits(c: Policy, s: Account, e: Event, v: nat)
    requires SerialOk(s) && SessionsOk(c, s) && e.Block?
    requires v < s.version && e.p in s.busy && v !in ResetStep(c, s, e).tombstones
    ensures e.p in ResetStep(c, s, e).busy && Awaited(ResetStep(c, s, e).busy[e.p], v)
  {
    var p :| p in s.busy && Awaited(s.busy[p], v);
    assert p == e.p;
  }

  lemma SessionsBlock(c: Policy, s: Account, e: Event)
    requires SerialOk(s) && SessionsOk(c, s) && e.Block?
    ensures SessionsOk(c, Step(c, s, e))
  {
    var n := Step(c, s, e);
    if n != s {
      forall v: nat | v < n.version && v !in n.tombstones ensures exists p :: p in n.busy && Awaited(n.busy[p], v) {
        BlockAwaits(c, s, e, v);
      }
      forall x | x in n.sessions && x.version in n.tombstones
        ensures n.tombstones[x.version] >= (x.iat + SEVEN_DAYS) * 1000
      {
        assert x in s.sessions;
      }
    }
  }

  lemma SessionsWrite(c: Policy, s: Account, e: Event)
    requires SerialOk(s) && SessionsOk(c, s) && e.Write? && !c.loginsSpan
    ensures SessionsOk(c, Step(c, s, e))
  {
    var n := Step(c, s, e);
    if n != s {
      assert n.version == s.version + 1 && n.busy[e.p] == Blocking(s.version, 0);
      assert e.p in n.busy && forall v: nat :: Awaited(n.busy[e.p], v);
    }
  }

  lemma SessionsLogin(c: Policy, s: Account, e: Event)
    requires SerialOk(s) && SessionsOk(c, s) && IsLogin(e)
    ensures SessionsOk(c, Step(c, s, e))
  {
    var n := Step(c, s, e);
    assert n.busy == s.busy && n.tombstones == s.tombstones && n.version == s.version;
  }

  /** Sessions, versions and tombstones are left alone, and so are resets that write tombstones. */
  ghost predicate LeavesSessions(s: Account, n: Account) {
    SameSessions(s, n) && forall p :: StaysBlocking(s, n, p)
  }

  predicate SameSessions(s: Account, n: Account) {
    && n.sessions == s.sessions && n.version == s.version && n.tombstones == s.tombstones
    && n.logins == s.logins && n.now >= s.now
  }

  predicate StaysBlocking(s: Account, n: Account, p: nat) {
    PhaseOf(s, p).Some? && PhaseOf(s, p).value.Blocking? ==> PhaseOf(n, p) == PhaseOf(s, p)
  }

  lemma RequestStays(c: Policy, s: Account, e: Event, p: nat)
    requires IsRequest(e)
    ensures StaysBlocking(s, RequestStep(c, s, e), p)
  {
  }

  lemma RequestLeaves(c: Policy, s: Account, e: Event)
    requires IsRequest(e)
    ensures LeavesSessions(s, RequestStep(c, s, e))
  {
    forall p ensures StaysBlocking(s, RequestStep(c, s, e), p) {
      RequestStays(c, s, e, p);
    }
  }

  lemma ResetStays(c: Policy, s: Account, e: Event, p: nat)
    requires IsReset(e) && !e.Block? && !e.Write?
    ensures StaysBlocking(s, ResetStep(c, s, e), p)
  {
  }

  lemma LookupSame(c: Policy, s: Account, e: Event)
    requires e.BeginReset? || e.ReadUser?
    ensures SameSessions(s, ResetStep(c, s, e))
  {
  }

  lemma FindSame(c: Policy, s: Account, p: nat)
    ensures SameSessions(s, ResetStep(c, s, FindToken(p)))
  {
  }

  lemma ConsumeSame(c: Policy, s: Account, p: nat)
    ensures SameSessions(s, ResetStep(c, s, Consume(p)))
  {
  }

  lemma ResetLeaves(c: Policy, s: Account, e: Event)
    requires IsReset(e) && !e.Block? && !e.Write?
    ensures LeavesSessions(s, ResetStep(c, s, e))
  {
    if e.Consume? {
      ConsumeSame(c, s, e.p);
    } else if e.FindToken? {
      FindSame(c, s, e.p);
    } else {
      LookupSame(c, s, e);
    }
    forall p ensures StaysBlocking(s, ResetStep(c, s, e), p) {
      ResetStays(c, s, e, p);
    }
  }

  lemma SessionsFrame(c: Policy, s: Account, n: Account)
    requires SessionsOk(c, s) && LeavesSessions(s, n)
    ensures SessionsOk(c, n)
  {
    forall v: nat | v < n.version && v !in n.tombstones ensures exists p :: p in n.busy && Awaited(n.busy[p], v) {
      var p :| p in s.busy && Awaited(s.busy[p], v);
      assert StaysBlocking(s, n, p);
      assert p in n.busy && Awaited(n.busy[p], v);
    }
  }

  lemma SessionsOther(c: Policy, s: Account, e: Event)
    requires !c.lateFaults && SessionsOk(c, s) && !e.Block? && !e.Write? && !IsLogin(e)
    ensures SessionsOk(c, Step(c, s, e))
  {
    if IsRequest(e) {
      RequestLeaves(c, s, e);
    } else if IsReset(e) {
      ResetLeaves(c, s, e);
    }
    SessionsFrame(c, s, Step(c, s, e));
  }

  lemma SessionsStep(c: Policy, s: Account, e: Event)
    requires c.inFlight <= 1 && !c.lateFaults && !c.loginsSpan && SerialOk(s) && SessionsOk(c, s)
    ensures SessionsOk(c, Step(c, s, e))
  {
    match e
    case Block(_) => SessionsBlock(c, s, e);
    case Write(_) => SessionsWrite(c, s, e);
    case BeginLogin(_) => SessionsLogin(c, s, e);
    case EndLogin(_) => SessionsLogin(c, s, e);
    case FailLogin(_) => SessionsLogin(c, s, e);
    case _ => SessionsOther(c, s, e);
  }

  lemma {:induction false} SessionsRun(c: Policy, events: seq<Event>)
    requires c.inFlight <= 1 && !c.lateFaults && !c.loginsSpan
    ensures SerialOk(Run(c, events)) && SessionsOk(c, Run(c, events))
  {
    if events != [] {
      var before, e := events[..|events| - 1], events[|events| - 1];
      SessionsRun(c, before);
      SerialStep(c, Run(c, before), e);
      SessionsStep(c, Run(c, before), e);
    }
  }

  lemma SessionsAreSafe(c: Policy, s: Account)
    requires SessionsOk(c, s) && SerialOk(s) && c.ttl <= SEVEN_DAYS
    ensures SessionsSafe(s)
  {
    forall x | x in s.sessions && x.changes < |s.changes| && Settled(s)
      ensures s.now / 1000 >= x.exp || Blocked(s, x.version)
    {
      assert x.version in s.tombstones;
      if s.now >= (x.iat + SEVEN_DAYS) * 1000 {
        assert s.now / 1000 >= x.iat + SEVEN_DAYS;
      }
    }
  }

  /** Nothing but time and logins. */
  ghost predicate Quiet(s: Account) {
    && s.busy == map[] && s.rows == map[] && s.changes == [] && s.version == 0 && s.tombstones == map[]
    && (forall x :: x in s.sessions ==> x.changes == 0)
  }

  lemma QuietStep(c: Policy, s: Account, e: Event)
    requires c.inFlight == 0 && Quiet(s)
    ensures Quiet(Step(c, s, e))
  {
  }

  lemma {:induction false} QuietForever(c: Policy, events: seq<Event>)
    requires c.inFlight == 0
    ensures Quiet(Run(c, events))
  {
    if events != [] {
      QuietForever(c, events[..|events| - 1]);
      QuietStep(c, Run(c, events[..|events| - 1]), events[|events| - 1]);
    }
  }

  // What goes wrong otherwise. However far apart requests must arrive, the first can wait in its lookup
  // until then and be signed with the second.

  /** When the first request is signed, in the second numbered as the gap between arrivals. */
  function SignedAt(c: Policy): nat {
    c.arrivals * 1000
  }

  /** One session and one live token, both of that second. */
  ghost function OneToken(c: Policy): Account {
    var a := c.arrivals;
    Account(SignedAt(c), 0, map[a := LiveRow(0, SignedAt(c) + RESET_SECONDS * 1000)], 1, map[],
            Some(0), Some(SignedAt(c)), {a}, map[], [], map[], [Session(0, a, a + c.ttl, 0)])
  }

  /** A login that meets no other and takes no time. */
  lemma SignsIn(c: Policy, s: Account, n: Account)
    requires Reachable(c, s) && s.logins == map[]
    requires n == s.(sessions := s.sessions + [Session(s.version, s.now / 1000, s.now / 1000 + c.ttl, |s.changes|)])
    ensures Reachable(c, n)
  {
    var a := s.(logins := map[9 := s.version]);
    ReachLogin(c, s, BeginLogin(9), a);
    assert a.logins - {9} == map[];
    ReachLogin(c, a, EndLogin(9), n);
  }

  lemma WaitsReachable(c: Policy, s: Account)
    requires c.inFlight >= 1
    requires s == NEW_ACCOUNT.(now := SignedAt(c), arrival := Some(0), busy := map[1 := Arrived])
    ensures Reachable(c, s)
  {
    ReachNew(c);
    var a := NEW_ACCOUNT.(arrival := Some(0), busy := map[1 := Arrived]);
    ReachRequest(c, NEW_ACCOUNT, BeginRequest(1), a);
    Reach(c, a, Elapse(SignedAt(c)), s);
  }

  lemma ArrivedReachable(c: Policy, s: Account)
    requires c.inFlight >= 1
    requires s == NEW_ACCOUNT.(now := SignedAt(c), arrival := Some(0), busy := map[1 := Arrived],
                               sessions := [Session(0, c.arrivals, c.arrivals + c.ttl, 0)])
    ensures Reachable(c, s)
  {
    var b := s.(sessions := []);
    WaitsReachable(c, b);
    SignsIn(c, b, s);
  }

  lemma OneTokenReachable(c: Policy)
    requires c.inFlight >= 1
    ensures Reachable(c, OneToken(c))
  {
    var s := NEW_ACCOUNT.(now := SignedAt(c), arrival := Some(0), busy := map[1 := Arrived],
                          sessions := [Session(0, c.arrivals, c.arrivals + c.ttl, 0)]);
    ArrivedReachable(c, s);
    var a := s.(busy := map[1 := Signed(c.arrivals)], last := Some(SignedAt(c)), signed := {c.arrivals});
    ReachRequest(c, s, Sign(1), a);
    StoresRow(c, a, OneToken(c));
  }

  /** A signed request deletes the rows and inserts its own. */
  lemma StoresRow(c: Policy, a: Account, n: Account)
    requires Reachable(c, a) && a.busy == map[1 := Signed(c.arrivals)]
    requires n == a.(rows := map[c.arrivals := LiveRow(a.nextRow, a.now + RESET_SECONDS * 1000)],
                     nextRow := a.nextRow + 1, busy := map[])
    ensures Reachable(c, n)
  {
    var b := a.(rows := map[], busy := map[1 := Requesting(c.arrivals)]);
    ReachRequest(c, a, Delete(1), b);
    InsertsRow(c, b, n);
  }

  lemma InsertsRow(c: Policy, b: Account, n: Account)
    requires Reachable(c, b) && b.busy == map[1 := Requesting(c.arrivals)] && b.rows == map[]
    requires n == b.(rows := map[c.arrivals := LiveRow(b.nextRow, b.now + RESET_SECONDS * 1000)],
                     nextRow := b.nextRow + 1, busy := map[])
    ensures Reachable(c, n)
  {
    ReachRequest(c, b, Insert(1), n);
  }

  /** A state in which a reset with this token, all within the present moment, goes through. */
  predicate CanReset(c: Policy, s: Account, token: nat) {
    && c.inFlight >= 1 && s.busy == map[] && s.rows.Keys == {token} && token in s.signed
    && s.now / 1000 == token && s.now <= s.rows[token].expiresAt && (s.logins == map[] || c.loginsSpan)
  }

  lemma Verifies(c: Policy, s: Account, p: nat, token: nat)
    requires Reachable(c, s) && Free(c, s, p) && token in s.signed && s.now / 1000 == token
    ensures Reachable(c, To(s, p, Verified(token)))
  {
    ReachReset(c, s, BeginReset(p, token), To(s, p, Verified(token)));
  }

  lemma Reads(c: Policy, s: Account, p: nat, token: nat)
    requires Reachable(c, To(s, p, Verified(token)))
    ensures Reachable(c, To(s, p, Looking(token, s.version)))
  {
    assert To(To(s, p, Verified(token)), p, Looking(token, s.version)) == To(s, p, Looking(token, s.version));
    ReachReset(c, To(s, p, Verified(token)), ReadUser(p), To(s, p, Looking(token, s.version)));
  }

  lemma Finds(c: Policy, s: Account, p: nat, token: nat)
    requires Reachable(c, To(s, p, Looking(token, s.version))) && token in s.rows
    ensures Reachable(c, To(s, p, Found(token, s.rows[token], s.version)))
  {
    var a, b := To(s, p, Looking(token, s.version)), To(s, p, Found(token, s.rows[token], s.version));
    assert To(a, p, Found(token, s.rows[token], s.version)) == b;
    ReachReset(c, a, FindToken(p), b);
  }

  /** A reset gets as far as having found its row. */
  lemma ResetFinds(c: Policy, s: Account, p: nat, token: nat)
    requires Reachable(c, s) && Free(c, s, p) && token in s.signed && s.now / 1000 == token && token in s.rows
    ensures Reachable(c, To(s, p, Found(token, s.rows[token], s.version)))
  {
    Verifies(c, s, p, token);
    Reads(c, s, p, token);
    Finds(c, s, p, token);
  }

  lemma Consumes(c: Policy, s: Account, p: nat, token: nat, n: Account)
    requires token in s.rows && Reachable(c, To(s, p, Found(token, s.rows[token], s.version)))
    requires s.now <= s.rows[token].expiresAt
    requires n == To(s, p, Consumed(token, s.version)).(rows := s.rows - {token})
    ensures Reachable(c, n)
  {
    var a := To(s, p, Found(token, s.rows[token], s.version));
    assert To(a.(rows := s.rows - {token}), p, Consumed(token, s.version)) == n;
    ReachReset(c, a, Consume(p), n);
  }

  lemma ResetWrites(c: Policy, s: Account, token: nat, n: Account)
    requires Reachable(c, s) && CanReset(c, s, token)
    requires n == s.(rows := map[], version := s.version + 1, changes := s.changes + [token],
                     busy := map[1 := Blocking(s.version, 0)])
    ensures Reachable(c, n)
  {
    ResetFinds(c, s, 1, token);
    var a := To(s, 1, Consumed(token, s.version)).(rows := s.rows - {token});
    Consumes(c, s, 1, token, a);
    Writes(c, a, 1, token, n);
  }

  lemma Writes(c: Policy, a: Account, p: nat, token: nat, n: Account)
    requires Reachable(c, a) && PhaseOf(a, p) == Some(Consumed(token, a.version))
    requires a.logins == map[] || c.loginsSpan
    requires n == a.(version := a.version + 1, changes := a.changes + [token], busy := n.busy, rows := n.rows)
    requires n.rows == a.rows && n.busy == a.busy[p := Blocking(a.version, 0)]
    ensures Reachable(c, n)
  {
    ReachReset(c, a, Write(p), n);
  }

  /** The same session after one whole reset up to its tombstones. */
  ghost function OneReset(c: Policy): Account {
    OneToken(c).(version := 1, rows := map[], busy := map[1 := Blocking(0, 0)], changes := [c.arrivals])
  }

  lemma OneResetReachable(c: Policy)
    requires c.inFlight >= 1
    ensures Reachable(c, OneReset(c))
  {
    OneTokenReachable(c);
    ResetWrites(c, OneToken(c), c.arrivals, OneReset(c));
  }

  /** The same, with its tombstone, some time later. */
  ghost function ResetDone(c: Policy, wait: nat): Account {
    OneReset(c).(now := SignedAt(c) + wait, busy := map[], tombstones := map[0 := SignedAt(c) + SEVEN_DAYS * 1000])
  }

  lemma ResetDoneReachable(c: Policy, wait: nat)
    requires c.inFlight >= 1
    ensures Reachable(c, ResetDone(c, wait))
  {
    OneResetReachable(c);
    ReachReset(c, OneReset(c), Block(1), ResetDone(c, 0));
    Reach(c, ResetDone(c, 0), Elapse(wait), ResetDone(c, wait));
  }

  /** A second request, signed within the same second, signs the spent token anew. */
  lemma TokenAgain(c: Policy, s: Account)
    requires c.inFlight >= 1 && c.gap < 1000
    requires s == ResetDone(c, c.gap).(
      rows := map[c.arrivals := LiveRow(1, SignedAt(c) + c.gap + RESET_SECONDS * 1000)], nextRow := 2,
      arrival := Some(SignedAt(c) + c.gap), last := Some(SignedAt(c) + c.gap))
    ensures Reachable(c, s)
  {
    var now := SignedAt(c) + c.gap;
    var a := ResetDone(c, c.gap).(busy := map[1 := Arrived], arrival := Some(now));
    ArrivesAgain(c, a);
    assert now / 1000 == c.arrivals && {c.arrivals} + {now / 1000} == {c.arrivals};
    var b := a.(busy := map[1 := Signed(c.arrivals)], last := Some(now));
    ReachRequest(c, a, Sign(1), b);
    StoresRow(c, b, s);
  }

  lemma ArrivesAgain(c: Policy, a: Account)
    requires c.inFlight >= 1
    requires a == ResetDone(c, c.gap).(busy := map[1 := Arrived], arrival := Some(SignedAt(c) + c.gap))
    ensures Reachable(c, a)
  {
    ResetDoneReachable(c, c.gap);
    ReachRequest(c, ResetDone(c, c.gap), BeginRequest(1), a);
  }

  lemma QuickRequestReusesToken(c: Policy) returns (s: Account)
    requires c.inFlight >= 1 && c.gap < 1000
    ensures Reachable(c, s) && |s.changes| == 2 && s.changes[0] == s.changes[1]
  {
    var a := ResetDone(c, c.gap).(
      rows := map[c.arrivals := LiveRow(1, SignedAt(c) + c.gap + RESET_SECONDS * 1000)], nextRow := 2,
      arrival := Some(SignedAt(c) + c.gap), last := Some(SignedAt(c) + c.gap));
    TokenAgain(c, a);
    s := a.(rows := map[], version := 2, changes := [c.arrivals, c.arrivals], busy := map[1 := Blocking(1, 0)]);
    ResetWrites(c, a, c.arrivals, s);
  }

  /** Two resets that both look the row up before either deletes it. */
  ghost function BothFound(c: Policy): Account {
    var s := OneToken(c);
    var f := Found(c.arrivals, s.rows[c.arrivals], 0);
    s.(busy := map[1 := f, 2 := f])
  }

  lemma BothFoundReachable(c: Policy)
    requires c.inFlight >= 2
    ensures Reachable(c, BothFound(c))
  {
    var token, s := c.arrivals, OneToken(c);
    OneTokenReachable(c);
    ResetFinds(c, s, 1, token);
    var f := Found(token, s.rows[token], 0);
    var a := To(s, 1, f);
    assert a.busy == map[1 := f] && |map[1 := f]| == 1;
    ResetFinds(c, a, 2, token);
    assert To(a, 2, f) == BothFound(c);
  }

  ghost function BothConsumed(c: Policy): Account {
    OneToken(c).(rows := map[], busy := map[1 := Consumed(c.arrivals, 0), 2 := Consumed(c.arrivals, 0)])
  }

  lemma BothConsumedReachable(c: Policy)
    requires c.inFlight >= 2
    ensures Reachable(c, BothConsumed(c))
  {
    var s := OneToken(c);
    BothFoundReachable(c);
    var a := BothConsumed(c).(busy := BothFound(c).busy[1 := Consumed(c.arrivals, 0)]);
    assert s.rows - {c.arrivals} == map[];
    ReachReset(c, BothFound(c), Consume(1), a);
    ReachReset(c, a, Consume(2), BothConsumed(c));
  }

  /** The first of the two is through. */
  ghost function OneThrough(c: Policy): Account {
    OneToken(c).(version := 1, rows := map[], busy := map[2 := Consumed(c.arrivals, 0)],
                 tombstones := map[0 := SignedAt(c) + SEVEN_DAYS * 1000], changes := [c.arrivals])
  }

  lemma OneThroughReachable(c: Policy)
    requires c.inFlight >= 2
    ensures Reachable(c, OneThrough(c))
  {
    BothConsumedReachable(c);
    var a := BothConsumed(c);
    var b := a.(version := 1, changes := [c.arrivals],
                busy := map[1 := Blocking(0, 0), 2 := Consumed(c.arrivals, 0)]);
    ReachReset(c, a, Write(1), b);
    BlocksFirst(c, b, OneThrough(c));
  }

  lemma BlocksFirst(c: Policy, b: Account, n: Account)
    requires Reachable(c, b) && b.busy == map[1 := Blocking(0, 0), 2 := Consumed(c.arrivals, 0)]
    requires n == b.(busy := map[2 := Consumed(c.arrivals, 0)],
                     tombstones := b.tombstones[0 := b.now + SEVEN_DAYS * 1000])
    ensures Reachable(c, n)
  {
    ReachReset(c, b, Block(1), n);
  }

  /** The same, and a session is opened before the second writes. */
  ghost function SessionBetween(c: Policy): Account {
    var s := OneThrough(c);
    s.(sessions := s.sessions + [Session(1, c.arrivals, c.arrivals + c.ttl, 1)])
  }

  lemma SessionBetweenReachable(c: Policy)
    requires c.inFlight >= 2
    ensures Reachable(c, SessionBetween(c))
  {
    OneThroughReachable(c);
    SignsIn(c, OneThrough(c), SessionBetween(c));
  }

  /** Both go through, to the same version; a session opened in between survives the second. */
  lemma OverlapResetsTwice(c: Policy) returns (s: Account)
    requires c.inFlight >= 2
    ensures Reachable(c, s) && |s.changes| == 2 && s.changes[0] == s.changes[1] && s.version == 1
    ensures !SessionsSafe(s)
  {
    SessionBetweenReachable(c);
    var a := SessionBetween(c).(changes := [c.arrivals, c.arrivals], busy := map[2 := Blocking(0, 0)]);
    ReachReset(c, SessionBetween(c), Write(2), a);
    s := a.(busy := map[]);
    ReachReset(c, a, Block(2), s);
    var x := Session(1, c.arrivals, c.arrivals + c.ttl, 1);
    assert s.sessions[1] == x && x in s.sessions && Settled(s);
  }

  /** The session from before the reset, when the tombstone is never written or has had its time. */
  lemma SessionOutlivesReset(c: Policy) returns (s: Account)
    requires c.inFlight >= 1 && (c.lateFaults || c.ttl > SEVEN_DAYS)
    ensures Reachable(c, s) && !SessionsSafe(s)
  {
    if c.lateFaults {
      s := OneReset(c).(busy := map[]);
      OneResetReachable(c);
      Reach(c, OneReset(c), Fail(1), s);
    } else {
      s := ResetDone(c, SEVEN_DAYS * 1000);
      ResetDoneReachable(c, SEVEN_DAYS * 1000);
    }
    var x := Session(0, c.arrivals, c.arrivals + c.ttl, 0);
    assert s.sessions[0] == x && x in s.sessions && Settled(s);
  }

  lemma ResetUnderLogin(c: Policy, d: Account)
    requires c.inFlight >= 1 && c.loginsSpan && d == ResetDone(c, 0).(logins := map[9 := 0])
    ensures Reachable(c, d)
  {
    OneTokenReachable(c);
    var a := OneToken(c).(logins := map[9 := 0]);
    ReachLogin(c, OneToken(c), BeginLogin(9), a);
    var b := OneReset(c).(logins := map[9 := 0]);
    ResetWrites(c, a, c.arrivals, b);
    ReachReset(c, b, Block(1), d);
  }

  /** A login that read the user before a reset and signs after it: a later session, and yet revoked. */
  lemma LoginSpansReset(c: Policy) returns (s: Account)
    requires c.inFlight >= 1 && c.loginsSpan
    ensures Reachable(c, s) && !SessionsSafe(s)
  {
    var d := ResetDone(c, 0).(logins := map[9 := 0]);
    ResetUnderLogin(c, d);
    var x := Session(0, c.arrivals, c.arrivals + c.ttl, 1);
    s := ResetDone(c, 0).(sessions := d.sessions + [x]);
    assert d.logins - {9} == map[];
    ReachLogin(c, d, EndLogin(9), s);
    assert s.sessions[1] == x && x in s.sessions && Blocked(s, 0);
  }

  /**
   * Tokens are single-use, and each reset makes a new version, in every interleaving exactly when
   * requests and resets do not overlap and signings lie at least a second apart, or none is served. No
   * gap between arrivals makes up for the gap between signings.
   */
  lemma TokensSafeIff(c: Policy)
    ensures (forall events :: TokensSafe(Run(c, events)))
       <==> c.inFlight == 0 || (c.inFlight == 1 && c.gap >= 1000)
  {
    if c.inFlight == 0 || (c.inFlight == 1 && c.gap >= 1000) {
      forall events ensures TokensSafe(Run(c, events)) {
        if c.inFlight == 0 {
          QuietForever(c, events);
        } else {
          FreshRun(c, events);
        }
      }
    } else {
      var s: Account;
      if c.inFlight >= 2 {
        s := OverlapResetsTwice(c);
      } else {
        s := QuickRequestReusesToken(c);
      }
      var events :| Run(c, events) == s;
      assert !TokensSafe(Run(c, events));
    }
  }

  /**
   * Finished resets leave no older session alive, and revoke no newer one, in every interleaving exactly
   * when requests and resets do not overlap, no login is under way while a reset writes, no fault falls
   * among the tombstones, and sessions live no longer than tombstones do; or when none is served.
   */
  lemma SessionsSafeIff(c: Policy)
    ensures (forall events :: SessionsSafe(Run(c, events)))
       <==> || c.inFlight == 0
            || (c.inFlight == 1 && !c.loginsSpan && !c.lateFaults && c.ttl <= SEVEN_DAYS)
  {
    if c.inFlight == 0 || (c.inFlight == 1 && !c.loginsSpan && !c.lateFaults && c.ttl <= SEVEN_DAYS) {
      forall events ensures SessionsSafe(Run(c, events)) {
        if c.inFlight == 0 {
          QuietForever(c, events);
        } else {
          SessionsRun(c, events);
          SessionsAreSafe(c, Run(c, events));
        }
      }
    } else {
      var s: Account;
      if c.inFlight >= 2 {
        s := OverlapResetsTwice(c);
      } else if c.loginsSpan {
        s := LoginSpansReset(c);
      } else {
        s := SessionOutlivesReset(c);
      }
      var events :| Run(c, events) == s;
      assert !SessionsSafe(Run(c, events));
    }
  }
}
