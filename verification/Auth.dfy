/** Logins, two-factor logins and password resets, with signed tokens and Redis tombstones. */
module AuthSpec {
  import opened Wrappers

  const SEVEN_DAYS: nat := 7 * 24 * 60 * 60
  const TEMP_SECONDS: nat := 5 * 60
  const RESET_SECONDS: nat := 15 * 60

  /** A signed token is its payload: signing is deterministic, and times are whole seconds. */
  datatype Token =
    | Access(user: nat, version: nat, iat: nat, exp: nat)
    | Refresh(user: nat, version: nat, iat: nat, exp: nat)
    | Temp2FA(user: nat, iat: nat, exp: nat)
    | Reset(user: nat, iat: nat, exp: nat)

  datatype User = User(password: string, version: nat, twoFactor: bool)
  datatype Row = Row(id: nat, user: nat, token: Token, expiresAt: nat)

  /** Token lifetimes in seconds, from the environment. */
  datatype Config = Config(accessTtl: nat, refreshTtl: nat)

  /** `now` is in milliseconds; `signed` holds every token the service has signed. */
  datatype State = State(
    now: nat, users: map<nat, User>, rows: seq<Row>, nextRow: nat,
    tombstones: map<(nat, nat), nat>, signed: set<Token>)

  datatype Outcome =
    | Sessions(access: Token, refresh: Token)
    | NeedsOtp(temp: Token)
    | Done
    | Refused(status: nat)

  /** `delay` is how long a reset takes from verifying its token to checking the row's own expiry. */
  datatype Op =
    | Tick(elapsed: nat)
    | Register(user: nat, password: string)
    | Login(user: nat, password: string)
    | Verify2FA(token: Token, otpOk: bool)
    | SetTwoFactor(user: nat, enabled: bool, otpOk: bool)
    | ForgotPassword(user: nat)
    | ResetPassword(token: Token, newPassword: string, delay: nat)

  function Seconds(s: State): nat {
    s.now / 1000
  }

  predicate Expired(s: State, t: Token) {
    Seconds(s) >= t.exp
  }

  predicate VerifyJwt(s: State, t: Token) {
    t in s.signed && !Expired(s, t)
  }

  /** `isSessionRevoked`: a tombstone that has not itself expired. */
  predicate Revoked(s: State, user: nat, version: nat) {
    (user, version) in s.tombstones && s.now < s.tombstones[(user, version)]
  }

  function SignAccess(s: State, c: Config, user: nat, version: nat): Token {
    Access(user, version, Seconds(s), Seconds(s) + c.accessTtl)
  }

  function SignRefresh(s: State, c: Config, user: nat, version: nat): Token {
    Refresh(user, version, Seconds(s), Seconds(s) + c.refreshTtl)
  }

  function SignTemp(s: State, user: nat): Token {
    Temp2FA(user, Seconds(s), Seconds(s) + TEMP_SECONDS)
  }

  function SignReset(s: State, user: nat): Token {
    Reset(user, Seconds(s), Seconds(s) + RESET_SECONDS)
  }

  function OpenSession(s: State, c: Config, user: nat, version: nat): (State, Outcome) {
    var access, refresh := SignAccess(s, c, user, version), SignRefresh(s, c, user, version);
    (s.(signed := s.signed + {access, refresh}), Sessions(access, refresh))
  }

  function WithoutUser(rows: seq<Row>, user: nat): seq<Row> {
    if rows == [] then []
    else
      var last := rows[|rows| - 1];
      WithoutUser(rows[..|rows| - 1], user) + (if last.user != user then [last] else [])
  }

  function WithoutRow(rows: seq<Row>, id: nat): seq<Row> {
    if rows == [] then []
    else
      var last := rows[|rows| - 1];
      WithoutRow(rows[..|rows| - 1], id) + (if last.id != id then [last] else [])
  }

  function FindRow(rows: seq<Row>, user: nat, token: Token): Option<Row> {
    if rows == [] then None
    else if rows[0].user == user && rows[0].token == token then Some(rows[0])
    else FindRow(rows[1..], user, token)
  }

  /** Tombstones for versions 0 to `last`. */
  function Blocked(tombstones: map<(nat, nat), nat>, user: nat, last: nat, until: nat): map<(nat, nat), nat> {
    var before := if last == 0 then tombstones else Blocked(tombstones, user, last - 1, until);
    before[(user, last) := until]
  }

  function Forget(s: State, user: nat): State {
    var token := SignReset(s, user);
    var row := Row(s.nextRow, user, token, s.now + RESET_SECONDS * 1000);
    s.(rows := WithoutUser(s.rows, user) + [row], nextRow := s.nextRow + 1, signed := s.signed + {token})
  }

  /** What a reset does once its token has been verified and its row found. */
  function Consume(s: State, user: nat, row: Row, newPassword: string, delay: nat): (State, Outcome)
    requires user in s.users
  {
    var consumed := s.(now := s.now + delay, rows := WithoutRow(s.rows, row.id));
    if consumed.now > row.expiresAt then (consumed, Refused(400))
    else
      var account := s.users[user];
      (consumed.(
         users := s.users[user := account.(password := newPassword, version := account.version + 1)],
         tombstones := Blocked(s.tombstones, user, account.version, consumed.now + SEVEN_DAYS * 1000)), Done)
  }

  function Apply(s: State, c: Config, op: Op): (State, Outcome) {
    match op
    case Tick(elapsed) => (s.(now := s.now + elapsed), Done)
    case Register(user, password) =>
      if user in s.users then (s, Refused(409))
      else (s.(users := s.users[user := User(password, 0, false)]), Done)
    case Login(user, password) =>
      if user !in s.users || s.users[user].password != password then (s, Refused(401))
      else if s.users[user].twoFactor then (s.(signed := s.signed + {SignTemp(s, user)}), NeedsOtp(SignTemp(s, user)))
      else OpenSession(s, c, user, s.users[user].version)
    case Verify2FA(token, otpOk) =>
      if !VerifyJwt(s, token) || !token.Temp2FA? then (s, Refused(401))
      else if token.user !in s.users || !s.users[token.user].twoFactor then (s, Refused(401))
      else if !otpOk then (s, Refused(401))
      else OpenSession(s, c, token.user, s.users[token.user].version)
    case SetTwoFactor(user, enabled, otpOk) =>
      if user !in s.users then (s, Refused(404))
      else if s.users[user].twoFactor == enabled then (s, Refused(400))
      else if !otpOk then (s, Refused(401))
      else (s.(users := s.users[user := s.users[user].(twoFactor := enabled)]), Done)
    case ForgotPassword(user) => (if user !in s.users then s else Forget(s, user), Done)
    case ResetPassword(token, newPassword, delay) =>
      if !VerifyJwt(s, token) || !token.Reset? then (s, Refused(400))
      else if token.user !in s.users then (s, Refused(400))
      else
        var found := FindRow(s.rows, token.user, token);
        if found.None? then (s, Refused(400))
        else Consume(s, token.user, found.value, newPassword, delay)
  }

  const START: State := State(0, map[], [], 0, map[], {})
}

/** Whole runs of the authentication service. */
module AuthRuns {
  import opened Wrappers
  import opened AuthSpec

  datatype Entry = Issued(token: Token) | ResetIssued(token: Token) | PasswordReset(token: Token)

  datatype History = History(s: State, log: seq<Entry>, lastReset: map<nat, nat>)

  function EntriesOf(s: State, c: Config, op: Op): seq<Entry> {
    var (after, outcome) := Apply(s, c, op);
    match outcome
    case Sessions(access, refresh) => [Issued(access), Issued(refresh)]
    case Done =>
      if op.ForgotPassword? && op.user in s.users then [ResetIssued(SignReset(s, op.user))]
      else if op.ResetPassword? then [PasswordReset(op.token)]
      else []
    case _ => []
  }

  function Step(h: History, c: Config, op: Op): History {
    var (after, outcome) := Apply(h.s, c, op);
    History(after, h.log + EntriesOf(h.s, c, op),
            if op.ResetPassword? && outcome.Done? then h.lastReset[op.token.user := after.now] else h.lastReset)
  }

  function Run(c: Config, ops: seq<Op>): History {
    if ops == [] then History(START, [], map[]) else Step(Run(c, ops[..|ops| - 1]), c, ops[|ops| - 1])
  }

  predicate ResetAfter(log: seq<Entry>, i: nat, user: nat) {
    exists j :: i < j < |log| && log[j].PasswordReset? && log[j].token.user == user
  }

  predicate Session(t: Token) {
    t.Access? || t.Refresh?
  }

  /** A session token is of its user's current version exactly when no reset has followed it. */
  ghost predicate TokensOk(h: History) {
    forall i :: 0 <= i < |h.log| && h.log[i].Issued? ==>
      var t := h.log[i].token;
      && Session(t) && t.user in h.s.users && t.version <= h.s.users[t.user].version
      && t.iat <= Seconds(h.s)
      && (t.version < h.s.users[t.user].version <==> ResetAfter(h.log, i, t.user))
      && (t.version < h.s.users[t.user].version ==> t.user in h.lastReset && t.iat <= h.lastReset[t.user] / 1000)
  }

  ghost predicate LifetimesOk(h: History, c: Config) {
    forall i :: 0 <= i < |h.log| && h.log[i].Issued? ==>
      var t := h.log[i].token;
      t.exp == t.iat + (if t.Access? then c.accessTtl else c.refreshTtl)
  }

  /** Tombstones stand for exactly the outdated versions, each dated from the latest reset. */
  ghost predicate TombstonesOk(h: History) {
    && (forall u: nat, v: nat :: (u, v) in h.s.tombstones ==> u in h.s.users && v < h.s.users[u].version)
    && (forall u: nat, v: nat :: u in h.s.users && v < h.s.users[u].version ==> Tombstoned(h, u, v))
  }

  ghost predicate Tombstoned(h: History, u: nat, v: nat) {
    && u in h.lastReset && (u, v) in h.s.tombstones
    && h.s.tombstones[(u, v)] == h.lastReset[u] + SEVEN_DAYS * 1000
  }

  lemma {:induction false} BlockedFacts(tombstones: map<(nat, nat), nat>, user: nat, last: nat, until: nat)
    ensures var blocked := Blocked(tombstones, user, last, until);
      && (forall u: nat, v: nat :: (u, v) in blocked <==> (u == user && v <= last) || (u, v) in tombstones)
      && (forall u: nat, v: nat :: (u, v) in blocked ==>
            blocked[(u, v)] == if u == user && v <= last then until else tombstones[(u, v)])
  {
    if last > 0 {
      BlockedFacts(tombstones, user, last - 1, until);
    }
  }

  lemma ResetAfterAppend(log: seq<Entry>, more: seq<Entry>, i: nat, user: nat)
    requires i < |log|
    ensures ResetAfter(log + more, i, user)
      <==> || ResetAfter(log, i, user)
           || exists j :: 0 <= j < |more| && more[j].PasswordReset? && more[j].token.user == user
  {
    if ResetAfter(log, i, user) {
      var j :| i < j < |log| && log[j].PasswordReset? && log[j].token.user == user;
      assert (log + more)[j] == log[j];
    }
    if ResetAfter(log + more, i, user) {
      var j :| i < j < |log + more| && (log + more)[j].PasswordReset? && (log + more)[j].token.user == user;
      if j < |log| { assert log[j].PasswordReset?; } else { assert more[j - |log|].PasswordReset?; }
    }
    if j :| 0 <= j < |more| && more[j].PasswordReset? && more[j].token.user == user {
      assert (log + more)[|log| + j] == more[j];
    }
  }

  predicate Quiet(s: State, c: Config, op: Op) {
    !(op.ResetPassword? && Apply(s, c, op).1.Done?)
  }

  /** A step that resets nobody's password issues tokens of the current version, if any. */
  lemma QuietFacts(s: State, c: Config, op: Op)
    requires Quiet(s, c, op)
    ensures var n := Apply(s, c, op).0;
      && n.tombstones == s.tombstones && s.now <= n.now
      && (forall u :: u in s.users ==> u in n.users && n.users[u].version == s.users[u].version)
      && (forall u :: u in n.users && u !in s.users ==> n.users[u].version == 0)
    ensures forall e :: e in EntriesOf(s, c, op) ==> !e.PasswordReset?
    ensures forall e :: e in EntriesOf(s, c, op) && e.Issued? ==>
      && Session(e.token) && e.token.user in s.users && e.token.version == s.users[e.token.user].version
      && e.token.iat == Seconds(s)
      && e.token.exp == Seconds(s) + (if e.token.Access? then c.accessTtl else c.refreshTtl)
  {
  }

  lemma QuietStepOk(h: History, c: Config, op: Op)
    requires TokensOk(h) && TombstonesOk(h) && LifetimesOk(h, c) && Quiet(h.s, c, op)
    ensures TokensOk(Step(h, c, op)) && TombstonesOk(Step(h, c, op)) && LifetimesOk(Step(h, c, op), c)
  {
    var n, more := Step(h, c, op), EntriesOf(h.s, c, op);
    QuietFacts(h.s, c, op);
    QuietTombstones(h, n);
    QuietTokens(h, n, more, c);
  }

  lemma QuietTombstones(h: History, n: History)
    requires TombstonesOk(h)
    requires n.s.tombstones == h.s.tombstones && n.lastReset == h.lastReset
    requires forall u :: u in h.s.users ==> u in n.s.users && n.s.users[u].version == h.s.users[u].version
    requires forall u :: u in n.s.users && u !in h.s.users ==> n.s.users[u].version == 0
    ensures TombstonesOk(n)
  {
    forall u: nat, v: nat | u in n.s.users && v < n.s.users[u].version ensures Tombstoned(n, u, v) {
      assert Tombstoned(h, u, v);
    }
  }

  lemma QuietTokens(h: History, n: History, more: seq<Entry>, c: Config)
    requires TokensOk(h) && LifetimesOk(h, c)
    requires n.log == h.log + more && n.lastReset == h.lastReset && Seconds(h.s) <= Seconds(n.s)
    requires forall u :: u in h.s.users ==> u in n.s.users && n.s.users[u].version == h.s.users[u].version
    requires forall e :: e in more ==> !e.PasswordReset?
    requires forall e :: e in more && e.Issued? ==>
      && Session(e.token) && e.token.user in h.s.users && e.token.version == h.s.users[e.token.user].version
      && e.token.iat == Seconds(h.s)
      && e.token.exp == Seconds(h.s) + (if e.token.Access? then c.accessTtl else c.refreshTtl)
    ensures TokensOk(n) && LifetimesOk(n, c)
  {
    forall i | 0 <= i < |n.log| && n.log[i].Issued?
      ensures var t := n.log[i].token;
        && Session(t) && t.user in n.s.users && t.version <= n.s.users[t.user].version && t.iat <= Seconds(n.s)
        && t.exp == t.iat + (if t.Access? then c.accessTtl else c.refreshTtl)
        && (t.version < n.s.users[t.user].version <==> ResetAfter(n.log, i, t.user))
    {
      var t := n.log[i].token;
      if i < |h.log| {
        assert n.log[i] == h.log[i];
        ResetAfterAppend(h.log, more, i, t.user);
        assert forall j :: 0 <= j < |more| ==> more[j] in more;
      } else {
        assert n.log[i] == more[i - |h.log|] && more[i - |h.log|] in more;
        assert forall j :: |h.log| <= j < |n.log| ==> n.log[j] == more[j - |h.log|] && more[j - |h.log|] in more;
        assert !ResetAfter(n.log, i, t.user);
      }
    }
  }

  lemma ResetStepOk(h: History, c: Config, op: Op)
    requires TokensOk(h) && TombstonesOk(h) && LifetimesOk(h, c)
    requires op.ResetPassword? && Apply(h.s, c, op).1.Done?
    ensures TokensOk(Step(h, c, op)) && TombstonesOk(Step(h, c, op)) && LifetimesOk(Step(h, c, op), c)
  {
    var n, user := Step(h, c, op), op.token.user;
    BlockedFacts(h.s.tombstones, user, h.s.users[user].version, n.s.now + SEVEN_DAYS * 1000);
    assert n.log == h.log + [PasswordReset(op.token)];
    forall u: nat, v: nat | u in n.s.users && v < n.s.users[u].version ensures Tombstoned(n, u, v) {
      assert u == user || Tombstoned(h, u, v);
    }
    forall i | 0 <= i < |n.log| && n.log[i].Issued?
      ensures var t := n.log[i].token; ResetAfter(n.log, i, t.user) <==> ResetAfter(h.log, i, t.user) || t.user == user
    {
      assert n.log[i] == h.log[i];
      ResetAfterAppend(h.log, [PasswordReset(op.token)], i, n.log[i].token.user);
      assert [PasswordReset(op.token)][0].PasswordReset?;
    }
  }

  lemma {:induction false} RunOk(c: Config, ops: seq<Op>)
    ensures TokensOk(Run(c, ops)) && TombstonesOk(Run(c, ops)) && LifetimesOk(Run(c, ops), c)
  {
    if ops != [] {
      var before, op := ops[..|ops| - 1], ops[|ops| - 1];
      RunOk(c, before);
      var h := Run(c, before);
      if op.ResetPassword? && Apply(h.s, c, op).1.Done? {
        ResetStepOk(h, c, op);
      } else {
        QuietStepOk(h, c, op);
      }
    }
  }

  /** Sessions issued before the latest reset are dead, those issued after it are not revoked. */
  ghost predicate SessionsSafe(h: History) {
    forall i :: 0 <= i < |h.log| && h.log[i].Issued? ==>
      var t := h.log[i].token;
      Session(t) &&
      if ResetAfter(h.log, i, t.user) then Expired(h.s, t) || Revoked(h.s, t.user, t.version)
      else !Revoked(h.s, t.user, t.version)
  }

  lemma SafeWhenShortLived(c: Config, ops: seq<Op>)
    requires c.accessTtl <= SEVEN_DAYS && c.refreshTtl <= SEVEN_DAYS
    ensures SessionsSafe(Run(c, ops))
  {
    RunOk(c, ops);
    var h := Run(c, ops);
    forall i | 0 <= i < |h.log| && h.log[i].Issued? && ResetAfter(h.log, i, h.log[i].token.user)
      ensures Expired(h.s, h.log[i].token) || Revoked(h.s, h.log[i].token.user, h.log[i].token.version)
    {
      var t := h.log[i].token;
      var reset := h.lastReset[t.user];
      assert Tombstoned(h, t.user, t.version);
      assert h.s.tombstones[(t.user, t.version)] == reset + SEVEN_DAYS * 1000;
      if h.s.now >= reset + SEVEN_DAYS * 1000 {
        assert Seconds(h.s) >= reset / 1000 + SEVEN_DAYS;
      }
    }
  }

  lemma RunSplit(c: Config, ops: seq<Op>, op: Op)
    ensures Run(c, ops + [op]) == Step(Run(c, ops), c, op)
  {
    assert (ops + [op])[..|ops|] == ops;
  }

  const FIRST_RESET: Token := Reset(1, 0, RESET_SECONDS)

  /** A user who registers, logs in, asks for a reset and resets, all in the first second. */
  const SCRIPT: seq<Op> :=
    [Register(1, "a"), Login(1, "a"), ForgotPassword(1), ResetPassword(FIRST_RESET, "b", 0)]

  function FirstAccess(c: Config): Token {
    Access(1, 0, 0, c.accessTtl)
  }

  function FirstRefresh(c: Config): Token {
    Refresh(1, 0, 0, c.refreshTtl)
  }

  function SignedIn(c: Config): State {
    State(0, map[1 := User("a", 0, false)], [], 0, map[], {FirstAccess(c), FirstRefresh(c)})
  }

  lemma ScriptSignsIn(c: Config)
    ensures Run(c, [Register(1, "a"), Login(1, "a")])
         == History(SignedIn(c), [Issued(FirstAccess(c)), Issued(FirstRefresh(c))], map[])
  {
    var r, l := Register(1, "a"), Login(1, "a");
    assert [] + [r] == [r] && [r] + [l] == [r, l];
    RunSplit(c, [], r);
    RunSplit(c, [r], l);
    var s := State(0, map[1 := User("a", 0, false)], [], 0, map[], {});
    assert Apply(START, c, r) == (s, Done);
    assert SignedIn(c).signed == s.signed + {FirstAccess(c), FirstRefresh(c)};
    assert Apply(s, c, l) == (SignedIn(c), Sessions(FirstAccess(c), FirstRefresh(c)));
    assert Run(c, [r]) == History(s, [], map[]);
  }

  function Asked(c: Config): State {
    SignedIn(c).(rows := [Row(0, 1, FIRST_RESET, RESET_SECONDS * 1000)], nextRow := 1,
                 signed := {FirstAccess(c), FirstRefresh(c), FIRST_RESET})
  }

  lemma ScriptAsks(c: Config)
    ensures Run(c, SCRIPT[..3])
         == History(Asked(c), [Issued(FirstAccess(c)), Issued(FirstRefresh(c)), ResetIssued(FIRST_RESET)], map[])
  {
    var before, f := [Register(1, "a"), Login(1, "a")], ForgotPassword(1);
    assert SCRIPT[..3] == before + [f];
    ScriptSignsIn(c);
    RunSplit(c, before, f);
    assert Asked(c).signed == SignedIn(c).signed + {FIRST_RESET};
    assert SignReset(SignedIn(c), 1) == FIRST_RESET && WithoutUser([], 1) == [];
    assert Asked(c).rows == WithoutUser(SignedIn(c).rows, 1) + Asked(c).rows;
    assert Apply(SignedIn(c), c, f) == (Asked(c), Done);
  }

  lemma ScriptResult(c: Config)
    ensures var access, refresh := Access(1, 0, 0, c.accessTtl), Refresh(1, 0, 0, c.refreshTtl);
      Run(c, SCRIPT) == History(
        State(0, map[1 := User("b", 1, false)], [], 1, map[(1, 0) := SEVEN_DAYS * 1000],
              {access, refresh, FIRST_RESET}),
        [Issued(access), Issued(refresh), ResetIssued(FIRST_RESET), PasswordReset(FIRST_RESET)], map[1 := 0])
  {
    var p := ResetPassword(FIRST_RESET, "b", 0);
    assert SCRIPT == SCRIPT[..3] + [p];
    ScriptAsks(c);
    RunSplit(c, SCRIPT[..3], p);
    ScriptReset(c, Asked(c), Row(0, 1, FIRST_RESET, RESET_SECONDS * 1000));
  }

  lemma ScriptReset(c: Config, s: State, row: Row)
    requires s.now == 0 && s.rows == [row] && row == Row(0, 1, FIRST_RESET, RESET_SECONDS * 1000)
    requires s.users == map[1 := User("a", 0, false)] && s.tombstones == map[] && FIRST_RESET in s.signed
    ensures Apply(s, c, ResetPassword(FIRST_RESET, "b", 0))
      == (s.(rows := [], users := map[1 := User("b", 1, false)], tombstones := map[(1, 0) := SEVEN_DAYS * 1000]), Done)
  {
    assert FindRow([row], 1, FIRST_RESET) == Some(row);
    assert [row][..|[row]| - 1] == [];
    assert WithoutRow([row], 0) == [];
    assert s.users[1 := User("b", 1, false)] == map[1 := User("b", 1, false)];
    assert Blocked(map[], 1, 0, SEVEN_DAYS * 1000) == map[(1, 0) := SEVEN_DAYS * 1000];
  }

  /** A longer lifetime leaves a session usable after its user's reset, once the tombstone has gone. */
  lemma LongLivedOutlasts(c: Config) returns (ops: seq<Op>)
    requires c.accessTtl > SEVEN_DAYS || c.refreshTtl > SEVEN_DAYS
    ensures !SessionsSafe(Run(c, ops))
  {
    ops := SCRIPT + [Tick(SEVEN_DAYS * 1000)];
    ScriptResult(c);
    RunSplit(c, SCRIPT, Tick(SEVEN_DAYS * 1000));
    var h := Run(c, ops);
    assert h.log[3].PasswordReset?;
    assert ResetAfter(h.log, 0, 1) && ResetAfter(h.log, 1, 1);
    assert !Revoked(h.s, 1, 0);
    assert h.log[0].Issued? && h.log[1].Issued?;
  }

  /** The promise holds in every run exactly when no token can outlive the seven-day tombstones. */
  lemma SessionsSafeIff(c: Config)
    ensures (forall ops :: SessionsSafe(Run(c, ops))) <==> c.accessTtl <= SEVEN_DAYS && c.refreshTtl <= SEVEN_DAYS
  {
    if c.accessTtl <= SEVEN_DAYS && c.refreshTtl <= SEVEN_DAYS {
      forall ops ensures SessionsSafe(Run(c, ops)) {
        SafeWhenShortLived(c, ops);
      }
    } else {
      var ops := LongLivedOutlasts(c);
    }
  }

  // Reset tokens

  function Count(log: seq<Entry>, e: Entry): nat {
    if log == [] then 0 else Count(log[..|log| - 1], e) + (if log[|log| - 1] == e then 1 else 0)
  }

  predicate HasRow(rows: seq<Row>, token: Token) {
    exists i :: 0 <= i < |rows| && rows[i].token == token
  }

  /** The uses a token has had or can still have. */
  function Uses(h: History, t: Token): nat {
    Count(h.log, PasswordReset(t)) + if HasRow(h.s.rows, t) then 1 else 0
  }

  ghost predicate RowsOk(h: History) {
    && Unrelated(h.s.rows)
    && (forall r :: r in h.s.rows ==> RowOk(r, h.s.nextRow))
    && (forall t :: Uses(h, t) <= Count(h.log, ResetIssued(t)))
  }

  predicate RowOk(r: Row, next: nat) {
    r.id < next && r.token.Reset? && r.token.user == r.user && r.expiresAt / 1000 >= r.token.exp
  }

  lemma {:induction false} CountAppend(log: seq<Entry>, more: seq<Entry>, e: Entry)
    ensures Count(log + more, e) == Count(log, e) + Count(more, e)
  {
    if more == [] {
      assert log + more == log;
    } else {
      assert (log + more)[..|log + more| - 1] == log + more[..|more| - 1];
      CountAppend(log, more[..|more| - 1], e);
    }
  }

  ghost predicate Unrelated(a: seq<Row>) {
    forall i, j :: 0 <= i < j < |a| ==> a[i].user != a[j].user && a[i].id != a[j].id
  }

  lemma {:induction false} WithoutUserFacts(rows: seq<Row>, user: nat)
    requires Unrelated(rows)
    ensures Unrelated(WithoutUser(rows, user))
    ensures forall r :: r in WithoutUser(rows, user) <==> r in rows && r.user != user
  {
    if rows != [] {
      var init := rows[..|rows| - 1];
      WithoutUserFacts(init, user);
      AppendUnrelated(WithoutUser(init, user), init, rows[|rows| - 1]);
      assert forall r :: r in rows <==> r in init || r == rows[|rows| - 1];
    }
  }

  lemma {:induction false} WithoutRowFacts(rows: seq<Row>, id: nat)
    requires Unrelated(rows)
    ensures Unrelated(WithoutRow(rows, id))
    ensures forall r :: r in WithoutRow(rows, id) <==> r in rows && r.id != id
  {
    if rows != [] {
      var init := rows[..|rows| - 1];
      WithoutRowFacts(init, id);
      AppendUnrelated(WithoutRow(init, id), init, rows[|rows| - 1]);
      assert forall r :: r in rows <==> r in init || r == rows[|rows| - 1];
    }
  }

  lemma AppendUnrelated(part: seq<Row>, init: seq<Row>, last: Row)
    requires Unrelated(part) && Unrelated(init + [last]) && forall r :: r in part ==> r in init
    ensures Unrelated(part + [last])
  {
    forall i | 0 <= i < |part| ensures part[i].user != last.user && part[i].id != last.id {
      assert part[i] in init;
      var j :| 0 <= j < |init| && init[j] == part[i];
      assert (init + [last])[j] == part[i] && (init + [last])[|init|] == last;
    }
  }

  lemma {:induction false} FindRowFacts(rows: seq<Row>, user: nat, token: Token)
    ensures FindRow(rows, user, token).Some? ==>
      FindRow(rows, user, token).value in rows && FindRow(rows, user, token).value.token == token
  {
    if rows != [] {
      FindRowFacts(rows[1..], user, token);
    }
  }

  lemma ForgotRowsOk(h: History, c: Config, user: nat)
    requires RowsOk(h) && user in h.s.users
    ensures RowsOk(Step(h, c, ForgotPassword(user)))
  {
    var n, token := Step(h, c, ForgotPassword(user)), SignReset(h.s, user);
    var kept, row := WithoutUser(h.s.rows, user), n.s.rows[|n.s.rows| - 1];
    WithoutUserFacts(h.s.rows, user);
    assert n.s.rows == kept + [row] && n.log == h.log + [ResetIssued(token)];
    NewRow(kept, h.s.nextRow, row);
    forall t ensures Uses(n, t) <= Count(n.log, ResetIssued(t)) {
      NewRowUses(h, n, kept, row, t);
    }
  }

  lemma NewRow(kept: seq<Row>, next: nat, row: Row)
    requires Unrelated(kept) && row.id == next
    requires forall r :: r in kept ==> RowOk(r, next) && r.user != row.user
    ensures Unrelated(kept + [row])
  {
    forall i | 0 <= i < |kept| ensures kept[i].user != row.user && kept[i].id != row.id {
      assert kept[i] in kept;
    }
  }

  /** The new row brings one more use, and one more issue, of its own token alone. */
  lemma NewRowUses(h: History, n: History, kept: seq<Row>, row: Row, t: Token)
    requires Uses(h, t) <= Count(h.log, ResetIssued(t))
    requires n.s.rows == kept + [row] && forall r :: r in kept ==> r in h.s.rows
    requires n.log == h.log + [ResetIssued(row.token)]
    ensures Uses(n, t) <= Count(n.log, ResetIssued(t))
  {
    CountAppend(h.log, [ResetIssued(row.token)], PasswordReset(t));
    CountAppend(h.log, [ResetIssued(row.token)], ResetIssued(t));
    assert [ResetIssued(row.token)][..0] == [];
    if HasRow(n.s.rows, t) && t != row.token {
      var i :| 0 <= i < |n.s.rows| && n.s.rows[i].token == t;
      assert n.s.rows[i] in kept;
      assert HasRow(h.s.rows, t);
    }
  }

  /** Consuming a row takes its token, and no other, out of the table. */
  lemma ConsumedRow(rows: seq<Row>, row: Row)
    requires row in rows && Unrelated(rows)
    requires forall r :: r in rows ==> r.token.Reset? && r.token.user == r.user
    ensures !HasRow(WithoutRow(rows, row.id), row.token)
    ensures forall t :: HasRow(WithoutRow(rows, row.id), t) ==> HasRow(rows, t)
  {
    var left := WithoutRow(rows, row.id);
    WithoutRowFacts(rows, row.id);
    forall i | 0 <= i < |left| ensures left[i].token != row.token && HasRow(rows, left[i].token) {
      assert left[i] in rows;
      var j :| 0 <= j < |rows| && rows[j] == left[i];
      var k :| 0 <= k < |rows| && rows[k] == row;
    }
  }

  lemma ResetRowsOk(h: History, c: Config, token: Token, password: string, delay: nat)
    requires RowsOk(h)
    ensures RowsOk(Step(h, c, ResetPassword(token, password, delay)))
  {
    var op := ResetPassword(token, password, delay);
    var n, more := Step(h, c, op), EntriesOf(h.s, c, op);
    if n.s.rows != h.s.rows || more != [] {
      var row := FindRow(h.s.rows, token.user, token).value;
      FindRowFacts(h.s.rows, token.user, token);
      WithoutRowFacts(h.s.rows, row.id);
      ConsumedRow(h.s.rows, row);
      assert n.s.rows == WithoutRow(h.s.rows, row.id);
      assert HasRow(h.s.rows, token);
      ResetCounts(h.log, more, token);
      forall t ensures Uses(n, t) <= Count(n.log, ResetIssued(t)) {
        assert n.log == h.log + more;
        assert HasRow(n.s.rows, t) ==> HasRow(h.s.rows, t) && t != token;
      }
    } else {
      assert n.log == h.log;
    }
  }

  lemma ResetCounts(log: seq<Entry>, more: seq<Entry>, token: Token)
    requires more == [] || more == [PasswordReset(token)]
    ensures forall t :: Count(log + more, ResetIssued(t)) == Count(log, ResetIssued(t))
    ensures forall t :: t != token ==> Count(log + more, PasswordReset(t)) == Count(log, PasswordReset(t))
    ensures Count(log + more, PasswordReset(token)) <= Count(log, PasswordReset(token)) + 1
  {
    assert log + [] == log;
    assert (log + [PasswordReset(token)])[..|log|] == log;
  }

  lemma OtherRowsOk(h: History, c: Config, op: Op)
    requires RowsOk(h) && !op.ResetPassword? && !(op.ForgotPassword? && op.user in h.s.users)
    ensures RowsOk(Step(h, c, op))
  {
    var n, more := Step(h, c, op), EntriesOf(h.s, c, op);
    assert forall e :: e in more ==> e.Issued?;
    forall t ensures Count(n.log, PasswordReset(t)) == Count(h.log, PasswordReset(t))
                  && Count(n.log, ResetIssued(t)) == Count(h.log, ResetIssued(t)) {
      CountAppend(h.log, more, PasswordReset(t));
      CountAppend(h.log, more, ResetIssued(t));
      CountAbsent(more, PasswordReset(t));
      CountAbsent(more, ResetIssued(t));
    }
  }

  lemma {:induction false} CountAbsent(log: seq<Entry>, e: Entry)
    requires e !in log
    ensures Count(log, e) == 0
  {
    if log != [] {
      CountAbsent(log[..|log| - 1], e);
    }
  }

  lemma {:induction false} RowsRunOk(c: Config, ops: seq<Op>)
    ensures RowsOk(Run(c, ops))
  {
    if ops != [] {
      var before, op := ops[..|ops| - 1], ops[|ops| - 1];
      RowsRunOk(c, before);
      var h := Run(c, before);
      if op.ResetPassword? {
        ResetRowsOk(h, c, op.token, op.newPassword, op.delay);
      } else if op.ForgotPassword? && op.user in h.s.users {
        ForgotRowsOk(h, c, op.user);
      } else {
        OtherRowsOk(h, c, op);
      }
    }
  }

  /**
   * In every run each user has at most one live reset token, and a token has changed the password
   * at most as often as it was issued; so a token issued once changes it at most once.
   */
  lemma ResetTokensSingleUse(c: Config, ops: seq<Op>)
    ensures var h := Run(c, ops);
      && (forall i, j :: 0 <= i < j < |h.s.rows| ==> h.s.rows[i].user != h.s.rows[j].user)
      && (forall t :: Count(h.log, PasswordReset(t)) <= Count(h.log, ResetIssued(t)))
      && (forall t :: HasRow(h.s.rows, t) ==> Count(h.log, PasswordReset(t)) < Count(h.log, ResetIssued(t)))
  {
    RowsRunOk(c, ops);
  }

  const AGAIN: Row := Row(1, 1, FIRST_RESET, 0)

  /** After the script and a wait, the same user asks again. */
  lemma AskAgain(c: Config, wait: nat, ops: seq<Op>)
    requires wait < 1000 && ops == SCRIPT + [Tick(wait)] + [ForgotPassword(1)]
    ensures var h := Run(c, ops);
      && h.s.now == wait && h.s.users == map[1 := User("b", 1, false)] && FIRST_RESET in h.s.signed
      && h.s.rows == [AGAIN.(expiresAt := wait + RESET_SECONDS * 1000)]
      && h.log == Run(c, SCRIPT).log + [ResetIssued(FIRST_RESET)]
  {
    var later := SCRIPT + [Tick(wait)];
    ScriptResult(c);
    ScriptWaits(c, wait);
    RunSplit(c, later, ForgotPassword(1));
    AsksOnce(c, Run(c, later), Run(c, ops));
  }

  lemma ScriptWaits(c: Config, wait: nat)
    ensures Run(c, SCRIPT + [Tick(wait)])
      == Run(c, SCRIPT).(s := Run(c, SCRIPT).s.(now := Run(c, SCRIPT).s.now + wait))
  {
    RunSplit(c, SCRIPT, Tick(wait));
    assert Run(c, SCRIPT).log + [] == Run(c, SCRIPT).log;
  }

  lemma AsksOnce(c: Config, h: History, n: History)
    requires h.s.now < 1000 && h.s.rows == [] && 1 in h.s.users && h.s.nextRow == 1
    requires n == Step(h, c, ForgotPassword(1))
    ensures n.s == h.s.(rows := [AGAIN.(expiresAt := h.s.now + RESET_SECONDS * 1000)], nextRow := 2,
                        signed := h.s.signed + {FIRST_RESET})
    ensures n.log == h.log + [ResetIssued(FIRST_RESET)]
  {
    assert SignReset(h.s, 1) == FIRST_RESET && WithoutUser([], 1) == [];
  }

  /** Asking again in the same second signs the spent token anew, and it works again. */
  lemma AgainInOneSecond(c: Config, wait: nat)
    requires wait < 1000
    ensures Run(c, SCRIPT + [Tick(wait)] + [ForgotPassword(1)] + [ResetPassword(FIRST_RESET, "c", 0)]).log
         == Run(c, SCRIPT).log + [ResetIssued(FIRST_RESET)] + [PasswordReset(FIRST_RESET)]
  {
    var again := SCRIPT + [Tick(wait)] + [ForgotPassword(1)];
    AskAgain(c, wait, again);
    ResetsAgain(c, Run(c, again).s, AGAIN.(expiresAt := wait + RESET_SECONDS * 1000));
    RunSplit(c, again, ResetPassword(FIRST_RESET, "c", 0));
  }

  lemma ResetsAgain(c: Config, s: State, row: Row)
    requires s.now < 1000 && 1 in s.users && FIRST_RESET in s.signed
    requires s.rows == [row] && row == AGAIN.(expiresAt := s.now + RESET_SECONDS * 1000)
    ensures EntriesOf(s, c, ResetPassword(FIRST_RESET, "c", 0)) == [PasswordReset(FIRST_RESET)]
  {
    assert FindRow(s.rows, 1, FIRST_RESET) == Some(row);
    assert Consume(s, 1, row, "c", 0).1 == Done;
  }

  /** Two requests in one second sign the same token, which then works twice. */
  lemma SameSecondTokenWorksTwice(c: Config, wait: nat) returns (ops: seq<Op>, token: Token)
    requires wait < 1000
    ensures Count(Run(c, ops).log, PasswordReset(token)) == 2 && Spaced(c, ops, wait)
  {
    token := FIRST_RESET;
    ops := SCRIPT + [Tick(wait)] + [ForgotPassword(1)] + [ResetPassword(token, "c", 0)];
    AgainInOneSecond(c, wait);
    ScriptResult(c);
    var log, e := Run(c, SCRIPT).log, PasswordReset(token);
    var first := log[..3];
    assert e !in first && log == first + [e];
    CountTwo(first, ResetIssued(token), e);
    assert Run(c, ops).log == first + [e] + [ResetIssued(token)] + [e];
    AgainSpaced(c, wait, ops);
  }

  lemma AgainSpaced(c: Config, wait: nat, ops: seq<Op>)
    requires ops == SCRIPT + [Tick(wait)] + [ForgotPassword(1)] + [ResetPassword(FIRST_RESET, "c", 0)]
    ensures Spaced(c, ops, wait)
  {
    assert ops[..4] == SCRIPT && ops[..5] == SCRIPT + [Tick(wait)];
    RunSplit(c, SCRIPT, Tick(wait));
    forall i, j | 0 <= i < j < |ops| && ops[i].ForgotPassword? && ops[j] == ops[i]
      ensures At(c, ops, j) >= At(c, ops, i) + wait
    {
      assert i == 2 && j == 5;
      ScriptTimes(c, ops, wait);
    }
  }

  lemma ScriptTimes(c: Config, ops: seq<Op>, wait: nat)
    requires |ops| >= 6 && ops[..4] == SCRIPT && ops[..5] == SCRIPT + [Tick(wait)]
    ensures At(c, ops, 2) == 0 && At(c, ops, 5) == wait
  {
    ScriptResult(c);
    RunSplit(c, SCRIPT, Tick(wait));
    TimeForward(c, ops, 2, 4);
  }

  /** When the operation at this place starts. */
  function At(c: Config, ops: seq<Op>, i: nat): nat
    requires i <= |ops|
  {
    Run(c, ops[..i]).s.now
  }

  /** Requests for one user's reset token lie at least this many milliseconds apart. */
  ghost predicate Spaced(c: Config, ops: seq<Op>, gap: nat) {
    forall i, j :: 0 <= i < j < |ops| && ops[i].ForgotPassword? && ops[j] == ops[i] ==>
      At(c, ops, j) >= At(c, ops, i) + gap
  }

  lemma NowForward(s: State, c: Config, op: Op)
    ensures Apply(s, c, op).0.now >= s.now
  {
  }

  lemma {:induction false} TimeForward(c: Config, ops: seq<Op>, i: nat, j: nat)
    requires i <= j <= |ops|
    ensures At(c, ops, i) <= At(c, ops, j)
  {
    if i < j {
      TimeForward(c, ops, i, j - 1);
      assert ops[..j][..j - 1] == ops[..j - 1];
      NowForward(Run(c, ops[..j - 1]).s, c, ops[j - 1]);
    }
  }

  lemma SpacedPrefix(c: Config, ops: seq<Op>, gap: nat)
    requires ops != [] && Spaced(c, ops, gap)
    ensures Spaced(c, ops[..|ops| - 1], gap)
  {
    var before := ops[..|ops| - 1];
    forall i, j | 0 <= i < j < |before| && before[i].ForgotPassword? && before[j] == before[i]
      ensures At(c, before, j) >= At(c, before, i) + gap
    {
      assert before[..i] == ops[..i] && before[..j] == ops[..j] && before[i] == ops[i] && before[j] == ops[j];
    }
  }

  /** Every reset token ever issued carries the second of one of its user's requests. */
  ghost predicate Requested(c: Config, ops: seq<Op>, token: Token) {
    exists i :: 0 <= i < |ops| && RequestAt(c, ops, token, i)
  }

  ghost predicate RequestAt(c: Config, ops: seq<Op>, token: Token, i: nat)
    requires i < |ops|
  {
    token.Reset? && ops[i] == ForgotPassword(token.user) && token.iat == At(c, ops, i) / 1000
  }

  lemma RequestedLater(c: Config, ops: seq<Op>, token: Token)
    requires ops != [] && Requested(c, ops[..|ops| - 1], token)
    ensures Requested(c, ops, token)
  {
    var before := ops[..|ops| - 1];
    var i :| 0 <= i < |before| && RequestAt(c, before, token, i);
    assert before[..i] == ops[..i] && RequestAt(c, ops, token, i);
  }

  /** A request a second after all of its user's others signs a token not issued before. */
  lemma RequestIsNew(c: Config, ops: seq<Op>, token: Token)
    requires ops != [] && Spaced(c, ops, 1000) && RequestAt(c, ops, token, |ops| - 1)
    ensures !Requested(c, ops[..|ops| - 1], token)
  {
    var n := |ops| - 1;
    var before := ops[..n];
    forall i: nat | i < n ensures !RequestAt(c, before, token, i) {
      assert before[..i] == ops[..i] && before[i] == ops[i];
      if ops[i] == ops[n] {
        assert At(c, ops, n) >= At(c, ops, i) + 1000;
        LaterSecond(At(c, ops, i), At(c, ops, n));
      }
    }
  }

  lemma LaterSecond(a: nat, b: nat)
    requires b >= a + 1000
    ensures a / 1000 < b / 1000
  {
  }

  ghost predicate IssuedOnce(c: Config, ops: seq<Op>) {
    forall t :: Count(Run(c, ops).log, ResetIssued(t)) <= if Requested(c, ops, t) then 1 else 0
  }

  lemma IssuesOf(s: State, c: Config, op: Op)
    ensures var more := EntriesOf(s, c, op);
      if op.ForgotPassword? && op.user in s.users then more == [ResetIssued(SignReset(s, op.user))]
      else forall e :: e in more ==> !e.ResetIssued?
  {
  }

  lemma {:induction false} SpacedIssuesOnce(c: Config, ops: seq<Op>)
    requires Spaced(c, ops, 1000)
    ensures IssuedOnce(c, ops)
  {
    if ops != [] {
      var before, op := ops[..|ops| - 1], ops[|ops| - 1];
      SpacedPrefix(c, ops, 1000);
      SpacedIssuesOnce(c, before);
      var h := Run(c, before);
      var more := EntriesOf(h.s, c, op);
      IssuesOf(h.s, c, op);
      forall t ensures Count(Run(c, ops).log, ResetIssued(t)) <= if Requested(c, ops, t) then 1 else 0 {
        CountAppend(h.log, more, ResetIssued(t));
        if Requested(c, before, t) {
          RequestedLater(c, ops, t);
        }
        if more == [ResetIssued(t)] && op.ForgotPassword? {
          assert RequestAt(c, ops, t, |ops| - 1);
          RequestIsNew(c, ops, t);
          assert [ResetIssued(t)][..0] == [];
        } else {
          CountAbsent(more, ResetIssued(t));
        }
      }
    }
  }

  ghost predicate SingleUse(h: History) {
    forall t :: Count(h.log, PasswordReset(t)) <= 1
  }

  ghost predicate SingleUseWhenSpaced(c: Config, gap: nat) {
    forall ops :: Spaced(c, ops, gap) ==> SingleUse(Run(c, ops))
  }

  lemma SpacedWeaker(c: Config, ops: seq<Op>, gap: nat)
    requires Spaced(c, ops, gap) && gap >= 1000
    ensures Spaced(c, ops, 1000)
  {
  }

  /** Each token changes the password at most once in every run exactly when requests lie a second apart. */
  lemma SingleUseIff(c: Config, gap: nat)
    ensures SingleUseWhenSpaced(c, gap) <==> gap >= 1000
  {
    if gap >= 1000 {
      forall ops | Spaced(c, ops, gap) ensures SingleUse(Run(c, ops)) {
        SpacedWeaker(c, ops, gap);
        SpacedIssuesOnce(c, ops);
        ResetTokensSingleUse(c, ops);
        forall t ensures Count(Run(c, ops).log, PasswordReset(t)) <= 1 {
          assert Count(Run(c, ops).log, ResetIssued(t)) <= 1;
        }
      }
    } else {
      var ops, token := SameSecondTokenWorksTwice(c, gap);
      assert !SingleUse(Run(c, ops));
    }
  }

  lemma CountTwo(first: seq<Entry>, other: Entry, e: Entry)
    requires e !in first && other != e
    ensures Count(first + [e] + [other] + [e], e) == 2
  {
    var one, two, three := first + [e], first + [e] + [other], first + [e] + [other] + [e];
    CountAbsent(first, e);
    assert one[..|one| - 1] == first && two[..|two| - 1] == one && three[..|three| - 1] == two;
    assert Count(one, e) == 1 && Count(two, e) == 1;
  }

  lemma SecondsMonotone(a: nat, b: nat)
    ensures a < b ==> a / 1000 <= b / 1000
  {
  }

  /**
   * A reset whose token verifies and has a row starts no later than the row expires, and the check of the
   * row's own expiry refuses it exactly when it straddles that moment. The row is gone either way.
   */
  lemma RowRefusesIff(c: Config, ops: seq<Op>, token: Token, password: string, delay: nat)
    ensures var s := Run(c, ops).s;
      var (n, outcome) := Apply(s, c, ResetPassword(token, password, delay));
      var found := FindRow(s.rows, token.user, token);
      VerifyJwt(s, token) && token.user in s.users && found.Some? ==>
        && s.now <= found.value.expiresAt
        && outcome == (if found.value.expiresAt < s.now + delay then Refused(400) else Done)
        && !HasRow(n.rows, token)
  {
    RowsRunOk(c, ops);
    var s := Run(c, ops).s;
    if VerifyJwt(s, token) && token.user in s.users && FindRow(s.rows, token.user, token).Some? {
      FindRowFacts(s.rows, token.user, token);
      var row := FindRow(s.rows, token.user, token).value;
      assert row in s.rows && RowOk(row, s.nextRow);
      ConsumesRow(s, c, token, row, password, delay);
    }
  }

  lemma ConsumesRow(s: State, c: Config, token: Token, row: Row, password: string, delay: nat)
    requires VerifyJwt(s, token) && token.user in s.users && FindRow(s.rows, token.user, token) == Some(row)
    requires Unrelated(s.rows) && row in s.rows && row.token == token && RowOk(row, s.nextRow)
    requires forall r :: r in s.rows ==> RowOk(r, s.nextRow)
    ensures var (n, outcome) := Apply(s, c, ResetPassword(token, password, delay));
      && s.now <= row.expiresAt
      && outcome == (if row.expiresAt < s.now + delay then Refused(400) else Done)
      && !HasRow(n.rows, token)
  {
    SecondsMonotone(row.expiresAt, s.now);
    ConsumedRow(s.rows, row);
  }
}

/** The authentication service over its tables. Each operation runs to its end before the next. */
module AuthService {
  import opened Wrappers
  import opened AuthSpec

  class Auth {
    const config: Config
    var now: nat
    var users: map<nat, User>
    var resetRows: seq<Row>
    var nextRow: nat
    var tombstones: map<(nat, nat), nat>
    var signed: set<Token>

    function Value(): State reads this {
      State(now, users, resetRows, nextRow, tombstones, signed)
    }

    constructor (config: Config)
      ensures Value() == START && this.config == config
    {
      this.config := config;
      now, users, resetRows, nextRow, tombstones, signed := 0, map[], [], 0, map[], {};
    }

    method SignSessions(user: nat, version: nat) returns (outcome: Outcome)
      modifies this`signed
      ensures (Value(), outcome) == OpenSession(old(Value()), config, user, version)
    {
      var access := SignAccess(Value(), config, user, version);
      var refresh := SignRefresh(Value(), config, user, version);
      signed := signed + {access, refresh};
      return Sessions(access, refresh);
    }

    method Login(user: nat, password: string) returns (outcome: Outcome)
      modifies this
      ensures (Value(), outcome) == Apply(old(Value()), config, Op.Login(user, password))
    {
      if user !in users { return Refused(401); }
      if users[user].password != password { return Refused(401); }
      if users[user].twoFactor {
        var temp := SignTemp(Value(), user);
        signed := signed + {temp};
        return NeedsOtp(temp);
      }
      outcome := SignSessions(user, users[user].version);
    }

    method Verify2FA(token: Token, otpOk: bool) returns (outcome: Outcome)
      modifies this
      ensures (Value(), outcome) == Apply(old(Value()), config, Op.Verify2FA(token, otpOk))
    {
      if !VerifyJwt(Value(), token) || !token.Temp2FA? { return Refused(401); }
      if token.user !in users || !users[token.user].twoFactor { return Refused(401); }
      if !otpOk { return Refused(401); }
      outcome := SignSessions(token.user, users[token.user].version);
    }

    method ForgotPassword(user: nat)
      modifies this
      ensures Value() == Apply(old(Value()), config, Op.ForgotPassword(user)).0
    {
      if user !in users { return; }
      var token := SignReset(Value(), user);
      signed := signed + {token};
      var kept: seq<Row> := [];
      var i := 0;
      while i < |resetRows|
        invariant 0 <= i <= |resetRows|
        invariant kept == WithoutUser(resetRows[..i], user)
      {
        assert resetRows[..i + 1][..i] == resetRows[..i];
        if resetRows[i].user != user { kept := kept + [resetRows[i]]; }
        i := i + 1;
      }
      assert resetRows[..i] == resetRows;
      resetRows := kept + [Row(nextRow, user, token, now + RESET_SECONDS * 1000)];
      nextRow := nextRow + 1;
    }

    method DeleteRow(id: nat)
      modifies this`resetRows
      ensures resetRows == WithoutRow(old(resetRows), id)
    {
      var kept: seq<Row> := [];
      var i := 0;
      while i < |resetRows|
        invariant 0 <= i <= |resetRows|
        invariant kept == WithoutRow(resetRows[..i], id)
        invariant resetRows == old(resetRows)
      {
        assert resetRows[..i + 1][..i] == resetRows[..i];
        if resetRows[i].id != id { kept := kept + [resetRows[i]]; }
        i := i + 1;
      }
      assert resetRows[..i] == resetRows;
      resetRows := kept;
    }

    /** Tombstones for every version up to and including the old one. */
    method BlockOldSessions(user: nat, oldVersion: nat)
      modifies this`tombstones
      ensures tombstones == Blocked(old(tombstones), user, oldVersion, now + SEVEN_DAYS * 1000)
    {
      var v := 0;
      while v <= oldVersion
        invariant 0 <= v <= oldVersion + 1
        invariant tombstones == if v == 0 then old(tombstones)
                                else Blocked(old(tombstones), user, v - 1, now + SEVEN_DAYS * 1000)
      {
        tombstones := tombstones[(user, v) := now + SEVEN_DAYS * 1000];
        v := v + 1;
      }
    }

    /** The lookups of the user and of the row take `delay` milliseconds. */
    method ResetPassword(token: Token, newPassword: string, delay: nat) returns (outcome: Outcome)
      modifies this
      ensures (Value(), outcome) == Apply(old(Value()), config, Op.ResetPassword(token, newPassword, delay))
    {
      if !VerifyJwt(Value(), token) || !token.Reset? { return Refused(400); }
      if token.user !in users { return Refused(400); }
      var account := users[token.user];
      var found := FindRow(resetRows, token.user, token);
      if found.None? { return Refused(400); }
      now := now + delay;
      if now > found.value.expiresAt {
        DeleteRow(found.value.id);
        return Refused(400);
      }
      DeleteRow(found.value.id);
      users := users[token.user := account.(password := newPassword, version := account.version + 1)];
      BlockOldSessions(token.user, account.version);
      return Done;
    }

    method IsSessionRevoked(user: nat, version: nat) returns (revoked: bool)
      ensures revoked == Revoked(Value(), user, version)
    {
      revoked := (user, version) in tombstones && now < tombstones[(user, version)];
    }
  }
}
