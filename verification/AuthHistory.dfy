/**
 * Users told from the operations alone: their password, their second factor, how often they were reset,
 * and the one reset token that still works. Who can sign in, and who can reset, follows from that.
 */
module AuthHistory {
  import opened Wrappers
  import opened AuthSpec
  import opened AuthRuns

  /** A reset token that has been asked for and not used, and when its row expires. */
  datatype Live = Live(token: Token, until: nat)

  // What the operations say, latest last

  function NowAfter(ops: seq<Op>): nat
    decreases |ops|, 0
  {
    if ops == [] then 0
    else
      var before := ops[..|ops| - 1];
      match ops[|ops| - 1]
      case Tick(elapsed) => NowAfter(before) + elapsed
      case ResetPassword(token, _, delay) => NowAfter(before) + if Works(before, token) then delay else 0
      case _ => NowAfter(before)
  }

  /** The user's live token, signed less than its lifetime ago. */
  predicate Works(ops: seq<Op>, token: Token)
    decreases |ops|, 1
  {
    && token.Reset? && LiveAfter(ops, token.user).Some? && LiveAfter(ops, token.user).value.token == token
    && NowAfter(ops) / 1000 < token.exp
  }

  /** It also gets to its row before the row expires. */
  predicate Resets(ops: seq<Op>, token: Token, delay: nat)
    decreases |ops|, 2
  {
    Works(ops, token) && NowAfter(ops) + delay <= LiveAfter(ops, token.user).value.until
  }

  /** The latest request's token, until it is presented. */
  function LiveAfter(ops: seq<Op>, user: nat): Option<Live>
    decreases |ops|, 0
  {
    if ops == [] then None
    else
      var before, op := ops[..|ops| - 1], ops[|ops| - 1];
      var now := NowAfter(before);
      if op == ForgotPassword(user) && PasswordAfter(before, user).Some?
      then Some(Live(Reset(user, now / 1000, now / 1000 + RESET_SECONDS), now + RESET_SECONDS * 1000))
      else if op.ResetPassword? && op.token.user == user && Works(before, op.token) then None
      else LiveAfter(before, user)
  }

  /** The password of the first registration or of the latest reset that went through. */
  function PasswordAfter(ops: seq<Op>, user: nat): Option<string>
    decreases |ops|, 0
  {
    if ops == [] then None
    else
      var before, op := ops[..|ops| - 1], ops[|ops| - 1];
      if op.Register? && op.user == user && PasswordAfter(before, user).None? then Some(op.password)
      else if op.ResetPassword? && op.token.user == user && Resets(before, op.token, op.delay) then Some(op.newPassword)
      else PasswordAfter(before, user)
  }

  function ResetCount(ops: seq<Op>, user: nat): nat {
    if ops == [] then 0
    else
      var before, op := ops[..|ops| - 1], ops[|ops| - 1];
      ResetCount(before, user)
      + if op.ResetPassword? && op.token.user == user && Resets(before, op.token, op.delay) then 1 else 0
  }

  /** Set as the user last confirmed with a good code. */
  predicate TwoFactorAfter(ops: seq<Op>, user: nat) {
    if ops == [] then false
    else
      var before, op := ops[..|ops| - 1], ops[|ops| - 1];
      if op.SetTwoFactor? && op.user == user && op.otpOk && PasswordAfter(before, user).Some? then op.enabled
      else TwoFactorAfter(before, user)
  }

  /** A login with the right password for which a code is asked. */
  ghost predicate HalfWay(ops: seq<Op>, j: nat, token: Token) {
    && j < |ops| && token.Temp2FA? && ops[j].Login? && ops[j].user == token.user
    && PasswordAfter(ops[..j], token.user) == Some(ops[j].password) && TwoFactorAfter(ops[..j], token.user)
    && token == Temp2FA(token.user, NowAfter(ops[..j]) / 1000, NowAfter(ops[..j]) / 1000 + TEMP_SECONDS)
  }

  ghost predicate GotHalfWay(ops: seq<Op>, token: Token) {
    exists j :: HalfWay(ops, j, token)
  }

  // The state that the operations make

  predicate UserFits(s: State, ops: seq<Op>, u: nat) {
    match PasswordAfter(ops, u)
    case None => u !in s.users && ResetCount(ops, u) == 0 && !TwoFactorAfter(ops, u) && LiveAfter(ops, u).None?
    case Some(password) => u in s.users && s.users[u] == User(password, ResetCount(ops, u), TwoFactorAfter(ops, u))
  }

  /** The table holds exactly the live tokens. */
  ghost predicate RowsFit(s: State, ops: seq<Op>) {
    RowsAre(s.rows, ops) && LiveSigned(s.signed, ops)
  }

  ghost predicate RowsAre(rows: seq<Row>, ops: seq<Op>) {
    && (forall r :: r in rows ==> LiveAfter(ops, r.user) == Some(Live(r.token, r.expiresAt)))
    && (forall u :: LiveAfter(ops, u).Some? ==> HasRow(rows, LiveAfter(ops, u).value.token))
  }

  ghost predicate LiveSigned(signed: set<Token>, ops: seq<Op>) {
    forall u :: LiveAfter(ops, u).Some? ==>
      var token := LiveAfter(ops, u).value.token; token in signed && token.Reset? && token.user == u
  }

  ghost predicate TempsFit(s: State, ops: seq<Op>) {
    forall t: Token :: t.Temp2FA? ==> (t in s.signed <==> GotHalfWay(ops, t))
  }

  ghost predicate StateFits(s: State, ops: seq<Op>) {
    && s.now == NowAfter(ops)
    && (forall u :: UserFits(s, ops, u))
    && RowsFit(s, ops)
    && TempsFit(s, ops)
  }

  // What an operation answers, in a state that the operations before made

  lemma LoginAnswer(s: State, c: Config, ops: seq<Op>, u: nat, password: string)
    requires StateFits(s, ops)
    ensures var now := NowAfter(ops) / 1000;
      Apply(s, c, Login(u, password)).1 ==
        if PasswordAfter(ops, u) != Some(password) then Refused(401)
        else if TwoFactorAfter(ops, u) then NeedsOtp(Temp2FA(u, now, now + TEMP_SECONDS))
        else Sessions(Access(u, ResetCount(ops, u), now, now + c.accessTtl),
                      Refresh(u, ResetCount(ops, u), now, now + c.refreshTtl))
  {
    assert UserFits(s, ops, u);
  }

  ghost predicate CodeAccepted(ops: seq<Op>, token: Token, otpOk: bool) {
    && otpOk && token.Temp2FA? && GotHalfWay(ops, token) && NowAfter(ops) / 1000 < token.exp
    && TwoFactorAfter(ops, token.user)
  }

  lemma CodeAnswer(s: State, c: Config, ops: seq<Op>, token: Token, otpOk: bool)
    requires StateFits(s, ops)
    ensures var now := NowAfter(ops) / 1000;
      Apply(s, c, Verify2FA(token, otpOk)).1 ==
        if CodeAccepted(ops, token, otpOk)
        then Sessions(Access(token.user, ResetCount(ops, token.user), now, now + c.accessTtl),
                      Refresh(token.user, ResetCount(ops, token.user), now, now + c.refreshTtl))
        else Refused(401)
  {
    assert UserFits(s, ops, token.user);
  }

  /** The row that a live token is found in. */
  lemma LiveRow(s: State, ops: seq<Op>, token: Token)
    requires RowsFit(s, ops) && Unrelated(s.rows)
    ensures var found := FindRow(s.rows, token.user, token);
      if token.Reset? && LiveAfter(ops, token.user).Some? && LiveAfter(ops, token.user).value.token == token
      then found.Some? && found.value in s.rows && found.value.expiresAt == LiveAfter(ops, token.user).value.until
      else found.None?
  {
    FindRowMember(s.rows, token.user, token);
    if LiveAfter(ops, token.user).Some? && LiveAfter(ops, token.user).value.token == token {
      var i :| 0 <= i < |s.rows| && s.rows[i].token == token;
      assert s.rows[i] in s.rows;
    }
  }

  lemma {:induction false} FindRowMember(rows: seq<Row>, user: nat, token: Token)
    ensures var found := FindRow(rows, user, token);
      if found.Some? then found.value in rows && found.value.user == user && found.value.token == token
      else forall r :: r in rows ==> !(r.user == user && r.token == token)
  {
    if rows != [] {
      FindRowMember(rows[1..], user, token);
      assert forall r :: r in rows <==> r == rows[0] || r in rows[1..];
    }
  }

  lemma ResetAnswer(s: State, c: Config, ops: seq<Op>, token: Token, password: string, delay: nat)
    requires StateFits(s, ops) && Unrelated(s.rows)
    ensures Apply(s, c, ResetPassword(token, password, delay)).1
         == if Resets(ops, token, delay) then Done else Refused(400)
  {
    LiveRow(s, ops, token);
    assert UserFits(s, ops, token.user);
  }

  // One more operation

  lemma OneMore(before: seq<Op>, op: Op)
    ensures (before + [op])[..|before|] == before && (before + [op])[|before|] == op
  {
  }

  function Renewed(user: User, password: string): User {
    User(password, user.version + 1, user.twoFactor)
  }

  /** What a reset changes: nothing, its row alone, or the user as well. */
  lemma ResetEffect(s: State, c: Config, ops: seq<Op>, token: Token, password: string, delay: nat)
    requires StateFits(s, ops) && Unrelated(s.rows)
    ensures var n := Apply(s, c, ResetPassword(token, password, delay)).0;
      var found := FindRow(s.rows, token.user, token);
      if !Works(ops, token) then n == s
      else
        && found.Some? && found.value in s.rows && found.value.token == token && token.user in s.users
        && n.now == s.now + delay && n.rows == WithoutRow(s.rows, found.value.id) && n.signed == s.signed
        && n.users == if Resets(ops, token, delay) then s.users[token.user := Renewed(s.users[token.user], password)]
                      else s.users
  {
    LiveRow(s, ops, token);
    FindRowMember(s.rows, token.user, token);
    assert UserFits(s, ops, token.user);
    if Works(ops, token) {
      var row := FindRow(s.rows, token.user, token).value;
      ConsumeEffect(s, token.user, row, password, delay);
      assert Apply(s, c, ResetPassword(token, password, delay)) == Consume(s, token.user, row, password, delay);
    }
  }

  lemma ConsumeEffect(s: State, user: nat, row: Row, password: string, delay: nat)
    requires user in s.users
    ensures var n := Consume(s, user, row, password, delay).0;
      && n.now == s.now + delay && n.rows == WithoutRow(s.rows, row.id) && n.signed == s.signed
      && n.users == if s.now + delay <= row.expiresAt then s.users[user := Renewed(s.users[user], password)]
                    else s.users
  {
  }

  lemma HalfWayMore(before: seq<Op>, op: Op, t: Token)
    ensures GotHalfWay(before + [op], t) <==> GotHalfWay(before, t) || HalfWay(before + [op], |before|, t)
  {
    var ops := before + [op];
    if j: nat :| HalfWay(before, j, t) {
      assert ops[..j] == before[..j];
      assert HalfWay(ops, j, t);
    }
    if j: nat :| HalfWay(ops, j, t) && j != |before| {
      assert ops[..j] == before[..j];
      assert HalfWay(before, j, t);
    }
  }

  lemma NowMoves(s: State, c: Config, ops: seq<Op>, op: Op)
    requires StateFits(s, ops) && Unrelated(s.rows)
    ensures Apply(s, c, op).0.now == NowAfter(ops + [op])
  {
    OneMore(ops, op);
    if op.ResetPassword? {
      ResetEffect(s, c, ops, op.token, op.newPassword, op.delay);
    }
  }

  lemma UserMoves(s: State, c: Config, ops: seq<Op>, op: Op, u: nat)
    requires StateFits(s, ops) && Unrelated(s.rows)
    ensures UserFits(Apply(s, c, op).0, ops + [op], u)
  {
    OneMore(ops, op);
    assert UserFits(s, ops, u);
    match op
    case ResetPassword(token, password, delay) => ResetEffect(s, c, ops, token, password, delay);
    case _ =>
  }

  lemma TempMoves(s: State, c: Config, ops: seq<Op>, op: Op, t: Token)
    requires StateFits(s, ops) && t.Temp2FA?
    ensures t in Apply(s, c, op).0.signed <==> GotHalfWay(ops + [op], t)
  {
    OneMore(ops, op);
    HalfWayMore(ops, op, t);
    if op.Login? {
      assert UserFits(s, ops, op.user);
    }
  }

  // The table of rows follows the live tokens

  lemma KeptRow(rows: seq<Row>, left: seq<Row>, token: Token)
    requires HasRow(rows, token) && forall r :: r in rows && r.token == token ==> r in left
    ensures HasRow(left, token)
  {
    var i :| 0 <= i < |rows| && rows[i].token == token;
    assert rows[i] in rows;
    var j :| 0 <= j < |left| && left[j] == rows[i];
  }

  lemma ForgotMoves(s: State, ops: seq<Op>, u: nat)
    requires StateFits(s, ops) && Unrelated(s.rows) && u in s.users
    ensures RowsAre(Forget(s, u).rows, ops + [ForgotPassword(u)])
  {
    var after, rows := ops + [ForgotPassword(u)], Forget(s, u).rows;
    OneMore(ops, ForgotPassword(u));
    assert UserFits(s, ops, u);
    WithoutUserFacts(s.rows, u);
    var kept, row := WithoutUser(s.rows, u), rows[|rows| - 1];
    assert rows == kept + [row] && LiveAfter(after, u) == Some(Live(row.token, row.expiresAt));
    forall v | LiveAfter(after, v).Some? ensures HasRow(rows, LiveAfter(after, v).value.token) {
      if v == u {
        assert rows[|kept|].token == row.token;
      } else {
        KeptRow(s.rows, rows, LiveAfter(ops, v).value.token);
      }
    }
  }

  lemma PresentedMoves(s: State, ops: seq<Op>, op: Op, row: Row)
    requires StateFits(s, ops) && Unrelated(s.rows) && op.ResetPassword? && Works(ops, op.token)
    requires row in s.rows && row.token == op.token
    ensures RowsAre(WithoutRow(s.rows, row.id), ops + [op])
  {
    var after, rows := ops + [op], WithoutRow(s.rows, row.id);
    OneMore(ops, op);
    WithoutRowFacts(s.rows, row.id);
    forall r | r in rows ensures LiveAfter(after, r.user) == Some(Live(r.token, r.expiresAt)) {
      OthersDiffer(s.rows, r, row);
    }
    forall v | LiveAfter(after, v).Some? ensures HasRow(rows, LiveAfter(after, v).value.token) {
      KeptRow(s.rows, rows, LiveAfter(ops, v).value.token);
    }
  }

  lemma OthersDiffer(rows: seq<Row>, a: Row, b: Row)
    requires Unrelated(rows) && a in rows && b in rows && a.id != b.id
    ensures a.user != b.user
  {
    var i :| 0 <= i < |rows| && rows[i] == a;
    var j :| 0 <= j < |rows| && rows[j] == b;
  }

  lemma RowsMove(s: State, c: Config, ops: seq<Op>, op: Op)
    requires StateFits(s, ops) && Unrelated(s.rows)
    ensures RowsAre(Apply(s, c, op).0.rows, ops + [op])
  {
    OneMore(ops, op);
    match op
    case ForgotPassword(u) =>
      assert UserFits(s, ops, u);
      if u in s.users {
        ForgotMoves(s, ops, u);
      }
    case ResetPassword(token, password, delay) =>
      ResetEffect(s, c, ops, token, password, delay);
      if Works(ops, token) {
        PresentedMoves(s, ops, op, FindRow(s.rows, token.user, token).value);
      }
    case _ =>
  }

  lemma SignedMoves(s: State, c: Config, ops: seq<Op>, op: Op)
    requires StateFits(s, ops) && Unrelated(s.rows)
    ensures LiveSigned(Apply(s, c, op).0.signed, ops + [op])
  {
    OneMore(ops, op);
    if op.ForgotPassword? {
      assert UserFits(s, ops, op.user);
    } else if op.ResetPassword? {
      ResetEffect(s, c, ops, op.token, op.newPassword, op.delay);
    }
  }

  lemma StateMoves(s: State, c: Config, ops: seq<Op>, op: Op)
    requires StateFits(s, ops) && Unrelated(s.rows)
    ensures StateFits(Apply(s, c, op).0, ops + [op])
  {
    var n := Apply(s, c, op).0;
    NowMoves(s, c, ops, op);
    RowsMove(s, c, ops, op);
    SignedMoves(s, c, ops, op);
    forall u ensures UserFits(n, ops + [op], u) {
      UserMoves(s, c, ops, op, u);
    }
    forall t: Token | t.Temp2FA? ensures t in n.signed <==> GotHalfWay(ops + [op], t) {
      TempMoves(s, c, ops, op, t);
    }
  }

  /** In every run users, rows and temporary tokens are what the operations alone make them. */
  lemma {:induction false} StateIsHistory(c: Config, ops: seq<Op>)
    ensures StateFits(Run(c, ops).s, ops)
  {
    if ops == [] {
      assert forall t: Token :: !GotHalfWay([], t);
      assert forall u :: UserFits(START, [], u);
    } else {
      var before, op := ops[..|ops| - 1], ops[|ops| - 1];
      StateIsHistory(c, before);
      RowsRunOk(c, before);
      assert ops == before + [op];
      StateMoves(Run(c, before).s, c, before, op);
    }
  }

  /**
   * After any run a login is refused unless the password is the user's, as registered or as last reset;
   * it gets half-way with a second factor, and otherwise opens a session of the user's present version.
   */
  lemma LoginIff(c: Config, ops: seq<Op>, u: nat, password: string)
    ensures var now := NowAfter(ops) / 1000;
      Apply(Run(c, ops).s, c, Login(u, password)).1 ==
        if PasswordAfter(ops, u) != Some(password) then Refused(401)
        else if TwoFactorAfter(ops, u) then NeedsOtp(Temp2FA(u, now, now + TEMP_SECONDS))
        else Sessions(Access(u, ResetCount(ops, u), now, now + c.accessTtl),
                      Refresh(u, ResetCount(ops, u), now, now + c.refreshTtl))
  {
    StateIsHistory(c, ops);
    LoginAnswer(Run(c, ops).s, c, ops, u, password);
  }

  /**
   * After any run a code opens a session exactly when it is good and comes within five minutes of a login
   * with the right password, for a user whose second factor is still on.
   */
  lemma CodeIff(c: Config, ops: seq<Op>, token: Token, otpOk: bool)
    ensures var now := NowAfter(ops) / 1000;
      Apply(Run(c, ops).s, c, Verify2FA(token, otpOk)).1 ==
        if CodeAccepted(ops, token, otpOk)
        then Sessions(Access(token.user, ResetCount(ops, token.user), now, now + c.accessTtl),
                      Refresh(token.user, ResetCount(ops, token.user), now, now + c.refreshTtl))
        else Refused(401)
  {
    StateIsHistory(c, ops);
    CodeAnswer(Run(c, ops).s, c, ops, token, otpOk);
  }

  /**
   * After any run a reset goes through exactly with the user's live token, within its signed lifetime, if
   * it gets to the row before the row expires.
   */
  lemma ResetIff(c: Config, ops: seq<Op>, token: Token, password: string, delay: nat)
    ensures Apply(Run(c, ops).s, c, ResetPassword(token, password, delay)).1
         == if Resets(ops, token, delay) then Done else Refused(400)
  {
    StateIsHistory(c, ops);
    RowsRunOk(c, ops);
    ResetAnswer(Run(c, ops).s, c, ops, token, password, delay);
  }

  /** The operation that opened a session: a login with the right password, or the code that completed one. */
  ghost predicate Earned(before: seq<Op>, op: Op, t: Token) {
    match op
    case Login(u, password) =>
      t.user == u && PasswordAfter(before, u) == Some(password) && !TwoFactorAfter(before, u)
    case Verify2FA(token, otpOk) => t.user == token.user && CodeAccepted(before, token, otpOk)
    case _ => false
  }

  lemma IssuedIsEarned(c: Config, ops: seq<Op>, op: Op, e: Entry)
    requires e in EntriesOf(Run(c, ops).s, c, op) && e.Issued?
    ensures Earned(ops, op, e.token) && e.token.version == ResetCount(ops, e.token.user)
  {
    match op
    case Login(u, password) => LoginIff(c, ops, u, password);
    case Verify2FA(token, otpOk) => CodeIff(c, ops, token, otpOk);
    case _ =>
  }

  /** Every session of a run was opened with the password its user then had, and the code where one is asked. */
  lemma {:induction false} SessionsAreEarned(c: Config, ops: seq<Op>, e: Entry) returns (j: nat)
    requires e in Run(c, ops).log && e.Issued?
    ensures j < |ops| && Earned(ops[..j], ops[j], e.token)
  {
    var before, op := ops[..|ops| - 1], ops[|ops| - 1];
    if e in Run(c, before).log {
      j := SessionsAreEarned(c, before, e);
      assert before[..j] == ops[..j];
    } else {
      j := |before|;
      IssuedIsEarned(c, before, op, e);
    }
  }
}
