/** Who moves the treasury's money, its limit and its list of markets, told from the calls of a run. */
module TreasuryControl {
  import opened Wrappers
  import opened Int128
  import opened Contracts
  import opened TreasurySpec
  import opened TreasuryRuns

  // What the calls say, latest last

  /** The admin or the factory let the market in, and the admin has not put it out since. */
  function ApprovedAfter(admin: Address, factory: Address, calls: seq<Call>, market: Address): bool {
    if calls == [] then false
    else
      var before, c := calls[..|calls| - 1], calls[|calls| - 1];
      if c.op == ApproveMarket(admin, market) && admin in c.env.signers then true
      else if c.op == RegisterMarket(factory, market) && factory in c.env.signers then true
      else if c.op == RevokeMarket(admin, market) && admin in c.env.signers then false
      else ApprovedAfter(admin, factory, before, market)
  }

  /** The limit the admin set last. */
  function LimitAfter(admin: Address, first: I128, calls: seq<Call>): I128 {
    if calls == [] then first
    else
      var c := calls[|calls| - 1];
      if c.op.UpdateWithdrawalLimit? && c.op.admin == admin && admin in c.env.signers then c.op.limit
      else LimitAfter(admin, first, calls[..|calls| - 1])
  }

  /** What was reported as received for one market id. */
  function CreditedTo(log: seq<Entry>, id: nat, token: Address): int {
    if log == [] then 0
    else
      var e := log[|log| - 1];
      CreditedTo(log[..|log| - 1], id, token)
      + (if e.Received? && e.market == Some(id) && e.token == token then e.amount else 0)
  }

  function Start(admin: Address, factory: Address, limit: I128, start: nat): History {
    History(Fresh(admin, factory, limit), [], start)
  }

  ghost predicate LedgerFits(h: History, admin: Address, factory: Address, limit: I128, calls: seq<Call>) {
    && h.t.admin == admin && h.t.factory == factory && !h.t.withdrawalsPaused
    && h.t.limit == LimitAfter(admin, limit, calls)
    && (forall m :: m in h.t.approved <==> ApprovedAfter(admin, factory, calls, m))
    && (forall id, token :: Get(ByMarket(h.t.byMarket, id), token) == CreditedTo(h.log, id, token))
  }

  lemma CreditedMore(log: seq<Entry>, e: Entry, id: nat, token: Address)
    ensures CreditedTo(log + [e], id, token) == CreditedTo(log, id, token)
      + (if e.Received? && e.market == Some(id) && e.token == token then e.amount else 0)
  {
    assert (log + [e])[..|log|] == log;
  }

  lemma ApprovedMore(h: History, admin: Address, factory: Address, limit: I128, calls: seq<Call>, c: Call, m: Address)
    requires LedgerFits(h, admin, factory, limit, calls)
    ensures m in Step(h, c).t.approved <==> ApprovedAfter(admin, factory, calls + [c], m)
  {
    assert (calls + [c])[..|calls|] == calls;
  }

  lemma CreditMore(h: History, admin: Address, factory: Address, limit: I128, calls: seq<Call>, c: Call,
                   id: nat, token: Address)
    requires LedgerFits(h, admin, factory, limit, calls)
    ensures Get(ByMarket(Step(h, c).t.byMarket, id), token) == CreditedTo(Step(h, c).log, id, token)
  {
    if Apply(h.t, c.env, c.op).Ok? {
      CreditMoves(h.t, c.env, c.op, id, token);
      var entries := EntriesOf(h.t, c.env, c.op);
      if entries == [] {
        assert h.log + entries == h.log;
      } else {
        assert entries == [entries[0]];
        CreditedMore(h.log, entries[0], id, token);
      }
    }
  }

  function Credits(entries: seq<Entry>, id: nat, token: Address): int {
    if entries == [] then 0
    else
      var e := entries[0];
      if e.Received? && e.market == Some(id) && e.token == token then e.amount else 0
  }

  /** A call moves the breakdown by its own entry, if it has one. */
  lemma CreditMoves(t: Ledger, env: Env, op: Op, id: nat, token: Address)
    requires Apply(t, env, op).Ok?
    ensures |EntriesOf(t, env, op)| <= 1
    ensures Get(ByMarket(Apply(t, env, op).value.byMarket, id), token)
         == Get(ByMarket(t.byMarket, id), token) + Credits(EntriesOf(t, env, op), id, token)
  {
  }

  lemma LimitMore(h: History, admin: Address, factory: Address, limit: I128, calls: seq<Call>, c: Call)
    requires LedgerFits(h, admin, factory, limit, calls)
    ensures var t := Step(h, c).t;
      && t.admin == admin && t.factory == factory && !t.withdrawalsPaused
      && t.limit == LimitAfter(admin, limit, calls + [c])
  {
    assert (calls + [c])[..|calls|] == calls;
  }

  /** In every run the approved markets, the limit and the breakdown by market are what the calls make them. */
  lemma {:induction false} LedgerIsHistory(
      admin: Address, factory: Address, limit: I128, start: nat, calls: seq<Call>)
    ensures LedgerFits(Run(Start(admin, factory, limit, start), calls), admin, factory, limit, calls)
  {
    if calls != [] {
      var before, c := calls[..|calls| - 1], calls[|calls| - 1];
      LedgerIsHistory(admin, factory, limit, start, before);
      var h := Run(Start(admin, factory, limit, start), before);
      assert calls == before + [c];
      LimitMore(h, admin, factory, limit, before, c);
      forall m ensures m in Step(h, c).t.approved <==> ApprovedAfter(admin, factory, calls, m) {
        ApprovedMore(h, admin, factory, limit, before, c, m);
      }
      forall id, token
        ensures Get(ByMarket(Step(h, c).t.byMarket, id), token) == CreditedTo(Step(h, c).log, id, token)
      {
        CreditMore(h, admin, factory, limit, before, c, id, token);
      }
    }
  }

  // The rules

  predicate WithdrawalAllowed(
      admin: Address, limit: I128, calls: seq<Call>, log: seq<Entry>, env: Env, token: Address, amount: I128)
  {
    var most := LimitAfter(admin, limit, calls);
    && admin in env.signers && MIN_WITHDRAWAL <= amount <= most && most * 5 <= MAX
    && WithdrawnOn(log, env.now / SECONDS_PER_DAY) + amount <= most * 5
    && amount <= Net(log, token) && env.transferOk
  }

  predicate Allowed(admin: Address, factory: Address, limit: I128, calls: seq<Call>, log: seq<Entry>, c: Call) {
    match c.op
    case DepositFees(market, token, amount) =>
      && market in c.env.signers && ApprovedAfter(admin, factory, calls, market)
      && amount >= 0 && Net(log, token) + amount <= MAX && c.env.transferOk
    case ReceiveFee(market, id, token, amount) =>
      && market in c.env.signers && ApprovedAfter(admin, factory, calls, market)
      && InRange(Net(log, token) + amount) && InRange(CreditedTo(log, id, token) + amount)
    case WithdrawFees(caller, token, amount, _) =>
      caller == admin && WithdrawalAllowed(admin, limit, calls, log, c.env, token, amount)
    case EmergencyDrain(caller, token) =>
      caller == admin && admin in c.env.signers && (Net(log, token) > 0 ==> c.env.transferOk)
    case UpdateWithdrawalLimit(caller, _) => caller == admin && admin in c.env.signers
    case ApproveMarket(caller, _) => caller == admin && admin in c.env.signers
    case RevokeMarket(caller, _) => caller == admin && admin in c.env.signers
    case RegisterMarket(caller, _) => caller == factory && factory in c.env.signers
  }

  lemma {:induction false} WithdrawnNonNegative(log: seq<Entry>, day: nat)
    requires forall i :: 0 <= i < |log| && log[i].Withdrawn? ==> MIN_WITHDRAWAL <= log[i].amount
    ensures WithdrawnOn(log, day) >= 0
  {
    if log != [] {
      WithdrawnNonNegative(log[..|log| - 1], day);
    }
  }

  /** The books and the list of markets in range, as every run leaves them. */
  lemma AllowedIff(h: History, admin: Address, factory: Address, limit: I128, calls: seq<Call>, c: Call)
    requires HistoryOk(h) && LedgerFits(h, admin, factory, limit, calls) && h.clock <= c.env.now
    requires forall token :: InRange(Get(h.t.fees, token))
    ensures Apply(h.t, c.env, c.op).Ok? <==> Allowed(admin, factory, limit, calls, h.log, c)
  {
    DayForward(h.clock, c.env.now);
    match c.op
    case DepositFees(market, token, _) => assert Get(h.t.fees, token) == Net(h.log, token);
    case ReceiveFee(_, _, token, _) => assert Get(h.t.fees, token) == Net(h.log, token);
    case WithdrawFees(_, token, _, _) =>
      WithdrawnNonNegative(h.log, Day(c.env));
      assert Get(h.t.fees, token) == Net(h.log, token);
      assert Get(h.t.daily, Day(c.env)) == WithdrawnOn(h.log, Day(c.env));
    case EmergencyDrain(_, token) => assert Get(h.t.fees, token) == Net(h.log, token);
    case _ =>
  }

  /** What each error says of a call. */
  predicate Refused(
      admin: Address, factory: Address, limit: I128, calls: seq<Call>, log: seq<Entry>, c: Call, e: ContractError)
  {
    match e
    case MarketNotApproved =>
      (c.op.DepositFees? || c.op.ReceiveFee?) && !ApprovedAfter(admin, factory, calls, c.op.market)
    case Unauthorized => !c.op.DepositFees? && !c.op.ReceiveFee? && !c.op.RegisterMarket? && c.op.admin != admin
    case NotFactory => c.op.RegisterMarket? && c.op.caller != factory
    case BelowMinimum => c.op.WithdrawFees? && c.op.amount < MIN_WITHDRAWAL
    case DailyWithdrawalLimitExceeded =>
      c.op.WithdrawFees? &&
      var most := LimitAfter(admin, limit, calls);
      c.op.amount > most || WithdrawnOn(log, c.env.now / SECONDS_PER_DAY) + c.op.amount > most * 5
    case InsufficientBalance => c.op.WithdrawFees? && Net(log, c.op.token) < c.op.amount
    case Trap => true
    case _ => false
  }

  lemma ErrorTells(h: History, admin: Address, factory: Address, limit: I128, calls: seq<Call>, c: Call)
    requires HistoryOk(h) && LedgerFits(h, admin, factory, limit, calls) && h.clock <= c.env.now
    ensures var r := Apply(h.t, c.env, c.op); r.Err? ==> Refused(admin, factory, limit, calls, h.log, c, r.error)
  {
    if c.op.WithdrawFees? {
      WithdrawalErrorTells(h, admin, factory, limit, calls, c);
    }
  }

  lemma WithdrawalErrorTells(h: History, admin: Address, factory: Address, limit: I128, calls: seq<Call>, c: Call)
    requires HistoryOk(h) && LedgerFits(h, admin, factory, limit, calls) && h.clock <= c.env.now && c.op.WithdrawFees?
    ensures var r := Apply(h.t, c.env, c.op); r.Err? ==> Refused(admin, factory, limit, calls, h.log, c, r.error)
  {
    DayForward(h.clock, c.env.now);
    assert Get(h.t.fees, c.op.token) == Net(h.log, c.op.token);
    assert Get(h.t.daily, Day(c.env)) == WithdrawnOn(h.log, Day(c.env));
  }

  /** After any timed run a call that is refused with an error gives a reason that is true of it. */
  lemma RefusalsTellWhy(admin: Address, factory: Address, limit: I128, start: nat, calls: seq<Call>, c: Call)
    requires TimeForward(start, calls + [c])
    ensures var h := Run(Start(admin, factory, limit, start), calls); var r := Apply(h.t, c.env, c.op);
      r.Err? ==> Refused(admin, factory, limit, calls, h.log, c, r.error)
  {
    var h := Run(Start(admin, factory, limit, start), calls);
    assert forall i :: 0 <= i < |calls| ==> (calls + [c])[i] == calls[i];
    assert (calls + [c])[|calls|] == c;
    TreasuryBooks(admin, factory, limit, start, calls);
    LedgerIsHistory(admin, factory, limit, start, calls);
    ErrorTells(h, admin, factory, limit, calls, c);
  }

  lemma StepInRange(h: History, c: Call, token: Address)
    requires InRange(Get(h.t.fees, token))
    ensures InRange(Get(Step(h, c).t.fees, token))
  {
    if Apply(h.t, c.env, c.op).Ok? {
      ApplyInRange(h.t, c.env, c.op, token);
    }
  }

  lemma ApplyInRange(t: Ledger, env: Env, op: Op, token: Address)
    requires InRange(Get(t.fees, token)) && Apply(t, env, op).Ok?
    ensures InRange(Get(Apply(t, env, op).value.fees, token))
  {
    if op.WithdrawFees? {
      assert Apply(t, env, op).value.fees == Credit(t.fees, op.token, -op.amount);
    }
  }

  lemma {:induction false} FeesInRange(h: History, calls: seq<Call>, token: Address)
    requires InRange(Get(h.t.fees, token))
    ensures InRange(Get(Run(h, calls).t.fees, token))
  {
    if calls != [] {
      FeesInRange(h, calls[..|calls| - 1], token);
      StepInRange(Run(h, calls[..|calls| - 1]), calls[|calls| - 1], token);
    }
  }

  /** After any timed run a call is let through exactly when the calls and money movements so far allow it. */
  lemma AcceptedIff(
      admin: Address, factory: Address, limit: I128, start: nat, calls: seq<Call>, c: Call)
    requires TimeForward(start, calls + [c])
    ensures var h := Run(Start(admin, factory, limit, start), calls);
      Apply(h.t, c.env, c.op).Ok? <==> Allowed(admin, factory, limit, calls, h.log, c)
  {
    var h := Run(Start(admin, factory, limit, start), calls);
    assert forall i :: 0 <= i < |calls| ==> (calls + [c])[i] == calls[i];
    assert (calls + [c])[|calls|] == c;
    TreasuryBooks(admin, factory, limit, start, calls);
    LedgerIsHistory(admin, factory, limit, start, calls);
    forall token ensures InRange(Get(h.t.fees, token)) {
      FeesInRange(Start(admin, factory, limit, start), calls, token);
    }
    AllowedIff(h, admin, factory, limit, calls, c);
  }

  // What nobody else can do

  /** The call behind an entry: the admin's for money going out, an approved market's for money coming in. */
  ghost predicate Behind(admin: Address, factory: Address, before: seq<Call>, c: Call, e: Entry) {
    match e
    case Withdrawn(token, amount, day, _) =>
      && admin in c.env.signers && day == c.env.now / SECONDS_PER_DAY
      && c.op.WithdrawFees? && c.op.admin == admin && c.op.token == token && c.op.amount == amount
    case Drained(token, _) => admin in c.env.signers && c.op == EmergencyDrain(admin, token)
    case Received(token, amount, None) =>
      && c.op.DepositFees? && c.op.token == token && c.op.amount == amount
      && c.op.market in c.env.signers && ApprovedAfter(admin, factory, before, c.op.market)
    case Received(token, amount, Some(id)) =>
      && c.op.ReceiveFee? && c.op.token == token && c.op.amount == amount && c.op.marketId == id
      && c.op.market in c.env.signers && ApprovedAfter(admin, factory, before, c.op.market)
  }

  lemma StepBehind(h: History, admin: Address, factory: Address, limit: I128, calls: seq<Call>, c: Call)
    requires LedgerFits(h, admin, factory, limit, calls)
    ensures || Step(h, c).log == h.log
            || exists e :: Step(h, c).log == h.log + [e] && Behind(admin, factory, calls, c, e)
  {
    if Apply(h.t, c.env, c.op).Ok? {
      var entries := EntriesOf(h.t, c.env, c.op);
      if entries == [] {
        assert h.log + entries == h.log;
      } else {
        assert entries == [entries[0]] && Behind(admin, factory, calls, c, entries[0]);
      }
    }
  }

  /** Every entry of the log has a signed call of the run behind it. */
  lemma {:induction false} EntriesAreSigned(
      admin: Address, factory: Address, limit: I128, start: nat, calls: seq<Call>, e: Entry)
    requires e in Run(Start(admin, factory, limit, start), calls).log
    ensures exists i :: 0 <= i < |calls| && Behind(admin, factory, calls[..i], calls[i], e)
  {
    var before, c := calls[..|calls| - 1], calls[|calls| - 1];
    var h := Run(Start(admin, factory, limit, start), before);
    LedgerIsHistory(admin, factory, limit, start, before);
    StepBehind(h, admin, factory, limit, before, c);
    if e in h.log {
      EntriesAreSigned(admin, factory, limit, start, before, e);
      var i :| 0 <= i < |before| && Behind(admin, factory, before[..i], before[i], e);
      assert before[..i] == calls[..i] && Behind(admin, factory, calls[..i], calls[i], e);
    } else {
      assert calls[..|calls| - 1] == before && Behind(admin, factory, before, c, e);
    }
  }

  ghost predicate NeverSigns(who: Address, calls: seq<Call>) {
    forall i :: 0 <= i < |calls| ==> who !in calls[i].env.signers
  }

  /** A step without the admin's signature. */
  lemma UnsignedStep(h: History, c: Call, token: Address)
    requires h.t.admin !in c.env.signers && (c.op.ReceiveFee? ==> c.op.amount >= 0)
    ensures var n := Step(h, c);
      && h.t.approved <= n.t.approved && n.t.daily == h.t.daily
      && Get(n.t.fees, token) >= Get(h.t.fees, token)
  {
    if Apply(h.t, c.env, c.op).Ok? {
      UnsignedApply(h.t, c.env, c.op, token);
    }
  }

  lemma UnsignedApply(t: Ledger, env: Env, op: Op, token: Address)
    requires t.admin !in env.signers && (op.ReceiveFee? ==> op.amount >= 0) && Apply(t, env, op).Ok?
    ensures var n := Apply(t, env, op).value;
      t.approved <= n.approved && n.daily == t.daily && Get(n.fees, token) >= Get(t.fees, token)
  {
  }

  /**
   * Without the admin's signature nothing ever goes out: the log has receipts alone, the limit stays, no
   * market is put out and no token's fees fall below what any earlier part of the run had left.
   */
  lemma {:induction false} WithoutAdmin(
      admin: Address, factory: Address, limit: I128, start: nat, before: seq<Call>, more: seq<Call>, token: Address)
    requires NeverSigns(admin, before + more) && NoNegativeReceipts(before + more)
    ensures var h, n := Run(Start(admin, factory, limit, start), before),
                        Run(Start(admin, factory, limit, start), before + more);
      && (forall e :: e in n.log ==> e.Received?)
      && n.t.limit == limit && h.t.approved <= n.t.approved && n.t.daily == h.t.daily
      && Get(n.t.fees, token) >= Get(h.t.fees, token)
  {
    var all := before + more;
    var n := Run(Start(admin, factory, limit, start), all);
    forall e | e in n.log ensures e.Received? {
      EntriesAreSigned(admin, factory, limit, start, all, e);
    }
    LedgerIsHistory(admin, factory, limit, start, all);
    UnsignedLimit(admin, limit, all);
    if more == [] {
      assert all == before;
    } else {
      var part, c := more[..|more| - 1], more[|more| - 1];
      assert all[..|all| - 1] == before + part && all[|all| - 1] == c;
      assert forall i :: 0 <= i < |before + part| ==> (before + part)[i] == all[i];
      WithoutAdmin(admin, factory, limit, start, before, part, token);
      LedgerIsHistory(admin, factory, limit, start, before + part);
      UnsignedStep(Run(Start(admin, factory, limit, start), before + part), c, token);
    }
  }

  lemma {:induction false} UnsignedLimit(admin: Address, limit: I128, calls: seq<Call>)
    requires NeverSigns(admin, calls)
    ensures LimitAfter(admin, limit, calls) == limit
  {
    if calls != [] {
      UnsignedLimit(admin, limit, calls[..|calls| - 1]);
    }
  }

  lemma {:induction false} NobodyApproved(admin: Address, factory: Address, calls: seq<Call>, market: Address)
    requires NeverSigns(admin, calls) && NeverSigns(factory, calls)
    ensures !ApprovedAfter(admin, factory, calls, market)
  {
    if calls != [] {
      NobodyApproved(admin, factory, calls[..|calls| - 1], market);
    }
  }

  /** Without the admin's and the factory's signatures nothing happens at all. */
  lemma WithoutBoth(admin: Address, factory: Address, limit: I128, start: nat, calls: seq<Call>)
    requires NeverSigns(admin, calls) && NeverSigns(factory, calls)
    ensures var h := Run(Start(admin, factory, limit, start), calls); h.log == [] && h.t.approved == {}
  {
    var h := Run(Start(admin, factory, limit, start), calls);
    LedgerIsHistory(admin, factory, limit, start, calls);
    forall m ensures m !in h.t.approved {
      NobodyApproved(admin, factory, calls, m);
    }
    if h.log != [] {
      EntriesAreSigned(admin, factory, limit, start, calls, h.log[0]);
      var i :| 0 <= i < |calls| && Behind(admin, factory, calls[..i], calls[i], h.log[0]);
      if h.log[0].Received? {
        NobodyApproved(admin, factory, calls[..i], calls[i].op.market);
      }
      assert false;
    }
  }
}
