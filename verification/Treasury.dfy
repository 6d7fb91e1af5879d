/** The treasury: per-token fee ledger, capped daily withdrawals and the pruned day map. */
module TreasurySpec {
  import opened Wrappers
  import opened Int128
  import opened Contracts

  const MIN_WITHDRAWAL: int := 10_000_000
  const SECONDS_PER_DAY: nat := 86400

  datatype Ledger = Ledger(
    admin: Address, factory: Address, approved: set<Address>, limit: I128, withdrawalsPaused: bool,
    fees: map<Address, int>, byMarket: map<nat, map<Address, int>>, daily: map<nat, int>)

  datatype Op =
    | DepositFees(market: Address, token: Address, amount: I128)
    | ReceiveFee(market: Address, marketId: nat, token: Address, amount: I128)
    | WithdrawFees(admin: Address, token: Address, amount: I128, destination: Address)
    | UpdateWithdrawalLimit(admin: Address, limit: I128)
    | EmergencyDrain(admin: Address, token: Address)
    | ApproveMarket(admin: Address, market: Address)
    | RevokeMarket(admin: Address, market: Address)
    | RegisterMarket(caller: Address, market: Address)

  /** Ledger time in seconds, who signed, and whether the token transfer the call makes goes through. */
  datatype Env = Env(now: nat, signers: set<Address>, transferOk: bool)

  function Get<K>(m: map<K, int>, k: K): int {
    if k in m then m[k] else 0
  }

  function Day(env: Env): nat {
    env.now / SECONDS_PER_DAY
  }

  function Pruned(daily: map<nat, int>, current: nat): map<nat, int> {
    map k | k in daily && k + 1 >= current :: daily[k]
  }

  function ByMarket(m: map<nat, map<Address, int>>, id: nat): map<Address, int> {
    if id in m then m[id] else map[]
  }

  function Credit(fees: map<Address, int>, token: Address, amount: int): map<Address, int> {
    fees[token := Get(fees, token) + amount]
  }

  function Apply(t: Ledger, env: Env, op: Op): Result<Ledger, ContractError> {
    match op
    case DepositFees(market, token, amount) =>
      if market !in env.signers then Err(Trap)
      else if market !in t.approved then Err(MarketNotApproved)
      else if !InRange(Get(t.fees, token) + amount) || !env.transferOk || amount < 0 then Err(Trap)
      else Ok(t.(fees := Credit(t.fees, token, amount)))
    case ReceiveFee(market, id, token, amount) =>
      if market !in env.signers then Err(Trap)
      else if market !in t.approved then Err(MarketNotApproved)
      else if !InRange(Get(t.fees, token) + amount) then Err(Trap)
      else if !InRange(Get(ByMarket(t.byMarket, id), token) + amount) then Err(Trap)
      else Ok(t.(fees := Credit(t.fees, token, amount),
                 byMarket := t.byMarket[id := Credit(ByMarket(t.byMarket, id), token, amount)]))
    case WithdrawFees(admin, token, amount, destination) =>
      if admin !in env.signers then Err(Trap)
      else if admin != t.admin then Err(Unauthorized)
      else if amount < MIN_WITHDRAWAL then Err(BelowMinimum)
      else if t.withdrawalsPaused then Err(DailyWithdrawalLimitExceeded)
      else if amount > t.limit then Err(DailyWithdrawalLimitExceeded)
      else if !InRange(Get(t.daily, Day(env)) + amount) || !InRange(t.limit * 5) then Err(Trap)
      else if Get(t.daily, Day(env)) + amount > t.limit * 5 then Err(DailyWithdrawalLimitExceeded)
      else if Get(t.fees, token) < amount then Err(InsufficientBalance)
      else if !env.transferOk then Err(Trap)
      else
        var today := t.daily[Day(env) := Get(t.daily, Day(env)) + amount];
        Ok(t.(fees := Credit(t.fees, token, -amount), daily := Pruned(today, Day(env))))
    case UpdateWithdrawalLimit(admin, limit) =>
      if admin !in env.signers then Err(Trap)
      else if admin != t.admin then Err(Unauthorized)
      else Ok(t.(limit := limit))
    case EmergencyDrain(admin, token) =>
      if admin !in env.signers then Err(Trap)
      else if admin != t.admin then Err(Unauthorized)
      else if Get(t.fees, token) > 0 && !env.transferOk then Err(Trap)
      else Ok(t.(fees := t.fees[token := 0]))
    case ApproveMarket(admin, market) =>
      if admin !in env.signers then Err(Trap)
      else if admin != t.admin then Err(Unauthorized)
      else Ok(t.(approved := t.approved + {market}))
    case RevokeMarket(admin, market) =>
      if admin !in env.signers then Err(Trap)
      else if admin != t.admin then Err(Unauthorized)
      else Ok(t.(approved := t.approved - {market}))
    case RegisterMarket(caller, market) =>
      if caller !in env.signers then Err(Trap)
      else if caller != t.factory then Err(NotFactory)
      else Ok(t.(approved := t.approved + {market}))
  }

  function Fresh(admin: Address, factory: Address, limit: I128): Ledger {
    Ledger(admin, factory, {}, limit, false, map[], map[], map[])
  }
}

/** Whole runs of the treasury. */
module TreasuryRuns {
  import opened Wrappers
  import opened Int128
  import opened Sets
  import opened Contracts
  import opened TreasurySpec

  datatype Entry =
    | Received(token: Address, amount: int, market: Option<nat>)
    | Withdrawn(token: Address, amount: int, day: nat, limit: int)
    | Drained(token: Address, amount: int)

  /** The ledger with the history of successful money movements and the time of the last call. */
  datatype History = History(t: Ledger, log: seq<Entry>, clock: nat)

  datatype Call = Call(env: Env, op: Op)

  function EntriesOf(t: Ledger, env: Env, op: Op): seq<Entry> {
    match op
    case DepositFees(_, token, amount) => [Received(token, amount, None)]
    case ReceiveFee(_, id, token, amount) => [Received(token, amount, Some(id))]
    case WithdrawFees(_, token, amount, _) => [Withdrawn(token, amount, Day(env), t.limit)]
    case EmergencyDrain(_, token) => [Drained(token, Get(t.fees, token))]
    case _ => []
  }

  /** A failing call changes nothing but the time that has passed. */
  function Step(h: History, c: Call): History {
    match Apply(h.t, c.env, c.op)
    case Err(_) => h.(clock := c.env.now)
    case Ok(t) => History(t, h.log + EntriesOf(h.t, c.env, c.op), c.env.now)
  }

  function Run(h: History, calls: seq<Call>): History {
    if calls == [] then h else Step(Run(h, calls[..|calls| - 1]), calls[|calls| - 1])
  }

  ghost predicate TimeForward(start: nat, calls: seq<Call>) {
    && (forall i :: 0 <= i < |calls| ==> start <= calls[i].env.now)
    && (forall i, j :: 0 <= i < j < |calls| ==> calls[i].env.now <= calls[j].env.now)
  }

  function Change(e: Entry, token: Address): int {
    if e.token != token then 0 else if e.Received? then e.amount else -e.amount
  }

  /** What the log says a token's ledger entry must be. */
  function Net(log: seq<Entry>, token: Address): int {
    if log == [] then 0
    else
      var e := log[|log| - 1];
      Net(log[..|log| - 1], token) + Change(e, token)
  }

  function WithdrawnOn(log: seq<Entry>, day: nat): int {
    if log == [] then 0
    else
      var e := log[|log| - 1];
      WithdrawnOn(log[..|log| - 1], day) + (if e.Withdrawn? && e.day == day then e.amount else 0)
  }

  ghost predicate HistoryOk(h: History) {
    var today := h.clock / SECONDS_PER_DAY;
    && (forall token :: Get(h.t.fees, token) == Net(h.log, token))
    && (forall day: nat :: day + 1 >= today ==> Get(h.t.daily, day) == WithdrawnOn(h.log, day))
    && (forall day :: day in h.t.daily ==> day <= today)
    && |h.t.daily| <= 2
    && (forall d, e :: d in h.t.daily && e in h.t.daily ==> d <= e + 1)
    && (forall day: nat :: day > today ==> WithdrawnOn(h.log, day) == 0)
    && CapsKept(h.log)
    && (forall i :: 0 <= i < |h.log| && h.log[i].Withdrawn? ==> MIN_WITHDRAWAL <= h.log[i].amount <= h.log[i].limit)
  }

  lemma LogAppend(log: seq<Entry>, e: Entry)
    ensures forall token :: Net(log + [e], token) == Net(log, token) + Change(e, token)
    ensures forall day: nat ::
      WithdrawnOn(log + [e], day) == WithdrawnOn(log, day) + (if e.Withdrawn? && e.day == day then e.amount else 0)
  {
    assert (log + [e])[..|log|] == log;
  }

  lemma TwoDays(daily: map<nat, int>, last: nat)
    requires forall d :: d in daily ==> d == last || d + 1 == last
    ensures |daily| <= 2
  {
    if last == 0 {
      assert daily.Keys <= {last};
      SubsetSize(daily.Keys, {last});
    } else {
      assert daily.Keys <= {last, last - 1};
      SubsetSize(daily.Keys, {last, last - 1});
    }
  }

  lemma DayForward(a: nat, b: nat)
    requires a <= b
    ensures a / SECONDS_PER_DAY <= b / SECONDS_PER_DAY
  {
  }

  lemma WithdrawOk(h: History, c: Call)
    requires HistoryOk(h) && h.clock <= c.env.now && c.op.WithdrawFees? && Apply(h.t, c.env, c.op).Ok?
    ensures HistoryOk(Step(h, c))
  {
    var n, day, e := Step(h, c), Day(c.env), EntriesOf(h.t, c.env, c.op)[0];
    DayForward(h.clock, c.env.now);
    LogAppend(h.log, e);
    forall d | d in n.t.daily ensures d == day || d + 1 == day {
    }
    TwoDays(n.t.daily, day);
    assert WithdrawnOn(n.log, day) <= 5 * h.t.limit;
    CapsAppend(h.log, e);
  }

  ghost predicate CapsKept(log: seq<Entry>) {
    forall i :: 0 <= i < |log| && log[i].Withdrawn? ==>
      WithdrawnOn(log[..i + 1], log[i].day) <= 5 * log[i].limit <= MAX
  }

  lemma CapsAppend(log: seq<Entry>, e: Entry)
    requires CapsKept(log)
    requires e.Withdrawn? ==> WithdrawnOn(log + [e], e.day) <= 5 * e.limit <= MAX
    ensures CapsKept(log + [e])
  {
    var after := log + [e];
    forall i | 0 <= i < |after| && after[i].Withdrawn?
      ensures WithdrawnOn(after[..i + 1], after[i].day) <= 5 * after[i].limit <= MAX
    {
      if i < |log| {
        assert after[..i + 1] == log[..i + 1];
      } else {
        assert after[..i + 1] == after;
      }
    }
  }

  lemma LaterOk(h: History, now: nat)
    requires HistoryOk(h) && h.clock <= now
    ensures HistoryOk(h.(clock := now))
  {
    DayForward(h.clock, now);
  }

  /** A receipt or a drain, which moves fees but no day's counter. */
  lemma MoneyOk(h: History, t: Ledger, e: Entry)
    requires HistoryOk(h) && !e.Withdrawn? && t.daily == h.t.daily
    requires forall token :: Get(t.fees, token) == Get(h.t.fees, token) + Change(e, token)
    ensures HistoryOk(History(t, h.log + [e], h.clock))
  {
    LogAppend(h.log, e);
    CapsAppend(h.log, e);
  }

  lemma EntryEffect(t: Ledger, env: Env, op: Op)
    requires Apply(t, env, op).Ok? && !op.WithdrawFees?
    ensures var n, entries := Apply(t, env, op).value, EntriesOf(t, env, op);
      && n.daily == t.daily
      && (entries == [] ==> n.fees == t.fees)
      && (entries != [] ==> |entries| == 1 && !entries[0].Withdrawn? && forall token ::
            Get(n.fees, token) == Get(t.fees, token) + Change(entries[0], token))
  {
  }

  lemma OtherOk(h: History, c: Call)
    requires HistoryOk(h) && h.clock <= c.env.now && !(c.op.WithdrawFees? && Apply(h.t, c.env, c.op).Ok?)
    ensures HistoryOk(Step(h, c))
  {
    var later := h.(clock := c.env.now);
    LaterOk(h, c.env.now);
    var r := Apply(h.t, c.env, c.op);
    if r.Ok? {
      var entries := EntriesOf(h.t, c.env, c.op);
      EntryEffect(h.t, c.env, c.op);
      if entries == [] {
        assert h.log + entries == h.log;
      } else {
        assert entries == [entries[0]];
        MoneyOk(later, r.value, entries[0]);
      }
    }
  }

  /**
   * Over any run with non-decreasing time: each token's fees are what came in less what went out;
   * today's counter is the sum of all of today's withdrawals, pruning notwithstanding; each
   * withdrawal found the day's total within five times the limit in force; two days are kept.
   */
  lemma {:induction false} TreasuryBooks(admin: Address, factory: Address, limit: I128, start: nat, calls: seq<Call>)
    requires TimeForward(start, calls)
    ensures var h := Run(History(Fresh(admin, factory, limit), [], start), calls);
      && HistoryOk(h)
      && (calls != [] ==> h.clock == calls[|calls| - 1].env.now) && (calls == [] ==> h.clock == start)
  {
    if calls != [] {
      var before := calls[..|calls| - 1];
      TreasuryBooks(admin, factory, limit, start, before);
      var h, c := Run(History(Fresh(admin, factory, limit), [], start), before), calls[|calls| - 1];
      assert h.clock <= c.env.now by {
        if before != [] { assert calls[|before| - 1].env.now <= c.env.now; }
      }
      if c.op.WithdrawFees? && Apply(h.t, c.env, c.op).Ok? {
        WithdrawOk(h, c);
      } else {
        OtherOk(h, c);
      }
    }
  }

  ghost predicate NoNegativeReceipts(calls: seq<Call>) {
    forall i :: 0 <= i < |calls| && calls[i].op.ReceiveFee? ==> calls[i].op.amount >= 0
  }

  lemma FeeStepNonNegative(h: History, c: Call, token: Address)
    requires Get(h.t.fees, token) >= 0 && (c.op.ReceiveFee? ==> c.op.amount >= 0)
    ensures Get(Step(h, c).t.fees, token) >= 0
  {
    match c.op
    case WithdrawFees(_, other, _, _) => assert other == token || Get(Step(h, c).t.fees, token) == Get(h.t.fees, token);
    case _ =>
  }

  /** With no negative receipt reported, no token's fees are ever negative. */
  lemma {:induction false} FeesNeverNegative(
      admin: Address, factory: Address, limit: I128, start: nat, calls: seq<Call>)
    requires NoNegativeReceipts(calls)
    ensures forall token :: Get(Run(History(Fresh(admin, factory, limit), [], start), calls).t.fees, token) >= 0
  {
    if calls != [] {
      var before, c := calls[..|calls| - 1], calls[|calls| - 1];
      FeesNeverNegative(admin, factory, limit, start, before);
      var h := Run(History(Fresh(admin, factory, limit), [], start), before);
      assert c.op.ReceiveFee? ==> c.op.amount >= 0;
      assert Run(History(Fresh(admin, factory, limit), [], start), calls) == Step(h, c);
      forall token ensures Get(Step(h, c).t.fees, token) >= 0 {
        FeeStepNonNegative(h, c, token);
      }
    }
  }

  /** The contract books whatever an approved market reports as received, whether or not anything was. */
  lemma ReceiptGoesThrough(admin: Address, factory: Address, limit: I128, market: Address, token: Address, amount: I128)
    returns (calls: seq<Call>)
    ensures TimeForward(0, calls) && forall i :: 0 <= i < |calls| ==> calls[i].env.now == 0
    ensures forall i :: 0 <= i < |calls| ==> calls[i].op.ReceiveFee? || calls[i].op.ApproveMarket?
    ensures forall i :: 0 <= i < |calls| && calls[i].op.ReceiveFee? ==> calls[i].op.amount == amount
    ensures var h := Run(History(Fresh(admin, factory, limit), [], 0), calls);
      && h.t == Fresh(admin, factory, limit).(approved := {market}, fees := map[token := amount],
                                              byMarket := map[0 := map[token := amount]])
      && h.log == [Received(token, amount, Some(0))] && h.clock == 0
  {
    var first := Call(Env(0, {admin}, true), ApproveMarket(admin, market));
    var second := Call(Env(0, {market}, true), ReceiveFee(market, 0, token, amount));
    var start := History(Fresh(admin, factory, limit), [], 0);
    calls := [first, second];
    assert [first, second][..1] == [first] && [first][..0] == [];
    var h := Run(start, [first]);
    assert h == Step(Run(start, []), first) == Step(start, first);
    assert h.t == Fresh(admin, factory, limit).(approved := {market});
  }

  ghost predicate ReceiptsAtLeast(calls: seq<Call>, least: I128) {
    forall i :: 0 <= i < |calls| && calls[i].op.ReceiveFee? ==> calls[i].op.amount >= least
  }

  ghost predicate FeesSafe(admin: Address, factory: Address, limit: I128, start: nat, calls: seq<Call>) {
    forall token :: Get(Run(History(Fresh(admin, factory, limit), [], start), calls).t.fees, token) >= 0
  }

  ghost predicate SafeAbove(least: I128) {
    forall admin, factory, limit, start, calls ::
      ReceiptsAtLeast(calls, least) ==> FeesSafe(admin, factory, limit, start, calls)
  }

  /** Reported receipts keep every run's fees non-negative exactly when no negative one is let through. */
  lemma ReceiptGuardExact(least: I128)
    ensures SafeAbove(least) <==> least >= 0
  {
    if least >= 0 {
      forall admin, factory, limit, start, calls | ReceiptsAtLeast(calls, least)
        ensures FeesSafe(admin, factory, limit, start, calls)
      {
        FeesNeverNegative(admin, factory, limit, start, calls);
      }
    } else {
      var a, t := Address(1), Address(2);
      var calls := ReceiptGoesThrough(a, a, 0, a, t, least);
      assert Get(Run(History(Fresh(a, a, 0), [], 0), calls).t.fees, t) < 0;
      assert !FeesSafe(a, a, 0, 0, calls);
    }
  }

  // What a withdrawal limit allows

  /** No limit in force during the run, the first included, is above this one. */
  ghost predicate LimitsAtMost(first: I128, calls: seq<Call>, most: I128) {
    && first <= most
    && forall i :: 0 <= i < |calls| && calls[i].op.UpdateWithdrawalLimit? ==> calls[i].op.limit <= most
  }

  /** The most that limits up to this one let out in a day: five times the largest one that does not overflow. */
  function LargestDay(most: int): int {
    if most < MIN_WITHDRAWAL then 0 else if most * 5 <= MAX then most * 5 else MAX / 5 * 5
  }

  lemma LimitStep(h: History, c: Call, most: I128)
    requires h.t.limit <= most && (c.op.UpdateWithdrawalLimit? ==> c.op.limit <= most)
    requires forall i :: 0 <= i < |h.log| && h.log[i].Withdrawn? ==> h.log[i].limit <= most
    ensures Step(h, c).t.limit <= most
    ensures forall i :: 0 <= i < |Step(h, c).log| && Step(h, c).log[i].Withdrawn? ==> Step(h, c).log[i].limit <= most
  {
  }

  lemma {:induction false} LimitsKept(
      admin: Address, factory: Address, limit: I128, start: nat, calls: seq<Call>, most: I128)
    requires LimitsAtMost(limit, calls, most)
    ensures var h := Run(History(Fresh(admin, factory, limit), [], start), calls);
      && h.t.limit <= most
      && forall i :: 0 <= i < |h.log| && h.log[i].Withdrawn? ==> h.log[i].limit <= most
  {
    if calls != [] {
      var before, c := calls[..|calls| - 1], calls[|calls| - 1];
      LimitsKept(admin, factory, limit, start, before, most);
      LimitStep(Run(History(Fresh(admin, factory, limit), [], start), before), c, most);
    }
  }

  /** A day's total is bounded by the limit that was in force at the day's last withdrawal. */
  lemma {:induction false} DayTotalBound(log: seq<Entry>, day: nat, most: int)
    requires CapsKept(log)
    requires forall i :: 0 <= i < |log| && log[i].Withdrawn? ==>
      MIN_WITHDRAWAL <= log[i].amount <= log[i].limit <= most
    ensures WithdrawnOn(log, day) <= LargestDay(most)
  {
    if log != [] {
      var n, before := |log| - 1, log[..|log| - 1];
      forall i | 0 <= i < |before| ensures before[..i + 1] == log[..i + 1] && before[i] == log[i] {
      }
      assert log[..n + 1] == log;
      if !(log[n].Withdrawn? && log[n].day == day) {
        DayTotalBound(before, day, most);
      }
    }
  }

  /** The state after `n` withdrawals of the whole limit on the first day. */
  ghost predicate Emptying(h: History, admin: Address, token: Address, limit: I128, n: nat) {
    && h.t.admin == admin && h.t.limit == limit && !h.t.withdrawalsPaused && h.clock == 0
    && Get(h.t.fees, token) == limit * 5 - limit * n
    && Get(h.t.daily, 0) == limit * n && WithdrawnOn(h.log, 0) == limit * n
  }

  lemma {:induction false} WithdrawRepeatedly(
      start: History, before: seq<Call>, admin: Address, token: Address, limit: I128, n: nat)
    returns (calls: seq<Call>)
    requires Emptying(Run(start, before), admin, token, limit, 0) && n <= 5
    requires MIN_WITHDRAWAL <= limit && limit * 5 <= MAX
    ensures Emptying(Run(start, calls), admin, token, limit, n)
    ensures before <= calls
    ensures forall i :: |before| <= i < |calls| ==> calls[i].op.WithdrawFees? && calls[i].env.now == 0
  {
    if n == 0 {
      calls := before;
    } else {
      var fewer := WithdrawRepeatedly(start, before, admin, token, limit, n - 1);
      var c := Call(Env(0, {admin}, true), WithdrawFees(admin, token, limit, admin));
      calls := fewer + [c];
      assert calls[..|calls| - 1] == fewer;
      LogAppend(Run(start, fewer).log, Withdrawn(token, limit, 0, limit));
      Withdraws(Run(start, fewer), c, admin, token, limit, n - 1);
    }
  }

  lemma Withdraws(h: History, c: Call, admin: Address, token: Address, limit: I128, n: nat)
    requires Emptying(h, admin, token, limit, n) && n < 5 && MIN_WITHDRAWAL <= limit && limit * 5 <= MAX
    requires c == Call(Env(0, {admin}, true), WithdrawFees(admin, token, limit, admin))
    ensures Emptying(Step(h, c), admin, token, limit, n + 1)
  {
    assert limit * n + limit == limit * (n + 1) <= limit * 5;
    assert Apply(h.t, c.env, c.op).Ok?;
    LogAppend(h.log, Withdrawn(token, limit, 0, limit));
  }

  /** The largest total is met: one receipt, then five withdrawals of the limit. */
  lemma LargestDayMet(most: I128) returns (limit: I128, calls: seq<Call>)
    requires most >= MIN_WITHDRAWAL
    ensures LimitsAtMost(limit, calls, most) && TimeForward(0, calls)
    ensures WithdrawnOn(Run(History(Fresh(Address(1), Address(1), limit), [], 0), calls).log, 0) == LargestDay(most)
  {
    limit := if most * 5 <= MAX then most else MAX / 5;
    var a, token := Address(1), Address(2);
    var start := History(Fresh(a, a, limit), [], 0);
    var before := ReceiptGoesThrough(a, a, limit, a, token, limit * 5);
    calls := WithdrawRepeatedly(start, before, a, token, limit, 5);
    forall i | 0 <= i < |calls| ensures !calls[i].op.UpdateWithdrawalLimit? && calls[i].env.now == 0 {
      assert i < |before| ==> calls[i] == before[i];
    }
  }

  /** No run within these limits takes more than this out on any day. */
  ghost predicate DaysWithin(most: I128, bound: int) {
    forall admin, factory, limit, start, calls, day: nat ::
      TimeForward(start, calls) && LimitsAtMost(limit, calls, most) ==>
        WithdrawnOn(Run(History(Fresh(admin, factory, limit), [], start), calls).log, day) <= bound
  }

  /**
   * Whatever the calls and however the limit is changed below a ceiling, the most that leaves in a day
   * is `LargestDay` of the ceiling, and no smaller bound holds. A limit whose fivefold overflows lets
   * nothing out at all.
   */
  lemma DailyCapExact(most: I128, bound: int)
    ensures DaysWithin(most, bound) <==> bound >= LargestDay(most)
  {
    if bound >= LargestDay(most) {
      forall admin, factory, limit, start, calls, day: nat |
        TimeForward(start, calls) && LimitsAtMost(limit, calls, most)
        ensures WithdrawnOn(Run(History(Fresh(admin, factory, limit), [], start), calls).log, day) <= bound
      {
        TreasuryBooks(admin, factory, limit, start, calls);
        LimitsKept(admin, factory, limit, start, calls, most);
        DayTotalBound(Run(History(Fresh(admin, factory, limit), [], start), calls).log, day, most);
      }
    } else if most >= MIN_WITHDRAWAL {
      var limit, calls := LargestDayMet(most);
      assert WithdrawnOn(Run(History(Fresh(Address(1), Address(1), limit), [], 0), calls).log, 0) > bound;
    } else {
      var start := History(Fresh(Address(1), Address(1), most), [], 0);
      assert TimeForward(0, []) && LimitsAtMost(most, [], most);
      assert WithdrawnOn(Run(start, []).log, 0) == 0 > bound;
    }
  }

  /** Some run with this limit throughout makes a withdrawal, whoever the admin and the factory are. */
  ghost predicate Usable(admin: Address, factory: Address, limit: I128) {
    exists start: nat, calls, i ::
      TimeForward(start, calls) && Unchanged(calls) && WithdrewAt(admin, factory, limit, start, calls, i)
  }

  ghost predicate Unchanged(calls: seq<Call>) {
    forall i :: 0 <= i < |calls| ==> !calls[i].op.UpdateWithdrawalLimit?
  }

  ghost predicate WithdrewAt(
      admin: Address, factory: Address, limit: I128, start: nat, calls: seq<Call>, i: nat)
  {
    var log := Run(History(Fresh(admin, factory, limit), [], start), calls).log;
    i < |log| && log[i].Withdrawn?
  }

  lemma UnchangedStep(h: History, c: Call, limit: I128)
    requires h.t.limit == limit && !c.op.UpdateWithdrawalLimit?
    ensures Step(h, c).t.limit == limit
    ensures Step(h, c).log == h.log
      || exists e :: Step(h, c).log == h.log + [e] && (e.Withdrawn? ==> e.limit == limit)
  {
  }

  lemma {:induction false} LimitUnchanged(
      admin: Address, factory: Address, limit: I128, start: nat, calls: seq<Call>)
    requires Unchanged(calls)
    ensures var h := Run(History(Fresh(admin, factory, limit), [], start), calls);
      && h.t.limit == limit
      && forall i :: 0 <= i < |h.log| && h.log[i].Withdrawn? ==> h.log[i].limit == limit
  {
    if calls != [] {
      var before := calls[..|calls| - 1];
      LimitUnchanged(admin, factory, limit, start, before);
      UnchangedStep(Run(History(Fresh(admin, factory, limit), [], start), before), calls[|calls| - 1], limit);
    }
  }

  lemma WithdrawsOnce(admin: Address, factory: Address, limit: I128)
    requires MIN_WITHDRAWAL <= limit && limit * 5 <= MAX
    ensures Usable(admin, factory, limit)
  {
    var token := Address(2);
    var start := History(Fresh(admin, factory, limit), [], 0);
    var before := ReceiptGoesThrough(admin, factory, limit, admin, token, limit * 5);
    var c := Call(Env(0, {admin}, true), WithdrawFees(admin, token, limit, admin));
    var calls := before + [c];
    assert calls[..|calls| - 1] == before;
    Withdraws(Run(start, before), c, admin, token, limit, 0);
    var log := Run(start, calls).log;
    assert log == Run(start, before).log + [Withdrawn(token, limit, 0, limit)];
    assert WithdrewAt(admin, factory, limit, 0, calls, |log| - 1) && TimeForward(0, calls) && Unchanged(calls);
  }

  /** A limit lets any withdrawal through exactly when it reaches the minimum and its fivefold fits. */
  lemma UsableIff(admin: Address, factory: Address, limit: I128)
    ensures Usable(admin, factory, limit) <==> MIN_WITHDRAWAL <= limit && limit * 5 <= MAX
  {
    if MIN_WITHDRAWAL <= limit && limit * 5 <= MAX {
      WithdrawsOnce(admin, factory, limit);
    }
    forall start: nat, calls, i |
      TimeForward(start, calls) && Unchanged(calls) && WithdrewAt(admin, factory, limit, start, calls, i)
      ensures MIN_WITHDRAWAL <= limit && limit * 5 <= MAX
    {
      TreasuryBooks(admin, factory, limit, start, calls);
      LimitUnchanged(admin, factory, limit, start, calls);
    }
  }
}

/** The treasury contract as an object over its storage. */
module TreasuryContract {
  import opened Wrappers
  import opened Int128
  import opened Contracts
  import opened TreasurySpec

  class Treasury {
    const admin: Address
    const factory: Address
    var approvedMarkets: seq<Address>
    var withdrawalLimit: I128
    var withdrawalsPaused: bool
    var accumulatedFees: map<Address, int>
    var feesByMarket: map<nat, map<Address, int>>
    var dailyWithdrawn: map<nat, int>

    ghost function Value(): Ledger reads this {
      Ledger(admin, factory, (set m | m in approvedMarkets), withdrawalLimit, withdrawalsPaused,
             accumulatedFees, feesByMarket, dailyWithdrawn)
    }

    /** What a method's result and the state it leaves say about the specified call. */
    ghost predicate Matches(before: Ledger, env: Env, op: Op, r: Result<(), ContractError>) reads this {
      match Apply(before, env, op)
      case Ok(after) => r.Ok? && Value() == after
      case Err(e) => r == Err(e) && Value() == before
    }

    constructor (admin: Address, factory: Address, withdrawalLimit: I128)
      ensures Value() == Fresh(admin, factory, withdrawalLimit)
    {
      this.admin := admin;
      this.factory := factory;
      this.withdrawalLimit := withdrawalLimit;
      approvedMarkets := [];
      withdrawalsPaused := false;
      accumulatedFees := map[];
      feesByMarket := map[];
      dailyWithdrawn := map[];
    }

    method DepositFees(env: Env, market: Address, token: Address, amount: I128) returns (r: Result<(), ContractError>)
      modifies this
      ensures Matches(old(Value()), env, Op.DepositFees(market, token, amount), r)
    {
      if market !in env.signers { return Err(Trap); }
      if market !in approvedMarkets { return Err(MarketNotApproved); }
      var saved := accumulatedFees;
      if !InRange(Get(accumulatedFees, token) + amount) { return Err(Trap); }
      accumulatedFees := accumulatedFees[token := Get(accumulatedFees, token) + amount];
      if !env.transferOk || amount < 0 {
        accumulatedFees := saved;
        return Err(Trap);
      }
      return Ok(());
    }

    method ReceiveFee(env: Env, market: Address, marketId: nat, token: Address, amount: I128)
      returns (r: Result<(), ContractError>)
      modifies this
      ensures Matches(old(Value()), env, Op.ReceiveFee(market, marketId, token, amount), r)
    {
      if market !in env.signers { return Err(Trap); }
      if market !in approvedMarkets { return Err(MarketNotApproved); }
      var saved := accumulatedFees;
      if !InRange(Get(accumulatedFees, token) + amount) { return Err(Trap); }
      accumulatedFees := accumulatedFees[token := Get(accumulatedFees, token) + amount];
      var tokenMap := ByMarket(feesByMarket, marketId);
      if !InRange(Get(tokenMap, token) + amount) {
        accumulatedFees := saved;
        return Err(Trap);
      }
      tokenMap := tokenMap[token := Get(tokenMap, token) + amount];
      feesByMarket := feesByMarket[marketId := tokenMap];
      return Ok(());
    }

    /** Collects the stale days, then removes them one by one. */
    static method PruneDailyWithdrawn(daily: map<nat, int>, current: nat) returns (pruned: map<nat, int>)
      ensures pruned == Pruned(daily, current)
    {
      var stale: seq<nat> := [];
      var rest := daily.Keys;
      while rest != {}
        invariant rest <= daily.Keys
        invariant forall k :: k in stale <==> k in daily && k !in rest && k + 1 < current
        decreases rest
      {
        var k :| k in rest;
        rest := rest - {k};
        if k + 1 < current {
          stale := stale + [k];
        }
      }
      pruned := daily;
      var i := 0;
      while i < |stale|
        invariant 0 <= i <= |stale|
        invariant pruned == map k | k in daily && k !in stale[..i] :: daily[k]
      {
        pruned := pruned - {stale[i]};
        i := i + 1;
      }
      assert stale[..i] == stale;
    }

    method WithdrawFees(env: Env, caller: Address, token: Address, amount: I128, destination: Address)
      returns (r: Result<(), ContractError>)
      modifies this
      ensures Matches(old(Value()), env, Op.WithdrawFees(caller, token, amount, destination), r)
    {
      if caller !in env.signers { return Err(Trap); }
      if caller != admin { return Err(Unauthorized); }
      if amount < MIN_WITHDRAWAL { return Err(BelowMinimum); }
      if withdrawalsPaused { return Err(DailyWithdrawalLimitExceeded); }
      if amount > withdrawalLimit { return Err(DailyWithdrawalLimitExceeded); }
      var bucket := Day(env);
      var daily := dailyWithdrawn;
      var todayTotal := Get(daily, bucket);
      if !InRange(todayTotal + amount) || !InRange(withdrawalLimit * 5) { return Err(Trap); }
      if todayTotal + amount > withdrawalLimit * 5 { return Err(DailyWithdrawalLimitExceeded); }
      var balance := Get(accumulatedFees, token);
      if balance < amount { return Err(InsufficientBalance); }

      var savedFees, savedDaily := accumulatedFees, dailyWithdrawn;
      accumulatedFees := accumulatedFees[token := balance - amount];
      daily := daily[bucket := todayTotal + amount];
      daily := PruneDailyWithdrawn(daily, bucket);
      dailyWithdrawn := daily;
      if !env.transferOk {
        accumulatedFees, dailyWithdrawn := savedFees, savedDaily;
        return Err(Trap);
      }
      return Ok(());
    }

    method UpdateWithdrawalLimit(env: Env, caller: Address, newLimit: I128) returns (r: Result<(), ContractError>)
      modifies this
      ensures Matches(old(Value()), env, Op.UpdateWithdrawalLimit(caller, newLimit), r)
    {
      if caller !in env.signers { return Err(Trap); }
      if caller != admin { return Err(Unauthorized); }
      withdrawalLimit := newLimit;
      return Ok(());
    }

    method EmergencyDrain(env: Env, caller: Address, token: Address) returns (r: Result<(), ContractError>)
      modifies this
      ensures Matches(old(Value()), env, Op.EmergencyDrain(caller, token), r)
    {
      if caller !in env.signers { return Err(Trap); }
      if caller != admin { return Err(Unauthorized); }
      var saved, balance := accumulatedFees, Get(accumulatedFees, token);
      accumulatedFees := accumulatedFees[token := 0];
      if balance > 0 && !env.transferOk {
        accumulatedFees := saved;
        return Err(Trap);
      }
      return Ok(());
    }

    /** Shared by the admin's approval and the factory's registration. */
    method AddMarket(market: Address)
      modifies this`approvedMarkets
      ensures forall m :: m in approvedMarkets <==> m in old(approvedMarkets) || m == market
    {
      if market !in approvedMarkets {
        approvedMarkets := approvedMarkets + [market];
      }
    }

    method ApproveMarket(env: Env, caller: Address, market: Address) returns (r: Result<(), ContractError>)
      modifies this
      ensures Matches(old(Value()), env, Op.ApproveMarket(caller, market), r)
    {
      if caller !in env.signers { return Err(Trap); }
      if caller != admin { return Err(Unauthorized); }
      AddMarket(market);
      return Ok(());
    }

    method RevokeMarket(env: Env, caller: Address, market: Address) returns (r: Result<(), ContractError>)
      modifies this
      ensures Matches(old(Value()), env, Op.RevokeMarket(caller, market), r)
    {
      if caller !in env.signers { return Err(Trap); }
      if caller != admin { return Err(Unauthorized); }
      var updated: seq<Address> := [];
      var i := 0;
      while i < |approvedMarkets|
        invariant 0 <= i <= |approvedMarkets|
        invariant forall m :: m in updated <==> m in approvedMarkets[..i] && m != market
      {
        if approvedMarkets[i] != market {
          updated := updated + [approvedMarkets[i]];
        }
        i := i + 1;
      }
      assert approvedMarkets[..i] == approvedMarkets;
      approvedMarkets := updated;
      return Ok(());
    }

    method RegisterMarket(env: Env, caller: Address, market: Address) returns (r: Result<(), ContractError>)
      modifies this
      ensures Matches(old(Value()), env, Op.RegisterMarket(caller, market), r)
    {
      if caller !in env.signers { return Err(Trap); }
      if caller != factory { return Err(NotFactory); }
      AddMarket(market);
      return Ok(());
    }
  }
}
