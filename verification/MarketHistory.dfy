/**
 * A market told from the calls it accepted. Who may do what, and when, is stated over the accepted calls
 * alone; the contract's state is what they make it, and it accepts exactly the calls they allow.
 */
module MarketHistory {
  import opened Wrappers
  import opened Int128
  import opened Contracts
  import opened MarketSpec
  import opened MarketInvariant
  import opened MarketSteps
  import opened MarketMachine
  import opened MarketPayouts

  datatype Accepted = Accepted(op: Op, env: Env)

  datatype Bet = Bet(side: BetSide, amount: int, at: nat)

  // What the accepted calls say, latest last

  function PausedAfter(calls: seq<Accepted>): bool {
    if calls == [] then false
    else match calls[|calls| - 1].op
      case EmergencyPause(_) => true
      case EmergencyUnpause(_) => false
      case _ => PausedAfter(calls[..|calls| - 1])
  }

  /** The oracle's report was accepted and named this outcome. */
  predicate Named(calls: seq<Accepted>, oracle: Address, outcome: Outcome) {
    exists i :: 0 <= i < |calls| && IsReport(calls[i].op, oracle, outcome)
  }

  predicate IsReport(op: Op, oracle: Address, outcome: Outcome) {
    op.ResolveMarket? && op.oracle == oracle && op.report.outcome == outcome
  }

  /** Another oracle's report named the same outcome. */
  ghost predicate Agreed(calls: seq<Accepted>, oracle: Address, outcome: Outcome) {
    exists o :: o != oracle && Named(calls, o, outcome)
  }

  ghost predicate HasReported(calls: seq<Accepted>, oracle: Address) {
    exists x :: Named(calls, oracle, x)
  }

  ghost function PhaseAfter(calls: seq<Accepted>): Status {
    if calls == [] then Open
    else
      var before := calls[..|calls| - 1];
      match calls[|calls| - 1].op
      case LockMarket(_) => Locked
      case ResolveMarket(o, r) => if Agreed(before, o, r.outcome) then Resolved else PhaseAfter(before)
      case CancelMarket(_) => Cancelled
      case DisputeMarket(_) => Disputed
      case ResolveDispute(_, _) => Resolved
      case _ => PhaseAfter(before)
  }

  /** The outcome of the latest decision, of two oracles or of the admin in a dispute, and its time. */
  ghost function VerdictAfter(calls: seq<Accepted>): Option<(Outcome, nat)> {
    if calls == [] then None
    else
      var before, now := calls[..|calls| - 1], calls[|calls| - 1].env.now;
      match calls[|calls| - 1].op
      case ResolveMarket(o, r) => if Agreed(before, o, r.outcome) then Some((r.outcome, now)) else VerdictAfter(before)
      case ResolveDispute(_, decided) => Some((decided, now))
      case _ => VerdictAfter(before)
  }

  function BetBy(calls: seq<Accepted>, b: Address): Option<Bet> {
    if calls == [] then None
    else
      var c := calls[|calls| - 1];
      if c.op.PlaceBet? && c.op.bettor == b then Some(Bet(c.op.side, c.op.amount, c.env.now))
      else BetBy(calls[..|calls| - 1], b)
  }

  predicate IsClaim(op: Op, b: Address) {
    op == ClaimWinnings(b) || op == ClaimRefund(b)
  }

  predicate SettledBy(calls: seq<Accepted>, b: Address) {
    exists i :: 0 <= i < |calls| && IsClaim(calls[i].op, b)
  }

  function StakedOn(calls: seq<Accepted>, side: BetSide): int {
    if calls == [] then 0
    else
      var op := calls[|calls| - 1].op;
      StakedOn(calls[..|calls| - 1], side) + (if op.PlaceBet? && op.side == side then op.amount else 0)
  }

  /** All accepted stakes. */
  function AllStakes(calls: seq<Accepted>): int {
    StakedOn(calls, BetSide.FighterA) + StakedOn(calls, BetSide.FighterB) + StakedOn(calls, BetSide.Draw)
  }

  // The rules

  predicate Signed(env: Env, who: Address) {
    who in env.signers && who != SELF
  }

  /** The bettor's stake is on the side that bears the name of the decided outcome. */
  ghost predicate Backed(calls: seq<Accepted>, b: Address) {
    && BetBy(calls, b).Some? && VerdictAfter(calls).Some?
    && SameName(VerdictAfter(calls).value.0, BetBy(calls, b).value.side)
  }

  ghost predicate BetAllowed(config: Config, before: seq<Accepted>, env: Env, b: Address, amount: int) {
    && Signed(env, b) && !PausedAfter(before) && PhaseAfter(before) == Open
    && env.now + config.lockBefore < config.scheduledAt
    && config.minBet <= amount <= config.maxBet && amount >= 0
    && BetBy(before, b).None?
  }

  ghost predicate ReportAllowed(config: Config, before: seq<Accepted>, env: Env, oracle: Address, report: Report) {
    && Signed(env, oracle) && !PausedAfter(before) && PhaseAfter(before) == Locked
    && oracle in env.whitelist && report.oracle == oracle && report.signatureValid
    && env.now <= config.scheduledAt + config.resolutionWindow && env.now <= U64_MAX
    && !HasReported(before, oracle)
  }

  ghost predicate Allowed(factory: Address, config: Config, before: seq<Accepted>, c: Accepted) {
    match c.op
    case PlaceBet(b, side, amount) => BetAllowed(config, before, c.env, b, amount)
    case LockMarket(caller) =>
      && Signed(c.env, caller) && !PausedAfter(before) && (caller == factory || caller in c.env.whitelist)
      && PhaseAfter(before) == Open && config.scheduledAt <= c.env.now + config.lockBefore
    case ResolveMarket(oracle, report) => ReportAllowed(config, before, c.env, oracle, report)
    case ClaimWinnings(b) =>
      && Signed(c.env, b) && !PausedAfter(before) && PhaseAfter(before) == Resolved
      && Backed(before, b) && !SettledBy(before, b)
    case ClaimRefund(b) =>
      && Signed(c.env, b) && !PausedAfter(before) && PhaseAfter(before) == Cancelled
      && BetBy(before, b).Some? && !SettledBy(before, b)
    case CancelMarket(caller) =>
      && Signed(c.env, caller) && !PausedAfter(before) && (caller == factory || caller in c.env.whitelist)
      && PhaseAfter(before) in {Open, Locked}
    case DisputeMarket(admin) =>
      Signed(c.env, admin) && !PausedAfter(before) && admin == factory && PhaseAfter(before) == Resolved
    case ResolveDispute(admin, _) =>
      Signed(c.env, admin) && !PausedAfter(before) && admin == factory && PhaseAfter(before) == Disputed
    case EmergencyPause(admin) => Signed(c.env, admin) && admin == factory
    case EmergencyUnpause(admin) => Signed(c.env, admin) && admin == factory
  }

  /** Every accepted call was allowed by the calls accepted before it. */
  ghost predicate AllAllowed(factory: Address, config: Config, calls: seq<Accepted>) {
    forall i :: 0 <= i < |calls| ==> Allowed(factory, config, calls[..i], calls[i])
  }

  // The state that the calls make

  ghost predicate StateFits(st: Storage, factory: Address, config: Config, calls: seq<Accepted>) {
    && st.factory == factory && st.state.config == config
    && st.paused == PausedAfter(calls)
    && st.state.status == PhaseAfter(calls)
    && VerdictFits(st.state, VerdictAfter(calls))
  }

  predicate VerdictFits(s: MarketState, verdict: Option<(Outcome, nat)>) {
    if verdict.None? then s.outcome == None && s.resolvedAt == 0
    else s.outcome == Some(verdict.value.0) && s.resolvedAt == verdict.value.1
  }

  predicate PoolsFit(s: MarketState, calls: seq<Accepted>) {
    && s.poolA == StakedOn(calls, BetSide.FighterA)
    && s.poolB == StakedOn(calls, BetSide.FighterB)
    && s.poolDraw == StakedOn(calls, BetSide.Draw)
  }

  predicate BetFits(st: Storage, calls: seq<Accepted>, b: Address) {
    match BetBy(calls, b)
    case None => b !in st.bets && !SettledBy(calls, b)
    case Some(bet) => b in st.bets && st.bets[b] == [BetRecord(b, bet.side, bet.amount, bet.at, SettledBy(calls, b))]
  }

  ghost predicate ReportsFit(st: Storage, calls: seq<Accepted>) {
    st.state.status in {Open, Locked, Cancelled} ==>
      forall o, x :: (o in st.pending && st.pending[o] == x) <==> Named(calls, o, x)
  }

  /** One payment for each claim, in order, of its kind and to its bettor. */
  ghost predicate PaymentsFit(payments: seq<Payment>, calls: seq<Accepted>) {
    if calls == [] then payments == []
    else
      var before, op := calls[..|calls| - 1], calls[|calls| - 1].op;
      match op
      case ClaimWinnings(_) => LastPaidBy(payments, op) && PaymentsFit(payments[..|payments| - 1], before)
      case ClaimRefund(_) => LastPaidBy(payments, op) && PaymentsFit(payments[..|payments| - 1], before)
      case _ => PaymentsFit(payments, before)
  }

  predicate PaidBy(p: Payment, op: Op) {
    match op
    case ClaimWinnings(b) => p.Winnings? && p.bettor == b
    case ClaimRefund(b) => p.Refund? && p.bettor == b
    case _ => false
  }

  predicate LastPaidBy(payments: seq<Payment>, op: Op) {
    payments != [] && PaidBy(payments[|payments| - 1], op)
  }

  ghost predicate HistoryFits(w: World, factory: Address, config: Config, calls: seq<Accepted>) {
    && StateFits(w.st, factory, config, calls)
    && PoolsFit(w.st.state, calls)
    && (forall b :: BetFits(w.st, calls, b))
    && ReportsFit(w.st, calls)
    && PaymentsFit(w.payments, calls)
    && AllAllowed(factory, config, calls)
  }

  // One more call

  lemma MoreNamed(calls: seq<Accepted>, c: Accepted, o: Address, x: Outcome)
    ensures Named(calls + [c], o, x) <==> Named(calls, o, x) || IsReport(c.op, o, x)
  {
    var after := calls + [c];
    if IsReport(c.op, o, x) {
      assert IsReport(after[|calls|].op, o, x);
    }
    if i :| 0 <= i < |calls| && IsReport(calls[i].op, o, x) {
      assert IsReport(after[i].op, o, x);
    }
  }

  lemma MoreSettled(calls: seq<Accepted>, c: Accepted, b: Address)
    ensures SettledBy(calls + [c], b) <==> SettledBy(calls, b) || IsClaim(c.op, b)
  {
    var after := calls + [c];
    if IsClaim(c.op, b) {
      assert IsClaim(after[|calls|].op, b);
    }
    if i :| 0 <= i < |calls| && IsClaim(calls[i].op, b) {
      assert IsClaim(after[i].op, b);
    }
  }

  lemma MoreAllowed(factory: Address, config: Config, calls: seq<Accepted>, c: Accepted)
    requires AllAllowed(factory, config, calls) && Allowed(factory, config, calls, c)
    ensures AllAllowed(factory, config, calls + [c])
  {
    var after := calls + [c];
    forall i | 0 <= i < |after| ensures Allowed(factory, config, after[..i], after[i]) {
      if i < |calls| {
        assert after[..i] == calls[..i];
      } else {
        assert after[..i] == calls;
      }
    }
  }

  /** The oracles that agree with a report, in storage and in the log. */
  lemma AgreedIff(st: Storage, calls: seq<Accepted>, oracle: Address, outcome: Outcome)
    requires st.state.status == Locked && ReportsFit(st, calls)
    ensures Agreeing(st.pending, oracle, outcome) != {} <==> Agreed(calls, oracle, outcome)
    ensures oracle in st.pending <==> HasReported(calls, oracle)
  {
    if o :| o != oracle && Named(calls, o, outcome) {
      assert o in Agreeing(st.pending, oracle, outcome);
    }
    if o :| o in Agreeing(st.pending, oracle, outcome) {
      assert Named(calls, o, outcome);
    }
    if oracle in st.pending {
      assert Named(calls, oracle, st.pending[oracle]);
    }
  }

  // Acceptance: the contract's checks are the rules

  /** What else a call needs: room in 128 bits for a stake, and no claim in flight for a claim. */
  predicate Room(w: World, op: Op) {
    match op
    case PlaceBet(_, _, amount) => w.st.state.totalPool + amount <= MAX
    case ClaimWinnings(_) => !w.st.claiming
    case ClaimRefund(_) => !w.st.claiming
    case _ => true
  }

  lemma BetAcceptedIff(
      w: World, factory: Address, config: Config, calls: seq<Accepted>,
      env: Env, b: Address, side: BetSide, amount: int)
    requires WorldOk(w) && HistoryFits(w, factory, config, calls)
    ensures PlaceBetEffect(w, env, b, side, amount).Ok?
       <==> BetAllowed(config, calls, env, b, amount) && w.st.state.totalPool + amount <= MAX
  {
    PoolsNonNegative(w.st);
    assert BetFits(w.st, calls, b);
    assert 0 <= Pool(w.st.state, side) <= w.st.state.totalPool;
  }

  lemma ReportAcceptedIff(
      w: World, factory: Address, config: Config, calls: seq<Accepted>, env: Env, oracle: Address, report: Report)
    requires HistoryFits(w, factory, config, calls)
    ensures ResolveMarketEffect(w, env, oracle, report).Ok? <==> ReportAllowed(config, calls, env, oracle, report)
  {
    if w.st.state.status == Locked {
      AgreedIff(w.st, calls, oracle, report.outcome);
    }
  }

  /** A bettor's one record and what a claim can take of it. */
  lemma RecordPayable(w: World, factory: Address, config: Config, calls: seq<Accepted>, b: Address)
    requires HistoryFits(w, factory, config, calls)
    ensures BetsOf(w.st.bets, b) != [] <==> BetBy(calls, b).Some?
    ensures BetBy(calls, b).Some? ==>
      && AnyPayable(BetsOf(w.st.bets, b), None) == !SettledBy(calls, b)
      && (WinningSide(w.st.state.outcome).Some? ==>
            (AnyPayable(BetsOf(w.st.bets, b), WinningSide(w.st.state.outcome)) <==>
               !SettledBy(calls, b) && Backed(calls, b)))
    ensures WinningSide(w.st.state.outcome).None? ==> !Backed(calls, b)
  {
    assert BetFits(w.st, calls, b);
    if BetBy(calls, b).Some? {
      var records := BetsOf(w.st.bets, b);
      assert |records| == 1;
      assert AnyPayable(records, None) <==> Payable(records[0], None);
      var side := WinningSide(w.st.state.outcome);
      assert AnyPayable(records, side) <==> Payable(records[0], side);
    }
  }

  /** However large the pools, a claim that passes was allowed. */
  lemma ClaimAllowed(w: World, factory: Address, config: Config, calls: seq<Accepted>, env: Env, b: Address)
    requires HistoryFits(w, factory, config, calls) && ClaimWinningsEffect(w, env, b).Ok?
    ensures Allowed(factory, config, calls, Accepted(ClaimWinnings(b), env)) && !w.st.claiming
  {
    RecordPayable(w, factory, config, calls, b);
  }

  lemma ClaimAcceptedIff(w: World, factory: Address, config: Config, calls: seq<Accepted>, env: Env, b: Address)
    requires WorldOk(w) && HistoryFits(w, factory, config, calls) && w.st.state.totalPool < 0x8000_0000_0000_0000
    ensures ClaimWinningsEffect(w, env, b).Ok?
       <==> Allowed(factory, config, calls, Accepted(ClaimWinnings(b), env)) && !w.st.claiming
  {
    RecordPayable(w, factory, config, calls, b);
    assert BetFits(w.st, calls, b);
    if b in w.st.bets {
      OneRecord(w.st.bets[b], WinningSide(w.st.state.outcome));
      NoOverflowBelow63Bits(w.st, b);
    }
  }

  lemma RefundAcceptedIff(w: World, factory: Address, config: Config, calls: seq<Accepted>, env: Env, b: Address)
    requires HistoryFits(w, factory, config, calls)
    ensures ClaimRefundEffect(w, env, b).Ok?
       <==> Allowed(factory, config, calls, Accepted(ClaimRefund(b), env)) && !w.st.claiming
  {
    RecordPayable(w, factory, config, calls, b);
  }

  /** In a state that its accepted calls made, a call passes its checks exactly when they allow it. */
  lemma EffectsOkIff(w: World, factory: Address, config: Config, calls: seq<Accepted>, env: Env, op: Op)
    requires WorldOk(w) && HistoryFits(w, factory, config, calls)
    requires op.ClaimWinnings? ==> w.st.state.totalPool < 0x8000_0000_0000_0000
    ensures Effects(w, env, op).Ok? <==> Allowed(factory, config, calls, Accepted(op, env)) && Room(w, op)
  {
    match op
    case PlaceBet(b, side, amount) => BetAcceptedIff(w, factory, config, calls, env, b, side, amount);
    case ResolveMarket(oracle, report) => ReportAcceptedIff(w, factory, config, calls, env, oracle, report);
    case ClaimWinnings(b) => ClaimAcceptedIff(w, factory, config, calls, env, b);
    case ClaimRefund(b) => RefundAcceptedIff(w, factory, config, calls, env, b);
    case _ =>
  }

  // Refusals: what each error says of the call and of the calls accepted before it

  ghost predicate BetRefused(
      config: Config, before: seq<Accepted>, env: Env, b: Address, amount: int, e: ContractError)
  {
    match e
    case InvalidMarketStatus => PausedAfter(before)
    case MarketNotOpen => PhaseAfter(before) != Open
    case BettingClosed => env.now + config.lockBefore >= config.scheduledAt
    case BelowMinimum => amount < config.minBet
    case BetTooLarge => amount > config.maxBet
    case AlreadyBet => BetBy(before, b).Some?
    case Trap => !Signed(env, b) || amount < 0 || AllStakes(before) + amount > MAX
    case _ => false
  }

  ghost predicate ReportRefused(
      config: Config, before: seq<Accepted>, env: Env, oracle: Address, report: Report, e: ContractError)
  {
    match e
    case InvalidMarketStatus => PausedAfter(before) || PhaseAfter(before) != Locked
    case NotOracle => oracle !in env.whitelist
    case ResolutionWindowExpired => env.now > config.scheduledAt + config.resolutionWindow || env.now > U64_MAX
    case InvalidOracleSignature => report.oracle != oracle
    case Unauthorized => HasReported(before, oracle)
    case Trap => !Signed(env, oracle) || !report.signatureValid
    case _ => false
  }

  ghost predicate ClaimRefused(before: seq<Accepted>, env: Env, b: Address, claiming: bool, e: ContractError) {
    match e
    case InvalidMarketStatus => PausedAfter(before)
    case ReentrancyGuard => claiming
    case MarketCancelled => PhaseAfter(before) == Cancelled
    case MarketNotResolved => PhaseAfter(before) != Resolved
    case InvalidOutcome => VerdictAfter(before).Some? ==> VerdictAfter(before).value.0 == NoContest
    case NoBetsFound => BetBy(before, b).None?
    case AlreadyClaimed => SettledBy(before, b) || !Backed(before, b)
    case InsufficientAmount => AllStakes(before) >= 0x8000_0000_0000_0000
    case Trap => !Signed(env, b)
    case _ => false
  }

  ghost predicate RefundRefused(before: seq<Accepted>, env: Env, b: Address, claiming: bool, e: ContractError) {
    match e
    case InvalidMarketStatus => PausedAfter(before) || PhaseAfter(before) != Cancelled
    case ReentrancyGuard => claiming
    case NoBetsFound => BetBy(before, b).None?
    case AlreadyClaimed => SettledBy(before, b)
    case Trap => !Signed(env, b)
    case _ => false
  }

  /** The other entry points: who the caller is, whether the market is paused, and the phase. */
  ghost predicate CallerRefused(
      factory: Address, before: seq<Accepted>, env: Env, caller: Address, phases: set<Status>, e: ContractError)
  {
    match e
    case InvalidMarketStatus => PausedAfter(before) || PhaseAfter(before) !in phases
    case NotOracle => caller != factory && caller !in env.whitelist
    case NotAdmin => caller != factory
    case Trap => !Signed(env, caller)
    case _ => false
  }

  ghost predicate Refused(
      factory: Address, config: Config, before: seq<Accepted>, c: Accepted, claiming: bool, e: ContractError)
  {
    match c.op
    case PlaceBet(b, _, amount) => BetRefused(config, before, c.env, b, amount, e)
    case ResolveMarket(oracle, report) => ReportRefused(config, before, c.env, oracle, report, e)
    case ClaimWinnings(b) => ClaimRefused(before, c.env, b, claiming, e)
    case ClaimRefund(b) => RefundRefused(before, c.env, b, claiming, e)
    case LockMarket(caller) =>
      || CallerRefused(factory, before, c.env, caller, {Open}, e)
      || (e == InvalidTimeRange && c.env.now + config.lockBefore < config.scheduledAt)
    case CancelMarket(caller) => CallerRefused(factory, before, c.env, caller, {Open, Locked}, e)
    case DisputeMarket(admin) => CallerRefused(factory, before, c.env, admin, {Resolved}, e)
    case ResolveDispute(admin, _) => CallerRefused(factory, before, c.env, admin, {Disputed}, e)
    case EmergencyPause(admin) => CallerRefused(factory, before, c.env, admin, {}, e) && !e.InvalidMarketStatus?
    case EmergencyUnpause(admin) => CallerRefused(factory, before, c.env, admin, {}, e) && !e.InvalidMarketStatus?
  }

  lemma BetErrorTells(
      w: World, factory: Address, config: Config, calls: seq<Accepted>,
      env: Env, b: Address, side: BetSide, amount: int)
    requires WorldOk(w) && HistoryFits(w, factory, config, calls)
    ensures var r := PlaceBetEffect(w, env, b, side, amount);
      r.Err? ==> BetRefused(config, calls, env, b, amount, r.error)
  {
    assert BetFits(w.st, calls, b);
    PoolsNonNegative(w.st);
    BetErrorFrom(w, factory, config, calls, env, b, side, amount);
  }

  lemma BetErrorFrom(
      w: World, factory: Address, config: Config, calls: seq<Accepted>,
      env: Env, b: Address, side: BetSide, amount: int)
    requires StateFits(w.st, factory, config, calls) && BetFits(w.st, calls, b)
    requires w.st.state.totalPool == AllStakes(calls) && 0 <= Pool(w.st.state, side) <= w.st.state.totalPool
    ensures var r := PlaceBetEffect(w, env, b, side, amount);
      r.Err? ==> BetRefused(config, calls, env, b, amount, r.error)
  {
    if amount >= 0 && w.st.state.totalPool + amount <= MAX {
      PoolsHaveRoom(w.st.state, side, amount);
    }
  }

  /** A stake that is not negative fits each pool if it fits the total. */
  lemma PoolsHaveRoom(s: MarketState, side: BetSide, amount: int)
    requires 0 <= Pool(s, side) <= s.totalPool && amount >= 0 && s.totalPool + amount <= MAX
    ensures InRange(Pool(AddToPool(s, side, amount), side)) && InRange(AddToPool(s, side, amount).totalPool)
  {
  }

  lemma ReportErrorTells(
      w: World, factory: Address, config: Config, calls: seq<Accepted>, env: Env, oracle: Address, report: Report)
    requires HistoryFits(w, factory, config, calls)
    ensures var r := ResolveMarketEffect(w, env, oracle, report);
      r.Err? ==> ReportRefused(config, calls, env, oracle, report, r.error)
  {
    if w.st.state.status == Locked {
      AgreedIff(w.st, calls, oracle, report.outcome);
    }
  }

  lemma RefundErrorTells(w: World, factory: Address, config: Config, calls: seq<Accepted>, env: Env, b: Address)
    requires HistoryFits(w, factory, config, calls)
    ensures var r := ClaimRefundEffect(w, env, b);
      r.Err? ==> RefundRefused(calls, env, b, w.st.claiming, r.error)
  {
    RecordPayable(w, factory, config, calls, b);
  }

  lemma CallerErrorTells(w: World, factory: Address, config: Config, calls: seq<Accepted>, env: Env, op: Op)
    requires StateFits(w.st, factory, config, calls) && Effects(w, env, op).Err?
    requires !op.PlaceBet? && !op.ResolveMarket? && !op.ClaimWinnings? && !op.ClaimRefund?
    ensures Refused(factory, config, calls, Accepted(op, env), w.st.claiming, Effects(w, env, op).error)
  {
  }

  lemma ClaimErrorTells(w: World, factory: Address, config: Config, calls: seq<Accepted>, env: Env, b: Address)
    requires WorldOk(w) && HistoryFits(w, factory, config, calls)
    ensures var r := ClaimWinningsEffect(w, env, b);
      r.Err? ==> ClaimRefused(calls, env, b, w.st.claiming, r.error)
  {
    RecordPayable(w, factory, config, calls, b);
    assert BetFits(w.st, calls, b);
    if b in w.st.bets && w.st.state.totalPool < 0x8000_0000_0000_0000 {
      OneRecord(w.st.bets[b], WinningSide(w.st.state.outcome));
      NoOverflowBelow63Bits(w.st, b);
    }
  }

  /** Every refusal gives a reason that is true. */
  lemma ErrorTells(w: World, factory: Address, config: Config, calls: seq<Accepted>, env: Env, op: Op)
    requires WorldOk(w) && HistoryFits(w, factory, config, calls) && Effects(w, env, op).Err?
    ensures Refused(factory, config, calls, Accepted(op, env), w.st.claiming, Effects(w, env, op).error)
  {
    match op
    case PlaceBet(b, side, amount) => BetErrorTells(w, factory, config, calls, env, b, side, amount);
    case ResolveMarket(oracle, report) => ReportErrorTells(w, factory, config, calls, env, oracle, report);
    case ClaimWinnings(b) => ClaimErrorTells(w, factory, config, calls, env, b);
    case ClaimRefund(b) => RefundErrorTells(w, factory, config, calls, env, b);
    case _ => CallerErrorTells(w, factory, config, calls, env, op);
  }

  // Each accepted call keeps the state what the calls make it

  lemma PoolsMove(w: World, calls: seq<Accepted>, env: Env, op: Op)
    requires PoolsFit(w.st.state, calls) && Effects(w, env, op).Ok?
    ensures PoolsFit(Effects(w, env, op).value.world.st.state, calls + [Accepted(op, env)])
  {
    assert (calls + [Accepted(op, env)])[..|calls|] == calls;
  }

  lemma StateMoves(w: World, factory: Address, config: Config, calls: seq<Accepted>, env: Env, op: Op)
    requires HistoryFits(w, factory, config, calls) && Effects(w, env, op).Ok?
    ensures StateFits(Effects(w, env, op).value.world.st, factory, config, calls + [Accepted(op, env)])
  {
    assert (calls + [Accepted(op, env)])[..|calls|] == calls;
    if op.ResolveMarket? {
      AgreedIff(w.st, calls, op.oracle, op.report.outcome);
    }
  }

  lemma BetMoves(w: World, factory: Address, config: Config, calls: seq<Accepted>, env: Env, op: Op, b: Address)
    requires WorldOk(w) && HistoryFits(w, factory, config, calls) && Effects(w, env, op).Ok?
    ensures BetFits(Effects(w, env, op).value.world.st, calls + [Accepted(op, env)], b)
  {
    match op
    case ClaimWinnings(bettor) =>
      ClaimWinningsGood(w, env, bettor);
      BetSettled(w.st, calls, Accepted(op, env), bettor, b);
    case ClaimRefund(bettor) =>
      ClaimRefundGood(w, env, bettor);
      BetSettled(w.st, calls, Accepted(op, env), bettor, b);
    case _ => BetKept(w, factory, config, calls, env, op, b);
  }

  lemma BetSettled(st: Storage, calls: seq<Accepted>, c: Accepted, bettor: Address, b: Address)
    requires BetFits(st, calls, b) && BetFits(st, calls, bettor) && IsClaim(c.op, bettor)
    requires bettor in st.bets && |st.bets[bettor]| == 1
    ensures BetFits(Settled(st, bettor), calls + [c], b)
  {
    assert (calls + [c])[..|calls|] == calls;
    MoreSettled(calls, c, b);
  }

  lemma BetKept(w: World, factory: Address, config: Config, calls: seq<Accepted>, env: Env, op: Op, b: Address)
    requires HistoryFits(w, factory, config, calls) && Effects(w, env, op).Ok?
    requires !op.ClaimWinnings? && !op.ClaimRefund?
    ensures BetFits(Effects(w, env, op).value.world.st, calls + [Accepted(op, env)], b)
  {
    var c := Accepted(op, env);
    assert (calls + [c])[..|calls|] == calls;
    assert BetFits(w.st, calls, b);
    MoreSettled(calls, c, b);
  }

  lemma ReportsMove(w: World, factory: Address, config: Config, calls: seq<Accepted>, env: Env, op: Op)
    requires HistoryFits(w, factory, config, calls) && Effects(w, env, op).Ok?
    ensures ReportsFit(Effects(w, env, op).value.world.st, calls + [Accepted(op, env)])
  {
    var c, st := Accepted(op, env), Effects(w, env, op).value.world.st;
    if st.state.status in {Open, Locked, Cancelled} {
      forall o, x ensures (o in st.pending && st.pending[o] == x) <==> Named(calls + [c], o, x) {
        MoreNamed(calls, c, o, x);
        assert (o in w.st.pending && w.st.pending[o] == x) <==> Named(calls, o, x);
        if op.ResolveMarket? && o == op.oracle {
          AgreedIff(w.st, calls, o, x);
        }
      }
    }
  }

  /** The payment that a claim adds, and that no other call does. */
  lemma PaymentsGrow(w: World, env: Env, op: Op)
    requires WorldOk(w) && Effects(w, env, op).Ok?
    ensures var payments := Effects(w, env, op).value.world.payments;
      if op.ClaimWinnings? || op.ClaimRefund?
      then
        && |payments| == |w.payments| + 1 && payments[..|w.payments|] == w.payments
        && PaidBy(payments[|w.payments|], op)
      else payments == w.payments
  {
    match op
    case ClaimWinnings(bettor) => ClaimWinningsGood(w, env, bettor);
    case ClaimRefund(bettor) => ClaimRefundGood(w, env, bettor);
    case _ =>
  }

  lemma MorePayments(payments: seq<Payment>, after: seq<Payment>, calls: seq<Accepted>, c: Accepted)
    requires PaymentsFit(payments, calls)
    requires if c.op.ClaimWinnings? || c.op.ClaimRefund?
      then |after| == |payments| + 1 && after[..|payments|] == payments && PaidBy(after[|payments|], c.op)
      else after == payments
    ensures PaymentsFit(after, calls + [c])
  {
    assert (calls + [c])[..|calls|] == calls && (calls + [c])[|calls|] == c;
  }

  lemma CallAllowed(w: World, factory: Address, config: Config, calls: seq<Accepted>, env: Env, op: Op)
    requires WorldOk(w) && HistoryFits(w, factory, config, calls) && Effects(w, env, op).Ok?
    ensures Allowed(factory, config, calls, Accepted(op, env))
  {
    if op.ClaimWinnings? {
      ClaimAllowed(w, factory, config, calls, env, op.bettor);
    } else {
      EffectsOkIff(w, factory, config, calls, env, op);
    }
  }

  lemma EffectFits(w: World, factory: Address, config: Config, calls: seq<Accepted>, env: Env, op: Op)
    requires WorldOk(w) && HistoryFits(w, factory, config, calls) && Effects(w, env, op).Ok?
    ensures HistoryFits(Effects(w, env, op).value.world, factory, config, calls + [Accepted(op, env)])
  {
    var c, after := Accepted(op, env), Effects(w, env, op).value.world;
    CallAllowed(w, factory, config, calls, env, op);
    MoreAllowed(factory, config, calls, c);
    StateMoves(w, factory, config, calls, env, op);
    PoolsMove(w, calls, env, op);
    ReportsMove(w, factory, config, calls, env, op);
    PaymentsGrow(w, env, op);
    MorePayments(w.payments, after.payments, calls, c);
    forall b ensures BetFits(after.st, calls + [c], b) {
      BetMoves(w, factory, config, calls, env, op, b);
    }
  }

  /** The balance and the guard flag are no part of the history. */
  lemma FitsFrame(w: World, factory: Address, config: Config, calls: seq<Accepted>, balance: int, claiming: bool)
    requires HistoryFits(w, factory, config, calls)
    ensures HistoryFits(w.(balance := balance, st := w.st.(claiming := claiming)), factory, config, calls)
  {
    var v := w.(balance := balance, st := w.st.(claiming := claiming));
    forall b ensures BetFits(v.st, calls, b) {
      assert BetFits(w.st, calls, b);
    }
  }

  // Runs, with the calls accepted so far and those that a rollback would go back to

  datatype Traced = Traced(m: Machine, calls: seq<Accepted>, marks: seq<seq<Accepted>>)

  /** After a machine step that opened no frame: a closed frame drops its mark, a rollback returns to it. */
  function Closed(t: Traced, n: Machine, rolledBack: bool): Traced {
    if t.marks == [] || |n.stack| == |t.m.stack| then t.(m := n)
    else Traced(n, if rolledBack then t.marks[0] else t.calls, t.marks[1..])
  }

  function TraceStep(t: Traced, e: Event): Traced {
    var n := Step(t.m, e);
    match e
    case Begin(op, env) =>
      if Effects(t.m.w, env, op).Err? then t else Traced(n, t.calls + [Accepted(op, env)], [t.calls] + t.marks)
    case Finish => Closed(t, n, false)
    case _ => Closed(t, n, true)
  }

  function Trace(t: Traced, events: seq<Event>): Traced {
    if events == [] then t else TraceStep(Trace(t, events[..|events| - 1]), events[|events| - 1])
  }

  ghost predicate TracedOk(t: Traced, factory: Address, config: Config) {
    && |t.marks| == |t.m.stack|
    && HistoryFits(t.m.w, factory, config, t.calls)
    && forall i :: 0 <= i < |t.marks| ==> HistoryFits(t.m.stack[i].snapshot, factory, config, t.marks[i])
  }

  lemma TraceBegin(t: Traced, factory: Address, config: Config, op: Op, env: Env)
    requires WorldOk(t.m.w) && TracedOk(t, factory, config)
    ensures TracedOk(TraceStep(t, Begin(op, env)), factory, config)
  {
    if Effects(t.m.w, env, op).Ok? {
      EffectFits(t.m.w, factory, config, t.calls, env, op);
      Opened(t, factory, config, op, env, Effects(t.m.w, env, op).value);
    }
  }

  lemma Opened(t: Traced, factory: Address, config: Config, op: Op, env: Env, e: Effect)
    requires TracedOk(t, factory, config)
    requires HistoryFits(e.world, factory, config, t.calls + [Accepted(op, env)])
    ensures TracedOk(Traced(Machine(e.world, [Frame(e.guarded, t.m.w, e.transfers)] + t.m.stack),
                            t.calls + [Accepted(op, env)], [t.calls] + t.marks), factory, config)
  {
  }

  /** What a machine step does to the world and the frames below. */
  lemma MoveShape(m: Machine)
    ensures var n := Step(m, Move);
      || (m.stack != [] && n == Rollback(m))
      || (|n.stack| == |m.stack| && n.w == m.w.(balance := n.w.balance)
          && forall i :: 0 <= i < |n.stack| ==> n.stack[i].snapshot == m.stack[i].snapshot)
  {
  }

  lemma TraceMove(t: Traced, factory: Address, config: Config)
    requires TracedOk(t, factory, config)
    ensures TracedOk(TraceStep(t, Move), factory, config)
  {
    MoveShape(t.m);
    var n := Step(t.m, Move);
    if |n.stack| == |t.m.stack| {
      FitsFrame(t.m.w, factory, config, t.calls, n.w.balance, t.m.w.st.claiming);
      assert n.w == t.m.w.(balance := n.w.balance, st := t.m.w.st.(claiming := t.m.w.st.claiming));
    } else {
      RolledBack(t, factory, config);
    }
  }

  lemma RolledBack(t: Traced, factory: Address, config: Config)
    requires TracedOk(t, factory, config) && t.m.stack != []
    ensures TracedOk(Traced(Rollback(t.m), t.marks[0], t.marks[1..]), factory, config)
  {
  }

  lemma TraceFinish(t: Traced, factory: Address, config: Config)
    requires TracedOk(t, factory, config)
    ensures TracedOk(TraceStep(t, Finish), factory, config)
  {
    FitsFrame(t.m.w, factory, config, t.calls, t.m.w.balance, false);
    assert t.m.w.(st := t.m.w.st.(claiming := false))
        == t.m.w.(balance := t.m.w.balance, st := t.m.w.st.(claiming := false));
  }

  lemma TraceAbort(t: Traced, factory: Address, config: Config)
    requires TracedOk(t, factory, config)
    ensures TracedOk(TraceStep(t, Abort), factory, config)
  {
    if t.m.stack != [] {
      RolledBack(t, factory, config);
    }
  }

  ghost function TracedStart(factory: Address, treasury: Address, config: Config): Traced {
    Traced(Start(factory, treasury, config), [], [])
  }

  lemma StartFits(factory: Address, treasury: Address, config: Config)
    ensures HistoryFits(Init(factory, treasury, config), factory, config, [])
  {
    forall b ensures BetFits(Init(factory, treasury, config).st, [], b) {
    }
  }

  /**
   * In every run, callbacks and traps included, the accepted calls were each allowed by those before, and
   * the market's state and payments are what they make them.
   */
  lemma {:induction false} StateIsHistory(
      factory: Address, treasury: Address, config: Config, events: seq<Event>)
    requires ValidConfig(config) && treasury != SELF
    ensures var t := Trace(TracedStart(factory, treasury, config), events);
      && t.m == Run(Start(factory, treasury, config), events)
      && TracedOk(t, factory, config)
  {
    if events == [] {
      StartFits(factory, treasury, config);
    } else {
      var before := events[..|events| - 1];
      StateIsHistory(factory, treasury, config, before);
      StartOk(factory, treasury, config);
      RunOk(Start(factory, treasury, config), before);
      var t := Trace(TracedStart(factory, treasury, config), before);
      match events[|events| - 1]
      case Begin(op, env) => TraceBegin(t, factory, config, op, env);
      case Move => TraceMove(t, factory, config);
      case Finish => TraceFinish(t, factory, config);
      case Abort => TraceAbort(t, factory, config);
    }
  }

  /**
   * In every reachable state a call passes its checks exactly when the accepted calls allow it, a stake
   * fits beside theirs in 128 bits, and a claim finds no claim in flight.
   */
  lemma AcceptedIff(
      factory: Address, treasury: Address, config: Config, events: seq<Event>, env: Env, op: Op)
    requires ValidConfig(config) && treasury != SELF
    requires op.ClaimWinnings? ==>
      Run(Start(factory, treasury, config), events).w.st.state.totalPool < 0x8000_0000_0000_0000
    ensures var t := Trace(TracedStart(factory, treasury, config), events);
      Effects(t.m.w, env, op).Ok? <==>
        && Allowed(factory, config, t.calls, Accepted(op, env))
        && (op.PlaceBet? ==> AllStakes(t.calls) + op.amount <= MAX)
        && (op.ClaimWinnings? || op.ClaimRefund? ==> !ClaimOpen(t.m.stack))
  {
    StateIsHistory(factory, treasury, config, events);
    StartOk(factory, treasury, config);
    RunOk(Start(factory, treasury, config), events);
    var t := Trace(TracedStart(factory, treasury, config), events);
    EffectsOkIff(t.m.w, factory, config, t.calls, env, op);
    assert t.m.w.st.state.totalPool == AllStakes(t.calls);
  }

  /** In every run a call that is refused gives a reason that is true of it. */
  lemma RefusalsTellWhy(factory: Address, treasury: Address, config: Config, events: seq<Event>, env: Env, op: Op)
    requires ValidConfig(config) && treasury != SELF
    ensures var t := Trace(TracedStart(factory, treasury, config), events);
      Effects(t.m.w, env, op).Err? ==>
        Refused(factory, config, t.calls, Accepted(op, env), ClaimOpen(t.m.stack), Effects(t.m.w, env, op).error)
  {
    StateIsHistory(factory, treasury, config, events);
    StartOk(factory, treasury, config);
    RunOk(Start(factory, treasury, config), events);
    var t := Trace(TracedStart(factory, treasury, config), events);
    if Effects(t.m.w, env, op).Err? {
      ErrorTells(t.m.w, factory, config, t.calls, env, op);
    }
  }

  lemma {:induction false} PaymentsAreClaims(payments: seq<Payment>, calls: seq<Accepted>, p: Payment)
    requires PaymentsFit(payments, calls) && p in payments
    ensures exists i :: 0 <= i < |calls| && PaidBy(p, calls[i].op)
  {
    var before, op := calls[..|calls| - 1], calls[|calls| - 1].op;
    if (op.ClaimWinnings? || op.ClaimRefund?) && p == payments[|payments| - 1] {
      assert PaidBy(p, calls[|calls| - 1].op);
    } else {
      var fewer := if op.ClaimWinnings? || op.ClaimRefund? then payments[..|payments| - 1] else payments;
      PaymentsAreClaims(fewer, before, p);
      var i :| 0 <= i < |before| && PaidBy(p, before[i].op);
      assert PaidBy(p, calls[i].op);
    }
  }

  lemma {:induction false} BetByIsCall(calls: seq<Accepted>, b: Address)
    requires BetBy(calls, b).Some?
    ensures exists j :: 0 <= j < |calls| && IsBet(calls[j].op, b, BetBy(calls, b).value)
  {
    var before, op := calls[..|calls| - 1], calls[|calls| - 1].op;
    if op.PlaceBet? && op.bettor == b {
      assert IsBet(calls[|calls| - 1].op, b, BetBy(calls, b).value);
    } else {
      BetByIsCall(before, b);
      var j :| 0 <= j < |before| && IsBet(before[j].op, b, BetBy(calls, b).value);
      assert IsBet(calls[j].op, b, BetBy(calls, b).value);
    }
  }

  predicate IsBet(op: Op, b: Address, bet: Bet) {
    op == PlaceBet(b, bet.side, bet.amount)
  }

  /** The claim behind a payment of winnings, and the bet behind the claim. */
  ghost predicate WonByBet(calls: seq<Accepted>, p: Payment, i: nat, bet: Bet) {
    && i < |calls| && calls[i].op == ClaimWinnings(p.bettor)
    && VerdictAfter(calls[..i]).Some? && SameName(VerdictAfter(calls[..i]).value.0, bet.side)
    && exists j :: 0 <= j < i && IsBet(calls[j].op, p.bettor, bet)
  }

  /**
   * In every run, each payment of winnings goes to a bettor whose bet was on the side that bears the name
   * of the outcome decided last before the claim; each refund is claimed after a cancellation.
   */
  lemma WinningsFollowVerdict(
      factory: Address, treasury: Address, config: Config, events: seq<Event>, p: Payment)
    requires ValidConfig(config) && treasury != SELF
    requires p in Run(Start(factory, treasury, config), events).w.payments
    ensures var calls := Trace(TracedStart(factory, treasury, config), events).calls;
      if p.Winnings? then exists i, bet :: WonByBet(calls, p, i, bet)
      else exists i :: 0 <= i < |calls| && calls[i].op == ClaimRefund(p.bettor) && PhaseAfter(calls[..i]) == Cancelled
  {
    StateIsHistory(factory, treasury, config, events);
    var t := Trace(TracedStart(factory, treasury, config), events);
    PaymentsAreClaims(t.m.w.payments, t.calls, p);
    var i :| 0 <= i < |t.calls| && PaidBy(p, t.calls[i].op);
    assert Allowed(factory, config, t.calls[..i], t.calls[i]);
    if p.Winnings? {
      BetByIsCall(t.calls[..i], p.bettor);
      var bet := BetBy(t.calls[..i], p.bettor).value;
      var j :| 0 <= j < |t.calls[..i]| && IsBet(t.calls[..i][j].op, p.bettor, bet);
      assert IsBet(t.calls[j].op, p.bettor, bet);
      assert WonByBet(t.calls, p, i, bet);
    }
  }

  /** The latest decision of a dispute is in force until the next, and a fresh one is in force at once. */
  lemma DisputeDecides(
      factory: Address, treasury: Address, config: Config, events: seq<Event>,
      env: Env, admin: Address, decided: Outcome)
    requires ValidConfig(config) && treasury != SELF
    requires Effects(Run(Start(factory, treasury, config), events).w, env, ResolveDispute(admin, decided)).Ok?
    ensures var n := Run(Start(factory, treasury, config), events + [Begin(ResolveDispute(admin, decided), env)]);
      && admin == factory && admin in env.signers
      && n.w.st.state.status == Resolved && n.w.st.state.outcome == Some(decided) && n.w.st.state.resolvedAt == env.now
  {
    var more := events + [Begin(ResolveDispute(admin, decided), env)];
    assert more[..|events|] == events;
    StateIsHistory(factory, treasury, config, events);
    StartOk(factory, treasury, config);
    RunOk(Start(factory, treasury, config), events);
    var t := Trace(TracedStart(factory, treasury, config), events);
    DecidedNow(t.m.w, factory, config, t.calls, env, admin, decided);
    assert Run(Start(factory, treasury, config), more) == Step(t.m, Begin(ResolveDispute(admin, decided), env));
  }

  lemma DecidedNow(
      w: World, factory: Address, config: Config, calls: seq<Accepted>, env: Env, admin: Address, decided: Outcome)
    requires WorldOk(w) && HistoryFits(w, factory, config, calls)
    requires Effects(w, env, ResolveDispute(admin, decided)).Ok?
    ensures var s := Effects(w, env, ResolveDispute(admin, decided)).value.world.st.state;
      && admin == factory && admin in env.signers
      && s.status == Resolved && s.outcome == Some(decided) && s.resolvedAt == env.now
  {
    CallAllowed(w, factory, config, calls, env, ResolveDispute(admin, decided));
    StateMoves(w, factory, config, calls, env, ResolveDispute(admin, decided));
    var c := Accepted(ResolveDispute(admin, decided), env);
    assert (calls + [c])[|calls|] == c;
  }

  // Payments, from the accepted stakes alone

  ghost function FeeOf(total: int, feeBps: nat): int {
    total * feeBps / 10000
  }

  ghost function PartOf(stake: int, net: int, side: int): int {
    if side > 0 then stake * net / side else 0
  }

  /** What the payout formula gives a bet. */
  ghost function ShareOf(config: Config, calls: seq<Accepted>, bet: Bet): int {
    var all := AllStakes(calls);
    PartOf(bet.amount, all - FeeOf(all, config.feeBps), StakedOn(calls, bet.side))
  }

  lemma FormulaParts(st: Storage, b: Address)
    requires b in st.bets && |st.bets[b]| == 1
    ensures Fee(st.state) == FeeOf(st.state.totalPool, st.state.config.feeBps)
    ensures Payout(st, b)
         == PartOf(st.bets[b][0].amount, st.state.totalPool - Fee(st.state), Pool(st.state, st.bets[b][0].side))
  {
  }

  lemma PaymentFromStakes(w: World, factory: Address, config: Config, calls: seq<Accepted>, p: Payment)
    requires PoolsOk(w.st) && HistoryFits(w, factory, config, calls) && PaymentOk(w.st, p)
    ensures BetBy(calls, p.bettor).Some?
    ensures p.amount == if p.Winnings? then ShareOf(config, calls, BetBy(calls, p.bettor).value)
                        else BetBy(calls, p.bettor).value.amount
    ensures p.Winnings? ==> p.fee == FeeOf(AllStakes(calls), config.feeBps)
  {
    assert BetFits(w.st, calls, p.bettor);
    FormulaParts(w.st, p.bettor);
    var bet := BetBy(calls, p.bettor).value;
    assert Pool(w.st.state, bet.side) == StakedOn(calls, bet.side) && w.st.state.totalPool == AllStakes(calls);
  }

  /** Each payment is the formula's share, or the whole stake back, of the accepted bets. */
  lemma PaymentsFromStakes(
      factory: Address, treasury: Address, config: Config, events: seq<Event>, p: Payment)
    requires ValidConfig(config) && treasury != SELF
    requires p in Run(Start(factory, treasury, config), events).w.payments
    ensures var calls := Trace(TracedStart(factory, treasury, config), events).calls;
      && BetBy(calls, p.bettor).Some?
      && p.amount == (if p.Winnings? then ShareOf(config, calls, BetBy(calls, p.bettor).value)
                      else BetBy(calls, p.bettor).value.amount)
      && (p.Winnings? ==> p.fee == FeeOf(AllStakes(calls), config.feeBps))
  {
    StateIsHistory(factory, treasury, config, events);
    StartOk(factory, treasury, config);
    RunOk(Start(factory, treasury, config), events);
    var t := Trace(TracedStart(factory, treasury, config), events);
    assert PaymentOk(t.m.w.st, p);
    PaymentFromStakes(t.m.w, factory, config, t.calls, p);
  }
}
