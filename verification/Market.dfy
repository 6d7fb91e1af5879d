/** The token ledger as the market sees it: transfers succeed or trap. */
module TokenLedger {
  import opened Contracts
  import opened MarketSpec

  function BalanceIn(balances: map<Address, int>, who: Address): int {
    if who in balances then balances[who] else 0
  }

  function Moved(balances: map<Address, int>, from: Address, to: Address, amount: int): map<Address, int> {
    var taken := balances[from := BalanceIn(balances, from) - amount];
    taken[to := BalanceIn(taken, to) + amount]
  }

  /** The balances after one of the market's own payments; nothing is sent when nothing is due. */
  function PaidOut(balances: map<Address, int>, to: Address, amount: int): map<Address, int> {
    if amount > 0 then Moved(balances, SELF, to, amount) else balances
  }

  class Token {
    var balances: map<Address, int>

    constructor (initial: map<Address, int>)
      ensures balances == initial
    {
      balances := initial;
    }

    method Transfer(from: Address, to: Address, amount: int) returns (ok: bool)
      modifies this
      ensures ok == (0 <= amount <= old(BalanceIn(balances, from)))
      ensures balances == if ok then Moved(old(balances), from, to, amount) else old(balances)
    {
      ok := 0 <= amount <= BalanceIn(balances, from);
      if ok {
        balances := balances[from := BalanceIn(balances, from) - amount];
        balances := balances[to := BalanceIn(balances, to) + amount];
      }
    }
  }
}

/** The market contract as an object over its storage. A call that returns an error leaves no trace. */
module MarketContract {
  import opened Wrappers
  import opened Int128
  import opened Contracts
  import opened MarketSpec
  import opened MarketPayouts
  import opened TokenLedger

  datatype ClaimReceipt = ClaimReceipt(bettor: Address, amountWon: int, feeDeducted: int, claimedAt: nat)

  predicate WithinLimits(st: Storage, env: Env, bettor: Address, side: BetSide, amount: int) {
    var after := AddToPool(st.state, side, amount);
    && Authorized(env, bettor) && !st.paused && st.state.status == Open
    && env.now < LockThreshold(st.state.config)
    && st.state.config.minBet <= amount <= st.state.config.maxBet
    && InRange(Pool(after, side)) && InRange(after.totalPool)
  }

  /** A bet within all limits: refused after an earlier one, otherwise taken exactly when it can be paid. */
  lemma TakesStake(w: World, env: Env, bettor: Address, side: BetSide, amount: int, funded: bool)
    requires WithinLimits(w.st, env, bettor, side, amount) && (funded ==> amount >= 0)
    ensures Call(w, env, Op.PlaceBet(bettor, side, amount), funded) ==
      if BetsOf(w.st.bets, bettor) != [] then (w, Some(AlreadyBet))
      else if !funded then (w, Some(Trap))
      else (w.(st := w.st.(state := AddToPool(w.st.state, side, amount),
                           bets := w.st.bets[bettor := [BetRecord(bettor, side, amount, env.now, false)]],
                           bettors := w.st.bettors + [bettor]),
               balance := w.balance + amount), None)
  {
    assert PayAll(w.balance, [In(bettor, amount)]) == Some(w.balance + amount);
  }

  function ErrorOf<T>(r: Result<T, ContractError>): Option<ContractError> {
    match r
    case Ok(_) => None
    case Err(e) => Some(e)
  }

  class Market {
    const factory: Address
    const treasury: Address
    const token: Token
    var state: MarketState
    var bets: map<Address, seq<BetRecord>>
    var bettorList: seq<Address>
    var pendingReports: map<Address, Outcome>
    var claiming: bool
    var paused: bool
    ghost var payments: seq<Payment>
    ghost var reports: seq<ReportEntry>
    ghost var decisions: seq<Decision>

    ghost predicate Valid() reads this {
      treasury != SELF
    }

    function Stored(): Storage reads this {
      Storage(factory, treasury, state, bets, bettorList, pendingReports, claiming, paused)
    }

    /** The object's abstract value: the state the specification's runs go through. */
    ghost function Value(): World reads this, token {
      World(Stored(), BalanceIn(token.balances, SELF), payments, reports, decisions)
    }

    constructor (factory: Address, treasury: Address, config: Config, token: Token)
      requires treasury != SELF && BalanceIn(token.balances, SELF) == 0
      ensures Valid() && this.token == token && Value() == Init(factory, treasury, config)
      ensures token.balances == old(token.balances)
    {
      this.factory := factory;
      this.treasury := treasury;
      this.token := token;
      state := MarketState(config, Open, None, 0, 0, 0, 0, 0);
      bets := map[];
      bettorList := [];
      pendingReports := map[];
      claiming := false;
      paused := false;
      payments, reports, decisions := [], [], [];
    }

    /** The host's rollback of a failed call. */
    method Restore(saved: Storage, balances: map<Address, int>)
      requires saved.factory == factory && saved.treasury == treasury
      modifies this, token
      ensures Stored() == saved && token.balances == balances
      ensures payments == old(payments) && reports == old(reports) && decisions == old(decisions)
    {
      state := saved.state;
      bets := saved.bets;
      bettorList := saved.bettors;
      pendingReports := saved.pending;
      claiming := saved.claiming;
      paused := saved.paused;
      token.balances := balances;
    }

    method PlaceBet(env: Env, bettor: Address, side: BetSide, amount: int)
      returns (r: Result<BetRecord, ContractError>)
      requires Valid()
      modifies this, token
      ensures Valid()
      ensures var funded := 0 <= amount <= old(BalanceIn(token.balances, bettor));
        (Value(), ErrorOf(r)) == Call(old(Value()), env, Op.PlaceBet(bettor, side, amount), funded)
      ensures r.Ok? ==> r.value == BetRecord(bettor, side, amount, env.now, false)
      ensures token.balances == if r.Ok? then Moved(old(token.balances), bettor, SELF, amount) else old(token.balances)
    {
      var saved, balances := Stored(), token.balances;
      var failed := CheckBet(env, bettor, side, amount);
      if failed.Some? { return Err(failed.value); }
      TakesStake(Value(), env, bettor, side, amount, 0 <= amount <= BalanceIn(token.balances, bettor));
      state := AddToPool(state, side, amount);  // written before the check for an earlier bet
      if BetsOf(bets, bettor) != [] {
        Restore(saved, balances);
        return Err(AlreadyBet);
      }
      var bet := BetRecord(bettor, side, amount, env.now, false);
      var ok := PullStake(bet);
      if !ok {
        Restore(saved, balances);
        return Err(Trap);
      }
      return Ok(bet);
    }

    /** The checks before anything is written, down to the overflow of the new pools. */
    method CheckBet(env: Env, bettor: Address, side: BetSide, amount: int) returns (failed: Option<ContractError>)
      ensures failed.None? <==> WithinLimits(Stored(), env, bettor, side, amount)
      ensures failed.Some? ==> PlaceBetEffect(Value(), env, bettor, side, amount) == Err(failed.value)
    {
      if !Authorized(env, bettor) { return Some(Trap); }
      if paused { return Some(InvalidMarketStatus); }
      if state.status != Open { return Some(MarketNotOpen); }
      if env.now >= LockThreshold(state.config) { return Some(BettingClosed); }
      if amount < state.config.minBet { return Some(BelowMinimum); }
      if amount > state.config.maxBet { return Some(BetTooLarge); }
      var newState := AddToPool(state, side, amount);
      if !InRange(Pool(newState, side)) || !InRange(newState.totalPool) { return Some(Trap); }
      return None;
    }

    /** Stores the record, then asks the token for the stake. */
    method PullStake(bet: BetRecord) returns (ok: bool)
      modifies this`bets, this`bettorList, token
      ensures bets == old(bets)[bet.bettor := [bet]] && bettorList == old(bettorList) + [bet.bettor]
      ensures ok == (0 <= bet.amount <= old(BalanceIn(token.balances, bet.bettor)))
      ensures token.balances == if ok then Moved(old(token.balances), bet.bettor, SELF, bet.amount)
                                else old(token.balances)
    {
      bets := bets[bet.bettor := [bet]];
      bettorList := bettorList + [bet.bettor];
      ok := token.Transfer(bet.bettor, SELF, bet.amount);
    }

    method LockMarket(env: Env, caller: Address) returns (r: Result<(), ContractError>)
      requires Valid()
      modifies this
      ensures Valid() && (Value(), ErrorOf(r)) == Call(old(Value()), env, Op.LockMarket(caller), true)
    {
      if !Authorized(env, caller) { return Err(Trap); }
      if paused { return Err(InvalidMarketStatus); }
      if caller != factory && caller !in env.whitelist { return Err(NotOracle); }
      if state.status != Open { return Err(InvalidMarketStatus); }
      if env.now < LockThreshold(state.config) { return Err(InvalidTimeRange); }
      state := state.(status := Locked);
      return Ok(());
    }

    /** The loop over stored reports: this one, and every other oracle's that agrees with it. */
    static method CountMatching(pending: map<Address, Outcome>, oracle: Address, outcome: Outcome)
      returns (matching: nat)
      ensures matching == 1 + |Agreeing(pending, oracle, outcome)|
    {
      matching := 1;
      var rest := pending.Keys;
      ghost var agreeing := Agreeing(pending, oracle, outcome);
      assert agreeing - rest == {};
      while rest != {}
        invariant rest <= pending.Keys
        invariant matching == 1 + |agreeing - rest|
        decreases rest
      {
        var stored :| stored in rest;
        OneLess(agreeing, rest, stored);
        rest := rest - {stored};
        if stored != oracle && pending[stored] == outcome {
          matching := matching + 1;
        }
      }
      assert agreeing - rest == agreeing;
    }

    static lemma OneLess(agreeing: set<Address>, rest: set<Address>, stored: Address)
      requires stored in rest
      ensures |agreeing - (rest - {stored})| == |agreeing - rest| + if stored in agreeing then 1 else 0
    {
      assert agreeing - (rest - {stored}) == (agreeing - rest) + (if stored in agreeing then {stored} else {});
    }

    method ResolveMarket(env: Env, oracle: Address, report: Report) returns (r: Result<(), ContractError>)
      requires Valid()
      modifies this
      ensures Valid() && (Value(), ErrorOf(r)) == Call(old(Value()), env, Op.ResolveMarket(oracle, report), true)
    {
      if !Authorized(env, oracle) { return Err(Trap); }
      if paused { return Err(InvalidMarketStatus); }
      if oracle !in env.whitelist { return Err(NotOracle); }
      if state.status != Locked { return Err(InvalidMarketStatus); }
      if env.now > Deadline(state.config) { return Err(ResolutionWindowExpired); }
      if report.oracle != oracle { return Err(InvalidOracleSignature); }
      if !report.signatureValid { return Err(Trap); }
      if oracle in pendingReports { return Err(Unauthorized); }

      ghost var agreeing := Agreeing(pendingReports, oracle, report.outcome);
      pendingReports := pendingReports[oracle := report.outcome];
      var matching := CountMatching(pendingReports, oracle, report.outcome);
      assert Agreeing(pendingReports, oracle, report.outcome) == agreeing;
      reports := reports + [ReportEntry(oracle, report.outcome, env.whitelist)];
      if matching >= 2 {
        decisions := decisions + [Decision(OneOf(agreeing), oracle, report.outcome)];
        state := state.(outcome := Some(report.outcome), status := Resolved, resolvedAt := env.now);
        pendingReports := map[];
      }
      return Ok(());
    }

    /** The two loops of a claim: add up what is payable, then mark it. */
    static method SumAndMark(records: seq<BetRecord>, side: Option<BetSide>)
      returns (stake: int, any: bool, updated: seq<BetRecord>)
      ensures stake == PayableStake(records, side) && any == AnyPayable(records, side)
      ensures updated == MarkClaimed(records, side)
    {
      stake, any := 0, false;
      var i := 0;
      while i < |records|
        invariant 0 <= i <= |records|
        invariant stake == PayableStake(records[..i], side)
        invariant any == AnyPayable(records[..i], side)
      {
        assert records[..i + 1][..i] == records[..i];
        if Payable(records[i], side) {
          stake := stake + records[i].amount;
          any := true;
          assert Payable(records[..i + 1][i], side);
        }
        i := i + 1;
      }
      assert records[..|records|] == records;
      updated := [];
      i := 0;
      while i < |records|
        invariant 0 <= i <= |records|
        invariant updated == MarkClaimed(records, side)[..i]
      {
        updated := updated + [if Payable(records[i], side) then records[i].(claimed := true) else records[i]];
        i := i + 1;
      }
    }

    method ClaimWinnings(env: Env, bettor: Address) returns (r: Result<ClaimReceipt, ContractError>)
      requires Valid()
      modifies this, token
      ensures Valid()
      ensures (Value(), ErrorOf(r)) == Call(old(Value()), env, Op.ClaimWinnings(bettor), true)
      ensures r.Ok? ==>
        payments == old(payments) + [Winnings(bettor, r.value.amountWon, r.value.feeDeducted)]
        && r.value.bettor == bettor && r.value.claimedAt == env.now
      ensures token.balances ==
        if r.Ok? then PaidOut(PaidOut(old(token.balances), treasury, r.value.feeDeducted), bettor, r.value.amountWon)
        else old(token.balances)
    {
      var saved, balances := Stored(), token.balances;
      if !Authorized(env, bettor) { return Err(Trap); }
      if paused { return Err(InvalidMarketStatus); }
      if claiming { return Err(ReentrancyGuard); }
      if state.status == Cancelled { return Err(MarketCancelled); }
      if state.status != Resolved { return Err(MarketNotResolved); }
      var winner := WinningSide(state.outcome);
      if winner.None? { return Err(InvalidOutcome); }
      var records := BetsOf(bets, bettor);
      if records == [] { return Err(NoBetsFound); }
      var stake, any, updated := SumAndMark(records, winner);
      if !any { return Err(AlreadyClaimed); }

      var quote := FeeAndNet(state);
      if quote.None? { return Err(InsufficientAmount); }
      var (fee, net) := quote.value;
      var share := Share(stake, net, Pool(state, winner.value));
      if share.None? { return Err(InsufficientAmount); }
      var payout := share.value;
      claiming := true;
      bets := bets[bettor := updated];
      var ok := Disburse(fee, bettor, payout);
      if !ok {
        Restore(saved, balances);
        return Err(Trap);
      }
      claiming := false;
      payments := payments + [Winnings(bettor, payout, fee)];
      return Ok(ClaimReceipt(bettor, payout, fee, env.now));
    }

    /** A claim's transfers: the fee to the treasury first, then the payout. */
    method Disburse(fee: int, bettor: Address, payout: int) returns (ok: bool)
      requires Valid() && bettor != SELF
      modifies token
      ensures
        var transfers := PositiveOut(treasury, fee) + PositiveOut(bettor, payout);
        var paid := PayAll(old(BalanceIn(token.balances, SELF)), transfers);
        ok == paid.Some? && (ok ==> BalanceIn(token.balances, SELF) == paid.value)
      ensures ok ==> token.balances == PaidOut(PaidOut(old(token.balances), treasury, fee), bettor, payout)
    {
      PayTwo(BalanceIn(token.balances, SELF), treasury, fee, bettor, payout);
      if fee > 0 {
        ok := token.Transfer(SELF, treasury, fee);
        if !ok { return; }
      }
      ok := true;
      if payout > 0 {
        ok := token.Transfer(SELF, bettor, payout);
      }
    }

    static lemma PayTwo(balance: int, treasury: Address, fee: int, bettor: Address, payout: int)
      ensures PayAll(balance, PositiveOut(treasury, fee) + PositiveOut(bettor, payout))
           == if fee > 0 && balance < fee then None
              else
                var left := if fee > 0 then balance - fee else balance;
                if payout > 0 && left < payout then None
                else Some(if payout > 0 then left - payout else left)
      ensures PayAll(balance, PositiveOut(bettor, payout))
           == if payout > 0 && balance < payout then None
              else Some(if payout > 0 then balance - payout else balance)
    {
      var tail := PositiveOut(bettor, payout);
      assert payout > 0 ==> tail[1..] == [];
      if fee > 0 {
        assert (PositiveOut(treasury, fee) + tail)[0] == Out(treasury, fee);
        assert (PositiveOut(treasury, fee) + tail)[1..] == tail;
        assert PayAll(balance - fee, tail)
            == if payout > 0 && balance - fee < payout then None
               else Some(if payout > 0 then balance - fee - payout else balance - fee);
      } else {
        assert PositiveOut(treasury, fee) + tail == tail;
      }
    }

    method ClaimRefund(env: Env, bettor: Address) returns (r: Result<int, ContractError>)
      requires Valid()
      modifies this, token
      ensures Valid()
      ensures (Value(), ErrorOf(r)) == Call(old(Value()), env, Op.ClaimRefund(bettor), true)
      ensures r.Ok? ==> payments == old(payments) + [Refund(bettor, r.value)]
      ensures token.balances == if r.Ok? then PaidOut(old(token.balances), bettor, r.value) else old(token.balances)
    {
      var saved, balances := Stored(), token.balances;
      if !Authorized(env, bettor) { return Err(Trap); }
      if paused { return Err(InvalidMarketStatus); }
      if claiming { return Err(ReentrancyGuard); }
      if state.status != Cancelled { return Err(InvalidMarketStatus); }
      var records := BetsOf(bets, bettor);
      if records == [] { return Err(NoBetsFound); }
      var refund, any, updated := SumAndMark(records, None);
      if !any { return Err(AlreadyClaimed); }
      PayTwo(BalanceIn(balances, SELF), treasury, 0, bettor, refund);

      claiming := true;
      bets := bets[bettor := updated];
      if refund > 0 {
        var ok := token.Transfer(SELF, bettor, refund);
        if !ok {
          Restore(saved, balances);
          return Err(Trap);
        }
      }
      claiming := false;
      payments := payments + [Refund(bettor, refund)];
      return Ok(refund);
    }

    method CancelMarket(env: Env, caller: Address) returns (r: Result<(), ContractError>)
      requires Valid()
      modifies this
      ensures Valid() && (Value(), ErrorOf(r)) == Call(old(Value()), env, Op.CancelMarket(caller), true)
    {
      if !Authorized(env, caller) { return Err(Trap); }
      if paused { return Err(InvalidMarketStatus); }
      if caller != factory && caller !in env.whitelist { return Err(NotOracle); }
      if state.status != Open && state.status != Locked { return Err(InvalidMarketStatus); }
      state := state.(status := Cancelled);
      return Ok(());
    }

    method DisputeMarket(env: Env, admin: Address) returns (r: Result<(), ContractError>)
      requires Valid()
      modifies this
      ensures Valid() && (Value(), ErrorOf(r)) == Call(old(Value()), env, Op.DisputeMarket(admin), true)
    {
      if !Authorized(env, admin) { return Err(Trap); }
      if paused { return Err(InvalidMarketStatus); }
      if admin != factory { return Err(NotAdmin); }
      if state.status != Resolved { return Err(InvalidMarketStatus); }
      state := state.(status := Disputed);
      return Ok(());
    }

    method ResolveDispute(env: Env, admin: Address, finalOutcome: Outcome) returns (r: Result<(), ContractError>)
      requires Valid()
      modifies this
      ensures Valid()
      ensures (Value(), ErrorOf(r)) == Call(old(Value()), env, Op.ResolveDispute(admin, finalOutcome), true)
    {
      if !Authorized(env, admin) { return Err(Trap); }
      if paused { return Err(InvalidMarketStatus); }
      if admin != factory { return Err(NotAdmin); }
      if state.status != Disputed { return Err(InvalidMarketStatus); }
      state := state.(outcome := Some(finalOutcome), status := Resolved, resolvedAt := env.now);
      return Ok(());
    }

    method SetPaused(env: Env, admin: Address, pause: bool) returns (r: Result<(), ContractError>)
      requires Valid()
      modifies this
      ensures Valid()
      ensures var op := if pause then EmergencyPause(admin) else EmergencyUnpause(admin);
        (Value(), ErrorOf(r)) == Call(old(Value()), env, op, true)
    {
      if !Authorized(env, admin) { return Err(Trap); }
      if admin != factory { return Err(NotAdmin); }
      paused := pause;
      return Ok(());
    }
  }
}
