/** What every entry point of the market contract checks, writes and asks the token to move. */
module MarketSpec {
  import opened Wrappers
  import opened Int128
  import opened Contracts

  datatype BetSide = FighterA | FighterB | Draw
  datatype Outcome = FighterA | FighterB | Draw | NoContest
  datatype Status = Open | Locked | Resolved | Cancelled | Disputed

  datatype Config = Config(
    minBet: int, maxBet: int, feeBps: nat, lockBefore: nat, resolutionWindow: nat, scheduledAt: nat)

  datatype MarketState = MarketState(
    config: Config, status: Status, outcome: Option<Outcome>,
    poolA: int, poolB: int, poolDraw: int, totalPool: int, resolvedAt: nat)

  datatype BetRecord = BetRecord(bettor: Address, side: BetSide, amount: int, placedAt: nat, claimed: bool)

  /** An oracle's signed report; `signatureValid` is the verdict of the Ed25519 check. */
  datatype Report = Report(oracle: Address, outcome: Outcome, signatureValid: bool)

  /** The contract's own storage. */
  datatype Storage = Storage(
    factory: Address, treasury: Address, state: MarketState,
    bets: map<Address, seq<BetRecord>>, bettors: seq<Address>,
    pending: map<Address, Outcome>, claiming: bool, paused: bool)

  /** What one call can see of its surroundings. */
  datatype Env = Env(now: nat, signers: set<Address>, whitelist: set<Address>)

  // The history that the invariants speak about; the contract itself does not store it.

  datatype Payment = Winnings(bettor: Address, amount: int, fee: int) | Refund(bettor: Address, amount: int)
  datatype ReportEntry = ReportEntry(oracle: Address, outcome: Outcome, whitelist: set<Address>)
  datatype Decision = Decision(first: Address, second: Address, outcome: Outcome)

  datatype World = World(
    st: Storage, balance: int,
    payments: seq<Payment>, reports: seq<ReportEntry>, decisions: seq<Decision>)

  datatype Transfer = In(from: Address, amount: int) | Out(to: Address, amount: int)

  /** The world after an entry point's writes, and the token transfers it makes after them. */
  datatype Effect = Effect(world: World, transfers: seq<Transfer>, guarded: bool)

  datatype Op =
    | PlaceBet(bettor: Address, side: BetSide, amount: int)
    | LockMarket(caller: Address)
    | ResolveMarket(oracle: Address, report: Report)
    | ClaimWinnings(bettor: Address)
    | ClaimRefund(bettor: Address)
    | CancelMarket(caller: Address)
    | DisputeMarket(admin: Address)
    | ResolveDispute(admin: Address, outcome: Outcome)
    | EmergencyPause(admin: Address)
    | EmergencyUnpause(admin: Address)

  /** The market's own address; it never signs for itself. */
  const SELF: Address := Address(0)

  predicate Authorized(env: Env, who: Address) {
    who in env.signers && who != SELF
  }

  function BetsOf(bets: map<Address, seq<BetRecord>>, bettor: Address): seq<BetRecord> {
    if bettor in bets then bets[bettor] else []
  }

  function Pool(s: MarketState, side: BetSide): int {
    match side
    case FighterA => s.poolA
    case FighterB => s.poolB
    case Draw => s.poolDraw
  }

  function AddToPool(s: MarketState, side: BetSide, amount: int): MarketState {
    match side
    case FighterA => s.(poolA := s.poolA + amount, totalPool := s.totalPool + amount)
    case FighterB => s.(poolB := s.poolB + amount, totalPool := s.totalPool + amount)
    case Draw => s.(poolDraw := s.poolDraw + amount, totalPool := s.totalPool + amount)
  }

  function WinningSide(outcome: Option<Outcome>): Option<BetSide> {
    match outcome
    case Some(FighterA) => Some(BetSide.FighterA)
    case Some(FighterB) => Some(BetSide.FighterB)
    case Some(Draw) => Some(BetSide.Draw)
    case _ => None
  }

  function LockThreshold(c: Config): nat {
    if c.scheduledAt < c.lockBefore then 0 else c.scheduledAt - c.lockBefore
  }

  function Deadline(c: Config): nat {
    if c.scheduledAt + c.resolutionWindow > U64_MAX then U64_MAX else c.scheduledAt + c.resolutionWindow
  }

  /** A record a claim can still pay: any side for a refund, one side for winnings. */
  predicate Payable(bet: BetRecord, side: Option<BetSide>) {
    !bet.claimed && (side.None? || bet.side == side.value)
  }

  function PayableStake(bets: seq<BetRecord>, side: Option<BetSide>): int {
    if bets == [] then 0
    else PayableStake(bets[..|bets| - 1], side)
         + (if Payable(bets[|bets| - 1], side) then bets[|bets| - 1].amount else 0)
  }

  predicate AnyPayable(bets: seq<BetRecord>, side: Option<BetSide>) {
    exists i :: 0 <= i < |bets| && Payable(bets[i], side)
  }

  function MarkClaimed(bets: seq<BetRecord>, side: Option<BetSide>): (marked: seq<BetRecord>)
    ensures |marked| == |bets|
  {
    seq(|bets|, i requires 0 <= i < |bets| =>
      if Payable(bets[i], side) then bets[i].(claimed := true) else bets[i])
  }

  /** The fee and net pool of a claim, or nothing when a checked operation overflows. */
  function FeeAndNet(s: MarketState): Option<(int, int)> {
    var scaled := Checked(s.totalPool * s.config.feeBps);
    if scaled.None? then None
    else
      var fee := Quot(scaled.value, 10000);
      var net := Checked(s.totalPool - fee);
      if net.None? then None else Some((fee, net.value))
  }

  function Share(stake: int, net: int, pool: int): Option<int> {
    if pool > 0 then
      var scaled := Checked(stake * net);
      if scaled.None? then None else Some(Quot(scaled.value, pool))
    else
      Some(0)
  }

  // Entry points: checks in the contract's order, then the writes, then the transfers it will make.

  function Done(w: World): Result<Effect, ContractError> {
    Ok(Effect(w, [], false))
  }

  function PlaceBetEffect(w: World, env: Env, bettor: Address, side: BetSide, amount: int)
    : Result<Effect, ContractError>
  {
    var st := w.st;
    if !Authorized(env, bettor) then Err(Trap)
    else if st.paused then Err(InvalidMarketStatus)
    else if st.state.status != Open then Err(MarketNotOpen)
    else if env.now >= LockThreshold(st.state.config) then Err(BettingClosed)
    else if amount < st.state.config.minBet then Err(BelowMinimum)
    else if amount > st.state.config.maxBet then Err(BetTooLarge)
    else
      var after := AddToPool(st.state, side, amount);
      if !InRange(Pool(after, side)) || !InRange(after.totalPool) then Err(Trap)
      else if BetsOf(st.bets, bettor) != [] then Err(AlreadyBet)
      else if amount < 0 then Err(Trap)  // refused by the token, before it calls anyone
      else
        var bet := BetRecord(bettor, side, amount, env.now, false);
        var written := st.(state := after, bets := st.bets[bettor := [bet]], bettors := st.bettors + [bettor]);
        Ok(Effect(w.(st := written), [In(bettor, amount)], false))
  }

  function LockMarketEffect(w: World, env: Env, caller: Address): Result<Effect, ContractError> {
    var st := w.st;
    if !Authorized(env, caller) then Err(Trap)
    else if st.paused then Err(InvalidMarketStatus)
    else if caller != st.factory && caller !in env.whitelist then Err(NotOracle)
    else if st.state.status != Open then Err(InvalidMarketStatus)
    else if env.now < LockThreshold(st.state.config) then Err(InvalidTimeRange)
    else Done(w.(st := st.(state := st.state.(status := Locked))))
  }

  /** The other oracles whose stored report names this outcome. */
  function Agreeing(pending: map<Address, Outcome>, oracle: Address, outcome: Outcome): set<Address> {
    set o | o in pending && o != oracle && pending[o] == outcome
  }

  function ResolveMarketEffect(w: World, env: Env, oracle: Address, report: Report): Result<Effect, ContractError> {
    var st := w.st;
    if !Authorized(env, oracle) then Err(Trap)
    else if st.paused then Err(InvalidMarketStatus)
    else if oracle !in env.whitelist then Err(NotOracle)
    else if st.state.status != Locked then Err(InvalidMarketStatus)
    else if env.now > Deadline(st.state.config) then Err(ResolutionWindowExpired)
    else if report.oracle != oracle then Err(InvalidOracleSignature)
    else if !report.signatureValid then Err(Trap)
    else if oracle in st.pending then Err(Unauthorized)
    else
      var logged := w.(reports := w.reports + [ReportEntry(oracle, report.outcome, env.whitelist)]);
      var agreeing := Agreeing(st.pending, oracle, report.outcome);
      if 1 + |agreeing| >= 2 then
        var state := st.state.(outcome := Some(report.outcome), status := Resolved, resolvedAt := env.now);
        Done(logged.(st := st.(state := state, pending := map[]),
                     decisions := w.decisions + [Decision(OneOf(agreeing), oracle, report.outcome)]))
      else
        Done(logged.(st := st.(pending := st.pending[oracle := report.outcome])))
  }

  /** The member with the least id, so that the history is a function of the call. */
  function OneOf(s: set<Address>): (a: Address)
    requires s != {}
    ensures a in s
  {
    LeastExists(s);
    var a :| a in s && forall b :: b in s ==> a.id <= b.id;
    a
  }

  lemma {:induction false} LeastExists(s: set<Address>)
    requires s != {}
    ensures exists a :: a in s && forall b :: b in s ==> a.id <= b.id
    decreases |s|
  {
    var x :| x in s;
    if s != {x} {
      var rest := s - {x};
      assert s == {x} + rest;
      LeastExists(rest);
      var y :| y in rest && forall b :: b in rest ==> y.id <= b.id;
      var z := if x.id <= y.id then x else y;
      assert z in s && forall b :: b in s ==> z.id <= b.id;
    }
  }

  function ClaimWinningsEffect(w: World, env: Env, bettor: Address): Result<Effect, ContractError> {
    var st := w.st;
    if !Authorized(env, bettor) then Err(Trap)
    else if st.paused then Err(InvalidMarketStatus)
    else if st.claiming then Err(ReentrancyGuard)
    else if st.state.status == Cancelled then Err(MarketCancelled)
    else if st.state.status != Resolved then Err(MarketNotResolved)
    else if WinningSide(st.state.outcome).None? then Err(InvalidOutcome)
    else
      var winner := WinningSide(st.state.outcome);
      var bets := BetsOf(st.bets, bettor);
      if bets == [] then Err(NoBetsFound)
      else if !AnyPayable(bets, winner) then Err(AlreadyClaimed)
      else if FeeAndNet(st.state).None? then Err(InsufficientAmount)
      else
        var (fee, net) := FeeAndNet(st.state).value;
        var payout := Share(PayableStake(bets, winner), net, Pool(st.state, winner.value));
        if payout.None? then Err(InsufficientAmount)
        else
          var written := st.(claiming := true, bets := st.bets[bettor := MarkClaimed(bets, winner)]);
          Ok(Effect(
               w.(st := written, payments := w.payments + [Winnings(bettor, payout.value, fee)]),
               PositiveOut(st.treasury, fee) + PositiveOut(bettor, payout.value), true))
  }

  function PositiveOut(to: Address, amount: int): seq<Transfer> {
    if amount > 0 then [Out(to, amount)] else []
  }

  function ClaimRefundEffect(w: World, env: Env, bettor: Address): Result<Effect, ContractError> {
    var st := w.st;
    if !Authorized(env, bettor) then Err(Trap)
    else if st.paused then Err(InvalidMarketStatus)
    else if st.claiming then Err(ReentrancyGuard)
    else if st.state.status != Cancelled then Err(InvalidMarketStatus)
    else
      var bets := BetsOf(st.bets, bettor);
      if bets == [] then Err(NoBetsFound)
      else if !AnyPayable(bets, None) then Err(AlreadyClaimed)
      else
        var refund := PayableStake(bets, None);
        var written := st.(claiming := true, bets := st.bets[bettor := MarkClaimed(bets, None)]);
        Ok(Effect(w.(st := written, payments := w.payments + [Refund(bettor, refund)]),
                  PositiveOut(bettor, refund), true))
  }

  function CancelMarketEffect(w: World, env: Env, caller: Address): Result<Effect, ContractError> {
    var st := w.st;
    if !Authorized(env, caller) then Err(Trap)
    else if st.paused then Err(InvalidMarketStatus)
    else if caller != st.factory && caller !in env.whitelist then Err(NotOracle)
    else if st.state.status != Open && st.state.status != Locked then Err(InvalidMarketStatus)
    else Done(w.(st := st.(state := st.state.(status := Cancelled))))
  }

  function DisputeMarketEffect(w: World, env: Env, admin: Address): Result<Effect, ContractError> {
    var st := w.st;
    if !Authorized(env, admin) then Err(Trap)
    else if st.paused then Err(InvalidMarketStatus)
    else if admin != st.factory then Err(NotAdmin)
    else if st.state.status != Resolved then Err(InvalidMarketStatus)
    else Done(w.(st := st.(state := st.state.(status := Disputed))))
  }

  function ResolveDisputeEffect(w: World, env: Env, admin: Address, outcome: Outcome): Result<Effect, ContractError> {
    var st := w.st;
    if !Authorized(env, admin) then Err(Trap)
    else if st.paused then Err(InvalidMarketStatus)
    else if admin != st.factory then Err(NotAdmin)
    else if st.state.status != Disputed then Err(InvalidMarketStatus)
    else
      Done(w.(st := st.(state := st.state.(outcome := Some(outcome), status := Resolved, resolvedAt := env.now))))
  }

  function SetPausedEffect(w: World, env: Env, admin: Address, paused: bool): Result<Effect, ContractError> {
    if !Authorized(env, admin) then Err(Trap)
    else if admin != w.st.factory then Err(NotAdmin)
    else Done(w.(st := w.st.(paused := paused)))
  }

  function Effects(w: World, env: Env, op: Op): Result<Effect, ContractError> {
    match op
    case PlaceBet(bettor, side, amount) => PlaceBetEffect(w, env, bettor, side, amount)
    case LockMarket(caller) => LockMarketEffect(w, env, caller)
    case ResolveMarket(oracle, report) => ResolveMarketEffect(w, env, oracle, report)
    case ClaimWinnings(bettor) => ClaimWinningsEffect(w, env, bettor)
    case ClaimRefund(bettor) => ClaimRefundEffect(w, env, bettor)
    case CancelMarket(caller) => CancelMarketEffect(w, env, caller)
    case DisputeMarket(admin) => DisputeMarketEffect(w, env, admin)
    case ResolveDispute(admin, outcome) => ResolveDisputeEffect(w, env, admin, outcome)
    case EmergencyPause(admin) => SetPausedEffect(w, env, admin, true)
    case EmergencyUnpause(admin) => SetPausedEffect(w, env, admin, false)
  }

  /** A freshly initialised market. */
  function Init(factory: Address, treasury: Address, config: Config): World {
    var state := MarketState(config, Open, None, 0, 0, 0, 0, 0);
    World(Storage(factory, treasury, state, map[], [], map[], false, false), 0, [], [], [])
  }
}
