/**
 * Markets and the treasury together. A market sends the treasury its fees as plain token transfers; the
 * treasury's ledger learns of money only through deposits and reported receipts.
 */
module FeeFlow {
  import opened Wrappers
  import opened Int128
  import opened Contracts
  import opened TreasurySpec
  import Market = MarketSpec
  import MarketInvariant
  import MarketMachine
  import MarketSteps
  import MarketPayouts
  import MarketTransfers

  /**
   * `held` is the treasury's balance of the one token; `unbacked` is what its ledger was credited with
   * without any money moving, `returned` what was withdrawn to the treasury itself, so that the ledger
   * gave up money that never left.
   */
  datatype Joint = Joint(t: Ledger, markets: seq<Market.World>, held: int, unbacked: int, returned: int)

  datatype Event =
    | TreasuryCall(env: Env, op: Op)
    | MarketCall(i: nat, marketEnv: Market.Env, marketOp: Market.Op, funded: bool)

  function Positive(x: int): int {
    if x > 0 then x else 0
  }

  /** What a successful treasury call receives of the token. */
  function Paid(op: Op, token: Address): int {
    if op.DepositFees? && op.token == token then op.amount else 0
  }

  /** What a successful treasury call transfers away of the token, be it to itself. */
  function Sends(t: Ledger, op: Op, token: Address): int {
    match op
    case WithdrawFees(_, k, amount, _) => if k == token then amount else 0
    case EmergencyDrain(_, k) => if k == token then Positive(Get(t.fees, k)) else 0
    case _ => 0
  }

  /** What of it comes straight back. */
  function Returned(op: Op, token: Address, self: Address): int {
    if op.WithdrawFees? && op.token == token && op.destination == self then op.amount else 0
  }

  /** A receipt that is only reported, or a negative entry written off by a drain. */
  function Unbacked(t: Ledger, op: Op, token: Address): int {
    match op
    case ReceiveFee(_, _, k, amount) => if k == token then amount else 0
    case EmergencyDrain(_, k) => if k == token then Positive(-Get(t.fees, k)) else 0
    case _ => 0
  }

  /** What a market call sends to an address: its transfers when it succeeds, nothing otherwise. */
  function SentTo(w: Market.World, env: Market.Env, op: Market.Op, funded: bool, who: Address): int {
    if MarketPayouts.Call(w, env, op, funded).1.Some? then 0
    else MarketTransfers.Received(Market.Effects(w, env, op).value.transfers, who)
  }

  /** The treasury contract calls no contract but the token, which refuses a transfer beyond its balance. */
  function TreasuryEnv(j: Joint, token: Address, env: Env, op: Op): Env {
    env.(transferOk := env.transferOk && Sends(j.t, op, token) <= j.held)
  }

  function TreasuryStep(j: Joint, self: Address, token: Address, env: Env, op: Op): Joint {
    if self in env.signers then j
    else
      match Apply(j.t, TreasuryEnv(j, token, env, op), op)
      case Err(_) => j
      case Ok(t) =>
        j.(t := t, held := j.held + Paid(op, token) - Sends(j.t, op, token) + Returned(op, token, self),
           unbacked := j.unbacked + Unbacked(j.t, op, token), returned := j.returned + Returned(op, token, self))
  }

  function MarketStep(j: Joint, self: Address, i: nat, env: Market.Env, op: Market.Op, funded: bool): Joint {
    if i >= |j.markets| || self in env.signers then j
    else
      var w := j.markets[i];
      j.(markets := j.markets[i := MarketPayouts.Call(w, env, op, funded).0],
         held := j.held + SentTo(w, env, op, funded, self))
  }

  function Step(j: Joint, self: Address, token: Address, e: Event): Joint {
    match e
    case TreasuryCall(env, op) => TreasuryStep(j, self, token, env, op)
    case MarketCall(i, env, op, funded) => MarketStep(j, self, i, env, op, funded)
  }

  function Run(j: Joint, self: Address, token: Address, events: seq<Event>): Joint {
    if events == [] then j else Step(Run(j, self, token, events[..|events| - 1]), self, token, events[|events| - 1])
  }

  /** The fees of the claims a market has paid. */
  function Fees(payments: seq<Market.Payment>): int {
    if payments == [] then 0
    else
      var p := payments[|payments| - 1];
      Fees(payments[..|payments| - 1]) + (if p.Winnings? then p.fee else 0)
  }

  function AllFees(markets: seq<Market.World>): int {
    if markets == [] then 0 else AllFees(markets[..|markets| - 1]) + Fees(markets[|markets| - 1].payments)
  }

  lemma {:induction false} AllFeesUpdate(markets: seq<Market.World>, i: nat, w: Market.World)
    requires i < |markets|
    ensures AllFees(markets[i := w]) == AllFees(markets) - Fees(markets[i].payments) + Fees(w.payments)
  {
    var n := |markets| - 1;
    if i == n {
      assert markets[i := w][..n] == markets[..n];
    } else {
      AllFeesUpdate(markets[..n], i, w);
      assert markets[i := w][..n] == markets[..n][i := w];
    }
  }

  /** To an address that is no bettor, a treasury's payments come to the fees. */
  lemma {:induction false} FeesAreOwed(payments: seq<Market.Payment>, self: Address)
    requires forall p :: p in payments ==> p.bettor != self
    ensures MarketTransfers.Owed(payments, self, self) == Fees(payments)
  {
    if payments != [] {
      FeesAreOwed(payments[..|payments| - 1], self);
      assert payments[|payments| - 1] in payments;
    }
  }

  ghost predicate MarketFits(w: Market.World, self: Address) {
    && MarketPayouts.BetweenCalls(w) && w.st.treasury == self
    && (forall p :: p in w.payments ==> PaymentFits(p, self))
  }

  predicate PaymentFits(p: Market.Payment, self: Address) {
    p.bettor != self && (p.Winnings? ==> p.fee >= 0)
  }

  /** At most one payment more, to somebody else. */
  ghost predicate PaysOthers(w: Market.World, after: Market.World, self: Address) {
    || after.payments == w.payments
    || exists p :: PaymentFits(p, self) && after.payments == w.payments + [p]
  }

  lemma WinningsPaysOthers(w: Market.World, env: Market.Env, bettor: Address, self: Address)
    requires MarketFits(w, self) && bettor != self && Market.ClaimWinningsEffect(w, env, bettor).Ok?
    ensures PaysOthers(w, Market.ClaimWinningsEffect(w, env, bettor).value.world, self)
  {
    MarketInvariant.PoolsNonNegative(w.st);
    MarketInvariant.FeeBounds(w.st.state);
    MarketSteps.ClaimWinningsGood(w, env, bettor);
    var p := Market.Winnings(bettor, MarketInvariant.Payout(w.st, bettor), MarketInvariant.Fee(w.st.state));
    assert PaymentFits(p, self);
  }

  lemma RefundPaysOthers(w: Market.World, env: Market.Env, bettor: Address, self: Address)
    requires MarketFits(w, self) && bettor != self && Market.ClaimRefundEffect(w, env, bettor).Ok?
    ensures PaysOthers(w, Market.ClaimRefundEffect(w, env, bettor).value.world, self)
  {
    MarketSteps.ClaimRefundGood(w, env, bettor);
    var p := Market.Refund(bettor, w.st.bets[bettor][0].amount);
    assert PaymentFits(p, self);
  }

  lemma CallPaysOthers(w: Market.World, env: Market.Env, op: Market.Op, self: Address)
    requires MarketFits(w, self) && self !in env.signers && Market.Effects(w, env, op).Ok?
    ensures PaysOthers(w, Market.Effects(w, env, op).value.world, self)
  {
    match op
    case ClaimWinnings(bettor) => WinningsPaysOthers(w, env, bettor, self);
    case ClaimRefund(bettor) => RefundPaysOthers(w, env, bettor, self);
    case _ =>
  }

  lemma MorePayments(w: Market.World, after: Market.World, self: Address)
    requires PaysOthers(w, after, self) && forall p :: p in w.payments ==> PaymentFits(p, self)
    ensures forall p :: p in after.payments ==> PaymentFits(p, self)
    ensures Fees(after.payments) >= Fees(w.payments)
  {
    if after.payments != w.payments {
      assert after.payments[..|w.payments|] == w.payments;
    }
  }

  /** A market call sends the treasury exactly the fees it adds to the market's payments. */
  lemma CallSendsFees(w: Market.World, env: Market.Env, op: Market.Op, funded: bool, self: Address)
    requires MarketFits(w, self) && self !in env.signers
    ensures var after := MarketPayouts.Call(w, env, op, funded).0;
      && MarketFits(after, self)
      && SentTo(w, env, op, funded, self) == Fees(after.payments) - Fees(w.payments) >= 0
  {
    MarketPayouts.CallKeepsSettled(w, env, op, funded);
    if Market.Effects(w, env, op).Ok? {
      EffectSendsFees(w, env, op, self);
    }
  }

  lemma EffectSendsFees(w: Market.World, env: Market.Env, op: Market.Op, self: Address)
    requires MarketFits(w, self) && self !in env.signers && Market.Effects(w, env, op).Ok?
    ensures var e := Market.Effects(w, env, op).value;
      && e.world.st.treasury == self && (forall p :: p in e.world.payments ==> PaymentFits(p, self))
      && MarketTransfers.Received(e.transfers, self) == Fees(e.world.payments) - Fees(w.payments) >= 0
  {
    var after := Market.Effects(w, env, op).value.world;
    CallPaysOthers(w, env, op, self);
    MorePayments(w, after, self);
    MarketTransfers.EffectOwes(w, env, op, self);
    FeesAreOwed(w.payments, self);
    FeesAreOwed(after.payments, self);
  }

  ghost predicate JointOk(j: Joint, self: Address, token: Address) {
    && (forall i :: 0 <= i < |j.markets| ==> MarketFits(j.markets[i], self))
    && j.held == Get(j.t.fees, token) - j.unbacked + j.returned + AllFees(j.markets)
    && j.held >= 0 && j.returned >= 0
  }

  /** A treasury call moves its books by its money and by what it books without money. */
  lemma BooksMove(t: Ledger, env: Env, op: Op, token: Address, self: Address)
    requires Apply(t, env, op).Ok?
    ensures Get(Apply(t, env, op).value.fees, token)
         == Get(t.fees, token) + Paid(op, token) - Sends(t, op, token) + Unbacked(t, op, token)
    ensures Paid(op, token) >= 0 && 0 <= Returned(op, token, self)
    ensures Sends(t, op, token) > 0 ==> env.transferOk
  {
  }

  lemma TreasuryStepOk(j: Joint, self: Address, token: Address, env: Env, op: Op)
    requires JointOk(j, self, token)
    ensures JointOk(TreasuryStep(j, self, token, env, op), self, token)
  {
    if Apply(j.t, TreasuryEnv(j, token, env, op), op).Ok? {
      BooksMove(j.t, TreasuryEnv(j, token, env, op), op, token, self);
    }
  }

  lemma MarketStepOk(
      j: Joint, self: Address, token: Address, i: nat, env: Market.Env, op: Market.Op, funded: bool)
    requires JointOk(j, self, token)
    ensures JointOk(MarketStep(j, self, i, env, op, funded), self, token)
    ensures MarketStep(j, self, i, env, op, funded).held >= j.held
  {
    if i < |j.markets| && self !in env.signers {
      CallSendsFees(j.markets[i], env, op, funded, self);
      AllFeesUpdate(j.markets, i, MarketPayouts.Call(j.markets[i], env, op, funded).0);
    }
  }

  ghost predicate FreshMarket(w: Market.World, self: Address) {
    exists factory, config :: MarketInvariant.ValidConfig(config) && w == Market.Init(factory, self, config)
  }

  ghost predicate FreshJoint(j: Joint, self: Address) {
    && (exists admin, factory, limit :: j.t == Fresh(admin, factory, limit))
    && (forall i :: 0 <= i < |j.markets| ==> FreshMarket(j.markets[i], self))
    && j.held == 0 && j.unbacked == 0 && j.returned == 0
  }

  lemma FreshMarketFits(w: Market.World, self: Address)
    requires FreshMarket(w, self) && self != Market.SELF
    ensures MarketFits(w, self) && w.payments == []
  {
    var factory, config :| MarketInvariant.ValidConfig(config) && w == Market.Init(factory, self, config);
    MarketMachine.StartOk(factory, self, config);
  }

  lemma {:induction false} NoFeesYet(markets: seq<Market.World>)
    requires forall i :: 0 <= i < |markets| ==> markets[i].payments == []
    ensures AllFees(markets) == 0
  {
    if markets != [] {
      NoFeesYet(markets[..|markets| - 1]);
    }
  }

  /**
   * In every joint run the treasury holds what its ledger says, less what was credited without money,
   * plus what was withdrawn to itself and every fee the markets' claims ever sent it.
   */
  lemma {:induction false} JointBooks(start: Joint, self: Address, token: Address, events: seq<Event>)
    requires FreshJoint(start, self) && self != Market.SELF
    ensures JointOk(Run(start, self, token, events), self, token)
  {
    if events == [] {
      forall i | 0 <= i < |start.markets|
        ensures MarketFits(start.markets[i], self) && start.markets[i].payments == []
      {
        FreshMarketFits(start.markets[i], self);
      }
      NoFeesYet(start.markets);
    } else {
      var before, e := events[..|events| - 1], events[|events| - 1];
      JointBooks(start, self, token, before);
      var j := Run(start, self, token, before);
      match e
      case TreasuryCall(env, op) => TreasuryStepOk(j, self, token, env, op);
      case MarketCall(i, env, op, funded) => MarketStepOk(j, self, token, i, env, op, funded);
    }
  }

  // Whether the money covers the ledger

  predicate Covered(j: Joint, token: Address) {
    Get(j.t.fees, token) <= j.held
  }

  /** The call reports a receipt of the token, and is let through. */
  predicate Reports(j: Joint, self: Address, token: Address, e: Event) {
    && e.TreasuryCall? && self !in e.env.signers && e.op.ReceiveFee? && e.op.token == token
    && Apply(j.t, TreasuryEnv(j, token, e.env, e.op), e.op).Ok?
  }

  /** What the treasury holds beyond its ledger. */
  function Surplus(j: Joint, token: Address): int {
    j.held - Get(j.t.fees, token)
  }

  /** Only a report lowers the surplus, by its amount, or a negative entry written off, and not below zero. */
  lemma SurplusMoves(j: Joint, self: Address, token: Address, e: Event)
    requires JointOk(j, self, token)
    ensures var n := Step(j, self, token, e);
      if Reports(j, self, token, e) then Surplus(n, token) == Surplus(j, token) - e.op.amount
      else Covered(j, token) ==> Covered(n, token)
  {
    match e
    case TreasuryCall(env, op) => TreasurySurplus(j, self, token, env, op);
    case MarketCall(i, env, op, funded) => MarketStepOk(j, self, token, i, env, op, funded);
  }

  lemma TreasurySurplus(j: Joint, self: Address, token: Address, env: Env, op: Op)
    requires JointOk(j, self, token)
    ensures var n := TreasuryStep(j, self, token, env, op);
      if Reports(j, self, token, TreasuryCall(env, op)) then Surplus(n, token) == Surplus(j, token) - op.amount
      else Covered(j, token) ==> Covered(n, token)
  {
    if Apply(j.t, TreasuryEnv(j, token, env, op), op).Ok? {
      BooksMove(j.t, TreasuryEnv(j, token, env, op), op, token, self);
    }
  }

  function After(start: Joint, self: Address, token: Address, events: seq<Event>, i: nat): Joint
    requires i <= |events|
  {
    Run(start, self, token, events[..i])
  }

  ghost predicate AlwaysCovered(start: Joint, self: Address, token: Address, events: seq<Event>) {
    forall i :: 0 <= i <= |events| ==> Covered(After(start, self, token, events, i), token)
  }

  /** No report exceeds what the treasury then holds beyond its ledger. */
  ghost predicate ReportsCovered(start: Joint, self: Address, token: Address, events: seq<Event>) {
    forall i :: 0 <= i < |events| ==> ReportCovered(After(start, self, token, events, i), self, token, events[i])
  }

  predicate ReportCovered(j: Joint, self: Address, token: Address, e: Event) {
    Reports(j, self, token, e) ==> e.op.amount <= j.held - Get(j.t.fees, token)
  }

  lemma AfterNext(start: Joint, self: Address, token: Address, events: seq<Event>, i: nat)
    requires i < |events|
    ensures After(start, self, token, events, i + 1)
         == Step(After(start, self, token, events, i), self, token, events[i])
  {
    assert events[..i + 1][..i] == events[..i];
  }

  lemma {:induction false} StaysCovered(start: Joint, self: Address, token: Address, events: seq<Event>, i: nat)
    requires FreshJoint(start, self) && self != Market.SELF && i <= |events|
    requires ReportsCovered(start, self, token, events)
    ensures Covered(After(start, self, token, events, i), token)
  {
    if i > 0 {
      var before := After(start, self, token, events, i - 1);
      StaysCovered(start, self, token, events, i - 1);
      AfterNext(start, self, token, events, i - 1);
      JointBooks(start, self, token, events[..i - 1]);
      SurplusMoves(before, self, token, events[i - 1]);
      assert ReportCovered(before, self, token, events[i - 1]);
    }
  }

  /**
   * The money covers the ledger all along a run exactly when each reported receipt was within what the
   * treasury held beyond its ledger when it was reported.
   */
  lemma CoveredIff(start: Joint, self: Address, token: Address, events: seq<Event>)
    requires FreshJoint(start, self) && self != Market.SELF
    ensures AlwaysCovered(start, self, token, events) <==> ReportsCovered(start, self, token, events)
  {
    if ReportsCovered(start, self, token, events) {
      forall i | 0 <= i <= |events| ensures Covered(After(start, self, token, events, i), token) {
        StaysCovered(start, self, token, events, i);
      }
    }
    if AlwaysCovered(start, self, token, events) {
      forall i | 0 <= i < |events|
        ensures ReportCovered(After(start, self, token, events, i), self, token, events[i])
      {
        AfterNext(start, self, token, events, i);
        JointBooks(start, self, token, events[..i]);
        SurplusMoves(After(start, self, token, events, i), self, token, events[i]);
        assert Covered(After(start, self, token, events, i + 1), token);
      }
    }
  }

  ghost predicate NoReports(events: seq<Event>) {
    forall i :: 0 <= i < |events| ==> !(events[i].TreasuryCall? && events[i].op.ReceiveFee?)
  }

  lemma NothingUnbackedStep(j: Joint, self: Address, token: Address, e: Event)
    requires j.unbacked == 0 && Get(j.t.fees, token) >= 0 && !(e.TreasuryCall? && e.op.ReceiveFee?)
    ensures var n := Step(j, self, token, e); n.unbacked == 0 && Get(n.t.fees, token) >= 0
  {
  }

  lemma {:induction false} NothingUnbacked(start: Joint, self: Address, token: Address, events: seq<Event>)
    requires FreshJoint(start, self) && NoReports(events)
    ensures var j := Run(start, self, token, events); j.unbacked == 0 && Get(j.t.fees, token) >= 0
  {
    if events != [] {
      var before := events[..|events| - 1];
      NothingUnbacked(start, self, token, before);
      NothingUnbackedStep(Run(start, self, token, before), self, token, events[|events| - 1]);
    }
  }

  lemma {:induction false} AllFeesNonNegative(markets: seq<Market.World>, self: Address)
    requires forall i :: 0 <= i < |markets| ==> MarketFits(markets[i], self)
    ensures AllFees(markets) >= 0
  {
    if markets != [] {
      AllFeesNonNegative(markets[..|markets| - 1], self);
      FeesNonNegative(markets[|markets| - 1].payments);
    }
  }

  lemma {:induction false} FeesNonNegative(payments: seq<Market.Payment>)
    requires forall p :: p in payments && p.Winnings? ==> p.fee >= 0
    ensures Fees(payments) >= 0
  {
    if payments != [] {
      FeesNonNegative(payments[..|payments| - 1]);
      assert payments[|payments| - 1] in payments;
    }
  }

  /**
   * No contract reports a receipt. Then neither the fees of claims nor what was withdrawn to the treasury
   * itself enter the ledger, which is all that withdrawals and drains can take from: at every moment they
   * are still held, beside the booked fees.
   */
  lemma ClaimFeesStayOutside(start: Joint, self: Address, token: Address, events: seq<Event>)
    requires FreshJoint(start, self) && self != Market.SELF && NoReports(events)
    ensures var j := Run(start, self, token, events);
      && j.held == Get(j.t.fees, token) + j.returned + AllFees(j.markets)
      && j.held >= j.returned + AllFees(j.markets) && j.returned >= 0 && AllFees(j.markets) >= 0
  {
    JointBooks(start, self, token, events);
    NothingUnbacked(start, self, token, events);
    AllFeesNonNegative(Run(start, self, token, events).markets, self);
  }
}
