/** What every call's writes keep true of a market. */
module MarketInvariant {
  import opened Wrappers
  import opened Int128
  import opened Totals
  import opened Division
  import opened Contracts
  import opened MarketSpec

  ghost predicate ValidConfig(c: Config) {
    c.feeBps <= 1000
  }

  /** The stake each bettor has recorded on one side. */
  ghost function Stakes(bets: map<Address, seq<BetRecord>>, side: BetSide): map<Address, int> {
    map b | b in bets && |bets[b]| == 1 && bets[b][0].side == side :: bets[b][0].amount
  }

  /** The stake each bettor has recorded and not been paid for. */
  ghost function Unclaimed(bets: map<Address, seq<BetRecord>>): map<Address, int> {
    map b | b in bets && |bets[b]| == 1 && !bets[b][0].claimed :: bets[b][0].amount
  }

  /** The bettor list names each bettor once, and each bettor has one stake, of the minimum or more. */
  ghost predicate BetsOk(st: Storage) {
    && Distinct(st.bettors)
    && (forall b :: b in st.bettors <==> b in st.bets)
    && (forall b :: b in st.bets ==>
          && |st.bets[b]| == 1 && st.bets[b][0].bettor == b
          && st.bets[b][0].amount >= 0 && st.bets[b][0].amount >= st.state.config.minBet)
  }

  ghost predicate PoolsOk(st: Storage) {
    && (forall side :: Pool(st.state, side) == Total(st.bettors, Stakes(st.bets, side)))
    && st.state.totalPool == st.state.poolA + st.state.poolB + st.state.poolDraw
    && InRange(st.state.totalPool)
  }

  ghost predicate Claimed(st: Storage, b: Address) {
    b in st.bets && |st.bets[b]| == 1 && st.bets[b][0].claimed
  }

  ghost function Fee(s: MarketState): int {
    s.totalPool * s.config.feeBps / 10000
  }

  ghost function NetPool(s: MarketState): int {
    s.totalPool - Fee(s)
  }

  /** What the payout formula gives a stake on its own side. */
  ghost function Payout(st: Storage, b: Address): int
    requires b in st.bets && |st.bets[b]| == 1
  {
    var pool := Pool(st.state, st.bets[b][0].side);
    if pool > 0 then st.bets[b][0].amount * NetPool(st.state) / pool else 0
  }

  ghost predicate PaymentOk(st: Storage, p: Payment) {
    && Claimed(st, p.bettor)
    && match p
       case Winnings(b, amount, fee) =>
         (st.state.status == Resolved || st.state.status == Disputed) && amount == Payout(st, b) && fee == Fee(st.state)
       case Refund(b, amount) =>
         st.state.status == Cancelled && amount == st.bets[b][0].amount
  }

  /** One payment for each claimed record, at the right amount, and no other. */
  ghost predicate PaymentsOk(w: World) {
    && (forall p :: p in w.payments ==> PaymentOk(w.st, p))
    && (forall i, j :: 0 <= i < j < |w.payments| ==> w.payments[i].bettor != w.payments[j].bettor)
    && (forall b :: Claimed(w.st, b) ==> exists p :: p in w.payments && p.bettor == b)
  }

  ghost function Outflow(payments: seq<Payment>): int {
    if payments == [] then 0
    else Outflow(payments[..|payments| - 1]) + Cost(payments[|payments| - 1])
  }

  ghost function Cost(p: Payment): int {
    match p
    case Winnings(_, amount, fee) => amount + fee
    case Refund(_, amount) => amount
  }

  /** Unless winnings were paid, what is not paid out is exactly the unclaimed stakes. */
  ghost predicate RefundableOk(w: World) {
    w.st.state.status in {Open, Locked, Cancelled} ==>
      w.st.state.totalPool - Outflow(w.payments) == Total(w.st.bettors, Unclaimed(w.st.bets))
  }

  /** An accepted report, from an oracle that was whitelisted when it reported. */
  ghost predicate Reported(w: World, oracle: Address, outcome: Outcome) {
    exists e :: e in w.reports && e.oracle == oracle && e.outcome == outcome && e.oracle in e.whitelist
  }

  ghost predicate DecisionOk(w: World, d: Decision) {
    d.first != d.second && Reported(w, d.first, d.outcome) && Reported(w, d.second, d.outcome)
  }

  ghost predicate OraclesOk(w: World) {
    && (forall o, p :: o in w.st.pending && p in w.st.pending && o != p ==> w.st.pending[o] != w.st.pending[p])
    && (forall o :: o in w.st.pending ==> Reported(w, o, w.st.pending[o]))
    && (forall d :: d in w.decisions ==> DecisionOk(w, d))
    && (w.st.state.status in {Resolved, Disputed} ==> |w.decisions| == 1 && w.st.state.outcome.Some?)
    && (w.st.state.status in {Open, Locked, Cancelled} ==> w.decisions == [] && w.st.state.outcome.None?)
    && (w.st.state.status == Open ==> w.st.pending == map[])
  }

  ghost predicate WorldOk(w: World) {
    && ValidConfig(w.st.state.config)
    && w.st.treasury != SELF
    && BetsOk(w.st)
    && PoolsOk(w.st)
    && PaymentsOk(w)
    && RefundableOk(w)
    && OraclesOk(w)
  }

  // Facts about sums of stakes

  lemma StakesNonNegative(st: Storage, side: BetSide)
    requires BetsOk(st) && ValidConfig(st.state.config)
    ensures forall k :: k in st.bettors ==> Weight(Stakes(st.bets, side), k) >= 0
    ensures Total(st.bettors, Stakes(st.bets, side)) >= 0
  {
    TotalNonNegative(st.bettors, Stakes(st.bets, side));
  }

  lemma PoolsNonNegative(st: Storage)
    requires BetsOk(st) && PoolsOk(st) && ValidConfig(st.state.config)
    ensures forall side :: 0 <= Pool(st.state, side) <= st.state.totalPool
    ensures st.state.totalPool >= 0
  {
    forall side ensures 0 <= Pool(st.state, side) {
      StakesNonNegative(st, side);
    }
    assert Pool(st.state, BetSide.FighterA) >= 0 && Pool(st.state, BetSide.FighterB) >= 0
      && Pool(st.state, BetSide.Draw) >= 0;
  }

  lemma FeeBounds(s: MarketState)
    requires s.config.feeBps <= 10000 && s.totalPool >= 0
    ensures 0 <= Fee(s) <= s.totalPool
    ensures 0 <= NetPool(s) <= s.totalPool
  {
    assert s.totalPool * s.config.feeBps <= s.totalPool * 10000;
  }

  /** A recorded stake is part of its side's pool. */
  lemma StakeWithinPool(st: Storage, b: Address)
    requires BetsOk(st) && PoolsOk(st) && ValidConfig(st.state.config) && b in st.bets
    ensures 0 <= st.bets[b][0].amount <= Pool(st.state, st.bets[b][0].side)
    ensures st.state.config.minBet > 0 ==> st.bets[b][0].amount > 0
  {
    var m := Stakes(st.bets, st.bets[b][0].side);
    StakesNonNegative(st, st.bets[b][0].side);
    TotalNonNegative(st.bettors, m);
    assert Weight(m, b) == st.bets[b][0].amount;
  }

  lemma PayoutBounds(st: Storage, b: Address)
    requires BetsOk(st) && PoolsOk(st) && ValidConfig(st.state.config) && b in st.bets
    ensures 0 <= Payout(st, b) <= NetPool(st.state)
  {
    StakeWithinPool(st, b);
    PoolsNonNegative(st);
    FeeBounds(st.state);
    if Pool(st.state, st.bets[b][0].side) > 0 {
      ShareBounds(st.bets[b][0].amount, NetPool(st.state), Pool(st.state, st.bets[b][0].side));
    }
  }

  lemma ShareBounds(stake: int, net: int, pool: int)
    requires 0 <= stake <= pool && 0 < pool && 0 <= net
    ensures 0 <= stake * net / pool <= net
  {
    MulLeft(net, stake, pool);
    FloorBounds(stake * net, pool);
    FloorGreatest(stake * net, pool, 0);
    FloorLeast(stake * net, pool, net);
  }

  lemma {:induction false} OutflowAppend(ps: seq<Payment>, p: Payment)
    ensures Outflow(ps + [p]) == Outflow(ps) + Cost(p)
  {
    assert (ps + [p])[..|ps|] == ps;
  }
}
