/** Each entry point's writes keep the market's invariant and only ever extend its history. */
module MarketSteps {
  import opened Wrappers
  import opened Int128
  import opened Totals
  import opened Contracts
  import opened MarketSpec
  import opened MarketInvariant

  /** What the contract must hold to cover every stake that has not been paid out. */
  ghost function Backing(w: World): int {
    w.st.state.totalPool - Outflow(w.payments)
  }

  /** What pending transfers will still add to the contract's balance. */
  ghost function Due(transfers: seq<Transfer>): int {
    if transfers == [] then 0
    else (match transfers[0] case In(_, amount) => amount case Out(_, amount) => -amount) + Due(transfers[1..])
  }

  /** How a market may look later: nothing recorded is lost, and the status only moves forward. */
  ghost predicate Extends(w: World, later: World) {
    && w.st.factory == later.st.factory && w.st.treasury == later.st.treasury
    && w.st.state.config == later.st.state.config
    && w.payments <= later.payments && w.reports <= later.reports && w.decisions <= later.decisions
    && w.st.bettors <= later.st.bettors
    && (forall b :: b in w.st.bets ==> b in later.st.bets && SameBets(w.st.bets[b], later.st.bets[b]))
    && (forall b :: Claimed(w.st, b) ==> Claimed(later.st, b))
    && (w.st.state.status != Open ==>
          && later.st.state.status != Open
          && later.st.bettors == w.st.bettors
          && later.st.state.totalPool == w.st.state.totalPool
          && forall side :: Pool(later.st.state, side) == Pool(w.st.state, side))
    && (w.st.state.status == Cancelled ==> later.st.state.status == Cancelled)
    && (w.st.state.status in {Resolved, Disputed} ==> later.st.state.status in {Resolved, Disputed})
  }

  /** The same bets up to the `claimed` flag. */
  ghost predicate SameBets(a: seq<BetRecord>, b: seq<BetRecord>) {
    |a| == |b| && forall i :: 0 <= i < |a| ==> a[i].(claimed := b[i].claimed) == b[i]
  }

  lemma ExtendsTransitive(a: World, b: World, c: World)
    requires Extends(a, b) && Extends(b, c)
    ensures Extends(a, c)
  {
    forall k | k in a.st.bets ensures SameBets(a.st.bets[k], c.st.bets[k]) {
      assert SameBets(a.st.bets[k], b.st.bets[k]) && SameBets(b.st.bets[k], c.st.bets[k]);
    }
  }

  ghost predicate GoodEffect(w: World, e: Effect) {
    && WorldOk(e.world)
    && Extends(w, e.world)
    && Backing(e.world) == Backing(w) + Due(e.transfers)
    && e.world.balance == w.balance
    && e.world.st.claiming == (w.st.claiming || e.guarded)
    && (e.guarded ==> !w.st.claiming)
  }

  /** A first bet adds its amount to its own side's total and to the unclaimed total. */
  lemma FirstBetTotals(bettors: seq<Address>, bets: map<Address, seq<BetRecord>>, b: Address, bet: BetRecord)
    requires b !in bettors && b !in bets && !bet.claimed
    ensures var after := bets[b := [bet]];
      && (forall side :: Total(bettors + [b], Stakes(after, side))
            == Total(bettors, Stakes(bets, side)) + (if side == bet.side then bet.amount else 0))
      && Total(bettors + [b], Unclaimed(after)) == Total(bettors, Unclaimed(bets)) + bet.amount
  {
    var after := bets[b := [bet]];
    forall side ensures Total(bettors + [b], Stakes(after, side))
                     == Total(bettors, Stakes(bets, side)) + (if side == bet.side then bet.amount else 0)
    {
      TotalConcat(bettors, [b], Stakes(after, side));
      TotalCongruent(bettors, Stakes(after, side), Stakes(bets, side));
      SingletonTotal(b, Stakes(after, side));
    }
    TotalConcat(bettors, [b], Unclaimed(after));
    TotalCongruent(bettors, Unclaimed(after), Unclaimed(bets));
    SingletonTotal(b, Unclaimed(after));
  }

  lemma SingletonTotal(b: Address, m: map<Address, int>)
    ensures Total([b], m) == Weight(m, b)
  {
    assert [b][1..] == [];
  }

  lemma PlaceBetBets(w: World, env: Env, bettor: Address, side: BetSide, amount: int)
    requires BetsOk(w.st) && PlaceBetEffect(w, env, bettor, side, amount).Ok?
    ensures bettor !in w.st.bets && bettor !in w.st.bettors
    ensures BetsOk(PlaceBetEffect(w, env, bettor, side, amount).value.world.st)
  {
    var after := PlaceBetEffect(w, env, bettor, side, amount).value.world.st;
    assert bettor !in w.st.bets && bettor !in w.st.bettors;
    assert forall b :: b in after.bettors <==> b in w.st.bettors || b == bettor;
  }

  lemma PlaceBetPools(w: World, env: Env, bettor: Address, side: BetSide, amount: int)
    requires WorldOk(w) && PlaceBetEffect(w, env, bettor, side, amount).Ok?
    ensures var after := PlaceBetEffect(w, env, bettor, side, amount).value.world.st;
      && PoolsOk(after)
      && Total(after.bettors, Unclaimed(after.bets)) == Total(w.st.bettors, Unclaimed(w.st.bets)) + amount
  {
    PlaceBetBets(w, env, bettor, side, amount);
    var bet := BetRecord(bettor, side, amount, env.now, false);
    FirstBetTotals(w.st.bettors, w.st.bets, bettor, bet);
    var after := PlaceBetEffect(w, env, bettor, side, amount).value.world.st;
    assert after.bets == w.st.bets[bettor := [bet]] && after.bettors == w.st.bettors + [bettor];
    forall s ensures Pool(after.state, s) == Total(after.bettors, Stakes(after.bets, s)) {
      assert Pool(w.st.state, s) == Total(w.st.bettors, Stakes(w.st.bets, s));
    }
  }

  lemma NoPaymentsYet(w: World)
    requires WorldOk(w) && w.st.state.status in {Open, Locked}
    ensures w.payments == [] && forall b :: !Claimed(w.st, b)
  {
    NonEmptyHasMember(w.payments);
  }

  lemma PlaceBetGood(w: World, env: Env, bettor: Address, side: BetSide, amount: int)
    requires WorldOk(w) && PlaceBetEffect(w, env, bettor, side, amount).Ok?
    ensures GoodEffect(w, PlaceBetEffect(w, env, bettor, side, amount).value)
  {
    var e := PlaceBetEffect(w, env, bettor, side, amount).value;
    PlaceBetBets(w, env, bettor, side, amount);
    PlaceBetPools(w, env, bettor, side, amount);
    NoPaymentsYet(w);
    assert forall b :: Claimed(e.world.st, b) ==> Claimed(w.st, b);
    assert Due(e.transfers) == amount;
    ReportsKept(w, e.world);
    PlaceBetExtends(w, env, bettor, side, amount);
  }

  lemma PlaceBetExtends(w: World, env: Env, bettor: Address, side: BetSide, amount: int)
    requires BetsOk(w.st) && PlaceBetEffect(w, env, bettor, side, amount).Ok?
    ensures Extends(w, PlaceBetEffect(w, env, bettor, side, amount).value.world)
  {
    PlaceBetBets(w, env, bettor, side, amount);
  }

  /** The storage after paying one bettor's only record. */
  ghost function Settled(st: Storage, b: Address): Storage
    requires b in st.bets && |st.bets[b]| == 1
  {
    st.(claiming := true, bets := st.bets[b := [st.bets[b][0].(claimed := true)]])
  }

  lemma SettledTotals(st: Storage, b: Address)
    requires BetsOk(st) && b in st.bets && !Claimed(st, b)
    ensures BetsOk(Settled(st, b))
    ensures forall side :: Stakes(Settled(st, b).bets, side) == Stakes(st.bets, side)
    ensures Total(st.bettors, Unclaimed(Settled(st, b).bets))
         == Total(st.bettors, Unclaimed(st.bets)) - st.bets[b][0].amount
  {
    var after := Settled(st, b);
    forall side ensures Stakes(after.bets, side) == Stakes(st.bets, side) {
    }
    TotalUpdate(st.bettors, Unclaimed(st.bets), Unclaimed(after.bets), b);
  }

  lemma SettledPayments(w: World, p: Payment)
    requires BetsOk(w.st) && PaymentsOk(w)
    requires p.bettor in w.st.bets && !Claimed(w.st, p.bettor) && PaymentOk(Settled(w.st, p.bettor), p)
    ensures PaymentsOk(w.(st := Settled(w.st, p.bettor), payments := w.payments + [p]))
  {
    var after := w.(st := Settled(w.st, p.bettor), payments := w.payments + [p]);
    forall i | 0 <= i < |w.payments| ensures w.payments[i].bettor != p.bettor {
      assert w.payments[i] in w.payments && PaymentOk(w.st, w.payments[i]);
    }
    forall q | q in after.payments ensures PaymentOk(after.st, q) {
      if q in w.payments {
        assert PaymentOk(w.st, q) && q.bettor != p.bettor;
      }
    }
    forall b | Claimed(after.st, b) ensures exists q :: q in after.payments && q.bettor == b {
      if b == p.bettor {
        assert p in after.payments;
      } else {
        assert Claimed(w.st, b);
        var q :| q in w.payments && q.bettor == b;
        assert q in after.payments;
      }
    }
  }

  lemma SettledPools(st: Storage, b: Address)
    requires BetsOk(st) && PoolsOk(st) && b in st.bets && !Claimed(st, b)
    ensures PoolsOk(Settled(st, b))
  {
    SettledTotals(st, b);
    forall side ensures Pool(Settled(st, b).state, side) == Total(st.bettors, Stakes(Settled(st, b).bets, side)) {
      assert Pool(st.state, side) == Total(st.bettors, Stakes(st.bets, side));
    }
  }

  lemma SettledOracles(w: World, after: World)
    requires OraclesOk(w)
    requires after == w.(st := w.st.(bets := after.st.bets, claiming := true), payments := after.payments)
    ensures OraclesOk(after)
  {
    ReportsKept(w, after);
  }

  lemma SettledExtends(w: World, after: World, b: Address)
    requires BetsOk(w.st) && b in w.st.bets && w.payments <= after.payments
    requires after == w.(st := Settled(w.st, b), payments := after.payments)
    ensures Extends(w, after)
  {
  }

  /** Recording one correct payment keeps everything, and lowers the backing by its cost. */
  lemma PaymentGood(w: World, p: Payment)
    requires WorldOk(w)
    requires p.bettor in w.st.bets && !Claimed(w.st, p.bettor) && PaymentOk(Settled(w.st, p.bettor), p)
    ensures var after := w.(st := Settled(w.st, p.bettor), payments := w.payments + [p]);
      WorldOk(after) && Extends(w, after) && Backing(after) == Backing(w) - Cost(p)
  {
    var after := w.(st := Settled(w.st, p.bettor), payments := w.payments + [p]);
    SettledTotals(w.st, p.bettor);
    SettledPools(w.st, p.bettor);
    SettledPayments(w, p);
    OutflowAppend(w.payments, p);
    SettledOracles(w, after);
    SettledExtends(w, after, p.bettor);
  }

  /** With one record per bettor, the loops over a bettor's records look at that record alone. */
  lemma OneRecord(bets: seq<BetRecord>, side: Option<BetSide>)
    requires |bets| == 1
    ensures AnyPayable(bets, side) == Payable(bets[0], side)
    ensures PayableStake(bets, side) == if Payable(bets[0], side) then bets[0].amount else 0
    ensures Payable(bets[0], side) ==> MarkClaimed(bets, side) == [bets[0].(claimed := true)]
  {
    assert PayableStake(bets[..0], side) == 0;
  }

  /** A claim's checked arithmetic, when it succeeds, is the payout formula. */
  lemma QuoteExact(st: Storage, b: Address)
    requires BetsOk(st) && PoolsOk(st) && ValidConfig(st.state.config) && b in st.bets
    ensures FeeAndNet(st.state).Some? ==> FeeAndNet(st.state).value == (Fee(st.state), NetPool(st.state))
    ensures var stake := st.bets[b][0].amount; var pool := Pool(st.state, st.bets[b][0].side);
      Share(stake, NetPool(st.state), pool).Some? ==> Share(stake, NetPool(st.state), pool).value == Payout(st, b)
  {
    PoolsNonNegative(st);
    FeeBounds(st.state);
    StakeWithinPool(st, b);
    assert st.state.totalPool * st.state.config.feeBps >= 0;
    assert st.bets[b][0].amount * NetPool(st.state) >= 0;
  }

  lemma ClaimWinningsGood(w: World, env: Env, bettor: Address)
    requires WorldOk(w) && ClaimWinningsEffect(w, env, bettor).Ok?
    ensures GoodEffect(w, ClaimWinningsEffect(w, env, bettor).value)
    ensures !Claimed(w.st, bettor) && bettor in w.st.bets
    ensures ClaimWinningsEffect(w, env, bettor).value.world
         == w.(st := Settled(w.st, bettor),
               payments := w.payments + [Winnings(bettor, Payout(w.st, bettor), Fee(w.st.state))])
  {
    var e := ClaimWinningsEffect(w, env, bettor).value;
    var winner := WinningSide(w.st.state.outcome);
    assert bettor in w.st.bets;
    OneRecord(w.st.bets[bettor], winner);
    QuoteExact(w.st, bettor);
    PayoutBounds(w.st, bettor);
    PoolsNonNegative(w.st);
    FeeBounds(w.st.state);
    var p := Winnings(bettor, Payout(w.st, bettor), Fee(w.st.state));
    assert e.world == w.(st := Settled(w.st, bettor), payments := w.payments + [p]);
    PaymentGood(w, p);
    DuePositiveOut(w.st.treasury, p.fee, bettor, p.amount);
  }

  lemma DuePositiveOut(first: Address, a: int, second: Address, b: int)
    requires a >= 0 && b >= 0
    ensures Due(PositiveOut(first, a) + PositiveOut(second, b)) == -(a + b)
    ensures Due(PositiveOut(second, b)) == -b
  {
    var tail := PositiveOut(second, b);
    if a > 0 {
      assert (PositiveOut(first, a) + tail)[1..] == tail;
    } else {
      assert PositiveOut(first, a) + tail == tail;
    }
  }

  lemma ClaimRefundGood(w: World, env: Env, bettor: Address)
    requires WorldOk(w) && ClaimRefundEffect(w, env, bettor).Ok?
    ensures GoodEffect(w, ClaimRefundEffect(w, env, bettor).value)
    ensures !Claimed(w.st, bettor) && bettor in w.st.bets
    ensures ClaimRefundEffect(w, env, bettor).value.world
         == w.(st := Settled(w.st, bettor), payments := w.payments + [Refund(bettor, w.st.bets[bettor][0].amount)])
  {
    var e := ClaimRefundEffect(w, env, bettor).value;
    assert bettor in w.st.bets;
    OneRecord(w.st.bets[bettor], None);
    var p := Refund(bettor, w.st.bets[bettor][0].amount);
    assert e.world == w.(st := Settled(w.st, bettor), payments := w.payments + [p]);
    PaymentGood(w, p);
    DuePositiveOut(bettor, 0, bettor, p.amount);
  }

  /** How a call other than `resolve_market` may move the status and outcome. */
  ghost predicate StatusMove(a: MarketState, b: MarketState) {
    && b == a.(status := b.status, outcome := b.outcome, resolvedAt := b.resolvedAt)
    && ( || (b.status == a.status && b.outcome == a.outcome)
         || (a.status == Open && b.status == Locked && b.outcome == a.outcome)
         || (a.status in {Open, Locked} && b.status == Cancelled && b.outcome == a.outcome)
         || (a.status == Resolved && b.status == Disputed && b.outcome == a.outcome)
         || (a.status == Disputed && b.status == Resolved && b.outcome.Some?))
  }

  lemma StatusMoveMoney(w: World, later: World)
    requires BetsOk(w.st) && PoolsOk(w.st) && PaymentsOk(w) && RefundableOk(w)
    requires later == w.(st := w.st.(state := later.st.state, paused := later.st.paused))
    requires StatusMove(w.st.state, later.st.state)
    requires w.st.state.status in {Open, Locked} ==> w.payments == []
    ensures BetsOk(later.st) && PoolsOk(later.st) && PaymentsOk(later) && RefundableOk(later)
  {
    forall side ensures Pool(later.st.state, side) == Total(later.st.bettors, Stakes(later.st.bets, side)) {
      assert Pool(w.st.state, side) == Total(w.st.bettors, Stakes(w.st.bets, side));
    }
    forall p | p in w.payments ensures PaymentOk(later.st, p) {
      assert PaymentOk(w.st, p);
    }
    assert forall b :: Claimed(later.st, b) <==> Claimed(w.st, b);
  }

  lemma StatusMoveGood(w: World, later: World)
    requires WorldOk(w)
    requires later == w.(st := w.st.(state := later.st.state, paused := later.st.paused))
    requires StatusMove(w.st.state, later.st.state)
    ensures GoodEffect(w, Effect(later, [], false))
  {
    if w.st.state.status in {Open, Locked} {
      NoPaymentsYet(w);
    }
    StatusMoveMoney(w, later);
    ReportsKept(w, later);
    assert OraclesOk(later);
    assert forall side :: Pool(later.st.state, side) == Pool(w.st.state, side);
    assert forall b :: Claimed(later.st, b) <==> Claimed(w.st, b);
  }

  /** The oracles' side of a report: stored with the others, or deciding together with one of them. */
  lemma ReportKeepsOracles(w: World, env: Env, oracle: Address, report: Report)
    requires WorldOk(w) && ResolveMarketEffect(w, env, oracle, report).Ok?
    ensures OraclesOk(ResolveMarketEffect(w, env, oracle, report).value.world)
  {
    var after := ResolveMarketEffect(w, env, oracle, report).value.world;
    ReportsKept(w, after);
    assert ReportEntry(oracle, report.outcome, env.whitelist) in after.reports;
    assert Reported(after, oracle, report.outcome);
    var agreeing := Agreeing(w.st.pending, oracle, report.outcome);
    if agreeing != {} {
      var first := OneOf(agreeing);
      assert Reported(w, first, w.st.pending[first]);
      assert DecisionOk(after, Decision(first, oracle, report.outcome));
    } else {
      forall o | o in w.st.pending ensures w.st.pending[o] != report.outcome {
        assert o !in agreeing;
      }
    }
  }

  /** What a report leaves alone. */
  ghost predicate ReportMove(w: World, later: World) {
    && w.st.state.status == Locked && later.st.state.status in {Locked, Resolved}
    && later.st.state == w.st.state.(
         status := later.st.state.status, outcome := later.st.state.outcome, resolvedAt := later.st.state.resolvedAt)
    && later.st == w.st.(state := later.st.state, pending := later.st.pending)
    && later == w.(st := later.st, reports := later.reports, decisions := later.decisions)
    && w.reports <= later.reports && w.decisions <= later.decisions
  }

  lemma ReportMoves(w: World, env: Env, oracle: Address, report: Report)
    requires ResolveMarketEffect(w, env, oracle, report).Ok?
    ensures var e := ResolveMarketEffect(w, env, oracle, report).value;
      ReportMove(w, e.world) && e.transfers == [] && !e.guarded
  {
  }

  lemma ReportMoveMoney(w: World, later: World)
    requires BetsOk(w.st) && PoolsOk(w.st) && RefundableOk(w) && ReportMove(w, later)
    requires w.payments == [] && forall b :: !Claimed(w.st, b)
    ensures BetsOk(later.st) && PoolsOk(later.st) && PaymentsOk(later) && RefundableOk(later)
  {
    forall side ensures Pool(later.st.state, side) == Total(later.st.bettors, Stakes(later.st.bets, side)) {
      assert Pool(w.st.state, side) == Total(w.st.bettors, Stakes(w.st.bets, side));
    }
    assert forall b :: Claimed(later.st, b) <==> Claimed(w.st, b);
  }

  lemma ReportMoveExtends(w: World, later: World)
    requires BetsOk(w.st) && ReportMove(w, later)
    ensures Extends(w, later) && Backing(later) == Backing(w)
  {
    assert forall side :: Pool(later.st.state, side) == Pool(w.st.state, side);
    assert forall b :: Claimed(later.st, b) <==> Claimed(w.st, b);
  }

  lemma ResolveMarketGood(w: World, env: Env, oracle: Address, report: Report)
    requires WorldOk(w) && ResolveMarketEffect(w, env, oracle, report).Ok?
    ensures GoodEffect(w, ResolveMarketEffect(w, env, oracle, report).value)
  {
    var later := ResolveMarketEffect(w, env, oracle, report).value.world;
    NoPaymentsYet(w);
    ReportMoves(w, env, oracle, report);
    ReportKeepsOracles(w, env, oracle, report);
    ReportMoveMoney(w, later);
    ReportMoveExtends(w, later);
  }

  /** Whatever the call, its writes are good. */
  lemma EffectsGood(w: World, env: Env, op: Op)
    requires WorldOk(w) && Effects(w, env, op).Ok?
    ensures GoodEffect(w, Effects(w, env, op).value)
  {
    match op
    case PlaceBet(bettor, side, amount) => PlaceBetGood(w, env, bettor, side, amount);
    case ResolveMarket(oracle, report) => ResolveMarketGood(w, env, oracle, report);
    case ClaimWinnings(bettor) => ClaimWinningsGood(w, env, bettor);
    case ClaimRefund(bettor) => ClaimRefundGood(w, env, bettor);
    case _ => StatusMoveGood(w, Effects(w, env, op).value.world);
  }

  /** Reports and decisions stay good as long as none is dropped and the pending map is unchanged. */
  lemma ReportsKept(w: World, later: World)
    requires w.reports <= later.reports
    ensures forall o, x :: Reported(w, o, x) ==> Reported(later, o, x)
    ensures forall d :: DecisionOk(w, d) ==> DecisionOk(later, d)
  {
  }
}
