/** Who gets how much: shares of the net pool, refunds in any order, and when all winners can be paid. */
module MarketPayouts {
  import opened Wrappers
  import opened Int128
  import opened Totals
  import opened Division
  import opened Contracts
  import opened MarketSpec
  import opened MarketInvariant
  import opened MarketSteps
  import opened MarketMachine

  // Floors of proportional shares

  lemma {:induction false} SharesOfNet(keys: seq<Address>, stakes: map<Address, int>, shares: map<Address, int>,
                                       net: int, pool: int)
    requires pool > 0
    requires forall k :: k in keys ==> Weight(shares, k) == Weight(stakes, k) * net / pool
    ensures pool * Total(keys, shares) <= net * Total(keys, stakes)
    ensures keys != [] ==> net * Total(keys, stakes) < pool * (Total(keys, shares) + |keys|)
  {
    if keys != [] {
      var rest := keys[1..];
      SharesOfNet(rest, stakes, shares, net, pool);
      var stake, share := Weight(stakes, keys[0]), Weight(shares, keys[0]);
      FloorBounds(stake * net, pool);
      ShareStep(pool, net, stake, share, Total(rest, stakes), Total(rest, shares), |rest|);
    }
  }

  lemma ShareStep(pool: int, net: int, stake: int, share: int, t: int, s: int, k: nat)
    requires pool * s <= net * t
    requires pool * share <= stake * net < pool * share + pool
    requires if k == 0 then t == 0 && s == 0 else net * t < pool * (s + k)
    ensures pool * (share + s) <= net * (stake + t) < pool * (share + s + (k + 1))
  {
    assert pool * (share + s) == pool * share + pool * s;
    assert net * (stake + t) == stake * net + net * t;
    assert pool * (share + s + (k + 1)) == pool * share + pool + pool * (s + k);
    if k == 0 {
      assert net * t == 0 && pool * (s + k) == 0;
    }
  }

  /** The payout of each bettor on a side. */
  ghost function Payouts(st: Storage, side: BetSide): map<Address, int> {
    map b | b in st.bets && |st.bets[b]| == 1 && st.bets[b][0].side == side :: Payout(st, b)
  }

  ghost predicate OnSide(st: Storage, side: BetSide, b: Address) {
    b in st.bets && |st.bets[b]| == 1 && st.bets[b][0].side == side
  }

  /** Some distinct bettors of one side, in any order. */
  ghost predicate Winners(st: Storage, side: BetSide, order: seq<Address>) {
    Distinct(order) && forall b :: b in order ==> OnSide(st, side, b)
  }

  ghost predicate AllWinners(st: Storage, side: BetSide, order: seq<Address>) {
    Distinct(order) && forall b :: b in order <==> OnSide(st, side, b)
  }

  lemma WinnersStakes(st: Storage, side: BetSide, order: seq<Address>)
    requires BetsOk(st) && PoolsOk(st) && ValidConfig(st.state.config) && Winners(st, side, order)
    ensures Total(order, Stakes(st.bets, side)) <= Pool(st.state, side)
    ensures AllWinners(st, side, order) ==> Total(order, Stakes(st.bets, side)) == Pool(st.state, side)
  {
    var m := Stakes(st.bets, side);
    StakesNonNegative(st, side);
    TotalPart(order, st.bettors, m);
    if AllWinners(st, side, order) {
      forall k | k in st.bettors && Weight(m, k) != 0 ensures k in order {
        assert OnSide(st, side, k);
      }
      TotalSupport(order, st.bettors, m);
    }
  }

  /** Keys of weight zero do not matter to a total. */
  lemma {:induction false} TotalSupport(part: seq<Address>, whole: seq<Address>, m: map<Address, int>)
    requires Distinct(part) && Distinct(whole)
    requires forall k :: k in part ==> k in whole
    requires forall k :: k in whole && Weight(m, k) != 0 ==> k in part
    ensures Total(part, m) == Total(whole, m)
  {
    if part == [] {
      TotalCongruent(whole, m, map[]);
      TotalOfNothing(whole);
    } else {
      assert part[0] in whole;
      var i :| 0 <= i < |whole| && whole[i] == part[0];
      var rest := whole[..i] + whole[i + 1..];
      forall k | k in part[1..] ensures k in rest {
        assert k in whole && k != part[0];
      }
      TotalSupport(part[1..], rest, m);
      TotalRemove(whole, i, m);
    }
  }

  lemma {:induction false} TotalOfNothing(keys: seq<Address>)
    ensures Total(keys, map[]) == 0
  {
    if keys != [] {
      TotalOfNothing(keys[1..]);
    }
  }

  /** Floors of shares of `net`: together at most all of it, and short of it by less than one each. */
  lemma ShareTotals(keys: seq<Address>, stakes: map<Address, int>, shares: map<Address, int>, net: int, pool: int)
    requires pool > 0 && net >= 0 && Total(keys, stakes) <= pool
    requires forall k :: k in keys ==>
      Weight(shares, k) == Weight(stakes, k) * net / pool && Weight(shares, k) >= 0
    ensures 0 <= Total(keys, shares) <= net
    ensures Total(keys, stakes) == pool && keys != [] ==> net < Total(keys, shares) + |keys|
  {
    SharesOfNet(keys, stakes, shares, net, pool);
    TotalNonNegative(keys, shares);
    if keys != [] {
      SharesBounds(pool, net, Total(keys, stakes), Total(keys, shares), |keys|);
    }
  }

  /** Each winner's payout is the floor of its share; from an empty pool it is nothing. */
  lemma PayoutShares(st: Storage, side: BetSide, order: seq<Address>)
    requires BetsOk(st) && PoolsOk(st) && ValidConfig(st.state.config) && Winners(st, side, order)
    ensures Pool(st.state, side) > 0 ==> forall k :: k in order ==>
      && Weight(Payouts(st, side), k) == Weight(Stakes(st.bets, side), k) * NetPool(st.state) / Pool(st.state, side)
      && Weight(Payouts(st, side), k) >= 0
    ensures Pool(st.state, side) <= 0 ==> forall k :: k in order ==> Weight(Payouts(st, side), k) == 0
  {
    forall k | k in order
      ensures Weight(Payouts(st, side), k) == Payout(st, k) >= 0 && OnSide(st, side, k)
    {
      assert OnSide(st, side, k);
      PayoutBounds(st, k);
    }
  }

  lemma PayoutsWithinNet(st: Storage, side: BetSide, order: seq<Address>)
    requires BetsOk(st) && PoolsOk(st) && ValidConfig(st.state.config) && Winners(st, side, order)
    requires Pool(st.state, side) > 0
    ensures 0 <= Total(order, Payouts(st, side)) <= NetPool(st.state)
    ensures AllWinners(st, side, order) && order != [] ==>
      NetPool(st.state) - |order| < Total(order, Payouts(st, side))
  {
    PoolsNonNegative(st);
    FeeBounds(st.state);
    PayoutShares(st, side, order);
    WinnersStakes(st, side, order);
    ShareTotals(order, Stakes(st.bets, side), Payouts(st, side), NetPool(st.state), Pool(st.state, side));
  }

  lemma NothingFromEmptyPool(st: Storage, side: BetSide, order: seq<Address>)
    requires BetsOk(st) && PoolsOk(st) && ValidConfig(st.state.config) && Winners(st, side, order)
    requires Pool(st.state, side) <= 0
    ensures Total(order, Payouts(st, side)) == 0
  {
    PayoutShares(st, side, order);
    TotalCongruent(order, Payouts(st, side), map[]);
    TotalOfNothing(order);
  }

  /** A positive minimum bet leaves no side empty that anyone backed. */
  lemma BackedPool(st: Storage, side: BetSide, b: Address)
    requires BetsOk(st) && PoolsOk(st) && ValidConfig(st.state.config) && st.state.config.minBet > 0
    requires OnSide(st, side, b)
    ensures Pool(st.state, side) > 0
  {
    StakeWithinPool(st, b);
  }

  /**
   * For a fixed winning side and any order, any set of winners is paid at most the net pool. From a
   * pool that is not empty all of them together leave less than one unit each unpaid, and a sole winner
   * is paid all of it. Only winners of zero stakes alone, which need a negative minimum bet, get nothing.
   */
  lemma PayoutsShareNetPool(st: Storage, side: BetSide, order: seq<Address>)
    requires BetsOk(st) && PoolsOk(st) && ValidConfig(st.state.config) && Winners(st, side, order)
    ensures 0 <= Total(order, Payouts(st, side)) <= NetPool(st.state)
    ensures st.state.config.minBet > 0 && order != [] ==> Pool(st.state, side) > 0
    ensures AllWinners(st, side, order) && order != [] && Pool(st.state, side) > 0 ==>
      NetPool(st.state) - |order| < Total(order, Payouts(st, side))
    ensures AllWinners(st, side, order) && |order| == 1 && Pool(st.state, side) > 0 ==>
      OnSide(st, side, order[0]) && Fee(st.state) + Payout(st, order[0]) == st.state.totalPool
    ensures Pool(st.state, side) <= 0 ==> Total(order, Payouts(st, side)) == 0
  {
    if order != [] {
      assert OnSide(st, side, order[0]);
      if st.state.config.minBet > 0 {
        BackedPool(st, side, order[0]);
      }
      if |order| == 1 {
        SolePayout(st, side, order);
      }
    }
    if Pool(st.state, side) > 0 {
      PayoutsWithinNet(st, side, order);
    } else {
      PoolsNonNegative(st);
      FeeBounds(st.state);
      NothingFromEmptyPool(st, side, order);
    }
  }

  lemma SolePayout(st: Storage, side: BetSide, order: seq<Address>)
    requires |order| == 1 && OnSide(st, side, order[0])
    ensures Total(order, Payouts(st, side)) == Payout(st, order[0])
  {
    assert order[1..] == [];
  }

  lemma SharesBounds(pool: int, net: int, t: int, s: int, n: nat)
    requires pool > 0 && 0 <= net && t <= pool && pool * s <= net * t < pool * (s + n)
    ensures s <= net
    ensures t == pool ==> net < s + n
  {
    MulLeft(net, t, pool);
    CancelFactor(pool, s, net);
    if t == pool {
      CancelFactorStrict(pool, net, s + n);
    }
  }

  lemma CancelFactor(d: int, x: int, y: int)
    requires d > 0 && d * x <= y * d
    ensures x <= y
  {
    MulGap(d, y, x);
  }

  lemma CancelFactorStrict(d: int, x: int, y: int)
    requires d > 0 && x * d < d * y
    ensures x < y
  {
    if y <= x {
      MulLeft(d, y, x);
      assert false;
    }
  }

  /** While the total pool is below 2^63 no checked operation of a claim overflows. */
  lemma NoOverflowBelow63Bits(st: Storage, b: Address)
    requires BetsOk(st) && PoolsOk(st) && ValidConfig(st.state.config) && b in st.bets
    requires st.state.totalPool < 0x8000_0000_0000_0000
    ensures FeeAndNet(st.state) == Some((Fee(st.state), NetPool(st.state)))
    ensures Share(st.bets[b][0].amount, NetPool(st.state), Pool(st.state, st.bets[b][0].side)) == Some(Payout(st, b))
  {
    PoolsNonNegative(st);
    FeeBounds(st.state);
    StakeWithinPool(st, b);
    QuoteExact(st, b);
    var total, stake, net := st.state.totalPool, st.bets[b][0].amount, NetPool(st.state);
    MulLeft(total, st.state.config.feeBps, 1000);
    assert 0 <= total * st.state.config.feeBps <= total * 1000;
    MulLeft(stake, net, 0x8000_0000_0000_0000);
    MulLeft(stake, 0, net);
    assert 0 <= stake * net <= stake * 0x8000_0000_0000_0000;
  }

  // Calls without callbacks

  /** The balance after making the transfers in order, or nothing when the contract cannot pay one. */
  function PayAll(balance: int, transfers: seq<Transfer>): Option<int>
    decreases |transfers|
  {
    if transfers == [] then Some(balance)
    else match transfers[0]
      case In(_, amount) => PayAll(balance + amount, transfers[1..])
      case Out(_, amount) => if balance < amount then None else PayAll(balance - amount, transfers[1..])
  }

  /** One call from outside, run to its end; `funded` says whether a bettor can pay what is taken in. */
  function Call(w: World, env: Env, op: Op, funded: bool): (World, Option<ContractError>) {
    var r := Effects(w, env, op);
    if r.Err? then (w, Some(r.error))
    else
      var balance := PayAll(r.value.world.balance, r.value.transfers);
      if balance.None? || (op.PlaceBet? && !funded) then (w, Some(Trap))
      else
        var after := r.value.world.(balance := balance.value);
        (if r.value.guarded then after.(st := after.st.(claiming := false)) else after, None)
  }

  lemma {:induction false} MovesPayAll(m: Machine)
    requires m.stack != []
    ensures var todo := m.stack[0].todo; var paid := PayAll(m.w.balance, todo);
      paid.Some? ==>
        Run(m, seq(|todo|, i => Move))
          == Machine(m.w.(balance := paid.value), [m.stack[0].(todo := [])] + m.stack[1..])
    decreases |m.stack[0].todo|
  {
    var todo := m.stack[0].todo;
    var moves := seq(|todo|, i => Move);
    if todo == [] {
      assert m.stack == [m.stack[0].(todo := [])] + m.stack[1..];
    } else if PayAll(m.w.balance, todo).Some? {
      var n := Step(m, Move);
      OneMovePays(m);
      MovesPayAll(n);
      var rest := seq(|todo| - 1, i => Move);
      assert moves == [Move] + rest;
      RunFirst(m, Move, rest);
    }
  }

  lemma OneMovePays(m: Machine)
    requires m.stack != [] && m.stack[0].todo != [] && PayAll(m.w.balance, m.stack[0].todo).Some?
    ensures var n, f := Step(m, Move), m.stack[0];
      && n.w == m.w.(balance := n.w.balance) && |n.stack| == |m.stack|
      && n.stack[0] == f.(todo := f.todo[1..]) && n.stack[1..] == m.stack[1..]
      && PayAll(n.w.balance, f.todo[1..]) == PayAll(m.w.balance, f.todo)
  {
  }

  lemma {:induction false} RunFirst(m: Machine, e: Event, events: seq<Event>)
    ensures Run(m, [e] + events) == Run(Step(m, e), events)
  {
    if events == [] {
      assert [e] + events == [e];
      assert [e][..0] == [];
    } else {
      assert ([e] + events)[..|events|] == [e] + events[..|events| - 1];
      RunFirst(m, e, events[..|events| - 1]);
    }
  }

  /** Every outside call is a run of the machine, so all that holds of runs holds of such calls. */
  lemma CallIsRun(w: World, env: Env, op: Op, funded: bool) returns (events: seq<Event>)
    ensures Run(Machine(w, []), events) == Machine(Call(w, env, op, funded).0, [])
  {
    var m := Machine(w, []);
    if Call(w, env, op, funded).1.Some? {
      return [];
    }
    var begin := Begin(op, env);
    var n := Step(m, begin);
    MovesPayAll(n);
    var moves := seq(|n.stack[0].todo|, i => Move);
    RunFirst(m, begin, moves);
    events := [begin] + moves + [Finish];
    assert events[..|events| - 1] == [begin] + moves;
    assert n.stack[1..] == [];
  }

  /** A market between calls: no frame is open and the balance is exactly the backing. */
  ghost predicate BetweenCalls(w: World) {
    WorldOk(w) && !w.st.claiming && w.balance == Backing(w) && w.balance >= 0
  }

  lemma {:induction false} PayAllNonNegative(balance: int, transfers: seq<Transfer>)
    requires balance >= 0 && forall t :: t in transfers && t.In? ==> t.amount >= 0
    ensures PayAll(balance, transfers).Some? ==> PayAll(balance, transfers).value >= 0
    decreases |transfers|
  {
    if transfers != [] {
      assert transfers[0] in transfers;
      match transfers[0]
      case In(_, amount) => PayAllNonNegative(balance + amount, transfers[1..]);
      case Out(_, amount) => if balance >= amount { PayAllNonNegative(balance - amount, transfers[1..]); }
    }
  }

  lemma CallKeepsSettled(w: World, env: Env, op: Op, funded: bool)
    requires BetweenCalls(w)
    ensures BetweenCalls(Call(w, env, op, funded).0)
    ensures Extends(w, Call(w, env, op, funded).0)
  {
    CallExtends(w, env, op, funded);
    var events := CallIsRun(w, env, op, funded);
    assert MachineOk(Machine(w, []));
    RunOk(Machine(w, []), events);
    assert MachineOk(Machine(Call(w, env, op, funded).0, []));
  }

  lemma CallExtends(w: World, env: Env, op: Op, funded: bool)
    requires BetweenCalls(w)
    ensures Extends(w, Call(w, env, op, funded).0) && Call(w, env, op, funded).0.balance >= 0
  {
    var r := Effects(w, env, op);
    if r.Ok? {
      EffectsGood(w, env, op);
      BetsPayIn(w, env, op);
      PayAllNonNegative(w.balance, r.value.transfers);
      FinishedExtends(w, r.value, w.balance);
      if PayAll(w.balance, r.value.transfers).Some? {
        FinishedExtends(w, r.value, PayAll(w.balance, r.value.transfers).value);
      }
    }
  }

  lemma BetsPayIn(w: World, env: Env, op: Op)
    requires WorldOk(w) && Effects(w, env, op).Ok?
    ensures forall t :: t in Effects(w, env, op).value.transfers && t.In? ==> t.amount >= 0
  {
    match op
    case ClaimWinnings(_) =>
    case ClaimRefund(_) =>
    case _ =>
  }

  lemma FinishedExtends(w: World, e: Effect, balance: int)
    requires GoodEffect(w, e)
    ensures var after := e.world.(balance := balance);
      Extends(w, after) && Extends(w, after.(st := after.st.(claiming := false)))
  {
    var after := e.world.(balance := balance);
    WorldOkFrame(e.world, balance, after.st.claiming);
    WorldOkFrame(e.world, balance, false);
    assert after == e.world.(balance := balance, st := e.world.st.(claiming := after.st.claiming));
    ExtendsTransitive(w, e.world, after);
    ExtendsTransitive(w, e.world, after.(st := after.st.(claiming := false)));
  }

  // Refunds

  /** Refunding in this order succeeds at every step, pays each exact stake and leaves nothing. */
  ghost predicate RefundsAll(w: World, env: Env, order: seq<Address>)
    decreases |order|
  {
    if order == [] then w.balance == 0
    else
      var b := order[0];
      var (after, error) := Call(w, env, ClaimRefund(b), true);
      && error.None? && b in w.st.bets && |w.st.bets[b]| == 1
      && after.payments == w.payments + [Refund(b, w.st.bets[b][0].amount)]
      && after.balance == w.balance - w.st.bets[b][0].amount
      && RefundsAll(after, env, order[1..])
  }

  lemma RefundStep(w: World, env: Env, b: Address)
    requires BetweenCalls(w) && w.st.state.status == Cancelled && !w.st.paused
    requires Authorized(env, b) && b in w.st.bets && !Claimed(w.st, b)
    ensures var stake := w.st.bets[b][0].amount;
      Call(w, env, ClaimRefund(b), true)
        == (w.(st := Settled(w.st, b).(claiming := false), balance := w.balance - stake,
               payments := w.payments + [Refund(b, stake)]), None)
  {
    RefundEffect(w, env, b);
    RefundCovered(w, b);
    PayOne(w.balance, b, w.st.bets[b][0].amount);
  }

  lemma RefundEffect(w: World, env: Env, b: Address)
    requires BetweenCalls(w) && w.st.state.status == Cancelled && !w.st.paused
    requires Authorized(env, b) && b in w.st.bets && !Claimed(w.st, b)
    ensures var stake := w.st.bets[b][0].amount;
      Effects(w, env, ClaimRefund(b)) == Ok(Effect(
        w.(st := Settled(w.st, b), payments := w.payments + [Refund(b, stake)]), PositiveOut(b, stake), true))
  {
    OneRecord(w.st.bets[b], None);
    assert ClaimRefundEffect(w, env, b).Ok?;
    ClaimRefundGood(w, env, b);
  }

  lemma RefundCovered(w: World, b: Address)
    requires BetweenCalls(w) && w.st.state.status == Cancelled && b in w.st.bets && !Claimed(w.st, b)
    ensures 0 <= w.st.bets[b][0].amount <= w.balance
  {
    var unclaimed := Unclaimed(w.st.bets);
    assert forall k :: k in w.st.bettors ==> Weight(unclaimed, k) >= 0;
    TotalNonNegative(w.st.bettors, unclaimed);
    assert Weight(unclaimed, b) == w.st.bets[b][0].amount;
  }

  lemma PayOne(balance: int, b: Address, amount: int)
    requires balance >= 0 && amount >= 0
    ensures PayAll(balance, PositiveOut(b, amount)) == if balance < amount then None else Some(balance - amount)
  {
    assert amount > 0 ==> PositiveOut(b, amount)[1..] == [];
  }

  /** The bettors still to be refunded, each once and in any order, each signing for itself. */
  ghost predicate ToRefund(w: World, env: Env, order: seq<Address>) {
    && Distinct(order)
    && (forall b :: b in order <==> b in w.st.bets && !Claimed(w.st, b))
    && (forall b :: b in order ==> Authorized(env, b))
  }

  lemma {:induction false} RefundsInAnyOrder(w: World, env: Env, order: seq<Address>)
    requires BetweenCalls(w) && w.st.state.status == Cancelled && !w.st.paused && ToRefund(w, env, order)
    ensures RefundsAll(w, env, order)
    decreases |order|
  {
    if order == [] {
      NothingLeft(w);
    } else {
      var b := order[0];
      assert b in order;
      RefundStep(w, env, b);
      CallKeepsSettled(w, env, ClaimRefund(b), true);
      var after := Call(w, env, ClaimRefund(b), true).0;
      ToRefundAfter(w, env, after, order);
      RefundsInAnyOrder(after, env, order[1..]);
    }
  }

  lemma NothingLeft(w: World)
    requires BetweenCalls(w) && w.st.state.status == Cancelled && forall b :: b in w.st.bets ==> Claimed(w.st, b)
    ensures w.balance == 0
  {
    TotalCongruent(w.st.bettors, Unclaimed(w.st.bets), map[]);
    TotalOfNothing(w.st.bettors);
  }

  lemma ToRefundAfter(w: World, env: Env, after: World, order: seq<Address>)
    requires order != [] && ToRefund(w, env, order) && |w.st.bets[order[0]]| == 1
    requires after.st.bets == Settled(w.st, order[0]).bets
    ensures ToRefund(after, env, order[1..])
  {
    var b := order[0];
    forall x ensures x in order[1..] <==> x in after.st.bets && !Claimed(after.st, x) {
      assert x in order <==> x == b || x in order[1..];
      if x == b { assert Claimed(after.st, b) && b !in order[1..]; }
    }
    assert forall x :: x in order[1..] ==> x in order;
  }

  // Winnings

  /** Claiming in this order succeeds at every step. */
  ghost predicate ClaimsAll(w: World, env: Env, order: seq<Address>)
    decreases |order|
  {
    order != [] ==>
      var (after, error) := Call(w, env, ClaimWinnings(order[0]), true);
      error.None? && ClaimsAll(after, env, order[1..])
  }

  ghost predicate ReadyToClaim(w: World, env: Env, side: BetSide, order: seq<Address>) {
    && BetweenCalls(w) && w.st.state.status == Resolved && !w.st.paused
    && WinningSide(w.st.state.outcome) == Some(side)
    && w.st.state.totalPool < 0x8000_0000_0000_0000
    && Winners(w.st, side, order)
    && (forall b :: b in order ==> !Claimed(w.st, b) && Authorized(env, b))
  }

  /** One claim succeeds exactly when the contract holds the fee and the payout. */
  lemma ClaimCall(w: World, env: Env, side: BetSide, b: Address)
    requires ReadyToClaim(w, env, side, [b])
    ensures OnSide(w.st, side, b)
    ensures var cost := Fee(w.st.state) + Payout(w.st, b);
      Call(w, env, ClaimWinnings(b), true) ==
        if w.balance < cost then (w, Some(Trap))
        else (w.(st := Settled(w.st, b).(claiming := false), balance := w.balance - cost,
                 payments := w.payments + [Winnings(b, Payout(w.st, b), Fee(w.st.state))]), None)
  {
    assert b in [b] && OnSide(w.st, side, b);
    ClaimPasses(w, env, side, b);
    PayoutBounds(w.st, b);
    PoolsNonNegative(w.st);
    FeeBounds(w.st.state);
    PayFeeThenPayout(w.balance, w.st.treasury, Fee(w.st.state), b, Payout(w.st, b));
  }

  /** The claim of a winner who is ready to claim passes all checks. */
  lemma ClaimPasses(w: World, env: Env, side: BetSide, b: Address)
    requires ReadyToClaim(w, env, side, [b]) && OnSide(w.st, side, b)
    ensures ClaimWinningsEffect(w, env, b)
      == Ok(Effect(w.(st := Settled(w.st, b),
                      payments := w.payments + [Winnings(b, Payout(w.st, b), Fee(w.st.state))]),
                   PositiveOut(w.st.treasury, Fee(w.st.state)) + PositiveOut(b, Payout(w.st, b)), true))
  {
    assert b in [b];
    OneRecord(w.st.bets[b], Some(side));
    NoOverflowBelow63Bits(w.st, b);
    assert ClaimWinningsEffect(w, env, b).Ok?;
    ClaimWinningsGood(w, env, b);
  }

  lemma PayFeeThenPayout(balance: int, treasury: Address, fee: int, b: Address, payout: int)
    requires fee >= 0 && payout >= 0 && balance >= 0
    ensures PayAll(balance, PositiveOut(treasury, fee) + PositiveOut(b, payout))
         == if balance < fee + payout then None else Some(balance - (fee + payout))
  {
    var tail := PositiveOut(b, payout);
    if balance >= fee {
      PayOne(balance - fee, b, payout);
    }
    if fee > 0 {
      assert (PositiveOut(treasury, fee) + tail)[0] == Out(treasury, fee);
      assert (PositiveOut(treasury, fee) + tail)[1..] == tail;
    } else {
      assert PositiveOut(treasury, fee) + tail == tail;
    }
  }

  /** The outcome and the side that bear the same name; no side bears that of a fight without contest. */
  predicate SameName(outcome: Outcome, side: BetSide) {
    || (outcome.FighterA? && side.FighterA?)
    || (outcome.FighterB? && side.FighterB?)
    || (outcome.Draw? && side.Draw?)
  }

  predicate Won(st: Storage, b: Address) {
    && b in st.bets && |st.bets[b]| == 1
    && st.state.outcome.Some? && SameName(st.state.outcome.value, st.bets[b][0].side)
  }

  lemma WonIff(st: Storage, b: Address)
    requires BetsOk(st) && b in st.bets
    ensures Won(st, b) <==> WinningSide(st.state.outcome) == Some(st.bets[b][0].side)
  {
  }

  /**
   * Winnings are paid exactly to a bettor on the side that bears the outcome's name, once, while the
   * contract can pay.
   */
  lemma ClaimPaysIff(w: World, env: Env, b: Address)
    requires BetweenCalls(w) && w.st.state.totalPool < 0x8000_0000_0000_0000
    ensures Call(w, env, ClaimWinnings(b), true).1.None? <==>
      && b in env.signers && b != SELF && !w.st.paused && w.st.state.status == Resolved
      && Won(w.st, b) && !Claimed(w.st, b) && w.balance >= Fee(w.st.state) + Payout(w.st, b)
  {
    if b in w.st.bets {
      WonIff(w.st, b);
    }
    if b in w.st.bets {
      OneRecord(w.st.bets[b], WinningSide(w.st.state.outcome));
      if Authorized(env, b) && !w.st.paused && w.st.state.status == Resolved && !Claimed(w.st, b)
         && WinningSide(w.st.state.outcome) == Some(w.st.bets[b][0].side) {
        ClaimCall(w, env, w.st.bets[b][0].side, b);
      }
    }
  }

  lemma ClaimKeepsReady(w: World, env: Env, side: BetSide, order: seq<Address>)
    requires ReadyToClaim(w, env, side, order) && order != []
    requires Call(w, env, ClaimWinnings(order[0]), true).1.None?
    ensures var after := Call(w, env, ClaimWinnings(order[0]), true).0;
      && OnSide(w.st, side, order[0])
      && ReadyToClaim(after, env, side, order[1..])
      && after.balance == w.balance - Fee(w.st.state) - Payout(w.st, order[0])
      && Fee(after.st.state) == Fee(w.st.state)
      && Payouts(after.st, side) == Payouts(w.st, side)
  {
    var b := order[0];
    assert b in order && OnSide(w.st, side, b);
    ClaimCall(w, env, side, b);
    var after := Call(w, env, ClaimWinnings(b), true).0;
    CallKeepsSettled(w, env, ClaimWinnings(b), true);
    StillWinners(w.st, after.st, side, order);
  }

  lemma StillWinners(st: Storage, after: Storage, side: BetSide, order: seq<Address>)
    requires order != [] && Winners(st, side, order) && OnSide(st, side, order[0])
    requires after.bets == Settled(st, order[0]).bets && after.state == st.state
    ensures Winners(after, side, order[1..])
    ensures forall x :: x in order[1..] && !Claimed(st, x) ==> !Claimed(after, x)
    ensures Payouts(after, side) == Payouts(st, side) && Fee(after.state) == Fee(st.state)
  {
    forall x | x in order[1..]
      ensures OnSide(after, side, x) && (!Claimed(st, x) ==> !Claimed(after, x))
    {
      assert x in order && x != order[0] && OnSide(st, side, x);
    }
  }

  lemma RestNonNegative(st: Storage, side: BetSide, order: seq<Address>)
    requires BetsOk(st) && PoolsOk(st) && ValidConfig(st.state.config) && Winners(st, side, order) && order != []
    ensures Total(order[1..], Payouts(st, side)) >= 0 && |order[1..]| * Fee(st.state) >= 0
    ensures |order| * Fee(st.state) == Fee(st.state) + |order[1..]| * Fee(st.state)
  {
    PoolsNonNegative(st);
    FeeBounds(st.state);
    PayoutsShareNetPool(st, side, order[1..]);
    MulLeft(Fee(st.state), 0, |order[1..]|);
    assert |order| == 1 + |order[1..]|;
  }

  lemma {:induction false} ClaimsNeedTotal(w: World, env: Env, side: BetSide, order: seq<Address>)
    requires ReadyToClaim(w, env, side, order)
    ensures ClaimsAll(w, env, order)
       <==> w.balance >= Total(order, Payouts(w.st, side)) + |order| * Fee(w.st.state)
    decreases |order|
  {
    if order != [] {
      var b, fee := order[0], Fee(w.st.state);
      assert b in order && OnSide(w.st, side, b);
      ClaimCall(w, env, side, b);
      RestNonNegative(w.st, side, order);
      if Call(w, env, ClaimWinnings(b), true).1.None? {
        ClaimKeepsReady(w, env, side, order);
        ClaimsNeedTotal(Call(w, env, ClaimWinnings(b), true).0, env, side, order[1..]);
      }
    }
  }

  /**
   * The full fee goes out with every claim, so all winners of a market nobody has claimed from yet
   * can be paid, in any order, exactly when there is one winner, no fee, or a fee of one unit that
   * the rounding dust covers. Winners of zero stakes alone cost the fees only.
   */
  lemma AllWinnersPayable(w: World, env: Env, side: BetSide, order: seq<Address>)
    requires ReadyToClaim(w, env, side, order) && AllWinners(w.st, side, order) && w.payments == []
    ensures var fee := Fee(w.st.state); var dust := NetPool(w.st.state) - Total(order, Payouts(w.st, side));
      ClaimsAll(w, env, order) <==>
        if order == [] || Pool(w.st.state, side) > 0
        then |order| <= 1 || fee == 0 || (fee == 1 && dust == |order| - 1)
        else |order| * fee <= w.st.state.totalPool
    ensures w.st.state.config.minBet > 0 && order != [] ==> Pool(w.st.state, side) > 0
  {
    PoolsNonNegative(w.st);
    FeeBounds(w.st.state);
    ClaimsNeedTotal(w, env, side, order);
    PayoutsShareNetPool(w.st, side, order);
    if order == [] || Pool(w.st.state, side) > 0 {
      FeesFit(w.st.state.totalPool, Fee(w.st.state), Total(order, Payouts(w.st, side)), |order|);
    }
  }

  lemma FeesFit(total: int, fee: int, paid: int, n: nat)
    requires 0 <= fee && 0 <= paid <= total - fee
    requires n == 0 ==> paid == 0
    requires n > 0 ==> total - fee - n < paid
    ensures total >= paid + n * fee <==> n <= 1 || fee == 0 || (fee == 1 && total - fee - paid == n - 1)
  {
    if n >= 2 && fee >= 2 {
      MulLeft(n - 1, 2, fee);
      assert n * fee == fee + (n - 1) * fee;
    } else if n == 1 {
      assert n * fee == fee;
    } else if n == 0 || fee == 0 {
      assert n * fee == 0;
    }
  }

  const P: Address := Address(3)
  const Q: Address := Address(4)

  /** A resolved market with two equal winners and a tenth of the pool as the fee. */
  ghost function TwoWinners(): World {
    var state := MarketState(Config(10, 1000, 1000, 0, 0, 100), Resolved, Some(Outcome.FighterA), 200, 0, 0, 200, 100);
    var bets := map[P := [BetRecord(P, BetSide.FighterA, 100, 0, false)],
                    Q := [BetRecord(Q, BetSide.FighterA, 100, 0, false)]];
    var reports := [ReportEntry(P, Outcome.FighterA, {P, Q}), ReportEntry(Q, Outcome.FighterA, {P, Q})];
    World(Storage(Address(1), Address(2), state, bets, [P, Q], map[], false, false), 200, [], reports,
          [Decision(P, Q, Outcome.FighterA)])
  }

  lemma TwoWinnersOk()
    ensures BetweenCalls(TwoWinners())
  {
    var w := TwoWinners();
    assert w.reports[0] in w.reports && w.reports[1] in w.reports;
    assert Reported(w, P, Outcome.FighterA) && Reported(w, Q, Outcome.FighterA);
    forall side ensures Pool(w.st.state, side) == Total(w.st.bettors, Stakes(w.st.bets, side)) {
      assert [P, Q] == [P] + [Q];
      TotalConcat([P], [Q], Stakes(w.st.bets, side));
      SingletonTotal(P, Stakes(w.st.bets, side));
      SingletonTotal(Q, Stakes(w.st.bets, side));
    }
  }

  /** Two winners and an ordinary fee: the second claim cannot be paid. */
  lemma TwoWinnersCannotBothClaim() returns (w: World, env: Env)
    ensures ReadyToClaim(w, env, BetSide.FighterA, [P, Q])
    ensures AllWinners(w.st, BetSide.FighterA, [P, Q]) && w.payments == []
    ensures !ClaimsAll(w, env, [P, Q])
  {
    w, env := TwoWinners(), Env(0, {P, Q}, {});
    TwoWinnersOk();
    AllWinnersPayable(w, env, BetSide.FighterA, [P, Q]);
  }
}
