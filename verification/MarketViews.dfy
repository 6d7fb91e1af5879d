/** The market's read-only views, and the web client's payout preview against them. */
module MarketViews {
  import opened Wrappers
  import opened Int128
  import opened Totals
  import opened Division
  import opened Paging
  import opened Contracts
  import opened MarketSpec
  import opened MarketInvariant
  import opened MarketSteps

  // estimate_payout

  /** The contract's estimate; nothing when one of its operations overflows and the call traps. */
  function EstimatePayout(s: MarketState, side: BetSide, amount: int): Option<int> {
    if s.status != Open then Some(0)
    else
      var pool, total := Pool(s, side) + amount, s.totalPool + amount;
      if !InRange(pool) || !InRange(total) then None
      else if pool == 0 then Some(0)
      else if !InRange(total * s.config.feeBps) then None
      else
        var net := total - Quot(total * s.config.feeBps, 10000);
        if !InRange(net) || !InRange(amount * net) then None else Checked(Quot(amount * net, pool))
  }

  // The client's preview, in unbounded integers

  datatype MarketRow = MarketRow(poolA: int, poolB: int, poolDraw: int, totalPool: int, feeBps: int)

  function RowPool(m: MarketRow, side: BetSide): int {
    match side
    case FighterA => m.poolA
    case FighterB => m.poolB
    case Draw => m.poolDraw
  }

  function ProjectedPayout(m: MarketRow, side: BetSide, amount: int): Option<int> {
    if amount <= 0 then None
    else
      var pool := RowPool(m, side) + amount;
      var total := m.poolA + m.poolB + m.poolDraw + amount;
      if pool == 0 then None else Some(Quot(amount * total * (10000 - m.feeBps), pool * 10000))
  }

  /** A trade event of `delta` stroops; an unknown outcome moves no pool but still refreshes the total. */
  function ApplyTrade(m: MarketRow, outcome: Option<BetSide>, delta: nat): MarketRow {
    if delta == 0 then m
    else
      var a := m.poolA + (if outcome == Some(BetSide.FighterA) then delta else 0);
      var b := m.poolB + (if outcome == Some(BetSide.FighterB) then delta else 0);
      var d := m.poolDraw + (if outcome == Some(BetSide.Draw) then delta else 0);
      m.(poolA := a, poolB := b, poolDraw := d, totalPool := a + b + d)
  }

  ghost predicate RowOf(m: MarketRow, s: MarketState) {
    m == MarketRow(s.poolA, s.poolB, s.poolDraw, s.totalPool, s.config.feeBps)
  }

  lemma PreviewArithmetic(a: int, total: int, bps: int, pool: int)
    requires 0 < a <= pool && 0 <= total && 0 <= bps <= 10000
    ensures var p := a * total * (10000 - bps) / (pool * 10000);
      var e := a * (total - total * bps / 10000) / pool;
      p <= e <= p + 1
  {
    var fee := total * bps / 10000;
    var net := total - fee;
    var x, d := a * total * (10000 - bps), pool * 10000;
    var p, e := x / d, a * net / pool;
    FloorBounds(total * bps, 10000);
    assert total * (10000 - bps) == total * 10000 - total * bps;
    assert total * (10000 - bps) <= 10000 * net < total * (10000 - bps) + 10000;
    // x <= 10000 * a * net < x + 10000 * a
    MulLeft(a, total * (10000 - bps), 10000 * net);
    MulLeft(a, 10000 * net + 1, total * (10000 - bps) + 10000);
    assert x == a * (total * (10000 - bps));
    assert a * (10000 * net) == 10000 * (a * net);
    assert x <= 10000 * (a * net) < x + 10000 * a;
    FloorBounds(x, d);
    FloorBounds(a * net, pool);
    assert d * p == 10000 * (pool * p);
    FloorGreatest(a * net, pool, p);
    assert pool * (p + 1) == pool * p + pool;
    FloorLeast(a * net, pool, p + 1);
  }

  /** Pools no run can leave: none negative, and the total their sum. */
  predicate SoundPools(s: MarketState) {
    s.poolA >= 0 && s.poolB >= 0 && s.poolDraw >= 0 && s.totalPool == s.poolA + s.poolB + s.poolDraw
  }

  /** The preview never promises more than the estimate, and at most one stroop less, at any fee there is. */
  lemma PreviewWithinOneStroop(s: MarketState, m: MarketRow, side: BetSide, amount: int)
    requires SoundPools(s) && s.config.feeBps <= 10000
    requires RowOf(m, s) && s.status == Open && amount > 0
    requires EstimatePayout(s, side, amount).Some?
    ensures ProjectedPayout(m, side, amount).Some?
    ensures var p, e := ProjectedPayout(m, side, amount).value, EstimatePayout(s, side, amount).value;
      p <= e <= p + 1
  {
    EstimateFormula(s, side, amount);
    ProjectedFormula(m, side, amount);
    PreviewArithmetic(amount, s.totalPool + amount, s.config.feeBps, Pool(s, side) + amount);
  }

  /** The books of a market make its pools sound. */
  lemma BooksGiveSoundPools(st: Storage)
    requires BetsOk(st) && PoolsOk(st) && ValidConfig(st.state.config)
    ensures SoundPools(st.state)
  {
    PoolsNonNegative(st);
    assert Pool(st.state, BetSide.FighterA) >= 0 && Pool(st.state, BetSide.FighterB) >= 0
        && Pool(st.state, BetSide.Draw) >= 0;
  }

  lemma ProjectedFormula(m: MarketRow, side: BetSide, amount: int)
    requires amount > 0 && RowPool(m, side) >= 0 && m.poolA + m.poolB + m.poolDraw >= 0 && m.feeBps <= 10000
    ensures var pool := RowPool(m, side) + amount; var total := m.poolA + m.poolB + m.poolDraw + amount;
      ProjectedPayout(m, side, amount) == Some(amount * total * (10000 - m.feeBps) / (pool * 10000))
  {
    var pool, total := RowPool(m, side) + amount, m.poolA + m.poolB + m.poolDraw + amount;
    MulLeft(amount, 0, total);
    MulLeft(amount * total, 0, 10000 - m.feeBps);
    QuotFloor(amount * total * (10000 - m.feeBps), pool * 10000);
  }

  /** A row that follows the chain keeps following it when a bet arrives as a trade event. */
  lemma TradeTracksBet(s: MarketState, m: MarketRow, side: BetSide, amount: nat)
    requires RowOf(m, s) && s.totalPool == s.poolA + s.poolB + s.poolDraw
    ensures RowOf(ApplyTrade(m, Some(side), amount), AddToPool(s, side, amount))
    ensures ApplyTrade(m, None, amount) == m
    ensures var after := AddToPool(s, side, amount); after.totalPool == after.poolA + after.poolB + after.poolDraw
  {
  }

  datatype Trade = Trade(side: BetSide, amount: nat)

  function AfterTrades(s: MarketState, trades: seq<Trade>): MarketState {
    if trades == [] then s
    else
      var last := trades[|trades| - 1];
      AddToPool(AfterTrades(s, trades[..|trades| - 1]), last.side, last.amount)
  }

  function Volume(trades: seq<Trade>): nat {
    if trades == [] then 0 else Volume(trades[..|trades| - 1]) + trades[|trades| - 1].amount
  }

  /** The hook's live row: the row it was given, with the latest trade event it has seen applied, if any. */
  function LiveRow(base: MarketRow, seen: seq<Trade>): MarketRow {
    if seen == [] then base else ApplyTrade(base, Some(seen[|seen| - 1].side), seen[|seen| - 1].amount)
  }

  lemma {:induction false} TradesTotal(s: MarketState, trades: seq<Trade>)
    requires s.totalPool == s.poolA + s.poolB + s.poolDraw
    ensures var after := AfterTrades(s, trades);
      && after.totalPool == s.totalPool + Volume(trades) == after.poolA + after.poolB + after.poolDraw
      && after.config == s.config
  {
    if trades != [] {
      TradesTotal(s, trades[..|trades| - 1]);
    }
  }

  lemma {:induction false} VolumeGrows(trades: seq<Trade>, n: nat)
    requires n <= |trades| && forall t :: t in trades ==> t.amount > 0
    ensures Volume(trades[..n]) <= Volume(trades)
    ensures n < |trades| ==> Volume(trades[..n]) < Volume(trades)
  {
    if n < |trades| {
      var init := trades[..|trades| - 1];
      VolumeGrows(init, n);
      assert init[..n] == trades[..n] && trades[|trades| - 1] in trades;
    } else {
      assert trades[..n] == trades;
    }
  }

  lemma LiveTotal(s: MarketState, base: MarketRow, seen: seq<Trade>)
    requires RowOf(base, s) && s.totalPool == s.poolA + s.poolB + s.poolDraw && seen != []
    ensures LiveRow(base, seen).totalPool == s.totalPool + seen[|seen| - 1].amount
  {
    match seen[|seen| - 1].side
    case FighterA =>
    case FighterB =>
    case Draw =>
  }

  /** A row that lacks some other part of the trades than the last has another total than the chain. */
  lemma LiveTotalDiffers(s: MarketState, base: MarketRow, trades: seq<Trade>, loaded: nat)
    requires s.totalPool == s.poolA + s.poolB + s.poolDraw && forall t :: t in trades ==> t.amount > 0
    requires trades != [] && loaded <= |trades| && loaded != |trades| - 1
    requires RowOf(base, AfterTrades(s, trades[..loaded]))
    ensures LiveRow(base, trades).totalPool != AfterTrades(s, trades).totalPool
  {
    var before, last := trades[..|trades| - 1], trades[|trades| - 1];
    TradesTotal(s, trades);
    TradesTotal(s, trades[..loaded]);
    LiveTotal(AfterTrades(s, trades[..loaded]), base, trades);
    assert last in trades;
    if loaded < |before| {
      VolumeGrows(before, loaded);
      assert before[..loaded] == trades[..loaded];
    } else {
      assert trades[..loaded] == trades;
    }
  }

  /**
   * Of all trades the row was loaded after the first `loaded`, and the hook has seen every one since the
   * market was first shown, of which there is at least one. The live row is the chain's exactly when the
   * row lacks the last trade alone: earlier ones are dropped, and one already in the row counts twice.
   */
  lemma LiveRowTracksIff(s: MarketState, base: MarketRow, trades: seq<Trade>, loaded: nat)
    requires s.totalPool == s.poolA + s.poolB + s.poolDraw && forall t :: t in trades ==> t.amount > 0
    requires trades != [] && loaded <= |trades| && RowOf(base, AfterTrades(s, trades[..loaded]))
    ensures RowOf(LiveRow(base, trades), AfterTrades(s, trades)) <==> loaded == |trades| - 1
  {
    if loaded == |trades| - 1 {
      var before, last := AfterTrades(s, trades[..loaded]), trades[loaded];
      TradesTotal(s, trades[..loaded]);
      TradeTracksBet(before, base, last.side, last.amount);
    } else {
      LiveTotalDiffers(s, base, trades, loaded);
    }
  }

  /** The estimate taken just before a bet is what the bet is paid if it wins and no other follows. */
  lemma EstimateIsPaid(w: World, env: Env, bettor: Address, side: BetSide, amount: int, later: World, claimEnv: Env)
    requires WorldOk(w) && PlaceBetEffect(w, env, bettor, side, amount).Ok?
    requires var placed := PlaceBetEffect(w, env, bettor, side, amount).value.world;
      Extends(placed, later) && later.st.bettors == placed.st.bettors
    requires WorldOk(later) && ClaimWinningsEffect(later, claimEnv, bettor).Ok?
    requires EstimatePayout(w.st.state, side, amount).Some?
    ensures ClaimWinningsEffect(later, claimEnv, bettor).value.world.payments
      == later.payments + [Winnings(bettor, EstimatePayout(w.st.state, side, amount).value, Fee(later.st.state))]
  {
    PlaceBetGood(w, env, bettor, side, amount);
    EstimateIsPlaced(w, env, bettor, side, amount);
    PayoutFrozen(PlaceBetEffect(w, env, bettor, side, amount).value.world, later, bettor);
    ClaimWinningsGood(later, claimEnv, bettor);
  }

  /** Right after the bet its payout, should it win, is the estimate. */
  lemma EstimateIsPlaced(w: World, env: Env, bettor: Address, side: BetSide, amount: int)
    requires WorldOk(w) && PlaceBetEffect(w, env, bettor, side, amount).Ok?
    requires EstimatePayout(w.st.state, side, amount).Some?
    ensures var st := PlaceBetEffect(w, env, bettor, side, amount).value.world.st;
      && bettor in st.bets && |st.bets[bettor]| == 1 && st.bets[bettor][0].side == side
      && Payout(st, bettor) == EstimatePayout(w.st.state, side, amount).value
  {
    PlaceBetGood(w, env, bettor, side, amount);
    PoolsNonNegative(w.st);
    EstimateFormula(w.st.state, side, amount);
    StakeWithinPool(PlaceBetEffect(w, env, bettor, side, amount).value.world.st, bettor);
  }

  /** A bettor's payout is fixed once no further bet is placed. */
  lemma PayoutFrozen(placed: World, later: World, b: Address)
    requires WorldOk(placed) && WorldOk(later) && Extends(placed, later)
    requires later.st.bettors == placed.st.bettors && b in placed.st.bets
    ensures b in later.st.bets && |later.st.bets[b]| == 1
    ensures Payout(later.st, b) == Payout(placed.st, b)
    ensures later.st.state.config.minBet > 0 ==> Pool(later.st.state, placed.st.bets[b][0].side) > 0
  {
    SamePools(placed.st, later.st);
    var before, record := placed.st.bets[b][0], later.st.bets[b][0];
    assert SameBets(placed.st.bets[b], later.st.bets[b]);
    assert before.(claimed := record.claimed) == record;
    assert Pool(later.st.state, before.side) == Pool(placed.st.state, before.side);
    assert NetPool(later.st.state) == NetPool(placed.st.state);
    StakeWithinPool(later.st, b);
  }

  /** An estimate is zero once betting is over, and never traps while the pools stay below 2^63. */
  lemma EstimateAnswers(s: MarketState, side: BetSide, amount: int)
    requires SoundPools(s) && s.config.feeBps <= 10000 && amount >= 0
    requires s.totalPool + amount < 0x8000_0000_0000_0000
    ensures EstimatePayout(s, side, amount).Some?
    ensures s.status != Open ==> EstimatePayout(s, side, amount) == Some(0)
  {
    var pool, total := Pool(s, side) + amount, s.totalPool + amount;
    if pool != 0 {
      QuoteFits(amount, total, s.config.feeBps, pool);
    }
  }

  /** The products and quotients of an estimate, below 2^63. */
  lemma QuoteFits(amount: int, total: int, bps: nat, pool: int)
    requires 0 <= amount <= total < 0x8000_0000_0000_0000 && bps <= 10000 && pool > 0
    ensures InRange(total * bps)
    ensures var net := total - Quot(total * bps, 10000);
      && InRange(net) && InRange(amount * net) && InRange(Quot(amount * net, pool))
  {
    MulLeft(total, 0, bps);
    MulLeft(total, bps, 10000);
    QuotFloor(total * bps, 10000);
    FloorGreatest(total * bps, 10000, 0);
    FloorLeast(total * bps, 10000, total);
    var net := total - Quot(total * bps, 10000);
    MulBounds(amount, net, 0x8000_0000_0000_0000);
    QuotFloor(amount * net, pool);
    SmallQuotient(amount * net, pool);
  }

  lemma MulBounds(a: int, b: int, bound: int)
    requires 0 <= a < bound && 0 <= b < bound
    ensures 0 <= a * b <= bound * bound
  {
    MulLeft(a, 0, b);
    MulLeft(a, b, bound);
    MulLeft(bound, a, bound);
  }

  lemma SmallQuotient(x: int, d: int)
    requires x >= 0 && d > 0
    ensures 0 <= x / d <= x
  {
    FloorGreatest(x, d, 0);
    MulLeft(x, 1, d);
    FloorLeast(x, d, x);
  }

  lemma EstimateFormula(s: MarketState, side: BetSide, amount: int)
    requires s.status == Open && s.config.feeBps <= 10000 && amount >= 0
    requires Pool(s, side) >= 0 && s.totalPool >= 0
    requires EstimatePayout(s, side, amount).Some?
    ensures var after := AddToPool(s, side, amount);
      EstimatePayout(s, side, amount).value
      == if Pool(after, side) > 0 then amount * NetPool(after) / Pool(after, side) else 0
  {
    var after := AddToPool(s, side, amount);
    if Pool(after, side) > 0 {
      FeeBounds(after);
      MulLeft(after.totalPool, 0, s.config.feeBps);
      QuotFloor(after.totalPool * s.config.feeBps, 10000);
      MulLeft(amount, 0, NetPool(after));
      QuotFloor(amount * NetPool(after), Pool(after, side));
    }
  }

  /** Pools are a function of the bets, whatever the claim flags say. */
  lemma SamePools(a: Storage, b: Storage)
    requires BetsOk(a) && PoolsOk(a) && BetsOk(b) && PoolsOk(b) && a.bettors == b.bettors
    requires forall k :: k in a.bets ==> k in b.bets && SameBets(a.bets[k], b.bets[k])
    ensures forall side :: Pool(a.state, side) == Pool(b.state, side)
    ensures a.state.totalPool == b.state.totalPool
  {
    forall side ensures Pool(a.state, side) == Pool(b.state, side) {
      forall k | k in a.bettors ensures Weight(Stakes(a.bets, side), k) == Weight(Stakes(b.bets, side), k) {
        assert SameBets(a.bets[k], b.bets[k]);
        assert a.bets[k][0].(claimed := b.bets[k][0].claimed) == b.bets[k][0];
      }
      TotalCongruent(a.bettors, Stakes(a.bets, side), Stakes(b.bets, side));
    }
    assert Pool(a.state, BetSide.FighterA) == Pool(b.state, BetSide.FighterA)
        && Pool(a.state, BetSide.FighterB) == Pool(b.state, BetSide.FighterB)
        && Pool(a.state, BetSide.Draw) == Pool(b.state, BetSide.Draw);
  }

  // get_current_odds

  /** Basis points per side; nothing when a product overflows and the call traps. */
  function CurrentOdds(s: MarketState): Option<(int, int, int)> {
    if s.totalPool == 0 then Some((0, 0, 0))
    else if !InRange(s.poolA * 10000) || !InRange(s.poolB * 10000) || !InRange(s.poolDraw * 10000) then None
    else Some((Quot(s.poolA * 10000, s.totalPool), Quot(s.poolB * 10000, s.totalPool),
               Quot(s.poolDraw * 10000, s.totalPool)))
  }

  /** The three odds are shares of a whole: together they miss 10000 by less than three. */
  lemma OddsSumToWhole(st: Storage)
    requires BetsOk(st) && PoolsOk(st) && ValidConfig(st.state.config)
    requires CurrentOdds(st.state).Some? && st.state.totalPool != 0
    ensures var (a, b, d) := CurrentOdds(st.state).value;
      a >= 0 && b >= 0 && d >= 0 && 10000 - 2 <= a + b + d <= 10000
  {
    PoolsNonNegative(st);
    var s := st.state;
    assert Pool(s, BetSide.FighterA) >= 0 && Pool(s, BetSide.FighterB) >= 0 && Pool(s, BetSide.Draw) >= 0;
    QuotFloor(s.poolA * 10000, s.totalPool);
    QuotFloor(s.poolB * 10000, s.totalPool);
    QuotFloor(s.poolDraw * 10000, s.totalPool);
    ThreeShares(s.poolA, s.poolB, s.poolDraw);
  }

  /** Each side's odds are the floor of its own pool's share, in basis points. */
  lemma OddsAreShares(st: Storage)
    requires BetsOk(st) && PoolsOk(st) && ValidConfig(st.state.config)
    requires CurrentOdds(st.state).Some? && st.state.totalPool != 0
    ensures var (a, b, d) := CurrentOdds(st.state).value; var s := st.state;
      && a * s.totalPool <= s.poolA * 10000 < (a + 1) * s.totalPool
      && b * s.totalPool <= s.poolB * 10000 < (b + 1) * s.totalPool
      && d * s.totalPool <= s.poolDraw * 10000 < (d + 1) * s.totalPool
  {
    var s := st.state;
    PoolsNonNegative(st);
    assert Pool(s, BetSide.FighterA) >= 0 && Pool(s, BetSide.FighterB) >= 0 && Pool(s, BetSide.Draw) >= 0;
    ShareBounds10000(s.poolA, s.totalPool);
    ShareBounds10000(s.poolB, s.totalPool);
    ShareBounds10000(s.poolDraw, s.totalPool);
  }

  /** An empty market has odds of zero; otherwise the call traps only when a pool is too large to scale. */
  lemma OddsTrapIff(st: Storage)
    requires BetsOk(st) && PoolsOk(st) && ValidConfig(st.state.config)
    ensures st.state.totalPool == 0 ==> CurrentOdds(st.state) == Some((0, 0, 0))
    ensures CurrentOdds(st.state).None?
       <==> st.state.poolA > MAX / 10000 || st.state.poolB > MAX / 10000 || st.state.poolDraw > MAX / 10000
  {
    var s := st.state;
    PoolsNonNegative(st);
    assert Pool(s, BetSide.FighterA) >= 0 && Pool(s, BetSide.FighterB) >= 0 && Pool(s, BetSide.Draw) >= 0;
  }

  lemma ShareBounds10000(pool: nat, total: nat)
    requires total > 0
    ensures var odds := Quot(pool * 10000, total); odds * total <= pool * 10000 < (odds + 1) * total
  {
    QuotFloor(pool * 10000, total);
    FloorBounds(pool * 10000, total);
  }

  lemma ThreeShares(x: nat, y: nat, z: nat)
    requires x + y + z > 0
    ensures var t := x + y + z; var a, b, d := x * 10000 / t, y * 10000 / t, z * 10000 / t;
      a >= 0 && b >= 0 && d >= 0 && 10000 - 2 <= a + b + d <= 10000
  {
    var t := x + y + z;
    var a, b, d := x * 10000 / t, y * 10000 / t, z * 10000 / t;
    FloorBounds(x * 10000, t);
    FloorBounds(y * 10000, t);
    FloorBounds(z * 10000, t);
    FloorGreatest(x * 10000, t, 0);
    FloorGreatest(y * 10000, t, 0);
    FloorGreatest(z * 10000, t, 0);
    var o := a + b + d;
    assert t * o == t * a + t * b + t * d;
    assert t * o <= t * 10000 < t * o + 3 * t;
    MulGap(t, 10000, o);
    assert t * (o + 2) == t * o + 2 * t;
    MulGap(t, o + 2, 10000);
  }

  // get_all_bets

  /** Every bettor's records, in the order of the bettor list. */
  function AllBets(bettors: seq<Address>, bets: map<Address, seq<BetRecord>>): seq<BetRecord> {
    if bettors == [] then []
    else AllBets(bettors[..|bettors| - 1], bets) + BetsOf(bets, bettors[|bettors| - 1])
  }

  /** The nested loops over bettors and their records. */
  method CollectBets(bettors: seq<Address>, bets: map<Address, seq<BetRecord>>) returns (all: seq<BetRecord>)
    ensures all == AllBets(bettors, bets)
  {
    all := [];
    var i := 0;
    while i < |bettors|
      invariant 0 <= i <= |bettors|
      invariant all == AllBets(bettors[..i], bets)
    {
      assert bettors[..i + 1][..i] == bettors[..i];
      var records := BetsOf(bets, bettors[i]);
      var j := 0;
      ghost var before := all;
      while j < |records|
        invariant 0 <= j <= |records|
        invariant all == before + records[..j]
      {
        all := all + [records[j]];
        j := j + 1;
      }
      assert records[..j] == records;
      i := i + 1;
    }
    assert bettors[..i] == bettors;
  }

  /** The loop over one page of the listing. */
  method TakePage(all: seq<BetRecord>, offset: nat, cap: nat) returns (result: seq<BetRecord>)
    ensures result == Slice(all, offset, cap)
  {
    var end := if offset + cap < |all| then offset + cap else |all|;
    if offset >= |all| { return []; }
    result := [];
    var k := offset;
    while k < end
      invariant offset <= k <= end
      invariant result == all[offset..k]
    {
      result := result + [all[k]];
      k := k + 1;
    }
  }

  method GetAllBets(st: Storage, offset: nat, limit: nat) returns (page: Option<seq<BetRecord>>)
    requires offset <= U32_MAX && limit <= U32_MAX
    ensures var cap := if limit > 50 then 50 else limit;
      page == if offset + cap > U32_MAX then None else Some(Slice(AllBets(st.bettors, st.bets), offset, cap))
  {
    var cap := if limit > 50 then 50 else limit;
    var all := CollectBets(st.bettors, st.bets);
    if offset + cap > U32_MAX { return None; }
    var result := TakePage(all, offset, cap);
    return Some(result);
  }

  /** In a good market the listing names each bettor's one bet, in order, and adds up to the pool. */
  lemma {:induction false} AllBetsExact(bettors: seq<Address>, bets: map<Address, seq<BetRecord>>)
    requires forall b :: b in bettors ==> b in bets && |bets[b]| == 1
    ensures |AllBets(bettors, bets)| == |bettors|
    ensures forall i :: 0 <= i < |bettors| ==> AllBets(bettors, bets)[i] == bets[bettors[i]][0]
  {
    if bettors != [] {
      AllBetsExact(bettors[..|bettors| - 1], bets);
    }
  }
}
