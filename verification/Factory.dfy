/** The market factory: registry, open list, oracle whitelist and the two-step admin handover. */
module FactorySpec {
  import opened Wrappers
  import opened Int128
  import opened Contracts
  import opened Paging
  import Market = MarketSpec
  import MarketInvariant
  import MarketMachine
  import MarketRuns

  /** What the factory checks of a fight. */
  datatype Fight = Fight(scheduledAt: nat, fighterA: string, fighterB: string)

  datatype State = State(
    admin: Address, pendingAdmin: Option<Address>, oracles: set<Address>, paused: bool, wasmSet: bool,
    count: nat, registry: map<nat, seq<nat>>, open: seq<nat>)

  datatype Env = Env(now: nat, signers: set<Address>)

  datatype Op =
    | CreateMarket(caller: Address, fight: Fight, config: Market.Config, feeOverride: Option<nat>)
    | RemoveOpenMarket(caller: Address, id: nat)
    | AddOracle(admin: Address, oracle: Address)
    | RemoveOracle(admin: Address, oracle: Address)
    | ProposeAdmin(admin: Address, candidate: Address)
    | AcceptAdmin(candidate: Address)
    | PauseFactory(admin: Address)
    | UnpauseFactory(admin: Address)
    | UpdateMarketWasm(admin: Address, zeroHash: bool)

  // Deployment salts: the id as eight big-endian bytes at the end of thirty-two

  function BigEndian(n: nat, bytes: nat): (s: seq<nat>)
    ensures |s| == bytes
  {
    if bytes == 0 then [] else BigEndian(n / 256, bytes - 1) + [n % 256]
  }

  function Salt(id: nat): seq<nat> {
    seq(24, i => 0) + BigEndian(id, 8)
  }

  function ValueOf(s: seq<nat>): nat {
    if s == [] then 0 else ValueOf(s[..|s| - 1]) * 256 + s[|s| - 1]
  }

  function Pow256(k: nat): nat {
    if k == 0 then 1 else 256 * Pow256(k - 1)
  }

  lemma {:induction false} BigEndianValue(n: nat, bytes: nat)
    requires n < Pow256(bytes)
    ensures ValueOf(BigEndian(n, bytes)) == n
  {
    if bytes > 0 {
      BigEndianValue(n / 256, bytes - 1);
      var s := BigEndian(n, bytes);
      assert s[..|s| - 1] == BigEndian(n / 256, bytes - 1);
    }
  }

  lemma SaltInjective(a: nat, b: nat)
    requires a <= U64_MAX && b <= U64_MAX && Salt(a) == Salt(b)
    ensures a == b
  {
    assert Pow256(2) == 0x1_0000 && Pow256(4) == 0x1_0000_0000;
    assert Pow256(6) == 0x1_0000_0000_0000;
    assert Pow256(8) == 0x1_0000_0000_0000_0000;
    BigEndianValue(a, 8);
    BigEndianValue(b, 8);
    assert BigEndian(a, 8) == Salt(a)[24..] == Salt(b)[24..] == BigEndian(b, 8);
  }

  function Without(open: seq<nat>, id: nat): seq<nat> {
    if open == [] then []
    else
      var last := open[|open| - 1];
      Without(open[..|open| - 1], id) + (if last != id then [last] else [])
  }

  function EffectiveFee(config: Market.Config, feeOverride: Option<nat>): nat {
    if feeOverride.Some? then feeOverride.value else config.feeBps
  }

  function CreateCheck(
      s: State, env: Env, caller: Address, fight: Fight, config: Market.Config, feeOverride: Option<nat>)
    : Option<ContractError>
  {
    if caller !in env.signers then Some(Trap)
    else if s.paused then Some(FactoryPaused)
    else if fight.scheduledAt <= env.now then Some(InvalidTimeRange)
    else if fight.fighterA == "" || fight.fighterB == "" then Some(InvalidMarketParameters)
    else if config.minBet == 0 then Some(BelowMinimum)
    else if config.maxBet < config.minBet then Some(InvalidMarketParameters)
    else if EffectiveFee(config, feeOverride) > 1000 then Some(InvalidMarketParameters)
    else if s.count + 1 > U64_MAX then Some(Trap)
    else if !s.wasmSet then Some(WasmHashNotSet)
    else None
  }

  /** What passes the checks is a configuration under which a market's books are proved. */
  lemma AcceptedIsValid(
      s: State, env: Env, caller: Address, fight: Fight, config: Market.Config, feeOverride: Option<nat>)
    requires CreateCheck(s, env, caller, fight, config, feeOverride).None?
    ensures MarketInvariant.ValidConfig(MarketConfig(fight, config, feeOverride))
    ensures config.minBet != 0 && config.minBet <= config.maxBet
  {
  }

  /** The configuration a new market is initialised with. */
  function MarketConfig(fight: Fight, config: Market.Config, feeOverride: Option<nat>): Market.Config {
    config.(feeBps := EffectiveFee(config, feeOverride), scheduledAt := fight.scheduledAt)
  }

  /**
   * Of the minimum bets only zero is refused: whenever some configuration passes, one with a negative
   * minimum passes too, and its market has a run with a side that was bet on and is worth nothing.
   */
  lemma NegativeMinimumAccepted(
      s: State, env: Env, caller: Address, fight: Fight, config: Market.Config, factory: Address, treasury: Address)
    returns (other: Market.Config, events: seq<MarketMachine.Event>)
    requires CreateCheck(s, env, caller, fight, config, None).None?
    ensures CreateCheck(s, env, caller, fight, other, None).None? && other.minBet < 0
    ensures var start := MarketMachine.Start(factory, treasury, MarketConfig(fight, other, None));
      !MarketRuns.SidesFunded(MarketMachine.Run(start, events).w)
  {
    other := config.(minBet := -1, maxBet := 1, lockBefore := 0);
    events := MarketRuns.ZeroStake(factory, treasury, MarketConfig(fight, other, None));
  }

  function AdminOnly(s: State, env: Env, caller: Address, after: State): Result<State, ContractError> {
    if caller !in env.signers then Err(Trap)
    else if caller != s.admin then Err(NotAdmin)
    else Ok(after)
  }

  /** One call; `status` is what a registered market answers to `get_state`. */
  function Apply(s: State, env: Env, status: map<nat, Market.Status>, op: Op): Result<State, ContractError> {
    match op
    case CreateMarket(caller, fight, config, feeOverride) =>
      var failed := CreateCheck(s, env, caller, fight, config, feeOverride);
      if failed.Some? then Err(failed.value)
      else Ok(s.(registry := s.registry[s.count := Salt(s.count)], count := s.count + 1, open := s.open + [s.count]))
    case RemoveOpenMarket(caller, id) =>
      if caller !in env.signers then Err(Trap)
      else if caller != s.admin && caller !in s.oracles then Err(NotAdmin)
      else if id !in s.registry || id !in status then Err(MarketNotFound)
      else if status[id] == Market.Open then Err(MarketNotOpen)
      else Ok(s.(open := Without(s.open, id)))
    case AddOracle(admin, oracle) => AdminOnly(s, env, admin, s.(oracles := s.oracles + {oracle}))
    case RemoveOracle(admin, oracle) =>
      if admin in env.signers && admin == s.admin && oracle !in s.oracles then Err(OracleNotWhitelisted)
      else AdminOnly(s, env, admin, s.(oracles := s.oracles - {oracle}))
    case ProposeAdmin(admin, candidate) => AdminOnly(s, env, admin, s.(pendingAdmin := Some(candidate)))
    case AcceptAdmin(candidate) =>
      if candidate !in env.signers then Err(Trap)
      else if s.pendingAdmin != Some(candidate) then Err(NotAdmin)
      else Ok(s.(admin := candidate, pendingAdmin := None))
    case PauseFactory(admin) => AdminOnly(s, env, admin, s.(paused := true))
    case UnpauseFactory(admin) => AdminOnly(s, env, admin, s.(paused := false))
    case UpdateMarketWasm(admin, zeroHash) => AdminOnly(s, env, admin, s.(wasmSet := !zeroHash))
  }

  function Fresh(admin: Address, oracle: Address): State {
    State(admin, None, {oracle}, false, false, 0, map[], [])
  }

  /** A page of open ids, as read with the offset cut to 32 bits. */
  function ListMarketIds(open: seq<nat>, offset: nat, limit: nat): seq<nat> {
    Slice(open, offset % (U32_MAX + 1), if limit > 100 then 100 else limit)
  }

  /** The page is the one asked for unless a too large offset wraps around onto the list. */
  lemma PageAsAskedIff(open: seq<nat>, offset: nat, limit: nat)
    requires |open| <= U32_MAX
    ensures ListMarketIds(open, offset, limit) == Slice(open, offset, if limit > 100 then 100 else limit)
      <==> offset <= U32_MAX || limit == 0 || offset % (U32_MAX + 1) >= |open|
  {
    var pos := offset % (U32_MAX + 1);
    if offset > U32_MAX && limit > 0 && pos < |open| {
      assert Slice(open, offset, 1) == [];
      assert ListMarketIds(open, offset, limit)[0] == open[pos];
    }
  }

  /** Reading page after page from zero gives the whole open list. */
  function ReadPages(open: seq<nat>, offset: nat, size: nat): seq<nat>
    requires 1 <= size <= 100
    decreases |open| - offset
  {
    if offset >= |open| then [] else ListMarketIds(open, offset, size) + ReadPages(open, offset + size, size)
  }

  lemma {:induction false} ReadPagesRebuild(open: seq<nat>, offset: nat, size: nat)
    requires 1 <= size <= 100 && offset <= |open| <= U32_MAX
    ensures ReadPages(open, offset, size) == open[offset..]
    decreases |open| - offset
  {
    if offset < |open| {
      PageInRange(open, offset, size);
      if offset + size <= |open| {
        ReadPagesRebuild(open, offset + size, size);
        assert open[offset..] == open[offset..offset + size] + open[offset + size..];
      }
    }
  }

  lemma PageInRange(open: seq<nat>, offset: nat, size: nat)
    requires size <= 100 && offset <= U32_MAX
    ensures ListMarketIds(open, offset, size) == Slice(open, offset, size)
  {
    assert offset % (U32_MAX + 1) == offset;
  }
}

/** The factory and all its markets, running together. */
module FactoryRuns {
  import opened Wrappers
  import opened Int128
  import opened Contracts
  import opened FactorySpec
  import Market = MarketSpec
  import MarketInvariant
  import MarketSteps
  import MarketMachine
  import MarketPayouts

  /** `nominator` remembers who proposed the pending admin. */
  datatype World = World(
    s: State, self: Address, treasury: Address, markets: map<nat, Market.World>, nominator: Option<Address>)

  datatype Event =
    | Factory(env: Env, call: Op)
    | MarketCall(env: Env, id: nat, op: Market.Op, funded: bool)

  function Statuses(markets: map<nat, Market.World>): map<nat, Market.Status> {
    map id | id in markets :: markets[id].st.state.status
  }

  /** A market call sees the factory's whitelist as it stands. */
  function Step(w: World, e: Event): World {
    match e
    case Factory(env, op) =>
      var r := Apply(w.s, env, Statuses(w.markets), op);
      if r.Err? then w
      else
        (match op
         case CreateMarket(_, fight, config, feeOverride) =>
           var market := Market.Init(w.self, w.treasury, MarketConfig(fight, config, feeOverride));
           w.(s := r.value, markets := w.markets[w.s.count := market])
         case ProposeAdmin(admin, _) => w.(s := r.value, nominator := Some(admin))
         case _ => w.(s := r.value))
    case MarketCall(env, id, op, funded) =>
      if id !in w.markets then w
      else
        var marketEnv := Market.Env(env.now, env.signers, w.s.oracles);
        w.(markets := w.markets[id := MarketPayouts.Call(w.markets[id], marketEnv, op, funded).0])
  }

  function Run(w: World, events: seq<Event>): World {
    if events == [] then w else Step(Run(w, events[..|events| - 1]), events[|events| - 1])
  }

  ghost predicate Increasing(s: seq<nat>) {
    forall i, j :: 0 <= i < j < |s| ==> s[i] < s[j]
  }

  ghost predicate FactoryOk(w: World) {
    RegistryOk(w) && MarketsOk(w.markets)
  }

  ghost predicate MarketsOk(markets: map<nat, Market.World>) {
    forall id: nat :: id in markets ==> MarketPayouts.BetweenCalls(markets[id])
  }

  /** The registry, the markets and the open list number the same markets. */
  ghost predicate RegistryOk(w: World) {
    var s := w.s;
    && s.count <= U64_MAX
    && (forall id: nat :: id in s.registry <==> id < s.count)
    && (forall id: nat :: id in s.registry ==> s.registry[id] == Salt(id))
    && (forall id: nat :: id in w.markets <==> id < s.count)
    && Increasing(s.open)
    && (forall id: nat :: id in s.open ==> id < s.count)
    && (forall id: nat :: id in w.markets && w.markets[id].st.state.status == Market.Open ==> id in s.open)
    && (s.pendingAdmin.Some? ==> w.nominator == Some(s.admin))
  }

  lemma AppendIncreasing(s: seq<nat>, x: nat)
    requires Increasing(s) && forall k :: k in s ==> k < x
    ensures Increasing(s + [x])
  {
    forall i, j | 0 <= i < j < |s + [x]| ensures (s + [x])[i] < (s + [x])[j] {
      if j == |s| { assert s[i] in s; }
    }
  }

  lemma {:induction false} WithoutFacts(open: seq<nat>, id: nat)
    requires Increasing(open)
    ensures Increasing(Without(open, id))
    ensures forall k :: k in Without(open, id) <==> k in open && k != id
  {
    if open != [] {
      var init := open[..|open| - 1];
      WithoutFacts(init, id);
      forall k | k in Without(init, id) ensures k < open[|open| - 1] {
        var j :| 0 <= j < |init| && init[j] == k;
        assert open[j] < open[|open| - 1];
      }
      AppendIncreasing(Without(init, id), open[|open| - 1]);
      assert forall k :: k in open <==> k in init || k == open[|open| - 1];
    }
  }

  /** No call of any market opens it again, nor changes its configuration. */
  lemma NeverReopens(m: Market.World, env: Market.Env, op: Market.Op, funded: bool)
    ensures var after := MarketPayouts.Call(m, env, op, funded).0;
      && (after.st.state.status == Market.Open ==> m.st.state.status == Market.Open)
      && after.st.state.config == m.st.state.config
  {
    if op.PlaceBet? {
      match op.side
      case _ =>
    }
  }

  lemma CreateOk(w: World, env: Env, op: Op)
    requires FactoryOk(w) && w.treasury != Market.SELF && op.CreateMarket?
    ensures FactoryOk(Step(w, Factory(env, op)))
  {
    if Apply(w.s, env, Statuses(w.markets), op).Ok? {
      var config := MarketConfig(op.fight, op.config, op.feeOverride);
      CreatesOne(w, env, op);
      NewMarketOk(w.self, w.treasury, config);
      RegistryGrows(w, Step(w, Factory(env, op)), Market.Init(w.self, w.treasury, config));
    }
  }

  lemma CreatesOne(w: World, env: Env, op: Op)
    requires op.CreateMarket? && Apply(w.s, env, Statuses(w.markets), op).Ok?
    ensures w.s.count < U64_MAX
    ensures var config := MarketConfig(op.fight, op.config, op.feeOverride);
      MarketInvariant.ValidConfig(config)
      && Step(w, Factory(env, op)) == Grown(w, Market.Init(w.self, w.treasury, config))
  {
  }

  /** The world with one more market under the next number. */
  function Grown(w: World, market: Market.World): World {
    w.(s := w.s.(registry := w.s.registry[w.s.count := Salt(w.s.count)], count := w.s.count + 1,
                 open := w.s.open + [w.s.count]),
       markets := w.markets[w.s.count := market])
  }

  lemma NewMarketOk(factory: Address, treasury: Address, config: Market.Config)
    requires MarketInvariant.ValidConfig(config) && treasury != Market.SELF
    ensures MarketPayouts.BetweenCalls(Market.Init(factory, treasury, config))
  {
    MarketMachine.StartOk(factory, treasury, config);
  }

  lemma RegistryGrows(w: World, n: World, market: Market.World)
    requires FactoryOk(w) && w.s.count < U64_MAX && n == Grown(w, market) && MarketPayouts.BetweenCalls(market)
    ensures FactoryOk(n)
  {
    AppendIncreasing(w.s.open, w.s.count);
  }

  lemma MarketCallOk(w: World, env: Env, id: nat, op: Market.Op, funded: bool)
    requires FactoryOk(w)
    ensures FactoryOk(Step(w, MarketCall(env, id, op, funded)))
  {
    if id in w.markets {
      var marketEnv := Market.Env(env.now, env.signers, w.s.oracles);
      NeverReopens(w.markets[id], marketEnv, op, funded);
      MarketPayouts.CallKeepsSettled(w.markets[id], marketEnv, op, funded);
      MarketChanges(w, id, MarketPayouts.Call(w.markets[id], marketEnv, op, funded).0);
    }
  }

  /** A market that does not open again moves no index. */
  lemma MarketChanges(w: World, id: nat, after: Market.World)
    requires FactoryOk(w) && id in w.markets && MarketPayouts.BetweenCalls(after)
    requires after.st.state.status == Market.Open ==> w.markets[id].st.state.status == Market.Open
    ensures FactoryOk(w.(markets := w.markets[id := after]))
  {
  }

  lemma RemoveOk(w: World, env: Env, caller: Address, id: nat)
    requires FactoryOk(w)
    ensures FactoryOk(Step(w, Factory(env, RemoveOpenMarket(caller, id))))
  {
    WithoutFacts(w.s.open, id);
  }

  lemma AdminCallOk(w: World, env: Env, op: Op)
    requires FactoryOk(w) && !op.CreateMarket? && !op.RemoveOpenMarket?
    ensures FactoryOk(Step(w, Factory(env, op)))
  {
    AdminCallLeaves(w, env, op);
    SameIndex(w, Step(w, Factory(env, op)));
  }

  lemma AdminCallLeaves(w: World, env: Env, op: Op)
    requires !op.CreateMarket? && !op.RemoveOpenMarket?
    ensures var n := Step(w, Factory(env, op));
      && n.s.count == w.s.count && n.s.registry == w.s.registry && n.s.open == w.s.open && n.markets == w.markets
      && (n.s.pendingAdmin.Some? && (w.s.pendingAdmin.Some? ==> w.nominator == Some(w.s.admin)) ==>
            n.nominator == Some(n.s.admin))
  {
  }

  lemma SameIndex(w: World, n: World)
    requires FactoryOk(w)
    requires n.s.count == w.s.count && n.s.registry == w.s.registry && n.s.open == w.s.open && n.markets == w.markets
    requires n.s.pendingAdmin.Some? ==> n.nominator == Some(n.s.admin)
    ensures FactoryOk(n)
  {
  }

  lemma StepOk(w: World, e: Event)
    requires FactoryOk(w) && w.treasury != Market.SELF
    ensures FactoryOk(Step(w, e))
  {
    match e
    case MarketCall(env, id, op, funded) => MarketCallOk(w, env, id, op, funded);
    case Factory(env, op) =>
      match op
      case CreateMarket(_, _, _, _) => CreateOk(w, env, op);
      case RemoveOpenMarket(caller, id) => RemoveOk(w, env, caller, id);
      case _ => AdminCallOk(w, env, op);
  }

  /**
   * Across any run of the factory and its markets: the registered ids are exactly 0..count-1, with
   * pairwise different salts; the open list is strictly increasing, registered, and misses no market
   * that is still open; a pending admin was nominated by the present admin; and every market keeps its
   * own books.
   */
  lemma {:induction false} FactoryBooks(
      admin: Address, oracle: Address, self: Address, treasury: Address, events: seq<Event>)
    requires treasury != Market.SELF
    ensures var w := Run(World(Fresh(admin, oracle), self, treasury, map[], None), events);
      && FactoryOk(w) && w.treasury == treasury
      && (forall a, b :: a in w.s.registry && b in w.s.registry && a != b ==> w.s.registry[a] != w.s.registry[b])
  {
    var start := World(Fresh(admin, oracle), self, treasury, map[], None);
    if events != [] {
      FactoryBooks(admin, oracle, self, treasury, events[..|events| - 1]);
      StepOk(Run(start, events[..|events| - 1]), events[|events| - 1]);
    } else {
      assert Run(start, events) == start;
    }
    var w := Run(start, events);
    forall a, b | a in w.s.registry && b in w.s.registry && a != b ensures w.s.registry[a] != w.s.registry[b] {
      if Salt(a) == Salt(b) {
        SaltInjective(a, b);
      }
    }
  }
}

/** The factory contract as an object over its storage. */
module FactoryContract {
  import opened Wrappers
  import opened Int128
  import opened Contracts
  import opened Paging
  import opened FactorySpec
  import Market = MarketSpec

  class MarketFactory {
    var admin: Address
    var pendingAdmin: Option<Address>
    var oracleWhitelist: set<Address>
    var paused: bool
    var wasmSet: bool
    var marketCount: nat
    var marketMap: map<nat, seq<nat>>
    var openMarkets: seq<nat>

    ghost function Value(): State reads this {
      State(admin, pendingAdmin, oracleWhitelist, paused, wasmSet, marketCount, marketMap, openMarkets)
    }

    ghost predicate Matches(
        before: State, env: Env, status: map<nat, Market.Status>, op: Op, error: Option<ContractError>)
      reads this
    {
      match Apply(before, env, status, op)
      case Ok(after) => error.None? && Value() == after
      case Err(e) => error == Some(e) && Value() == before
    }

    constructor (admin: Address, oracle: Address)
      ensures Value() == Fresh(admin, oracle)
    {
      this.admin := admin;
      pendingAdmin := None;
      oracleWhitelist := {oracle};
      paused := false;
      wasmSet := false;
      marketCount := 0;
      marketMap := map[];
      openMarkets := [];
    }

    method CreateMarket(env: Env, caller: Address, fight: Fight, config: Market.Config, feeOverride: Option<nat>)
      returns (r: Result<nat, ContractError>)
      modifies this
      ensures Matches(old(Value()), env, map[], Op.CreateMarket(caller, fight, config, feeOverride),
                      if r.Ok? then None else Some(r.error))
      ensures r.Ok? ==> r.value == old(marketCount)
    {
      if caller !in env.signers { return Err(Trap); }
      if paused { return Err(FactoryPaused); }
      if fight.scheduledAt <= env.now { return Err(InvalidTimeRange); }
      if |fight.fighterA| == 0 || |fight.fighterB| == 0 { return Err(InvalidMarketParameters); }
      if config.minBet == 0 { return Err(BelowMinimum); }
      if config.maxBet < config.minBet { return Err(InvalidMarketParameters); }
      match feeOverride {
        case Some(f) => if f > 1000 { return Err(InvalidMarketParameters); }
        case None => if config.feeBps > 1000 { return Err(InvalidMarketParameters); }
      }
      var marketId := marketCount;
      if marketId + 1 > U64_MAX { return Err(Trap); }
      var newCount := marketId + 1;
      if !wasmSet { return Err(WasmHashNotSet); }
      var salt := Salt(marketId);
      marketMap := marketMap[marketId := salt];
      marketCount := newCount;
      openMarkets := openMarkets + [marketId];
      return Ok(marketId);
    }

    method RemoveOpenMarket(env: Env, status: map<nat, Market.Status>, caller: Address, id: nat)
      returns (r: Result<(), ContractError>)
      modifies this
      ensures Matches(old(Value()), env, status, Op.RemoveOpenMarket(caller, id), if r.Ok? then None else Some(r.error))
    {
      if caller !in env.signers { return Err(Trap); }
      if caller != admin && caller !in oracleWhitelist { return Err(NotAdmin); }
      if id !in marketMap || id !in status { return Err(MarketNotFound); }
      if status[id] == Market.Open { return Err(MarketNotOpen); }
      var updated: seq<nat> := [];
      var i := 0;
      while i < |openMarkets|
        invariant 0 <= i <= |openMarkets|
        invariant updated == Without(openMarkets[..i], id)
      {
        assert openMarkets[..i + 1][..i] == openMarkets[..i];
        if openMarkets[i] != id {
          updated := updated + [openMarkets[i]];
        }
        i := i + 1;
      }
      assert openMarkets[..i] == openMarkets;
      openMarkets := updated;
      return Ok(());
    }

    method ListMarketIdsPage(offset: nat, limit: nat) returns (result: seq<nat>)
      requires offset <= U64_MAX && limit <= U32_MAX && |openMarkets| <= U32_MAX
      ensures result == ListMarketIds(openMarkets, offset, limit)
    {
      var cap := if limit > 100 then 100 else limit;
      var pos := offset % (U32_MAX + 1);
      result := [];
      var fetched := 0;
      while pos + fetched < |openMarkets| && fetched < cap
        invariant 0 <= fetched <= cap
        invariant fetched > 0 ==> pos + fetched <= |openMarkets|
        invariant result == Slice(openMarkets, pos, fetched)
      {
        assert pos + fetched <= U32_MAX;
        result := result + [openMarkets[pos + fetched]];
        fetched := fetched + 1;
      }
    }

    method ProposeAdmin(env: Env, currentAdmin: Address, newAdmin: Address) returns (r: Result<(), ContractError>)
      modifies this
      ensures Matches(old(Value()), env, map[], Op.ProposeAdmin(currentAdmin, newAdmin),
                      if r.Ok? then None else Some(r.error))
    {
      if currentAdmin !in env.signers { return Err(Trap); }
      if currentAdmin != admin { return Err(NotAdmin); }
      pendingAdmin := Some(newAdmin);
      return Ok(());
    }

    method AcceptAdmin(env: Env, newAdmin: Address) returns (r: Result<(), ContractError>)
      modifies this
      ensures Matches(old(Value()), env, map[], Op.AcceptAdmin(newAdmin), if r.Ok? then None else Some(r.error))
    {
      if newAdmin !in env.signers { return Err(Trap); }
      if pendingAdmin.None? { return Err(NotAdmin); }
      if newAdmin != pendingAdmin.value { return Err(NotAdmin); }
      admin := newAdmin;
      pendingAdmin := None;
      return Ok(());
    }
  }
}
