/**
 * The factory told from the calls it accepted: who is admin, who is whitelisted, what was created and
 * what is still listed, and which call is accepted next.
 */
module FactoryHistory {
  import opened Wrappers
  import opened Int128
  import opened Contracts
  import opened FactorySpec
  import opened FactoryRuns
  import Market = MarketSpec
  import MarketPayouts

  /** `statuses` is what the markets answered at the time. */
  datatype Accepted = Accepted(op: Op, env: Env, statuses: map<nat, Market.Status>)

  // What the accepted calls say, latest last

  function AdminAfter(first: Address, calls: seq<Accepted>): Address {
    if calls == [] then first
    else match calls[|calls| - 1].op
      case AcceptAdmin(candidate) => candidate
      case _ => AdminAfter(first, calls[..|calls| - 1])
  }

  function CandidateAfter(calls: seq<Accepted>): Option<Address> {
    if calls == [] then None
    else match calls[|calls| - 1].op
      case ProposeAdmin(_, candidate) => Some(candidate)
      case AcceptAdmin(_) => None
      case _ => CandidateAfter(calls[..|calls| - 1])
  }

  predicate WhitelistedAfter(first: Address, calls: seq<Accepted>, oracle: Address) {
    if calls == [] then oracle == first
    else
      var op := calls[|calls| - 1].op;
      if op.AddOracle? && op.oracle == oracle then true
      else if op.RemoveOracle? && op.oracle == oracle then false
      else WhitelistedAfter(first, calls[..|calls| - 1], oracle)
  }

  function PausedAfter(calls: seq<Accepted>): bool {
    if calls == [] then false
    else match calls[|calls| - 1].op
      case PauseFactory(_) => true
      case UnpauseFactory(_) => false
      case _ => PausedAfter(calls[..|calls| - 1])
  }

  /** The latest code hash is not the zero hash. */
  function CodeSetAfter(calls: seq<Accepted>): bool {
    if calls == [] then false
    else match calls[|calls| - 1].op
      case UpdateMarketWasm(_, zeroHash) => !zeroHash
      case _ => CodeSetAfter(calls[..|calls| - 1])
  }

  /** The creations, in order; a market's id is its place among them. */
  function Creations(calls: seq<Accepted>): seq<Op> {
    if calls == [] then []
    else
      Creations(calls[..|calls| - 1])
      + (if calls[|calls| - 1].op.CreateMarket? then [calls[|calls| - 1].op] else [])
  }

  predicate RemovedBy(calls: seq<Accepted>, id: nat) {
    exists i :: 0 <= i < |calls| && IsRemoval(calls[i].op, id)
  }

  predicate IsRemoval(op: Op, id: nat) {
    op.RemoveOpenMarket? && op.id == id
  }

  // The rules

  predicate ByAdmin(first: Address, before: seq<Accepted>, env: Env, caller: Address) {
    caller in env.signers && caller == AdminAfter(first, before)
  }

  predicate CreationAllowed(
      before: seq<Accepted>, env: Env, caller: Address, fight: Fight, config: Market.Config, feeOverride: Option<nat>)
  {
    && caller in env.signers && !PausedAfter(before) && CodeSetAfter(before)
    && env.now < fight.scheduledAt && fight.fighterA != "" && fight.fighterB != ""
    && config.minBet != 0 && config.minBet <= config.maxBet
    && (match feeOverride case None => config.feeBps <= 1000 case Some(fee) => fee <= 1000)
    && |Creations(before)| < U64_MAX
  }

  predicate Allowed(admin: Address, oracle: Address, before: seq<Accepted>, c: Accepted) {
    match c.op
    case CreateMarket(caller, fight, config, feeOverride) =>
      CreationAllowed(before, c.env, caller, fight, config, feeOverride)
    case RemoveOpenMarket(caller, id) =>
      && caller in c.env.signers
      && (caller == AdminAfter(admin, before) || WhitelistedAfter(oracle, before, caller))
      && id < |Creations(before)| && id in c.statuses && c.statuses[id] != Market.Open
    case AddOracle(caller, _) => ByAdmin(admin, before, c.env, caller)
    case RemoveOracle(caller, o) => ByAdmin(admin, before, c.env, caller) && WhitelistedAfter(oracle, before, o)
    case ProposeAdmin(caller, _) => ByAdmin(admin, before, c.env, caller)
    case AcceptAdmin(candidate) => candidate in c.env.signers && CandidateAfter(before) == Some(candidate)
    case PauseFactory(caller) => ByAdmin(admin, before, c.env, caller)
    case UnpauseFactory(caller) => ByAdmin(admin, before, c.env, caller)
    case UpdateMarketWasm(caller, _) => ByAdmin(admin, before, c.env, caller)
  }

  /** Each accepted call was allowed by those before it. */
  ghost predicate AllAllowed(admin: Address, oracle: Address, calls: seq<Accepted>) {
    forall i :: 0 <= i < |calls| ==> Allowed(admin, oracle, calls[..i], calls[i])
  }

  // The state that the calls make

  /** The market of a creation: its factory, its treasury and the terms it was created with. */
  ghost predicate MadeBy(w: World, m: Market.World, op: Op) {
    && op.CreateMarket? && m.st.factory == w.self && m.st.treasury == w.treasury
    && var made := m.st.state.config;
      && made.minBet == op.config.minBet && made.maxBet == op.config.maxBet
      && made.lockBefore == op.config.lockBefore && made.resolutionWindow == op.config.resolutionWindow
      && made.scheduledAt == op.fight.scheduledAt
      && made.feeBps == (match op.feeOverride case None => op.config.feeBps case Some(fee) => fee)
  }

  ghost predicate OfficesFit(s: State, admin: Address, oracle: Address, calls: seq<Accepted>) {
    && s.admin == AdminAfter(admin, calls) && s.pendingAdmin == CandidateAfter(calls)
    && s.paused == PausedAfter(calls) && s.wasmSet == CodeSetAfter(calls)
    && forall o :: o in s.oracles <==> WhitelistedAfter(oracle, calls, o)
  }

  ghost predicate MarketsFit(w: World, calls: seq<Accepted>) {
    && w.s.count == |Creations(calls)|
    && (forall id: nat :: id in w.s.registry <==> id < w.s.count)
    && (forall id: nat :: id in w.markets <==> id < w.s.count)
    && (forall id: nat :: id < w.s.count ==> MadeBy(w, w.markets[id], Creations(calls)[id]))
  }

  /** A market is listed from its creation to its removal. */
  ghost predicate ListFits(s: State, calls: seq<Accepted>) {
    && (forall id: nat :: id in s.open <==> id < s.count && !RemovedBy(calls, id))
    && (forall id: nat :: RemovedBy(calls, id) ==> id < s.count)
  }

  ghost predicate HistoryFits(w: World, admin: Address, oracle: Address, calls: seq<Accepted>) {
    && OfficesFit(w.s, admin, oracle, calls)
    && MarketsFit(w, calls)
    && ListFits(w.s, calls)
    && AllAllowed(admin, oracle, calls)
  }

  /** In a state that its accepted calls made, a call is accepted exactly when they allow it. */
  lemma ApplyOkIff(w: World, admin: Address, oracle: Address, calls: seq<Accepted>, env: Env, op: Op)
    requires OfficesFit(w.s, admin, oracle, calls) && MarketsFit(w, calls)
    ensures Apply(w.s, env, Statuses(w.markets), op).Ok?
       <==> Allowed(admin, oracle, calls, Accepted(op, env, Statuses(w.markets)))
  {
  }

  /** What each error says of a call. */
  predicate Refused(admin: Address, oracle: Address, before: seq<Accepted>, c: Accepted, e: ContractError) {
    match e
    case FactoryPaused => c.op.CreateMarket? && PausedAfter(before)
    case InvalidTimeRange => c.op.CreateMarket? && c.op.fight.scheduledAt <= c.env.now
    case InvalidMarketParameters =>
      c.op.CreateMarket? &&
      ( || c.op.fight.fighterA == "" || c.op.fight.fighterB == "" || c.op.config.maxBet < c.op.config.minBet
        || (match c.op.feeOverride case None => c.op.config.feeBps > 1000 case Some(fee) => fee > 1000))
    case BelowMinimum => c.op.CreateMarket? && c.op.config.minBet == 0
    case WasmHashNotSet => c.op.CreateMarket? && !CodeSetAfter(before)
    case MarketNotFound => c.op.RemoveOpenMarket? && (c.op.id >= |Creations(before)| || c.op.id !in c.statuses)
    case MarketNotOpen =>
      c.op.RemoveOpenMarket? && c.op.id in c.statuses && c.statuses[c.op.id] == Market.Open
    case OracleNotWhitelisted => c.op.RemoveOracle? && !WhitelistedAfter(oracle, before, c.op.oracle)
    case NotAdmin => NotTheAdmin(admin, oracle, before, c.op)
    case Trap => true
    case _ => false
  }

  predicate NotTheAdmin(admin: Address, oracle: Address, before: seq<Accepted>, op: Op) {
    match op
    case CreateMarket(_, _, _, _) => false
    case RemoveOpenMarket(caller, _) => caller != AdminAfter(admin, before) && !WhitelistedAfter(oracle, before, caller)
    case AcceptAdmin(candidate) => CandidateAfter(before) != Some(candidate)
    case AddOracle(caller, _) => caller != AdminAfter(admin, before)
    case RemoveOracle(caller, _) => caller != AdminAfter(admin, before)
    case ProposeAdmin(caller, _) => caller != AdminAfter(admin, before)
    case PauseFactory(caller) => caller != AdminAfter(admin, before)
    case UnpauseFactory(caller) => caller != AdminAfter(admin, before)
    case UpdateMarketWasm(caller, _) => caller != AdminAfter(admin, before)
  }

  lemma ErrorTells(w: World, admin: Address, oracle: Address, calls: seq<Accepted>, env: Env, op: Op)
    requires OfficesFit(w.s, admin, oracle, calls) && MarketsFit(w, calls)
    ensures var r := Apply(w.s, env, Statuses(w.markets), op);
      r.Err? ==> Refused(admin, oracle, calls, Accepted(op, env, Statuses(w.markets)), r.error)
  {
    if op.CreateMarket? {
      CreationErrorTells(w, admin, oracle, calls, env, op);
    } else if op.RemoveOpenMarket? {
      RemovalErrorTells(w, admin, oracle, calls, env, op);
    } else {
      OfficeErrorTells(w.s, admin, oracle, calls, Accepted(op, env, Statuses(w.markets)));
    }
  }

  lemma CreationErrorTells(w: World, admin: Address, oracle: Address, calls: seq<Accepted>, env: Env, op: Op)
    requires OfficesFit(w.s, admin, oracle, calls) && op.CreateMarket?
    ensures var failed := CreateCheck(w.s, env, op.caller, op.fight, op.config, op.feeOverride);
      failed.Some? ==> Refused(admin, oracle, calls, Accepted(op, env, Statuses(w.markets)), failed.value)
  {
  }

  lemma RemovalErrorTells(w: World, admin: Address, oracle: Address, calls: seq<Accepted>, env: Env, op: Op)
    requires OfficesFit(w.s, admin, oracle, calls) && MarketsFit(w, calls) && op.RemoveOpenMarket?
    ensures var r := Apply(w.s, env, Statuses(w.markets), op);
      r.Err? ==> Refused(admin, oracle, calls, Accepted(op, env, Statuses(w.markets)), r.error)
  {
  }

  lemma OfficeErrorTells(s: State, admin: Address, oracle: Address, calls: seq<Accepted>, c: Accepted)
    requires OfficesFit(s, admin, oracle, calls) && !c.op.CreateMarket? && !c.op.RemoveOpenMarket?
    ensures var r := Apply(s, c.env, c.statuses, c.op); r.Err? ==> Refused(admin, oracle, calls, c, r.error)
  {
  }

  // One more call

  lemma MoreRemoved(calls: seq<Accepted>, c: Accepted, id: nat)
    ensures RemovedBy(calls + [c], id) <==> RemovedBy(calls, id) || IsRemoval(c.op, id)
  {
    var after := calls + [c];
    if IsRemoval(c.op, id) {
      assert IsRemoval(after[|calls|].op, id);
    }
    if i :| 0 <= i < |calls| && IsRemoval(calls[i].op, id) {
      assert IsRemoval(after[i].op, id);
    }
  }

  lemma MoreAllowed(admin: Address, oracle: Address, calls: seq<Accepted>, c: Accepted)
    requires AllAllowed(admin, oracle, calls) && Allowed(admin, oracle, calls, c)
    ensures AllAllowed(admin, oracle, calls + [c])
  {
    var after := calls + [c];
    forall i | 0 <= i < |after| ensures Allowed(admin, oracle, after[..i], after[i]) {
      if i < |calls| {
        assert after[..i] == calls[..i];
      } else {
        assert after[..i] == calls;
      }
    }
  }

  lemma OfficesMove(w: World, admin: Address, oracle: Address, calls: seq<Accepted>, c: Accepted)
    requires OfficesFit(w.s, admin, oracle, calls) && Apply(w.s, c.env, Statuses(w.markets), c.op).Ok?
    ensures OfficesFit(Step(w, Factory(c.env, c.op)).s, admin, oracle, calls + [c])
  {
    var statuses := Statuses(w.markets);
    StepIsApply(w, c.env, c.op);
    SwitchesMove(w.s, admin, oracle, calls, c, statuses);
    forall o
      ensures o in Apply(w.s, c.env, statuses, c.op).value.oracles <==> WhitelistedAfter(oracle, calls + [c], o)
    {
      WhitelistMoves(w.s, admin, oracle, calls, c, statuses, o);
    }
  }

  lemma StepIsApply(w: World, env: Env, op: Op)
    requires Apply(w.s, env, Statuses(w.markets), op).Ok?
    ensures Step(w, Factory(env, op)).s == Apply(w.s, env, Statuses(w.markets), op).value
  {
  }

  lemma SwitchesMove(
      s: State, admin: Address, oracle: Address, calls: seq<Accepted>, c: Accepted, statuses: map<nat, Market.Status>)
    requires OfficesFit(s, admin, oracle, calls) && Apply(s, c.env, statuses, c.op).Ok?
    ensures var n, after := Apply(s, c.env, statuses, c.op).value, calls + [c];
      && n.admin == AdminAfter(admin, after) && n.pendingAdmin == CandidateAfter(after)
      && n.paused == PausedAfter(after) && n.wasmSet == CodeSetAfter(after)
  {
    assert (calls + [c])[..|calls|] == calls;
  }

  lemma WhitelistMoves(
      s: State, admin: Address, oracle: Address, calls: seq<Accepted>, c: Accepted, statuses: map<nat, Market.Status>,
      o: Address)
    requires OfficesFit(s, admin, oracle, calls) && Apply(s, c.env, statuses, c.op).Ok?
    ensures o in Apply(s, c.env, statuses, c.op).value.oracles <==> WhitelistedAfter(oracle, calls + [c], o)
  {
    assert (calls + [c])[..|calls|] == calls;
  }

  lemma MarketsMove(w: World, calls: seq<Accepted>, c: Accepted)
    requires MarketsFit(w, calls) && Apply(w.s, c.env, Statuses(w.markets), c.op).Ok?
    ensures MarketsFit(Step(w, Factory(c.env, c.op)), calls + [c])
  {
    assert (calls + [c])[..|calls|] == calls;
    if c.op.CreateMarket? {
      CreatesOne(w, c.env, c.op);
      var made := Market.Init(w.self, w.treasury, MarketConfig(c.op.fight, c.op.config, c.op.feeOverride));
      assert Creations(calls + [c]) == Creations(calls) + [c.op];
      MarketsGrow(w, made, calls, calls + [c], c.op);
    } else {
      OtherLeaves(w, c.env, c.op);
      assert Creations(calls + [c]) == Creations(calls);
      MarketsStay(w, Step(w, Factory(c.env, c.op)), calls, calls + [c]);
    }
  }

  lemma MarketsGrow(w: World, made: Market.World, calls: seq<Accepted>, after: seq<Accepted>, op: Op)
    requires MarketsFit(w, calls) && MadeBy(w, made, op) && Creations(after) == Creations(calls) + [op]
    ensures MarketsFit(Grown(w, made), after)
  {
    var n := Grown(w, made);
    forall id: nat | id < n.s.count ensures MadeBy(n, n.markets[id], Creations(after)[id]) {
      if id < w.s.count {
        assert MadeBy(w, w.markets[id], Creations(calls)[id]);
      }
    }
  }

  lemma OtherLeaves(w: World, env: Env, op: Op)
    requires !op.CreateMarket?
    ensures var n := Step(w, Factory(env, op));
      && n.markets == w.markets && n.s.count == w.s.count && n.s.registry == w.s.registry
      && n.self == w.self && n.treasury == w.treasury
      && (!op.RemoveOpenMarket? ==> n.s.open == w.s.open)
  {
  }

  lemma MarketsStay(w: World, n: World, calls: seq<Accepted>, after: seq<Accepted>)
    requires MarketsFit(w, calls) && Creations(after) == Creations(calls)
    requires n.markets == w.markets && n.s.count == w.s.count && n.s.registry == w.s.registry
    requires n.self == w.self && n.treasury == w.treasury
    ensures MarketsFit(n, after)
  {
    forall id: nat | id < n.s.count ensures MadeBy(n, n.markets[id], Creations(after)[id]) {
      assert MadeBy(w, w.markets[id], Creations(calls)[id]);
    }
  }

  lemma ListMoves(w: World, calls: seq<Accepted>, c: Accepted)
    requires FactoryOk(w) && ListFits(w.s, calls) && Apply(w.s, c.env, Statuses(w.markets), c.op).Ok?
    ensures ListFits(Step(w, Factory(c.env, c.op)).s, calls + [c])
  {
    var n := Step(w, Factory(c.env, c.op));
    if c.op.CreateMarket? {
      CreatesOne(w, c.env, c.op);
      ListChanges(w.s, n.s, calls, c);
    } else if c.op.RemoveOpenMarket? {
      Removes(w, c.env, c.op);
      WithoutFacts(w.s.open, c.op.id);
      ListChanges(w.s, n.s, calls, c);
    } else {
      OtherLeaves(w, c.env, c.op);
      ListChanges(w.s, n.s, calls, c);
    }
  }

  lemma Removes(w: World, env: Env, op: Op)
    requires FactoryOk(w) && op.RemoveOpenMarket? && Apply(w.s, env, Statuses(w.markets), op).Ok?
    ensures op.id < w.s.count && Step(w, Factory(env, op)).s == w.s.(open := Without(w.s.open, op.id))
  {
  }

  /** The list gains the next number, loses the removed one, or stays. */
  lemma ListChanges(s: State, n: State, calls: seq<Accepted>, c: Accepted)
    requires ListFits(s, calls)
    requires if c.op.CreateMarket? then n.count == s.count + 1 && n.open == s.open + [s.count] else n.count == s.count
    requires c.op.RemoveOpenMarket? ==> c.op.id < s.count && forall k :: k in n.open <==> k in s.open && k != c.op.id
    requires !c.op.CreateMarket? && !c.op.RemoveOpenMarket? ==> n.open == s.open
    ensures ListFits(n, calls + [c])
  {
    forall id: nat ensures RemovedBy(calls + [c], id) <==> RemovedBy(calls, id) || IsRemoval(c.op, id) {
      MoreRemoved(calls, c, id);
    }
  }

  /** A market's own calls change no terms. */
  lemma MarketCallFits(
      w: World, admin: Address, oracle: Address, calls: seq<Accepted>, env: Env, id: nat, op: Market.Op, funded: bool)
    requires HistoryFits(w, admin, oracle, calls)
    ensures HistoryFits(Step(w, MarketCall(env, id, op, funded)), admin, oracle, calls)
  {
    var n := Step(w, MarketCall(env, id, op, funded));
    if id in w.markets {
      var marketEnv := Market.Env(env.now, env.signers, w.s.oracles);
      NeverReopens(w.markets[id], marketEnv, op, funded);
      SameParties(w.markets[id], marketEnv, op, funded);
    }
    forall i: nat | i < n.s.count ensures MadeBy(n, n.markets[i], Creations(calls)[i]) {
      assert MadeBy(w, w.markets[i], Creations(calls)[i]);
    }
  }

  lemma SameParties(m: Market.World, env: Market.Env, op: Market.Op, funded: bool)
    ensures var after := MarketPayouts.Call(m, env, op, funded).0;
      after.st.factory == m.st.factory && after.st.treasury == m.st.treasury
  {
  }

  /** The calls a run accepts. */
  function AcceptedCalls(start: World, events: seq<Event>): seq<Accepted> {
    if events == [] then []
    else
      var before, e := events[..|events| - 1], events[|events| - 1];
      var w := Run(start, before);
      AcceptedCalls(start, before)
      + (if e.Factory? && Apply(w.s, e.env, Statuses(w.markets), e.call).Ok?
         then [Accepted(e.call, e.env, Statuses(w.markets))] else [])
  }

  function Begun(admin: Address, oracle: Address, self: Address, treasury: Address): World {
    World(Fresh(admin, oracle), self, treasury, map[], None)
  }

  /** In every run the factory's state and its markets' terms are what the accepted calls make them. */
  lemma {:induction false} StateIsHistory(
      admin: Address, oracle: Address, self: Address, treasury: Address, events: seq<Event>)
    requires treasury != Market.SELF
    ensures var start := Begun(admin, oracle, self, treasury);
      HistoryFits(Run(start, events), admin, oracle, AcceptedCalls(start, events))
  {
    var start := Begun(admin, oracle, self, treasury);
    if events != [] {
      var before, e := events[..|events| - 1], events[|events| - 1];
      StateIsHistory(admin, oracle, self, treasury, before);
      FactoryBooks(admin, oracle, self, treasury, before);
      var w, calls := Run(start, before), AcceptedCalls(start, before);
      match e
      case MarketCall(env, id, op, funded) =>
        assert AcceptedCalls(start, events) == calls;
        MarketCallFits(w, admin, oracle, calls, env, id, op, funded);
      case Factory(env, op) =>
        if Apply(w.s, env, Statuses(w.markets), op).Ok? {
          FactoryCallFits(w, admin, oracle, calls, env, op);
        } else {
          assert AcceptedCalls(start, events) == calls;
        }
    }
  }

  lemma FactoryCallFits(w: World, admin: Address, oracle: Address, calls: seq<Accepted>, env: Env, op: Op)
    requires FactoryOk(w) && HistoryFits(w, admin, oracle, calls) && Apply(w.s, env, Statuses(w.markets), op).Ok?
    ensures HistoryFits(Step(w, Factory(env, op)), admin, oracle, calls + [Accepted(op, env, Statuses(w.markets))])
  {
    ApplyOkIff(w, admin, oracle, calls, env, op);
    var c := Accepted(op, env, Statuses(w.markets));
    MoreAllowed(admin, oracle, calls, c);
    OfficesMove(w, admin, oracle, calls, c);
    MarketsMove(w, calls, c);
    ListMoves(w, calls, c);
  }

  /** After any run a call is accepted exactly when the accepted calls, and for a removal its market, allow it. */
  lemma AcceptedIff(
      admin: Address, oracle: Address, self: Address, treasury: Address, events: seq<Event>, env: Env, op: Op)
    requires treasury != Market.SELF
    ensures var start := Begun(admin, oracle, self, treasury); var w := Run(start, events);
      Apply(w.s, env, Statuses(w.markets), op).Ok?
      <==> Allowed(admin, oracle, AcceptedCalls(start, events), Accepted(op, env, Statuses(w.markets)))
  {
    var start := Begun(admin, oracle, self, treasury);
    StateIsHistory(admin, oracle, self, treasury, events);
    ApplyOkIff(Run(start, events), admin, oracle, AcceptedCalls(start, events), env, op);
  }

  /** After any run a call that is refused with an error gives a reason that is true of it. */
  lemma RefusalsTellWhy(
      admin: Address, oracle: Address, self: Address, treasury: Address, events: seq<Event>, env: Env, op: Op)
    requires treasury != Market.SELF
    ensures var start := Begun(admin, oracle, self, treasury);
      var w, calls := Run(start, events), AcceptedCalls(start, events);
      var r := Apply(w.s, env, Statuses(w.markets), op);
      r.Err? ==> Refused(admin, oracle, calls, Accepted(op, env, Statuses(w.markets)), r.error)
  {
    var start := Begun(admin, oracle, self, treasury);
    StateIsHistory(admin, oracle, self, treasury, events);
    ErrorTells(Run(start, events), admin, oracle, AcceptedCalls(start, events), env, op);
  }

  // The handover

  /** The proposal of the standing admin that names the candidate, with no other proposal or handover since. */
  ghost predicate StandingProposal(first: Address, calls: seq<Accepted>, j: nat, candidate: Address) {
    && j < |calls| && calls[j].op == ProposeAdmin(AdminAfter(first, calls), candidate)
    && AdminAfter(first, calls) in calls[j].env.signers
    && forall k :: j < k < |calls| ==> !calls[k].op.ProposeAdmin? && !calls[k].op.AcceptAdmin?
  }

  lemma ProposalStands(first: Address, before: seq<Accepted>, c: Accepted, j: nat, candidate: Address)
    requires StandingProposal(first, before, j, candidate) && !c.op.ProposeAdmin? && !c.op.AcceptAdmin?
    ensures StandingProposal(first, before + [c], j, candidate)
  {
    assert (before + [c])[..|before|] == before;
  }

  lemma {:induction false} CandidateWasProposed(admin: Address, oracle: Address, calls: seq<Accepted>)
    requires AllAllowed(admin, oracle, calls) && CandidateAfter(calls).Some?
    ensures exists j :: StandingProposal(admin, calls, j, CandidateAfter(calls).value)
  {
    var n := |calls| - 1;
    var before, c := calls[..n], calls[n];
    if c.op.ProposeAdmin? {
      assert Allowed(admin, oracle, before, c);
      assert StandingProposal(admin, calls, n, CandidateAfter(calls).value);
    } else {
      forall i | 0 <= i < |before| ensures Allowed(admin, oracle, before[..i], before[i]) {
        assert before[..i] == calls[..i];
      }
      CandidateWasProposed(admin, oracle, before);
      var j :| StandingProposal(admin, before, j, CandidateAfter(before).value);
      assert calls == before + [c];
      ProposalStands(admin, before, c, j, CandidateAfter(before).value);
    }
  }

  lemma AdminChange(w: World, e: Event)
    requires Step(w, e).s.admin != w.s.admin
    ensures e.Factory? && e.call == AcceptAdmin(Step(w, e).s.admin) && Step(w, e).s.admin in e.env.signers
    ensures w.s.pendingAdmin == Some(Step(w, e).s.admin)
  {
  }

  /**
   * The admin changes only when the candidate that the previous admin's latest proposal named signs an
   * acceptance.
   */
  lemma HandoverIsNamed(
      admin: Address, oracle: Address, self: Address, treasury: Address, events: seq<Event>, e: Event)
    requires treasury != Market.SELF
    requires var w := Run(Begun(admin, oracle, self, treasury), events); Step(w, e).s.admin != w.s.admin
    ensures var start := Begun(admin, oracle, self, treasury); var w := Run(start, events);
      && var successor := Step(w, e).s.admin;
      && e.Factory? && e.call == AcceptAdmin(successor) && successor in e.env.signers
      && w.s.admin == AdminAfter(admin, AcceptedCalls(start, events))
      && exists j :: StandingProposal(admin, AcceptedCalls(start, events), j, successor)
  {
    var start := Begun(admin, oracle, self, treasury);
    AdminChange(Run(start, events), e);
    StateIsHistory(admin, oracle, self, treasury, events);
    CandidateWasProposed(admin, oracle, AcceptedCalls(start, events));
  }
}
