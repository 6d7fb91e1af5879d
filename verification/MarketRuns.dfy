/** What holds over whole runs of the market, whatever calls, callbacks and traps they contain. */
module MarketRuns {
  import opened Wrappers
  import opened Int128
  import opened Sets
  import opened Totals
  import opened Contracts
  import opened MarketSpec
  import opened MarketInvariant
  import opened MarketSteps
  import opened MarketMachine

  /** In every reachable state the books agree with the bets and the balance with the books. */
  lemma ReachableAccounts(factory: Address, treasury: Address, config: Config, events: seq<Event>)
    requires ValidConfig(config) && treasury != SELF
    ensures var m := Run(Start(factory, treasury, config), events); var s := m.w.st.state;
      && MachineOk(m)
      && (forall side :: Pool(s, side) == Total(m.w.st.bettors, Stakes(m.w.st.bets, side)))
      && s.totalPool == s.poolA + s.poolB + s.poolDraw
      && Distinct(m.w.st.bettors) && (forall b :: b in m.w.st.bettors <==> b in m.w.st.bets)
      && m.w.balance + AllDue(m.stack) == s.totalPool - Outflow(m.w.payments)
      && (m.stack == [] ==> m.w.balance == s.totalPool - Outflow(m.w.payments))
  {
    StartOk(factory, treasury, config);
    RunOk(Start(factory, treasury, config), events);
  }

  /** The guard flag is set exactly while a claim or refund frame is open. */
  lemma GuardExact(factory: Address, treasury: Address, config: Config, events: seq<Event>)
    requires ValidConfig(config) && treasury != SELF
    ensures var m := Run(Start(factory, treasury, config), events);
      m.w.st.claiming <==> ClaimOpen(m.stack)
    ensures var m := Run(Start(factory, treasury, config), events);
      forall env: Env, op: Op ::
        ClaimOpen(m.stack) && (op.ClaimWinnings? || op.ClaimRefund?) ==> Effects(m.w, env, op).Err?
  {
    StartOk(factory, treasury, config);
    RunOk(Start(factory, treasury, config), events);
  }

  /** No bettor occurs twice among the payments, and the claimed bettors are exactly the paid ones. */
  lemma PaidAtMostOnce(factory: Address, treasury: Address, config: Config, events: seq<Event>)
    requires ValidConfig(config) && treasury != SELF
    ensures var w := Run(Start(factory, treasury, config), events).w;
      && (forall i, j :: 0 <= i < j < |w.payments| ==> w.payments[i].bettor != w.payments[j].bettor)
      && (forall b :: Claimed(w.st, b) <==> exists p :: p in w.payments && p.bettor == b)
  {
    StartOk(factory, treasury, config);
    RunOk(Start(factory, treasury, config), events);
    var w := Run(Start(factory, treasury, config), events).w;
    assert forall p :: p in w.payments ==> PaymentOk(w.st, p);
  }

  // Stakes of zero

  /** Every side that somebody bet on has something in its pool. */
  ghost predicate SidesFunded(w: World) {
    forall b :: b in w.st.bets && |w.st.bets[b]| == 1 ==> Pool(w.st.state, w.st.bets[b][0].side) > 0
  }

  /** A bet of nothing as the first of a market whose minimum lets it in. */
  lemma ZeroStake(factory: Address, treasury: Address, config: Config) returns (events: seq<Event>)
    requires config.minBet <= 0 <= config.maxBet && LockThreshold(config) > 0
    ensures !SidesFunded(Run(Start(factory, treasury, config), events).w)
  {
    var b, start := Address(1), Start(factory, treasury, config);
    var e := Begin(PlaceBet(b, BetSide.FighterA, 0), Env(0, {b}, {}));
    events := [e];
    assert [e][..0] == [];
    assert Run(start, [e]) == Step(Run(start, []), e) == Step(start, e);
    assert PlaceBetEffect(start.w, Env(0, {b}, {}), b, BetSide.FighterA, 0).Ok?;
    assert b in Step(start, e).w.st.bets;
  }

  /**
   * In a market that takes bets at all, every side bet on is worth something in every run exactly when
   * the minimum bet is positive. The winners of a side worth nothing are owed nothing.
   */
  lemma SidesFundedIff(factory: Address, treasury: Address, config: Config)
    requires ValidConfig(config) && treasury != SELF && config.maxBet >= 0 && LockThreshold(config) > 0
    ensures (forall events :: SidesFunded(Run(Start(factory, treasury, config), events).w)) <==> config.minBet > 0
  {
    if config.minBet > 0 {
      forall events ensures SidesFunded(Run(Start(factory, treasury, config), events).w) {
        StartOk(factory, treasury, config);
        RunOk(Start(factory, treasury, config), events);
        CommittedProgressIsKept(factory, treasury, config, [], events);
        var w := Run(Start(factory, treasury, config), events).w;
        forall b | b in w.st.bets && |w.st.bets[b]| == 1 ensures Pool(w.st.state, w.st.bets[b][0].side) > 0 {
          StakeWithinPool(w.st, b);
        }
      }
    } else {
      var events := ZeroStake(factory, treasury, config);
      assert !SidesFunded(Run(Start(factory, treasury, config), events).w);
    }
  }

  // Progress is never lost once it is committed

  ghost predicate AllExtend(w: World, m: Machine) {
    Extends(w, m.w) && forall i :: 0 <= i < |m.stack| ==> Extends(w, m.stack[i].snapshot)
  }

  lemma BeginExtends(w: World, m: Machine, op: Op, env: Env)
    requires MachineOk(m) && AllExtend(w, m)
    ensures AllExtend(w, Step(m, Begin(op, env)))
  {
    var r := Effects(m.w, env, op);
    if r.Ok? {
      EffectExtends(w, m.w, env, op);
      PushExtends(w, m, r.value.world, Frame(r.value.guarded, m.w, r.value.transfers));
    }
  }

  lemma EffectExtends(w: World, v: World, env: Env, op: Op)
    requires WorldOk(v) && Extends(w, v) && Effects(v, env, op).Ok?
    ensures Extends(w, Effects(v, env, op).value.world)
  {
    EffectsGood(v, env, op);
    ExtendsTransitive(w, v, Effects(v, env, op).value.world);
  }

  lemma PushExtends(w: World, m: Machine, after: World, f: Frame)
    requires AllExtend(w, m) && Extends(w, after) && f.snapshot == m.w
    ensures AllExtend(w, Machine(after, [f] + m.stack))
  {
  }

  /** The balance and the guard flag are no part of what a later world must keep. */
  lemma ExtendsFrame(w: World, v: World, balance: int, claiming: bool)
    requires Extends(w, v)
    ensures Extends(w, v.(balance := balance, st := v.st.(claiming := claiming)))
  {
  }

  lemma MoveExtends(w: World, m: Machine)
    requires AllExtend(w, m)
    ensures AllExtend(w, Step(m, Move))
  {
    var n := Step(m, Move);
    if m.stack != [] && m.stack[0].todo != [] && n.stack != m.stack[1..] {
      ExtendsFrame(w, m.w, n.w.balance, m.w.st.claiming);
      assert n.w == m.w.(balance := n.w.balance, st := m.w.st.(claiming := m.w.st.claiming));
      assert n.stack[0].snapshot == m.stack[0].snapshot;
    }
  }

  lemma FinishExtends(w: World, m: Machine)
    requires AllExtend(w, m)
    ensures AllExtend(w, Step(m, Finish))
  {
    ExtendsFrame(w, m.w, m.w.balance, false);
    assert m.w.(st := m.w.st.(claiming := false)) == m.w.(balance := m.w.balance, st := m.w.st.(claiming := false));
  }

  lemma StepExtends(w: World, m: Machine, e: Event)
    requires MachineOk(m) && AllExtend(w, m)
    ensures AllExtend(w, Step(m, e))
  {
    match e
    case Begin(op, env) => BeginExtends(w, m, op, env);
    case Move => MoveExtends(w, m);
    case Finish => FinishExtends(w, m);
    case Abort =>
  }

  lemma {:induction false} RunExtends(w: World, m: Machine, events: seq<Event>)
    requires MachineOk(m) && AllExtend(w, m)
    ensures AllExtend(w, Run(m, events))
  {
    if events != [] {
      RunExtends(w, m, events[..|events| - 1]);
      RunOk(m, events[..|events| - 1]);
      StepExtends(w, Run(m, events[..|events| - 1]), events[|events| - 1]);
    }
  }

  /**
   * From any state with no call in flight, everything later extends it: a claim flag never reverts,
   * a payment is never forgotten, stakes and pools are frozen once betting is over, and Cancelled
   * is never left.
   */
  lemma CommittedProgressIsKept(
      factory: Address, treasury: Address, config: Config, before: seq<Event>, after: seq<Event>)
    requires ValidConfig(config) && treasury != SELF
    requires Run(Start(factory, treasury, config), before).stack == []
    ensures Extends(Run(Start(factory, treasury, config), before).w,
                    Run(Run(Start(factory, treasury, config), before), after).w)
  {
    StartOk(factory, treasury, config);
    var m := Run(Start(factory, treasury, config), before);
    RunOk(Start(factory, treasury, config), before);
    RunExtends(m.w, m, after);
  }

  // A failing call changes nothing

  /** The call opened from `m` is still in flight in `n`, with everything below it untouched. */
  ghost predicate InFlight(m: Machine, n: Machine) {
    var above := |n.stack| - |m.stack|;
    above >= 1 && n.stack[above..] == m.stack && n.stack[above - 1].snapshot == m.w
  }

  lemma StepInFlight(m: Machine, n: Machine, e: Event)
    requires InFlight(m, n) && |Step(n, e).stack| > |m.stack|
    ensures InFlight(m, Step(n, e))
  {
    var above, o := |n.stack| - |m.stack|, Step(n, e);
    var above' := |o.stack| - |m.stack|;
    if above' == above + 1 {
      assert o.stack[1..] == n.stack;
      assert o.stack[above'..] == n.stack[above..];
      assert o.stack[above' - 1] == n.stack[above - 1];
    } else if above' == above - 1 {
      assert o.stack == n.stack[1..];
      assert o.stack[above'..] == n.stack[above..];
      assert o.stack[above' - 1] == n.stack[above - 1];
    } else {
      assert o.stack[1..] == n.stack[1..];
      assert o.stack[above..] == n.stack[above..];
    }
  }

  lemma {:induction false} RunInFlight(m: Machine, n: Machine, events: seq<Event>)
    requires InFlight(m, n)
    requires forall k :: 0 <= k <= |events| ==> |Run(n, events[..k]).stack| > |m.stack|
    ensures InFlight(m, Run(n, events))
  {
    if events != [] {
      var init := events[..|events| - 1];
      forall k | 0 <= k <= |init| ensures |Run(n, init[..k]).stack| > |m.stack| {
        assert init[..k] == events[..k];
      }
      RunInFlight(m, n, init);
      assert events[..|events|] == events;
      StepInFlight(m, Run(n, init), events[|events| - 1]);
    }
  }

  /**
   * A call that fails its checks changes nothing; a call that traps later, after any writes, any
   * transfers and any nested calls, puts back exactly the state it was called in.
   */
  lemma FailedCallChangesNothing(m: Machine, op: Op, env: Env, inner: seq<Event>)
    ensures Effects(m.w, env, op).Err? ==> Step(m, Begin(op, env)) == m
    ensures var n := Step(m, Begin(op, env));
      && Effects(m.w, env, op).Ok?
      && (forall k :: 0 <= k <= |inner| ==> |Run(n, inner[..k]).stack| > |m.stack|)
      && |Run(n, inner).stack| == |m.stack| + 1
      ==> Step(Run(n, inner), Abort) == m
  {
    var n := Step(m, Begin(op, env));
    if Effects(m.w, env, op).Ok? && (forall k :: 0 <= k <= |inner| ==> |Run(n, inner[..k]).stack| > |m.stack|) {
      assert n.stack[1..] == m.stack;
      RunInFlight(m, n, inner);
    }
  }

  // Oracles

  lemma {:induction false} InjectiveSize(m: map<Address, Outcome>)
    requires forall o, p :: o in m && p in m && o != p ==> m[o] != m[p]
    ensures |m.Values| == |m|
    decreases |m|
  {
    if m != map[] {
      var o :| o in m;
      var rest := m - {o};
      assert |rest.Keys| == |m.Keys - {o}| == |m| - 1 by { assert rest.Keys == m.Keys - {o}; }
      InjectiveSize(rest);
      assert m.Values == rest.Values + {m[o]} by {
        forall v | v in m.Values ensures v in rest.Values + {m[o]} {
          var k :| k in m && m[k] == v;
          if k != o { assert k in rest && rest[k] == v; }
        }
      }
      assert m[o] !in rest.Values;
    } else {
      assert m.Values == {};
    }
  }

  /** Undecided reports name different outcomes, so there are at most four and a fifth decides. */
  lemma FifthReportDecides(w: World, env: Env, oracle: Address, report: Report)
    requires WorldOk(w)
    ensures forall o, p :: o in w.st.pending && p in w.st.pending && o != p ==> w.st.pending[o] != w.st.pending[p]
    ensures |w.st.pending| <= 4
    ensures ResolveMarketEffect(w, env, oracle, report).Ok? && |w.st.pending| == 4
      ==> ResolveMarketEffect(w, env, oracle, report).value.world.st.state.status == Resolved
  {
    var all := {Outcome.FighterA, Outcome.FighterB, Outcome.Draw, Outcome.NoContest};
    InjectiveSize(w.st.pending);
    assert w.st.pending.Values <= all;
    SubsetSize(w.st.pending.Values, all);
    if |w.st.pending| == 4 && ResolveMarketEffect(w, env, oracle, report).Ok? {
      assert w.st.pending.Values == all;
      assert report.outcome in w.st.pending.Values;
      var o :| o in w.st.pending && w.st.pending[o] == report.outcome;
      assert o in Agreeing(w.st.pending, oracle, report.outcome);
    }
  }

  /**
   * `resolve_market` resolves exactly when another oracle's stored report agrees; over a whole run
   * it does so at most once, and the two oracles are distinct and were whitelisted when they reported.
   */
  lemma DecidedOnceByTwo(factory: Address, treasury: Address, config: Config, events: seq<Event>)
    requires ValidConfig(config) && treasury != SELF
    ensures var w := Run(Start(factory, treasury, config), events).w;
      && |w.decisions| <= 1
      && (forall d :: d in w.decisions ==>
            d.first != d.second && Reported(w, d.first, d.outcome) && Reported(w, d.second, d.outcome))
      && (w.st.state.status in {Resolved, Disputed} ==> |w.decisions| == 1)
  {
    StartOk(factory, treasury, config);
    RunOk(Start(factory, treasury, config), events);
    var w := Run(Start(factory, treasury, config), events).w;
    assert forall d :: d in w.decisions ==> DecisionOk(w, d);
  }

  lemma ReportOutcome(w: World, env: Env, oracle: Address, report: Report)
    requires WorldOk(w) && ResolveMarketEffect(w, env, oracle, report).Ok?
    ensures var after := ResolveMarketEffect(w, env, oracle, report).value.world;
      && oracle in env.whitelist && oracle !in w.st.pending
      && (after.st.state.status == Resolved <==> exists o :: o in w.st.pending && w.st.pending[o] == report.outcome)
      && (after.st.state.status == Resolved ==>
            && after.st.state.outcome == Some(report.outcome) && after.st.pending == map[]
            && |after.decisions| == |w.decisions| + 1)
      && (after.st.state.status != Resolved ==>
            && after.st.state == w.st.state && after.decisions == w.decisions
            && after.st.pending == w.st.pending[oracle := report.outcome])
  {
    var agreeing := Agreeing(w.st.pending, oracle, report.outcome);
    if agreeing != {} {
      var o :| o in agreeing;
      assert o in w.st.pending && w.st.pending[o] == report.outcome;
    } else {
      forall o | o in w.st.pending ensures w.st.pending[o] != report.outcome {
        assert o !in agreeing;
      }
    }
  }

  /** Cancellation comes only before any claim of winnings: then every payment is an exact refund. */
  lemma CancelledPaysOnlyRefunds(factory: Address, treasury: Address, config: Config, events: seq<Event>)
    requires ValidConfig(config) && treasury != SELF
    ensures var m := Run(Start(factory, treasury, config), events);
      m.w.st.state.status == Cancelled ==>
        && (forall p :: p in m.w.payments ==>
              p.Refund? && Claimed(m.w.st, p.bettor) && p.amount == m.w.st.bets[p.bettor][0].amount)
        && m.w.balance + AllDue(m.stack) == Total(m.w.st.bettors, Unclaimed(m.w.st.bets))
  {
    StartOk(factory, treasury, config);
    RunOk(Start(factory, treasury, config), events);
    var m := Run(Start(factory, treasury, config), events);
    assert forall p :: p in m.w.payments ==> PaymentOk(m.w.st, p);
  }
}
