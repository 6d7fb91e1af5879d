/** What the token actually moved in a run, recipient by recipient, against what the payments record. */
module MarketTransfers {
  import opened Wrappers
  import opened Contracts
  import opened MarketSpec
  import opened MarketInvariant
  import opened MarketSteps
  import opened MarketMachine
  import opened MarketPayouts

  /** `sent` are the transfers made and not undone; `saved[i]` is what it was when frame i was opened. */
  datatype Tracked = Tracked(m: Machine, sent: seq<Transfer>, saved: seq<seq<Transfer>>)

  predicate Paired(t: Tracked) {
    |t.saved| == |t.m.stack|
  }

  function Undone(t: Tracked): Tracked
    requires Paired(t) && t.m.stack != []
  {
    Tracked(Rollback(t.m), t.saved[0], t.saved[1..])
  }

  /** The machine's step, with the token's log beside it. A trap undoes the transfers made since its call. */
  function TrackedStep(t: Tracked, e: Event): (n: Tracked)
    requires Paired(t)
    ensures Paired(n) && n.m == Step(t.m, e)
  {
    match e
    case Begin(op, env) =>
      if Effects(t.m.w, env, op).Err? then t else Tracked(Step(t.m, e), t.sent, [t.sent] + t.saved)
    case Move =>
      if t.m.stack == [] || t.m.stack[0].todo == [] then t
      else
        var next := t.m.stack[0].todo[0];
        if next.Out? && t.m.w.balance < next.amount then Undone(t)
        else Tracked(Step(t.m, e), t.sent + [next], t.saved)
    case Finish =>
      if t.m.stack == [] || t.m.stack[0].todo != [] then t else Tracked(Step(t.m, e), t.sent, t.saved[1..])
    case Abort =>
      if t.m.stack == [] then t else Undone(t)
  }

  function TrackedRun(m: Machine, events: seq<Event>): (t: Tracked)
    requires m.stack == []
    ensures Paired(t) && t.m == Run(m, events)
  {
    if events == [] then Tracked(m, [], [])
    else TrackedStep(TrackedRun(m, events[..|events| - 1]), events[|events| - 1])
  }

  /** What an address has been sent. */
  function Received(transfers: seq<Transfer>, who: Address): int {
    if transfers == [] then 0
    else
      var last := transfers[|transfers| - 1];
      Received(transfers[..|transfers| - 1], who) + (if last.Out? && last.to == who then last.amount else 0)
  }

  /** What open calls will still send it. */
  function Awaiting(stack: seq<Frame>, who: Address): int {
    if stack == [] then 0 else Received(stack[0].todo, who) + Awaiting(stack[1..], who)
  }

  /** What the recorded payments give it: its own winnings or refund, and to the treasury every fee. */
  function Owed(payments: seq<Payment>, treasury: Address, who: Address): int {
    if payments == [] then 0
    else
      var p := payments[|payments| - 1];
      Owed(payments[..|payments| - 1], treasury, who)
      + (if p.bettor == who then p.amount else 0)
      + (if p.Winnings? && who == treasury then p.fee else 0)
  }

  lemma {:induction false} ReceivedConcat(a: seq<Transfer>, b: seq<Transfer>, who: Address)
    ensures Received(a + b, who) == Received(a, who) + Received(b, who)
  {
    if b == [] {
      assert a + b == a;
    } else {
      assert (a + b)[..|a + b| - 1] == a + b[..|b| - 1];
      ReceivedConcat(a, b[..|b| - 1], who);
    }
  }

  lemma ReceivedPositiveOut(to: Address, amount: int, who: Address)
    requires amount >= 0
    ensures Received(PositiveOut(to, amount), who) == if to == who then amount else 0
  {
    assert amount > 0 ==> PositiveOut(to, amount)[..0] == [];
  }

  lemma OwedAppend(payments: seq<Payment>, p: Payment, treasury: Address, who: Address)
    ensures Owed(payments + [p], treasury, who)
         == Owed(payments, treasury, who) + (if p.bettor == who then p.amount else 0)
          + (if p.Winnings? && who == treasury then p.fee else 0)
  {
    assert (payments + [p])[..|payments|] == payments;
  }

  /** A call asks the token for exactly what the payments it records give to each address. */
  lemma EffectOwes(w: World, env: Env, op: Op, who: Address)
    requires WorldOk(w) && Effects(w, env, op).Ok?
    ensures var e := Effects(w, env, op).value;
      && e.world.st.treasury == w.st.treasury
      && Owed(e.world.payments, w.st.treasury, who)
         == Owed(w.payments, w.st.treasury, who) + Received(e.transfers, who)
  {
    match op
    case ClaimWinnings(bettor) =>
      ClaimWinningsGood(w, env, bettor);
      ClaimTransfers(w, env, bettor, who);
    case ClaimRefund(bettor) =>
      ClaimRefundGood(w, env, bettor);
      RefundTransfers(w, env, bettor, who);
    case PlaceBet(bettor, _, amount) => assert [In(bettor, amount)][..0] == [];
    case _ =>
  }

  lemma ClaimTransfers(w: World, env: Env, bettor: Address, who: Address)
    requires WorldOk(w) && ClaimWinningsEffect(w, env, bettor).Ok?
    ensures var e := ClaimWinningsEffect(w, env, bettor).value;
      Owed(e.world.payments, w.st.treasury, who)
      == Owed(w.payments, w.st.treasury, who) + Received(e.transfers, who)
  {
    ClaimWinningsGood(w, env, bettor);
    PayoutBounds(w.st, bettor);
    PoolsNonNegative(w.st);
    FeeBounds(w.st.state);
    var e, fee, payout := ClaimWinningsEffect(w, env, bettor).value, Fee(w.st.state), Payout(w.st, bettor);
    WinningsTransfers(w, env, bettor);
    OwedAppend(w.payments, Winnings(bettor, payout, fee), w.st.treasury, who);
    ReceivedConcat(PositiveOut(w.st.treasury, fee), PositiveOut(bettor, payout), who);
    ReceivedPositiveOut(w.st.treasury, fee, who);
    ReceivedPositiveOut(bettor, payout, who);
  }

  lemma WinningsTransfers(w: World, env: Env, bettor: Address)
    requires WorldOk(w) && ClaimWinningsEffect(w, env, bettor).Ok?
    ensures bettor in w.st.bets && |w.st.bets[bettor]| == 1
    ensures ClaimWinningsEffect(w, env, bettor).value.transfers
         == PositiveOut(w.st.treasury, Fee(w.st.state)) + PositiveOut(bettor, Payout(w.st, bettor))
  {
    ClaimWinningsGood(w, env, bettor);
    var p := ClaimWinningsEffect(w, env, bettor).value.world.payments[|w.payments|];
    assert p == Winnings(bettor, Payout(w.st, bettor), Fee(w.st.state));
  }

  lemma RefundTransfers(w: World, env: Env, bettor: Address, who: Address)
    requires WorldOk(w) && ClaimRefundEffect(w, env, bettor).Ok?
    ensures var e := ClaimRefundEffect(w, env, bettor).value;
      Owed(e.world.payments, w.st.treasury, who)
      == Owed(w.payments, w.st.treasury, who) + Received(e.transfers, who)
  {
    ClaimRefundGood(w, env, bettor);
    var e, stake := ClaimRefundEffect(w, env, bettor).value, w.st.bets[bettor][0].amount;
    assert e.world.payments[|w.payments|] == Refund(bettor, stake);
    OwedAppend(w.payments, Refund(bettor, stake), w.st.treasury, who);
    ReceivedPositiveOut(bettor, stake, who);
  }

  // The invariant over runs

  ghost predicate Settles(t: Tracked, treasury: Address, who: Address) {
    Received(t.sent, who) + Awaiting(t.m.stack, who) == Owed(t.m.w.payments, treasury, who)
  }

  /** It also holds of what each open frame would roll back to. */
  ghost predicate TrackedOk(t: Tracked, treasury: Address, who: Address)
    requires Paired(t)
    decreases |t.m.stack|
  {
    && t.m.w.st.treasury == treasury
    && Settles(t, treasury, who)
    && (t.m.stack != [] ==> TrackedOk(Undone(t), treasury, who))
  }

  lemma BeginTracked(t: Tracked, op: Op, env: Env, treasury: Address, who: Address)
    requires Paired(t) && MachineOk(t.m) && TrackedOk(t, treasury, who)
    ensures TrackedOk(TrackedStep(t, Begin(op, env)), treasury, who)
  {
    var n := TrackedStep(t, Begin(op, env));
    if Effects(t.m.w, env, op).Ok? {
      EffectOwes(t.m.w, env, op, who);
      assert n.m.stack[1..] == t.m.stack && n.saved[1..] == t.saved;
      assert Undone(n) == t;
    }
  }

  lemma MoveTracked(t: Tracked, treasury: Address, who: Address)
    requires Paired(t) && TrackedOk(t, treasury, who)
    ensures TrackedOk(TrackedStep(t, Move), treasury, who)
  {
    var n := TrackedStep(t, Move);
    if t.m.stack != [] && t.m.stack[0].todo != [] {
      var todo := t.m.stack[0].todo;
      if !(todo[0].Out? && t.m.w.balance < todo[0].amount) {
        assert todo == [todo[0]] + todo[1..];
        ReceivedConcat([todo[0]], todo[1..], who);
        ReceivedConcat(t.sent, [todo[0]], who);
        assert n.m.stack[1..] == t.m.stack[1..];
        assert Undone(n) == Undone(t);
      }
    }
  }

  lemma FinishTracked(t: Tracked, treasury: Address, who: Address)
    requires Paired(t) && TrackedOk(t, treasury, who)
    ensures TrackedOk(TrackedStep(t, Finish), treasury, who)
  {
    var n := TrackedStep(t, Finish);
    if t.m.stack != [] && t.m.stack[0].todo == [] {
      assert TrackedOk(Undone(t), treasury, who);
      if n.m.stack != [] {
        assert Undone(n) == Undone(Undone(t));
      }
    }
  }

  lemma {:induction false} RunTracked(m: Machine, events: seq<Event>, treasury: Address, who: Address)
    requires MachineOk(m) && m.stack == [] && m.w.payments == [] && m.w.st.treasury == treasury
    ensures TrackedOk(TrackedRun(m, events), treasury, who)
  {
    if events != [] {
      var before, e := events[..|events| - 1], events[|events| - 1];
      RunTracked(m, before, treasury, who);
      RunOk(m, before);
      var t := TrackedRun(m, before);
      match e
      case Begin(op, env) => BeginTracked(t, op, env, treasury, who);
      case Move => MoveTracked(t, treasury, who);
      case Finish => FinishTracked(t, treasury, who);
      case Abort =>
    }
  }

  /** An address no payment names is owed nothing; one named once is owed that payment. */
  lemma {:induction false} OwedToBettor(payments: seq<Payment>, treasury: Address, b: Address)
    requires b != treasury
    requires forall i, j :: 0 <= i < j < |payments| ==> payments[i].bettor != payments[j].bettor
    ensures (forall p :: p in payments ==> p.bettor != b) ==> Owed(payments, treasury, b) == 0
    ensures forall p :: p in payments && p.bettor == b ==> Owed(payments, treasury, b) == p.amount
  {
    if payments != [] {
      var before, last := payments[..|payments| - 1], payments[|payments| - 1];
      OwedToBettor(before, treasury, b);
      assert forall p :: p in payments <==> p in before || p == last;
      if last.bettor == b {
        forall p | p in before ensures p.bettor != b {
          var i :| 0 <= i < |before| && before[i] == p;
          assert payments[i].bettor != payments[|before|].bettor;
        }
      }
    }
  }

  /**
   * In every run, nested calls and traps included, what each address has received, with what open calls
   * still send it, is what the payments give it. So a bettor other than the treasury has its one
   * payment if it has claimed and nothing otherwise.
   */
  lemma ReceivedIsPaid(factory: Address, treasury: Address, config: Config, events: seq<Event>, who: Address)
    requires ValidConfig(config) && treasury != SELF
    ensures var t := TrackedRun(Start(factory, treasury, config), events);
      var got := Received(t.sent, who) + Awaiting(t.m.stack, who);
      && t.m == Run(Start(factory, treasury, config), events)
      && got == Owed(t.m.w.payments, treasury, who)
      && (who != treasury && !Claimed(t.m.w.st, who) ==> got == 0)
      && (who != treasury ==> forall p :: p in t.m.w.payments && p.bettor == who ==> got == p.amount)
  {
    var start := Start(factory, treasury, config);
    StartOk(factory, treasury, config);
    RunTracked(start, events, treasury, who);
    RunOk(start, events);
    var w := Run(start, events).w;
    assert forall p :: p in w.payments ==> PaymentOk(w.st, p);
    if who != treasury {
      OwedToBettor(w.payments, treasury, who);
    }
  }

  // Between calls

  /** The contract's balance is never negative, nor would be after any rollback. */
  ghost predicate BalancesOk(m: Machine)
    decreases |m.stack|
  {
    && m.w.balance >= 0
    && (m.stack != [] ==>
          && (forall x :: x in m.stack[0].todo && x.In? ==> x.amount >= 0)
          && BalancesOk(Rollback(m)))
  }

  lemma BeginBalances(m: Machine, op: Op, env: Env)
    requires MachineOk(m) && BalancesOk(m)
    ensures BalancesOk(Step(m, Begin(op, env)))
  {
    var n := Step(m, Begin(op, env));
    if Effects(m.w, env, op).Ok? {
      BetsPayIn(m.w, env, op);
      EffectsGood(m.w, env, op);
      assert n.stack[1..] == m.stack && Rollback(n) == m;
    }
  }

  lemma MoveBalances(m: Machine)
    requires BalancesOk(m)
    ensures BalancesOk(Step(m, Move))
  {
    var n := Step(m, Move);
    if m.stack != [] && m.stack[0].todo != [] {
      assert m.stack[0].todo[0] in m.stack[0].todo;
      if n != Rollback(m) {
        assert n.stack[1..] == m.stack[1..] && Rollback(n) == Rollback(m);
      }
    }
  }

  lemma FinishBalances(m: Machine)
    requires BalancesOk(m)
    ensures BalancesOk(Step(m, Finish))
  {
    var n := Step(m, Finish);
    if m.stack != [] && m.stack[0].todo == [] {
      assert BalancesOk(Rollback(m));
      if n.stack != [] {
        assert Rollback(n) == Rollback(Rollback(m));
      }
    }
  }

  lemma {:induction false} RunBalances(m: Machine, events: seq<Event>)
    requires MachineOk(m) && BalancesOk(m)
    ensures BalancesOk(Run(m, events))
  {
    if events != [] {
      var before, e := events[..|events| - 1], events[|events| - 1];
      RunBalances(m, before);
      RunOk(m, before);
      var n := Run(m, before);
      match e
      case Begin(op, env) => BeginBalances(n, op, env);
      case Move => MoveBalances(n);
      case Finish => FinishBalances(n);
      case Abort =>
    }
  }

  /** Every reachable state with no call in flight is one in which the results on single calls apply. */
  lemma IdleIsBetweenCalls(factory: Address, treasury: Address, config: Config, events: seq<Event>)
    requires ValidConfig(config) && treasury != SELF
    requires Run(Start(factory, treasury, config), events).stack == []
    ensures BetweenCalls(Run(Start(factory, treasury, config), events).w)
  {
    var start := Start(factory, treasury, config);
    StartOk(factory, treasury, config);
    RunOk(start, events);
    RunBalances(start, events);
  }
}
