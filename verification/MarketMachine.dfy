/**
 * Runs of the market, with reentrancy and rollback.
 *
 * A call that succeeds in its checks opens a frame holding a snapshot and the transfers it still
 * has to make. While a frame is open the token may call back into any entry point, so frames nest.
 * A frame ends by finishing, or by trapping, which restores its snapshot and so undoes everything
 * done since, nested calls included.
 */
module MarketMachine {
  import opened Wrappers
  import opened Totals
  import opened Contracts
  import opened MarketSpec
  import opened MarketInvariant
  import opened MarketSteps

  datatype Frame = Frame(guarded: bool, snapshot: World, todo: seq<Transfer>)
  datatype Machine = Machine(w: World, stack: seq<Frame>)

  datatype Event =
    | Begin(op: Op, env: Env)  // a call arrives: top-level when the stack is empty, else a callback
    | Move                     // the innermost call makes its next transfer
    | Finish                   // the innermost call returns
    | Abort                    // the innermost call traps

  function Rollback(m: Machine): Machine
    requires m.stack != []
  {
    Machine(m.stack[0].snapshot, m.stack[1..])
  }

  /** One step; an event that cannot happen now changes nothing. */
  function Step(m: Machine, e: Event): Machine {
    match e
    case Begin(op, env) =>
      var r := Effects(m.w, env, op);
      if r.Err? then m
      else Machine(r.value.world, [Frame(r.value.guarded, m.w, r.value.transfers)] + m.stack)
    case Move =>
      if m.stack == [] || m.stack[0].todo == [] then m
      else
        var f := m.stack[0];
        var rest := [f.(todo := f.todo[1..])] + m.stack[1..];
        (match f.todo[0]
         case In(_, amount) => Machine(m.w.(balance := m.w.balance + amount), rest)
         case Out(_, amount) =>
           if m.w.balance < amount then Rollback(m)
           else Machine(m.w.(balance := m.w.balance - amount), rest))
    case Finish =>
      if m.stack == [] || m.stack[0].todo != [] then m
      else if m.stack[0].guarded then Machine(m.w.(st := m.w.st.(claiming := false)), m.stack[1..])
      else Machine(m.w, m.stack[1..])
    case Abort =>
      if m.stack == [] then m else Rollback(m)
  }

  function Run(m: Machine, events: seq<Event>): Machine {
    if events == [] then m else Step(Run(m, events[..|events| - 1]), events[|events| - 1])
  }

  ghost function Start(factory: Address, treasury: Address, config: Config): Machine {
    Machine(Init(factory, treasury, config), [])
  }

  ghost predicate ClaimOpen(stack: seq<Frame>) {
    exists i :: 0 <= i < |stack| && stack[i].guarded
  }

  ghost function AllDue(stack: seq<Frame>): int {
    if stack == [] then 0 else Due(stack[0].todo) + AllDue(stack[1..])
  }

  /** The machine's invariant: it also holds of what each open frame would roll back to. */
  ghost predicate MachineOk(m: Machine)
    decreases |m.stack|
  {
    && WorldOk(m.w)
    && (m.w.st.claiming <==> ClaimOpen(m.stack))
    && m.w.balance + AllDue(m.stack) == Backing(m.w)
    && (m.stack != [] ==>
          && MachineOk(Rollback(m))
          && (m.stack[0].guarded ==> !m.stack[0].snapshot.st.claiming))
  }

  lemma StartOk(factory: Address, treasury: Address, config: Config)
    requires ValidConfig(config) && treasury != SELF
    ensures MachineOk(Start(factory, treasury, config))
  {
    var w := Init(factory, treasury, config);
    assert forall side :: Pool(w.st.state, side) == Total(w.st.bettors, Stakes(w.st.bets, side));
  }

  /** Balances and the guard flag are not part of the world's own invariant. */
  lemma WorldOkFrame(w: World, balance: int, claiming: bool)
    requires WorldOk(w)
    ensures var v := w.(balance := balance, st := w.st.(claiming := claiming));
      WorldOk(v) && Extends(w, v) && Extends(v, w) && Backing(v) == Backing(w)
  {
    var v := w.(balance := balance, st := w.st.(claiming := claiming));
    assert PoolsOk(v.st) by {
      forall side ensures Pool(v.st.state, side) == Total(v.st.bettors, Stakes(v.st.bets, side)) {
        assert Pool(w.st.state, side) == Total(w.st.bettors, Stakes(w.st.bets, side));
      }
    }
    assert PaymentsOk(v) by {
      forall p | p in w.payments ensures PaymentOk(v.st, p) {
        assert PaymentOk(w.st, p);
      }
      assert forall b :: Claimed(v.st, b) <==> Claimed(w.st, b);
    }
    ReportsKept(w, v);
  }

  lemma ClaimOpenPush(f: Frame, stack: seq<Frame>)
    ensures ClaimOpen([f] + stack) <==> f.guarded || ClaimOpen(stack)
  {
    if ClaimOpen(stack) {
      var i :| 0 <= i < |stack| && stack[i].guarded;
      assert ([f] + stack)[i + 1].guarded;
    }
    if f.guarded {
      assert ([f] + stack)[0].guarded;
    }
  }

  lemma BeginOk(m: Machine, op: Op, env: Env)
    requires MachineOk(m)
    ensures MachineOk(Step(m, Begin(op, env)))
  {
    var r := Effects(m.w, env, op);
    if r.Ok? {
      EffectsGood(m.w, env, op);
      var f := Frame(r.value.guarded, m.w, r.value.transfers);
      var n := Machine(r.value.world, [f] + m.stack);
      ClaimOpenPush(f, m.stack);
      assert n.stack[1..] == m.stack;
      assert Rollback(n) == m;
    }
  }

  lemma MoveOk(m: Machine)
    requires MachineOk(m)
    ensures MachineOk(Step(m, Move))
  {
    var n := Step(m, Move);
    if m.stack != [] && m.stack[0].todo != [] {
      var f := m.stack[0];
      if n != Rollback(m) || f.todo[0].In? {
        var g := f.(todo := f.todo[1..]);
        assert n == Machine(m.w.(balance := n.w.balance), [g] + m.stack[1..]);
        WorldOkFrame(m.w, n.w.balance, m.w.st.claiming);
        assert m.stack == [f] + m.stack[1..];
        ClaimOpenPush(f, m.stack[1..]);
        ClaimOpenPush(g, m.stack[1..]);
        assert n.stack[1..] == m.stack[1..];
        assert Rollback(n) == Rollback(m);
      }
    }
  }

  lemma FinishOk(m: Machine)
    requires MachineOk(m)
    ensures MachineOk(Step(m, Finish))
  {
    if m.stack != [] && m.stack[0].todo == [] {
      var f := m.stack[0];
      assert m.stack == [f] + m.stack[1..];
      ClaimOpenPush(f, m.stack[1..]);
      var below := Rollback(m);
      if f.guarded {
        WorldOkFrame(m.w, m.w.balance, false);
      }
      assert MachineOk(below);
      if m.stack[1..] != [] {
        var n := Step(m, Finish);
        assert Rollback(n) == Rollback(below);
      }
    }
  }

  lemma StepOk(m: Machine, e: Event)
    requires MachineOk(m)
    ensures MachineOk(Step(m, e))
  {
    match e
    case Begin(op, env) => BeginOk(m, op, env);
    case Move => MoveOk(m);
    case Finish => FinishOk(m);
    case Abort =>
  }

  lemma {:induction false} RunOk(m: Machine, events: seq<Event>)
    requires MachineOk(m)
    ensures MachineOk(Run(m, events))
  {
    if events != [] {
      RunOk(m, events[..|events| - 1]);
      StepOk(Run(m, events[..|events| - 1]), events[|events| - 1]);
    }
  }
}
