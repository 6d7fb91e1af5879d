/**
 * What the visits of a backfill deliver. A visit asks for the events from its ledger on, without an end,
 * gets a page of them, and hands them to the handlers one by one; any error is logged and ends the visit.
 */
module Delivery {
  import opened Wrappers
  import opened Backfill
  import opened BetTables

  const PAGE: nat := 100

  /** One event of the log that the query's filter selects, which is in ledger order. */
  datatype Logged = Logged(ledger: int, bet: BetEvent)

  /** How many events of its page the visit of each ledger gets through. */
  type Outcome = int -> nat

  ghost predicate Ascending(log: seq<Logged>) {
    forall i, j :: 0 <= i < j < |log| ==> log[i].ledger <= log[j].ledger
  }

  function Min(a: int, b: int): int {
    if a <= b then a else b
  }

  function Max(a: int, b: int): int {
    if a <= b then b else a
  }

  /** Where the events of the ledger and later ones begin. */
  function First(log: seq<Logged>, ledger: int): (i: nat)
    ensures i <= |log|
  {
    if log == [] then 0
    else if log[|log| - 1].ledger < ledger then |log|
    else First(log[..|log| - 1], ledger)
  }

  /** The end of what a visit delivers: of its page, the events before the first error. */
  function End(log: seq<Logged>, ledger: int, handled: nat): (i: nat)
    ensures First(log, ledger) <= i <= |log|
  {
    Min(First(log, ledger) + Min(handled, PAGE), |log|)
  }

  function Bets(part: seq<Logged>): seq<BetEvent> {
    seq(|part|, i requires 0 <= i < |part| => part[i].bet)
  }

  /** What the handlers see, visit by visit. */
  function Stream(log: seq<Logged>, ledgers: seq<int>, outcome: Outcome): seq<BetEvent> {
    if ledgers == [] then []
    else
      var s := ledgers[0];
      Bets(log[First(log, s)..End(log, s, outcome(s))]) + Stream(log, ledgers[1..], outcome)
  }

  predicate Delivers(log: seq<Logged>, ledger: int, handled: nat, k: nat) {
    First(log, ledger) <= k < End(log, ledger, handled)
  }

  /** How often event k is delivered. */
  function Times(log: seq<Logged>, ledgers: seq<int>, outcome: Outcome, k: nat): nat {
    if ledgers == [] then 0
    else
      (if Delivers(log, ledgers[0], outcome(ledgers[0]), k) then 1 else 0) + Times(log, ledgers[1..], outcome, k)
  }

  lemma {:induction false} FirstSplits(log: seq<Logged>, ledger: int)
    requires Ascending(log)
    ensures forall i :: 0 <= i < |log| ==> (i < First(log, ledger) <==> log[i].ledger < ledger)
  {
    if log != [] && log[|log| - 1].ledger >= ledger {
      FirstSplits(log[..|log| - 1], ledger);
    }
  }

  /** The visit gets to event k: fewer events than it handles lie between its ledger's first and k. */
  predicate Reaches(log: seq<Logged>, ledger: int, handled: nat, k: nat)
    requires k < |log|
  {
    var most := Min(handled, PAGE);
    k < most || log[k - most].ledger < ledger
  }

  lemma {:induction false} DeliversIff(log: seq<Logged>, ledger: int, handled: nat, k: nat)
    requires Ascending(log) && k < |log|
    ensures Delivers(log, ledger, handled, k) <==> ledger <= log[k].ledger && Reaches(log, ledger, handled, k)
  {
    FirstSplits(log, ledger);
  }

  lemma {:induction false} InRange(from: int, to: int)
    ensures forall s :: s in Range(from, to) <==> from <= s <= to
    decreases Span(from, to)
  {
    if from <= to {
      InRange(from + 1, to);
    }
  }

  lemma {:induction false} DeliveredIff(log: seq<Logged>, ledgers: seq<int>, outcome: Outcome, k: nat)
    ensures Times(log, ledgers, outcome, k) > 0 <==> exists s :: s in ledgers && Delivers(log, s, outcome(s), k)
  {
    if ledgers != [] {
      DeliveredIff(log, ledgers[1..], outcome, k);
      assert forall s :: s in ledgers <==> s == ledgers[0] || s in ledgers[1..];
    }
  }

  lemma {:induction false} PrefixWithin(from: int, to: int, size: nat, cut: nat)
    requires size >= 1 && cut <= |Plan(from, to, size)|
    ensures forall s :: s in Ledgers(Plan(from, to, size)[..cut]) ==> from <= s <= to
  {
    var plan := Plan(from, to, size);
    BackfillCovers(from, to, size);
    assert plan[..cut] + plan[cut..] == plan;
    LedgersConcat(plan[..cut], plan[cut..]);
    InRange(from, to);
    forall s | s in Ledgers(plan[..cut]) ensures from <= s <= to {
      assert s in Ledgers(plan[..cut]) + Ledgers(plan[cut..]);
      assert s in Range(from, to);
    }
  }

  /**
   * Wherever a backfill is cut off and whichever visits fail: an event at or before the checkpoint on
   * record has been delivered exactly when a visit of its ledger, or of an earlier one of the range,
   * got as far as it.
   */
  lemma {:induction false} IndexedIff(
      log: seq<Logged>, from: int, to: int, size: nat, cut: nat, outcome: Outcome, k: nat)
    requires Ascending(log) && k < |log| && size >= 1 && cut <= |Plan(from, to, size)|
    requires Saved(Plan(from, to, size)[..cut]).Some?
    requires from <= log[k].ledger <= Saved(Plan(from, to, size)[..cut]).value
    ensures Times(log, Ledgers(Plan(from, to, size)[..cut]), outcome, k) > 0
       <==> exists s :: from <= s <= log[k].ledger && Reaches(log, s, outcome(s), k)
  {
    var trace := Plan(from, to, size)[..cut];
    BackfillCovers(from, to, size);
    CutOffCovered(from, to, Plan(from, to, size), cut);
    PrefixWithin(from, to, size, cut);
    InRange(from, Saved(trace).value);
    assert forall s :: s in Range(from, Saved(trace).value) ==> s in Ledgers(trace);
    DeliveredWithin(log, Ledgers(trace), from, to, outcome, k);
  }

  /** Visits of the range, those up to the event's ledger among them. */
  lemma {:induction false} DeliveredWithin(
      log: seq<Logged>, ledgers: seq<int>, from: int, to: int, outcome: Outcome, k: nat)
    requires Ascending(log) && k < |log|
    requires forall s :: s in ledgers ==> from <= s <= to
    requires forall s :: from <= s <= log[k].ledger ==> s in ledgers
    ensures Times(log, ledgers, outcome, k) > 0
       <==> exists s :: from <= s <= log[k].ledger && Reaches(log, s, outcome(s), k)
  {
    DeliveredIff(log, ledgers, outcome, k);
    if s :| s in ledgers && Delivers(log, s, outcome(s), k) {
      DeliversIff(log, s, outcome(s), k);
    }
    if s :| from <= s <= log[k].ledger && Reaches(log, s, outcome(s), k) {
      DeliversIff(log, s, outcome(s), k);
      assert s in ledgers;
    }
  }

  /** The first ledger of the range whose page reaches event k. */
  function Earliest(log: seq<Logged>, from: int, k: nat): int
    requires k < |log|
  {
    if k < PAGE then from else Max(from, log[k - PAGE].ledger + 1)
  }

  lemma {:induction false} TimesInRange(log: seq<Logged>, from: int, to: int, outcome: Outcome, k: nat)
    requires Ascending(log) && k < |log| && forall s :: from <= s <= to ==> outcome(s) >= PAGE
    ensures Times(log, Range(from, to), outcome, k)
         == Span(Earliest(log, from, k), Min(to, log[k].ledger))
    decreases Span(from, to)
  {
    if from <= to {
      var rest := Range(from + 1, to);
      DeliversIff(log, from, outcome(from), k);
      TimesInRange(log, from + 1, to, outcome, k);
      assert Range(from, to) == [from] + rest && ([from] + rest)[1..] == rest;
      SpanStep(log, from, to, outcome(from), k);
    }
  }

  /** Starting one ledger earlier adds a visit exactly when that ledger's page reaches the event. */
  lemma SpanStep(log: seq<Logged>, from: int, to: int, handled: nat, k: nat)
    requires k < |log| && from <= to && handled >= PAGE
    ensures Span(Earliest(log, from, k), Min(to, log[k].ledger))
         == Span(Earliest(log, from + 1, k), Min(to, log[k].ledger))
            + (if from <= log[k].ledger && Reaches(log, from, handled, k) then 1 else 0)
  {
  }

  /**
   * A backfill none of whose visits fails delivers an event once for each ledger of the range from which
   * its page reaches, its own the last. Within the range it is missed exactly when a full page of its own
   * ledger's events lies before it.
   */
  lemma {:induction false} TimesInFull(log: seq<Logged>, from: int, to: int, size: nat, outcome: Outcome, k: nat)
    requires Ascending(log) && k < |log| && size >= 1 && forall s :: from <= s <= to ==> outcome(s) >= PAGE
    ensures var times := Times(log, Ledgers(Plan(from, to, size)), outcome, k);
      && times == Span(Earliest(log, from, k), Min(to, log[k].ledger))
      && (from <= log[k].ledger <= to ==>
            (times == 0 <==> k >= PAGE && log[k - PAGE].ledger == log[k].ledger))
  {
    BackfillCovers(from, to, size);
    TimesInRange(log, from, to, outcome, k);
  }

  // What repeated delivery does to a market's row

  function Amount(e: BetEvent, market: string, col: Column): int {
    if e.market == market && ColumnOf(e.side) == col then e.amount else 0
  }

  /** The first n events' amounts, each as often as its event is delivered. */
  function Weighted(
      log: seq<Logged>, ledgers: seq<int>, outcome: Outcome, market: string, col: Column, n: nat): int
    requires n <= |log|
  {
    if n == 0 then 0
    else
      Weighted(log, ledgers, outcome, market, col, n - 1)
      + Amount(log[n - 1].bet, market, col) * Times(log, ledgers, outcome, n - 1)
  }

  /** Of the first n events, those at positions in [a, b). */
  function Within(log: seq<Logged>, a: nat, b: nat, market: string, col: Column, n: nat): int
    requires n <= |log|
  {
    if n == 0 then 0
    else
      Within(log, a, b, market, col, n - 1) + (if a <= n - 1 < b then Amount(log[n - 1].bet, market, col) else 0)
  }

  lemma {:induction false} WithinIsStaked(log: seq<Logged>, a: nat, b: nat, market: string, col: Column, n: nat)
    requires a <= b <= |log| && n <= |log|
    ensures Within(log, a, b, market, col, n)
         == Staked(Bets(log[Min(a, n)..Min(b, n)]), market, col)
  {
    if n > 0 {
      WithinIsStaked(log, a, b, market, col, n - 1);
      if a <= n - 1 < b {
        assert Bets(log[a..n]) == Bets(log[a..n - 1]) + [log[n - 1].bet];
        StakedAppend(Bets(log[a..n - 1]), log[n - 1].bet, market, col);
      } else {
        assert log[Min(a, n)..Min(b, n)] == log[Min(a, n - 1)..Min(b, n - 1)];
      }
    }
  }

  lemma {:induction false} WeightedMore(
      log: seq<Logged>, ledgers: seq<int>, outcome: Outcome, market: string, col: Column, n: nat)
    requires n <= |log| && ledgers != []
    ensures var s := ledgers[0];
      Weighted(log, ledgers, outcome, market, col, n)
      == Within(log, First(log, s), End(log, s, outcome(s)), market, col, n)
         + Weighted(log, ledgers[1..], outcome, market, col, n)
  {
    if n > 0 {
      WeightedMore(log, ledgers, outcome, market, col, n - 1);
      OneMoreTime(Amount(log[n - 1].bet, market, col), Times(log, ledgers[1..], outcome, n - 1));
    }
  }

  lemma OneMoreTime(amount: int, times: int)
    ensures amount * (1 + times) == amount + amount * times && amount * (0 + times) == amount * times
  {
  }

  lemma {:induction false} StakedConcat(a: seq<BetEvent>, b: seq<BetEvent>, market: string, col: Column)
    ensures Staked(a + b, market, col) == Staked(a, market, col) + Staked(b, market, col)
  {
    if b == [] {
      assert a + b == a;
    } else {
      assert (a + b)[..|a + b| - 1] == a + b[..|b| - 1];
      StakedConcat(a, b[..|b| - 1], market, col);
    }
  }

  lemma {:induction false} NothingDelivered(log: seq<Logged>, outcome: Outcome, market: string, col: Column, n: nat)
    requires n <= |log|
    ensures Weighted(log, [], outcome, market, col, n) == 0
  {
    if n > 0 {
      NothingDelivered(log, outcome, market, col, n - 1);
    }
  }

  lemma {:induction false} StreamIsWeighted(
      log: seq<Logged>, ledgers: seq<int>, outcome: Outcome, market: string, col: Column)
    ensures Staked(Stream(log, ledgers, outcome), market, col)
         == Weighted(log, ledgers, outcome, market, col, |log|)
  {
    if ledgers == [] {
      NothingDelivered(log, outcome, market, col, |log|);
    } else {
      var s := ledgers[0];
      var a, b := First(log, s), End(log, s, outcome(s));
      StreamIsWeighted(log, ledgers[1..], outcome, market, col);
      StakedConcat(Bets(log[a..b]), Stream(log, ledgers[1..], outcome), market, col);
      WithinIsStaked(log, a, b, market, col, |log|);
      WeightedMore(log, ledgers, outcome, market, col, |log|);
    }
  }

  /** The handler adds every bet it sees to the row, stored or skipped. */
  lemma {:induction false} RowCountsAll(t: Tables, events: seq<BetEvent>, market: string, col: Column)
    requires Empty(t, market)
    ensures market in Fold(t, events).markets
    ensures Cell(Fold(t, events).markets[market], col) == Staked(events, market, col)
  {
    if events != [] {
      var e := events[|events| - 1];
      RowCountsAll(t, events[..|events| - 1], market, col);
      CreditedCell(Fold(t, events[..|events| - 1]).markets[market], ColumnOf(e.side), e.amount, col);
    }
  }

  /**
   * Whatever ledgers are visited and whichever visits fail, each pool of a market is the sum of its bets,
   * each counted as often as it was delivered.
   */
  lemma PoolsCountDeliveries(
      t: Tables, log: seq<Logged>, ledgers: seq<int>, outcome: Outcome, market: string, col: Column)
    requires Empty(t, market)
    ensures var n := Fold(t, Stream(log, ledgers, outcome));
      && market in n.markets
      && Cell(n.markets[market], col) == Weighted(log, ledgers, outcome, market, col, |log|)
  {
    RowCountsAll(t, Stream(log, ledgers, outcome), market, col);
    StreamIsWeighted(log, ledgers, outcome, market, col);
  }
}
