/** Ledger backfill: the order of visits and checkpoints. */
module Backfill {
  import opened Wrappers

  datatype Action = Visit(ledger: int) | Checkpoint(ledger: int)

  function Span(from: int, to: int): nat {
    if from > to then 0 else to - from + 1
  }

  function Range(from: int, to: int): seq<int>
    decreases Span(from, to)
  {
    if from > to then [] else [from] + Range(from + 1, to)
  }

  function Visits(from: int, to: int): seq<Action>
    decreases Span(from, to)
  {
    if from > to then [] else [Visit(from)] + Visits(from + 1, to)
  }

  function BatchEnd(start: int, to: int, size: nat): int {
    if start + size - 1 < to then start + size - 1 else to
  }

  /** What a backfill does: each batch's ledgers in order, then a checkpoint at the batch's end. */
  function Plan(from: int, to: int, size: nat): seq<Action>
    requires size >= 1
    decreases Span(from, to)
  {
    if from > to then []
    else Visits(from, BatchEnd(from, to, size)) + [Checkpoint(BatchEnd(from, to, size))] + Plan(from + size, to, size)
  }

  /** One batch of a plan, done whole or up to its checkpoint. */
  lemma BatchDone(before: seq<Action>, after: seq<Action>, from: int, to: int, size: nat, ok: bool, whole: seq<Action>)
    requires size >= 1 && from <= to && before + Plan(from, to, size) == whole
    requires after == before + Visits(from, BatchEnd(from, to, size))
                      + (if ok then [Checkpoint(BatchEnd(from, to, size))] else [])
    ensures before <= after <= whole
    ensures if ok then after + Plan(from + size, to, size) == whole
            else StopsAt(after, whole, Checkpoint(BatchEnd(from, to, size)))
  {
    var visits, point := Visits(from, BatchEnd(from, to, size)), [Checkpoint(BatchEnd(from, to, size))];
    Regroup(before, visits, point, Plan(from + size, to, size));
    assert whole == before + visits + (point + Plan(from + size, to, size));
    assert |before + visits| < |whole| && whole[|before + visits|] == point[0];
  }

  /** The trace has not had this checkpoint since it was at `start`. */
  ghost predicate NotSince(start: seq<Action>, trace: seq<Action>, failsAt: Option<int>) {
    failsAt.Some? ==> forall i :: |start| <= i < |trace| ==> trace[i] != Checkpoint(failsAt.value)
  }

  lemma NoneAdded(start: seq<Action>, before: seq<Action>, after: seq<Action>, visits: seq<Action>, end: int,
                  failsAt: Option<int>)
    requires NotSince(start, before, failsAt) && failsAt != Some(end)
    requires after == before + visits + [Checkpoint(end)] && forall a :: a in visits ==> a.Visit?
    ensures NotSince(start, after, failsAt)
  {
    forall i | |before| <= i < |after| ensures failsAt.Some? ==> after[i] != Checkpoint(failsAt.value) {
      if i < |before + visits| {
        assert after[i] == visits[i - |before|] && visits[i - |before|] in visits;
      }
    }
  }

  lemma InPlan(start: seq<Action>, whole: seq<Action>, i: nat, plan: seq<Action>)
    requires whole == start + plan && |start| <= i < |whole|
    ensures whole[i] in plan
  {
    assert whole[i] == plan[i - |start|];
  }

  lemma PlanPlaces(start: seq<Action>, whole: seq<Action>, plan: seq<Action>)
    requires whole == start + plan
    ensures forall a :: a in plan ==> exists i :: |start| <= i < |whole| && whole[i] == a
  {
    forall a | a in plan ensures exists i :: |start| <= i < |whole| && whole[i] == a {
      var k :| 0 <= k < |plan| && plan[k] == a;
      assert whole[|start| + k] == a;
    }
  }

  lemma Regroup(a: seq<Action>, b: seq<Action>, c: seq<Action>, d: seq<Action>)
    ensures a + (b + c + d) == a + b + c + d == a + b + (c + d)
  {
  }

  function Ledgers(trace: seq<Action>): seq<int> {
    if trace == [] then []
    else Ledgers(trace[..|trace| - 1])
         + (match trace[|trace| - 1] case Visit(l) => [l] case Checkpoint(_) => [])
  }

  function Saved(trace: seq<Action>): Option<int> {
    if trace == [] then None
    else match trace[|trace| - 1]
      case Checkpoint(c) => Some(c)
      case Visit(_) => Saved(trace[..|trace| - 1])
  }

  /** The trace is the plan up to, and without, this action. */
  predicate StopsAt(trace: seq<Action>, whole: seq<Action>, a: Action) {
    trace < whole && whole[|trace|] == a
  }

  /** The indexer's persisted checkpoint, and everything it did in order. */
  class Indexer {
    var checkpoint: Option<int>
    ghost var trace: seq<Action>

    ghost predicate Valid() reads this {
      checkpoint == Saved(trace)
    }

    constructor ()
      ensures Valid() && trace == []
    {
      checkpoint := None;
      trace := [];
    }

    method ProcessLedger(sequence: int)
      requires Valid()
      modifies this`trace
      ensures Valid() && trace == old(trace) + [Visit(sequence)]
    {
      trace := trace + [Visit(sequence)];
    }

    /** Overwrites the single checkpoint row, or throws and leaves it. */
    method SaveCheckpoint(sequence: int, stored: bool) returns (ok: bool)
      requires Valid()
      modifies this
      ensures Valid() && ok == stored
      ensures trace == if ok then old(trace) + [Checkpoint(sequence)] else old(trace)
    {
      ok := stored;
      if ok {
        checkpoint := Some(sequence);
        trace := trace + [Checkpoint(sequence)];
      }
    }

    /** One batch: its ledgers in ascending order, then the checkpoint. */
    method RunBatch(batchStart: int, batchEnd: int, stored: bool) returns (ok: bool)
      requires Valid()
      modifies this
      ensures Valid() && ok == stored
      ensures trace == old(trace) + Visits(batchStart, batchEnd) + (if ok then [Checkpoint(batchEnd)] else [])
    {
      var sequence := batchStart;
      assert trace + Visits(sequence, batchEnd) == old(trace) + Visits(batchStart, batchEnd);
      while sequence <= batchEnd
        invariant Valid()
        invariant trace + Visits(sequence, batchEnd) == old(trace) + Visits(batchStart, batchEnd)
        decreases Span(sequence, batchEnd)
      {
        assert trace + Visits(sequence, batchEnd) == (trace + [Visit(sequence)]) + Visits(sequence + 1, batchEnd);
        ProcessLedger(sequence);
        sequence := sequence + 1;
      }
      ok := SaveCheckpoint(batchEnd, stored);
    }

    /**
     * `failsAt` is the checkpoint whose save throws, if any; the exception ends the backfill. Events
     * that fail inside a ledger are logged and do not.
     */
    method BackfillLedgerRange(from: int, to: int, size: nat, failsAt: Option<int>) returns (completed: bool)
      requires Valid() && size >= 1
      modifies this
      ensures Valid()
      ensures completed == (failsAt.None? || Checkpoint(failsAt.value) !in Plan(from, to, size))
      ensures completed ==> trace == old(trace) + Plan(from, to, size)
      ensures !completed ==> StopsAt(trace, old(trace) + Plan(from, to, size), Checkpoint(failsAt.value))
    {
      ghost var start, whole := trace, trace + Plan(from, to, size);
      var batchStart := from;
      while batchStart <= to
        invariant Valid()
        invariant start <= trace
        invariant trace + Plan(batchStart, to, size) == whole
        invariant NotSince(start, trace, failsAt)
        decreases Span(batchStart, to)
      {
        var batchEnd := if batchStart + size - 1 < to then batchStart + size - 1 else to;
        ghost var before := trace;
        var ok := RunBatch(batchStart, batchEnd, failsAt != Some(batchEnd));
        BatchDone(before, trace, batchStart, to, size, ok, whole);
        if !ok {
          InPlan(start, whole, |trace|, Plan(from, to, size));
          return false;
        }
        VisitsAreRange(batchStart, batchEnd);
        NoneAdded(start, before, trace, Visits(batchStart, batchEnd), batchEnd, failsAt);
        batchStart := batchStart + size;
      }
      assert whole == trace;
      assert forall a :: a in Plan(from, to, size) ==> exists i :: |start| <= i < |trace| && trace[i] == a by {
        PlanPlaces(start, trace, Plan(from, to, size));
      }
      return true;
    }

    method LoadCheckpoint() returns (ledger: Option<int>)
      requires Valid()
      ensures ledger == Saved(trace)
    {
      ledger := checkpoint;
    }
  }

  lemma {:induction false} LedgersConcat(a: seq<Action>, b: seq<Action>)
    ensures Ledgers(a + b) == Ledgers(a) + Ledgers(b)
  {
    if b == [] {
      assert a + b == a;
    } else {
      assert (a + b)[..|a + b| - 1] == a + b[..|b| - 1];
      LedgersConcat(a, b[..|b| - 1]);
    }
  }

  lemma {:induction false} RangeConcat(from: int, mid: int, to: int)
    requires from <= mid + 1 && mid <= to
    ensures Range(from, mid) + Range(mid + 1, to) == Range(from, to)
    decreases Span(from, mid)
  {
    if from <= mid {
      RangeConcat(from + 1, mid, to);
    }
  }

  /** Visiting alone: the ledgers are the range, and a prefix of the visits is a prefix of the range. */
  lemma {:induction false} VisitsAreRange(from: int, to: int)
    ensures Ledgers(Visits(from, to)) == Range(from, to)
    ensures forall a :: a in Visits(from, to) ==> a.Visit?
    decreases Span(from, to)
  {
    if from <= to {
      VisitsAreRange(from + 1, to);
      LedgersConcat([Visit(from)], Visits(from + 1, to));
      assert [Visit(from)][..0] == [];
      assert Ledgers([Visit(from)]) == [from];
    }
  }

  /** Each checkpoint c comes right after all of [from, c] has been visited. */
  ghost predicate CheckpointsCovered(from: int, to: int, trace: seq<Action>) {
    forall i :: 0 <= i < |trace| && trace[i].Checkpoint? ==>
      from <= trace[i].ledger <= to && Ledgers(trace[..i]) == Range(from, trace[i].ledger)
  }

  /** A batch in front of a backfill of the rest. */
  lemma BatchInFront(from: int, end: int, to: int, tail: seq<Action>)
    requires from <= end <= to && Ledgers(tail) == Range(end + 1, to)
    ensures Ledgers(Visits(from, end) + [Checkpoint(end)] + tail) == Range(from, to)
    ensures Ledgers(Visits(from, end) + [Checkpoint(end)]) == Range(from, end)
  {
    var visits, point := Visits(from, end), [Checkpoint(end)];
    VisitsAreRange(from, end);
    LedgersConcat(visits, point);
    assert point[..0] == [];
    LedgersConcat(visits + point, tail);
    RangeConcat(from, end, to);
  }

  lemma CoveredInFront(from: int, end: int, to: int, tail: seq<Action>)
    requires from <= end <= to && CheckpointsCovered(end + 1, to, tail)
    ensures CheckpointsCovered(from, to, Visits(from, end) + [Checkpoint(end)] + tail)
  {
    var visits := Visits(from, end);
    var head := visits + [Checkpoint(end)];
    var plan := head + tail;
    VisitsAreRange(from, end);
    BatchInFront(from, end, end, []);
    HeadHasNoCheckpoint(visits, [Checkpoint(end)] + tail);
    assert plan == visits + ([Checkpoint(end)] + tail);
    forall i | |visits| <= i < |plan| && plan[i].Checkpoint?
      ensures from <= plan[i].ledger <= to && Ledgers(plan[..i]) == Range(from, plan[i].ledger)
    {
      if i == |visits| {
        assert plan[..i] == visits;
      } else {
        var j := i - |head|;
        assert plan[..i] == head + tail[..j] && plan[i] == tail[j];
        LedgersConcat(head, tail[..j]);
        RangeConcat(from, end, tail[j].ledger);
      }
    }
  }

  /**
   * A whole backfill visits every ledger of the range exactly once, in ascending order, and ends by
   * checkpointing the last; wherever it is cut off, the last checkpoint c has all of [from, c] behind it.
   */
  lemma {:induction false} BackfillCovers(from: int, to: int, size: nat)
    requires size >= 1
    ensures Ledgers(Plan(from, to, size)) == Range(from, to)
    ensures from <= to ==> Saved(Plan(from, to, size)) == Some(to)
    ensures CheckpointsCovered(from, to, Plan(from, to, size))
    decreases Span(from, to)
  {
    if from <= to {
      var end, tail := BatchEnd(from, to, size), Plan(from + size, to, size);
      BackfillCovers(from + size, to, size);
      if end < to {
        assert end + 1 == from + size;
        SavedTail(Visits(from, end) + [Checkpoint(end)], tail);
      } else {
        assert tail == [] && Range(end + 1, to) == [];
      }
      BatchInFront(from, end, to, tail);
      CoveredInFront(from, end, to, tail);
    }
  }

  /** Wherever a run is cut off, all ledgers up to the checkpoint on record have been visited. */
  lemma {:induction false} CutOffCovered(from: int, to: int, trace: seq<Action>, n: nat)
    requires CheckpointsCovered(from, to, trace) && n <= |trace|
    ensures Saved(trace[..n]).Some? ==> Range(from, Saved(trace[..n]).value) <= Ledgers(trace[..n])
  {
    if n > 0 {
      CutOffCovered(from, to, trace, n - 1);
      assert trace[..n][..n - 1] == trace[..n - 1];
    }
  }

  lemma HeadHasNoCheckpoint(visits: seq<Action>, rest: seq<Action>)
    requires forall a :: a in visits ==> a.Visit?
    ensures forall i :: 0 <= i < |visits| ==> (visits + rest)[i].Visit?
  {
  }

  lemma SavedTail(a: seq<Action>, b: seq<Action>)
    requires Saved(b).Some?
    ensures Saved(a + b) == Saved(b)
    decreases |b|
  {
    assert (a + b)[..|a + b| - 1] == a + b[..|b| - 1];
    if b[|b| - 1].Visit? {
      SavedTail(a, b[..|b| - 1]);
    }
  }
}

/** The relational tables that follow the chain's bets. */
module BetTables {
  import opened Wrappers

  datatype BetEvent = BetEvent(txHash: string, market: string, bettor: nat, side: string, amount: int)
  datatype MarketRow = MarketRow(poolA: int, poolB: int, poolDraw: int, totalPool: int)
  datatype Column = PoolA | PoolB | PoolDraw

  /** `bets` is in insertion order, unique by transaction hash. */
  datatype Tables = Tables(bets: seq<BetEvent>, markets: map<string, MarketRow>)

  function ColumnOf(side: string): Column {
    if side == "fighter_a" then PoolA else if side == "fighter_b" then PoolB else PoolDraw
  }

  function Cell(row: MarketRow, col: Column): int {
    match col
    case PoolA => row.poolA
    case PoolB => row.poolB
    case PoolDraw => row.poolDraw
  }

  function Credited(row: MarketRow, col: Column, amount: int): MarketRow {
    match col
    case PoolA => row.(poolA := row.poolA + amount, totalPool := row.totalPool + amount)
    case PoolB => row.(poolB := row.poolB + amount, totalPool := row.totalPool + amount)
    case PoolDraw => row.(poolDraw := row.poolDraw + amount, totalPool := row.totalPool + amount)
  }

  predicate Known(bets: seq<BetEvent>, txHash: string) {
    exists i :: 0 <= i < |bets| && bets[i].txHash == txHash
  }

  /** One transaction: insert unless the hash is known, then add to the market's row in any case. */
  function HandleBetPlaced(t: Tables, e: BetEvent): Tables {
    if !Known(t.bets, e.txHash) && e.market !in t.markets then t  // the foreign key fails; rolled back
    else
      var bets := if Known(t.bets, e.txHash) then t.bets else t.bets + [e];
      var markets := if e.market in t.markets
        then t.markets[e.market := Credited(t.markets[e.market], ColumnOf(e.side), e.amount)] else t.markets;
      Tables(bets, markets)
  }

  function Fold(t: Tables, events: seq<BetEvent>): Tables {
    if events == [] then t else HandleBetPlaced(Fold(t, events[..|events| - 1]), events[|events| - 1])
  }

  /** The events whose insert was skipped because their hash was already stored. */
  function Skipped(t: Tables, events: seq<BetEvent>): seq<BetEvent> {
    if events == [] then []
    else
      var before, e := events[..|events| - 1], events[|events| - 1];
      Skipped(t, before) + (if Known(Fold(t, before).bets, e.txHash) then [e] else [])
  }

  function Staked(bets: seq<BetEvent>, market: string, col: Column): int {
    if bets == [] then 0
    else
      var b := bets[|bets| - 1];
      Staked(bets[..|bets| - 1], market, col) + (if b.market == market && ColumnOf(b.side) == col then b.amount else 0)
  }

  function AllStaked(bets: seq<BetEvent>, market: string): int {
    Staked(bets, market, PoolA) + Staked(bets, market, PoolB) + Staked(bets, market, PoolDraw)
  }

  ghost predicate Empty(t: Tables, market: string) {
    t.bets == [] && market in t.markets && t.markets[market] == MarketRow(0, 0, 0, 0)
  }

  lemma StakedAppend(bets: seq<BetEvent>, e: BetEvent, market: string, col: Column)
    ensures Staked(bets + [e], market, col)
      == Staked(bets, market, col) + (if e.market == market && ColumnOf(e.side) == col then e.amount else 0)
  {
    assert (bets + [e])[..|bets|] == bets;
  }

  lemma CreditedCell(row: MarketRow, to: Column, amount: int, col: Column)
    ensures Cell(Credited(row, to, amount), col) == Cell(row, col) + (if to == col then amount else 0)
    ensures Credited(row, to, amount).totalPool == row.totalPool + amount
  {
  }

  lemma RowTotal(before: seq<BetEvent>, after: seq<BetEvent>, e: BetEvent, market: string)
    requires after == before || after == before + [e]
    ensures after == before + [e] ==>
      AllStaked(after, market) == AllStaked(before, market) + (if e.market == market then e.amount else 0)
  {
    StakedAppend(before, e, market, PoolA);
    StakedAppend(before, e, market, PoolB);
    StakedAppend(before, e, market, PoolDraw);
  }

  /** The row of one market against what is stored and what was skipped. */
  ghost predicate Balanced(t: Tables, skipped: seq<BetEvent>, market: string) {
    && market in t.markets
    && (forall col :: Cell(t.markets[market], col) == Staked(t.bets, market, col) + Staked(skipped, market, col))
    && t.markets[market].totalPool == AllStaked(t.bets, market) + AllStaked(skipped, market)
  }

  lemma HandleKeepsBalance(t: Tables, skipped: seq<BetEvent>, e: BetEvent, market: string)
    requires Balanced(t, skipped, market)
    ensures Balanced(HandleBetPlaced(t, e), if Known(t.bets, e.txHash) then skipped + [e] else skipped, market)
  {
    var n, after := HandleBetPlaced(t, e), if Known(t.bets, e.txHash) then skipped + [e] else skipped;
    RowTotal(t.bets, t.bets + [e], e, market);
    RowTotal(skipped, skipped + [e], e, market);
    forall col ensures Cell(n.markets[market], col) == Staked(n.bets, market, col) + Staked(after, market, col) {
      HandleKeepsCell(t, skipped, e, market, col);
    }
    CreditedCell(t.markets[market], ColumnOf(e.side), e.amount, PoolA);
  }

  /** An event counts once: among the stored bets or among the skipped ones. */
  lemma CellBalance(bets: seq<BetEvent>, skipped: seq<BetEvent>, row: MarketRow, e: BetEvent,
                    market: string, col: Column, stored: bool)
    requires Cell(row, col) == Staked(bets, market, col) + Staked(skipped, market, col)
    ensures Cell(if e.market == market then Credited(row, ColumnOf(e.side), e.amount) else row, col)
         == Staked(if stored then bets + [e] else bets, market, col)
          + Staked(if stored then skipped else skipped + [e], market, col)
  {
    CreditedCell(row, ColumnOf(e.side), e.amount, col);
    if stored {
      StakedAppend(bets, e, market, col);
    } else {
      StakedAppend(skipped, e, market, col);
    }
  }

  lemma HandleKeepsCell(t: Tables, skipped: seq<BetEvent>, e: BetEvent, market: string, col: Column)
    requires market in t.markets
    requires Cell(t.markets[market], col) == Staked(t.bets, market, col) + Staked(skipped, market, col)
    ensures var n := HandleBetPlaced(t, e); var after := if Known(t.bets, e.txHash) then skipped + [e] else skipped;
      market in n.markets && Cell(n.markets[market], col) == Staked(n.bets, market, col) + Staked(after, market, col)
  {
    CellBalance(t.bets, skipped, t.markets[market], e, market, col, !Known(t.bets, e.txHash));
  }

  /** A row's pools are the stored bets plus every bet that arrived again under a stored hash. */
  lemma {:induction false} PoolsAreStoredPlusSkipped(t: Tables, events: seq<BetEvent>, market: string)
    requires Empty(t, market)
    ensures Balanced(Fold(t, events), Skipped(t, events), market)
  {
    if events != [] {
      var before, e := events[..|events| - 1], events[|events| - 1];
      PoolsAreStoredPlusSkipped(t, before, market);
      HandleKeepsBalance(Fold(t, before), Skipped(t, before), e, market);
      assert Skipped(t, before) + [] == Skipped(t, before);
    }
  }

  lemma {:induction false} StakedPositive(bets: seq<BetEvent>, market: string, col: Column)
    requires forall b :: b in bets ==> b.amount > 0
    ensures Staked(bets, market, col) >= 0
    ensures Staked(bets, market, col) == 0 <==> forall b :: b in bets && b.market == market ==> ColumnOf(b.side) != col
  {
    if bets != [] {
      var init, last := bets[..|bets| - 1], bets[|bets| - 1];
      StakedPositive(init, market, col);
      assert forall b :: b in bets <==> b in init || b == last;
    }
  }

  lemma {:induction false} SkippedAreEvents(t: Tables, events: seq<BetEvent>)
    ensures forall e :: e in Skipped(t, events) ==> e in events
  {
    if events != [] {
      SkippedAreEvents(t, events[..|events| - 1]);
    }
  }

  /** With positive amounts, a row agrees with its stored bets exactly when none of its bets came twice. */
  lemma RowAgreesIff(t: Tables, events: seq<BetEvent>, market: string)
    requires Empty(t, market) && forall e :: e in events ==> e.amount > 0
    ensures var n := Fold(t, events);
      market in n.markets
      && ((forall col :: Cell(n.markets[market], col) == Staked(n.bets, market, col))
          && n.markets[market].totalPool == AllStaked(n.bets, market)
          <==> forall e :: e in Skipped(t, events) ==> e.market != market)
  {
    PoolsAreStoredPlusSkipped(t, events, market);
    SkippedAreEvents(t, events);
    var skipped := Skipped(t, events);
    if forall col :: Staked(skipped, market, col) == 0 {
      forall e | e in skipped ensures e.market != market {
        StakedPositive(skipped, market, ColumnOf(e.side));
      }
    }
    StakedPositive(skipped, market, PoolA);
    StakedPositive(skipped, market, PoolB);
    StakedPositive(skipped, market, PoolDraw);
  }

  ghost predicate DistinctHashes(events: seq<BetEvent>) {
    forall i, j :: 0 <= i < j < |events| ==> events[i].txHash != events[j].txHash
  }

  ghost predicate MarketsKnown(t: Tables, events: seq<BetEvent>) {
    forall i :: 0 <= i < |events| ==> events[i].market in t.markets
  }

  lemma NewHash(before: seq<BetEvent>, e: BetEvent)
    requires DistinctHashes(before + [e])
    ensures DistinctHashes(before) && !Known(before, e.txHash)
  {
    var events := before + [e];
    forall i, j | 0 <= i < j < |before| ensures before[i].txHash != before[j].txHash {
      assert events[i].txHash != events[j].txHash;
    }
    forall i | 0 <= i < |before| ensures before[i].txHash != e.txHash {
      assert events[i].txHash != events[|before|].txHash;
    }
  }

  lemma FoldOneMore(t: Tables, before: seq<BetEvent>, e: BetEvent)
    ensures Fold(t, before + [e]) == HandleBetPlaced(Fold(t, before), e)
    ensures Skipped(t, before + [e]) == Skipped(t, before) + (if Known(Fold(t, before).bets, e.txHash) then [e] else [])
  {
    var events := before + [e];
    assert events[..|events| - 1] == before;
  }

  lemma HandleNew(t: Tables, e: BetEvent)
    requires !Known(t.bets, e.txHash) && e.market in t.markets
    ensures HandleBetPlaced(t, e).bets == t.bets + [e]
    ensures HandleBetPlaced(t, e).markets.Keys == t.markets.Keys
  {
  }

  /** A log without repeated hashes, all for known markets, is stored whole. */
  lemma {:induction false} DistinctStoredWhole(t: Tables, events: seq<BetEvent>)
    requires t.bets == [] && DistinctHashes(events) && MarketsKnown(t, events)
    ensures Fold(t, events).bets == events && Skipped(t, events) == []
    ensures Fold(t, events).markets.Keys == t.markets.Keys
  {
    if events != [] {
      var before, e := events[..|events| - 1], events[|events| - 1];
      assert events == before + [e];
      NewHash(before, e);
      DistinctStoredWhole(t, before);
      FoldOneMore(t, before, e);
      HandleNew(Fold(t, before), e);
    }
  }

  // What is stored, told from the log alone

  /** An earlier bet of a known market bears the hash. */
  predicate Taken(events: seq<BetEvent>, markets: set<string>, txHash: string) {
    exists i :: 0 <= i < |events| && events[i].txHash == txHash && events[i].market in markets
  }

  /** The bets of known markets, each hash's first alone. */
  function Firsts(events: seq<BetEvent>, markets: set<string>): seq<BetEvent> {
    if events == [] then []
    else
      var before, e := events[..|events| - 1], events[|events| - 1];
      Firsts(before, markets) + (if e.market in markets && !Taken(before, markets, e.txHash) then [e] else [])
  }

  lemma {:induction false} KnownIffTaken(events: seq<BetEvent>, markets: set<string>, txHash: string)
    ensures Known(Firsts(events, markets), txHash) <==> Taken(events, markets, txHash)
  {
    if events != [] {
      var before, e := events[..|events| - 1], events[|events| - 1];
      var first := e.market in markets && !Taken(before, markets, e.txHash);
      KnownIffTaken(before, markets, txHash);
      KnownMore(Firsts(before, markets), e, txHash);
      TakenMore(before, e, markets, txHash);
      assert events == before + [e];
      assert Firsts(events, markets) == Firsts(before, markets) + (if first then [e] else []);
    }
  }

  lemma KnownMore(bets: seq<BetEvent>, e: BetEvent, txHash: string)
    ensures Known(bets + [e], txHash) <==> Known(bets, txHash) || e.txHash == txHash
    ensures bets + [] == bets
  {
    if i :| 0 <= i < |bets| && bets[i].txHash == txHash {
      assert (bets + [e])[i].txHash == txHash;
    }
    assert (bets + [e])[|bets|] == e;
  }

  lemma TakenMore(before: seq<BetEvent>, e: BetEvent, markets: set<string>, txHash: string)
    ensures Taken(before + [e], markets, txHash)
       <==> Taken(before, markets, txHash) || (e.txHash == txHash && e.market in markets)
  {
    if i :| 0 <= i < |before| && before[i].txHash == txHash && before[i].market in markets {
      assert (before + [e])[i] == before[i];
    }
    assert (before + [e])[|before|] == e;
  }

  /** What is stored of any log: the first bet of each hash, among the bets of the markets that are known. */
  lemma {:induction false} StoredAreFirsts(t: Tables, events: seq<BetEvent>)
    requires t.bets == []
    ensures Fold(t, events).bets == Firsts(events, t.markets.Keys)
    ensures Fold(t, events).markets.Keys == t.markets.Keys
  {
    if events != [] {
      var before, e := events[..|events| - 1], events[|events| - 1];
      StoredAreFirsts(t, before);
      KnownIffTaken(before, t.markets.Keys, e.txHash);
      if e.market !in t.markets {
        UnknownStoresNothing(Fold(t, before), e);
      }
    }
  }

  lemma UnknownStoresNothing(t: Tables, e: BetEvent)
    requires e.market !in t.markets
    ensures HandleBetPlaced(t, e) == t
  {
  }
}

/** The indexed row against the contract's own pools. */
module ChainAgreement {
  import opened Wrappers
  import opened Totals
  import opened Contracts
  import opened BetTables
  import Market = MarketSpec
  import opened MarketInvariant

  function SideName(side: Market.BetSide): string {
    match side
    case FighterA => "fighter_a"
    case FighterB => "fighter_b"
    case Draw => "draw"
  }

  function SideColumn(side: Market.BetSide): Column {
    match side
    case FighterA => PoolA
    case FighterB => PoolB
    case Draw => PoolDraw
  }

  /** The contract's bet events, one per bettor in the order they bet, under these hashes. */
  ghost predicate LogOf(st: Market.Storage, market: string, events: seq<BetEvent>) {
    |events| == |st.bettors| &&
    forall i :: 0 <= i < |events| ==>
      && st.bettors[i] in st.bets && |st.bets[st.bettors[i]]| == 1
      && events[i].market == market
      && events[i].side == SideName(st.bets[st.bettors[i]][0].side)
      && events[i].amount == st.bets[st.bettors[i]][0].amount
  }

  lemma OneMoreStake(st: Market.Storage, market: string, events: seq<BetEvent>, side: Market.BetSide, n: nat)
    requires LogOf(st, market, events) && n < |events|
    ensures Staked(events[..n + 1], market, SideColumn(side))
         == Staked(events[..n], market, SideColumn(side)) + Total([st.bettors[n]], Stakes(st.bets, side))
  {
    var b := st.bettors[n];
    assert events[..n + 1] == events[..n] + [events[n]];
    StakedAppend(events[..n], events[n], market, SideColumn(side));
    SidesMatch(st.bets[b][0].side, side);
    SingleStake(st.bets, b, side);
  }

  lemma TotalMore(bettors: seq<Address>, weights: map<Address, int>, n: nat)
    requires n < |bettors|
    ensures Total(bettors[..n + 1], weights) == Total(bettors[..n], weights) + Total([bettors[n]], weights)
  {
    assert bettors[..n + 1] == bettors[..n] + [bettors[n]];
    TotalConcat(bettors[..n], [bettors[n]], weights);
  }

  lemma {:induction false} StakedIsTotal(
      st: Market.Storage, market: string, events: seq<BetEvent>, side: Market.BetSide, n: nat)
    requires LogOf(st, market, events) && n <= |events|
    ensures Staked(events[..n], market, SideColumn(side)) == Total(st.bettors[..n], Stakes(st.bets, side))
  {
    if n > 0 {
      StakedIsTotal(st, market, events, side, n - 1);
      OneMoreStake(st, market, events, side, n - 1);
      TotalMore(st.bettors, Stakes(st.bets, side), n - 1);
    }
  }

  lemma SidesMatch(a: Market.BetSide, b: Market.BetSide)
    ensures ColumnOf(SideName(a)) == SideColumn(b) <==> a == b
  {
    assert SideName(Market.BetSide.FighterA) != SideName(Market.BetSide.FighterB);
    assert "draw"[0] != "fighter_a"[0] && "draw"[0] != "fighter_b"[0];
    assert "fighter_a"[8] != "fighter_b"[8];
  }

  lemma SingleStake(bets: map<Address, seq<Market.BetRecord>>, b: Address, side: Market.BetSide)
    requires b in bets && |bets[b]| == 1
    ensures Total([b], Stakes(bets, side)) == if bets[b][0].side == side then bets[b][0].amount else 0
  {
    assert [b][1..] == [];
  }

  lemma CellMatches(st: Market.Storage, market: string, events: seq<BetEvent>, t: Tables, side: Market.BetSide)
    requires PoolsOk(st) && LogOf(st, market, events) && Balanced(t, [], market) && t.bets == events
    ensures Cell(t.markets[market], SideColumn(side)) == Market.Pool(st.state, side)
  {
    assert events[..|events|] == events && st.bettors[..|events|] == st.bettors;
    StakedIsTotal(st, market, events, side, |events|);
  }

  /** Indexing a contract's bets, each under its own hash, reproduces the contract's pools. */
  lemma RowMatchesContract(st: Market.Storage, market: string, events: seq<BetEvent>, t: Tables)
    requires PoolsOk(st) && LogOf(st, market, events)
    requires Empty(t, market) && DistinctHashes(events)
    ensures var n := Fold(t, events);
      market in n.markets
      && n.markets[market] == MarketRow(st.state.poolA, st.state.poolB, st.state.poolDraw, st.state.totalPool)
  {
    PoolsAreStoredPlusSkipped(t, events, market);
    DistinctStoredWhole(t, events);
    var n := Fold(t, events);
    CellMatches(st, market, events, n, Market.BetSide.FighterA);
    CellMatches(st, market, events, n, Market.BetSide.FighterB);
    CellMatches(st, market, events, n, Market.BetSide.Draw);
    assert AllStaked([], market) == 0;
    assert n.markets[market].totalPool == AllStaked(n.bets, market);
    assert forall col :: Cell(n.markets[market], col) == Staked(n.bets, market, col);
  }
}

/** The event handler over its tables. */
module ChainIndexer {
  import opened BetTables

  class Database {
    var bets: seq<BetEvent>
    var markets: map<string, MarketRow>

    function Value(): Tables reads this {
      Tables(bets, markets)
    }

    /** `BEGIN`, the insert, the update, then `COMMIT`, or `ROLLBACK` when the insert fails. */
    method OnBetPlaced(e: BetEvent)
      modifies this
      ensures Value() == HandleBetPlaced(old(Value()), e)
    {
      var known := false;
      var i := 0;
      while i < |bets|
        invariant 0 <= i <= |bets|
        invariant known <==> exists j :: 0 <= j < i && bets[j].txHash == e.txHash
      {
        if bets[i].txHash == e.txHash { known := true; }
        i := i + 1;
      }
      if !known {
        if e.market !in markets { return; }
        bets := bets + [e];
      }
      if e.market in markets {
        var row := markets[e.market];
        if e.side == "fighter_a" {
          row := row.(poolA := row.poolA + e.amount);
        } else if e.side == "fighter_b" {
          row := row.(poolB := row.poolB + e.amount);
        } else {
          row := row.(poolDraw := row.poolDraw + e.amount);
        }
        markets := markets[e.market := row.(totalPool := row.totalPool + e.amount)];
      }
    }
  }
}
