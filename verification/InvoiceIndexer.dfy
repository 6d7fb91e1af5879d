/** The invoice table and what one event, or a sequence of events, does to it. */
module InvoiceTable {
  import opened Wrappers

  datatype Invoice = Invoice(freelancer: string, payer: string, amount: int, dueDate: string, status: string)

  datatype Event =
    | Submitted(id: string, freelancer: string, payer: string, amount: int, dueDate: string)
    | Funded(id: string)
    | Paid(id: string)
    | Defaulted(id: string)
    | Ignored

  type Table = map<string, Invoice>

  function Keep(stored: string, given: string): string {
    if given == "" then stored else given
  }

  /** The conflict clause of the upsert: the status is replaced, other fields only by non-empty values. */
  function Merge(a: Invoice, b: Invoice): Invoice {
    Invoice(Keep(a.freelancer, b.freelancer), Keep(a.payer, b.payer),
            if b.amount == 0 then a.amount else b.amount, Keep(a.dueDate, b.dueDate), b.status)
  }

  function Upsert(t: Table, id: string, row: Invoice): Table {
    t[id := if id in t then Merge(t[id], row) else row]
  }

  /** The row an event writes; `clock` replaces a due date the event does not carry. */
  function RowOf(e: Event, clock: string): Option<(string, Invoice)> {
    match e
    case Submitted(id, freelancer, payer, amount, dueDate) =>
      Some((id, Invoice(freelancer, payer, amount, if dueDate == "" then clock else dueDate, "Pending")))
    case Funded(id) => Some((id, Invoice("", "", 0, "", "Funded")))
    case Paid(id) => Some((id, Invoice("", "", 0, "", "Paid")))
    case Defaulted(id) => Some((id, Invoice("", "", 0, "", "Defaulted")))
    case Ignored => None
  }

  function Process(t: Table, e: Event, clock: string): Table {
    match RowOf(e, clock)
    case None => t
    case Some((id, row)) => Upsert(t, id, row)
  }

  function Fold(t: Table, events: seq<Event>, clock: string): Table {
    if events == [] then t else Process(Fold(t, events[..|events| - 1], clock), events[|events| - 1], clock)
  }

  /**
   * The events of log[from..end] whose upsert does not fail; `failing` are places in the batch. The
   * indexer logs a failure and goes on.
   */
  function Batch(log: seq<Event>, from: nat, end: nat, failing: set<nat>): seq<Event>
    requires end <= |log|
    decreases end - from
  {
    if from >= end then []
    else Batch(log, from, end - 1, failing) + (if end - 1 - from in failing then [] else [log[end - 1]])
  }

  lemma {:induction false} BatchWhole(log: seq<Event>, from: nat, end: nat)
    requires from <= end <= |log|
    ensures Batch(log, from, end, {}) == log[from..end]
    decreases end - from
  {
    if from < end {
      BatchWhole(log, from, end - 1);
    }
  }

  predicate Dated(e: Event) {
    e.Submitted? ==> e.dueDate != ""
  }

  ghost predicate AllDated(events: seq<Event>) {
    forall e :: e in events ==> Dated(e)
  }

  /** Processing an event twice is the same as once, at any clock, exactly when it carries its due date. */
  lemma ReprocessIff(e: Event)
    ensures (forall t, c, d :: c != "" && d != "" ==> Process(Process(t, e, c), e, d) == Process(t, e, c)) <==> Dated(e)
  {
    if Dated(e) {
      forall t, c, d ensures Process(Process(t, e, c), e, d) == Process(t, e, c) {
        assert RowOf(e, c) == RowOf(e, d);
      }
    } else {
      var once := Process(map[], e, "a");
      assert Process(once, e, "b")[e.id].dueDate == "b" && once[e.id].dueDate == "a";
      assert Process(Process(map[], e, "a"), e, "b") != Process(map[], e, "a");
    }
  }

  // The combined effect of a sequence on one invoice

  function Compose(a: Option<Invoice>, b: Option<Invoice>): Option<Invoice> {
    if a.None? then b else if b.None? then a else Some(Merge(a.value, b.value))
  }

  function Patch(events: seq<Event>, id: string): Option<Invoice> {
    if events == [] then None
    else
      var before := Patch(events[..|events| - 1], id);
      match RowOf(events[|events| - 1], "")
      case None => before
      case Some((i, row)) => if i == id then Compose(before, Some(row)) else before
  }

  function Lookup(t: Table, id: string): Option<Invoice> {
    if id in t then Some(t[id]) else None
  }

  lemma {:induction false} FoldIsPatch(t: Table, events: seq<Event>, clock: string, id: string)
    requires AllDated(events)
    ensures Lookup(Fold(t, events, clock), id) == Compose(Lookup(t, id), Patch(events, id))
  {
    if events != [] {
      var before, e := events[..|events| - 1], events[|events| - 1];
      FoldIsPatch(t, before, clock, id);
      assert Dated(e) && RowOf(e, clock) == RowOf(e, "");
    }
  }

  lemma {:induction false} PatchConcat(a: seq<Event>, b: seq<Event>, id: string)
    ensures Patch(a + b, id) == Compose(Patch(a, id), Patch(b, id))
  {
    if b == [] {
      assert a + b == a;
    } else {
      assert (a + b)[..|a + b| - 1] == a + b[..|b| - 1];
      PatchConcat(a, b[..|b| - 1], id);
    }
  }

  /** What a later part will write again leaves no trace when written early. */
  lemma Absorbed(t: Option<Invoice>, a: Option<Invoice>, x: Option<Invoice>, b: Option<Invoice>)
    ensures var rest := Compose(a, Compose(x, b));
      Compose(Compose(t, x), rest) == Compose(t, rest)
  {
  }

  lemma TablesEqual(s: Table, t: Table)
    requires forall id :: Lookup(s, id) == Lookup(t, id)
    ensures s == t
  {
    forall id ensures (id in s <==> id in t) && (id in s ==> s[id] == t[id]) {
      assert Lookup(s, id) == Lookup(t, id);
    }
  }

  /** Processing any part of a sequence, then the whole sequence, is the same as the whole alone. */
  lemma ReplayAbsorbed(t: Table, a: seq<Event>, x: seq<Event>, b: seq<Event>, c: string, d: string)
    requires AllDated(a + x + b)
    ensures Fold(Fold(t, x, c), a + x + b, d) == Fold(t, a + x + b, d)
  {
    var all := a + x + b;
    assert forall e :: e in x ==> e in all;
    forall id ensures Lookup(Fold(Fold(t, x, c), all, d), id) == Lookup(Fold(t, all, d), id) {
      FoldIsPatch(t, x, c, id);
      FoldIsPatch(Fold(t, x, c), all, d, id);
      FoldIsPatch(t, all, d, id);
      assert all == a + (x + b);
      PatchConcat(a, x + b, id);
      PatchConcat(x, b, id);
      Absorbed(Lookup(t, id), Patch(a, id), Patch(x, id), Patch(b, id));
    }
    TablesEqual(Fold(Fold(t, x, c), all, d), Fold(t, all, d));
  }

  lemma FoldMore(t: Table, events: seq<Event>, e: Event, clock: string)
    ensures Fold(t, events + [e], clock) == Process(Fold(t, events, clock), e, clock)
  {
    assert (events + [e])[..|events|] == events;
  }

  lemma BatchMore(t: Table, log: seq<Event>, i: nat, failing: set<nat>, clock: string)
    requires i < |log|
    ensures var before := Fold(t, Batch(log, 0, i, failing), clock);
      Fold(t, Batch(log, 0, i + 1, failing), clock) == if i in failing then before else Process(before, log[i], clock)
  {
    if i in failing {
      assert Batch(log, 0, i + 1, failing) == Batch(log, 0, i, failing);
    } else {
      FoldMore(t, Batch(log, 0, i, failing), log[i], clock);
    }
  }

  lemma {:induction false} FoldConcat(t: Table, a: seq<Event>, b: seq<Event>, clock: string)
    ensures Fold(t, a + b, clock) == Fold(Fold(t, a, clock), b, clock)
  {
    if b == [] {
      assert a + b == a;
    } else {
      assert (a + b)[..|a + b| - 1] == a + b[..|b| - 1];
      FoldConcat(t, a, b[..|b| - 1], clock);
    }
  }

  lemma {:induction false} ClockIrrelevant(t: Table, events: seq<Event>, c: string, d: string)
    requires AllDated(events)
    ensures Fold(t, events, c) == Fold(t, events, d)
  {
    if events != [] {
      ClockIrrelevant(t, events[..|events| - 1], c, d);
      assert Dated(events[|events| - 1]);
    }
  }
}

/** The polling loop over an event log, with crashes, failed cursor saves and restarts. */
module InvoicePolling {
  import opened Wrappers
  import opened InvoiceTable

  const LIMIT: nat := 100

  /**
   * `cursor` is in memory, `saved` on disk; both count events of the log. `high` is the furthest
   * position processed.
   */
  datatype Poller = Poller(table: Table, cursor: Option<nat>, saved: Option<nat>, high: nat)

  /** What becomes of the cursor file: the new cursor, the old file, or one that reads as no cursor. */
  datatype Save = Stored | Kept | Torn

  /**
   * A poll processes a batch; then the save works or fails, and a failed one may have emptied the file
   * before. A crash comes after part of a batch, or while the cursor file is being written; the restart
   * takes any failure to read that file for no cursor, and leaves the file. `latest` is where the chain
   * stands when a poll that knows no cursor asks; `failing` are the places in the batch whose upsert fails.
   */
  datatype Step =
    | Poll(count: nat, clock: string, latest: nat, save: Save, failing: set<nat>)
    | Crash(count: nat, clock: string, latest: nat, torn: bool, failing: set<nat>, readable: bool)

  function Begin(log: seq<Event>, p: Poller, latest: nat): (from: nat)
    ensures p.cursor.None? ==> from <= |log|
  {
    if p.cursor.Some? then p.cursor.value else if latest <= |log| then latest else |log|
  }

  function AfterSave(saved: Option<nat>, cursor: nat, save: Save): Option<nat> {
    match save
    case Stored => Some(cursor)
    case Kept => saved
    case Torn => None
  }

  function Next(log: seq<Event>, p: Poller, s: Step): Poller {
    var from := Begin(log, p, s.latest);
    var end := from + s.count;
    if s.count > LIMIT || end > |log| then p
    else
      var table := Fold(p.table, Batch(log, from, end, s.failing), s.clock);
      var high := if end > p.high then end else p.high;
      match s
      case Poll(count, _, _, save, _) =>
        if count == 0 then Poller(table, p.cursor, p.saved, high)
        else Poller(table, Some(end), AfterSave(p.saved, end, save), high)
      case Crash(count, _, _, torn, _, readable) =>
        var left := if torn && count > 0 then None else p.saved;
        Poller(table, if readable then left else None, left, high)
  }

  function Run(log: seq<Event>, p: Poller, steps: seq<Step>): Poller {
    if steps == [] then p else Next(log, Run(log, p, steps[..|steps| - 1]), steps[|steps| - 1])
  }

  /** Reading on from `from` to any point past all work done gives the crash-free table at that point. */
  ghost predicate ResumesFrom(log: seq<Event>, start: Table, p: Poller, from: nat) {
    from <= p.high <= |log|
    && forall m :: p.high <= m <= |log| ==> AgreesAt(log, start, p.table, from, m)
  }

  ghost predicate AgreesAt(log: seq<Event>, start: Table, table: Table, from: nat, m: nat)
    requires from <= m <= |log|
  {
    Fold(table, log[from..m], "") == Fold(start, log[..m], "")
  }

  ghost predicate PollerOk(log: seq<Event>, start: Table, p: Poller) {
    && p.saved.Some? && p.cursor.Some? && p.saved.value <= p.cursor.value
    && ResumesFrom(log, start, p, p.cursor.value)
    && ResumesFrom(log, start, p, p.saved.value)
  }

  /** The poller as it stands after the events of a step, before any save or restart. */
  function Worked(log: seq<Event>, p: Poller, s: Step): Poller
    requires p.cursor.Some? && p.cursor.value + s.count <= |log|
  {
    var end := p.cursor.value + s.count;
    var high := if end > p.high then end else p.high;
    Poller(Fold(p.table, log[p.cursor.value..end], s.clock), Some(end), p.saved, high)
  }

  lemma ThreeParts<T>(s: seq<T>, a: nat, b: nat, c: nat, d: nat)
    requires a <= b <= c <= d <= |s|
    ensures s[a..d] == s[a..b] + s[b..c] + s[c..d]
  {
  }

  lemma WorkKeepsResumption(log: seq<Event>, start: Table, p: Poller, s: Step, from: nat)
    requires AllDated(log) && p.cursor.Some? && from <= p.cursor.value && p.cursor.value + s.count <= |log|
    requires ResumesFrom(log, start, p, from)
    ensures ResumesFrom(log, start, Worked(log, p, s), from)
  {
    var at, end, n := p.cursor.value, p.cursor.value + s.count, Worked(log, p, s);
    var x := log[at..end];
    forall m | n.high <= m <= |log| ensures AgreesAt(log, start, n.table, from, m) {
      var a, b := log[from..at], log[end..m];
      ThreeParts(log, from, at, end, m);
      assert forall e :: e in a + x + b ==> e in log;
      ReplayAbsorbed(p.table, a, x, b, s.clock, "");
      assert AgreesAt(log, start, p.table, from, m);
    }
  }

  lemma WorkAdvances(log: seq<Event>, start: Table, p: Poller, s: Step)
    requires AllDated(log) && p.cursor.Some? && p.cursor.value + s.count <= |log|
    requires ResumesFrom(log, start, p, p.cursor.value)
    ensures ResumesFrom(log, start, Worked(log, p, s), p.cursor.value + s.count)
  {
    var at, end, n := p.cursor.value, p.cursor.value + s.count, Worked(log, p, s);
    var x := log[at..end];
    forall m | n.high <= m <= |log| ensures AgreesAt(log, start, n.table, end, m) {
      assert log[at..m] == x + log[end..m];
      assert forall e :: e in x ==> e in log;
      ClockIrrelevant(p.table, x, s.clock, "");
      FoldConcat(p.table, x, log[end..m], "");
      assert AgreesAt(log, start, p.table, at, m);
    }
  }

  /** Resumption looks at the table and the furthest event only. */
  lemma ResumesFrame(log: seq<Event>, start: Table, p: Poller, q: Poller, from: nat)
    requires ResumesFrom(log, start, p, from) && q.table == p.table && q.high == p.high
    ensures ResumesFrom(log, start, q, from)
  {
  }

  lemma NextTable(log: seq<Event>, p: Poller, s: Step)
    requires p.cursor.Some? && s.failing == {} && s.count <= LIMIT && p.cursor.value + s.count <= |log|
    ensures Next(log, p, s).table == Worked(log, p, s).table && Next(log, p, s).high == Worked(log, p, s).high
  {
    BatchWhole(log, p.cursor.value, p.cursor.value + s.count);
  }

  lemma NextShape(log: seq<Event>, p: Poller, s: Step)
    requires p.cursor.Some? && p.saved.Some? && !Tears(s) && Reads(s)
    requires s.count <= LIMIT && p.cursor.value + s.count <= |log|
    ensures var end, n := p.cursor.value + s.count, Next(log, p, s);
      && n.cursor.Some? && n.cursor.value in {end, p.saved.value}
      && n.saved.Some? && n.saved.value in {end, p.saved.value}
      && (p.saved.value <= p.cursor.value ==> n.saved.value <= n.cursor.value)
  {
  }

  lemma NextOk(log: seq<Event>, start: Table, p: Poller, s: Step)
    requires AllDated(log) && PollerOk(log, start, p) && !Tears(s) && Reads(s) && s.failing == {}
    ensures PollerOk(log, start, Next(log, p, s))
  {
    if s.count <= LIMIT && p.cursor.value + s.count <= |log| {
      var w, n := Worked(log, p, s), Next(log, p, s);
      WorkAdvances(log, start, p, s);
      WorkKeepsResumption(log, start, p, s, p.saved.value);
      NextTable(log, p, s);
      NextShape(log, p, s);
      ResumesFrame(log, start, w, n, n.cursor.value);
      ResumesFrame(log, start, w, n, n.saved.value);
    }
  }

  predicate Tears(s: Step) {
    match s
    case Poll(_, _, _, save, _) => save.Torn?
    case Crash(_, _, _, torn, _, _) => torn
  }

  predicate Reads(s: Step) {
    s.Crash? ==> s.readable
  }

  /**
   * What is known of the deployment: the cursor file is replaced as a whole, it can be read at every
   * start, and no upsert fails.
   */
  datatype Assured = Assured(atomicSave: bool, readsSucceed: bool, upsertsSucceed: bool)

  predicate Fits(s: Step, known: Assured) {
    && (known.atomicSave ==> !Tears(s))
    && (known.readsSucceed ==> Reads(s))
    && (known.upsertsSucceed ==> s.failing == {})
  }

  ghost predicate Possible(steps: seq<Step>, known: Assured) {
    forall i :: 0 <= i < |steps| ==> Fits(steps[i], known)
  }

  lemma {:induction false} BatchOfSlice(log: seq<Event>, from: nat, end: nat, upTo: nat, failing: set<nat>)
    requires from <= upTo <= end <= |log|
    ensures Batch(log, from, upTo, failing) == Batch(log[from..end], 0, upTo - from, failing)
    decreases upTo
  {
    if from < upTo {
      BatchOfSlice(log, from, end, upTo - 1, failing);
      assert log[from..end][upTo - 1 - from] == log[upTo - 1];
    }
  }

  /** A poll of the run is the process's poll of that slice of the log. */
  lemma PollIsNext(log: seq<Event>, p: Poller, s: Step)
    requires s.Poll? && s.count <= LIMIT && Begin(log, p, s.latest) + s.count <= |log|
    ensures var from := Begin(log, p, s.latest); var events := log[from..from + s.count];
      var n := Next(log, p, s);
      && n.table == Fold(p.table, Batch(events, 0, |events|, s.failing), s.clock)
      && (if events == [] then n.cursor == p.cursor && n.saved == p.saved
          else n.cursor == Some(from + |events|) && n.saved == AfterSave(p.saved, from + |events|, s.save))
  {
    PollTable(log, p, s);
    PollCursor(log, p, s);
  }

  lemma PollTable(log: seq<Event>, p: Poller, s: Step)
    requires s.Poll? && s.count <= LIMIT && Begin(log, p, s.latest) + s.count <= |log|
    ensures var from := Begin(log, p, s.latest); var events := log[from..from + s.count];
      Next(log, p, s).table == Fold(p.table, Batch(events, 0, |events|, s.failing), s.clock)
  {
    var from := Begin(log, p, s.latest);
    BatchOfSlice(log, from, from + s.count, from + s.count, s.failing);
  }

  lemma PollCursor(log: seq<Event>, p: Poller, s: Step)
    requires s.Poll? && s.count <= LIMIT && Begin(log, p, s.latest) + s.count <= |log|
    ensures var end, n := Begin(log, p, s.latest) + s.count, Next(log, p, s);
      if s.count == 0 then n.cursor == p.cursor && n.saved == p.saved
      else n.cursor == Some(end) && n.saved == AfterSave(p.saved, end, s.save)
  {
  }

  lemma {:induction false} RunOk(log: seq<Event>, start: Table, p: Poller, steps: seq<Step>)
    requires AllDated(log) && PollerOk(log, start, p) && Possible(steps, Assured(true, true, true))
    ensures PollerOk(log, start, Run(log, p, steps))
  {
    if steps != [] {
      RunOk(log, start, p, steps[..|steps| - 1]);
      NextOk(log, start, Run(log, p, steps[..|steps| - 1]), steps[|steps| - 1]);
    }
  }

  /** A process that starts with this table and this cursor file, which it can read or not. */
  function Started(start: Table, saved: Option<nat>, readable: bool): Poller {
    Poller(start, if readable then saved else None, saved, 0)
  }

  /**
   * However crashes, failed saves and batch boundaries fall, once the poller has caught up with the
   * log its table is the one a single crash-free pass would have built.
   */
  lemma CrashSafe(log: seq<Event>, start: Table, steps: seq<Step>)
    requires AllDated(log) && Possible(steps, Assured(true, true, true))
    requires Run(log, Started(start, Some(0), true), steps).cursor == Some(|log|)
    ensures Run(log, Started(start, Some(0), true), steps).table == Fold(start, log, "")
  {
    var p := Started(start, Some(0), true);
    RunOk(log, start, p, steps);
    var q := Run(log, p, steps);
    assert log[|log|..|log|] == [] && log[..|log|] == log;
    assert AgreesAt(log, start, q.table, |log|, |log|);
  }

  /** Some schedule that is possible leads the poller here. */
  ghost predicate Reached(log: seq<Event>, start: Poller, known: Assured, p: Poller) {
    exists steps :: Possible(steps, known) && Run(log, start, steps) == p
  }

  lemma ReachStart(log: seq<Event>, start: Poller, known: Assured)
    ensures Reached(log, start, known, start)
  {
    assert Possible([], known) && Run(log, start, []) == start;
  }

  lemma Reach(log: seq<Event>, start: Poller, known: Assured, p: Poller, s: Step, q: Poller)
    requires Reached(log, start, known, p) && Fits(s, known) && Next(log, p, s) == q
    ensures Reached(log, start, known, q)
  {
    var steps :| Possible(steps, known) && Run(log, start, steps) == p;
    assert (steps + [s])[..|steps|] == steps;
    assert Possible(steps + [s], known) && Run(log, start, steps + [s]) == q;
  }

  lemma {:induction false} OnceFundedStays(t: Table, events: seq<Event>, id: string)
    requires Funded(id) in events
    ensures id in Fold(t, events, "")
  {
    var before, e := events[..|events| - 1], events[|events| - 1];
    if e != Funded(id) {
      OnceFundedStays(t, before, id);
    }
  }

  /** A step over no event, or over one whose upsert works or fails. */
  lemma ShortStep(t: Table, log: seq<Event>, from: nat)
    requires from <= |log|
    ensures Fold(t, Batch(log, from, from, {}), "") == t
    ensures from < |log| ==> Fold(t, Batch(log, from, from + 1, {}), "") == Process(t, log[from], "")
    ensures from < |log| ==> Fold(t, Batch(log, from, from + 1, {0}), "") == t
  {
    if from < |log| {
      FoldMore(t, [], log[from], "");
      assert Batch(log, from, from, {}) == [] && Batch(log, from, from, {0}) == [];
    }
  }

  /** A poller that has caught up over this log and lacks an invoice of it. */
  ghost predicate Lacks(saved: Option<nat>, log: seq<Event>, known: Assured) {
    AllDated(log) &&
    exists readable: bool, p :: (known.readsSucceed ==> readable)
      && Reached(log, Started(map[], saved, readable), known, p)
      && p.cursor == Some(|log|) && p.table != Fold(map[], log, "")
  }

  /** From nothing processed and no cursor in memory, whatever the file holds. */
  lemma SkippingPoll(log: seq<Event>, known: Assured, start: Poller, saved: Option<nat>, table: Table)
    requires |log| == 2 && table == Process(map[], log[1], "")
    requires Reached(log, start, known, Poller(map[], None, saved, 0))
    ensures Reached(log, start, known, Poller(table, Some(2), Some(2), 2))
  {
    ShortStep(map[], log, 1);
    Reach(log, start, known, Poller(map[], None, saved, 0), Poll(1, "", 1, Stored, {}),
          Poller(table, Some(2), Some(2), 2));
  }

  /** A poll that knows no cursor begins at the latest ledger and skips what lies before it. */
  lemma StartWithoutCursorSkips(known: Assured) returns (log: seq<Event>)
    ensures Lacks(None, log, known)
  {
    log := [Funded("a"), Funded("b")];
    var start, table := Started(map[], None, true), Process(map[], log[1], "");
    ReachStart(log, start, known);
    SkippingPoll(log, known, start, None, table);
    assert "a" !in table;
    OnceFundedStays(map[], log, "a");
  }

  /** The same when the file holds a cursor but cannot be read, at the start or after a restart. */
  lemma UnreadCursorSkips(known: Assured, byRestart: bool) returns (log: seq<Event>)
    requires !known.readsSucceed
    ensures Lacks(Some(0), log, known)
  {
    log := [Funded("a"), Funded("b")];
    var start, table := Started(map[], Some(0), byRestart), Process(map[], log[1], "");
    ReachStart(log, start, known);
    if byRestart {
      ShortStep(map[], log, 0);
      Reach(log, start, known, start, Crash(0, "", 0, false, {}, false), Poller(map[], None, Some(0), 0));
    }
    SkippingPoll(log, known, start, Some(0), table);
    assert "a" !in table;
    OnceFundedStays(map[], log, "a");
  }

  /** The first event is processed and the cursor is lost with it. */
  lemma CursorLost(log: seq<Event>, known: Assured, byCrash: bool)
    requires log != [] && !known.atomicSave
    ensures Reached(log, Started(map[], Some(0), true), known, Poller(Process(map[], log[0], ""), None, None, 1))
  {
    var start, table := Started(map[], Some(0), true), Process(map[], log[0], "");
    ReachStart(log, start, known);
    ShortStep(map[], log, 0);
    if byCrash {
      Reach(log, start, known, start, Crash(1, "", 0, true, {}, true), Poller(table, None, None, 1));
    } else {
      Reach(log, start, known, start, Poll(1, "", 0, Torn, {}), Poller(table, Some(1), None, 1));
      Restarts(log, start, known, table);
    }
  }

  /** A crash between polls, over a file that reads as no cursor. */
  lemma Restarts(log: seq<Event>, start: Poller, known: Assured, table: Table)
    requires log != [] && Reached(log, start, known, Poller(table, Some(1), None, 1))
    ensures Reached(log, start, known, Poller(table, None, None, 1))
  {
    ShortStep(table, log, 1);
    Reach(log, start, known, Poller(table, Some(1), None, 1), Crash(0, "", 0, false, {}, true),
          Poller(table, None, None, 1));
  }

  /** A crash or a failure while the cursor file is written loses the cursor, and the restart skips events. */
  lemma TornSaveSkips(known: Assured, byCrash: bool) returns (log: seq<Event>)
    requires !known.atomicSave
    ensures Lacks(Some(0), log, known)
  {
    log := [Funded("a"), Funded("b"), Funded("c")];
    var table := Process(Process(map[], log[0], ""), log[2], "");
    LostThenSkips(log, known, byCrash, table);
    assert "b" !in table;
    OnceFundedStays(map[], log, "b");
  }

  lemma LostThenSkips(log: seq<Event>, known: Assured, byCrash: bool, table: Table)
    requires |log| == 3 && !known.atomicSave && table == Process(Process(map[], log[0], ""), log[2], "")
    ensures Reached(log, Started(map[], Some(0), true), known, Poller(table, Some(3), Some(3), 3))
  {
    CursorLost(log, known, byCrash);
    var first := Process(map[], log[0], "");
    ShortStep(first, log, 2);
    Reach(log, Started(map[], Some(0), true), known, Poller(first, None, None, 1), Poll(1, "", 2, Stored, {}),
          Poller(table, Some(3), Some(3), 3));
  }

  /** A failed upsert is logged and passed over: the invoice is lost though nothing crashed. */
  lemma FailedUpsertLost(known: Assured) returns (log: seq<Event>)
    requires !known.upsertsSucceed
    ensures Lacks(Some(0), log, known)
  {
    log := [Funded("a")];
    var start := Started(map[], Some(0), true);
    ReachStart(log, start, known);
    ShortStep(map[], log, 0);
    Reach(log, start, known, start, Poll(1, "", 0, Stored, {0}), Poller(map[], Some(1), Some(1), 1));
    OnceFundedStays(map[], log, "a");
  }

  /** Catching up over any log by any possible schedule gives the table of one crash-free pass. */
  ghost predicate AlwaysAgrees(saved: Option<nat>, known: Assured) {
    forall log, start, readable: bool, p ::
      AllDated(log) && (known.readsSucceed ==> readable) && Reached(log, Started(start, saved, readable), known, p)
      && p.cursor == Some(|log|) ==>
        p.table == Fold(start, log, "")
  }

  /**
   * Crash safety holds for every log and schedule exactly when a cursor was saved to begin with, the
   * cursor file is replaced as a whole or not at all, every start can read it, and no upsert fails.
   */
  lemma CrashSafeIff(saved: Option<nat>, known: Assured)
    requires saved.Some? ==> saved.value == 0
    ensures AlwaysAgrees(saved, known)
       <==> saved.Some? && known.atomicSave && known.readsSucceed && known.upsertsSucceed
  {
    if saved.Some? && known.atomicSave && known.readsSucceed && known.upsertsSucceed {
      forall log, start, p |
        AllDated(log) && Reached(log, Started(start, saved, true), known, p) && p.cursor == Some(|log|)
        ensures p.table == Fold(start, log, "")
      {
        var steps :| Possible(steps, known) && Run(log, Started(start, saved, true), steps) == p;
        CrashSafe(log, start, steps);
      }
    } else {
      var log: seq<Event>;
      if saved.None? {
        log := StartWithoutCursorSkips(known);
      } else if !known.atomicSave {
        log := TornSaveSkips(known, false);
      } else if !known.readsSucceed {
        log := UnreadCursorSkips(known, true);
      } else {
        log := FailedUpsertLost(known);
      }
      assert Lacks(saved, log, known);
    }
  }
}

/** The indexer process over its table and cursors. */
module InvoiceIndexer {
  import opened Wrappers
  import opened InvoiceTable
  import opened InvoicePolling

  class Indexer {
    var invoices: Table
    var cursor: Option<nat>
    var saved: Option<nat>

    /** A start: a file that cannot be read counts as no cursor. */
    constructor (invoices: Table, saved: Option<nat>, readable: bool)
      ensures this.invoices == invoices && this.saved == saved && cursor == if readable then saved else None
    {
      this.invoices := invoices;
      this.saved := saved;
      cursor := if readable then saved else None;
    }

    method UpsertInvoice(id: string, row: Invoice)
      modifies this`invoices
      ensures invoices == Upsert(old(invoices), id, row)
    {
      if id in invoices {
        var stored := invoices[id];
        stored := stored.(status := row.status);
        if row.freelancer != "" { stored := stored.(freelancer := row.freelancer); }
        if row.payer != "" { stored := stored.(payer := row.payer); }
        if row.amount != 0 { stored := stored.(amount := row.amount); }
        if row.dueDate != "" { stored := stored.(dueDate := row.dueDate); }
        invoices := invoices[id := stored];
      } else {
        invoices := invoices[id := row];
      }
    }

    /** `fails` when the upsert throws, which is caught and logged. */
    method ProcessEvent(e: Event, clock: string, fails: bool)
      modifies this`invoices
      ensures invoices == if fails then old(invoices) else Process(old(invoices), e, clock)
    {
      if fails {
        return;
      }
      match e {
        case Submitted(id, freelancer, payer, amount, dueDate) =>
          UpsertInvoice(id, Invoice(freelancer, payer, amount, if dueDate != "" then dueDate else clock, "Pending"));
        case Funded(id) => UpsertInvoice(id, Invoice("", "", 0, "", "Funded"));
        case Paid(id) => UpsertInvoice(id, Invoice("", "", 0, "", "Paid"));
        case Defaulted(id) => UpsertInvoice(id, Invoice("", "", 0, "", "Defaulted"));
        case Ignored =>
      }
    }

    /** Truncates the file, then writes it; either may fail, and a failure is thrown. */
    method SaveCursor(position: nat, save: Save) returns (ok: bool)
      modifies this`saved
      ensures saved == AfterSave(old(saved), position, save) && ok == save.Stored?
    {
      if save.Kept? {
        return false;
      }
      saved := None;
      if save.Torn? {
        return false;
      }
      saved := Some(position);
      return true;
    }

    /** The loop over a batch. */
    method ProcessBatch(events: seq<Event>, clock: string, failing: set<nat>)
      modifies this`invoices
      ensures invoices == Fold(old(invoices), Batch(events, 0, |events|, failing), clock)
    {
      var i := 0;
      while i < |events|
        invariant 0 <= i <= |events|
        invariant invoices == Fold(old(invoices), Batch(events, 0, i, failing), clock)
      {
        BatchMore(old(invoices), events, i, failing, clock);
        ProcessEvent(events[i], clock, i in failing);
        i := i + 1;
      }
    }

    /**
     * One poll: all events first, then the cursor in memory, then the cursor on disk. The events lie
     * after the cursor, or after `latest` when there is none. A poll is successful when its save is.
     */
    method PollOnce(latest: nat, events: seq<Event>, clock: string, failing: set<nat>, save: Save)
      returns (ok: bool)
      modifies this
      ensures invoices == Fold(old(invoices), Batch(events, 0, |events|, failing), clock)
      ensures events == [] ==> ok && cursor == old(cursor) && saved == old(saved)
      ensures events != [] ==>
        var end := (if old(cursor).Some? then old(cursor).value else latest) + |events|;
        ok == save.Stored? && cursor == Some(end) && saved == AfterSave(old(saved), end, save)
    {
      if events == [] { return true; }
      ProcessBatch(events, clock, failing);
      var position := (if cursor.Some? then cursor.value else latest) + |events|;
      cursor := Some(position);
      ok := SaveCursor(position, save);
    }
  }
}
