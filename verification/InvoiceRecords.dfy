/** What the invoice table says of each invoice, told from the event log alone. */
module InvoiceRecords {
  import opened Wrappers
  import opened InvoiceTable
  import opened InvoicePolling

  predicate About(e: Event, id: string) {
    match e
    case Submitted(i, _, _, _, _) => i == id
    case Funded(i) => i == id
    case Paid(i) => i == id
    case Defaulted(i) => i == id
    case Ignored => false
  }

  /** The latest event about an invoice. */
  function Latest(log: seq<Event>, id: string): Option<Event> {
    if log == [] then None
    else if About(log[|log| - 1], id) then Some(log[|log| - 1])
    else Latest(log[..|log| - 1], id)
  }

  predicate Submits(e: Event, id: string) {
    e.Submitted? && e.id == id
  }

  // The latest value a submission gave for a field; an empty value or a zero gives none.

  function LatestFreelancer(log: seq<Event>, id: string): string {
    if log == [] then ""
    else
      var e := log[|log| - 1];
      if Submits(e, id) && e.freelancer != "" then e.freelancer else LatestFreelancer(log[..|log| - 1], id)
  }

  function LatestPayer(log: seq<Event>, id: string): string {
    if log == [] then ""
    else
      var e := log[|log| - 1];
      if Submits(e, id) && e.payer != "" then e.payer else LatestPayer(log[..|log| - 1], id)
  }

  function LatestAmount(log: seq<Event>, id: string): int {
    if log == [] then 0
    else
      var e := log[|log| - 1];
      if Submits(e, id) && e.amount != 0 then e.amount else LatestAmount(log[..|log| - 1], id)
  }

  /** A submission without a due date takes the time of its processing. */
  function LatestDueDate(log: seq<Event>, id: string, clock: string): string {
    if log == [] then ""
    else
      var e := log[|log| - 1];
      if Submits(e, id) && e.dueDate != "" then e.dueDate
      else if Submits(e, id) && clock != "" then clock
      else LatestDueDate(log[..|log| - 1], id, clock)
  }

  /** The status goes with the kind of the latest event. */
  ghost predicate StatusFits(status: string, last: Event) {
    && (last.Submitted? <==> status == "Pending")
    && (last.Funded? <==> status == "Funded")
    && (last.Paid? <==> status == "Paid")
    && (last.Defaulted? <==> status == "Defaulted")
  }

  ghost predicate RecordFits(inv: Invoice, log: seq<Event>, id: string, clock: string) {
    && Latest(log, id).Some? && StatusFits(inv.status, Latest(log, id).value)
    && inv.freelancer == LatestFreelancer(log, id)
    && inv.payer == LatestPayer(log, id)
    && inv.amount == LatestAmount(log, id)
    && inv.dueDate == LatestDueDate(log, id, clock)
  }

  lemma StatusesDiffer()
    ensures "Pending" != "Funded" && "Pending" != "Paid" && "Pending" != "Defaulted"
    ensures "Funded" != "Paid" && "Funded" != "Defaulted" && "Paid" != "Defaulted"
  {
    assert "Pending"[0] == 'P' && "Funded"[0] == 'F' && "Defaulted"[0] == 'D';
    assert |"Pending"| == 7 && |"Paid"| == 4;
  }

  /** Nothing is recorded of an invoice before its first event. */
  lemma {:induction false} NothingBefore(log: seq<Event>, id: string, clock: string)
    requires Latest(log, id).None?
    ensures LatestFreelancer(log, id) == "" && LatestPayer(log, id) == "" && LatestAmount(log, id) == 0
    ensures LatestDueDate(log, id, clock) == ""
  {
    if log != [] {
      NothingBefore(log[..|log| - 1], id, clock);
    }
  }

  /** One more event, about this invoice or another. */
  lemma OneMoreEvent(t: Table, before: seq<Event>, e: Event, id: string, clock: string)
    requires id in t <==> Latest(before, id).Some?
    requires id in t ==> RecordFits(t[id], before, id, clock)
    ensures var n := Process(t, e, clock);
      (id in n <==> Latest(before + [e], id).Some?) && (id in n ==> RecordFits(n[id], before + [e], id, clock))
  {
    assert (before + [e])[..|before|] == before;
    StatusesDiffer();
    if id !in t {
      NothingBefore(before, id, clock);
    }
  }

  /** Folding a log into the empty table records exactly the invoices it is about, as it last gave them. */
  lemma {:induction false} FoldRecords(log: seq<Event>, id: string, clock: string)
    ensures var t := Fold(map[], log, clock);
      (id in t <==> Latest(log, id).Some?) && (id in t ==> RecordFits(t[id], log, id, clock))
  {
    if log != [] {
      var before, e := log[..|log| - 1], log[|log| - 1];
      assert log == before + [e];
      FoldRecords(before, id, clock);
      OneMoreEvent(Fold(map[], before, clock), before, e, id, clock);
    }
  }

  lemma {:induction false} LatestIff(log: seq<Event>, id: string)
    ensures Latest(log, id).Some? <==> exists e :: e in log && About(e, id)
    ensures Latest(log, id).Some? ==> Latest(log, id).value in log && About(Latest(log, id).value, id)
  {
    if log != [] {
      LatestIff(log[..|log| - 1], id);
      assert forall e :: e in log <==> e in log[..|log| - 1] || e == log[|log| - 1];
    }
  }

  /**
   * The table of any log holds exactly the invoices that some event is about, each with the status of its
   * latest event and the latest values that were given.
   */
  lemma TableIsRecords(log: seq<Event>, clock: string)
    ensures var t := Fold(map[], log, clock);
      && (forall id :: id in t <==> exists e :: e in log && About(e, id))
      && (forall id :: id in t ==> RecordFits(t[id], log, id, clock))
  {
    forall id ensures var t := Fold(map[], log, clock);
      (id in t <==> exists e :: e in log && About(e, id)) && (id in t ==> RecordFits(t[id], log, id, clock))
    {
      FoldRecords(log, id, clock);
      LatestIff(log, id);
    }
  }

  /**
   * So does the table of a poller that started from an empty table and has caught up, whatever crashes,
   * failed saves and restarts it went through.
   */
  lemma PolledRecords(log: seq<Event>, steps: seq<Step>)
    requires AllDated(log) && Possible(steps, Assured(true, true, true))
    requires Run(log, Started(map[], Some(0), true), steps).cursor == Some(|log|)
    ensures var t := Run(log, Started(map[], Some(0), true), steps).table;
      && (forall id :: id in t <==> exists e :: e in log && About(e, id))
      && (forall id :: id in t ==> RecordFits(t[id], log, id, ""))
  {
    CrashSafe(log, map[], steps);
    TableIsRecords(log, "");
  }
}
