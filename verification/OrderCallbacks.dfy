/** The three handlers that turn unordered, repeated IB callbacks into ledger writes:
    orderStatus, execDetails and error. `OnReport` is what one callback does to the
    durable tables; the classes below do it in place. */
module OrderCallbacks {
  import opened Protocol
  import opened ExecutionLedgers

  // ------------------------------------------------------------- orderStatus

  function Upper(c: char): char {
    if 'a' <= c <= 'z' then (c as int - 32) as char else c
  }

  /** IB status text without underscores and blanks, in capitals. */
  function Compact(text: string): string {
    if text == "" then
      ""
    else
      (if text[0] == '_' || text[0] == ' ' then "" else [Upper(text[0])]) + Compact(text[1..])
  }

  function DetermineStatus(text: string, filled: real, remaining: real): Option<Status> {
    var status := Compact(text);
    if status == "FILLED" then Some(Filled)
    else if status == "CANCELLED" || status == "APICANCELLED" then Some(Cancelled)
    else if filled > 0.0 && remaining > 0.0 then Some(PartiallyFilled)
    else if status == "PENDINGSUBMIT" || status == "PRESUBMITTED" || status == "SUBMITTED" then Some(Acknowledged)
    else None
  }

  predicate IsStaleOrRegressive(current: Status, desired: Status) {
    if current.Cancelled? || current.Rejected? then true
    else if desired.Cancelled? || desired.Rejected? then false
    else desired.Rank() < current.Rank()
  }

  // ------------------------------------------------------------- execDetails

  datatype Execution = Execution(
    orderId: OrderId,
    execId: string,
    symbol: string,
    side: string,
    shares: real,
    cumulative: real)

  datatype ExecRow = ExecRow(event: EventId, orderId: OrderId, cumulative: real)

  /** The ledger and the table of processed IB execution ids. */
  datatype Books = Books(ledger: Ledger, rows: map<string, ExecRow>)

  function ExpectedSide(intent: TradeIntent): string {
    if intent.Buys() then "BOT" else "SLD"
  }

  datatype Screening = Refuse | Repeated | Accept(event: EventId)

  /** Validation of one execution, in the order the handler performs it. */
  ghost function Screen(b: Books, x: Execution): Screening {
    if x.shares <= 0.0 || x.cumulative <= 0.0 || x.shares > x.cumulative || x.execId == "" then
      Refuse
    else
      match LookupOf(b.ledger, x.orderId)
      case NoRecord => Refuse
      case SeveralRecords => Refuse
      case OneRecord(e) =>
        var record := b.ledger.records[e];
        if x.symbol != record.symbol || x.side != ExpectedSide(record.intent) then Refuse
        else if x.cumulative > record.quantity as real then Refuse
        else if x.execId in b.rows then Repeated
        else if record.status.Cancelled? || record.status.Rejected? then Refuse
        else Accept(e)
  }

  function WithRow(rows: map<string, ExecRow>, x: Execution, event: EventId): map<string, ExecRow> {
    if x.execId in rows then rows else rows[x.execId := ExecRow(event, x.orderId, x.cumulative)]
  }

  // ------------------------------------------------------------------- error

  datatype Severity =
    | Information | Warning | OrderRejected | OrderCancelled
    | ConnectionLost | ConnectionRestored | Critical | Unknown

  function Classify(code: nat): Severity {
    if code in {2104, 2106, 2107, 2108, 2158} then Information
    else if code in {1101, 1102} then ConnectionRestored
    else if code in {502, 1100, 2110} then ConnectionLost
    else if code in {100, 103, 1300, 503, 504, 507, 10015} then Critical
    else if code == 201 then OrderRejected
    else if code == 202 then OrderCancelled
    else if code in {2100, 2101, 2102, 2103, 2105, 2109, 2137, 2168, 2169} then Warning
    else Unknown
  }

  // ------------------------------------------------------------ one callback

  /** `Rejection` is the status transport's explicit rejection entry point. */
  datatype Report =
    | OrderStatus(id: OrderId, text: string, filled: real, remaining: real)
    | ExecDetails(execution: Execution)
    | Error(requestId: int, code: nat)
    | Rejection(id: OrderId)

  ghost function Owner(l: Ledger, id: int): Option<EventId> {
    if id >= 0 && LookupOf(l, id).OneRecord? then Some(LookupOf(l, id).event) else None
  }

  /** The status an orderStatus callback asks the ledger for. */
  function StatusRequest(current: Status, desired: Option<Status>): Option<Status> {
    if desired.None? || current == desired.value || IsStaleOrRegressive(current, desired.value) then None else desired
  }

  function ExecutionRequest(current: Status, full: bool): Option<Status> {
    if current.Filled? then None
    else if full then Some(Filled)
    else if current.PartiallyFilled? then None
    else Some(PartiallyFilled)
  }

  /** A confirmed rejection or cancellation counts unless the record is already terminal. */
  function ClosingRequest(current: Status, verdict: Status): Option<Status> {
    if current.Terminal() then None else Some(verdict)
  }

  /** The order a callback other than execDetails names. */
  function Target(r: Report): int {
    match r
    case OrderStatus(id, _, _, _) => id
    case ExecDetails(x) => x.orderId
    case Error(id, _) => id
    case Rejection(id) => id
  }

  /** What such a callback asks for when the order's record has status `current`. */
  function Verdict(r: Report, current: Status): Option<Status> {
    match r
    case OrderStatus(_, text, filled, remaining) =>
      if filled < 0.0 || remaining < 0.0 || text == "" then None
      else StatusRequest(current, DetermineStatus(text, filled, remaining))
    case ExecDetails(_) => None
    case Error(_, code) =>
      if Classify(code).OrderRejected? then ClosingRequest(current, Rejected)
      else if Classify(code).OrderCancelled? then ClosingRequest(current, Cancelled)
      else None
    case Rejection(_) => ClosingRequest(current, Rejected)
  }

  /** The record a callback wants to move, and where to. */
  ghost function RequestOf(b: Books, r: Report): Option<(EventId, Status)> {
    if r.ExecDetails? then
      ExecutionRequestOf(b, r.execution)
    else
      var owner := Owner(b.ledger, Target(r));
      if owner.None? then None else
      var next := Verdict(r, b.ledger.records[owner.value].status);
      if next.None? then None else Some((owner.value, next.value))
  }

  ghost function ExecutionRequestOf(b: Books, x: Execution): Option<(EventId, Status)> {
    if !Screen(b, x).Accept? then None else
    var record := b.ledger.records[Screen(b, x).event];
    var next := ExecutionRequest(record.status, x.cumulative == record.quantity as real);
    if next.None? then None else Some((Screen(b, x).event, next.value))
  }

  /** The ledger write of one callback; a refused write raises and leaves the ledger alone. */
  ghost function LedgerPart(b: Books, r: Report): Books {
    var wanted := RequestOf(b, r);
    if wanted.None? then b else
    b.(ledger := After(b.ledger, Transition(b.ledger, wanted.value.0, wanted.value.1, None)))
  }

  ghost predicate Refuses(b: Books, r: Report) {
    var wanted := RequestOf(b, r);
    wanted.Some? && Transition(b.ledger, wanted.value.0, wanted.value.1, None).Refused?
  }

  /** The whole callback. The execution id is recorded in a second, separate write. */
  ghost function OnReport(b: Books, r: Report): Books {
    var updated := LedgerPart(b, r);
    if r.ExecDetails? && Screen(b, r.execution).Accept? && !Refuses(b, r) then
      updated.(rows := WithRow(b.rows, r.execution, Screen(b, r.execution).event))
    else
      updated
  }

  ghost function OnReports(b: Books, rs: seq<Report>): Books {
    if rs == [] then b else OnReport(OnReports(b, rs[..|rs| - 1]), rs[|rs| - 1])
  }

  // --------------------------------------------- crash between the two writes

  lemma SameIdsSameLookup(l: Ledger, m: Ledger, id: OrderId)
    requires l.records.Keys == m.records.Keys
    requires forall e :: e in l.records ==> l.records[e].brokerId == m.records[e].brokerId
    ensures LookupOf(l, id) == LookupOf(m, id)
  {
    assert Holders(l, id) == Holders(m, id);
  }

  /** A crash after the fill update and before the execution row, followed by redelivery
      of the same execution, ends with the same ledger, log and rows as no crash. */
  lemma RedeliveryCompletesExecution(b: Books, x: Execution)
    ensures OnReport(LedgerPart(b, ExecDetails(x)), ExecDetails(x)) == OnReport(b, ExecDetails(x))
  {
    var half := LedgerPart(b, ExecDetails(x));
    SameIdsSameLookup(b.ledger, half.ledger, x.orderId);
  }

  // ------------------------------------------------- what callbacks preserve

  /** Ids are unique, a record has one only once submitted, and the table of executions
      never runs ahead of the ledger. */
  ghost predicate Tracked(b: Books) {
    match b
    case Books(ledger, _) => UniqueIds(ledger) && IdsAfterReserved(ledger) && RowsBehind(b)
  }

  ghost predicate RowsBehind(b: Books) {
    forall k :: k in b.rows ==> RowBehind(b.ledger, b.rows[k])
  }

  ghost predicate RowBehind(l: Ledger, row: ExecRow) {
    && row.event in l.records
    && var record := l.records[row.event];
    && record.brokerId == Some(row.orderId)
    && record.status.Rank() >= PartiallyFilled.Rank()
    && (row.cumulative == record.quantity as real ==> record.status == Filled)
  }

  predicate Raises(current: Status, next: Status) {
    current.MayBecome(next) && current.Rank() < next.Rank()
  }

  lemma DeterminedStatus(text: string, filled: real, remaining: real)
    ensures DetermineStatus(text, filled, remaining) in
              {None, Some(Acknowledged), Some(PartiallyFilled), Some(Filled), Some(Cancelled)}
  {
  }

  lemma StatusRequestIsLegal(current: Status, desired: Option<Status>)
    requires current != Reserved
    requires desired in {None, Some(Acknowledged), Some(PartiallyFilled), Some(Filled), Some(Cancelled)}
    ensures var next := StatusRequest(current, desired);
            next.Some? ==> Raises(current, next.value) || (current == Filled && next.value == Cancelled)
  {
  }

  lemma VerdictIsLegal(r: Report, current: Status)
    requires current != Reserved
    ensures var next := Verdict(r, current);
            next.Some? ==>
              Raises(current, next.value) || (r.OrderStatus? && current == Filled && next.value == Cancelled)
  {
    if r.OrderStatus? {
      DeterminedStatus(r.text, r.filled, r.remaining);
      StatusRequestIsLegal(current, DetermineStatus(r.text, r.filled, r.remaining));
    }
  }

  /** Every transition a callback requests is allowed and raises the rank. The one
      exception is an orderStatus cancellation of a FILLED record, which the ledger
      refuses, leaving all tables as they were. */
  lemma CallbackRequestsAreLegal(b: Books, r: Report)
    requires Tracked(b)
    ensures RequestOf(b, r).Some? ==>
              var (e, next) := RequestOf(b, r).value;
              && e in b.ledger.records
              && b.ledger.records[e].brokerId == Some(Target(r))
              && var current := b.ledger.records[e].status;
              || Raises(current, next)
              || (r.OrderStatus? && current == Filled && next == Cancelled && Refuses(b, r) && OnReport(b, r) == b)
  {
    if Target(r) >= 0 {
      LookupNeverAmbiguous(b.ledger, Target(r));
      var found := LookupOf(b.ledger, Target(r));
      if found.OneRecord? {
        VerdictIsLegal(r, b.ledger.records[found.event].status);
      }
    }
  }

  lemma ExtensionKeepsRows(l: Ledger, n: Ledger, rows: map<string, ExecRow>)
    requires Extends(l, n) && RowsBehind(Books(l, rows))
    ensures RowsBehind(Books(n, rows))
  {
    forall k | k in rows ensures RowBehind(n, rows[k]) {
      assert RowBehind(l, rows[k]);
    }
  }

  /** A transition that writes no broker id. */
  lemma TransitionKeepsTracked(b: Books, event: EventId, next: Status)
    requires Tracked(b) && next != Submitted
    ensures Tracked(Books(After(b.ledger, Transition(b.ledger, event, next, None)), b.rows))
  {
    var l, n := b.ledger, After(b.ledger, Transition(b.ledger, event, next, None));
    TransitionExtends(l, event, next, None);
    ExtensionKeepsRows(l, n, b.rows);
    assert forall e :: e in n.records ==> e in l.records && n.records[e].brokerId == l.records[e].brokerId;
    assert UniqueIds(n);
    assert IdsAfterReserved(n);
  }

  lemma RequestIsNotSubmission(b: Books, r: Report)
    requires RequestOf(b, r).Some?
    ensures RequestOf(b, r).value.1 != Submitted
  {
    if r.OrderStatus? {
      DeterminedStatus(r.text, r.filled, r.remaining);
    }
  }

  lemma LedgerPartKeepsTracked(b: Books, r: Report)
    requires Tracked(b)
    ensures Tracked(LedgerPart(b, r)) && LedgerPart(b, r).rows == b.rows
    ensures Extends(b.ledger, LedgerPart(b, r).ledger)
  {
    if RequestOf(b, r).Some? {
      var (event, next) := RequestOf(b, r).value;
      RequestIsNotSubmission(b, r);
      TransitionKeepsTracked(b, event, next);
      TransitionExtends(b.ledger, event, next, None);
    }
  }

  lemma AcceptedRowIsBehind(b: Books, x: Execution)
    requires Tracked(b) && Screen(b, x).Accept? && !Refuses(b, ExecDetails(x))
    ensures RowBehind(LedgerPart(b, ExecDetails(x)).ledger, ExecRow(Screen(b, x).event, x.orderId, x.cumulative))
  {
    CallbackRequestsAreLegal(b, ExecDetails(x));
  }

  lemma InsertionKeepsTracked(b: Books, x: Execution, event: EventId)
    requires Tracked(b) && RowBehind(b.ledger, ExecRow(event, x.orderId, x.cumulative))
    ensures Tracked(Books(b.ledger, WithRow(b.rows, x, event)))
  {
    var after := Books(b.ledger, WithRow(b.rows, x, event));
    assert RowsBehind(after);
  }

  lemma CallbackKeepsTracked(b: Books, r: Report)
    requires Tracked(b)
    ensures Tracked(OnReport(b, r)) && OnReport(b, r).ledger == LedgerPart(b, r).ledger
  {
    LedgerPartKeepsTracked(b, r);
    if r.ExecDetails? && Screen(b, r.execution).Accept? && !Refuses(b, r) {
      AcceptedRowIsBehind(b, r.execution);
      InsertionKeepsTracked(LedgerPart(b, r), r.execution, Screen(b, r.execution).event);
    }
  }

  // -------------------------------------------------------------- confluence

  function HigherOf(a: Status, b: Status): Status {
    if a.Rank() < b.Rank() then b else a
  }

  /** How far a report says order `id`, of quantity `quantity`, has come. */
  function Level(r: Report, id: OrderId, quantity: int): Status {
    match r
    case OrderStatus(order, text, filled, remaining) =>
      if order == id && text != "" && filled >= 0.0 && remaining >= 0.0
         && DetermineStatus(text, filled, remaining).Some?
      then DetermineStatus(text, filled, remaining).value else Submitted
    case ExecDetails(x) =>
      if x.orderId != id then Submitted else if x.cumulative == quantity as real then Filled else PartiallyFilled
    case Error(_, _) => Submitted
    case Rejection(_) => Submitted
  }

  /** The highest level among the start and all reports. */
  function Highest(start: Status, rs: seq<Report>, id: OrderId, quantity: int): Status {
    if rs == [] then start
    else HigherOf(Highest(start, rs[..|rs| - 1], id, quantity), Level(rs[|rs| - 1], id, quantity))
  }

  /** Reports about this order announce progress: no rejection, no cancellation, and
      executions that pass the handler's checks. Reports about other orders are free. */
  ghost predicate Progress(r: Report, id: OrderId, record: Record) {
    match r
    case OrderStatus(order, text, filled, remaining) =>
      order == id ==> DetermineStatus(text, filled, remaining) != Some(Cancelled)
    case ExecDetails(x) =>
      x.orderId == id ==>
        && x.execId != "" && 0.0 < x.shares <= x.cumulative <= record.quantity as real
        && x.symbol == record.symbol && x.side == ExpectedSide(record.intent)
    case Error(order, code) => order == id ==> Classify(code) != OrderRejected && Classify(code) != OrderCancelled
    case Rejection(order) => order != id
  }

  /** An execution id always names the same order and cumulative quantity. */
  ghost predicate Faithful(r: Report, facts: string -> (OrderId, real)) {
    r.ExecDetails? ==> facts(r.execution.execId) == (r.execution.orderId, r.execution.cumulative)
  }

  ghost predicate FaithfulRows(rows: map<string, ExecRow>, facts: string -> (OrderId, real)) {
    forall k :: k in rows ==> facts(k) == (rows[k].orderId, rows[k].cumulative)
  }

  predicate InProgress(s: Status) {
    s.Submitted? || s.Acknowledged? || s.PartiallyFilled? || s.Filled?
  }

  lemma ExecutionLifts(b: Books, event: EventId, x: Execution)
    requires Tracked(b) && event in b.ledger.records && b.ledger.records[event].brokerId == Some(x.orderId)
    requires InProgress(b.ledger.records[event].status) && Progress(ExecDetails(x), x.orderId, b.ledger.records[event])
    requires x.execId in b.rows ==> b.rows[x.execId].orderId == x.orderId && b.rows[x.execId].cumulative == x.cumulative
    ensures var record := b.ledger.records[event];
            && event in LedgerPart(b, ExecDetails(x)).ledger.records
            && LedgerPart(b, ExecDetails(x)).ledger.records[event]
               == record.(status := HigherOf(record.status, Level(ExecDetails(x), x.orderId, record.quantity)))
  {
    LookupFindsOwner(b.ledger, event, x.orderId);
    if x.execId in b.rows {
      assert RowBehind(b.ledger, b.rows[x.execId]);
      assert b.rows[x.execId].event == event;
    }
  }

  lemma VerdictLifts(r: Report, id: OrderId, record: Record)
    requires !r.ExecDetails? && InProgress(record.status) && Progress(r, id, record) && Target(r) == id
    ensures var next := Verdict(r, record.status);
            && (next.Some? ==> record.status.MayBecome(next.value))
            && HigherOf(record.status, Level(r, id, record.quantity))
               == if next.Some? then next.value else record.status
  {
    if r.OrderStatus? {
      DeterminedStatus(r.text, r.filled, r.remaining);
    }
  }

  /** One report lifts the order to the higher of its status and the report's level. */
  lemma ReportLifts(b: Books, event: EventId, id: OrderId, r: Report, facts: string -> (OrderId, real))
    requires Tracked(b) && event in b.ledger.records && b.ledger.records[event].brokerId == Some(id)
    requires InProgress(b.ledger.records[event].status)
    requires Progress(r, id, b.ledger.records[event]) && Faithful(r, facts) && FaithfulRows(b.rows, facts)
    ensures var record := b.ledger.records[event];
            && event in LedgerPart(b, r).ledger.records
            && LedgerPart(b, r).ledger.records[event]
               == record.(status := HigherOf(record.status, Level(r, id, record.quantity)))
  {
    LookupFindsOwner(b.ledger, event, id);
    if Target(r) == id {
      if r.ExecDetails? {
        ExecutionLifts(b, event, r.execution);
      } else {
        VerdictLifts(r, id, b.ledger.records[event]);
      }
    } else {
      OtherOrderUntouched(b, event, id, r);
    }
  }

  lemma OtherOrderUntouched(b: Books, event: EventId, id: OrderId, r: Report)
    requires Tracked(b) && event in b.ledger.records && b.ledger.records[event].brokerId == Some(id) && Target(r) != id
    ensures event in LedgerPart(b, r).ledger.records
    ensures LedgerPart(b, r).ledger.records[event] == b.ledger.records[event]
  {
    CallbackRequestsAreLegal(b, r);
  }

  lemma RowsStayFaithful(b: Books, r: Report, facts: string -> (OrderId, real))
    requires Faithful(r, facts) && FaithfulRows(b.rows, facts)
    ensures FaithfulRows(OnReport(b, r).rows, facts)
  {
  }

  /** After any sequence of reports the order's status is the highest level reported. */
  lemma {:induction false} ReportsReachHighest(b: Books, event: EventId, id: OrderId, rs: seq<Report>,
                                               facts: string -> (OrderId, real))
    requires Tracked(b) && event in b.ledger.records && b.ledger.records[event].brokerId == Some(id)
    requires InProgress(b.ledger.records[event].status) && FaithfulRows(b.rows, facts)
    requires forall i :: 0 <= i < |rs| ==> Progress(rs[i], id, b.ledger.records[event]) && Faithful(rs[i], facts)
    ensures var after, record := OnReports(b, rs), b.ledger.records[event];
            && Tracked(after) && event in after.ledger.records && FaithfulRows(after.rows, facts)
            && after.ledger.records[event] == record.(status := Highest(record.status, rs, id, record.quantity))
            && InProgress(after.ledger.records[event].status)
  {
    if rs != [] {
      var earlier := rs[..|rs| - 1];
      ReportsReachHighest(b, event, id, earlier, facts);
      var middle := OnReports(b, earlier);
      CallbackKeepsTracked(middle, rs[|rs| - 1]);
      ReportLifts(middle, event, id, rs[|rs| - 1], facts);
      RowsStayFaithful(middle, rs[|rs| - 1], facts);
    }
  }

  /** The highest level is an upper bound that some report or the start attains. */
  lemma {:induction false} HighestIsMaximum(start: Status, rs: seq<Report>, id: OrderId, quantity: int)
    ensures var top := Highest(start, rs, id, quantity);
            && start.Rank() <= top.Rank()
            && (forall r :: r in rs ==> Level(r, id, quantity).Rank() <= top.Rank())
            && (top == start || exists r :: r in rs && Level(r, id, quantity) == top)
  {
    if rs != [] {
      var earlier, last := rs[..|rs| - 1], rs[|rs| - 1];
      HighestIsMaximum(start, earlier, id, quantity);
      assert forall r :: r in rs <==> r in earlier || r == last by {
        assert rs == earlier + [last];
      }
    }
  }

  /** Confluence: two deliveries made of the same reports, however reordered, repeated or
      interleaved with reports about other orders, leave the order in the same status. */
  lemma CallbacksConfluent(b: Books, event: EventId, id: OrderId, rs: seq<Report>, ss: seq<Report>,
                           facts: string -> (OrderId, real))
    requires Tracked(b) && event in b.ledger.records && b.ledger.records[event].brokerId == Some(id)
    requires InProgress(b.ledger.records[event].status) && FaithfulRows(b.rows, facts)
    requires forall r :: r in rs || r in ss ==> Progress(r, id, b.ledger.records[event]) && Faithful(r, facts)
    requires forall r :: Target(r) == id ==> (r in rs <==> r in ss)
    ensures event in OnReports(b, rs).ledger.records && event in OnReports(b, ss).ledger.records
    ensures OnReports(b, rs).ledger.records[event] == OnReports(b, ss).ledger.records[event]
  {
    var record := b.ledger.records[event];
    var top, top' := Highest(record.status, rs, id, record.quantity), Highest(record.status, ss, id, record.quantity);
    ReportsReachHighest(b, event, id, rs, facts);
    ReportsReachHighest(b, event, id, ss, facts);
    HighestIsMaximum(record.status, rs, id, record.quantity);
    HighestIsMaximum(record.status, ss, id, record.quantity);
    assert forall r :: Target(r) != id ==> Level(r, id, record.quantity) == Submitted;
    assert top.Rank() == top'.Rank();
  }
}
