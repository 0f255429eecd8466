/** Every way the execution core can run: a caller that reserves and submits, the IB thread
    delivering callbacks, and crashes between any two durable writes. A crash keeps the
    ledger, the execution rows and the broker's calls, and wipes everything else. */
module ExecutionMachines {
  import opened Protocol
  import opened ExecutionLedgers
  import opened OrderCallbacks
  import opened ExecutionClients
  import opened OrderIdAllocators

  datatype Machine = Machine(
    client: Client,
    rows: map<string, ExecRow>,
    allocator: Allocator,
    issued: Option<OrderId>,      // taken from the allocator, not yet written to the ledger
    placing: Option<Call>,        // SUBMITTED is durable, the broker call is next
    inserting: Option<(Execution, EventId)>)  // ledger updated, execution row is next

  datatype Action =
    | Connect(nextValidId: OrderId)
    | ObserveId(id: OrderId)
    | Issue
    | ReserveEvent(request: TradeRequest)
    | Begin(request: TradeRequest, contractValid: bool)
    | Place
    | ResolveUnsent(event: EventId)
    | Callback(report: Report)
    | InsertRow
    | Crash

  const START := Machine(Client(EMPTY, map[], []), map[], FRESH, None, None, None)

  /** The least id above every broker id stored in the ledger; 0 if there is none. */
  ghost function DurableFloor(l: Ledger): nat
    ensures forall e :: e in l.records && l.records[e].brokerId.Some? ==> l.records[e].brokerId.value < DurableFloor(l)
  {
    FloorOf(l, l.records.Keys)
  }

  ghost function FloorOf(l: Ledger, events: set<EventId>): nat
    requires events <= l.records.Keys
    ensures forall e :: e in events && l.records[e].brokerId.Some? ==> l.records[e].brokerId.value < FloorOf(l, events)
  {
    if events == {} then 0 else
    var e :| e in events;
    Above(FloorOf(l, events - {e}), l.records[e].brokerId)
  }

  ghost function Tables(m: Machine): Books {
    Books(m.client.ledger, m.rows)
  }

  /** The caller runs one submission at a time and the IB thread one callback at a time. */
  ghost predicate Enabled(m: Machine, a: Action) {
    match a
    case Connect(_) => true
    case ObserveId(_) => true
    case Issue => m.placing.None? && Allocate(m.allocator).Some?
    case ReserveEvent(_) => m.placing.None?
    case Begin(_, _) => m.placing.None? && m.issued.Some?
    case Place => m.placing.Some?
    case ResolveUnsent(e) =>
      m.placing.None? && e in m.client.ledger.records && m.client.ledger.records[e].status == Reserved
    case Callback(_) => m.inserting.None?
    case InsertRow => m.inserting.Some?
    case Crash => true
  }

  ghost function Next(m: Machine, a: Action): Machine
    requires Enabled(m, a)
  {
    match a
    case Connect(id) =>
      m.(allocator := EnsureMinimum(Initialize(m.allocator, id), DurableFloor(m.client.ledger)))
    case ObserveId(id) => m.(allocator := Observe(m.allocator, id))
    case Issue => m.(allocator := Allocate(m.allocator).value.1, issued := Some(Allocate(m.allocator).value.0))
    case ReserveEvent(request) => m.(client := ReserveExecution(m.client, request).client)
    case Begin(request, valid) =>
      var begun := BeginSubmission(m.client, request, m.issued.value, valid);
      if begun.error.None?
      then m.(client := begun.client, issued := None, placing := Some(OrderFor(request, m.issued.value)))
      else m.(client := begun.client)
    case Place => m.(client := m.client.(calls := m.client.calls + [m.placing.value]), placing := None)
    case ResolveUnsent(e) =>
      m.(client := m.client.(ledger := After(m.client.ledger, Transition(m.client.ledger, e, Rejected, None))))
    case Callback(r) =>
      var written := m.(client := m.client.(ledger := LedgerPart(Tables(m), r).ledger));
      if r.ExecDetails? && Screen(Tables(m), r.execution).Accept? && !Refuses(Tables(m), r)
      then written.(inserting := Some((r.execution, Screen(Tables(m), r.execution).event)))
      else written
    case InsertRow => m.(rows := WithRow(m.rows, m.inserting.value.0, m.inserting.value.1), inserting := None)
    case Crash => Machine(m.client.(guard := map[]), m.rows, FRESH, None, None, None)
  }

  // ---------------------------------------------------------------- invariant

  /** A call of the broker is backed by a record that has left RESERVED, carries the same
      broker id, and fixes the side and the quantity. */
  ghost predicate Backed(l: Ledger, call: Call) {
    && call.event in l.records
    && var record := l.records[call.event];
    && record.status != Reserved
    && record.brokerId == Some(call.orderId)
    && record.quantity == call.quantity
    && record.intent.Buys() == call.buys
  }

  ghost predicate CallsBacked(m: Machine) {
    match m
    case Machine(Client(ledger, _, calls), _, _, _, placing, _) =>
      && (forall i :: 0 <= i < |calls| ==> Backed(ledger, calls[i]))
      && (forall i, j :: 0 <= i < j < |calls| ==> calls[i].event != calls[j].event)
      && (placing.Some? ==>
            && Backed(ledger, placing.value)
            && forall i :: 0 <= i < |calls| ==> calls[i].event != placing.value.event)
  }

  ghost predicate StoredBelow(l: Ledger, bound: nat) {
    forall e :: e in l.records && l.records[e].brokerId.Some? ==> l.records[e].brokerId.value < bound
  }

  ghost predicate IdsAhead(m: Machine) {
    match m
    case Machine(Client(ledger, _, _), _, allocator, issued, _, _) =>
      && (allocator.initialized <==> allocator.next.Some?)
      && (allocator.initialized ==> StoredBelow(ledger, allocator.next.value))
      && (issued.Some? ==>
            allocator.initialized && issued.value < allocator.next.value && StoredBelow(ledger, issued.value))
  }

  /** The histories climb in rank, row by row. */
  ghost predicate Climbs(h: seq<Row>) {
    forall i :: 0 < i < |h| ==> h[i - 1].after.Rank() < h[i].after.Rank()
  }

  ghost predicate LedgerSound(l: Ledger) {
    match l
    case Ledger(records, log) =>
      Agrees(l) && IdsWrittenOnce(l) && forall e :: e in records ==> Climbs(History(log, e))
  }

  ghost predicate InsertionBehind(m: Machine) {
    match m.inserting
    case None => true
    case Some((x, event)) => RowBehind(m.client.ledger, ExecRow(event, x.orderId, x.cumulative))
  }

  ghost predicate Sound(m: Machine) {
    match m
    case Machine(client, rows, _, _, _, _) =>
      && LedgerSound(client.ledger)
      && Tracked(Books(client.ledger, rows))
      && CallsBacked(m)
      && IdsAhead(m)
      && InsertionBehind(m)
      && client.guard.Keys <= client.ledger.records.Keys
  }

  lemma ReserveKeepsLedgerSound(l: Ledger, request: TradeRequest)
    requires LedgerSound(l)
    ensures LedgerSound(After(l, Reserve(l, request)))
  {
    ReserveKeepsAgreement(l, request);
    ReserveKeepsIds(l, request);
    var r := Reserve(l, request);
    if r.Done? {
      forall e | e in r.ledger.records ensures Climbs(History(r.ledger.log, e)) {
        assert AgreesAt(l, e);
        HistoryOfAppended(l.log, Row(request.event, None, Reserved, None), e);
      }
    }
  }

  /** Any transition but PARTIALLY_FILLED to itself climbs. */
  lemma TransitionClimbs(l: Ledger, event: EventId, next: Status, id: Option<OrderId>)
    requires Agrees(l) && forall e :: e in l.records ==> Climbs(History(l.log, e))
    requires event in l.records ==> l.records[event].status != next
    ensures var n := After(l, Transition(l, event, next, id)); forall e :: e in n.records ==> Climbs(History(n.log, e))
  {
    var r := Transition(l, event, next, id);
    if r.Done? {
      var row := r.ledger.log[|l.log|];
      forall e | e in r.ledger.records ensures Climbs(History(r.ledger.log, e)) {
        HistoryOfAppended(l.log, row, e);
        assert AgreesAt(l, e) && Climbs(History(l.log, e));
      }
    }
  }

  lemma TransitionKeepsLedgerSound(l: Ledger, event: EventId, next: Status, id: Option<OrderId>)
    requires LedgerSound(l)
    requires id.Some? <==> next == Submitted
    requires event in l.records ==> l.records[event].status != next
    ensures LedgerSound(After(l, Transition(l, event, next, id)))
  {
    TransitionKeepsAgreement(l, event, next, id);
    MarkKeepsIds(l, event, next, id);
    TransitionClimbs(l, event, next, id);
  }

  lemma ReserveKeepsBelow(l: Ledger, request: TradeRequest, bound: nat)
    requires StoredBelow(l, bound)
    ensures StoredBelow(After(l, Reserve(l, request)), bound)
  {
  }

  lemma TransitionKeepsBelow(l: Ledger, event: EventId, next: Status, bound: nat)
    requires StoredBelow(l, bound)
    ensures StoredBelow(After(l, Transition(l, event, next, None)), bound)
  {
  }

  lemma CallbackKeepsLedgerSound(b: Books, r: Report)
    requires LedgerSound(b.ledger) && Tracked(b)
    ensures LedgerSound(LedgerPart(b, r).ledger) && Extends(b.ledger, LedgerPart(b, r).ledger)
  {
    CallbackRequestsAreLegal(b, r);
    var wanted := RequestOf(b, r);
    if wanted.Some? && !Refuses(b, r) {
      RequestIsNotSubmission(b, r);
      TransitionKeepsLedgerSound(b.ledger, wanted.value.0, wanted.value.1, None);
      TransitionExtends(b.ledger, wanted.value.0, wanted.value.1, None);
    }
  }

  lemma ExtensionKeepsCalls(m: Machine, n: Machine)
    requires CallsBacked(m) && Extends(m.client.ledger, n.client.ledger)
    requires n.client.calls == m.client.calls && n.placing == m.placing
    ensures CallsBacked(n)
  {
    forall i | 0 <= i < |n.client.calls| ensures Backed(n.client.ledger, n.client.calls[i]) {
      assert Backed(m.client.ledger, m.client.calls[i]);
    }
  }

  /** The allocator stays ahead while the ledger stores no new id. */
  lemma SameIdsStayAhead(m: Machine, n: Machine)
    requires IdsAhead(m) && n.allocator == m.allocator && n.issued == m.issued
    requires forall bound :: StoredBelow(m.client.ledger, bound) ==> StoredBelow(n.client.ledger, bound)
    ensures IdsAhead(n)
  {
  }

  lemma CallbackKeepsIdsAhead(m: Machine, r: Report)
    requires IdsAhead(m) && m.inserting.None?
    ensures IdsAhead(Next(m, Callback(r)))
  {
    var wanted := RequestOf(Tables(m), r);
    if wanted.Some? {
      forall bound | StoredBelow(m.client.ledger, bound)
        ensures StoredBelow(LedgerPart(Tables(m), r).ledger, bound)
      {
        TransitionKeepsBelow(m.client.ledger, wanted.value.0, wanted.value.1, bound);
      }
    }
    SameIdsStayAhead(m, Next(m, Callback(r)));
  }

  lemma CallbackShape(m: Machine, r: Report)
    requires m.inserting.None?
    ensures var next := Next(m, Callback(r));
            next == m.(client := m.client.(ledger := LedgerPart(Tables(m), r).ledger), inserting := next.inserting)
  {
  }

  lemma LedgerPartKeepsRows(b: Books, r: Report)
    ensures LedgerPart(b, r).rows == b.rows
  {
  }

  lemma CallbackStep(m: Machine, r: Report)
    requires Sound(m) && m.inserting.None?
    ensures Sound(Next(m, Callback(r)))
  {
    var next := Next(m, Callback(r));
    CallbackShape(m, r);
    CallbackKeepsLedgerSound(Tables(m), r);
    LedgerPartKeepsTracked(Tables(m), r);
    LedgerPartKeepsRows(Tables(m), r);
    ExtensionKeepsCalls(m, next);
    CallbackKeepsIdsAhead(m, r);
    CallbackKeepsInsertion(m, r);
  }

  lemma CallbackKeepsInsertion(m: Machine, r: Report)
    requires Tracked(Tables(m)) && m.inserting.None?
    ensures InsertionBehind(Next(m, Callback(r)))
  {
    if r.ExecDetails? && Screen(Tables(m), r.execution).Accept? && !Refuses(Tables(m), r) {
      AcceptedRowIsBehind(Tables(m), r.execution);
    }
  }

  lemma ReserveKeepsTracked(b: Books, request: TradeRequest)
    requires Tracked(b)
    ensures Tracked(Books(After(b.ledger, Reserve(b.ledger, request)), b.rows))
  {
    var n := After(b.ledger, Reserve(b.ledger, request));
    ReserveExtends(b.ledger, request);
    ExtensionKeepsRows(b.ledger, n, b.rows);
    assert UniqueIds(n);
    assert IdsAfterReserved(n);
  }

  /** A broker id above every stored one stays unique. */
  lemma SubmissionKeepsTracked(b: Books, e: EventId, id: OrderId)
    requires Tracked(b) && StoredBelow(b.ledger, id)
    ensures Tracked(Books(After(b.ledger, Transition(b.ledger, e, Submitted, Some(id))), b.rows))
    ensures StoredBelow(After(b.ledger, Transition(b.ledger, e, Submitted, Some(id))), id + 1)
  {
    var n := After(b.ledger, Transition(b.ledger, e, Submitted, Some(id)));
    TransitionExtends(b.ledger, e, Submitted, Some(id));
    ExtensionKeepsRows(b.ledger, n, b.rows);
    assert UniqueIds(n);
    assert IdsAfterReserved(n);
  }

  lemma ExtensionKeepsRest(m: Machine, n: Machine)
    requires CallsBacked(m) && InsertionBehind(m) && Extends(m.client.ledger, n.client.ledger)
    requires n.client.calls == m.client.calls && n.placing == m.placing && n.inserting == m.inserting
    ensures CallsBacked(n) && InsertionBehind(n)
  {
    ExtensionKeepsCalls(m, n);
    ExtensionKeepsInsertion(m, n);
  }

  lemma ExtensionKeepsInsertion(m: Machine, n: Machine)
    requires InsertionBehind(m) && Extends(m.client.ledger, n.client.ledger) && n.inserting == m.inserting
    ensures InsertionBehind(n)
  {
  }

  lemma ReserveStep(m: Machine, request: TradeRequest)
    requires Sound(m) && m.placing.None?
    ensures Sound(Next(m, ReserveEvent(request)))
  {
    var next := Next(m, ReserveEvent(request));
    if ReserveExecution(m.client, request).error.None? {
      ReserveKeepsLedgerSound(m.client.ledger, request);
      ReserveKeepsTracked(Tables(m), request);
      ReserveExtends(m.client.ledger, request);
      ExtensionKeepsRest(m, next);
      forall bound | StoredBelow(m.client.ledger, bound) ensures StoredBelow(next.client.ledger, bound) {
        ReserveKeepsBelow(m.client.ledger, request, bound);
      }
      SameIdsStayAhead(m, next);
    }
  }

  /** A durable reservation rejected before any broker call. */
  lemma RejectUnsentStep(m: Machine, n: Machine, e: EventId)
    requires Sound(m) && m.placing.None?
    requires e in m.client.ledger.records && m.client.ledger.records[e].status == Reserved
    requires n == m.(client := n.client) && n.client.calls == m.client.calls
    requires n.client.ledger == After(m.client.ledger, Transition(m.client.ledger, e, Rejected, None))
    requires n.client.guard.Keys <= n.client.ledger.records.Keys
    ensures Sound(n)
  {
    TransitionKeepsLedgerSound(m.client.ledger, e, Rejected, None);
    TransitionKeepsTracked(Tables(m), e, Rejected);
    TransitionExtends(m.client.ledger, e, Rejected, None);
    ExtensionKeepsRest(m, n);
    forall bound | StoredBelow(m.client.ledger, bound) ensures StoredBelow(n.client.ledger, bound) {
      TransitionKeepsBelow(m.client.ledger, e, Rejected, bound);
    }
    SameIdsStayAhead(m, n);
  }

  /** The new broker id is above every stored one, and the event was never called for. */
  lemma BeginStep(m: Machine, request: TradeRequest, valid: bool)
    requires Sound(m) && Enabled(m, Begin(request, valid))
    ensures Sound(Next(m, Begin(request, valid)))
  {
    var next := Next(m, Begin(request, valid));
    var begun := BeginSubmission(m.client, request, m.issued.value, valid);
    if begun.error == Some(ConstructionFailed) {
      RejectUnsentStep(m, next, request.event);
    } else if begun.error.None? {
      TransitionKeepsLedgerSound(m.client.ledger, request.event, Submitted, m.issued);
      SubmissionKeepsTracked(Tables(m), request.event, m.issued.value);
      TransitionExtends(m.client.ledger, request.event, Submitted, m.issued);
      SubmittedRecordIsBacked(m, next, request);
      ExtensionKeepsInsertion(m, next);
    }
  }

  lemma SubmittedRecordIsBacked(m: Machine, n: Machine, request: TradeRequest)
    requires CallsBacked(m) && m.placing.None? && m.issued.Some?
    requires request.event in m.client.ledger.records
    requires m.client.ledger.records[request.event].status == Reserved
    requires Matches(m.client.ledger.records[request.event], request)
    requires n.client.ledger == After(m.client.ledger, Transition(m.client.ledger, request.event, Submitted, m.issued))
    requires n.client.calls == m.client.calls && n.placing == Some(OrderFor(request, m.issued.value))
    ensures CallsBacked(n)
  {
    TransitionExtends(m.client.ledger, request.event, Submitted, m.issued);
    forall i | 0 <= i < |n.client.calls|
      ensures Backed(n.client.ledger, n.client.calls[i]) && n.client.calls[i].event != request.event
    {
      assert Backed(m.client.ledger, m.client.calls[i]);
    }
  }

  lemma AllocatorStep(m: Machine, a: Action)
    requires Sound(m) && Enabled(m, a) && (a.Connect? || a.ObserveId? || a.Issue?)
    ensures Sound(Next(m, a))
  {
    assert IdsAhead(Next(m, a));
  }

  lemma PlaceStep(m: Machine)
    requires Sound(m) && m.placing.Some?
    ensures Sound(Next(m, Place))
  {
    assert CallsBacked(Next(m, Place));
  }

  lemma StepKeepsSound(m: Machine, a: Action)
    requires Sound(m) && Enabled(m, a)
    ensures Sound(Next(m, a))
  {
    match a
    case Connect(_) => AllocatorStep(m, a);
    case ObserveId(_) => AllocatorStep(m, a);
    case Issue => AllocatorStep(m, a);
    case ReserveEvent(request) => ReserveStep(m, request);
    case Begin(request, valid) => BeginStep(m, request, valid);
    case Place => PlaceStep(m);
    case ResolveUnsent(e) => RejectUnsentStep(m, Next(m, a), e);
    case Callback(r) => CallbackStep(m, r);
    case InsertRow => InsertionKeepsTracked(Tables(m), m.inserting.value.0, m.inserting.value.1);
    case Crash =>
  }

  // --------------------------------------------------------------------- runs

  /** The machine a run leads to, if every action was enabled where it was taken. */
  ghost function EndOf(run: seq<Action>): Option<Machine> {
    if run == [] then Some(START) else
    var before := EndOf(run[..|run| - 1]);
    if before.Some? && Enabled(before.value, run[|run| - 1]) then Some(Next(before.value, run[|run| - 1])) else None
  }

  ghost predicate Leads(run: seq<Action>, m: Machine) {
    EndOf(run) == Some(m)
  }

  lemma {:induction false} RunsAreSound(run: seq<Action>, m: Machine)
    requires Leads(run, m)
    ensures Sound(m)
  {
    if run != [] {
      var before := EndOf(run[..|run| - 1]).value;
      RunsAreSound(run[..|run| - 1], before);
      StepKeepsSound(before, run[|run| - 1]);
    }
  }

  function CallsFor(calls: seq<Call>, event: EventId): seq<Call> {
    if calls == [] then []
    else CallsFor(calls[..|calls| - 1], event) + if calls[|calls| - 1].event == event then [calls[|calls| - 1]] else []
  }

  lemma {:induction false} CallsForAreCalls(calls: seq<Call>, event: EventId)
    requires forall i, j :: 0 <= i < j < |calls| ==> calls[i].event != calls[j].event
    ensures |CallsFor(calls, event)| <= 1
    ensures CallsFor(calls, event) == [] <==> forall i :: 0 <= i < |calls| ==> calls[i].event != event
    ensures forall c :: c in CallsFor(calls, event) <==> c in calls && c.event == event
  {
    if calls != [] {
      CallsForAreCalls(calls[..|calls| - 1], event);
      assert calls == calls[..|calls| - 1] + [calls[|calls| - 1]];
      var last := calls[|calls| - 1];
      var earlier := CallsFor(calls[..|calls| - 1], event);
      assert last.event == event ==> earlier == [];
    }
  }

  /** For every event, over every run with crashes anywhere: at most one broker call, none
      while the record is RESERVED or missing, and the call repeats the reserved quantity
      and side under the record's broker id. */
  lemma AtMostOneSubmission(run: seq<Action>, m: Machine, event: EventId)
    requires Leads(run, m)
    ensures var calls, records := CallsFor(m.client.calls, event), m.client.ledger.records;
            && |calls| <= 1
            && (event !in records || records[event].status == Reserved ==> calls == [])
            && (calls != [] ==> && calls[0].quantity == records[event].quantity
                                && calls[0].buys == records[event].intent.Buys()
                                && records[event].brokerId == Some(calls[0].orderId))
  {
    RunsAreSound(run, m);
    CallsForAreCalls(m.client.calls, event);
    if CallsFor(m.client.calls, event) != [] {
      var call := CallsFor(m.client.calls, event)[0];
      assert call in m.client.calls;
      assert Backed(m.client.ledger, call);
    }
  }

  /** No two records ever share a broker id, so a lookup never finds several, and the next
      id is above every stored one. */
  lemma BrokerIdsUniqueAcrossRestarts(run: seq<Action>, m: Machine, id: OrderId)
    requires Leads(run, m)
    ensures UniqueIds(m.client.ledger)
    ensures !LookupOf(m.client.ledger, id).SeveralRecords?
    ensures Allocate(m.allocator).Some? ==>
              StoredBelow(m.client.ledger, Allocate(m.allocator).value.0)
  {
    RunsAreSound(run, m);
    LookupNeverAmbiguous(m.client.ledger, id);
  }

  lemma {:induction false} RankBoundsLength(h: seq<Row>, i: nat)
    requires Climbs(h) && i < |h|
    ensures i <= h[i].after.Rank()
  {
    if i > 0 {
      RankBoundsLength(h, i - 1);
    }
  }

  /** However many callbacks arrive, an event has at most five history rows, and both
      tables tell the same story. */
  lemma AtMostFiveRowsPerEvent(run: seq<Action>, m: Machine, event: EventId)
    requires Leads(run, m)
    ensures var l := m.client.ledger;
            Agrees(l) && IdsWrittenOnce(l) && |History(l.log, event)| <= 5
  {
    RunsAreSound(run, m);
    var h := History(m.client.ledger.log, event);
    assert AgreesAt(m.client.ledger, event);
    if h != [] {
      RankBoundsLength(h, |h| - 1);
    }
  }

  /** The table of processed executions never runs ahead of the ledger. */
  lemma ExecutionRowsNeverAhead(run: seq<Action>, m: Machine, execId: string)
    requires Leads(run, m) && execId in m.rows
    ensures  var row := m.rows[execId];
            && row.event in m.client.ledger.records
            && (row.cumulative == m.client.ledger.records[row.event].quantity as real ==>
                  m.client.ledger.records[row.event].status == Filled)
  {
    RunsAreSound(run, m);
    assert RowBehind(m.client.ledger, m.rows[execId]);
  }

  /** The in-memory guard only repeats the ledger: it never decides a reservation. */
  lemma GuardNeverDecides(run: seq<Action>, m: Machine, request: TradeRequest)
    requires Leads(run, m)
    ensures var c := m.client;
            ReserveExecution(c, request).error.None? <==> request.event !in c.ledger.records && request.quantity > 0
  {
    RunsAreSound(run, m);
  }

  /** In every reachable state a callback's request is legal and climbs, with the one refused exception. */
  lemma ReachableCallbacksAreLegal(run: seq<Action>, m: Machine, r: Report)
    requires Leads(run, m)
    ensures var b := Tables(m);
            RequestOf(b, r).Some? ==>
              var (e, next) := RequestOf(b, r).value;
              && e in b.ledger.records
              && (Raises(b.ledger.records[e].status, next)
                  || (r.OrderStatus? && b.ledger.records[e].status == Filled && next == Cancelled
                      && OnReport(b, r) == b))
  {
    RunsAreSound(run, m);
    CallbackRequestsAreLegal(Tables(m), r);
  }

  /** Confluence from every reachable state with a submitted order. */
  lemma ReachableCallbacksConfluent(run: seq<Action>, m: Machine, event: EventId, id: OrderId,
                                    rs: seq<Report>, ss: seq<Report>, facts: string -> (OrderId, real))
    requires Leads(run, m)
    requires var l := m.client.ledger;
             event in l.records && l.records[event].brokerId == Some(id) && InProgress(l.records[event].status)
    requires FaithfulRows(m.rows, facts)
    requires forall r :: r in rs || r in ss ==> Progress(r, id, m.client.ledger.records[event]) && Faithful(r, facts)
    requires forall r :: Target(r) == id ==> (r in rs <==> r in ss)
    ensures var b := Tables(m);
            && event in OnReports(b, rs).ledger.records && event in OnReports(b, ss).ledger.records
            && OnReports(b, rs).ledger.records[event] == OnReports(b, ss).ledger.records[event]
  {
    RunsAreSound(run, m);
    CallbacksConfluent(Tables(m), event, id, rs, ss, facts);
  }
}
