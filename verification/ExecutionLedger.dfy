/** The durable execution ledger: one record per Eagle event and an append-only
    log of every status change. `Ledger` is the content of both tables; the class
    `ExecutionLedger` updates it in place, one atomic write per call. */
module ExecutionLedgers {
  import opened Protocol

  datatype Status = Reserved | Submitted | Acknowledged | PartiallyFilled | Filled | Cancelled | Rejected {
    predicate Terminal() {
      Filled? || Cancelled? || Rejected?
    }

    /** The table of allowed transitions. */
    predicate MayBecome(next: Status) {
      match this
      case Reserved => next.Submitted? || next.Rejected?
      case Submitted => next.Acknowledged? || next.PartiallyFilled? || next.Terminal()
      case Acknowledged => next.PartiallyFilled? || next.Terminal()
      case PartiallyFilled => next.PartiallyFilled? || next.Terminal()
      case Filled => false
      case Cancelled => false
      case Rejected => false
    }

    /** Progress of an order; the three terminal states share the top rank. */
    function Rank(): nat {
      match this
      case Reserved => 0
      case Submitted => 1
      case Acknowledged => 2
      case PartiallyFilled => 3
      case Filled => 4
      case Cancelled => 4
      case Rejected => 4
    }
  }

  datatype Record = Record(
    signal: SignalId,
    symbol: string,
    intent: TradeIntent,
    quantity: int,
    status: Status,
    brokerId: Option<OrderId>)

  /** One row of the transition log. */
  datatype Row = Row(event: EventId, before: Option<Status>, after: Status, brokerId: Option<OrderId>)

  datatype Ledger = Ledger(records: map<EventId, Record>, log: seq<Row>)

  datatype LedgerError =
    | BadQuantity
    | AlreadyExists
    | UnknownEvent
    | ForbiddenTransition(current: Status, requested: Status)

  datatype Outcome = Done(ledger: Ledger) | Refused(error: LedgerError)

  const EMPTY := Ledger(map[], [])

  // ---------------------------------------------------------------- operations

  function Reserve(l: Ledger, request: TradeRequest): Outcome {
    if request.quantity <= 0 then
      Refused(BadQuantity)
    else if request.event in l.records then
      Refused(AlreadyExists)
    else
      var record := Record(request.signal, request.symbol, request.intent, request.quantity, Reserved, None);
      Done(Ledger(l.records[request.event := record], l.log + [Row(request.event, None, Reserved, None)]))
  }

  function Transition(l: Ledger, event: EventId, next: Status, brokerId: Option<OrderId>): Outcome {
    if event !in l.records then
      Refused(UnknownEvent)
    else
      var current := l.records[event];
      if !current.status.MayBecome(next) then
        Refused(ForbiddenTransition(current.status, next))
      else
        var effective := if brokerId.Some? then brokerId else current.brokerId;
        Done(Ledger(l.records[event := current.(status := next, brokerId := effective)],
                    l.log + [Row(event, Some(current.status), next, effective)]))
  }

  /** A refused write changes nothing. */
  function After(l: Ledger, outcome: Outcome): Ledger {
    if outcome.Done? then outcome.ledger else l
  }

  /** The rows of one event, oldest first. */
  function History(log: seq<Row>, event: EventId): seq<Row> {
    if log == [] then
      []
    else
      var rest := History(log[..|log| - 1], event);
      if log[|log| - 1].event == event then rest + [log[|log| - 1]] else rest
  }

  lemma HistoryOfAppended(log: seq<Row>, row: Row, event: EventId)
    ensures History(log + [row], event)
            == if row.event == event then History(log, event) + [row] else History(log, event)
  {
    assert (log + [row])[..|log|] == log;
  }

  // -------------------------------------------------- the ledger and its log

  /** A history starts with the reservation and follows the table of allowed transitions. */
  ghost predicate Chain(h: seq<Row>) {
    && |h| > 0
    && h[0].before == None && h[0].after == Reserved && h[0].brokerId == None
    && forall i :: 0 < i < |h| ==> h[i].before == Some(h[i - 1].after) && h[i - 1].after.MayBecome(h[i].after)
  }

  ghost predicate Explains(h: seq<Row>, record: Record) {
    && Chain(h)
    && record.status == h[|h| - 1].after
    && record.brokerId == h[|h| - 1].brokerId
  }

  ghost predicate AgreesAt(l: Ledger, event: EventId) {
    if event in l.records then Explains(History(l.log, event), l.records[event]) else History(l.log, event) == []
  }

  /** Every record is what its own rows say, and no row is without a record. */
  ghost predicate Agrees(l: Ledger) {
    forall event :: AgreesAt(l, event)
  }

  /** The broker id is absent until the SUBMITTED row and constant from there on. */
  ghost predicate IdWrittenOnce(h: seq<Row>) {
    && (forall i: nat :: i < |h| ==> (h[i].brokerId.None? <==> NoneSubmittedUpTo(h, i)))
    && (forall i, j :: 0 <= i < j < |h| && h[i].brokerId.Some? ==> h[j].brokerId == h[i].brokerId)
  }

  ghost predicate IdsWrittenOnce(l: Ledger) {
    forall e :: e in l.records ==> IdWrittenOnce(History(l.log, e))
  }

  lemma HistoryAfterReserve(l: Ledger, request: TradeRequest, e: EventId)
    requires Reserve(l, request).Done?
    ensures History(Reserve(l, request).ledger.log, e)
            == if e == request.event then History(l.log, e) + [Row(e, None, Reserved, None)] else History(l.log, e)
  {
    HistoryOfAppended(l.log, Row(request.event, None, Reserved, None), e);
  }

  lemma ReserveKeepsAgreement(l: Ledger, request: TradeRequest)
    requires Agrees(l)
    ensures Agrees(After(l, Reserve(l, request)))
  {
    if Reserve(l, request).Done? {
      forall e ensures AgreesAt(Reserve(l, request).ledger, e) {
        assert AgreesAt(l, e);
        HistoryAfterReserve(l, request, e);
        if e == request.event {
          FirstRowExplains(e, Reserve(l, request).ledger.records[e]);
        }
      }
    }
  }

  lemma FirstRowExplains(e: EventId, record: Record)
    requires record.status == Reserved && record.brokerId.None?
    ensures Explains([] + [Row(e, None, Reserved, None)], record)
  {
  }

  lemma FirstRowHasNoId(e: EventId)
    ensures IdWrittenOnce([] + [Row(e, None, Reserved, None)])
  {
  }

  lemma ReserveKeepsIds(l: Ledger, request: TradeRequest)
    requires Agrees(l) && IdsWrittenOnce(l)
    ensures IdsWrittenOnce(After(l, Reserve(l, request)))
  {
    if Reserve(l, request).Done? {
      forall e | e in Reserve(l, request).ledger.records
        ensures IdWrittenOnce(History(Reserve(l, request).ledger.log, e))
      {
        assert AgreesAt(l, e);
        HistoryAfterReserve(l, request, e);
        if e == request.event {
          FirstRowHasNoId(e);
        }
      }
    }
  }

  /** An allowed row that starts where the record stands carries record and history on. */
  lemma ExplainsAppended(h: seq<Row>, record: Record, row: Row, after: Record)
    requires Explains(h, record) && row.before == Some(record.status) && record.status.MayBecome(row.after)
    requires after.status == row.after && after.brokerId == row.brokerId
    ensures Explains(h + [row], after)
  {
    var longer := h + [row];
    assert longer[0] == h[0];
    assert forall i :: 0 <= i < |h| ==> longer[i] == h[i];
  }

  lemma HistoryAfterTransition(l: Ledger, event: EventId, next: Status, brokerId: Option<OrderId>, e: EventId)
    requires Transition(l, event, next, brokerId).Done?
    ensures var log := Transition(l, event, next, brokerId).ledger.log;
            History(log, e) == if e == event then History(l.log, e) + [log[|l.log|]] else History(l.log, e)
  {
    HistoryOfAppended(l.log, Transition(l, event, next, brokerId).ledger.log[|l.log|], e);
  }

  lemma TransitionKeepsAgreement(l: Ledger, event: EventId, next: Status, brokerId: Option<OrderId>)
    requires Agrees(l)
    ensures Agrees(After(l, Transition(l, event, next, brokerId)))
  {
    var r := Transition(l, event, next, brokerId);
    if r.Done? {
      forall e ensures AgreesAt(r.ledger, e) {
        assert AgreesAt(l, e);
        HistoryAfterTransition(l, event, next, brokerId, e);
        if e == event {
          ExplainsAppended(History(l.log, e), l.records[e], r.ledger.log[|l.log|], r.ledger.records[e]);
        }
      }
    }
  }

  /** A row keeps ids written once exactly when SUBMITTED brings one and no other status changes it. */
  lemma AppendKeepsIdIff(h: seq<Row>, row: Row)
    requires Chain(h) && IdWrittenOnce(h) && h[|h| - 1].after.MayBecome(row.after)
    ensures IdWrittenOnce(h + [row]) <==>
              if row.after == Submitted then row.brokerId.Some? else row.brokerId == h[|h| - 1].brokerId
  {
    if row.after == Submitted && row.brokerId.Some? {
      AppendKeepsId(h, row);
    } else if row.after != Submitted && row.brokerId == h[|h| - 1].brokerId {
      AppendKeepsId(h, row);
    } else {
      AppendBreaksId(h, row);
    }
  }

  lemma AppendBreaksId(h: seq<Row>, row: Row)
    requires Chain(h) && IdWrittenOnce(h)
    requires if row.after == Submitted then row.brokerId.None? else row.brokerId != h[|h| - 1].brokerId
    ensures !IdWrittenOnce(h + [row])
  {
    var longer, last := h + [row], |h| - 1;
    assert longer[|h|] == row && longer[last] == h[last];
    LastSubmission(h, row);
    assert h[last].brokerId.None? <==> NoneSubmittedUpTo(h, last);
  }

  ghost predicate NoneSubmittedUpTo(h: seq<Row>, i: nat)
    requires i < |h|
  {
    forall j :: 0 <= j <= i ==> h[j].after != Submitted
  }

  lemma PrefixSubmission(h: seq<Row>, row: Row, i: nat)
    requires i < |h|
    ensures NoneSubmittedUpTo(h + [row], i) <==> NoneSubmittedUpTo(h, i)
  {
    assert forall j :: 0 <= j <= i ==> (h + [row])[j] == h[j];
  }

  lemma LastSubmission(h: seq<Row>, row: Row)
    requires h != []
    ensures NoneSubmittedUpTo(h + [row], |h|) <==> NoneSubmittedUpTo(h, |h| - 1) && row.after != Submitted
  {
    var longer := h + [row];
    assert longer[|h|] == row;
    PrefixSubmission(h, row, |h| - 1);
  }

  lemma AppendKeepsId(h: seq<Row>, row: Row)
    requires Chain(h) && IdWrittenOnce(h) && h[|h| - 1].after.MayBecome(row.after)
    requires row.after == Submitted ==> row.brokerId.Some?
    requires row.after != Submitted ==> row.brokerId == h[|h| - 1].brokerId
    ensures IdWrittenOnce(h + [row])
  {
    var longer, last := h + [row], |h| - 1;
    LastSubmission(h, row);
    forall i: nat | i < |longer| ensures longer[i].brokerId.None? <==> NoneSubmittedUpTo(longer, i) {
      if i < |h| {
        PrefixSubmission(h, row, i);
      }
      assert i < |h| ==> (h[i].brokerId.None? <==> NoneSubmittedUpTo(h, i));
    }
    if row.after == Submitted {
      SubmittedOnlyAfterReserved(h);
      assert NoneSubmittedUpTo(h, last);
    }
  }

  /** A chain whose last status is RESERVED has one row; otherwise SUBMITTED comes second or never. */
  lemma SubmittedOnlyAfterReserved(h: seq<Row>)
    requires Chain(h)
    ensures forall i :: 0 <= i < |h| && h[i].after == Reserved ==> i == 0
    ensures forall i :: 0 <= i < |h| && h[i].after == Submitted ==> i == 1
  {
    forall i | 0 <= i < |h| && h[i].after == Reserved ensures i == 0 {
      assert i == 0 || h[i - 1].after.MayBecome(h[i].after);
    }
    forall i | 0 <= i < |h| && h[i].after == Submitted ensures i == 1 {
      assert i == 0 || h[i - 1].after.MayBecome(h[i].after);
    }
  }

  lemma PrefixHasIdOnce(h: seq<Row>, row: Row)
    requires IdWrittenOnce(h + [row])
    ensures IdWrittenOnce(h)
  {
    var longer := h + [row];
    forall i: nat | i < |h| ensures h[i].brokerId.None? <==> NoneSubmittedUpTo(h, i) {
      PrefixSubmission(h, row, i);
      assert longer[i] == h[i];
    }
    forall i, j | 0 <= i < j < |h| && h[i].brokerId.Some? ensures h[j].brokerId == h[i].brokerId {
      assert longer[i] == h[i] && longer[j] == h[j];
    }
  }

  /** A call of `transition` that respects a stored broker id: SUBMITTED brings one, any
      other status brings none or repeats the one stored. */
  predicate RespectsId(record: Record, next: Status, id: Option<OrderId>) {
    if next == Submitted then id.Some? else id.None? || id == record.brokerId
  }

  lemma ReservedRecordHasNoId(l: Ledger, event: EventId)
    requires AgreesAt(l, event) && event in l.records && l.records[event].status == Reserved
    ensures l.records[event].brokerId.None?
  {
    var h := History(l.log, event);
    SubmittedOnlyAfterReserved(h);
    assert h[|h| - 1].after == Reserved;
  }

  /** The exact condition: an accepted transition keeps broker ids written once if and only
      if the call respects the id stored in its record. */
  lemma TransitionKeepsIdsIff(l: Ledger, event: EventId, next: Status, id: Option<OrderId>)
    requires Agrees(l) && IdsWrittenOnce(l)
    requires event in l.records && Transition(l, event, next, id).Done?
    ensures IdsWrittenOnce(After(l, Transition(l, event, next, id))) <==> RespectsId(l.records[event], next, id)
  {
    var n := Transition(l, event, next, id).ledger;
    var h, row := History(l.log, event), n.log[|l.log|];
    assert AgreesAt(l, event);
    forall e ensures History(n.log, e) == if e == event then h + [row] else History(l.log, e) {
      HistoryAfterTransition(l, event, next, id, e);
    }
    AppendKeepsIdIff(h, row);
    if next == Submitted {
      ReservedRecordHasNoId(l, event);
    }
    assert IdWrittenOnce(h + [row]) <==> RespectsId(l.records[event], next, id);
    assert IdsWrittenOnce(n) <==> IdWrittenOnce(h + [row]) by {
      assert IdsWrittenOnce(n) ==> IdWrittenOnce(History(n.log, event));
    }
  }

  /** The mark_* methods respect ids by construction. */
  lemma MarkKeepsIds(l: Ledger, event: EventId, next: Status, brokerId: Option<OrderId>)
    requires Agrees(l) && IdsWrittenOnce(l)
    requires brokerId.Some? <==> next == Submitted
    ensures IdsWrittenOnce(After(l, Transition(l, event, next, brokerId)))
  {
    if Transition(l, event, next, brokerId).Done? {
      TransitionKeepsIdsIff(l, event, next, brokerId);
    }
  }

  /** No write repairs an id written twice. */
  lemma TransitionRepairsNoId(l: Ledger, event: EventId, next: Status, id: Option<OrderId>)
    requires Agrees(l) && IdsWrittenOnce(After(l, Transition(l, event, next, id)))
    ensures IdsWrittenOnce(l)
  {
    if Transition(l, event, next, id).Done? {
      var n := Transition(l, event, next, id).ledger;
      forall e | e in l.records ensures IdWrittenOnce(History(l.log, e)) {
        HistoryAfterTransition(l, event, next, id, e);
        assert e in n.records && IdWrittenOnce(History(n.log, e));
        if e == event {
          PrefixHasIdOnce(History(l.log, e), n.log[|l.log|]);
        }
      }
    }
  }

  lemma ReserveRepairsNoId(l: Ledger, request: TradeRequest)
    requires IdsWrittenOnce(After(l, Reserve(l, request)))
    ensures IdsWrittenOnce(l)
  {
    if Reserve(l, request).Done? {
      var n := Reserve(l, request).ledger;
      forall e | e in l.records ensures IdWrittenOnce(History(l.log, e)) {
        HistoryAfterReserve(l, request, e);
        assert e in n.records && IdWrittenOnce(History(n.log, e));
      }
    }
  }

  /** A terminal status is never left. */
  lemma TerminalRowIsLast(l: Ledger, event: EventId, i: nat)
    requires Agrees(l) && event in l.records
    requires i < |History(l.log, event)| && History(l.log, event)[i].after.Terminal()
    ensures i == |History(l.log, event)| - 1
    ensures l.records[event].status == History(l.log, event)[i].after
  {
    var h := History(l.log, event);
    assert AgreesAt(l, event);
    assert i + 1 < |h| ==> h[i].after.MayBecome(h[i + 1].after);
  }

  /** What no ledger write undoes: a record keeps its order, and once past RESERVED it
      keeps its broker id and never goes back. */
  ghost predicate Extends(l: Ledger, n: Ledger) {
    match l
    case Ledger(records, _) => forall e :: e in records ==> e in n.records && Continues(records[e], n.records[e])
  }

  ghost predicate Continues(before: Record, after: Record) {
    && after.signal == before.signal
    && after.symbol == before.symbol
    && after.quantity == before.quantity
    && after.intent == before.intent
    && before.status.Rank() <= after.status.Rank()
    && (before.status.Terminal() ==> after.status == before.status)
    && (before.status != Reserved ==> after.brokerId == before.brokerId)
  }

  lemma ReserveExtends(l: Ledger, request: TradeRequest)
    ensures Extends(l, After(l, Reserve(l, request)))
  {
  }

  /** A transition undoes nothing exactly when it is refused, finds the record RESERVED, or
      brings no broker id other than the one stored. */
  lemma TransitionExtendsIff(l: Ledger, event: EventId, next: Status, id: Option<OrderId>)
    ensures Extends(l, After(l, Transition(l, event, next, id))) <==>
              (event in l.records && Transition(l, event, next, id).Done? ==>
                 l.records[event].status == Reserved || id.None? || id == l.records[event].brokerId)
  {
    var n := After(l, Transition(l, event, next, id));
    if event in l.records && Transition(l, event, next, id).Done? {
      assert Continues(l.records[event], n.records[event]) <==>
             l.records[event].status == Reserved || id.None? || id == l.records[event].brokerId;
    }
  }

  lemma TransitionExtends(l: Ledger, event: EventId, next: Status, id: Option<OrderId>)
    requires id.Some? <==> next == Submitted
    ensures Extends(l, After(l, Transition(l, event, next, id)))
  {
    TransitionExtendsIff(l, event, next, id);
  }

  /** Any call a client of the ledger can make; `Mark` stands for the mark_* methods
      other than mark_submitted, `Raw` for transition with an explicit broker id. */
  datatype Operation =
    | ReserveOp(request: TradeRequest)
    | SubmitOp(event: EventId, brokerId: OrderId)
    | MarkOp(event: EventId, next: Status)
    | RawOp(event: EventId, next: Status, id: Option<OrderId>)

  function Perform(l: Ledger, op: Operation): Ledger {
    match op
    case ReserveOp(request) => After(l, Reserve(l, request))
    case SubmitOp(event, id) => After(l, Transition(l, event, Submitted, Some(id)))
    case MarkOp(event, next) => After(l, Transition(l, event, next, None))
    case RawOp(event, next, id) => After(l, Transition(l, event, next, id))
  }

  function PerformAll(ops: seq<Operation>): Ledger {
    if ops == [] then EMPTY else Perform(PerformAll(ops[..|ops| - 1]), ops[|ops| - 1])
  }

  /** Whatever is called in whatever order, records and log tell the same story. */
  lemma {:induction false} LedgerAgreesWithLog(ops: seq<Operation>)
    ensures Agrees(PerformAll(ops))
  {
    if ops != [] {
      var before := PerformAll(ops[..|ops| - 1]);
      LedgerAgreesWithLog(ops[..|ops| - 1]);
      match ops[|ops| - 1]
      case ReserveOp(request) => ReserveKeepsAgreement(before, request);
      case SubmitOp(event, id) => TransitionKeepsAgreement(before, event, Submitted, Some(id));
      case MarkOp(event, next) => TransitionKeepsAgreement(before, event, next, None);
      case RawOp(event, next, id) => TransitionKeepsAgreement(before, event, next, id);
    }
  }

  /** The ledger refuses the call, or the call respects the id stored in its record. */
  predicate SafeTransition(l: Ledger, event: EventId, next: Status, id: Option<OrderId>) {
    event in l.records && Transition(l, event, next, id).Done? ==> RespectsId(l.records[event], next, id)
  }

  predicate SafeCall(l: Ledger, op: Operation) {
    match op
    case ReserveOp(_) => true
    case SubmitOp(event, id) => SafeTransition(l, event, Submitted, Some(id))
    case MarkOp(event, next) => SafeTransition(l, event, next, None)
    case RawOp(event, next, id) => SafeTransition(l, event, next, id)
  }

  lemma TransitionIsSafeIff(l: Ledger, event: EventId, next: Status, id: Option<OrderId>)
    requires Agrees(l)
    ensures IdsWrittenOnce(After(l, Transition(l, event, next, id))) <==>
              IdsWrittenOnce(l) && SafeTransition(l, event, next, id)
  {
    if IdsWrittenOnce(After(l, Transition(l, event, next, id))) {
      TransitionRepairsNoId(l, event, next, id);
    }
    if IdsWrittenOnce(l) && Transition(l, event, next, id).Done? {
      TransitionKeepsIdsIff(l, event, next, id);
    }
  }

  lemma CallIsSafeIff(l: Ledger, op: Operation)
    requires Agrees(l)
    ensures IdsWrittenOnce(Perform(l, op)) <==> IdsWrittenOnce(l) && SafeCall(l, op)
  {
    match op
    case ReserveOp(request) =>
      if IdsWrittenOnce(l) {
        ReserveKeepsIds(l, request);
      }
      if IdsWrittenOnce(Perform(l, op)) {
        ReserveRepairsNoId(l, request);
      }
    case SubmitOp(event, id) => TransitionIsSafeIff(l, event, Submitted, Some(id));
    case MarkOp(event, next) => TransitionIsSafeIff(l, event, next, None);
    case RawOp(event, next, id) => TransitionIsSafeIff(l, event, next, id);
  }

  predicate SafeAt(ops: seq<Operation>, k: nat)
    requires k < |ops|
  {
    SafeCall(PerformAll(ops[..k]), ops[k])
  }

  /** Over any sequence of calls, raw ones included, broker ids are written once if and only
      if every call respected the id stored when it was made. */
  lemma {:induction false} IdsWrittenOnceIff(ops: seq<Operation>)
    ensures IdsWrittenOnce(PerformAll(ops)) <==> forall k :: 0 <= k < |ops| ==> SafeAt(ops, k)
  {
    if ops != [] {
      var n := |ops| - 1;
      var earlier := ops[..n];
      IdsWrittenOnceIff(earlier);
      LedgerAgreesWithLog(earlier);
      CallIsSafeIff(PerformAll(earlier), ops[n]);
      forall k | 0 <= k < n ensures SafeAt(ops, k) <==> SafeAt(earlier, k) {
        assert earlier[..k] == ops[..k];
      }
      assert SafeAt(ops, n) <==> SafeCall(PerformAll(earlier), ops[n]);
    }
  }

  /** Through the mark_* methods the broker id is written once, by the SUBMITTED row. */
  lemma BrokerIdWrittenOnce(ops: seq<Operation>)
    requires forall i :: 0 <= i < |ops| ==> !ops[i].RawOp? && (ops[i].MarkOp? ==> ops[i].next != Submitted)
    ensures IdsWrittenOnce(PerformAll(ops))
  {
    forall k | 0 <= k < |ops| ensures SafeAt(ops, k) {
      assert !ops[k].RawOp? && (ops[k].MarkOp? ==> ops[k].next != Submitted);
    }
    IdsWrittenOnceIff(ops);
  }

  /** A call that breaks the condition exists: `transition` used directly can replace a
      stored broker id. */
  lemma RawTransitionCanReplaceId(request: TradeRequest)
    requires request.quantity > 0
    ensures var ops := [ReserveOp(request), SubmitOp(request.event, 1), RawOp(request.event, Acknowledged, Some(2))];
            !IdsWrittenOnce(PerformAll(ops))
  {
    var e := request.event;
    var ops := [ReserveOp(request), SubmitOp(e, 1), RawOp(e, Acknowledged, Some(2))];
    assert ops[..1][..0] == [] && ops[..2][..1] == ops[..1];
    assert PerformAll(ops[..1]).records[e].status == Reserved;
    assert PerformAll(ops[..2]).records[e].brokerId == Some(1);
    assert !SafeAt(ops, 2);
    IdsWrittenOnceIff(ops);
  }

  /** The ledger as the program holds it: two tables updated in place. */
  class ExecutionLedger {
    var records: map<EventId, Record>
    var transitions: seq<Row>

    function State(): Ledger
      reads this
    {
      Ledger(records, transitions)
    }

    constructor ()
      ensures State() == EMPTY
    {
      records, transitions := map[], [];
    }

    method ReserveEvent(request: TradeRequest) returns (error: Option<LedgerError>)
      modifies this
      ensures State() == After(old(State()), Reserve(old(State()), request))
      ensures error == if Reserve(old(State()), request).Done? then None else Some(Reserve(old(State()), request).error)
    {
      if request.quantity <= 0 {
        return Some(BadQuantity);
      }
      if request.event in records {
        return Some(AlreadyExists);
      }
      records := records[request.event :=
        Record(request.signal, request.symbol, request.intent, request.quantity, Reserved, None)];
      transitions := transitions + [Row(request.event, None, Reserved, None)];
      return None;
    }

    method TransitionTo(event: EventId, next: Status, brokerId: Option<OrderId>) returns (error: Option<LedgerError>)
      modifies this
      ensures State() == After(old(State()), Transition(old(State()), event, next, brokerId))
      ensures error ==
              var r := Transition(old(State()), event, next, brokerId); if r.Done? then None else Some(r.error)
    {
      if event !in records {
        return Some(UnknownEvent);
      }
      var current := records[event];
      if !current.status.MayBecome(next) {
        return Some(ForbiddenTransition(current.status, next));
      }
      var effective := brokerId;
      if effective.None? {
        effective := current.brokerId;
      }
      records := records[event := current.(status := next, brokerId := effective)];
      transitions := transitions + [Row(event, Some(current.status), next, effective)];
      return None;
    }

    method MarkSubmitted(event: EventId, brokerId: OrderId) returns (error: Option<LedgerError>)
      modifies this
      ensures State() == Perform(old(State()), SubmitOp(event, brokerId))
      ensures error.None? <==> Transition(old(State()), event, Submitted, Some(brokerId)).Done?
    {
      error := TransitionTo(event, Submitted, Some(brokerId));
    }

    /** mark_acknowledged, mark_partially_filled, mark_filled, mark_cancelled and mark_rejected. */
    method Mark(event: EventId, next: Status) returns (error: Option<LedgerError>)
      modifies this
      ensures State() == Perform(old(State()), MarkOp(event, next))
      ensures error.None? <==> Transition(old(State()), event, next, None).Done?
    {
      error := TransitionTo(event, next, None);
    }

    /** Collects the rows of one event in log order. */
    method HistoryOf(event: EventId) returns (rows: seq<Row>)
      ensures rows == History(transitions, event)
    {
      rows := [];
      for i := 0 to |transitions|
        invariant rows == History(transitions[..i], event)
      {
        HistoryOfAppended(transitions[..i], transitions[i], event);
        assert transitions[..i + 1] == transitions[..i] + [transitions[i]];
        if transitions[i].event == event {
          rows := rows + [transitions[i]];
        }
      }
      assert transitions[..|transitions|] == transitions;
    }

    /** The three callback handlers look an order up by its broker id. */
    method FindByBrokerOrderId(id: OrderId) returns (found: Lookup)
      ensures found == LookupOf(State(), id)
    {
      var todo := records.Keys;
      var matches: set<EventId> := {};
      while todo != {}
        invariant todo <= records.Keys
        invariant matches == set e | e in records.Keys - todo && records[e].brokerId == Some(id)
        decreases |todo|
      {
        var e :| e in todo;
        todo := todo - {e};
        if records[e].brokerId == Some(id) {
          matches := matches + {e};
        }
      }
      assert matches == Holders(State(), id);
      if matches == {} {
        return NoRecord;
      }
      var e :| e in matches;
      if matches == {e} {
        found := OneRecord(e);
      } else {
        found := SeveralRecords;
      }
    }
  }

  // ------------------------------------------------- lookup by broker order id

  datatype Lookup = NoRecord | OneRecord(event: EventId) | SeveralRecords

  function Holders(l: Ledger, id: OrderId): set<EventId> {
    set e | e in l.records && l.records[e].brokerId == Some(id)
  }

  ghost function LookupOf(l: Ledger, id: OrderId): (found: Lookup)
    ensures found.OneRecord? ==> found.event in l.records && l.records[found.event].brokerId == Some(id)
    ensures found.NoRecord? ==> forall e :: e in l.records ==> l.records[e].brokerId != Some(id)
  {
    assert forall e :: e in l.records && l.records[e].brokerId == Some(id) ==> e in Holders(l, id);
    if Holders(l, id) == {} then
      NoRecord
    else
      var e :| e in Holders(l, id);
      if Holders(l, id) == {e} then OneRecord(e) else SeveralRecords
  }

  /** No broker id is held by two records. */
  ghost predicate UniqueIds(l: Ledger) {
    forall e, f :: e in l.records && f in l.records && e != f && l.records[e].brokerId.Some?
      ==> l.records[e].brokerId != l.records[f].brokerId
  }

  /** No record has a broker id before it leaves RESERVED. */
  ghost predicate IdsAfterReserved(l: Ledger) {
    forall e :: e in l.records && l.records[e].brokerId.Some? ==> l.records[e].status != Reserved
  }

  lemma LookupFindsOwner(l: Ledger, event: EventId, id: OrderId)
    requires UniqueIds(l) && event in l.records && l.records[event].brokerId == Some(id)
    ensures LookupOf(l, id) == OneRecord(event)
  {
    assert event in Holders(l, id);
    assert Holders(l, id) == {event};
  }

  lemma LookupNeverAmbiguous(l: Ledger, id: OrderId)
    requires UniqueIds(l)
    ensures LookupOf(l, id) != SeveralRecords
  {
    if Holders(l, id) != {} {
      var e :| e in Holders(l, id);
      LookupFindsOwner(l, e, id);
    }
  }
}
