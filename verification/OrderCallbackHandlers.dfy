/** The callback handlers as the program holds them: objects sharing one ledger. */
module OrderCallbackHandlers {
  import opened Protocol
  import opened ExecutionLedgers
  import opened OrderCallbacks

  /** What a callback reports back, or why it raised. */
  datatype Outcome =
    | Updated | NoChange | Ignored | Duplicate
    | BadInput | UnknownOrder | AmbiguousOrder | Mismatch | LedgerRefused

  class IBOrderStatusTransport {
    const ledger: ExecutionLedger

    constructor (ledger: ExecutionLedger)
      ensures this.ledger == ledger
    {
      this.ledger := ledger;
    }

    method HandleOrderStatus(id: OrderId, text: string, filled: real, remaining: real) returns (outcome: Outcome)
      modifies ledger
      ensures ledger.State()
              == OnReport(Books(old(ledger.State()), map[]), OrderStatus(id, text, filled, remaining)).ledger
      ensures var request := RequestOf(Books(old(ledger.State()), map[]), OrderStatus(id, text, filled, remaining));
              && (outcome in {Updated, LedgerRefused} <==> request.Some?)
              && (outcome == LedgerRefused <==>
                    Refuses(Books(old(ledger.State()), map[]), OrderStatus(id, text, filled, remaining)))
    {
      if text == "" || filled < 0.0 || remaining < 0.0 {
        return BadInput;
      }
      var found := ledger.FindByBrokerOrderId(id);
      match found
      case NoRecord =>
        return UnknownOrder;
      case SeveralRecords =>
        return AmbiguousOrder;
      case OneRecord(event) =>
        var record := ledger.records[event];
        var desired := DetermineStatus(text, filled, remaining);
        if desired.None? {
          return Ignored;
        }
        if record.status == desired.value {
          return NoChange;
        }
        if IsStaleOrRegressive(record.status, desired.value) {
          return Ignored;
        }
        var error := ledger.Mark(event, desired.value);
        return if error.None? then Updated else LedgerRefused;
    }

    method HandleRejection(id: OrderId) returns (outcome: Outcome)
      modifies ledger
      ensures ledger.State() == OnReport(Books(old(ledger.State()), map[]), Rejection(id)).ledger
      ensures outcome in {Updated, LedgerRefused} <==> RequestOf(Books(old(ledger.State()), map[]), Rejection(id)).Some?
    {
      var found := ledger.FindByBrokerOrderId(id);
      match found
      case NoRecord =>
        return UnknownOrder;
      case SeveralRecords =>
        return AmbiguousOrder;
      case OneRecord(event) =>
        var record := ledger.records[event];
        if record.status.Rejected? {
          return NoChange;
        }
        if record.status.Terminal() {
          return Ignored;
        }
        var error := ledger.Mark(event, Rejected);
        return if error.None? then Updated else LedgerRefused;
    }
  }

  class IBExecutionDetailsTransport {
    const ledger: ExecutionLedger
    var rows: map<string, ExecRow>

    constructor (ledger: ExecutionLedger)
      ensures this.ledger == ledger && rows == map[]
    {
      this.ledger := ledger;
      rows := map[];
    }

    ghost function State(): Books
      reads this, ledger
    {
      Books(ledger.State(), rows)
    }

    /** First write: the ledger. Second write: the execution id. */
    method HandleExecution(x: Execution) returns (outcome: Outcome)
      modifies this`rows, ledger
      ensures State() == OnReport(old(State()), ExecDetails(x))
      ensures outcome == Duplicate <==> Screen(old(State()), x).Repeated?
      ensures outcome == Updated <==>
                RequestOf(old(State()), ExecDetails(x)).Some? && !Refuses(old(State()), ExecDetails(x))
      ensures outcome == NoChange <==> Screen(old(State()), x).Accept? && RequestOf(old(State()), ExecDetails(x)).None?
    {
      if x.execId == "" || x.shares <= 0.0 || x.cumulative <= 0.0 || x.shares > x.cumulative {
        return BadInput;
      }
      var found := ledger.FindByBrokerOrderId(x.orderId);
      match found
      case NoRecord =>
        return UnknownOrder;
      case SeveralRecords =>
        return AmbiguousOrder;
      case OneRecord(event) =>
        var record := ledger.records[event];
        if x.symbol != record.symbol || x.side != ExpectedSide(record.intent) {
          return Mismatch;
        }
        if x.cumulative > record.quantity as real {
          return Mismatch;
        }
        if x.execId in rows {
          return Duplicate;
        }
        if record.status.Cancelled? || record.status.Rejected? {
          return Mismatch;
        }
        outcome := NoChange;
        if !record.status.Filled? {
          if x.cumulative == record.quantity as real {
            var error := ledger.Mark(event, Filled);
            if error.Some? {
              return LedgerRefused;
            }
            outcome := Updated;
          } else if !record.status.PartiallyFilled? {
            var error := ledger.Mark(event, PartiallyFilled);
            if error.Some? {
              return LedgerRefused;
            }
            outcome := Updated;
          }
        }
        RecordExecutionId(x, event);
    }

    /** A row already present is left as it is. */
    method RecordExecutionId(x: Execution, event: EventId)
      modifies this`rows
      ensures rows == WithRow(old(rows), x, event)
    {
      if x.execId !in rows {
        rows := rows[x.execId := ExecRow(event, x.orderId, x.cumulative)];
      }
    }
  }

  class IBErrorHandler {
    const ledger: ExecutionLedger
    var killSwitchActive: bool

    constructor (ledger: ExecutionLedger)
      ensures this.ledger == ledger && !killSwitchActive
    {
      this.ledger := ledger;
      killSwitchActive := false;
    }

    /** The kill switch goes on for a critical code and for an order id held by several
        records; nothing here turns it off. */
    method Handle(requestId: int, code: nat) returns (severity: Severity, outcome: Outcome)
      requires requestId >= -1
      modifies this`killSwitchActive, ledger
      ensures severity == Classify(code)
      ensures ledger.State() == OnReport(Books(old(ledger.State()), map[]), Error(requestId, code)).ledger
      ensures killSwitchActive <==>
                || old(killSwitchActive)
                || severity.Critical?
                || (severity in {OrderRejected, OrderCancelled} && requestId >= 0
                    && LookupOf(old(ledger.State()), requestId).SeveralRecords?)
    {
      severity := Classify(code);
      outcome := Ignored;
      if severity.Critical? {
        killSwitchActive := true;
      } else if severity.OrderRejected? {
        outcome := Close(requestId, Rejected);
      } else if severity.OrderCancelled? {
        outcome := Close(requestId, Cancelled);
      }
    }

    method Close(requestId: int, verdict: Status) returns (outcome: Outcome)
      requires verdict.Terminal()
      modifies this`killSwitchActive, ledger
      ensures var owner := Owner(old(ledger.State()), requestId);
              ledger.State() ==
              if owner.Some? && ClosingRequest(old(ledger.State()).records[owner.value].status, verdict).Some?
              then After(old(ledger.State()), Transition(old(ledger.State()), owner.value, verdict, None))
              else old(ledger.State())
      ensures killSwitchActive <==>
                old(killSwitchActive) || (requestId >= 0 && LookupOf(old(ledger.State()), requestId).SeveralRecords?)
    {
      if requestId < 0 {
        return UnknownOrder;
      }
      var found := ledger.FindByBrokerOrderId(requestId);
      match found
      case NoRecord =>
        return UnknownOrder;
      case SeveralRecords =>
        killSwitchActive := true;
        return AmbiguousOrder;
      case OneRecord(event) =>
        var record := ledger.records[event];
        if record.status == verdict {
          return NoChange;
        }
        if record.status.Terminal() {
          return Ignored;
        }
        var error := ledger.Mark(event, verdict);
        return if error.None? then Updated else LedgerRefused;
    }
  }
}
