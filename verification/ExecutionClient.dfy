/** Order submission: the in-memory duplicate guard, the durable reservation, and the only
    place that calls the broker. */
module ExecutionClients {
  import opened Protocol
  import opened ExecutionLedgers

  /** One call of the broker's place-order function. `event` names the Eagle event the
      order was built from; the broker itself sees the other three fields. */
  datatype Call = Call(event: EventId, orderId: OrderId, buys: bool, quantity: int)

  /** What the client acts on: the durable ledger, the in-memory guard, the broker's calls. */
  datatype Client = Client(ledger: Ledger, guard: map<EventId, SignalId>, calls: seq<Call>)

  datatype ClientError =
    | KnownDurably
    | KnownInMemory
    | LedgerRefused
    | NoReservation
    | NotReserved(status: Status)
    | RequestMismatch
    | ConstructionFailed

  datatype Step = Step(client: Client, error: Option<ClientError>)

  /** reserve_execution: guard, then ledger, with the guard undone if the ledger refuses. */
  function ReserveExecution(c: Client, request: TradeRequest): Step {
    if request.event in c.ledger.records then Step(c, Some(KnownDurably))
    else if request.event in c.guard then Step(c, Some(KnownInMemory))
    else
      var reserved := Reserve(c.ledger, request);
      if reserved.Done?
      then Step(c.(ledger := reserved.ledger, guard := c.guard[request.event := request.signal]), None)
      else Step(c, Some(LedgerRefused))
  }

  predicate Matches(record: Record, request: TradeRequest) {
    && record.signal == request.signal
    && record.symbol == request.symbol
    && record.intent == request.intent
    && record.quantity == request.quantity
  }

  /** The contract and order can be built. `contractValid` is the verdict on the contract month. */
  predicate Constructible(request: TradeRequest, contractValid: bool) {
    contractValid && request.symbol != "" && request.quantity > 0
  }

  /** submit_reserved up to and including the durable SUBMITTED write. */
  function BeginSubmission(c: Client, request: TradeRequest, id: OrderId, contractValid: bool): Step {
    var e := request.event;
    if e !in c.ledger.records then Step(c, Some(NoReservation))
    else if c.ledger.records[e].status != Reserved then Step(c, Some(NotReserved(c.ledger.records[e].status)))
    else if !Matches(c.ledger.records[e], request) then Step(c, Some(RequestMismatch))
    else
      var guarded := c.(guard := if e in c.guard then c.guard else c.guard[e := request.signal]);
      if !Constructible(request, contractValid)
      then Step(guarded.(ledger := After(c.ledger, Transition(c.ledger, e, Rejected, None))), Some(ConstructionFailed))
      else Step(guarded.(ledger := After(c.ledger, Transition(c.ledger, e, Submitted, Some(id)))), None)
  }

  function OrderFor(request: TradeRequest, id: OrderId): Call {
    Call(request.event, id, request.intent.Buys(), request.quantity)
  }

  function SubmitReserved(c: Client, request: TradeRequest, id: OrderId, contractValid: bool): Step {
    var begun := BeginSubmission(c, request, id, contractValid);
    if begun.error.Some? then begun
    else Step(begun.client.(calls := begun.client.calls + [OrderFor(request, id)]), None)
  }

  function Submit(c: Client, request: TradeRequest, id: OrderId, contractValid: bool): Step {
    var reserved := ReserveExecution(c, request);
    if reserved.error.Some? then reserved else SubmitReserved(reserved.client, request, id, contractValid)
  }

  /** A submission either calls the broker once, for the event it was asked about with the
      side and quantity of its record, or not at all. */
  lemma SubmissionCallsOnceOrNever(c: Client, request: TradeRequest, id: OrderId, contractValid: bool)
    ensures var s := Submit(c, request, id, contractValid);
            && (s.error.None? <==> s.client.calls == c.calls + [OrderFor(request, id)])
            && (s.error.Some? ==> s.client.calls == c.calls)
            && (s.error.None? <==> request.event !in c.ledger.records && request.event !in c.guard
                                   && Constructible(request, contractValid))
            && (s.error.None? ==> request.event in s.client.ledger.records
                                  && Matches(s.client.ledger.records[request.event], request)
                                  && s.client.ledger.records[request.event].brokerId == Some(id))
  {
    assert |c.calls + [OrderFor(request, id)]| == |c.calls| + 1;
  }

  /** A second submission of the same event never reaches the broker, not even after a
      restart has emptied the guard. */
  lemma SecondSubmissionIsRefused(c: Client, request: TradeRequest, id: OrderId, contractValid: bool,
                                  again: TradeRequest, id': OrderId, contractValid': bool)
    requires again.event == request.event && Submit(c, request, id, contractValid).error.None?
    ensures var restarted := Submit(c, request, id, contractValid).client.(guard := map[]);
            && Submit(restarted, again, id', contractValid').client == restarted
            && SubmitReserved(restarted, again, id', contractValid').client == restarted
  {
  }

  // ------------------------------------------------------------------ classes

  class DuplicateOrderGuard {
    var reservations: map<EventId, SignalId>

    constructor ()
      ensures reservations == map[]
    {
      reservations := map[];
    }

    /** The first reservation of an event succeeds, later ones are duplicates. */
    method ReserveEvent(request: TradeRequest) returns (allowed: bool)
      modifies this
      ensures allowed <==> request.event !in old(reservations)
      ensures reservations == if allowed then old(reservations)[request.event := request.signal] else old(reservations)
    {
      if request.event in reservations {
        return false;
      }
      reservations := reservations[request.event := request.signal];
      return true;
    }

    method Contains(event: EventId) returns (known: bool)
      ensures known <==> event in reservations
    {
      return event in reservations;
    }

    method Release(event: EventId) returns (removed: bool)
      modifies this
      ensures removed <==> event in old(reservations)
      ensures reservations == old(reservations) - {event}
    {
      removed := event in reservations;
      reservations := reservations - {event};
    }
  }

  /** The injected place-order function. Whether the call raises is the broker's business;
      the order may have reached it either way. */
  class BrokerGateway {
    var calls: seq<Call>

    constructor ()
      ensures calls == []
    {
      calls := [];
    }

    method PlaceOrder(call: Call) returns (raised: bool)
      modifies this
      ensures calls == old(calls) + [call]
    {
      calls := calls + [call];
      raised := *;
    }
  }

  class IBExecutionClient {
    const guard: DuplicateOrderGuard
    const ledger: ExecutionLedger
    const broker: BrokerGateway

    constructor (guard: DuplicateOrderGuard, ledger: ExecutionLedger, broker: BrokerGateway)
      ensures this.guard == guard && this.ledger == ledger && this.broker == broker
    {
      this.guard, this.ledger, this.broker := guard, ledger, broker;
    }

    function State(): Client
      reads guard, ledger, broker
    {
      Client(ledger.State(), guard.reservations, broker.calls)
    }

    method Reserve(request: TradeRequest) returns (error: Option<ClientError>)
      modifies guard, ledger
      ensures Step(State(), error) == ReserveExecution(old(State()), request)
    {
      if request.event in ledger.records {
        return Some(KnownDurably);
      }
      var allowed := guard.ReserveEvent(request);
      if !allowed {
        return Some(KnownInMemory);
      }
      var refused := ledger.ReserveEvent(request);
      if refused.Some? {
        var _ := guard.Release(request.event);
        assert guard.reservations == old(guard.reservations);
        return Some(LedgerRefused);
      }
      return None;
    }

    /** SUBMITTED is durable before the broker is called, whatever the call then does. */
    method SubmitReservedOrder(request: TradeRequest, id: OrderId, contractValid: bool)
      returns (error: Option<ClientError>, raised: bool)
      modifies guard, ledger, broker
      ensures Step(State(), error) == SubmitReserved(old(State()), request, id, contractValid)
    {
      raised := false;
      if request.event !in ledger.records {
        return Some(NoReservation), raised;
      }
      var record := ledger.records[request.event];
      if record.status != Reserved {
        return Some(NotReserved(record.status)), raised;
      }
      if !Matches(record, request) {
        return Some(RequestMismatch), raised;
      }
      var known := guard.Contains(request.event);
      if !known {
        var _ := guard.ReserveEvent(request);
      }
      if !Constructible(request, contractValid) {
        var _ := ledger.Mark(request.event, Rejected);
        return Some(ConstructionFailed), raised;
      }
      var _ := ledger.MarkSubmitted(request.event, id);
      raised := broker.PlaceOrder(OrderFor(request, id));
      return None, raised;
    }

    method SubmitOrder(request: TradeRequest, id: OrderId, contractValid: bool)
      returns (error: Option<ClientError>, raised: bool)
      modifies guard, ledger, broker
      ensures Step(State(), error) == Submit(old(State()), request, id, contractValid)
    {
      error := Reserve(request);
      if error.Some? {
        return error, false;
      }
      error, raised := SubmitReservedOrder(request, id, contractValid);
    }
  }
}
