/** The IB application object: it dispatches each callback to the order-id allocator and to
    the handler concerned, and keeps the connection's readiness flags. */
module ApiCallbacks {
  import opened Protocol
  import opened ExecutionLedgers
  import opened OrderCallbacks
  import opened OrderCallbackHandlers
  import Allocators = OrderIdAllocators

  /** One callback of the IB API that concerns orders or the connection. */
  datatype Callback =
    | NextValidId(id: OrderId)
    | OpenOrder(id: OrderId)
    | About(report: Report)
    | ConnectionClosed

  /** What a callback asks of the allocator. */
  function AllocatorCalls(c: Callback): seq<Allocators.Request> {
    match c
    case NextValidId(id) => [Allocators.NextValidId(id)]
    case OpenOrder(id) => [Allocators.Observed(id)]
    case About(OrderStatus(id, _, _, _)) => [Allocators.Observed(id)]
    case About(ExecDetails(x)) => [Allocators.Observed(x.orderId)]
    case _ => []
  }

  /** What happens to the allocator over time: callbacks, floors and takes. */
  datatype Moment = Received(callback: Callback) | Floor(id: OrderId) | Take

  function CallsOf(moments: seq<Moment>): seq<Allocators.Request> {
    if moments == [] then []
    else CallsOf(moments[..|moments| - 1]) + CallsAt(moments[|moments| - 1])
  }

  function CallsAt(m: Moment): seq<Allocators.Request> {
    match m
    case Received(callback) => AllocatorCalls(callback)
    case Floor(id) => [Allocators.Minimum(id)]
    case Take => [Allocators.Take]
  }

  /** The order id a callback shows to BTS. */
  function Named(c: Callback): Option<OrderId> {
    match c
    case OpenOrder(id) => Some(id)
    case About(OrderStatus(id, _, _, _)) => Some(id)
    case About(ExecDetails(x)) => Some(x.orderId)
    case _ => None
  }

  lemma {:induction false} CallsOfPrefix(moments: seq<Moment>, k: nat)
    requires k < |moments|
    ensures |CallsOf(moments[..k])| + |CallsAt(moments[k])| <= |CallsOf(moments)|
    ensures CallsOf(moments)[..|CallsOf(moments[..k])|] == CallsOf(moments[..k])
    ensures CallsOf(moments)[|CallsOf(moments[..k])|..][..|CallsAt(moments[k])|] == CallsAt(moments[k])
  {
    var earlier := moments[..|moments| - 1];
    if k == |moments| - 1 {
      assert moments[..k] == earlier;
    } else {
      CallsOfPrefix(earlier, k);
      assert earlier[..k] == moments[..k];
      var n := |CallsOf(moments[..k])|;
      assert CallsOf(moments)[..n] == CallsOf(earlier)[..n];
      assert CallsOf(moments)[n..][..|CallsAt(moments[k])|] == CallsOf(earlier)[n..][..|CallsAt(moments[k])|];
    }
  }

  /** Whatever callbacks arrive and however often the connection is lost in between: the
      next id offered exceeds every order id any earlier callback has shown. */
  lemma NextIdExceedsEveryIdShown(moments: seq<Moment>, k: nat)
    requires k < |moments| && moments[k].Received? && Named(moments[k].callback).Some?
    ensures var a := Allocators.PerformAll(CallsOf(moments));
            Allocators.Allocate(a).Some? ==> Named(moments[k].callback).value < Allocators.Allocate(a).value.0
  {
    var calls := CallsOf(moments);
    CallsOfPrefix(moments, k);
    var n := |CallsOf(moments[..k])|;
    assert calls[n] == calls[n..][0] == CallsAt(moments[k])[0];
    var longer := calls + [Allocators.Take];
    assert longer[..|calls|] == calls;
    if Allocators.Allocate(Allocators.PerformAll(calls)).Some? {
      Allocators.TakenIdExceedsEarlier(longer, n, |calls|);
    }
  }

  class IBApiPositionApp {
    const allocator: Allocators.IBOrderIdAllocator
    const statusTransport: IBOrderStatusTransport
    const executionTransport: IBExecutionDetailsTransport
    const errorHandler: IBErrorHandler
    var apiReady: bool
    var positionRequestActive: bool

    /** The handlers share one ledger, and readiness is only claimed with a usable allocator. */
    predicate Valid()
      reads this, allocator
    {
      && statusTransport.ledger == executionTransport.ledger == errorHandler.ledger
      && (apiReady ==> allocator.initialized && allocator.nextOrderId.Some?)
    }

    constructor (allocator: Allocators.IBOrderIdAllocator, statusTransport: IBOrderStatusTransport,
                 executionTransport: IBExecutionDetailsTransport, errorHandler: IBErrorHandler)
      requires statusTransport.ledger == executionTransport.ledger == errorHandler.ledger
      ensures Valid() && !apiReady && !positionRequestActive
      ensures this.allocator == allocator && this.statusTransport == statusTransport
      ensures this.executionTransport == executionTransport && this.errorHandler == errorHandler
    {
      this.allocator, this.statusTransport := allocator, statusTransport;
      this.executionTransport, this.errorHandler := executionTransport, errorHandler;
      apiReady, positionRequestActive := false, false;
    }

    /** Readiness is announced before the allocator is initialised; both hold on return. */
    method OnNextValidId(orderId: OrderId)
      requires Valid()
      modifies this`apiReady, allocator
      ensures Valid() && apiReady
      ensures allocator.State() == Allocators.Perform(old(allocator.State()), Allocators.NextValidId(orderId))
    {
      apiReady := true;
      allocator.InitializeFrom(orderId);
    }

    method OnOpenOrder(orderId: OrderId)
      requires Valid()
      modifies allocator
      ensures Valid()
      ensures allocator.State() == Allocators.Perform(old(allocator.State()), Allocators.Observed(orderId))
    {
      allocator.ObserveOrderId(orderId);
    }

    /** An order BTS did not create still raises the next id and changes nothing else. */
    method OnOrderStatus(orderId: OrderId, text: string, filled: real, remaining: real)
      requires Valid()
      modifies allocator, statusTransport.ledger
      ensures Valid()
      ensures allocator.State() == Allocators.Perform(old(allocator.State()), Allocators.Observed(orderId))
      ensures statusTransport.ledger.State()
              == OnReport(Books(old(statusTransport.ledger.State()), map[]),
                          OrderStatus(orderId, text, filled, remaining)).ledger
    {
      allocator.ObserveOrderId(orderId);
      var _ := statusTransport.HandleOrderStatus(orderId, text, filled, remaining);
    }

    method OnExecDetails(x: Execution)
      requires Valid()
      modifies allocator, executionTransport`rows, executionTransport.ledger
      ensures Valid()
      ensures allocator.State() == Allocators.Perform(old(allocator.State()), Allocators.Observed(x.orderId))
      ensures executionTransport.State() == OnReport(old(executionTransport.State()), ExecDetails(x))
    {
      allocator.ObserveOrderId(x.orderId);
      var _ := executionTransport.HandleExecution(x);
    }

    /** A lost connection withdraws readiness; the allocator keeps its history. */
    method OnError(requestId: int, code: nat)
      requires Valid() && requestId >= -1
      modifies this`apiReady, this`positionRequestActive, errorHandler`killSwitchActive, errorHandler.ledger
      ensures Valid()
      ensures errorHandler.ledger.State()
              == OnReport(Books(old(errorHandler.ledger.State()), map[]), Error(requestId, code)).ledger
      ensures apiReady <==> old(apiReady) && !Classify(code).ConnectionLost?
      ensures positionRequestActive <==> old(positionRequestActive) && !Classify(code).ConnectionLost?
      ensures errorHandler.killSwitchActive <==>
                || old(errorHandler.killSwitchActive)
                || Classify(code).Critical?
                || (Classify(code) in {OrderRejected, OrderCancelled} && requestId >= 0
                    && LookupOf(old(errorHandler.ledger.State()), requestId).SeveralRecords?)
    {
      var severity, _ := errorHandler.Handle(requestId, code);
      if severity.ConnectionLost? {
        positionRequestActive := false;
        apiReady := false;
      }
    }

    method OnConnectionClosed()
      requires Valid()
      modifies this`apiReady, this`positionRequestActive
      ensures Valid() && !apiReady && !positionRequestActive
    {
      positionRequestActive := false;
      apiReady := false;
    }
  }
}
