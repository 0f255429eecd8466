/** The invariant behind the exposure theorems: what ledger, lifecycle, broker and program
    know about each other, and the small facts each step rests on. */
module RunnerInvariant {
  import opened Protocol
  import opened ExecutionLedgers
  import opened ExecutionClients
  import opened SignalLifecycles
  import opened RunnerDecisions
  import opened Runners
  import Core = ExecutionMachines

  // ---------------------------------------------------- ledger against broker

  /** Every record is of the approved size; a closing record belongs to its signal's exit. */
  predicate Terms(c: Setup, l: Ledger) {
    match l
    case Ledger(records, _) => forall e :: e in records ==> TermsOf(c, e, records[e])
  }

  predicate TermsOf(c: Setup, event: EventId, record: Record) {
    && record.quantity == c.q
    && record.symbol == SYMBOL
    && (record.intent.Closing() ==> event == c.exitOf(record.signal))
  }

  /** Every order at the broker is one the ledger has submitted under that id. */
  predicate OrdersMatch(c: Setup, l: Ledger, orders: map<OrderId, Order>) {
    match l
    case Ledger(records, _) => forall id :: id in orders ==> OrderMatches(c, records, id, orders[id])
  }

  predicate OrderMatches(c: Setup, records: map<EventId, Record>, id: OrderId, o: Order) {
    && o.event in records
    && records[o.event].brokerId == Some(id)
    && records[o.event].signal == o.signal
    && records[o.event].intent == o.intent
    && records[o.event].status != Reserved
    && 0 <= o.filled <= c.q
    && (o.Working() ==> o.filled < c.q)
    && (o.end == Some(Filled) ==> o.filled == c.q)
  }

  /** A terminal status in the ledger is what happened to the order. */
  predicate Truth(l: Ledger, orders: map<OrderId, Order>) {
    match l
    case Ledger(records, _) => forall e :: e in records ==> TrueOf(e, records[e], orders)
  }

  predicate TrueOf(event: EventId, record: Record, orders: map<OrderId, Order>) {
    record.status.Terminal() && record.brokerId.Some? ==>
      && record.brokerId.value in orders
      && orders[record.brokerId.value].event == event
      && orders[record.brokerId.value].end == Some(record.status)
  }

  ghost predicate Matched(c: Setup, l: Ledger, orders: map<OrderId, Order>) {
    match l
    case Ledger(_, _) => Terms(c, l) && OrdersMatch(c, l, orders) && Truth(l, orders)
  }

  // ------------------------------------------------- broker against lifecycle

  /** A working order belongs to an open signal, and the position is what its fills make it:
      an opening order started from flat, a closing order from the full quantity. */
  predicate Carried(c: Setup, life: Lifecycle, position: int, o: Order) {
    && o.signal in life
    && life[o.signal].state == Side(o.intent)
    && position == Signed(Side(o.intent), if o.intent.Closing() then c.q - o.filled else o.filled)
  }

  ghost predicate HasOpen(life: Lifecycle, state: SignalState) {
    exists s :: s in life && life[s].state == state
  }

  ghost predicate Covered(c: Setup, life: Lifecycle, position: int) {
    && -(c.q as int) <= position <= c.q
    && (position > 0 ==> HasOpen(life, LongOpen))
    && (position < 0 ==> HasOpen(life, ShortOpen))
  }

  ghost predicate Coupled(c: Setup, life: Lifecycle, broker: Broker) {
    match broker
    case Broker(position, orders) =>
      && (forall i, j :: i in orders && j in orders && orders[i].Working() && orders[j].Working() ==> i == j)
      && (forall i :: i in orders && orders[i].Working() ==> Carried(c, life, position, orders[i]))
      && (NothingWorking(orders) ==> Covered(c, life, position))
  }

  predicate Flat(broker: Broker) {
    match broker
    case Broker(position, orders) => position == 0 && NothingWorking(orders)
  }

  predicate NoOpeningWorks(orders: map<OrderId, Order>) {
    forall id :: id in orders && orders[id].Working() ==> orders[id].intent.Closing()
  }

  predicate OpenFor(life: Lifecycle, request: TradeRequest) {
    request.signal in life && life[request.signal].state == Side(request.intent)
  }

  /** Nothing works and the position is exactly what the closing request will close. */
  ghost predicate Poised(c: Setup, life: Lifecycle, broker: Broker, request: TradeRequest) {
    match broker
    case Broker(position, orders) =>
      && NothingWorking(orders)
      && OpensOf(life) == OneOpen(request.signal, Side(request.intent))
      && position == Signed(Side(request.intent), c.q)
  }

  predicate OnlyWorks(orders: map<OrderId, Order>, event: EventId) {
    forall id :: id in orders && orders[id].Working() ==> orders[id].event == event
  }

  predicate FillFlattens(broker: Broker, event: EventId) {
    match broker
    case Broker(position, orders) =>
      forall id :: id in orders && orders[id].event == event && orders[id].end == Some(Filled) ==> position == 0
  }

  ghost predicate StageHolds(c: Setup, life: Lifecycle, broker: Broker, stage: Stage) {
    match stage
    case ReplayedFlat(_, _, _) => Flat(broker)
    case EntryConsumed(_) => Flat(broker)
    case EntryCommitted(request) => Flat(broker) && OpenFor(life, request)
    case EntryReserved(request) => Flat(broker) && OpenFor(life, request)
    case PendingFlat(_, _) => Flat(broker)
    case CloseApproved(_, request) => Poised(c, life, broker, request)
    case Sending(purpose, request) =>
      if purpose.EntryOrder? then Flat(broker) && OpenFor(life, request) else Poised(c, life, broker, request)
    case Waiting(purpose, request) =>
      OnlyWorks(broker.orders, request.event) && (purpose.EntryOrder? || FillFlattens(broker, request.event))
    case CloseFilled(_, _) => Flat(broker)
    case _ => true
  }

  /** After a hello no opening order is left working, except the one being waited for. */
  predicate SessionHolds(orders: map<OrderId, Order>, session: Session, stage: Stage) {
    session.hello && !(stage.Waiting? && stage.purpose.EntryOrder?) ==> NoOpeningWorks(orders)
  }

  ghost predicate BrokerFact(c: Setup, life: Lifecycle, broker: Broker, process: Program) {
    match process
    case Down => true
    case Running(_, _, _, session, stage) =>
      StageHolds(c, life, broker, stage) && SessionHolds(broker.orders, session, stage)
  }

  // ------------------------------------------------- ledger against program

  predicate EntryTerms(c: Setup, request: TradeRequest) {
    !request.intent.Closing() && request.symbol == SYMBOL && request.quantity == c.q
  }

  predicate ExitTerms(c: Setup, request: TradeRequest) {
    && request.intent.Closing() && request.symbol == SYMBOL && request.quantity == c.q
    && request.event == c.exitOf(request.signal)
  }

  predicate ReservedFor(records: map<EventId, Record>, request: TradeRequest) {
    request.event in records && records[request.event].status == Reserved && Matches(records[request.event], request)
  }

  predicate SentFor(records: map<EventId, Record>, request: TradeRequest, id: OrderId) {
    && request.event in records
    && records[request.event].status != Reserved
    && records[request.event].brokerId == Some(id)
    && Matches(records[request.event], request)
  }

  predicate NotOrdered(orders: map<OrderId, Order>, event: EventId) {
    forall id :: id in orders ==> orders[id].event != event
  }

  predicate RequestHolds(c: Setup, core: Core.Machine, orders: map<OrderId, Order>, session: Session, stage: Stage) {
    match stage
    case ReplayedEntry(request) => !request.intent.Closing()
    case ReplayedExposed(event, _, signal) => event == c.exitOf(signal)
    case EntryConsumed(request) => EntryTerms(c, request)
    case EntryCommitted(request) => EntryTerms(c, request)
    case EntryReserved(request) => EntryTerms(c, request) && ReservedFor(core.client.ledger.records, request)
    case ExitConsumed(request) => ExitTerms(c, request)
    case ExitReserved(request) => ExitTerms(c, request) && ReservedFor(core.client.ledger.records, request)
    case PendingChecked(request, _) =>
      ExitTerms(c, request) && ReservedFor(core.client.ledger.records, request) && session.hello
    case CloseApproved(purpose, request) =>
      !purpose.EntryOrder? && ExitTerms(c, request) && ReservedFor(core.client.ledger.records, request)
    case Sending(purpose, request) =>
      && (if purpose.EntryOrder? then EntryTerms(c, request) else ExitTerms(c, request))
      && core.placing.Some?
      && SentFor(core.client.ledger.records, request, core.placing.value.orderId)
      && NotOrdered(orders, request.event)
    case Waiting(purpose, request) =>
      && request.event in core.client.ledger.records
      && core.client.ledger.records[request.event].status != Reserved
      && core.client.ledger.records[request.event].brokerId.Some?
      && (purpose.EntryOrder? || core.client.ledger.records[request.event].intent.Closing())
    case _ => true
  }

  predicate ProgramFact(c: Setup, core: Core.Machine, orders: map<OrderId, Order>, process: Program) {
    match process
    case Down => true
    case Running(_, _, _, session, stage) => RequestHolds(c, core, orders, session, stage)
  }

  /** What the program may rely on, against the ledger, lifecycle and broker of `w`. */
  ghost predicate Facts(c: Setup, w: World, p: Program) {
    match w
    case World(_, life, core, broker, _) => BrokerFact(c, life, broker, p) && ProgramFact(c, core, broker.orders, p)
  }

  ghost predicate Inv(c: Setup, w: World) {
    match w
    case World(_, life, core, broker, process) =>
      && Core.Sound(core)
      && Matched(c, core.client.ledger, broker.orders)
      && Coupled(c, life, broker)
      && Facts(c, w, process)
  }

  // ---------------------------------------------------------- lifecycle writes

  /** Open signals stay open on their side. */
  predicate LifeGrows(before: Lifecycle, after: Lifecycle) {
    forall s :: s in before && before[s].state != Closed ==> s in after && after[s].state == before[s].state
  }

  lemma OpeningGrowsLife(life: Lifecycle, request: TradeRequest)
    requires !request.intent.Closing()
    ensures LifeGrows(life, SignalLifecycles.Process(life, request))
  {
  }

  lemma GrowthKeepsCovered(c: Setup, before: Lifecycle, after: Lifecycle, position: int)
    requires LifeGrows(before, after) && Covered(c, before, position)
    ensures Covered(c, after, position)
  {
    if position > 0 {
      var s :| s in before && before[s].state == LongOpen;
      assert s in after && after[s].state == LongOpen;
    } else if position < 0 {
      var s :| s in before && before[s].state == ShortOpen;
      assert s in after && after[s].state == ShortOpen;
    }
  }

  lemma GrowthKeepsCoupled(c: Setup, before: Lifecycle, after: Lifecycle, broker: Broker)
    requires LifeGrows(before, after) && Coupled(c, before, broker)
    ensures Coupled(c, after, broker)
  {
    if NothingWorking(broker.orders) {
      GrowthKeepsCovered(c, before, after, broker.position);
    }
    forall i | i in broker.orders && broker.orders[i].Working()
      ensures Carried(c, after, broker.position, broker.orders[i])
    {
      assert Carried(c, before, broker.position, broker.orders[i]);
    }
  }

  /** While the broker is flat the lifecycle may change freely. */
  lemma FlatIsCoupled(c: Setup, life: Lifecycle, broker: Broker)
    requires Flat(broker)
    ensures Coupled(c, life, broker)
  {
  }

  // -------------------------------------------------------- broker's own steps

  lemma CarriedIsCovered(c: Setup, life: Lifecycle, position: int, o: Order)
    requires Carried(c, life, position, o) && 0 <= o.filled <= c.q
    ensures Covered(c, life, position)
  {
    assert life[o.signal].state == Side(o.intent);
  }

  lemma FillMovesPosition(c: Setup, life: Lifecycle, position: int, o: Order, n: int, more: Order)
    requires Carried(c, life, position, o)
    requires more.signal == o.signal && more.intent == o.intent && more.filled == o.filled + n
    ensures Carried(c, life, position + o.intent.Sign() * n, more)
    ensures o.intent.Closing() && more.filled == c.q ==> position + o.intent.Sign() * n == 0
  {
  }

  lemma FillKeepsCoupled(c: Setup, life: Lifecycle, b: Broker, id: OrderId, n: int)
    requires Coupled(c, life, b) && id in b.orders && b.orders[id].Working()
    requires 0 <= b.orders[id].filled && 0 < n <= c.q - b.orders[id].filled
    ensures Coupled(c, life, FillOrder(c, b, id, n))
  {
    var after := FillOrder(c, b, id, n);
    FillMovesPosition(c, life, b.position, b.orders[id], n, after.orders[id]);
    CarriedIsCovered(c, life, after.position, after.orders[id]);
  }

  lemma EndKeepsCoupled(c: Setup, life: Lifecycle, b: Broker, id: OrderId, how: Status)
    requires Coupled(c, life, b) && id in b.orders && b.orders[id].Working() && 0 <= b.orders[id].filled <= c.q
    ensures Coupled(c, life, EndOrder(b, id, how))
  {
    CarriedIsCovered(c, life, b.position, b.orders[id]);
  }

  lemma FillKeepsStage(c: Setup, life: Lifecycle, b: Broker, id: OrderId, n: int, p: Program)
    requires Coupled(c, life, b) && id in b.orders && b.orders[id].Working() && BrokerFact(c, life, b, p)
    requires 0 <= b.orders[id].filled && 0 < n <= c.q - b.orders[id].filled
    requires p.Running? && p.stage.Waiting? && !p.stage.purpose.EntryOrder? ==> b.orders[id].intent.Closing()
    ensures BrokerFact(c, life, FillOrder(c, b, id, n), p)
  {
    var after := FillOrder(c, b, id, n);
    FillMovesPosition(c, life, b.position, b.orders[id], n, after.orders[id]);
    assert !NothingWorking(b.orders);
    assert Carried(c, life, b.position, b.orders[id]);
    if p.Running? {
      assert SessionHolds(after.orders, p.session, p.stage);
    }
  }

  lemma EndKeepsStage(c: Setup, life: Lifecycle, b: Broker, id: OrderId, how: Status, p: Program)
    requires id in b.orders && b.orders[id].Working() && BrokerFact(c, life, b, p) && how != Filled
    ensures BrokerFact(c, life, EndOrder(b, id, how), p)
  {
    assert !NothingWorking(b.orders);
  }
}
