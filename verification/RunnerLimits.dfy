/** Where the exposure theorems stop: what happens when an assumption about the operator or
    about Eagle is broken, and the exact condition under which a close is safe. */
module RunnerLimits {
  import opened Protocol
  import opened ExecutionLedgers
  import opened ExecutionClients
  import opened SignalLifecycles
  import opened RunnerDecisions
  import opened Runners
  import opened RunnerInvariant
  import Allocators = OrderIdAllocators
  import Events = EventStores
  import Core = ExecutionMachines

  /** Every position has an open signal on its side. */
  ghost predicate Unorphaned(w: World) {
    && (w.broker.position > 0 ==> HasOpen(w.life, LongOpen))
    && (w.broker.position < 0 ==> HasOpen(w.life, ShortOpen))
  }

  ghost predicate AboutToClose(c: Setup, w: World) {
    Inv(c, w) && w.process.Running? && w.process.stage.Sending? && !w.process.stage.purpose.EntryOrder?
  }

  lemma OneSideOpen(life: Lifecycle, signal: SignalId, state: SignalState)
    requires OpensOf(life) == OneOpen(signal, state)
    ensures forall other :: HasOpen(life, other) && other != Closed ==> other == state
  {
  }

  lemma AboutToCloseFacts(c: Setup, w: World)
    requires AboutToClose(c, w)
    ensures w.core.placing.Some? && w.process.stage.request.intent.Closing()
    ensures Poised(c, w.life, w.broker, w.process.stage.request)
  {
  }

  /** The order reaches the broker. */
  lemma SendReaches(c: Setup, w: World, valid: bool)
    requires w.process.Running? && w.process.stage.Sending? && w.core.placing.Some?
    ensures Enabled(c, w, Continue(valid, true))
    ensures var sent, request := Next(c, w, Continue(valid, true)), w.process.stage.request;
            && sent.life == w.life
            && sent.broker == w.broker.(orders := w.broker.orders[w.core.placing.value.orderId :=
                 Order(request.event, request.signal, request.intent, 0, None)])
  {
  }

  lemma FillCompletes(c: Setup, w: World, id: OrderId)
    requires id in w.broker.orders && w.broker.orders[id].Working() && w.broker.orders[id].filled == 0
    ensures Enabled(c, w, Fills(id, c.q))
    ensures var done := Next(c, w, Fills(id, c.q));
            done.life == w.life && done.broker.position == w.broker.position + w.broker.orders[id].intent.Sign() * c.q
  {
  }

  lemma ClosingMoves(request: TradeRequest, held: int, q: Quantity)
    requires request.intent.Closing()
    ensures held + request.intent.Sign() * q == held - Signed(Side(request.intent), q)
  {
  }

  /** The world after the close has been sent and has filled, had the position been `held`. */
  lemma ClosedFrom(c: Setup, w: World, held: int, valid: bool) returns (done: World)
    requires w.process.Running? && w.process.stage.Sending? && w.core.placing.Some?
    requires w.process.stage.request.intent.Closing()
    ensures var at, id := w.(broker := w.broker.(position := held)), w.core.placing.value.orderId;
            && Enabled(c, at, Continue(valid, true))
            && Enabled(c, Next(c, at, Continue(valid, true)), Fills(id, c.q))
            && done == Next(c, Next(c, at, Continue(valid, true)), Fills(id, c.q))
    ensures done.life == w.life
    ensures done.broker.position == held - Signed(Side(w.process.stage.request.intent), c.q)
  {
    var at, id := w.(broker := w.broker.(position := held)), w.core.placing.value.orderId;
    SendReaches(c, at, valid);
    var sent := Next(c, at, Continue(valid, true));
    FillCompletes(c, sent, id);
    ClosingMoves(w.process.stage.request, held, c.q);
    done := Next(c, sent, Fills(id, c.q));
  }

  lemma CoveredIffUnmoved(c: Setup, life: Lifecycle, signal: SignalId, state: SignalState, held: int)
    requires OpensOf(life) == OneOpen(signal, state) && -(c.q as int) <= held <= c.q
    ensures var left := held - Signed(state, c.q);
            ((left > 0 ==> HasOpen(life, LongOpen)) && (left < 0 ==> HasOpen(life, ShortOpen))) <==> left == 0
  {
    OneSideOpen(life, signal, state);
  }

  /** Between the last position check and the broker call the position may move. Wherever in
      the approved range it stands when a close is sent, once that order has filled every
      position is covered by a signal if and only if the position was still the one checked. */
  lemma CloseSafeIffCheckedPositionHolds(c: Setup, w: World, held: int, valid: bool) returns (done: World)
    requires AboutToClose(c, w) && -(c.q as int) <= held <= c.q
    ensures w.core.placing.Some?
    ensures var at, id := w.(broker := w.broker.(position := held)), w.core.placing.value.orderId;
            && Enabled(c, at, Continue(valid, true))
            && Enabled(c, Next(c, at, Continue(valid, true)), Fills(id, c.q))
            && done == Next(c, Next(c, at, Continue(valid, true)), Fills(id, c.q))
    ensures done.broker.position == held - w.broker.position
    ensures Unorphaned(done) <==> held == w.broker.position
  {
    var request := w.process.stage.request;
    AboutToCloseFacts(c, w);
    done := ClosedFrom(c, w, held, valid);
    CoveredIffUnmoved(c, w.life, request.signal, Side(request.intent), held);
  }

  // ------------------------------------------------- a session without a hello

  function EntryRequest(c: Setup, entry: EventId, signal: SignalId): TradeRequest {
    RequestFor(c, entry, signal, BuyToOpen)
  }

  const LIVE := Session(true, 0, 0, true, false, {}, false, false)

  /** An armed process that has booted and listens. */
  function Listening(): World {
    World(Events.EMPTY_STORE, map[],
          Core.START.(allocator := Allocators.Allocator(true, Some(1), None, None)),
          Broker(0, map[]),
          Running(true, false, None, FIRST_SESSION, Idle))
  }

  /** Hello and heartbeat have come, and a live entry has just been consumed. */
  function Consumed(c: Setup, entry: EventId, signal: SignalId): World {
    Listening().(store := Events.Store({entry}, Some(2)),
                 process := Running(true, false, None, LIVE.(heartbeatSeen := true),
                                    EntryConsumed(EntryRequest(c, entry, signal))))
  }

  /** The opening order is with the broker, unfilled, and the program waits for it. */
  function Ordered(c: Setup, entry: EventId, signal: SignalId): World {
    var request := EntryRequest(c, entry, signal);
    var record := Record(signal, SYMBOL, BuyToOpen, c.q, Submitted, Some(1));
    var log := [Row(entry, None, Reserved, None), Row(entry, Some(Reserved), Submitted, Some(1))];
    World(Events.Store({entry}, Some(2)),
          map[signal := LifeRow(LongOpen, entry)],
          Core.Machine(Client(Ledger(map[entry := record], log), map[entry := signal], [OrderFor(request, 1)]),
                       map[], Allocators.Allocator(true, Some(2), Some(1), None), None, None, None),
          Broker(0, map[1 := Order(entry, signal, BuyToOpen, 0, None)]),
          Running(true, false, None, LIVE.(heartbeatSeen := true), Waiting(EntryOrder, request)))
  }

  lemma RunGrows(c: Setup, run: seq<Action>, w: World, a: Action)
    requires Leads(c, run, w) && Enabled(c, w, a)
    ensures Leads(c, run + [a], Next(c, w, a))
    ensures AssumedThroughout(c, run) && Assumed(c, w, a) ==> AssumedThroughout(c, run + [a])
  {
    assert (run + [a])[..|run|] == run;
  }

  /** One step from a known world to a known world. */
  ghost predicate Goes(c: Setup, w: World, a: Action, next: World) {
    match w
    case World(_, _, _, _, _) => Enabled(c, w, a) && Assumed(c, w, a) && Next(c, w, a) == next
  }

  function Started(stage: Stage): Program {
    Running(true, false, None, FIRST_SESSION, stage)
  }

  lemma StartGoes(c: Setup)
    ensures Goes(c, START, Start(true, false), START.(process := Started(Booting)))
  {
  }

  lemma HandshakeGoes(c: Setup)
    ensures Goes(c, START.(process := Started(Booting)), ConnectIB(1), Listening().(process := Started(Preflight)))
  {
  }

  lemma PreflightGoes(c: Setup)
    ensures Goes(c, Listening().(process := Started(Preflight)), Continue(true, true), Listening())
  {
  }

  function Greeted(): World {
    Listening().(process := Running(true, false, None, LIVE, Idle))
  }

  function Cleared(): World {
    Listening().(store := Events.Store({}, Some(1)),
                 process := Running(true, false, None, LIVE.(heartbeatSeen := true), Idle))
  }

  const GREETING := Deliver(Hello(true, 0, []), Ready)
  const BEAT := Deliver(Heartbeat(1), Ready)

  function Arrival(entry: EventId, signal: SignalId): Action {
    Deliver(Entry(entry, 2, signal, SUPPORTED_SYMBOL, "long"), Ready)
  }

  lemma HelloGoes(c: Setup)
    ensures Goes(c, Listening(), GREETING, Greeted())
  {
  }

  lemma HeartbeatGoes(c: Setup)
    ensures Goes(c, Greeted(), BEAT, Cleared())
  {
  }

  lemma EntryGoes(c: Setup, entry: EventId, signal: SignalId)
    ensures Goes(c, Cleared(), Arrival(entry, signal), Consumed(c, entry, signal))
  {
  }

  lemma RunGoes(c: Setup, run: seq<Action>, w: World, a: Action, next: World)
    requires Leads(c, run, w) && AssumedThroughout(c, run) && Goes(c, w, a, next)
    ensures Leads(c, run + [a], next) && AssumedThroughout(c, run + [a])
  {
    RunGrows(c, run, w, a);
  }

  lemma Boots(c: Setup) returns (run: seq<Action>)
    ensures Leads(c, run, Listening()) && AssumedThroughout(c, run)
  {
    StartGoes(c);
    RunGoes(c, [], START, Start(true, false), START.(process := Started(Booting)));
    run := [] + [Start(true, false)];
    HandshakeGoes(c);
    RunGoes(c, run, START.(process := Started(Booting)), ConnectIB(1), Listening().(process := Started(Preflight)));
    run := run + [ConnectIB(1)];
    PreflightGoes(c);
    RunGoes(c, run, Listening().(process := Started(Preflight)), Continue(true, true), Listening());
    run := run + [Continue(true, true)];
  }

  lemma Hears(c: Setup, entry: EventId, signal: SignalId) returns (run: seq<Action>)
    ensures Leads(c, run, Consumed(c, entry, signal)) && AssumedThroughout(c, run)
  {
    run := Boots(c);
    HelloGoes(c);
    RunGoes(c, run, Listening(), GREETING, Greeted());
    HeartbeatGoes(c);
    RunGoes(c, run + [GREETING], Greeted(), BEAT, Cleared());
    EntryGoes(c, entry, signal);
    RunGoes(c, run + [GREETING] + [BEAT], Cleared(), Arrival(entry, signal), Consumed(c, entry, signal));
    run := run + [GREETING] + [BEAT] + [Arrival(entry, signal)];
  }

  // From the consumed entry to the order at the broker, write by write.

  const ONWARD := Continue(true, true)

  function WithLife(c: Setup, entry: EventId, signal: SignalId): World {
    Consumed(c, entry, signal).(
      life := map[signal := LifeRow(LongOpen, entry)],
      process := Running(true, false, None, LIVE.(heartbeatSeen := true),
                         EntryCommitted(EntryRequest(c, entry, signal))))
  }

  function WithId(c: Setup, entry: EventId, signal: SignalId): World {
    var w := WithLife(c, entry, signal);
    w.(core := w.core.(issued := Some(1), allocator := Allocators.Allocator(true, Some(2), Some(1), None)))
  }

  function WithRecord(c: Setup, entry: EventId, signal: SignalId): World {
    var w, request := WithId(c, entry, signal), EntryRequest(c, entry, signal);
    var ledger := Ledger(map[entry := Record(signal, SYMBOL, BuyToOpen, c.q, Reserved, None)],
                         [Row(entry, None, Reserved, None)]);
    w.(core := w.core.(client := Client(ledger, map[entry := signal], [])),
       process := Running(true, false, None, LIVE.(heartbeatSeen := true), EntryReserved(request)))
  }

  function WithCall(c: Setup, entry: EventId, signal: SignalId): World {
    var w, request := Ordered(c, entry, signal), EntryRequest(c, entry, signal);
    w.(core := w.core.(client := w.core.client.(calls := []), placing := Some(OrderFor(request, 1))),
       broker := Broker(0, map[]),
       process := Running(true, false, None, LIVE.(heartbeatSeen := true), Sending(EntryOrder, request)))
  }

  lemma LifeGoes(c: Setup, entry: EventId, signal: SignalId)
    ensures Goes(c, Consumed(c, entry, signal), ONWARD, WithLife(c, entry, signal))
  {
    OnlyOpenSignal(WithLife(c, entry, signal).life, signal);
  }

  lemma IdGoes(c: Setup, entry: EventId, signal: SignalId)
    ensures Goes(c, WithLife(c, entry, signal), ONWARD, WithId(c, entry, signal))
  {
  }

  lemma RecordGoes(c: Setup, entry: EventId, signal: SignalId)
    ensures Goes(c, WithId(c, entry, signal), ONWARD, WithRecord(c, entry, signal))
  {
  }

  lemma CallGoes(c: Setup, entry: EventId, signal: SignalId)
    ensures Goes(c, WithRecord(c, entry, signal), ONWARD, WithCall(c, entry, signal))
  {
  }

  lemma OrderGoes(c: Setup, entry: EventId, signal: SignalId)
    ensures Goes(c, WithCall(c, entry, signal), ONWARD, Ordered(c, entry, signal))
  {
  }

  /** A live entry, from process start to a working order, with every assumption kept. */
  lemma TradesAnEntry(c: Setup, entry: EventId, signal: SignalId) returns (run: seq<Action>)
    ensures Leads(c, run, Ordered(c, entry, signal)) && AssumedThroughout(c, run)
  {
    run := Hears(c, entry, signal);
    LifeGoes(c, entry, signal);
    RunGoes(c, run, Consumed(c, entry, signal), ONWARD, WithLife(c, entry, signal));
    IdGoes(c, entry, signal);
    RunGoes(c, run + [ONWARD], WithLife(c, entry, signal), ONWARD, WithId(c, entry, signal));
    RecordGoes(c, entry, signal);
    RunGoes(c, run + [ONWARD] + [ONWARD], WithId(c, entry, signal), ONWARD, WithRecord(c, entry, signal));
    run := run + [ONWARD] + [ONWARD] + [ONWARD];
    CallGoes(c, entry, signal);
    RunGoes(c, run, WithRecord(c, entry, signal), ONWARD, WithCall(c, entry, signal));
    OrderGoes(c, entry, signal);
    RunGoes(c, run + [ONWARD], WithCall(c, entry, signal), ONWARD, Ordered(c, entry, signal));
    run := run + [ONWARD] + [ONWARD];
  }

  // The wait times out, and the next session starts with the exit instead of a hello.

  function TimedOut(c: Setup, entry: EventId, signal: SignalId): World {
    Ordered(c, entry, signal).(process := Running(true, false, None, LOST_SESSION, Idle))
  }

  function BareExit(c: Setup, signal: SignalId): Action {
    Deliver(Exit(c.exitOf(signal), 3, signal), Ready)
  }

  function FoundFlat(c: Setup, entry: EventId, signal: SignalId): World {
    TimedOut(c, entry, signal).(process :=
      Running(true, false, None, CountReplayed(LOST_SESSION), ReplayedFlat(c.exitOf(signal), 3, signal)))
  }

  function ClosedEarly(c: Setup, entry: EventId, signal: SignalId): World {
    TimedOut(c, entry, signal).(
      life := map[signal := LifeRow(Closed, c.exitOf(signal))],
      process := Running(true, false, None, CountReplayed(LOST_SESSION), ReplayedDurable(c.exitOf(signal), 3, signal)))
  }

  lemma TimeoutGoes(c: Setup, entry: EventId, signal: SignalId)
    ensures Goes(c, Ordered(c, entry, signal), Disconnect, TimedOut(c, entry, signal))
  {
  }

  lemma BareExitGoes(c: Setup, entry: EventId, signal: SignalId)
    requires entry != c.exitOf(signal)
    ensures var w := TimedOut(c, entry, signal);
            Enabled(c, w, BareExit(c, signal)) && Next(c, w, BareExit(c, signal)) == FoundFlat(c, entry, signal)
  {
    OnlyOpenSignal(TimedOut(c, entry, signal).life, signal);
  }

  lemma CloseGoes(c: Setup, entry: EventId, signal: SignalId)
    ensures Goes(c, FoundFlat(c, entry, signal), ONWARD, ClosedEarly(c, entry, signal))
  {
  }

  lemma LateFillGoes(c: Setup, entry: EventId, signal: SignalId)
    ensures var w := ClosedEarly(c, entry, signal);
            && Enabled(c, w, Fills(1, c.q)) && Assumed(c, w, Fills(1, c.q))
            && !Unorphaned(Next(c, w, Fills(1, c.q)))
  {
  }

  /** Without the hello the theorem fails: an entry order times out unfilled, the exit is
      replayed in a session that never sent fund.hello, the flat snapshot closes the signal,
      and the order then fills. Only the one frame breaks an assumption. */
  lemma HelloFirstIsNeeded(c: Setup, entry: EventId, signal: SignalId) returns (run: seq<Action>, w: World)
    requires entry != c.exitOf(signal)
    ensures |run| >= 3 && run[|run| - 3..] == [BareExit(c, signal), ONWARD, Fills(1, c.q)]
    ensures AssumedThroughout(c, run[..|run| - 3])
    ensures Leads(c, run, w) && !Unorphaned(w)
  {
    var before := TradesAnEntry(c, entry, signal);
    TimeoutGoes(c, entry, signal);
    RunGoes(c, before, Ordered(c, entry, signal), Disconnect, TimedOut(c, entry, signal));
    before := before + [Disconnect];
    BareExitGoes(c, entry, signal);
    RunGrows(c, before, TimedOut(c, entry, signal), BareExit(c, signal));
    CloseGoes(c, entry, signal);
    RunGrows(c, before + [BareExit(c, signal)], FoundFlat(c, entry, signal), ONWARD);
    LateFillGoes(c, entry, signal);
    RunGrows(c, before + [BareExit(c, signal)] + [ONWARD], ClosedEarly(c, entry, signal), Fills(1, c.q));
    run := before + [BareExit(c, signal)] + [ONWARD] + [Fills(1, c.q)];
    w := Next(c, ClosedEarly(c, entry, signal), Fills(1, c.q));
    assert run[..|run| - 3] == before;
  }

  lemma FlatCloseClosesAll(c: Setup, w: World)
    requires w.process.Running? && w.process.stage.ReplayedFlat?
    requires OpensOf(w.life).OneOpen? && OpensOf(w.life).signal == w.process.stage.signal
    ensures Enabled(c, w, ONWARD)
    ensures Next(c, w, ONWARD).broker == w.broker && OpensOf(Next(c, w, ONWARD).life) == NoneOpen
  {
  }

  lemma OneContractMoves(c: Setup, w: World, id: OrderId)
    requires id in w.broker.orders && w.broker.orders[id].Working() && w.broker.orders[id].filled < c.q
    ensures Enabled(c, w, Fills(id, 1))
    ensures Next(c, w, Fills(id, 1)).broker.position != w.broker.position && Next(c, w, Fills(id, 1)).life == w.life
  {
  }

  ghost predicate FillsStayCovered(c: Setup, w: World) {
    forall id, n :: Enabled(c, w, Fills(id, n)) ==> Unorphaned(Next(c, w, Fills(id, n)))
  }

  /** The exact condition: closing a signal on a flat snapshot is safe against the next fill
      if and only if no order is working, which is what the hello establishes. */
  lemma FlatCloseSafeIffNothingWorks(c: Setup, w: World)
    requires w.process.Running? && w.process.stage.ReplayedFlat? && w.broker.position == 0
    requires OpensOf(w.life).OneOpen? && OpensOf(w.life).signal == w.process.stage.signal
    requires OrdersMatch(c, LedgerOf(w), w.broker.orders)
    ensures Enabled(c, w, ONWARD)
    ensures FillsStayCovered(c, Next(c, w, ONWARD)) <==> NothingWorking(w.broker.orders)
  {
    FlatCloseClosesAll(c, w);
    var after := Next(c, w, ONWARD);
    if !NothingWorking(w.broker.orders) {
      var id :| id in w.broker.orders && w.broker.orders[id].Working();
      assert OrderMatches(c, LedgerOf(w).records, id, w.broker.orders[id]);
      OneContractMoves(c, after, id);
      assert !Unorphaned(Next(c, after, Fills(id, 1)));
    }
  }

  /** A guard the program can evaluate: no record stands between SUBMITTED and a terminal
      status. */
  predicate LedgerQuiet(l: Ledger) {
    match l
    case Ledger(records, _) =>
      forall e :: e in records ==> records[e].status == Reserved || records[e].status.Terminal()
  }

  /** With a quiet ledger nothing works at the broker. */
  lemma QuietLedgerMeansNothingWorks(c: Setup, l: Ledger, orders: map<OrderId, Order>)
    requires Matched(c, l, orders) && LedgerQuiet(l)
    ensures NothingWorking(orders)
  {
    forall id | id in orders ensures !orders[id].Working() {
      assert OrderMatches(c, l.records, id, orders[id]);
      assert TrueOf(orders[id].event, l.records[orders[id].event], orders);
    }
  }

  /** So a lifecycle-only close guarded by a quiet ledger would be safe without any
      assumption about the hello. */
  lemma FlatCloseSafeWhenLedgerQuiet(c: Setup, w: World)
    requires w.process.Running? && w.process.stage.ReplayedFlat? && w.broker.position == 0
    requires OpensOf(w.life).OneOpen? && OpensOf(w.life).signal == w.process.stage.signal
    requires Matched(c, LedgerOf(w), w.broker.orders) && LedgerQuiet(LedgerOf(w))
    ensures Enabled(c, w, ONWARD) && FillsStayCovered(c, Next(c, w, ONWARD))
  {
    QuietLedgerMeansNothingWorks(c, LedgerOf(w), w.broker.orders);
    FlatCloseSafeIffNothingWorks(c, w);
  }
}
