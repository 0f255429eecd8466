/** One whole trade: the run of `RunnerLimits.TradesAnEntry` carried on through the entry's
    fill, the live exit, its order and fill, to a flat broker and a closed signal, with every
    assumption kept at every step. */
module RunnerRoundTrip {
  import opened Protocol
  import opened ExecutionLedgers
  import opened ExecutionClients
  import opened SignalLifecycles
  import opened RunnerDecisions
  import opened Runners
  import opened RunnerLimits
  import Allocators = OrderIdAllocators
  import Callbacks = OrderCallbacks
  import Core = ExecutionMachines
  import Events = EventStores

  /** One trade of the approved quantity. */
  datatype RoundTrip = RoundTrip(entry: EventId, exit: EventId, signal: SignalId) {
    ghost predicate Of(c: Setup) {
      entry != exit && exit == c.exitOf(signal)
    }
  }

  function ExitRequest(c: Setup, t: RoundTrip): TradeRequest {
    RequestFor(c, t.exit, t.signal, SellToClose)
  }

  function At(stage: Stage): Program {
    Running(true, false, None, LIVE.(heartbeatSeen := true), stage)
  }

  /** The execution IB reports for a complete fill. */
  function FullFill(c: Setup, id: OrderId, execId: string, side: string): Callbacks.Execution {
    Callbacks.Execution(id, execId, SYMBOL, side, c.q as real, c.q as real)
  }

  // ---------------------------------------------------------------- entry side

  function EntryRecord(c: Setup, t: RoundTrip, status: Status): Record {
    Record(t.signal, SYMBOL, BuyToOpen, c.q, status, Some(1))
  }

  function EntryLog(t: RoundTrip): seq<Row> {
    [Row(t.entry, None, Reserved, None), Row(t.entry, Some(Reserved), Submitted, Some(1))]
  }

  function EntryLedger(c: Setup, t: RoundTrip): Ledger {
    Ledger(map[t.entry := EntryRecord(c, t, Filled)], EntryLog(t) + [Row(t.entry, Some(Submitted), Filled, Some(1))])
  }

  function EntryOrders(c: Setup, t: RoundTrip): map<OrderId, Order> {
    map[1 := Order(t.entry, t.signal, BuyToOpen, c.q, Some(Filled))]
  }

  function EntryRows(c: Setup, t: RoundTrip): map<string, Callbacks.ExecRow> {
    map["a" := Callbacks.ExecRow(t.entry, 1, c.q as real)]
  }

  /** Long, with the entry's execution recorded. */
  function Long(c: Setup, t: RoundTrip, stage: Stage): World {
    World(Events.Store({t.entry}, Some(2)),
          map[t.signal := LifeRow(LongOpen, t.entry)],
          Core.Machine(Client(EntryLedger(c, t), map[t.entry := t.signal],
                              [OrderFor(EntryRequest(c, t.entry, t.signal), 1)]),
                       EntryRows(c, t), Allocators.Allocator(true, Some(2), Some(1), None), None, None, None),
          Broker(c.q, EntryOrders(c, t)),
          At(stage))
  }

  function AwaitingEntry(c: Setup, t: RoundTrip): Stage {
    Waiting(EntryOrder, EntryRequest(c, t.entry, t.signal))
  }

  function EntryFilled(c: Setup, t: RoundTrip): World {
    Ordered(c, t.entry, t.signal).(broker := Broker(c.q, EntryOrders(c, t)))
  }

  function EntryReported(c: Setup, t: RoundTrip): World {
    var w := Long(c, t, AwaitingEntry(c, t));
    w.(core := w.core.(rows := map[], inserting := Some((FullFill(c, 1, "a", "BOT"), t.entry))))
  }

  lemma EntryFillGoes(c: Setup, t: RoundTrip)
    ensures Goes(c, Ordered(c, t.entry, t.signal), Fills(1, c.q), EntryFilled(c, t))
  {
  }

  /** The reported execution is accepted and fills the entry's record. */
  lemma EntryExecution(c: Setup, t: RoundTrip)
    ensures var tables, x := Core.Tables(EntryFilled(c, t).core), FullFill(c, 1, "a", "BOT");
            && Callbacks.Screen(tables, x) == Callbacks.Accept(t.entry)
            && Callbacks.LedgerPart(tables, Callbacks.ExecDetails(x)).ledger == EntryLedger(c, t)
            && !Callbacks.Refuses(tables, Callbacks.ExecDetails(x))
  {
    LookupFindsOwner(LedgerOf(EntryFilled(c, t)), t.entry, 1);
  }

  lemma EntryReportGoes(c: Setup, t: RoundTrip)
    ensures Goes(c, EntryFilled(c, t), Report(Callbacks.ExecDetails(FullFill(c, 1, "a", "BOT"))), EntryReported(c, t))
  {
    EntryExecution(c, t);
  }

  lemma EntryRowGoes(c: Setup, t: RoundTrip)
    ensures Goes(c, EntryReported(c, t), InsertRow, Long(c, t, AwaitingEntry(c, t)))
  {
  }

  lemma EntryDoneGoes(c: Setup, t: RoundTrip)
    ensures Goes(c, Long(c, t, AwaitingEntry(c, t)), ONWARD, Long(c, t, Idle))
  {
    OnlyOpenSignal(Long(c, t, Idle).life, t.signal);
  }

  // ----------------------------------------------------------------- exit side

  function ExitRecord(c: Setup, t: RoundTrip, status: Status, id: Option<OrderId>): Record {
    Record(t.signal, SYMBOL, SellToClose, c.q, status, id)
  }

  function BothRecords(c: Setup, t: RoundTrip, status: Status, id: Option<OrderId>): map<EventId, Record> {
    map[t.entry := EntryRecord(c, t, Filled), t.exit := ExitRecord(c, t, status, id)]
  }

  /** The exit consumed; what follows differs in ledger, allocator, calls and broker only. */
  function Exiting(c: Setup, t: RoundTrip, client: Client, allocator: Allocators.Allocator, issued: Option<OrderId>,
                   broker: Broker, stage: Stage): World {
    World(Events.Store({t.entry, t.exit}, Some(3)),
          map[t.signal := LifeRow(LongOpen, t.entry)],
          Core.Machine(client, EntryRows(c, t), allocator, issued, None, None),
          broker, At(stage))
  }

  function EntryClient(c: Setup, t: RoundTrip): Client {
    Long(c, t, Idle).core.client
  }

  function ReservedLog(c: Setup, t: RoundTrip): seq<Row> {
    EntryLedger(c, t).log + [Row(t.exit, None, Reserved, None)]
  }

  function ReservedClient(c: Setup, t: RoundTrip): Client {
    Client(Ledger(BothRecords(c, t, Reserved, None), ReservedLog(c, t)),
           map[t.entry := t.signal, t.exit := t.signal], EntryClient(c, t).calls)
  }

  function SubmittedLog(c: Setup, t: RoundTrip): seq<Row> {
    ReservedLog(c, t) + [Row(t.exit, Some(Reserved), Submitted, Some(2))]
  }

  function SubmittedClient(c: Setup, t: RoundTrip): Client {
    ReservedClient(c, t).(ledger := Ledger(BothRecords(c, t, Submitted, Some(2)), SubmittedLog(c, t)))
  }

  function CalledClient(c: Setup, t: RoundTrip): Client {
    SubmittedClient(c, t).(calls := EntryClient(c, t).calls + [OrderFor(ExitRequest(c, t), 2)])
  }

  function FilledClient(c: Setup, t: RoundTrip): Client {
    CalledClient(c, t).(ledger := Ledger(BothRecords(c, t, Filled, Some(2)),
                                         SubmittedLog(c, t) + [Row(t.exit, Some(Submitted), Filled, Some(2))]))
  }

  const TWO := Allocators.Allocator(true, Some(2), Some(1), None)
  const THREE := Allocators.Allocator(true, Some(3), Some(2), None)

  function LongBroker(c: Setup, t: RoundTrip): Broker {
    Broker(c.q, EntryOrders(c, t))
  }

  function ExitIsConsumed(c: Setup, t: RoundTrip): World {
    Exiting(c, t, EntryClient(c, t), TWO, None, LongBroker(c, t), ExitConsumed(ExitRequest(c, t)))
  }

  function ExitIsReserved(c: Setup, t: RoundTrip, stage: Stage): World {
    Exiting(c, t, ReservedClient(c, t), TWO, None, LongBroker(c, t), stage)
  }

  function Issued(c: Setup, t: RoundTrip): World {
    Exiting(c, t, ReservedClient(c, t), THREE, Some(2), LongBroker(c, t), CloseApproved(LiveExit, ExitRequest(c, t)))
  }

  function WithExitCall(c: Setup, t: RoundTrip): World {
    var w := Exiting(c, t, SubmittedClient(c, t), THREE, None, LongBroker(c, t), Sending(LiveExit, ExitRequest(c, t)));
    w.(core := w.core.(placing := Some(OrderFor(ExitRequest(c, t), 2))))
  }

  function ClosingBroker(c: Setup, t: RoundTrip, position: int, filled: int, end: Option<Status>): Broker {
    Broker(position, EntryOrders(c, t)[2 := Order(t.exit, t.signal, SellToClose, filled, end)])
  }

  function AwaitingExit(c: Setup, t: RoundTrip): Stage {
    Waiting(LiveExit, ExitRequest(c, t))
  }

  function Placed(c: Setup, t: RoundTrip): World {
    Exiting(c, t, CalledClient(c, t), THREE, None, ClosingBroker(c, t, c.q, 0, None), AwaitingExit(c, t))
  }

  function ExitDone(c: Setup, t: RoundTrip): Broker {
    ClosingBroker(c, t, 0, c.q, Some(Filled))
  }

  function ExitFilled(c: Setup, t: RoundTrip): World {
    Exiting(c, t, CalledClient(c, t), THREE, None, ExitDone(c, t), AwaitingExit(c, t))
  }

  function ExitReported(c: Setup, t: RoundTrip): World {
    var w := Exiting(c, t, FilledClient(c, t), THREE, None, ExitDone(c, t), AwaitingExit(c, t));
    w.(core := w.core.(inserting := Some((FullFill(c, 2, "b", "SLD"), t.exit))))
  }

  function ExitRecorded(c: Setup, t: RoundTrip, stage: Stage): World {
    var w := Exiting(c, t, FilledClient(c, t), THREE, None, ExitDone(c, t), stage);
    w.(core := w.core.(rows := EntryRows(c, t)["b" := Callbacks.ExecRow(t.exit, 2, c.q as real)]))
  }

  /** Flat and closed. */
  function SignalClosed(c: Setup, t: RoundTrip, stage: Stage): World {
    ExitRecorded(c, t, stage).(life := map[t.signal := LifeRow(Closed, t.exit)])
  }

  /** Flat, closed, listening. */
  function Finished(c: Setup, t: RoundTrip): World {
    SignalClosed(c, t, Idle)
  }

  function LiveExitFrame(t: RoundTrip): Action {
    Deliver(Exit(t.exit, 3, t.signal), Ready)
  }

  lemma ExitFrameGoes(c: Setup, t: RoundTrip)
    requires t.Of(c)
    ensures Goes(c, Long(c, t, Idle), LiveExitFrame(t), ExitIsConsumed(c, t))
  {
  }

  lemma ReserveGoes(c: Setup, t: RoundTrip)
    requires t.Of(c)
    ensures Goes(c, ExitIsConsumed(c, t), ONWARD, ExitIsReserved(c, t, ExitReserved(ExitRequest(c, t))))
  {
  }

  lemma ApproveGoes(c: Setup, t: RoundTrip)
    requires t.Of(c)
    ensures Goes(c, ExitIsReserved(c, t, ExitReserved(ExitRequest(c, t))), ONWARD,
                 ExitIsReserved(c, t, CloseApproved(LiveExit, ExitRequest(c, t))))
  {
    OnlyOpenSignal(Long(c, t, Idle).life, t.signal);
  }

  lemma IssueGoes(c: Setup, t: RoundTrip)
    requires t.Of(c)
    ensures Goes(c, ExitIsReserved(c, t, CloseApproved(LiveExit, ExitRequest(c, t))), ONWARD, Issued(c, t))
  {
  }

  lemma SubmitGoes(c: Setup, t: RoundTrip)
    requires t.Of(c)
    ensures Goes(c, Issued(c, t), ONWARD, WithExitCall(c, t))
  {
    assert BothRecords(c, t, Reserved, None)[t.exit := ExitRecord(c, t, Submitted, Some(2))]
           == BothRecords(c, t, Submitted, Some(2));
  }

  lemma PlaceGoes(c: Setup, t: RoundTrip)
    requires t.Of(c)
    ensures Goes(c, WithExitCall(c, t), ONWARD, Placed(c, t))
  {
  }

  lemma ExitFillGoes(c: Setup, t: RoundTrip)
    requires t.Of(c)
    ensures Goes(c, Placed(c, t), Fills(2, c.q), ExitFilled(c, t))
  {
    assert ClosingBroker(c, t, c.q, 0, None).orders[2 := Order(t.exit, t.signal, SellToClose, c.q, Some(Filled))]
           == ExitDone(c, t).orders;
  }

  /** The reported execution is accepted and fills the exit's record. */
  lemma ExitExecution(c: Setup, t: RoundTrip)
    requires t.Of(c)
    ensures var tables, x := Core.Tables(ExitFilled(c, t).core), FullFill(c, 2, "b", "SLD");
            && Callbacks.Screen(tables, x) == Callbacks.Accept(t.exit)
            && Callbacks.LedgerPart(tables, Callbacks.ExecDetails(x)).ledger == FilledClient(c, t).ledger
            && !Callbacks.Refuses(tables, Callbacks.ExecDetails(x))
  {
    LookupFindsOwner(LedgerOf(ExitFilled(c, t)), t.exit, 2);
    assert BothRecords(c, t, Submitted, Some(2))[t.exit := ExitRecord(c, t, Filled, Some(2))]
           == BothRecords(c, t, Filled, Some(2));
  }

  lemma ExitReportGoes(c: Setup, t: RoundTrip)
    requires t.Of(c)
    ensures Goes(c, ExitFilled(c, t), Report(Callbacks.ExecDetails(FullFill(c, 2, "b", "SLD"))), ExitReported(c, t))
  {
    ExitExecution(c, t);
  }

  lemma ExitRowGoes(c: Setup, t: RoundTrip)
    requires t.Of(c)
    ensures Goes(c, ExitReported(c, t), InsertRow, ExitRecorded(c, t, AwaitingExit(c, t)))
  {
  }

  lemma FilledGoes(c: Setup, t: RoundTrip)
    requires t.Of(c)
    ensures Goes(c, ExitRecorded(c, t, AwaitingExit(c, t)), ONWARD,
                 ExitRecorded(c, t, CloseFilled(LiveExit, ExitRequest(c, t))))
  {
  }

  lemma ExitClosesSignal(c: Setup, t: RoundTrip)
    ensures var life := map[t.signal := LifeRow(LongOpen, t.entry)];
            && Accepts(life, ExitRequest(c, t))
            && SignalLifecycles.Process(life, ExitRequest(c, t)) == map[t.signal := LifeRow(Closed, t.exit)]
    ensures OpensOf(map[t.signal := LifeRow(Closed, t.exit)]) == NoneOpen
  {
  }

  lemma ClosedGoes(c: Setup, t: RoundTrip)
    requires t.Of(c)
    ensures Goes(c, ExitRecorded(c, t, CloseFilled(LiveExit, ExitRequest(c, t))), ONWARD,
                 SignalClosed(c, t, CloseCommitted(LiveExit, ExitRequest(c, t))))
  {
    ExitClosesSignal(c, t);
  }

  lemma SettledGoes(c: Setup, t: RoundTrip)
    requires t.Of(c)
    ensures Goes(c, SignalClosed(c, t, CloseCommitted(LiveExit, ExitRequest(c, t))), ONWARD, Finished(c, t))
  {
    ExitClosesSignal(c, t);
  }

  lemma OneMore(c: Setup, run: seq<Action>, w: World, a: Action, next: World) returns (longer: seq<Action>)
    requires Leads(c, run, w) && AssumedThroughout(c, run) && Goes(c, w, a, next)
    ensures Leads(c, longer, next) && AssumedThroughout(c, longer)
  {
    RunGoes(c, run, w, a, next);
    longer := run + [a];
  }

  lemma EntrySettles(c: Setup, t: RoundTrip, start: seq<Action>) returns (run: seq<Action>)
    requires AssumedThroughout(c, start) && Leads(c, start, Ordered(c, t.entry, t.signal))
    ensures AssumedThroughout(c, run) && Leads(c, run, Long(c, t, Idle))
  {
    EntryFillGoes(c, t);
    run := OneMore(c, start, Ordered(c, t.entry, t.signal), Fills(1, c.q), EntryFilled(c, t));
    EntryReportGoes(c, t);
    var report := Report(Callbacks.ExecDetails(FullFill(c, 1, "a", "BOT")));
    run := OneMore(c, run, EntryFilled(c, t), report, EntryReported(c, t));
    EntryRowGoes(c, t);
    run := OneMore(c, run, EntryReported(c, t), InsertRow, Long(c, t, AwaitingEntry(c, t)));
    EntryDoneGoes(c, t);
    run := OneMore(c, run, Long(c, t, AwaitingEntry(c, t)), ONWARD, Long(c, t, Idle));
  }

  function Approved(c: Setup, t: RoundTrip): World {
    ExitIsReserved(c, t, CloseApproved(LiveExit, ExitRequest(c, t)))
  }

  lemma ExitIsApproved(c: Setup, t: RoundTrip, start: seq<Action>) returns (run: seq<Action>)
    requires t.Of(c) && AssumedThroughout(c, start) && Leads(c, start, Long(c, t, Idle))
    ensures AssumedThroughout(c, run) && Leads(c, run, Approved(c, t))
  {
    var reserved := ExitIsReserved(c, t, ExitReserved(ExitRequest(c, t)));
    ExitFrameGoes(c, t);
    run := OneMore(c, start, Long(c, t, Idle), LiveExitFrame(t), ExitIsConsumed(c, t));
    ReserveGoes(c, t);
    run := OneMore(c, run, ExitIsConsumed(c, t), ONWARD, reserved);
    ApproveGoes(c, t);
    run := OneMore(c, run, reserved, ONWARD, Approved(c, t));
  }

  lemma ExitIsSent(c: Setup, t: RoundTrip, start: seq<Action>) returns (run: seq<Action>)
    requires t.Of(c) && AssumedThroughout(c, start) && Leads(c, start, Approved(c, t))
    ensures AssumedThroughout(c, run) && Leads(c, run, Placed(c, t))
  {
    IssueGoes(c, t);
    run := OneMore(c, start, Approved(c, t), ONWARD, Issued(c, t));
    SubmitGoes(c, t);
    run := OneMore(c, run, Issued(c, t), ONWARD, WithExitCall(c, t));
    PlaceGoes(c, t);
    run := OneMore(c, run, WithExitCall(c, t), ONWARD, Placed(c, t));
  }

  lemma ExitSettles(c: Setup, t: RoundTrip, start: seq<Action>) returns (run: seq<Action>)
    requires t.Of(c) && AssumedThroughout(c, start) && Leads(c, start, Placed(c, t))
    ensures AssumedThroughout(c, run) && Leads(c, run, Finished(c, t))
  {
    var filled := ExitRecorded(c, t, CloseFilled(LiveExit, ExitRequest(c, t)));
    var committed := SignalClosed(c, t, CloseCommitted(LiveExit, ExitRequest(c, t)));
    ExitFillGoes(c, t);
    run := OneMore(c, start, Placed(c, t), Fills(2, c.q), ExitFilled(c, t));
    ExitReportGoes(c, t);
    var report := Report(Callbacks.ExecDetails(FullFill(c, 2, "b", "SLD")));
    run := OneMore(c, run, ExitFilled(c, t), report, ExitReported(c, t));
    ExitRowGoes(c, t);
    run := OneMore(c, run, ExitReported(c, t), InsertRow, ExitRecorded(c, t, AwaitingExit(c, t)));
    FilledGoes(c, t);
    run := OneMore(c, run, ExitRecorded(c, t, AwaitingExit(c, t)), ONWARD, filled);
    ClosedGoes(c, t);
    run := OneMore(c, run, filled, ONWARD, committed);
    SettledGoes(c, t);
    run := OneMore(c, run, committed, ONWARD, Finished(c, t));
  }

  /** From process start, through entry and exit, back to flat: the assumptions leave room
      for the trades the program is for. */
  lemma TradesRoundTrip(c: Setup, t: RoundTrip) returns (run: seq<Action>)
    requires t.Of(c)
    ensures AssumedThroughout(c, run) && Leads(c, run, Finished(c, t))
    ensures Finished(c, t).broker.position == 0 && ClosedBy(Finished(c, t).life, t.signal, t.exit)
    ensures Finished(c, t).core.client.calls
            == [OrderFor(EntryRequest(c, t.entry, t.signal), 1)] + [OrderFor(ExitRequest(c, t), 2)]
  {
    run := TradesAnEntry(c, t.entry, t.signal);
    run := EntrySettles(c, t, run);
    run := ExitIsApproved(c, t, run);
    run := ExitIsSent(c, t, run);
    run := ExitSettles(c, t, run);
  }

  // ----------------------------------- the operator flattens a moment too late

  /** `w` with the position moved by someone else. */
  function Held(w: World, position: int): World {
    w.(broker := w.broker.(position := position))
  }

  /** From approval to the broker call the program does not look at the position again. */
  lemma SendingIgnoresPosition(c: Setup, w: World, next: World, position: int)
    requires Goes(c, w, ONWARD, next) && w.process.Running?
    requires w.process.stage.CloseApproved? || w.process.stage.Sending?
    ensures Goes(c, Held(w, position), ONWARD, Held(next, position))
  {
  }

  lemma LateFlatten(c: Setup, t: RoundTrip)
    requires t.Of(c)
    ensures Enabled(c, Approved(c, t), Flatten) && Next(c, Approved(c, t), Flatten) == Held(Approved(c, t), 0)
    ensures !Assumed(c, Approved(c, t), Flatten)
  {
  }

  lemma FillAfterFlatten(c: Setup, t: RoundTrip)
    requires t.Of(c)
    ensures var w := Held(Placed(c, t), 0);
            && Enabled(c, w, Fills(2, c.q))
            && Next(c, w, Fills(2, c.q)).broker.position == -(c.q as int)
            && !Unorphaned(Next(c, w, Fills(2, c.q)))
  {
    FillCompletes(c, Held(Placed(c, t), 0), 2);
  }

  lemma ApprovesAnExit(c: Setup, t: RoundTrip) returns (run: seq<Action>)
    requires t.Of(c)
    ensures AssumedThroughout(c, run) && Leads(c, run, Approved(c, t))
  {
    run := TradesAnEntry(c, t.entry, t.signal);
    run := EntrySettles(c, t, run);
    run := ExitIsApproved(c, t, run);
  }

  /** What follows the flatten. */
  function Aftermath(c: Setup): seq<Action> {
    [Flatten, ONWARD, ONWARD, ONWARD, Fills(2, c.q)]
  }

  lemma FlattensAndFills(c: Setup, t: RoundTrip, before: seq<Action>) returns (w: World)
    requires t.Of(c) && Leads(c, before, Approved(c, t))
    ensures Leads(c, before + Aftermath(c), w)
    ensures w.broker.position == -(c.q as int) && !Unorphaned(w)
  {
    LateFlatten(c, t);
    RunGrows(c, before, Approved(c, t), Flatten);
    var run := SendsFlattened(c, t, before + [Flatten]);
    FillAfterFlatten(c, t);
    RunGrows(c, run, Held(Placed(c, t), 0), Fills(2, c.q));
    w := Next(c, Held(Placed(c, t), 0), Fills(2, c.q));
    assert run + [Fills(2, c.q)] == before + Aftermath(c);
  }

  /** The assumption that no close is on its way when the operator flattens is needed: a run
      from process start in which only the flatten breaks it ends short, under a signal that
      is open long. */
  lemma FlattenDuringCloseOrphans(c: Setup, t: RoundTrip) returns (before: seq<Action>, w: World)
    requires t.Of(c)
    ensures AssumedThroughout(c, before)
    ensures Leads(c, before + Aftermath(c), w)
    ensures w.broker.position == -(c.q as int) && !Unorphaned(w)
  {
    before := ApprovesAnExit(c, t);
    w := FlattensAndFills(c, t, before);
  }

  lemma SendsFlattened(c: Setup, t: RoundTrip, start: seq<Action>) returns (run: seq<Action>)
    requires t.Of(c) && Leads(c, start, Held(Approved(c, t), 0))
    ensures run == start + [ONWARD, ONWARD, ONWARD] && Leads(c, run, Held(Placed(c, t), 0))
  {
    IssueGoes(c, t);
    SendingIgnoresPosition(c, Approved(c, t), Issued(c, t), 0);
    RunGrows(c, start, Held(Approved(c, t), 0), ONWARD);
    SubmitGoes(c, t);
    SendingIgnoresPosition(c, Issued(c, t), WithExitCall(c, t), 0);
    RunGrows(c, start + [ONWARD], Held(Issued(c, t), 0), ONWARD);
    PlaceGoes(c, t);
    SendingIgnoresPosition(c, WithExitCall(c, t), Placed(c, t), 0);
    RunGrows(c, start + [ONWARD] + [ONWARD], Held(WithExitCall(c, t), 0), ONWARD);
    run := start + [ONWARD] + [ONWARD] + [ONWARD];
  }
}
