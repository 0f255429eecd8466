/** The continuous paper trader as a step machine over three durable stores, the broker and
    the process. A step makes at most one durable write, so a crash can fall between any two
    writes. `Enabled` says when the program can take a step, `Assumed` what is asked of
    Eagle, the broker and the operator. */
module Runners {
  import opened Protocol
  import opened ExecutionLedgers
  import opened ExecutionClients
  import opened SignalLifecycles
  import opened RunnerDecisions
  import Events = EventStores
  import Callbacks = OrderCallbacks
  import Core = ExecutionMachines

  /** The approved quantity, and the exit event Eagle issues for each signal. */
  datatype Setup = Setup(q: Quantity, exitOf: SignalId -> EventId)

  // ------------------------------------------------------------------- broker

  /** An order the broker holds; `end` is unset while contracts are still to be filled. */
  datatype Order = Order(event: EventId, signal: SignalId, intent: TradeIntent, filled: int, end: Option<Status>) {
    predicate Working() {
      end.None?
    }
  }

  datatype Broker = Broker(position: int, orders: map<OrderId, Order>)

  // ------------------------------------------------------------------ process

  /** What a fund.hello starts and a lost Eagle connection wipes. */
  datatype Session = Session(
    hello: bool,
    expected: nat,
    processed: nat,
    complete: bool,
    heartbeatSeen: bool,
    missed: set<SignalId>,
    gapExit: bool,
    reconnect: bool)

  const FIRST_SESSION := Session(false, 0, 0, false, false, {}, false, false)
  const LOST_SESSION := FIRST_SESSION.(reconnect := true)

  /** Why an order is sent. A pending exit is sent while a heartbeat is being handled. */
  datatype Purpose = EntryOrder | LiveExit | PendingExit(seqNo: nat) | StartupExit

  /** Where the program is between two durable writes. */
  datatype Stage =
    | Booting
    | OperatorReview
    | Preflight
    | Idle
    | ReplayedEntry(request: TradeRequest)
    | ReplayedFlat(event: EventId, seqNo: nat, signal: SignalId)
    | ReplayedExposed(event: EventId, seqNo: nat, signal: SignalId)
    | ReplayedDurable(event: EventId, seqNo: nat, signal: SignalId)
    | EntryConsumed(request: TradeRequest)
    | EntryCommitted(request: TradeRequest)
    | EntryReserved(request: TradeRequest)
    | ExitConsumed(request: TradeRequest)
    | ExitReserved(request: TradeRequest)
    | PendingChecked(request: TradeRequest, seqNo: nat)
    | PendingFlat(request: TradeRequest, seqNo: nat)
    | PendingClosed(request: TradeRequest, seqNo: nat)
    | CloseApproved(purpose: Purpose, request: TradeRequest)
    | Sending(purpose: Purpose, request: TradeRequest)
    | Waiting(purpose: Purpose, request: TradeRequest)
    | CloseFilled(purpose: Purpose, request: TradeRequest)
    | CloseCommitted(purpose: Purpose, request: TradeRequest)
    | HeartbeatTail(seqNo: nat)

  /** `inherited` is a reserved exit found at startup that replay has yet to prove. */
  datatype Program =
    | Down
    | Running(armed: bool, recover: bool, inherited: Option<EventId>, session: Session, stage: Stage)

  datatype World = World(store: Events.Store, life: Lifecycle, core: Core.Machine, broker: Broker, process: Program)

  const START := World(Events.EMPTY_STORE, map[], Core.START, Broker(0, map[]), Down)

  // ------------------------------------------------------------------- frames

  datatype Frame =
    | Hello(live: bool, replayCount: nat, eagle: seq<EaglePosition>)
    | Heartbeat(seqNo: nat)
    | Update(event: EventId, seqNo: nat)
    | Entry(event: EventId, seqNo: nat, signal: SignalId, symbol: string, direction: string)
    | Exit(event: EventId, seqNo: nat, signal: SignalId)

  /** The IB connection when a frame is handled: up, lost but re-established, or lost. */
  datatype Link = Ready | Recovered | Unavailable

  datatype Reaction = Reaction(store: Events.Store, process: Program)

  function LedgerOf(w: World): Ledger {
    w.core.client.ledger
  }

  ghost function OpensIn(w: World): Opens {
    OpensOf(w.life)
  }

  ghost predicate Reconciled(c: Setup, w: World) {
    Reconcile(w.broker.position, OpensIn(w), c.q) == Pass
  }

  /** What a re-established IB connection must show before the program goes on. */
  ghost predicate Revalidated(c: Setup, w: World) {
    ExecutionClear(LedgerOf(w)) && Reconciled(c, w)
  }

  function RequestFor(c: Setup, event: EventId, signal: SignalId, intent: TradeIntent): TradeRequest {
    TradeRequest(event, signal, intent, SYMBOL, c.q)
  }

  function Stopped(w: World): Reaction {
    Reaction(w.store, Down)
  }

  function Resume(w: World, session: Session): Reaction
    requires w.process.Running?
  {
    Reaction(w.store, w.process.(session := session, stage := Idle))
  }

  function Consumes(w: World, event: EventId, seqNo: nat): bool {
    Events.Check(w.store, event, seqNo).Accepted?
  }

  function AfterConsume(w: World, event: EventId, seqNo: nat, session: Session, stage: Stage): Reaction
    requires w.process.Running?
  {
    Reaction(Events.Consume(w.store, event, seqNo), w.process.(session := session, stage := stage))
  }

  ghost function OnHello(c: Setup, w: World, f: Frame, link: Link): Reaction
    requires w.process.Running? && f.Hello?
  {
    var opens, position := OpensIn(w), w.broker.position;
    if !f.live then Stopped(w)
    else if link.Unavailable? then Resume(w, LOST_SESSION)
    else if link.Recovered? && !Revalidated(c, w) then Stopped(w)
    else if !Reconciled(c, w) then Stopped(w)
    else
      var gap := PossibleGapExit(w.process.session.reconnect, f.eagle, position, opens, c.q);
      var missed := MissedSignals(f.eagle, position, opens);
      if missed.None? then Stopped(w)
      else if missed.value == {} && !gap && HelloReconciled(f.eagle, position, opens, c.q) != Pass then Stopped(w)
      else Resume(w, Session(true, f.replayCount, 0, f.replayCount == 0, false, missed.value, gap, false))
  }

  /** The last part of heartbeat handling: gap check, cursor, heartbeat flag. */
  function Tail(w: World, session: Session, seqNo: nat): Reaction
    requires w.process.Running?
  {
    var seen := session.(heartbeatSeen := session.heartbeatSeen || session.complete);
    if session.gapExit && session.complete then Stopped(w)
    else Reaction(if w.process.armed || !session.complete then Events.MarkSeq(w.store, seqNo) else w.store,
                  w.process.(session := seen, stage := Idle))
  }

  ghost function OnHeartbeat(c: Setup, w: World, seqNo: nat, link: Link): Reaction
    requires w.process.Running?
  {
    var session := w.process.session;
    var pending := FindReservedExit(LedgerOf(w));
    var seen := if session.complete then session.(heartbeatSeen := true) else session;
    if pending.Unrecoverable? then Stopped(w)
    else if pending.NoReservation? || !session.complete then
      if link.Unavailable? then Resume(w, seen)
      else if link.Recovered? && !Revalidated(c, w) then Stopped(w)
      else Tail(w, seen, seqNo)
    else if w.process.inherited.Some? then Stopped(w)
    else if link.Unavailable? then Resume(w, seen)
    else if link.Recovered? && !Reconciled(c, w) then Stopped(w)
    else
      var request := RequestBehind(LedgerOf(w), pending.event);
      if EvaluateRecovery(request, w.broker.position, OpensIn(w), w.process.armed, c.q) == Pass
      then Reaction(w.store, w.process.(session := seen, stage := PendingChecked(request, seqNo)))
      else Stopped(w)
  }

  function CountReplayed(session: Session): Session {
    session.(processed := session.processed + 1, complete := session.processed + 1 >= session.expected)
  }

  function OnUpdate(w: World, event: EventId, seqNo: nat): Reaction
    requires w.process.Running?
  {
    var session := w.process.session;
    if !session.complete then AfterConsume(w, event, seqNo, CountReplayed(session), Idle)
    else if w.process.armed then AfterConsume(w, event, seqNo, session, Idle)
    else Resume(w, session)
  }

  /** A replayed entry is consumed and may rebuild lifecycle state; it never reaches IB. */
  function OnReplayedEntry(c: Setup, w: World, f: Frame): Reaction
    requires w.process.Running? && f.Entry?
  {
    var session := CountReplayed(w.process.session);
    if !Consumes(w, f.event, f.seqNo) then Resume(w, session)
    else if f.signal in session.missed then AfterConsume(w, f.event, f.seqNo, session, Idle)
    else
      match AdaptEntry(f.symbol, f.direction)
      case Adapted(intent) =>
        AfterConsume(w, f.event, f.seqNo, session, ReplayedEntry(RequestFor(c, f.event, f.signal, intent)))
      case Malformed => Reaction(Events.Consume(w.store, f.event, f.seqNo), Down)
      case _ => AfterConsume(w, f.event, f.seqNo, session, Idle)
  }

  /** Consumed when armed, left alone in observe mode. */
  function Ignore(w: World, event: EventId, seqNo: nat, session: Session): Reaction
    requires w.process.Running?
  {
    if w.process.armed then AfterConsume(w, event, seqNo, session, Idle) else Resume(w, session)
  }

  ghost function OnLiveEntry(c: Setup, w: World, f: Frame, link: Link): Reaction
    requires w.process.Running? && f.Entry?
  {
    var session := w.process.session;
    if !session.heartbeatSeen then Stopped(w)
    else if f.signal in session.missed then Ignore(w, f.event, f.seqNo, session)
    else
      match AdaptEntry(f.symbol, f.direction)
      case Malformed => Stopped(w)
      case Adapted(intent) => OnFreshEntry(c, w, f, RequestFor(c, f.event, f.signal, intent), link)
      case _ => Ignore(w, f.event, f.seqNo, session)
  }

  /** An entry that finds IB unreachable is consumed as missed; one that finds a position is
      consumed and skipped; otherwise it is consumed and goes on to be traded. */
  ghost function OnFreshEntry(c: Setup, w: World, f: Frame, request: TradeRequest, link: Link): Reaction
    requires w.process.Running? && f.Entry?
  {
    var armed, session := w.process.armed, w.process.session;
    if link.Unavailable? then
      if !armed then Resume(w, LOST_SESSION)
      else if Consumes(w, f.event, f.seqNo)
      then AfterConsume(w, f.event, f.seqNo, session.(missed := session.missed + {f.signal}), Idle)
      else Resume(w, session)
    else if !Revalidated(c, w) then Stopped(w)
    else if w.broker.position != 0 || OpensIn(w) != NoneOpen then
      if armed then AfterConsume(w, f.event, f.seqNo, session, Idle) else Stopped(w)
    else if armed && Consumes(w, f.event, f.seqNo)
    then AfterConsume(w, f.event, f.seqNo, session, EntryConsumed(request))
    else Resume(w, session)
  }

  /** A replayed exit that BTS must honour is made durable before it is consumed. */
  ghost function OnReplayedExit(c: Setup, w: World, f: Frame, link: Link): Reaction
    requires w.process.Running? && f.Exit?
  {
    var session := CountReplayed(w.process.session);
    var records, inherited := LedgerOf(w).records, w.process.inherited;
    if !Consumes(w, f.event, f.seqNo) || f.signal in session.missed then Resume(w, session)
    else if inherited.Some?
            && (inherited.value != f.event || f.event !in records || records[f.event].signal != f.signal)
    then Stopped(w)
    else if f.event in records && (records[f.event].status != Reserved || ClosedBy(w.life, f.signal, f.event))
    then Stopped(w)
    else if link.Unavailable? then Resume(w, LOST_SESSION)
    else if ClosedBy(w.life, f.signal, f.event) then
      if w.broker.position != 0 || OpensIn(w) != NoneOpen then Stopped(w)
      else Reaction(w.store, w.process.(session := session, stage := ReplayedDurable(f.event, f.seqNo, f.signal)))
    else OnOwedExit(c, w, f, session)
  }

  predicate ClosedBy(life: Lifecycle, signal: SignalId, event: EventId) {
    signal in life && life[signal] == LifeRow(Closed, event)
  }

  /** recover_replayed_owned_exit up to its first durable write. */
  ghost function OnOwedExit(c: Setup, w: World, f: Frame, session: Session): Reaction
    requires w.process.Running? && f.Exit?
  {
    var position, opens, records := w.broker.position, OpensIn(w), LedgerOf(w).records;
    if !opens.OneOpen? || opens.signal != f.signal then Stopped(w)
    else if position == 0 then
      Reaction(w.store, w.process.(session := session, stage := ReplayedFlat(f.event, f.seqNo, f.signal)))
    else if position != Signed(opens.state, c.q) then Stopped(w)
    else if f.event !in records then
      Reaction(w.store, w.process.(session := session, stage := ReplayedExposed(f.event, f.seqNo, f.signal)))
    else if records[f.event].signal != f.signal || records[f.event].symbol != SYMBOL
            || records[f.event].quantity != c.q || !records[f.event].intent.Closing() then Stopped(w)
    else
      Reaction(w.store, w.process.(session := session, stage := ReplayedDurable(f.event, f.seqNo, f.signal)))
  }

  /** A live exit is consumed first and reserved next. */
  ghost function OnLiveExit(c: Setup, w: World, f: Frame, link: Link): Reaction
    requires w.process.Running? && f.Exit?
  {
    var armed, session, opens := w.process.armed, w.process.session, OpensIn(w);
    if !session.heartbeatSeen then Stopped(w)
    else if f.signal in session.missed then Ignore(w, f.event, f.seqNo, session.(missed := session.missed - {f.signal}))
    else
      match AdaptExit(w.life, f.signal)
      case Adapted(intent) =>
        if armed then
          if !ExecutionClear(LedgerOf(w)) then Stopped(w)
          else if Consumes(w, f.event, f.seqNo)
          then AfterConsume(w, f.event, f.seqNo, session, ExitConsumed(RequestFor(c, f.event, f.signal, intent)))
          else Resume(w, session)
        else if link.Unavailable? then Resume(w, LOST_SESSION)
        else if !Revalidated(c, w) || !opens.OneOpen? || opens.signal != f.signal then Stopped(w)
        else Resume(w, session)
      case _ => Ignore(w, f.event, f.seqNo, session)
  }

  ghost function Receive(c: Setup, w: World, f: Frame, link: Link): Reaction
    requires w.process.Running?
  {
    match f
    case Hello(_, _, _) => OnHello(c, w, f, link)
    case Heartbeat(seqNo) => OnHeartbeat(c, w, seqNo, link)
    case Update(event, seqNo) => OnUpdate(w, event, seqNo)
    case Entry(_, _, _, _, _) =>
      if w.process.session.complete then OnLiveEntry(c, w, f, link) else OnReplayedEntry(c, w, f)
    case Exit(_, _, _) =>
      if w.process.session.complete then OnLiveExit(c, w, f, link) else OnReplayedExit(c, w, f, link)
  }

  // ------------------------------------------------------------------ actions

  datatype Action =
    | Start(armed: bool, recover: bool)
    | ConnectIB(nextValidId: OrderId)
    | Deliver(frame: Frame, link: Link)
    | Continue(contractValid: bool, reached: bool)
    | GiveUpOnIB                               // an exit stays reserved while IB is unreachable
    | Disconnect                               // Eagle lost, or a timeout the program takes for it
    | Fail                                     // any other exception, or the process dies
    | Report(report: Callbacks.Report)
    | InsertRow
    | ObserveId(id: OrderId)
    | Fills(id: OrderId, quantity: int)
    | Ends(id: OrderId, how: Status)
    | Flatten                                  // the operator closes the position by hand

  /** Process start, up to the IB handshake. */
  ghost function Startup(c: Setup, w: World, armed: bool, recover: bool): Program {
    var found, ledger, opens := FindReservedExit(LedgerOf(w)), LedgerOf(w), OpensIn(w);
    match found
    case Unrecoverable => Down
    case NoReservation => if ExecutionClear(ledger) then Running(armed, recover, None, FIRST_SESSION, Booting) else Down
    case ReservedExit(e) =>
      var record := ledger.records[e];
      if recover then Running(armed, recover, None, FIRST_SESSION, Booting)
      else if e in w.store.processed then Down
      else if record.brokerId.Some? || record.symbol != SYMBOL || record.quantity != c.q then Down
      else if !opens.OneOpen? || opens.signal != record.signal || opens.state != Side(record.intent) then Down
      else Running(armed, recover, Some(e), FIRST_SESSION, Booting)
  }

  /** The operator's --recover-reserved-exit path. */
  ghost function Review(c: Setup, w: World): Program
    requires w.process.Running?
  {
    var found := FindReservedExit(LedgerOf(w));
    if !w.process.armed || !found.ReservedExit? then Down
    else
      var request := RequestBehind(LedgerOf(w), found.event);
      if EvaluateRecovery(request, w.broker.position, OpensIn(w), w.process.recover, c.q) == Pass
      then w.process.(stage := CloseApproved(StartupExit, request))
      else Down
  }

  /** What the execution core does in a step of the program, if anything. */
  ghost function CoreAction(c: Setup, w: World, a: Action): Option<Core.Action> {
    match a
    case Start(_, _) => Some(Core.Crash)
    case ConnectIB(id) => Some(Core.Connect(id))
    case Report(r) => Some(Core.Callback(r))
    case InsertRow => Some(Core.InsertRow)
    case ObserveId(id) => Some(Core.ObserveId(id))
    case Continue(valid, _) => if w.process.Running? then CoreContinue(c, w, valid) else None
    case _ => None
  }

  ghost function CoreContinue(c: Setup, w: World, valid: bool): Option<Core.Action>
    requires w.process.Running?
  {
    match w.process.stage
    case ReplayedExposed(event, _, signal) =>
      (match AdaptExit(w.life, signal)
       case Adapted(intent) => Some(Core.ReserveEvent(RequestFor(c, event, signal, intent)))
       case _ => None)
    case EntryCommitted(request) => Some(if w.core.issued.None? then Core.Issue else Core.ReserveEvent(request))
    case EntryReserved(request) => Some(Core.Begin(request, valid))
    case ExitConsumed(request) => Some(Core.ReserveEvent(request))
    case PendingClosed(request, _) => Some(Core.ResolveUnsent(request.event))
    case CloseApproved(_, request) => Some(if w.core.issued.None? then Core.Issue else Core.Begin(request, valid))
    case Sending(_, _) => Some(Core.Place)
    case _ => None
  }

  ghost function CoreAfter(c: Setup, w: World, a: Action): Core.Machine
    requires CoreEnabled(c, w, a)
  {
    match CoreAction(c, w, a)
    case None => w.core
    case Some(action) => Core.Next(w.core, action)
  }

  ghost predicate CoreEnabled(c: Setup, w: World, a: Action) {
    match CoreAction(c, w, a)
    case None => true
    case Some(action) => Core.Enabled(w.core, action)
  }

  /** The lifecycle write of a step, if it has one. */
  function LifeAfter(c: Setup, w: World, a: Action): Lifecycle {
    if !a.Continue? || w.process.Down? then w.life else
    match w.process.stage
    case ReplayedEntry(request) => Process(w.life, request)
    case ReplayedFlat(event, _, signal) =>
      (match AdaptExit(w.life, signal)
       case Adapted(intent) => Process(w.life, RequestFor(c, event, signal, intent))
       case _ => w.life)
    case EntryConsumed(request) => Process(w.life, request)
    case PendingFlat(request, _) => Process(w.life, request)
    case CloseFilled(_, request) => Process(w.life, request)
    case _ => w.life
  }

  /** The rest of one step: event store and process. */
  ghost function OnContinue(c: Setup, w: World, valid: bool): Reaction
    requires w.process.Running?
  {
    var run, core, ledger := w.process, w.core, LedgerOf(w);
    var opensAfter := OpensOf(LifeAfter(c, w, Continue(valid, true)));
    match run.stage
    case Booting => Stopped(w)
    case Idle => Stopped(w)
    case OperatorReview => Reaction(w.store, Review(c, w))
    case Preflight =>
      if Reconciled(c, w) then Resume(w, FIRST_SESSION) else Stopped(w)
    case ReplayedEntry(_) => Resume(w, run.session)
    case ReplayedFlat(event, seqNo, signal) =>
      if AdaptExit(w.life, signal).Adapted? && opensAfter.NoneOpen?
      then Reaction(w.store, run.(stage := ReplayedDurable(event, seqNo, signal))) else Stopped(w)
    case ReplayedExposed(event, seqNo, signal) =>
      (match AdaptExit(w.life, signal)
       case Adapted(intent) =>
         if ReserveExecution(core.client, RequestFor(c, event, signal, intent)).error.None?
         then Reaction(w.store, run.(stage := ReplayedDurable(event, seqNo, signal))) else Stopped(w)
       case _ => Stopped(w))
    case ReplayedDurable(event, seqNo, _) =>
      if Consumes(w, event, seqNo)
      then Reaction(Events.Consume(w.store, event, seqNo),
                    run.(inherited := None, session := run.session.(gapExit := false), stage := Idle))
      else Stopped(w)
    case EntryConsumed(request) =>
      if !Accepts(w.life, request) then Resume(w, run.session)
      else if opensAfter == OneOpen(request.signal, Side(request.intent))
      then Reaction(w.store, run.(stage := EntryCommitted(request))) else Stopped(w)
    case EntryCommitted(request) =>
      if core.issued.None? then Reaction(w.store, run)
      else if ReserveExecution(core.client, request).error.None?
      then Reaction(w.store, run.(stage := EntryReserved(request))) else Stopped(w)
    case EntryReserved(request) =>
      if core.issued.Some? && BeginSubmission(core.client, request, core.issued.value, valid).error.None?
      then Reaction(w.store, run.(stage := Sending(EntryOrder, request))) else Stopped(w)
    case ExitConsumed(request) =>
      if ReserveExecution(core.client, request).error.None?
      then Reaction(w.store, run.(stage := ExitReserved(request))) else Stopped(w)
    case ExitReserved(request) =>
      if Reconciled(c, w) && ValidateRequest(request, w.broker.position, OpensIn(w), c.q) == Pass
      then Reaction(w.store, run.(stage := CloseApproved(LiveExit, request))) else Stopped(w)
    case PendingChecked(request, seqNo) =>
      if w.broker.position == 0 then
        if OpensIn(w).OneOpen? && OpensIn(w).signal == request.signal
        then Reaction(w.store, run.(stage := PendingFlat(request, seqNo))) else Stopped(w)
      else if EvaluateRecovery(request, w.broker.position, OpensIn(w), run.armed, c.q) == Pass
      then Reaction(w.store, run.(stage := CloseApproved(PendingExit(seqNo), request))) else Stopped(w)
    case PendingFlat(request, seqNo) =>
      if Accepts(w.life, request) && opensAfter.NoneOpen?
      then Reaction(w.store, run.(stage := PendingClosed(request, seqNo))) else Stopped(w)
    case PendingClosed(_, seqNo) => Reaction(w.store, run.(stage := HeartbeatTail(seqNo)))
    case CloseApproved(purpose, request) =>
      if core.issued.None? then Reaction(w.store, run)
      else if BeginSubmission(core.client, request, core.issued.value, valid).error.None?
      then Reaction(w.store, run.(stage := Sending(purpose, request))) else Stopped(w)
    case Sending(purpose, request) => Reaction(w.store, run.(stage := Waiting(purpose, request)))
    case Waiting(purpose, request) =>
      if request.event !in ledger.records || ledger.records[request.event].status != Filled then Stopped(w)
      else if !purpose.EntryOrder? then Reaction(w.store, run.(stage := CloseFilled(purpose, request)))
      else if Reconciled(c, w) && w.broker.position == ExpectedPosition(request) then Resume(w, run.session)
      else Stopped(w)
    case CloseFilled(purpose, request) =>
      if Accepts(w.life, request) && (purpose.LiveExit? ==> opensAfter.NoneOpen?)
      then Reaction(w.store, run.(stage := CloseCommitted(purpose, request))) else Stopped(w)
    case CloseCommitted(purpose, request) =>
      if !Reconciled(c, w) || w.broker.position != ExpectedPosition(request) then Stopped(w)
      else
        (match purpose
         case PendingExit(seqNo) => Reaction(w.store, run.(stage := HeartbeatTail(seqNo)))
         case StartupExit => Reaction(w.store, run.(stage := Preflight))
         case _ => Resume(w, run.session))
    case HeartbeatTail(seqNo) => Tail(w, run.session, seqNo)
  }

  ghost predicate Enabled(c: Setup, w: World, a: Action) {
    match w
    case World(_, _, _, broker, process) =>
      CoreEnabled(c, w, a) && ProgramEnabled(LedgerOf(w), process, a) && BrokerEnabled(c, broker, a)
  }

  predicate ProgramEnabled(l: Ledger, process: Program, a: Action) {
    match a
    case Start(_, _) => process.Down?
    case ConnectIB(_) => process.Running?
    case Deliver(_, _) => process.Running? && process.stage.Idle?
    case Continue(_, _) => process.Running? && CanContinue(l, process.stage)
    case GiveUpOnIB => process.Running? && process.stage.ExitReserved?
    case Disconnect => process.Running? && MayDisconnect(process.stage)
    case Fail => process.Running?
    case Report(_) => process.Running?
    case InsertRow => process.Running?
    case ObserveId(_) => process.Running?
    case _ => true
  }

  predicate BrokerEnabled(c: Setup, broker: Broker, a: Action) {
    match a
    case Fills(id, n) =>
      id in broker.orders && broker.orders[id].Working() && 0 < n <= c.q - broker.orders[id].filled
    case Ends(id, how) => id in broker.orders && broker.orders[id].Working() && (how.Cancelled? || how.Rejected?)
    case _ => true
  }

  predicate CanContinue(l: Ledger, stage: Stage) {
    match stage
    case Booting => false
    case Idle => false
    case Waiting(_, request) => request.event in l.records && l.records[request.event].status.Terminal()
    case _ => true
  }

  /** The stages at which the program waits for Eagle, a position snapshot or a fill. */
  predicate MayDisconnect(stage: Stage) {
    match stage
    case Idle => true
    case ExitReserved(_) => true
    case PendingChecked(_, _) => true
    case HeartbeatTail(_) => true
    case Waiting(purpose, _) => !purpose.StartupExit?
    case CloseCommitted(purpose, _) => !purpose.StartupExit?
    case _ => false
  }

  function FillOrder(c: Setup, b: Broker, id: OrderId, n: int): Broker
    requires id in b.orders
  {
    var o := b.orders[id];
    var end := if o.filled + n == c.q then Some(Filled) else None;
    Broker(b.position + o.intent.Sign() * n, b.orders[id := o.(filled := o.filled + n, end := end)])
  }

  function EndOrder(b: Broker, id: OrderId, how: Status): Broker
    requires id in b.orders
  {
    b.(orders := b.orders[id := b.orders[id].(end := Some(how))])
  }

  function BrokerAfter(c: Setup, w: World, a: Action): Broker {
    match a
    case Fills(id, n) => if id in w.broker.orders then FillOrder(c, w.broker, id, n) else w.broker
    case Ends(id, how) => if id in w.broker.orders then EndOrder(w.broker, id, how) else w.broker
    case Flatten => w.broker.(position := 0)
    case Continue(_, reached) =>
      if reached && w.process.Running? && w.process.stage.Sending? && w.core.placing.Some?
      then
        var request := w.process.stage.request;
        w.broker.(orders := w.broker.orders[w.core.placing.value.orderId :=
          Order(request.event, request.signal, request.intent, 0, None)])
      else w.broker
    case _ => w.broker
  }

  ghost function ReactionTo(c: Setup, w: World, a: Action): Reaction
    requires Enabled(c, w, a)
  {
    match a
    case Start(armed, recover) => Reaction(w.store, Startup(c, w, armed, recover))
    case ConnectIB(_) =>
      Reaction(w.store,
               if !w.process.stage.Booting? then w.process
               else w.process.(stage := if w.process.recover then OperatorReview else Preflight))
    case Deliver(f, link) => Receive(c, w, f, link)
    case Continue(valid, _) => OnContinue(c, w, valid)
    case GiveUpOnIB => Resume(w, w.process.session)
    case Disconnect => Resume(w, LOST_SESSION)
    case Fail => Stopped(w)
    case _ => Reaction(w.store, w.process)
  }

  ghost function Next(c: Setup, w: World, a: Action): World
    requires Enabled(c, w, a)
  {
    var reaction := ReactionTo(c, w, a);
    World(reaction.store, LifeAfter(c, w, a), CoreAfter(c, w, a), BrokerAfter(c, w, a), reaction.process)
  }

  // -------------------------------------------------------------- environment

  /** The terminal status a callback announces for an order of the approved quantity. */
  function Announces(r: Callbacks.Report, q: Quantity): Option<Status> {
    match r
    case OrderStatus(_, text, filled, remaining) =>
      var status := Callbacks.DetermineStatus(text, filled, remaining);
      if status.Some? && status.value.Terminal() then status else None
    case ExecDetails(x) => if x.cumulative == q as real then Some(Filled) else None
    case Error(_, code) =>
      if Callbacks.Classify(code).OrderRejected? then Some(Rejected)
      else if Callbacks.Classify(code).OrderCancelled? then Some(Cancelled)
      else None
    case Rejection(_) => Some(Rejected)
  }

  /** A terminal report about an order BTS knows is true of that order at the broker. */
  ghost predicate Truthful(c: Setup, w: World, r: Callbacks.Report) {
    forall e :: e in LedgerOf(w).records && Announces(r, c.q).Some? ==>
                  TruthfulFor(LedgerOf(w).records[e], w.broker.orders, r, c.q)
  }

  predicate TruthfulFor(record: Record, orders: map<OrderId, Order>, r: Callbacks.Report, q: Quantity) {
    record.brokerId.Some? && record.brokerId.value == Callbacks.Target(r) ==>
      record.brokerId.value in orders && orders[record.brokerId.value].end == Announces(r, q)
  }

  predicate NothingWorking(orders: map<OrderId, Order>) {
    forall id :: id in orders ==> !orders[id].Working()
  }

  /** An order to close has been approved on a position snapshot and is not yet with the broker. */
  predicate ClosePending(process: Program) {
    process.Running? && (process.stage.CloseApproved? || (process.stage.Sending? && !process.stage.purpose.EntryOrder?))
  }

  /** The first frame of a session is fund.hello; a signal has one exit event; terminal
      reports are truthful; the operator flattens only with nothing working and no close on
      its way. */
  ghost predicate Assumed(c: Setup, w: World, a: Action) {
    match a
    case Deliver(f, _) =>
      && (f.Hello? || (w.process.Running? && w.process.session.hello))
      && (f.Exit? ==> f.event == c.exitOf(f.signal))
    case Report(r) => Truthful(c, w, r)
    case Flatten => NothingWorking(w.broker.orders) && !ClosePending(w.process)
    case _ => true
  }

  // --------------------------------------------------------------------- runs

  ghost function EndOf(c: Setup, run: seq<Action>): Option<World> {
    if run == [] then Some(START) else
    var before := EndOf(c, run[..|run| - 1]);
    if before.Some? && Enabled(c, before.value, run[|run| - 1]) then Some(Next(c, before.value, run[|run| - 1]))
    else None
  }

  /** The run can happen and ends in `w`. */
  ghost predicate Leads(c: Setup, run: seq<Action>, w: World) {
    EndOf(c, run) == Some(w)
  }

  /** Every step of the run was taken in an environment that keeps the assumptions. */
  ghost predicate AssumedThroughout(c: Setup, run: seq<Action>) {
    run != [] ==>
      && AssumedThroughout(c, run[..|run| - 1])
      && (EndOf(c, run[..|run| - 1]).Some? ==> Assumed(c, EndOf(c, run[..|run| - 1]).value, run[|run| - 1]))
  }
}
