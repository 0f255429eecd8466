/** What the runner guarantees whatever Eagle, the broker and the operator do: which sessions
    may reach the broker, what observe mode leaves alone, and that a replayed exit is durable
    before it is consumed. */
module RunnerGate {
  import opened Protocol
  import opened ExecutionLedgers
  import opened ExecutionClients
  import opened SignalLifecycles
  import opened RunnerDecisions
  import opened Runners
  import Callbacks = OrderCallbacks
  import Core = ExecutionMachines

  // ----------------------------------------- the runner runs the execution core

  /** The execution core's share of a run. */
  ghost function CoreRun(c: Setup, run: seq<Action>): seq<Core.Action> {
    if run == [] then [] else
    var before := EndOf(c, run[..|run| - 1]);
    CoreRun(c, run[..|run| - 1])
    + if before.Some? && CoreAction(c, before.value, run[|run| - 1]).Some?
      then [CoreAction(c, before.value, run[|run| - 1]).value] else []
  }

  lemma StepRefinesCore(c: Setup, w: World, a: Action)
    requires Enabled(c, w, a)
    ensures CoreAction(c, w, a).None? ==> Next(c, w, a).core == w.core
    ensures CoreAction(c, w, a).Some? ==>
              Core.Enabled(w.core, CoreAction(c, w, a).value)
              && Next(c, w, a).core == Core.Next(w.core, CoreAction(c, w, a).value)
  {
  }

  lemma CoreRunGrows(run: seq<Core.Action>, m: Core.Machine, a: Core.Action)
    requires Core.Leads(run, m) && Core.Enabled(m, a)
    ensures Core.Leads(run + [a], Core.Next(m, a))
  {
    assert (run + [a])[..|run|] == run;
  }

  /** Every run of the trader is a run of the execution core, so whatever holds in all its
      reachable states holds here. */
  lemma {:induction false} RunnerRefinesCore(c: Setup, run: seq<Action>, w: World)
    requires Leads(c, run, w)
    ensures Core.Leads(CoreRun(c, run), w.core)
  {
    if run != [] {
      var earlier, last := run[..|run| - 1], run[|run| - 1];
      var before := EndOf(c, earlier).value;
      RunnerRefinesCore(c, earlier, before);
      StepRefinesCore(c, before, last);
      if CoreAction(c, before, last).Some? {
        CoreRunGrows(CoreRun(c, earlier), before.core, CoreAction(c, before, last).value);
      } else {
        assert CoreRun(c, run) == CoreRun(c, earlier);
      }
    }
  }

  /** For every event, over every run of the trader, the broker is called at most once. */
  lemma RunnerSubmitsAtMostOnce(c: Setup, run: seq<Action>, w: World, event: EventId)
    requires Leads(c, run, w)
    ensures |Core.CallsFor(w.core.client.calls, event)| <= 1
    ensures event in LedgerOf(w).records && LedgerOf(w).records[event].status == Reserved ==>
              Core.CallsFor(w.core.client.calls, event) == []
  {
    RunnerRefinesCore(c, run, w);
    Core.AtMostOneSubmission(CoreRun(c, run), w.core, event);
  }

  // ---------------------------------------------------------------------- gate

  predicate Authorized(session: Session) {
    session.complete && session.heartbeatSeen
  }

  predicate GatedOrder(armed: bool, session: Session, purpose: Purpose) {
    armed && (purpose.StartupExit? || Authorized(session))
  }

  predicate GatedStage(armed: bool, session: Session, stage: Stage) {
    match stage
    case EntryConsumed(_) => armed && Authorized(session)
    case EntryCommitted(_) => armed && Authorized(session)
    case EntryReserved(_) => armed && Authorized(session)
    case ExitConsumed(_) => armed && Authorized(session)
    case ExitReserved(_) => armed && Authorized(session)
    case PendingChecked(_, _) => armed && Authorized(session)
    case PendingFlat(_, _) => armed && Authorized(session)
    case PendingClosed(_, _) => armed && Authorized(session)
    case CloseApproved(purpose, _) => GatedOrder(armed, session, purpose)
    case Sending(purpose, _) => GatedOrder(armed, session, purpose)
    case Waiting(purpose, _) => GatedOrder(armed, session, purpose)
    case CloseFilled(purpose, _) => GatedOrder(armed, session, purpose)
    case CloseCommitted(purpose, _) => GatedOrder(armed, session, purpose)
    case HeartbeatTail(_) => armed && Authorized(session)
    case _ => true
  }

  predicate Gated(p: Program) {
    match p
    case Down => true
    case Running(armed, _, _, session, stage) =>
      (session.heartbeatSeen ==> session.complete) && GatedStage(armed, session, stage)
  }

  lemma HelloKeepsGate(c: Setup, w: World, f: Frame, link: Link)
    requires w.process.Running? && f.Hello?
    ensures Gated(OnHello(c, w, f, link).process)
  {
  }

  lemma RecoveryNeedsAuthority(request: TradeRequest, position: int, opens: Opens, authorized: bool, q: Quantity)
    requires EvaluateRecovery(request, position, opens, authorized, q) == Pass
    ensures authorized
  {
  }

  /** What a heartbeat can lead to. */
  lemma HeartbeatLeadsTo(c: Setup, w: World, seqNo: nat, link: Link)
    requires w.process.Running? && w.process.stage.Idle?
    ensures var next, session := OnHeartbeat(c, w, seqNo, link).process, w.process.session;
            next.Running? ==>
              && next.armed == w.process.armed
              && next.session.complete == session.complete
              && (next.session.heartbeatSeen <==> session.heartbeatSeen || session.complete)
              && (next.stage.Idle? || (next.stage.PendingChecked? && next.armed && session.complete))
  {
    var found := FindReservedExit(LedgerOf(w));
    if found.ReservedExit? {
      var request := RequestBehind(LedgerOf(w), found.event);
      if EvaluateRecovery(request, w.broker.position, OpensIn(w), w.process.armed, c.q) == Pass {
        RecoveryNeedsAuthority(request, w.broker.position, OpensIn(w), w.process.armed, c.q);
      }
    }
  }

  lemma HeartbeatKeepsGate(c: Setup, w: World, seqNo: nat, link: Link)
    requires Gated(w.process) && w.process.Running? && w.process.stage.Idle?
    ensures Gated(OnHeartbeat(c, w, seqNo, link).process)
  {
    HeartbeatLeadsTo(c, w, seqNo, link);
  }

  lemma EntryKeepsGate(c: Setup, w: World, f: Frame, link: Link)
    requires Gated(w.process) && w.process.Running? && w.process.stage.Idle? && f.Entry?
    ensures Gated(Receive(c, w, f, link).process)
  {
  }

  lemma ExitKeepsGate(c: Setup, w: World, f: Frame, link: Link)
    requires Gated(w.process) && w.process.Running? && w.process.stage.Idle? && f.Exit?
    ensures Gated(Receive(c, w, f, link).process)
  {
  }

  lemma FramesKeepGate(c: Setup, w: World, f: Frame, link: Link)
    requires Gated(w.process) && w.process.Running? && w.process.stage.Idle?
    ensures Gated(Receive(c, w, f, link).process)
  {
    match f
    case Hello(_, _, _) => HelloKeepsGate(c, w, f, link);
    case Heartbeat(seqNo) => HeartbeatKeepsGate(c, w, seqNo, link);
    case Update(_, _) =>
    case Entry(_, _, _, _, _) => EntryKeepsGate(c, w, f, link);
    case Exit(_, _, _) => ExitKeepsGate(c, w, f, link);
  }

  lemma ContinueKeepsGate(c: Setup, w: World, valid: bool)
    requires Gated(w.process) && w.process.Running? && CanContinue(LedgerOf(w), w.process.stage)
    ensures Gated(OnContinue(c, w, valid).process)
  {
  }

  lemma StepKeepsGate(c: Setup, w: World, a: Action)
    requires Gated(w.process) && Enabled(c, w, a)
    ensures Gated(Next(c, w, a).process)
  {
    match a
    case Deliver(f, link) => FramesKeepGate(c, w, f, link);
    case Continue(valid, _) => ContinueKeepsGate(c, w, valid);
    case Start(_, _) =>
    case ConnectIB(_) =>
    case _ =>
  }

  lemma {:induction false} RunsAreGated(c: Setup, run: seq<Action>, w: World)
    requires Leads(c, run, w)
    ensures Gated(w.process)
  {
    if run != [] {
      var before := EndOf(c, run[..|run| - 1]).value;
      RunsAreGated(c, run[..|run| - 1], before);
      StepKeepsGate(c, before, run[|run| - 1]);
    }
  }

  /** The step calls the broker. */
  ghost predicate CallsBroker(c: Setup, w: World, a: Action)
    requires Enabled(c, w, a)
  {
    Next(c, w, a).core.client.calls != w.core.client.calls
  }

  lemma OnlyPlaceCallsBroker(m: Core.Machine, a: Core.Action)
    requires Core.Enabled(m, a) && !a.Place?
    ensures Core.Next(m, a).client.calls == m.client.calls
  {
  }

  lemma BrokerCallsAreSends(c: Setup, w: World, a: Action)
    requires Enabled(c, w, a) && CallsBroker(c, w, a)
    ensures w.process.Running? && a.Continue? && w.process.stage.Sending?
  {
    if CoreAction(c, w, a).Some? && !CoreAction(c, w, a).value.Place? {
      OnlyPlaceCallsBroker(w.core, CoreAction(c, w, a).value);
    }
  }

  /** Frame `j` of the run was a heartbeat delivered when replay was already complete, and
      no connection loss, restart or further hello came after it. */
  ghost predicate HeartbeatHeld(c: Setup, run: seq<Action>, j: nat) {
    && j < |run|
    && run[j].Deliver? && run[j].frame.Heartbeat?
    && EndOf(c, run[..j]).Some?
    && EndOf(c, run[..j]).value.process.Running?
    && EndOf(c, run[..j]).value.process.session.complete
    && forall k :: j < k < |run| ==> SameSession(run[k])
  }

  predicate SameSession(a: Action) {
    !a.Start? && !a.Fail? && !a.Disconnect? && !(a.Deliver? && a.frame.Hello?)
  }

  predicate HeartbeatSeen(p: Program) {
    p.Running? && p.session.heartbeatSeen
  }

  lemma FrameRaisesFlag(c: Setup, w: World, f: Frame, link: Link)
    requires w.process.Running? && HeartbeatSeen(Receive(c, w, f, link).process)
    ensures !f.Hello?
    ensures HeartbeatSeen(w.process) || (f.Heartbeat? && w.process.session.complete)
  {
    match f
    case Hello(_, _, _) =>
    case Heartbeat(_) =>
    case Update(_, _) =>
    case Entry(_, _, _, _, _) =>
    case Exit(_, _, _) =>
  }

  lemma ContinueRaisesNoFlag(c: Setup, w: World, valid: bool)
    requires Gated(w.process) && w.process.Running? && HeartbeatSeen(OnContinue(c, w, valid).process)
    ensures HeartbeatSeen(w.process)
  {
  }

  lemma FlagComesFromHeartbeat(c: Setup, w: World, a: Action)
    requires Gated(w.process) && Enabled(c, w, a) && HeartbeatSeen(Next(c, w, a).process)
    ensures SameSession(a)
    ensures !HeartbeatSeen(w.process) ==>
              a.Deliver? && a.frame.Heartbeat? && w.process.Running? && w.process.session.complete
  {
    match a
    case Deliver(f, link) => FrameRaisesFlag(c, w, f, link);
    case Continue(valid, _) => ContinueRaisesNoFlag(c, w, valid);
    case _ =>
  }

  lemma {:induction false} FlagMeansHeartbeat(c: Setup, run: seq<Action>, w: World) returns (j: nat)
    requires Leads(c, run, w) && HeartbeatSeen(w.process)
    ensures HeartbeatHeld(c, run, j)
  {
    assert run != [];
    var earlier := run[..|run| - 1];
    var before := EndOf(c, earlier).value;
    RunsAreGated(c, earlier, before);
    FlagComesFromHeartbeat(c, before, run[|run| - 1]);
    if HeartbeatSeen(before.process) {
      j := FlagMeansHeartbeat(c, earlier, before);
      assert earlier[..j] == run[..j];
      assert forall k :: j < k < |earlier| ==> SameSession(earlier[k]);
    } else {
      j := |run| - 1;
    }
  }

  /** The broker is called only by an armed process, and outside the operator's startup
      recovery only after a heartbeat that arrived, in this very session, when the replay
      Eagle announced was already complete. */
  lemma SubmissionGate(c: Setup, run: seq<Action>, w: World, a: Action)
    requires Leads(c, run, w) && Enabled(c, w, a) && CallsBroker(c, w, a)
    ensures w.process.Running? && w.process.armed && w.process.stage.Sending?
    ensures w.process.stage.purpose.StartupExit? || exists j :: HeartbeatHeld(c, run, j)
  {
    RunsAreGated(c, run, w);
    BrokerCallsAreSends(c, w, a);
    if !w.process.stage.purpose.StartupExit? {
      var j := FlagMeansHeartbeat(c, run, w);
    }
  }

  /** Observe mode: once replay is complete no frame changes the cursor, the processed
      events, the lifecycle, the ledger or the broker, and none starts any work. */
  lemma UnarmedFramesChangeNothing(c: Setup, w: World, f: Frame, link: Link)
    requires Enabled(c, w, Deliver(f, link)) && !w.process.armed && w.process.session.complete
    ensures var after := Next(c, w, Deliver(f, link));
            && after == w.(process := after.process)
            && (after.process.Running? ==> !after.process.armed && after.process.stage.Idle?)
  {
  }

  /** A trade BTS missed is never chased: a frame of a missed signal leaves lifecycle, ledger
      and broker alone and starts no work, replayed or live, armed or not. */
  lemma MissedSignalsAreNotTraded(c: Setup, w: World, f: Frame, link: Link)
    requires Enabled(c, w, Deliver(f, link)) && (f.Entry? || f.Exit?) && f.signal in w.process.session.missed
    ensures var next := Next(c, w, Deliver(f, link));
            && next.life == w.life && next.core == w.core && next.broker == w.broker
            && (next.process.Running? ==> next.process.stage.Idle?)
            && (next.process.Running? && next.process.session.missed != w.process.session.missed ==>
                  f.Exit? && w.process.session.complete)
  {
  }

  /** An armed runner that cannot reach IB consumes a fresh entry and remembers it as missed. */
  lemma UnreachableEntryBecomesMissed(c: Setup, w: World, f: Frame)
    requires Enabled(c, w, Deliver(f, Unavailable)) && f.Entry? && w.process.armed
    requires Authorized(w.process.session) && AdaptEntry(f.symbol, f.direction).Adapted?
    requires f.signal !in w.process.session.missed && Consumes(w, f.event, f.seqNo)
    ensures var next := Next(c, w, Deliver(f, Unavailable));
            && next == w.(store := next.store, process := next.process)
            && f.event in next.store.processed
            && next.process.Running? && f.signal in next.process.session.missed
  {
  }

  // ------------------------------------------------------------ replayed exits

  /** BTS's obligation towards an exit event is on record: a closing execution reserved for
      it, or its signal closed by it. */
  predicate Durable(w: World, event: EventId, signal: SignalId) {
    || (event in LedgerOf(w).records && LedgerOf(w).records[event].intent.Closing()
        && LedgerOf(w).records[event].signal == signal)
    || ClosedBy(w.life, signal, event)
  }

  lemma ReserveEventExtends(m: Core.Machine, request: TradeRequest)
    requires m.placing.None?
    ensures Extends(m.client.ledger, Core.Next(m, Core.ReserveEvent(request)).client.ledger)
  {
    ReserveExtends(m.client.ledger, request);
  }

  lemma BeginWritesOnce(client: Client, request: TradeRequest, id: OrderId, valid: bool)
    ensures BeginSubmission(client, request, id, valid).client.ledger in {
              client.ledger,
              After(client.ledger, Transition(client.ledger, request.event, Rejected, None)),
              After(client.ledger, Transition(client.ledger, request.event, Submitted, Some(id)))}
  {
  }

  lemma Unchanged(l: Ledger)
    ensures Extends(l, l)
  {
  }

  lemma BeginExtends(m: Core.Machine, request: TradeRequest, valid: bool)
    requires m.placing.None? && m.issued.Some?
    ensures Extends(m.client.ledger, Core.Next(m, Core.Begin(request, valid)).client.ledger)
  {
    BeginWritesOnce(m.client, request, m.issued.value, valid);
    TransitionExtends(m.client.ledger, request.event, Rejected, None);
    TransitionExtends(m.client.ledger, request.event, Submitted, m.issued);
    Unchanged(m.client.ledger);
  }

  lemma CallbackLedger(m: Core.Machine, r: Callbacks.Report)
    requires m.inserting.None?
    ensures Core.Next(m, Core.Callback(r)).client.ledger == Callbacks.LedgerPart(Core.Tables(m), r).ledger
  {
  }

  lemma CallbackExtends(m: Core.Machine, r: Callbacks.Report)
    requires Core.Sound(m) && m.inserting.None?
    ensures Extends(m.client.ledger, Core.Next(m, Core.Callback(r)).client.ledger)
  {
    CallbackLedger(m, r);
    Core.CallbackKeepsLedgerSound(Core.Tables(m), r);
  }

  lemma CoreExtends(m: Core.Machine, a: Core.Action)
    requires Core.Sound(m) && Core.Enabled(m, a)
    ensures Extends(m.client.ledger, Core.Next(m, a).client.ledger)
  {
    match a
    case ReserveEvent(request) => ReserveEventExtends(m, request);
    case Begin(request, valid) => BeginExtends(m, request, valid);
    case ResolveUnsent(e) => TransitionExtends(m.client.ledger, e, Rejected, None);
    case Callback(r) => CallbackExtends(m, r);
    case _ =>
  }

  lemma StepExtendsLedger(c: Setup, w: World, a: Action)
    requires Core.Sound(w.core) && Enabled(c, w, a)
    ensures Extends(LedgerOf(w), LedgerOf(Next(c, w, a)))
  {
    StepRefinesCore(c, w, a);
    if CoreAction(c, w, a).Some? {
      CoreExtends(w.core, CoreAction(c, w, a).value);
    } else {
      Unchanged(LedgerOf(w));
    }
  }

  /** A closed signal is never reopened or closed again. */
  lemma StepKeepsClosed(c: Setup, w: World, a: Action, event: EventId, signal: SignalId)
    requires Enabled(c, w, a) && ClosedBy(w.life, signal, event)
    ensures ClosedBy(Next(c, w, a).life, signal, event)
  {
  }

  lemma StepKeepsDurable(c: Setup, w: World, a: Action, event: EventId, signal: SignalId)
    requires Core.Sound(w.core) && Enabled(c, w, a) && Durable(w, event, signal)
    ensures Durable(Next(c, w, a), event, signal)
  {
    StepExtendsLedger(c, w, a);
    if ClosedBy(w.life, signal, event) {
      StepKeepsClosed(c, w, a, event, signal);
    }
  }

  /** The obligation while the exit waits to be consumed: its record is still RESERVED. */
  predicate Owed(w: World, event: EventId, signal: SignalId) {
    || (event in LedgerOf(w).records && LedgerOf(w).records[event].intent.Closing()
        && LedgerOf(w).records[event].signal == signal && LedgerOf(w).records[event].status == Reserved)
    || ClosedBy(w.life, signal, event)
  }

  predicate ReadyToConsume(w: World) {
    match w.process
    case Down => true
    case Running(_, _, _, _, stage) => stage.ReplayedDurable? ==> Owed(w, stage.event, stage.signal)
  }

  /** A callback names an order, and a reserved record has none yet. */
  lemma CallbackSparesReserved(m: Core.Machine, r: Callbacks.Report, event: EventId)
    requires Core.Sound(m) && m.inserting.None?
    requires event !in m.client.ledger.records || m.client.ledger.records[event].status == Reserved
    ensures var before, after := m.client.ledger.records, Core.Next(m, Core.Callback(r)).client.ledger.records;
            (event in before <==> event in after) && (event in before ==> after[event] == before[event])
  {
    CallbackLedger(m, r);
    Callbacks.CallbackRequestsAreLegal(Core.Tables(m), r);
  }

  predicate Passive(a: Action) {
    !a.Start? && !a.Continue? && !a.Deliver?
  }

  lemma PassiveStepSparesReserved(c: Setup, w: World, a: Action, event: EventId)
    requires Core.Sound(w.core) && Enabled(c, w, a) && Passive(a)
    requires event !in LedgerOf(w).records || LedgerOf(w).records[event].status == Reserved
    ensures var before, after := LedgerOf(w).records, LedgerOf(Next(c, w, a)).records;
            (event in before <==> event in after) && (event in before ==> after[event] == before[event])
  {
    StepRefinesCore(c, w, a);
    if a.Report? {
      CallbackSparesReserved(w.core, a.report, event);
    }
  }

  lemma PassiveStepKeepsOwed(c: Setup, w: World, a: Action, event: EventId, signal: SignalId)
    requires Core.Sound(w.core) && Enabled(c, w, a) && Passive(a) && Owed(w, event, signal)
    ensures Owed(Next(c, w, a), event, signal)
  {
    if ClosedBy(w.life, signal, event) {
      StepKeepsClosed(c, w, a, event, signal);
    } else {
      PassiveStepSparesReserved(c, w, a, event);
    }
  }

  lemma OnlyExitsMakeReady(c: Setup, w: World, f: Frame, link: Link)
    requires w.process.Running? && w.process.stage.Idle? && !f.Exit?
    ensures var next := Receive(c, w, f, link).process; next.Running? ==> !next.stage.ReplayedDurable?
  {
  }

  lemma ReplayedExitMakesReady(c: Setup, w: World, f: Frame, link: Link)
    requires w.process.Running? && w.process.stage.Idle? && f.Exit?
    ensures var next := OnReplayedExit(c, w, f, link).process;
            next.Running? && next.stage.ReplayedDurable? ==> Owed(w, next.stage.event, next.stage.signal)
  {
  }

  lemma FrameMakesReady(c: Setup, w: World, f: Frame, link: Link)
    requires w.process.Running? && w.process.stage.Idle?
    ensures var next := Receive(c, w, f, link).process;
            next.Running? && next.stage.ReplayedDurable? ==> Owed(w, next.stage.event, next.stage.signal)
  {
    if f.Exit? {
      ReplayedExitMakesReady(c, w, f, link);
    } else {
      OnlyExitsMakeReady(c, w, f, link);
    }
  }

  lemma FlatWriteMakesReady(c: Setup, w: World, valid: bool)
    requires w.process.Running? && w.process.stage.ReplayedFlat?
    requires OnContinue(c, w, valid).process.Running?
    ensures ClosedBy(LifeAfter(c, w, Continue(valid, true)), w.process.stage.signal, w.process.stage.event)
    ensures CoreContinue(c, w, valid).None?
  {
  }

  lemma ReservationMakesReady(c: Setup, w: World, valid: bool)
    requires w.process.Running? && w.process.stage.ReplayedExposed? && CoreContinue(c, w, valid).Some?
    requires Core.Enabled(w.core, CoreContinue(c, w, valid).value)
    requires OnContinue(c, w, valid).process.Running?
    ensures var event, records := w.process.stage.event,
                                  Core.Next(w.core, CoreContinue(c, w, valid).value).client.ledger.records;
            && event in records && records[event].status == Reserved
            && records[event].intent.Closing() && records[event].signal == w.process.stage.signal
  {
  }

  lemma OnlyTwoWritesMakeReady(c: Setup, w: World, valid: bool)
    requires w.process.Running? && !w.process.stage.ReplayedFlat? && !w.process.stage.ReplayedExposed?
    requires CanContinue(LedgerOf(w), w.process.stage)
    ensures OnContinue(c, w, valid).process.Running? ==> !OnContinue(c, w, valid).process.stage.ReplayedDurable?
  {
  }

  lemma WriteMakesReady(c: Setup, w: World, valid: bool, reached: bool)
    requires Enabled(c, w, Continue(valid, reached))
    ensures ReadyToConsume(Next(c, w, Continue(valid, reached)))
  {
    if OnContinue(c, w, valid).process.Running? {
      StepRefinesCore(c, w, Continue(valid, reached));
      match w.process.stage
      case ReplayedFlat(_, _, _) => FlatWriteMakesReady(c, w, valid);
      case ReplayedExposed(_, _, _) => ReservationMakesReady(c, w, valid);
      case _ => OnlyTwoWritesMakeReady(c, w, valid);
    }
  }

  lemma StepKeepsReady(c: Setup, w: World, a: Action)
    requires Core.Sound(w.core) && Enabled(c, w, a) && ReadyToConsume(w)
    ensures ReadyToConsume(Next(c, w, a))
  {
    if a.Continue? {
      WriteMakesReady(c, w, a.contractValid, a.reached);
    } else if a.Deliver? {
      FrameMakesReady(c, w, a.frame, a.link);
    } else if w.process.Running? && w.process.stage.ReplayedDurable? {
      PassiveStepKeepsOwed(c, w, a, w.process.stage.event, w.process.stage.signal);
    }
  }

  lemma {:induction false} RunsAreReady(c: Setup, run: seq<Action>, w: World)
    requires Leads(c, run, w)
    ensures Core.Sound(w.core) && ReadyToConsume(w)
  {
    RunnerRefinesCore(c, run, w);
    Core.RunsAreSound(CoreRun(c, run), w.core);
    if run != [] {
      var before := EndOf(c, run[..|run| - 1]).value;
      RunsAreReady(c, run[..|run| - 1], before);
      StepKeepsReady(c, before, run[|run| - 1]);
    }
  }

  lemma FrameConsumesItsEvent(c: Setup, w: World, f: Frame, link: Link)
    requires w.process.Running?
    ensures f.Exit? && !w.process.session.complete ==> Receive(c, w, f, link).store == w.store
  {
  }

  lemma ContinueConsumesOwedExit(c: Setup, w: World, valid: bool, event: EventId)
    requires w.process.Running? && event !in w.store.processed && event in OnContinue(c, w, valid).store.processed
    ensures w.process.stage.ReplayedDurable? && w.process.stage.event == event
  {
  }

  /** In every reachable state, an event that becomes processed is either the event of a
      frame other than a replayed exit, or a replayed exit whose closing execution is
      RESERVED or whose signal is already closed by it. */
  lemma ReplayedExitIsDurableBeforeConsumed(c: Setup, run: seq<Action>, w: World, a: Action, event: EventId)
    requires Leads(c, run, w) && Enabled(c, w, a)
    requires event !in w.store.processed && event in Next(c, w, a).store.processed
    ensures w.process.Running?
    ensures a.Deliver? ==> !(a.frame.Exit? && !w.process.session.complete)
    ensures !a.Deliver? ==>
              && w.process.stage.ReplayedDurable? && w.process.stage.event == event
              && Owed(w, event, w.process.stage.signal)
  {
    RunsAreReady(c, run, w);
    match a
    case Deliver(f, link) => FrameConsumesItsEvent(c, w, f, link);
    case Continue(valid, _) => ContinueConsumesOwedExit(c, w, valid, event);
    case _ =>
  }

  /** What is durable stays so over every continuation of the run, crashes included; a
      signal closed by an event stays closed by that event. */
  lemma {:induction false} DurableForever(c: Setup, run: seq<Action>, k: nat, w: World, later: World,
                                          event: EventId, signal: SignalId)
    requires k <= |run| && Leads(c, run[..k], w) && Leads(c, run, later)
    requires Durable(w, event, signal)
    ensures Durable(later, event, signal)
    ensures ClosedBy(w.life, signal, event) ==> ClosedBy(later.life, signal, event)
    decreases |run|
  {
    if k == |run| {
      assert run[..k] == run;
    } else {
      var earlier := run[..|run| - 1];
      var before := EndOf(c, earlier).value;
      assert earlier[..k] == run[..k];
      DurableForever(c, earlier, k, w, before, event, signal);
      RunsAreReady(c, earlier, before);
      StepKeepsDurable(c, before, run[|run| - 1], event, signal);
      if ClosedBy(before.life, signal, event) {
        StepKeepsClosed(c, before, run[|run| - 1], event, signal);
      }
    }
  }

  lemma RedeliveredExit(c: Setup, w: World, f: Frame, link: Link)
    requires w.process.Running? && w.process.stage.Idle? && f.Exit? && !w.process.session.complete
    requires Durable(w, f.event, f.signal)
    ensures var next := Receive(c, w, f, link).process;
            next.Running? ==>
              || next.stage.Idle?
              || next.stage == ReplayedDurable(f.event, f.seqNo, f.signal)
              || (next.stage == ReplayedFlat(f.event, f.seqNo, f.signal) && !ClosedBy(w.life, f.signal, f.event))
  {
  }

  /** Redelivery after a crash anywhere: an exit that is already durable is neither reserved
      a second time nor closes its signal a second time, in this step or the next. */
  lemma RedoneExitAddsNothing(c: Setup, w: World, f: Frame, link: Link, valid: bool, reached: bool)
    requires Enabled(c, w, Deliver(f, link)) && f.Exit? && !w.process.session.complete
    requires Durable(w, f.event, f.signal)
    ensures var once := Next(c, w, Deliver(f, link));
            && once.core == w.core && once.life == w.life && once.store == w.store
            && (Enabled(c, once, Continue(valid, reached)) ==>
                  var twice := Next(c, once, Continue(valid, reached));
                  && twice.core == w.core
                  && (ClosedBy(w.life, f.signal, f.event) ==> twice.life == w.life))
  {
    RedeliveredExit(c, w, f, link);
    FrameConsumesItsEvent(c, w, f, link);
  }

  // ---------------------------------------------------- inherited reservations

  /** The stages before anything could be traded; a replayed exit in hand is that very one. */
  predicate QuietStage(stage: Stage, inherited: EventId) {
    match stage
    case Booting => true
    case Preflight => true
    case Idle => true
    case ReplayedEntry(_) => true
    case ReplayedFlat(event, _, _) => event == inherited
    case ReplayedExposed(event, _, _) => event == inherited
    case ReplayedDurable(event, _, _) => event == inherited
    case _ => false
  }

  predicate StillReserved(l: Ledger, event: EventId) {
    match l
    case Ledger(records, _) => event in records && records[event].status == Reserved
  }

  /** An inherited reservation is untouched, and the process is not on its way to the broker. */
  predicate Waits(l: Ledger, p: Program) {
    match p
    case Down => true
    case Running(_, recover, inherited, _, stage) =>
      inherited.Some? ==> StillReserved(l, inherited.value) && QuietStage(stage, inherited.value) && !recover
  }

  lemma ReservedIsFound(l: Ledger, event: EventId)
    requires StillReserved(l, event)
    ensures !ExecutionClear(l) && !FindReservedExit(l).NoReservation?
  {
  }

  /** What a frame may leave of a process that waits. */
  predicate WaitsOn(next: Program, event: EventId) {
    match next
    case Down => true
    case Running(_, recover, inherited, _, stage) => inherited == Some(event) && QuietStage(stage, event) && !recover
  }

  lemma HeartbeatKeepsWaiting(c: Setup, w: World, seqNo: nat, link: Link)
    requires Waits(LedgerOf(w), w.process) && w.process.Running? && w.process.stage.Idle? && w.process.inherited.Some?
    ensures WaitsOn(OnHeartbeat(c, w, seqNo, link).process, w.process.inherited.value)
  {
    ReservedIsFound(LedgerOf(w), w.process.inherited.value);
  }

  lemma EntryKeepsWaiting(c: Setup, w: World, f: Frame, link: Link)
    requires Waits(LedgerOf(w), w.process) && w.process.Running? && w.process.stage.Idle? && w.process.inherited.Some?
    requires f.Entry?
    ensures WaitsOn(Receive(c, w, f, link).process, w.process.inherited.value)
  {
    ReservedIsFound(LedgerOf(w), w.process.inherited.value);
  }

  lemma LiveExitKeepsWaiting(c: Setup, w: World, f: Frame, link: Link)
    requires Waits(LedgerOf(w), w.process) && w.process.Running? && w.process.stage.Idle? && w.process.inherited.Some?
    requires f.Exit?
    ensures WaitsOn(OnLiveExit(c, w, f, link).process, w.process.inherited.value)
  {
    ReservedIsFound(LedgerOf(w), w.process.inherited.value);
  }

  lemma ReplayedExitKeepsWaiting(c: Setup, w: World, f: Frame, link: Link)
    requires Waits(LedgerOf(w), w.process) && w.process.Running? && w.process.stage.Idle? && w.process.inherited.Some?
    requires f.Exit?
    ensures WaitsOn(OnReplayedExit(c, w, f, link).process, w.process.inherited.value)
  {
  }

  lemma ExitKeepsWaiting(c: Setup, w: World, f: Frame, link: Link)
    requires Waits(LedgerOf(w), w.process) && w.process.Running? && w.process.stage.Idle? && w.process.inherited.Some?
    requires f.Exit?
    ensures WaitsOn(Receive(c, w, f, link).process, w.process.inherited.value)
  {
    LiveExitKeepsWaiting(c, w, f, link);
    ReplayedExitKeepsWaiting(c, w, f, link);
  }

  lemma FrameKeepsWaiting(c: Setup, w: World, f: Frame, link: Link)
    requires Waits(LedgerOf(w), w.process) && w.process.Running? && w.process.stage.Idle? && w.process.inherited.Some?
    ensures WaitsOn(Receive(c, w, f, link).process, w.process.inherited.value)
  {
    match f
    case Hello(_, _, _) =>
    case Heartbeat(seqNo) => HeartbeatKeepsWaiting(c, w, seqNo, link);
    case Update(_, _) =>
    case Entry(_, _, _, _, _) => EntryKeepsWaiting(c, w, f, link);
    case Exit(_, _, _) => ExitKeepsWaiting(c, w, f, link);
  }

  lemma FrameInheritsNothing(c: Setup, w: World, f: Frame, link: Link)
    requires w.process.Running? && w.process.inherited.None?
    ensures var next := Receive(c, w, f, link).process; next.Running? ==> next.inherited.None?
  {
  }

  lemma QuietContinue(c: Setup, w: World, valid: bool)
    requires Waits(LedgerOf(w), w.process) && w.process.Running? && w.process.inherited.Some?
    ensures var next := OnContinue(c, w, valid).process;
            next.Running? ==>
              && QuietStage(next.stage, w.process.inherited.value) && !next.recover
              && (next.inherited == w.process.inherited
                  || (w.process.stage.ReplayedDurable? && next.inherited.None?
                      && w.process.inherited.value in OnContinue(c, w, valid).store.processed))
    ensures CoreContinue(c, w, valid).Some? ==> CoreContinue(c, w, valid).value.ReserveEvent?
  {
  }

  lemma ContinueInheritsNothing(c: Setup, w: World, valid: bool)
    requires w.process.Running? && w.process.inherited.None?
    ensures var next := OnContinue(c, w, valid).process; next.Running? ==> next.inherited.None?
  {
  }

  lemma ReservingSparesReserved(m: Core.Machine, request: TradeRequest, event: EventId)
    requires m.placing.None? && StillReserved(m.client.ledger, event)
    ensures StillReserved(Core.Next(m, Core.ReserveEvent(request)).client.ledger, event)
  {
  }

  lemma ContinueKeepsWaiting(c: Setup, w: World, valid: bool, reached: bool)
    requires Enabled(c, w, Continue(valid, reached)) && Waits(LedgerOf(w), w.process)
    ensures var after := Next(c, w, Continue(valid, reached)); Waits(LedgerOf(after), after.process)
  {
    if w.process.inherited.None? {
      ContinueInheritsNothing(c, w, valid);
    } else {
      QuietContinue(c, w, valid);
      StepRefinesCore(c, w, Continue(valid, reached));
      if CoreContinue(c, w, valid).Some? {
        ReservingSparesReserved(w.core, CoreContinue(c, w, valid).value.request, w.process.inherited.value);
      }
    }
  }

  lemma DeliverKeepsWaiting(c: Setup, w: World, f: Frame, link: Link)
    requires Enabled(c, w, Deliver(f, link)) && Waits(LedgerOf(w), w.process)
    ensures var after := Next(c, w, Deliver(f, link)); Waits(LedgerOf(after), after.process)
  {
    if w.process.inherited.None? {
      FrameInheritsNothing(c, w, f, link);
    } else {
      FrameKeepsWaiting(c, w, f, link);
    }
  }

  lemma StartKeepsWaiting(c: Setup, w: World, armed: bool, recover: bool)
    requires Enabled(c, w, Start(armed, recover))
    ensures var after := Next(c, w, Start(armed, recover)); Waits(LedgerOf(after), after.process)
  {
  }

  lemma PassiveStepKeepsWaiting(c: Setup, w: World, a: Action)
    requires Core.Sound(w.core) && Enabled(c, w, a) && Passive(a) && Waits(LedgerOf(w), w.process)
    ensures var after := Next(c, w, a); Waits(LedgerOf(after), after.process)
  {
    if w.process.Running? && w.process.inherited.Some? {
      PassiveStepSparesReserved(c, w, a, w.process.inherited.value);
    }
  }

  lemma StepKeepsWaiting(c: Setup, w: World, a: Action)
    requires Core.Sound(w.core) && Enabled(c, w, a) && Waits(LedgerOf(w), w.process)
    ensures var after := Next(c, w, a); Waits(LedgerOf(after), after.process)
  {
    if a.Start? {
      StartKeepsWaiting(c, w, a.armed, a.recover);
    } else if a.Continue? {
      ContinueKeepsWaiting(c, w, a.contractValid, a.reached);
    } else if a.Deliver? {
      DeliverKeepsWaiting(c, w, a.frame, a.link);
    } else {
      PassiveStepKeepsWaiting(c, w, a);
    }
  }

  lemma {:induction false} RunsWait(c: Setup, run: seq<Action>, w: World)
    requires Leads(c, run, w)
    ensures Waits(LedgerOf(w), w.process)
  {
    if run != [] {
      var before, last := EndOf(c, run[..|run| - 1]).value, run[|run| - 1];
      RunsWait(c, run[..|run| - 1], before);
      RunsAreReady(c, run[..|run| - 1], before);
      StepKeepsWaiting(c, before, last);
    }
  }

  /** A reserved exit found at startup stays RESERVED, and the process calls the broker for
      nothing at all, until replay has proved that very exit and it has been consumed. */
  lemma InheritedExitWaitsForReplay(c: Setup, run: seq<Action>, w: World, a: Action)
    requires Leads(c, run, w) && Enabled(c, w, a) && w.process.Running? && w.process.inherited.Some?
    ensures StillReserved(LedgerOf(w), w.process.inherited.value)
    ensures !CallsBroker(c, w, a)
    ensures var next := Next(c, w, a);
            next.process.Running? && next.process.inherited != w.process.inherited ==>
              && next.process.inherited.None?
              && w.process.stage.ReplayedDurable? && w.process.stage.event == w.process.inherited.value
              && w.process.inherited.value in next.store.processed
  {
    RunsWait(c, run, w);
    RunsAreReady(c, run, w);
    if CallsBroker(c, w, a) {
      BrokerCallsAreSends(c, w, a);
    }
    match a
    case Deliver(f, link) => FrameKeepsWaiting(c, w, f, link);
    case Continue(valid, _) => QuietContinue(c, w, valid);
    case _ =>
  }
}
