/** The exposure theorems: over every run in an environment that keeps the assumptions, the
    broker never holds a position without an open signal of that side, and never more than
    the approved quantity. */
module RunnerSafety {
  import opened Protocol
  import opened ExecutionLedgers
  import opened ExecutionClients
  import opened SignalLifecycles
  import opened RunnerDecisions
  import opened Runners
  import opened RunnerInvariant
  import opened RunnerGate
  import Callbacks = OrderCallbacks
  import Core = ExecutionMachines

  // ------------------------------------------------------------ ledger writes

  lemma ReservationKeepsMatch(c: Setup, l: Ledger, orders: map<OrderId, Order>, request: TradeRequest)
    requires Matched(c, l, orders)
    requires request.symbol == SYMBOL && request.quantity == c.q
    requires request.intent.Closing() ==> request.event == c.exitOf(request.signal)
    ensures Matched(c, After(l, Reserve(l, request)), orders)
  {
    var n := After(l, Reserve(l, request));
    assert Terms(c, n);
    assert OrdersMatch(c, n, orders);
    assert Truth(n, orders);
  }

  /** A reserved record leaves RESERVED, rejected unsent or submitted under a broker id. */
  lemma LeavingReservedKeepsMatch(c: Setup, l: Ledger, orders: map<OrderId, Order>, e: EventId, next: Status,
                                  id: Option<OrderId>)
    requires Matched(c, l, orders)
    requires e in l.records && l.records[e].status == Reserved && l.records[e].brokerId.None?
    requires (next == Submitted && id.Some?) || (next == Rejected && id.None?)
    ensures Matched(c, After(l, Transition(l, e, next, id)), orders)
    ensures NotOrdered(orders, e)
  {
    var n := After(l, Transition(l, e, next, id));
    forall i | i in orders ensures orders[i].event != e {
      assert OrderMatches(c, l.records, i, orders[i]);
    }
    assert Terms(c, n);
    assert OrdersMatch(c, n, orders);
    assert Truth(n, orders);
  }

  /** A terminal request restates what the callback announces. */
  lemma RequestIsAnnounced(b: Callbacks.Books, r: Callbacks.Report, q: Quantity)
    requires Callbacks.Tracked(b) && Callbacks.RequestOf(b, r).Some?
    requires Callbacks.RequestOf(b, r).value.1.Terminal()
    requires forall e :: e in b.ledger.records ==> b.ledger.records[e].quantity == q
    ensures Announces(r, q) == Some(Callbacks.RequestOf(b, r).value.1)
  {
    Callbacks.CallbackRequestsAreLegal(b, r);
  }

  lemma ProgressKeepsMatch(c: Setup, l: Ledger, orders: map<OrderId, Order>, e: EventId, next: Status)
    requires Matched(c, l, orders)
    requires e in l.records && l.records[e].status != Reserved && l.records[e].brokerId.Some?
    requires next.Terminal() ==>
               var id := l.records[e].brokerId.value; id in orders && orders[id].end == Some(next)
    requires UniqueIds(l)
    ensures Matched(c, After(l, Transition(l, e, next, None)), orders)
  {
    var n := After(l, Transition(l, e, next, None));
    var id := l.records[e].brokerId.value;
    assert id in orders ==> OrderMatches(c, l.records, id, orders[id]) && orders[id].event == e;
    assert Terms(c, n);
    assert OrdersMatch(c, n, orders);
    forall f | f in n.records ensures TrueOf(f, n.records[f], orders) {
      assert TrueOf(f, l.records[f], orders);
    }
    assert Truth(n, orders);
  }

  lemma CallbackKeepsMatch(c: Setup, w: World, r: Callbacks.Report)
    requires Matched(c, LedgerOf(w), w.broker.orders) && Callbacks.Tracked(Core.Tables(w.core)) && Truthful(c, w, r)
    ensures Matched(c, Callbacks.LedgerPart(Core.Tables(w.core), r).ledger, w.broker.orders)
  {
    var b := Core.Tables(w.core);
    Callbacks.CallbackRequestsAreLegal(b, r);
    var wanted := Callbacks.RequestOf(b, r);
    if wanted.Some? && !Callbacks.Refuses(b, r) {
      var (e, next) := wanted.value;
      if next.Terminal() {
        assert forall f :: f in LedgerOf(w).records ==> TermsOf(c, f, LedgerOf(w).records[f]);
        RequestIsAnnounced(b, r, c.q);
        assert TruthfulFor(LedgerOf(w).records[e], w.broker.orders, r, c.q);
      }
      ProgressKeepsMatch(c, LedgerOf(w), w.broker.orders, e, next);
    }
  }

  // ------------------------------------------------------- what snapshots show

  /** With no opening order at work, a flat snapshot means nothing works at all. */
  lemma FlatSnapshot(c: Setup, l: Ledger, life: Lifecycle, broker: Broker)
    requires OrdersMatch(c, l, broker.orders) && Coupled(c, life, broker)
    requires NoOpeningWorks(broker.orders) && broker.position == 0
    ensures Flat(broker)
  {
    forall id | id in broker.orders ensures !broker.orders[id].Working() {
      assert OrderMatches(c, l.records, id, broker.orders[id]);
      assert broker.orders[id].Working() ==> Carried(c, life, broker.position, broker.orders[id]);
    }
  }

  /** A reconciled snapshot means no opening order is still at work. */
  lemma ReconciledSnapshot(c: Setup, l: Ledger, life: Lifecycle, broker: Broker)
    requires OrdersMatch(c, l, broker.orders) && Coupled(c, life, broker)
    requires Reconcile(broker.position, OpensOf(life), c.q) == Pass
    ensures NoOpeningWorks(broker.orders)
  {
    forall id | id in broker.orders && broker.orders[id].Working() ensures broker.orders[id].intent.Closing() {
      assert OrderMatches(c, l.records, id, broker.orders[id]);
      assert Carried(c, life, broker.position, broker.orders[id]);
    }
  }

  /** No open signal and a flat broker: nothing is at work. */
  lemma EmptySnapshot(c: Setup, life: Lifecycle, broker: Broker)
    requires Coupled(c, life, broker) && OpensOf(life) == NoneOpen && broker.position == 0
    ensures Flat(broker)
  {
    forall id | id in broker.orders ensures !broker.orders[id].Working() {
      assert broker.orders[id].Working() ==> Carried(c, life, broker.position, broker.orders[id]);
    }
  }

  /** An admitted close finds nothing at work: an opening order would not have filled the
      whole quantity, and another close of the signal would be the same event, which is
      still reserved. */
  lemma AdmittedCloseIsPoised(c: Setup, l: Ledger, life: Lifecycle, broker: Broker, request: TradeRequest)
    requires Matched(c, l, broker.orders) && Coupled(c, life, broker)
    requires ExitTerms(c, request) && ReservedFor(l.records, request)
    requires ValidateRequest(request, broker.position, OpensOf(life), c.q) == Pass
    ensures Poised(c, life, broker, request)
  {
    forall id | id in broker.orders ensures !broker.orders[id].Working() {
      var o := broker.orders[id];
      assert OrderMatches(c, l.records, id, o);
      assert TermsOf(c, o.event, l.records[o.event]);
      assert o.Working() ==> Carried(c, life, broker.position, o);
      assert o.Working() ==> o.signal == request.signal;
    }
  }

  // ------------------------------------------------------------------- frames

  lemma HelloKeepsFacts(c: Setup, w: World, f: Frame, link: Link)
    requires Inv(c, w) && w.process.Running? && f.Hello?
    ensures Facts(c, w, OnHello(c, w, f, link).process)
  {
    if Reconciled(c, w) {
      ReconciledSnapshot(c, LedgerOf(w), w.life, w.broker);
    }
  }

  lemma PendingExitIsReserved(c: Setup, l: Ledger, orders: map<OrderId, Order>)
    requires Matched(c, l, orders) && FindReservedExit(l).ReservedExit?
    ensures var request := RequestBehind(l, FindReservedExit(l).event);
            ExitTerms(c, request) && ReservedFor(l.records, request)
  {
    var e := FindReservedExit(l).event;
    assert TermsOf(c, e, l.records[e]);
  }

  /** Back to listening, in the same session or a wiped one. */
  predicate BackToIdle(p: Program, next: Program) {
    next.Running? && next.stage.Idle? && p.Running? && (next.session.hello ==> p.session.hello)
  }

  lemma IdleKeepsFacts(c: Setup, w: World, next: Program)
    requires Facts(c, w, w.process) && BackToIdle(w.process, next)
    requires w.process.stage.Waiting? && w.process.stage.purpose.EntryOrder? && next.session.hello ==>
               NoOpeningWorks(w.broker.orders)
    ensures Facts(c, w, next)
  {
  }

  /** What a heartbeat can lead to: listening, or the one pending exit checked. */
  lemma PendingLeadsTo(c: Setup, w: World, seqNo: nat, link: Link)
    requires w.process.Running? && w.process.stage.Idle?
    ensures var next, found := OnHeartbeat(c, w, seqNo, link).process, FindReservedExit(LedgerOf(w));
            || next.Down?
            || BackToIdle(w.process, next)
            || (next.Running? && next.session.hello == w.process.session.hello && found.ReservedExit?
                && next.stage == PendingChecked(RequestBehind(LedgerOf(w), found.event), seqNo))
  {
  }

  lemma HeartbeatKeepsFacts(c: Setup, w: World, seqNo: nat, link: Link)
    requires Inv(c, w) && w.process.Running? && w.process.stage.Idle? && w.process.session.hello
    ensures Facts(c, w, OnHeartbeat(c, w, seqNo, link).process)
  {
    var next := OnHeartbeat(c, w, seqNo, link).process;
    PendingLeadsTo(c, w, seqNo, link);
    if BackToIdle(w.process, next) {
      IdleKeepsFacts(c, w, next);
    } else if next.Running? {
      PendingExitIsReserved(c, LedgerOf(w), w.broker.orders);
    }
  }

  /** What an entry frame can lead to. */
  lemma EntryLeadsTo(c: Setup, w: World, f: Frame, link: Link)
    requires w.process.Running? && w.process.stage.Idle? && f.Entry?
    ensures var next := Receive(c, w, f, link).process;
            || next.Down?
            || BackToIdle(w.process, next)
            || (next.Running? && next.session.hello == w.process.session.hello
                && next.stage.ReplayedEntry? && EntryTerms(c, next.stage.request))
            || (next.Running? && next.session == w.process.session
                && next.stage.EntryConsumed? && EntryTerms(c, next.stage.request)
                && OpensOf(w.life) == NoneOpen && w.broker.position == 0)
  {
  }

  lemma EntryKeepsFacts(c: Setup, w: World, f: Frame, link: Link)
    requires Inv(c, w) && w.process.Running? && w.process.stage.Idle? && f.Entry?
    ensures Facts(c, w, Receive(c, w, f, link).process)
  {
    var next := Receive(c, w, f, link).process;
    EntryLeadsTo(c, w, f, link);
    if BackToIdle(w.process, next) {
      IdleKeepsFacts(c, w, next);
    } else if next.Running? && next.stage.EntryConsumed? {
      EmptySnapshot(c, w.life, w.broker);
    }
  }

  lemma LiveExitLeadsTo(c: Setup, w: World, f: Frame, link: Link)
    requires w.process.Running? && w.process.stage.Idle? && f.Exit? && f.event == c.exitOf(f.signal)
    ensures var next := OnLiveExit(c, w, f, link).process;
            || next.Down?
            || BackToIdle(w.process, next)
            || (next.Running? && next.session == w.process.session
                && next.stage.ExitConsumed? && ExitTerms(c, next.stage.request))
  {
  }

  lemma ReplayedExitLeadsTo(c: Setup, w: World, f: Frame, link: Link)
    requires w.process.Running? && w.process.stage.Idle? && f.Exit? && f.event == c.exitOf(f.signal)
    ensures var next := OnReplayedExit(c, w, f, link).process;
            || next.Down?
            || BackToIdle(w.process, next)
            || (next.Running? && next.session.hello == w.process.session.hello
                && (next.stage.ReplayedDurable?
                    || (next.stage.ReplayedFlat? && w.broker.position == 0)
                    || (next.stage.ReplayedExposed? && next.stage.event == c.exitOf(next.stage.signal))))
  {
  }

  lemma ExitKeepsFacts(c: Setup, w: World, f: Frame, link: Link)
    requires Inv(c, w) && w.process.Running? && w.process.stage.Idle? && w.process.session.hello
    requires f.Exit? && f.event == c.exitOf(f.signal)
    ensures Facts(c, w, Receive(c, w, f, link).process)
  {
    var next := Receive(c, w, f, link).process;
    LiveExitLeadsTo(c, w, f, link);
    ReplayedExitLeadsTo(c, w, f, link);
    if BackToIdle(w.process, next) {
      IdleKeepsFacts(c, w, next);
    } else if next.Running? && next.stage.ReplayedFlat? {
      FlatSnapshot(c, LedgerOf(w), w.life, w.broker);
    }
  }

  lemma FrameKeepsFacts(c: Setup, w: World, f: Frame, link: Link)
    requires Inv(c, w) && w.process.Running? && w.process.stage.Idle? && Assumed(c, w, Deliver(f, link))
    ensures Facts(c, w, Receive(c, w, f, link).process)
  {
    match f
    case Hello(_, _, _) => HelloKeepsFacts(c, w, f, link);
    case Heartbeat(seqNo) => HeartbeatKeepsFacts(c, w, seqNo, link);
    case Update(_, _) => IdleKeepsFacts(c, w, Receive(c, w, f, link).process);
    case Entry(_, _, _, _, _) => EntryKeepsFacts(c, w, f, link);
    case Exit(_, _, _) => ExitKeepsFacts(c, w, f, link);
  }

  // ------------------------------------------------- steps that only decide

  lemma ReviewKeepsFacts(c: Setup, w: World)
    requires Inv(c, w) && w.process.Running? && w.process.stage.OperatorReview?
    ensures Facts(c, w, Review(c, w))
  {
    if Review(c, w).Running? {
      var request := RequestBehind(LedgerOf(w), FindReservedExit(LedgerOf(w)).event);
      PendingExitIsReserved(c, LedgerOf(w), w.broker.orders);
      RecoveryIsValidatedClose(request, w.broker.position, OpensOf(w.life), w.process.recover, c.q);
      AdmittedCloseIsPoised(c, LedgerOf(w), w.life, w.broker, request);
    }
  }

  lemma ExitReservedKeepsFacts(c: Setup, w: World, valid: bool)
    requires Inv(c, w) && w.process.Running? && w.process.stage.ExitReserved?
    ensures Facts(c, w, OnContinue(c, w, valid).process)
  {
    if OnContinue(c, w, valid).process.Running? {
      AdmittedCloseIsPoised(c, LedgerOf(w), w.life, w.broker, w.process.stage.request);
    }
  }

  lemma PendingCheckedKeepsFacts(c: Setup, w: World, valid: bool)
    requires Inv(c, w) && w.process.Running? && w.process.stage.PendingChecked?
    ensures Facts(c, w, OnContinue(c, w, valid).process)
  {
    var request := w.process.stage.request;
    if w.broker.position == 0 {
      FlatSnapshot(c, LedgerOf(w), w.life, w.broker);
    } else if OnContinue(c, w, valid).process.Running? {
      RecoveryIsValidatedClose(request, w.broker.position, OpensOf(w.life), w.process.armed, c.q);
      AdmittedCloseIsPoised(c, LedgerOf(w), w.life, w.broker, request);
    }
  }

  /** Once the awaited record is FILLED its order has ended, and nothing else was at work. */
  lemma FilledMeansDone(c: Setup, l: Ledger, orders: map<OrderId, Order>, event: EventId)
    requires Matched(c, l, orders) && OnlyWorks(orders, event)
    requires event in l.records && l.records[event].status == Filled && l.records[event].brokerId.Some?
    ensures NothingWorking(orders)
    ensures var id := l.records[event].brokerId.value;
            id in orders && orders[id].event == event && orders[id].end == Some(Filled)
  {
    assert TrueOf(event, l.records[event], orders);
    forall id | id in orders ensures !orders[id].Working() {
      assert OrderMatches(c, l.records, id, orders[id]);
    }
  }

  lemma WaitingLeadsTo(c: Setup, w: World, valid: bool)
    requires w.process.Running? && w.process.stage.Waiting?
    ensures var purpose, request := w.process.stage.purpose, w.process.stage.request;
            var next := OnContinue(c, w, valid).process;
            next.Running? ==>
              && request.event in LedgerOf(w).records && LedgerOf(w).records[request.event].status == Filled
              && next == w.process.(stage := if purpose.EntryOrder? then Idle else CloseFilled(purpose, request))
  {
  }

  lemma WaitingKeepsFacts(c: Setup, w: World, valid: bool)
    requires Inv(c, w) && w.process.Running? && w.process.stage.Waiting?
    ensures Facts(c, w, OnContinue(c, w, valid).process)
  {
    WaitingLeadsTo(c, w, valid);
    var next := OnContinue(c, w, valid).process;
    if next.Running? {
      FilledMeansDone(c, LedgerOf(w), w.broker.orders, w.process.stage.request.event);
      if w.process.stage.purpose.EntryOrder? {
        IdleKeepsFacts(c, w, next);
      }
    }
  }

  /** Stages at which the program relies on nothing. */
  predicate Free(next: Program, session: Session) {
    match next
    case Down => true
    case Running(_, _, _, now, stage) =>
      (now.hello ==> session.hello) && (stage.Idle? || stage.HeartbeatTail? || stage.Preflight?)
  }

  lemma ListeningAgainLeadsTo(c: Setup, w: World, valid: bool)
    requires w.process.Running?
    requires w.process.stage.Preflight? || w.process.stage.ReplayedDurable? || w.process.stage.HeartbeatTail?
             || w.process.stage.CloseCommitted?
    ensures Free(OnContinue(c, w, valid).process, w.process.session)
  {
  }

  lemma FreeKeepsFacts(c: Setup, w: World, next: Program)
    requires Facts(c, w, w.process) && w.process.Running? && !w.process.stage.Waiting? && Free(next, w.process.session)
    ensures Facts(c, w, next)
  {
  }

  lemma ListeningAgainKeepsFacts(c: Setup, w: World, valid: bool)
    requires Inv(c, w) && w.process.Running?
    requires w.process.stage.Preflight? || w.process.stage.ReplayedDurable? || w.process.stage.HeartbeatTail?
             || w.process.stage.CloseCommitted?
    ensures Facts(c, w, OnContinue(c, w, valid).process)
  {
    ListeningAgainLeadsTo(c, w, valid);
    FreeKeepsFacts(c, w, OnContinue(c, w, valid).process);
  }

  // ------------------------------------------------- steps that write lifecycle

  /** The world after a lifecycle write. */
  ghost function Relived(c: Setup, w: World, valid: bool): World
    requires w.process.Running?
  {
    w.(life := LifeAfter(c, w, Continue(valid, true)), process := OnContinue(c, w, valid).process)
  }

  predicate LifeStage(stage: Stage) {
    match stage
    case ReplayedEntry(_) => true
    case ReplayedFlat(_, _, _) => true
    case EntryConsumed(_) => true
    case PendingFlat(_, _) => true
    case CloseFilled(_, _) => true
    case _ => false
  }

  lemma LifeStepLeadsTo(c: Setup, w: World, valid: bool)
    requires w.process.Running? && LifeStage(w.process.stage) && !w.process.stage.ReplayedEntry?
    ensures var next, stage := OnContinue(c, w, valid).process, w.process.stage;
            next.Running? ==>
              && next.session == w.process.session
              && (next.stage.Idle? || next.stage.ReplayedDurable? || next.stage.PendingClosed?
                  || next.stage.CloseCommitted?
                  || (stage.EntryConsumed? && next.stage == EntryCommitted(stage.request)
                      && OpenFor(LifeAfter(c, w, Continue(valid, true)), stage.request)))
  {
  }

  lemma FlatLifeStepKeepsInv(c: Setup, w: World, valid: bool)
    requires Inv(c, w) && w.process.Running? && LifeStage(w.process.stage) && !w.process.stage.ReplayedEntry?
    ensures Inv(c, Relived(c, w, valid))
  {
    LifeStepLeadsTo(c, w, valid);
    FlatIsCoupled(c, LifeAfter(c, w, Continue(valid, true)), w.broker);
  }

  lemma ReplayedEntryKeepsInv(c: Setup, w: World, valid: bool)
    requires Inv(c, w) && w.process.Running? && w.process.stage.ReplayedEntry?
    ensures Inv(c, Relived(c, w, valid))
  {
    OpeningGrowsLife(w.life, w.process.stage.request);
    GrowthKeepsCoupled(c, w.life, Relived(c, w, valid).life, w.broker);
  }

  lemma LifeStageKeepsInv(c: Setup, w: World, valid: bool)
    requires Inv(c, w) && w.process.Running? && LifeStage(w.process.stage)
    ensures Inv(c, Relived(c, w, valid))
  {
    if w.process.stage.ReplayedEntry? {
      ReplayedEntryKeepsInv(c, w, valid);
    } else {
      FlatLifeStepKeepsInv(c, w, valid);
    }
  }

  // ------------------------------------------------- steps that run the core

  /** The world after a step of the execution core that leaves the broker alone. */
  ghost function Recored(c: Setup, w: World, valid: bool): World
    requires w.process.Running? && CoreContinue(c, w, valid).Some?
    requires Core.Enabled(w.core, CoreContinue(c, w, valid).value)
  {
    w.(core := Core.Next(w.core, CoreContinue(c, w, valid).value), process := OnContinue(c, w, valid).process)
  }

  lemma IssueKeepsInv(c: Setup, w: World, valid: bool)
    requires Inv(c, w) && w.process.Running? && CoreContinue(c, w, valid) == Some(Core.Issue)
    requires Core.Enabled(w.core, Core.Issue)
    ensures Inv(c, Recored(c, w, valid))
  {
    Core.StepKeepsSound(w.core, Core.Issue);
  }

  /** The request a step reserves, if it reserves one. */
  ghost predicate Reserving(c: Setup, w: World, valid: bool, request: TradeRequest)
    requires w.process.Running?
  {
    CoreContinue(c, w, valid) == Some(Core.ReserveEvent(request))
  }

  lemma ReservingLeadsTo(c: Setup, w: World, valid: bool, request: TradeRequest)
    requires w.process.Running? && Reserving(c, w, valid, request) && w.core.placing.None?
    ensures var next, stage := OnContinue(c, w, valid).process, w.process.stage;
            var ledger := Recored(c, w, valid).core.client.ledger;
            && (ledger == LedgerOf(w) || ledger == After(LedgerOf(w), Reserve(LedgerOf(w), request)))
            && (next.Running? ==>
                  && ReservedFor(ledger.records, request)
                  && next.session == w.process.session
                  && ((stage.ReplayedExposed? && next.stage.ReplayedDurable?)
                      || (stage == EntryCommitted(request) && next.stage == EntryReserved(request))
                      || (stage == ExitConsumed(request) && next.stage == ExitReserved(request))))
  {
  }

  lemma ReservedRequestIsSound(c: Setup, w: World, valid: bool, request: TradeRequest)
    requires ProgramFact(c, w.core, w.broker.orders, w.process) && w.process.Running? && Reserving(c, w, valid, request)
    ensures request.symbol == SYMBOL && request.quantity == c.q
    ensures request.intent.Closing() ==> request.event == c.exitOf(request.signal)
  {
  }

  lemma ReservingKeepsInv(c: Setup, w: World, valid: bool, request: TradeRequest)
    requires Inv(c, w) && w.process.Running? && Reserving(c, w, valid, request) && w.core.placing.None?
    ensures Inv(c, Recored(c, w, valid))
  {
    Core.StepKeepsSound(w.core, Core.ReserveEvent(request));
    ReservingLeadsTo(c, w, valid, request);
    ReservedRequestIsSound(c, w, valid, request);
    ReservationKeepsMatch(c, LedgerOf(w), w.broker.orders, request);
  }

  lemma BeginningLeadsTo(c: Setup, w: World, valid: bool, request: TradeRequest)
    requires w.process.Running? && CoreContinue(c, w, valid) == Some(Core.Begin(request, valid))
    requires w.core.placing.None? && w.core.issued.Some?
    ensures var next, stage, core := OnContinue(c, w, valid).process, w.process.stage, Recored(c, w, valid).core;
            && core.client.ledger == BeginSubmission(w.core.client, request, w.core.issued.value, valid).client.ledger
            && (next.Running? ==>
                  && core.placing == Some(OrderFor(request, w.core.issued.value))
                  && SentFor(core.client.ledger.records, request, w.core.issued.value)
                  && ((stage == EntryReserved(request) && next == w.process.(stage := Sending(EntryOrder, request)))
                      || (stage.CloseApproved? && stage.request == request
                          && next == w.process.(stage := Sending(stage.purpose, request)))))
  {
  }

  lemma BegunRequestIsReserved(c: Setup, w: World, valid: bool, request: TradeRequest)
    requires ProgramFact(c, w.core, w.broker.orders, w.process)
    requires w.process.Running? && CoreContinue(c, w, valid) == Some(Core.Begin(request, valid))
    ensures ReservedFor(LedgerOf(w).records, request)
    ensures if w.process.stage.EntryReserved? then EntryTerms(c, request)
            else w.process.stage.CloseApproved? && !w.process.stage.purpose.EntryOrder? && ExitTerms(c, request)
  {
  }

  lemma ReservedHasNoId(m: Core.Machine, event: EventId)
    requires Core.Sound(m) && event in m.client.ledger.records && m.client.ledger.records[event].status == Reserved
    ensures m.client.ledger.records[event].brokerId.None?
  {
  }

  lemma BeginKeepsMatch(c: Setup, client: Client, orders: map<OrderId, Order>, request: TradeRequest, id: OrderId,
                        valid: bool)
    requires Matched(c, client.ledger, orders) && ReservedFor(client.ledger.records, request)
    requires client.ledger.records[request.event].brokerId.None?
    ensures Matched(c, BeginSubmission(client, request, id, valid).client.ledger, orders)
    ensures NotOrdered(orders, request.event)
  {
    BeginWritesOnce(client, request, id, valid);
    LeavingReservedKeepsMatch(c, client.ledger, orders, request.event, Rejected, None);
    LeavingReservedKeepsMatch(c, client.ledger, orders, request.event, Submitted, Some(id));
  }

  lemma BeginningKeepsFacts(c: Setup, w: World, valid: bool, request: TradeRequest)
    requires Facts(c, w, w.process) && w.process.Running?
    requires CoreContinue(c, w, valid) == Some(Core.Begin(request, valid))
    requires w.core.placing.None? && w.core.issued.Some? && NotOrdered(w.broker.orders, request.event)
    ensures Facts(c, Recored(c, w, valid), OnContinue(c, w, valid).process)
  {
    BegunRequestIsReserved(c, w, valid, request);
    BeginningLeadsTo(c, w, valid, request);
  }

  lemma BeginningKeepsInv(c: Setup, w: World, valid: bool, request: TradeRequest)
    requires Inv(c, w) && w.process.Running? && CoreContinue(c, w, valid) == Some(Core.Begin(request, valid))
    requires w.core.placing.None? && w.core.issued.Some?
    ensures Inv(c, Recored(c, w, valid))
  {
    Core.StepKeepsSound(w.core, Core.Begin(request, valid));
    BegunRequestIsReserved(c, w, valid, request);
    ReservedHasNoId(w.core, request.event);
    BeginKeepsMatch(c, w.core.client, w.broker.orders, request, w.core.issued.value, valid);
    BeginningKeepsFacts(c, w, valid, request);
  }

  lemma ResolvingKeepsInv(c: Setup, w: World, valid: bool, event: EventId)
    requires Inv(c, w) && w.process.Running? && CoreContinue(c, w, valid) == Some(Core.ResolveUnsent(event))
    requires Core.Enabled(w.core, Core.ResolveUnsent(event))
    ensures Inv(c, Recored(c, w, valid))
  {
    Core.StepKeepsSound(w.core, Core.ResolveUnsent(event));
    ReservedHasNoId(w.core, event);
    LeavingReservedKeepsMatch(c, LedgerOf(w), w.broker.orders, event, Rejected, None);
  }

  // ------------------------------------------------------- the order goes out

  ghost function Sent(c: Setup, w: World, valid: bool, reached: bool): World
    requires w.process.Running? && w.process.stage.Sending? && w.core.placing.Some?
  {
    w.(core := Core.Next(w.core, Core.Place),
       broker := BrokerAfter(c, w, Continue(valid, reached)),
       process := OnContinue(c, w, valid).process)
  }

  lemma NewOrderKeepsMatch(c: Setup, l: Ledger, orders: map<OrderId, Order>, request: TradeRequest, id: OrderId)
    requires Matched(c, l, orders) && UniqueIds(l)
    requires SentFor(l.records, request, id) && NotOrdered(orders, request.event)
    ensures Matched(c, l, orders[id := Order(request.event, request.signal, request.intent, 0, None)])
  {
    assert id in orders ==> OrderMatches(c, l.records, id, orders[id]);
    var longer := orders[id := Order(request.event, request.signal, request.intent, 0, None)];
    forall e | e in l.records ensures TrueOf(e, l.records[e], longer) {
      assert TrueOf(e, l.records[e], orders);
    }
    assert OrdersMatch(c, l, longer);
  }

  /** A new order, unfilled, is carried: an opening starts flat, a close from the full quantity. */
  lemma NewOrderKeepsCoupled(c: Setup, life: Lifecycle, broker: Broker, request: TradeRequest, id: OrderId, entry: bool)
    requires if entry then Flat(broker) && OpenFor(life, request) && !request.intent.Closing()
             else Poised(c, life, broker, request) && request.intent.Closing()
    ensures var o := Order(request.event, request.signal, request.intent, 0, None);
            Coupled(c, life, broker.(orders := broker.orders[id := o]))
  {
    var o := Order(request.event, request.signal, request.intent, 0, None);
    assert Carried(c, life, broker.position, o);
  }

  lemma SentKeepsBroker(c: Setup, w: World, valid: bool, reached: bool)
    requires Matched(c, LedgerOf(w), w.broker.orders) && UniqueIds(LedgerOf(w)) && Coupled(c, w.life, w.broker)
    requires Facts(c, w, w.process) && w.process.Running? && w.process.stage.Sending? && w.core.placing.Some?
    ensures var broker := BrokerAfter(c, w, Continue(valid, reached));
            Matched(c, LedgerOf(w), broker.orders) && Coupled(c, w.life, broker)
  {
    if reached {
      var request, id := w.process.stage.request, w.core.placing.value.orderId;
      var entry := w.process.stage.purpose.EntryOrder?;
      NewOrderKeepsMatch(c, LedgerOf(w), w.broker.orders, request, id);
      NewOrderKeepsCoupled(c, w.life, w.broker, request, id, entry);
    }
  }

  lemma SendKeepsInv(c: Setup, w: World, valid: bool, reached: bool)
    requires Inv(c, w) && w.process.Running? && w.process.stage.Sending? && w.core.placing.Some?
    ensures Inv(c, Sent(c, w, valid, reached))
  {
    Core.StepKeepsSound(w.core, Core.Place);
    SentKeepsBroker(c, w, valid, reached);
    SentKeepsFacts(c, w, valid, reached);
  }

  lemma SentKeepsFacts(c: Setup, w: World, valid: bool, reached: bool)
    requires Facts(c, w, w.process) && w.process.Running? && w.process.stage.Sending? && w.core.placing.Some?
    ensures Facts(c, Sent(c, w, valid, reached), OnContinue(c, w, valid).process)
  {
  }

  // -------------------------------------------------------- one step of the program

  lemma ReservedOrIssued(c: Setup, w: World, valid: bool)
    requires w.process.Running? && CoreContinue(c, w, valid).Some?
    requires Core.Enabled(w.core, CoreContinue(c, w, valid).value)
    ensures match CoreContinue(c, w, valid).value
            case Issue => true
            case ReserveEvent(_) => w.core.placing.None?
            case Begin(_, v) => w.core.placing.None? && w.core.issued.Some? && v == valid
            case ResolveUnsent(_) => true
            case Place => w.process.stage.Sending? && w.core.placing.Some?
            case _ => false
  {
  }

  lemma CoreStageKeepsInv(c: Setup, w: World, valid: bool)
    requires Inv(c, w) && w.process.Running? && !w.process.stage.Sending? && CoreContinue(c, w, valid).Some?
    requires Core.Enabled(w.core, CoreContinue(c, w, valid).value)
    ensures Inv(c, Recored(c, w, valid))
  {
    ReservedOrIssued(c, w, valid);
    match CoreContinue(c, w, valid).value
    case Issue => IssueKeepsInv(c, w, valid);
    case ReserveEvent(request) => ReservingKeepsInv(c, w, valid, request);
    case Begin(request, _) => BeginningKeepsInv(c, w, valid, request);
    case ResolveUnsent(event) => ResolvingKeepsInv(c, w, valid, event);
  }

  /** The stages whose step only decides. */
  predicate DecidingStage(stage: Stage) {
    match stage
    case OperatorReview => true
    case Preflight => true
    case ReplayedDurable(_, _, _) => true
    case ExitReserved(_) => true
    case PendingChecked(_, _) => true
    case Waiting(_, _) => true
    case CloseCommitted(_, _) => true
    case HeartbeatTail(_) => true
    case _ => false
  }

  lemma DecisionKeepsFacts(c: Setup, w: World, valid: bool)
    requires Inv(c, w) && w.process.Running? && DecidingStage(w.process.stage)
    ensures Facts(c, w, OnContinue(c, w, valid).process)
  {
    if w.process.stage.OperatorReview? {
      ReviewKeepsFacts(c, w);
    } else if w.process.stage.ExitReserved? {
      ExitReservedKeepsFacts(c, w, valid);
    } else if w.process.stage.PendingChecked? {
      PendingCheckedKeepsFacts(c, w, valid);
    } else if w.process.stage.Waiting? {
      WaitingKeepsFacts(c, w, valid);
    } else {
      ListeningAgainKeepsFacts(c, w, valid);
    }
  }

  lemma DecisionKeepsInv(c: Setup, w: World, valid: bool)
    requires Inv(c, w) && w.process.Running? && DecidingStage(w.process.stage)
    ensures Inv(c, w.(process := OnContinue(c, w, valid).process))
  {
    DecisionKeepsFacts(c, w, valid);
  }

  /** A step of the program writes the lifecycle, runs the core, sends, or only decides. */
  lemma ContinueShape(c: Setup, w: World, valid: bool, reached: bool)
    requires Enabled(c, w, Continue(valid, reached))
    ensures var next, action := Next(c, w, Continue(valid, reached)), CoreContinue(c, w, valid);
            && (action.Some? ==> Core.Enabled(w.core, action.value))
            && (w.process.stage.Sending? ==>
                  w.core.placing.Some? && next == Sent(c, w, valid, reached).(store := next.store))
            && (!w.process.stage.Sending? ==>
                  if action.Some? then next == Recored(c, w, valid).(store := next.store)
                  else if LifeStage(w.process.stage) then next == Relived(c, w, valid).(store := next.store)
                  else next == w.(process := OnContinue(c, w, valid).process, store := next.store))
  {
  }

  lemma StoreIsFree(c: Setup, w: World, n: World)
    requires Inv(c, w) && n == w.(store := n.store)
    ensures Inv(c, n)
  {
  }

  lemma SendingKeepsInv(c: Setup, w: World, valid: bool, reached: bool)
    requires Inv(c, w) && Enabled(c, w, Continue(valid, reached)) && w.process.stage.Sending?
    ensures Inv(c, Next(c, w, Continue(valid, reached)))
  {
    ContinueShape(c, w, valid, reached);
    SendKeepsInv(c, w, valid, reached);
    StoreIsFree(c, Sent(c, w, valid, reached), Next(c, w, Continue(valid, reached)));
  }

  lemma CoreStepKeepsInv(c: Setup, w: World, valid: bool, reached: bool)
    requires Inv(c, w) && Enabled(c, w, Continue(valid, reached)) && !w.process.stage.Sending?
    requires CoreContinue(c, w, valid).Some?
    ensures Inv(c, Next(c, w, Continue(valid, reached)))
  {
    ContinueShape(c, w, valid, reached);
    CoreStageKeepsInv(c, w, valid);
    StoreIsFree(c, Recored(c, w, valid), Next(c, w, Continue(valid, reached)));
  }

  lemma StoppedKeepsInv(c: Setup, w: World)
    requires Inv(c, w)
    ensures Inv(c, w.(process := Down))
  {
  }

  lemma LifeStepKeepsInv(c: Setup, w: World, valid: bool, reached: bool)
    requires Inv(c, w) && Enabled(c, w, Continue(valid, reached)) && LifeStage(w.process.stage)
    ensures Inv(c, Next(c, w, Continue(valid, reached)))
  {
    LifeStageIsQuiet(c, w, valid);
    ContinueShape(c, w, valid, reached);
    LifeStageKeepsInv(c, w, valid);
    StoreIsFree(c, Relived(c, w, valid), Next(c, w, Continue(valid, reached)));
  }

  lemma LifeStageIsQuiet(c: Setup, w: World, valid: bool)
    requires w.process.Running? && LifeStage(w.process.stage)
    ensures CoreContinue(c, w, valid).None? && !w.process.stage.Sending?
  {
  }

  /** Neither the lifecycle, nor the core, nor the broker moves. */
  predicate ProcessStage(w: World) {
    match w
    case World(_, _, _, _, process) => process.Running? && !LifeStage(process.stage) && !process.stage.Sending?
  }

  lemma ProcessStepShape(c: Setup, w: World, valid: bool, reached: bool)
    requires Enabled(c, w, Continue(valid, reached)) && ProcessStage(w) && CoreContinue(c, w, valid).None?
    ensures var next := Next(c, w, Continue(valid, reached));
            next == w.(process := OnContinue(c, w, valid).process).(store := next.store)
    ensures !DecidingStage(w.process.stage) ==> OnContinue(c, w, valid).process.Down?
  {
  }

  lemma ProcessStepKeepsInv(c: Setup, w: World, valid: bool, reached: bool)
    requires Inv(c, w) && Enabled(c, w, Continue(valid, reached))
    requires ProcessStage(w) && CoreContinue(c, w, valid).None?
    ensures Inv(c, Next(c, w, Continue(valid, reached)))
  {
    ProcessStepShape(c, w, valid, reached);
    if DecidingStage(w.process.stage) {
      DecisionKeepsInv(c, w, valid);
    } else {
      StoppedKeepsInv(c, w);
    }
    StoreIsFree(c, w.(process := OnContinue(c, w, valid).process), Next(c, w, Continue(valid, reached)));
  }

  lemma ContinueKeepsInv(c: Setup, w: World, valid: bool, reached: bool)
    requires Inv(c, w) && Enabled(c, w, Continue(valid, reached))
    ensures Inv(c, Next(c, w, Continue(valid, reached)))
  {
    if w.process.stage.Sending? {
      SendingKeepsInv(c, w, valid, reached);
    } else if CoreContinue(c, w, valid).Some? {
      CoreStepKeepsInv(c, w, valid, reached);
    } else if LifeStage(w.process.stage) {
      LifeStepKeepsInv(c, w, valid, reached);
    } else {
      ProcessStepKeepsInv(c, w, valid, reached);
    }
  }

  // --------------------------------------------------- steps of everyone else

  /** Ids observed, executions recorded, a handshake: neither ledger nor pending call moves. */
  lemma QuietCoreKeepsInv(c: Setup, w: World, core: Core.Machine)
    requires Inv(c, w) && Core.Sound(core)
    requires core.client.ledger == w.core.client.ledger && core.placing == w.core.placing
    ensures Inv(c, w.(core := core))
  {
  }

  lemma BootedKeepsInv(c: Setup, w: World, stage: Stage)
    requires Inv(c, w) && w.process.Running? && w.process.stage.Booting? && (stage.OperatorReview? || stage.Preflight?)
    ensures Inv(c, w.(process := w.process.(stage := stage)))
  {
  }

  lemma ConnectShape(c: Setup, w: World, id: OrderId)
    requires Enabled(c, w, ConnectIB(id))
    ensures var next, core := Next(c, w, ConnectIB(id)), Core.Next(w.core, Core.Connect(id));
            && core.client == w.core.client && core.placing == w.core.placing
            && if !w.process.stage.Booting? then next == w.(core := core)
               else next == w.(core := core, process :=
                                 w.process.(stage := if w.process.recover then OperatorReview else Preflight))
  {
  }

  lemma ConnectKeepsInv(c: Setup, w: World, id: OrderId)
    requires Inv(c, w) && Enabled(c, w, ConnectIB(id))
    ensures Inv(c, Next(c, w, ConnectIB(id)))
  {
    var core := Core.Next(w.core, Core.Connect(id));
    ConnectShape(c, w, id);
    Core.AllocatorStep(w.core, Core.Connect(id));
    QuietCoreKeepsInv(c, w, core);
    if w.process.stage.Booting? {
      BootedKeepsInv(c, w.(core := core), if w.process.recover then OperatorReview else Preflight);
    }
  }

  lemma ReportKeepsRequest(c: Setup, before: Core.Machine, after: Core.Machine, orders: map<OrderId, Order>, p: Program)
    requires ProgramFact(c, before, orders, p) && after.placing == before.placing
    requires Extends(before.client.ledger, after.client.ledger)
    requires forall e :: e in before.client.ledger.records && before.client.ledger.records[e].status == Reserved ==>
                           after.client.ledger.records[e] == before.client.ledger.records[e]
    ensures ProgramFact(c, after, orders, p)
  {
  }

  lemma ReportKeepsInv(c: Setup, w: World, r: Callbacks.Report)
    requires Inv(c, w) && Enabled(c, w, Report(r)) && Truthful(c, w, r)
    ensures Inv(c, Next(c, w, Report(r)))
  {
    var core := Core.Next(w.core, Core.Callback(r));
    Core.StepKeepsSound(w.core, Core.Callback(r));
    CallbackLedger(w.core, r);
    CallbackExtends(w.core, r);
    CallbackKeepsMatch(c, w, r);
    forall e | e in LedgerOf(w).records && LedgerOf(w).records[e].status == Reserved
      ensures e in core.client.ledger.records && core.client.ledger.records[e] == LedgerOf(w).records[e]
    {
      CallbackSparesReserved(w.core, r, e);
    }
    ReportKeepsRequest(c, w.core, core, w.broker.orders, w.process);
  }

  lemma InsertKeepsInv(c: Setup, w: World)
    requires Inv(c, w) && Enabled(c, w, InsertRow)
    ensures Inv(c, Next(c, w, InsertRow))
  {
    Core.StepKeepsSound(w.core, Core.InsertRow);
    QuietCoreKeepsInv(c, w, Core.Next(w.core, Core.InsertRow));
  }

  lemma ObserveKeepsInv(c: Setup, w: World, id: OrderId)
    requires Inv(c, w) && Enabled(c, w, ObserveId(id))
    ensures Inv(c, Next(c, w, ObserveId(id)))
  {
    Core.StepKeepsSound(w.core, Core.ObserveId(id));
    QuietCoreKeepsInv(c, w, Core.Next(w.core, Core.ObserveId(id)));
  }

  lemma StartupOnlyBoots(c: Setup, w: World, armed: bool, recover: bool)
    ensures var p := Startup(c, w, armed, recover); p.Running? ==> p.stage.Booting? && !p.session.hello
  {
  }

  lemma RestartedKeepsInv(c: Setup, w: World, core: Core.Machine, p: Program)
    requires Inv(c, w) && Core.Sound(core) && core.client.ledger == w.core.client.ledger
    requires p.Running? ==> p.stage.Booting? && !p.session.hello
    ensures Inv(c, w.(core := core, process := p))
  {
  }

  lemma StartKeepsInv(c: Setup, w: World, armed: bool, recover: bool)
    requires Inv(c, w) && Enabled(c, w, Start(armed, recover))
    ensures Inv(c, Next(c, w, Start(armed, recover)))
  {
    Core.StepKeepsSound(w.core, Core.Crash);
    StartupOnlyBoots(c, w, armed, recover);
    RestartedKeepsInv(c, w, Core.Next(w.core, Core.Crash), Startup(c, w, armed, recover));
  }

  lemma LeavingKeepsInv(c: Setup, w: World, a: Action)
    requires Inv(c, w) && Enabled(c, w, a) && (a.GiveUpOnIB? || a.Disconnect? || a.Fail?)
    ensures Inv(c, Next(c, w, a))
  {
    var next := Next(c, w, a).process;
    if next.Running? {
      IdleKeepsFacts(c, w, next);
    }
  }

  predicate AwaitsClose(p: Program) {
    match p
    case Down => false
    case Running(_, _, _, _, stage) => stage.Waiting? && !stage.purpose.EntryOrder?
  }

  /** The order being waited for is a closing one when the wait is for a close. */
  lemma AwaitedOrderCloses(c: Setup, w: World, id: OrderId)
    requires OrdersMatch(c, LedgerOf(w), w.broker.orders) && Facts(c, w, w.process)
    requires id in w.broker.orders && w.broker.orders[id].Working() && AwaitsClose(w.process)
    ensures w.broker.orders[id].intent.Closing()
  {
    assert OrderMatches(c, LedgerOf(w).records, id, w.broker.orders[id]);
  }

  lemma OrderIsMatched(c: Setup, l: Ledger, orders: map<OrderId, Order>, id: OrderId)
    requires Matched(c, l, orders) && id in orders
    ensures OrderMatches(c, l.records, id, orders[id])
  {
  }

  lemma OrderProgressKeepsMatch(c: Setup, l: Ledger, orders: map<OrderId, Order>, id: OrderId, o: Order)
    requires Matched(c, l, orders) && id in orders && orders[id].Working()
    requires o.event == orders[id].event && o.signal == orders[id].signal && o.intent == orders[id].intent
    requires 0 <= o.filled <= c.q && (o.Working() ==> o.filled < c.q) && (o.end == Some(Filled) ==> o.filled == c.q)
    ensures Matched(c, l, orders[id := o])
  {
    assert OrderMatches(c, l.records, id, orders[id]);
    forall e | e in l.records ensures TrueOf(e, l.records[e], orders[id := o]) {
      assert TrueOf(e, l.records[e], orders);
    }
    assert OrdersMatch(c, l, orders[id := o]);
  }

  lemma RequestIgnoresProgress(c: Setup, core: Core.Machine, orders: map<OrderId, Order>, id: OrderId, o: Order,
                               p: Program)
    requires ProgramFact(c, core, orders, p) && id in orders && o.event == orders[id].event
    ensures ProgramFact(c, core, orders[id := o], p)
  {
  }

  lemma FilledWorldKeepsInv(c: Setup, w: World, id: OrderId, n: int)
    requires Inv(c, w) && id in w.broker.orders && w.broker.orders[id].Working()
    requires OrderMatches(c, LedgerOf(w).records, id, w.broker.orders[id]) && 0 < n <= c.q - w.broker.orders[id].filled
    requires AwaitsClose(w.process) ==> w.broker.orders[id].intent.Closing()
    ensures Inv(c, w.(broker := FillOrder(c, w.broker, id, n)))
  {
    var after := FillOrder(c, w.broker, id, n);
    FillKeepsCoupled(c, w.life, w.broker, id, n);
    FillKeepsStage(c, w.life, w.broker, id, n, w.process);
    OrderProgressKeepsMatch(c, LedgerOf(w), w.broker.orders, id, after.orders[id]);
    RequestIgnoresProgress(c, w.core, w.broker.orders, id, after.orders[id], w.process);
  }

  lemma FillKeepsInv(c: Setup, w: World, id: OrderId, n: int)
    requires Inv(c, w) && Enabled(c, w, Fills(id, n))
    ensures Inv(c, Next(c, w, Fills(id, n)))
  {
    OrderIsMatched(c, LedgerOf(w), w.broker.orders, id);
    if AwaitsClose(w.process) {
      AwaitedOrderCloses(c, w, id);
    }
    FilledWorldKeepsInv(c, w, id, n);
    assert Next(c, w, Fills(id, n)) == w.(broker := FillOrder(c, w.broker, id, n));
  }

  lemma EndedWorldKeepsInv(c: Setup, w: World, id: OrderId, how: Status)
    requires Inv(c, w) && id in w.broker.orders && w.broker.orders[id].Working() && how != Filled
    requires OrderMatches(c, LedgerOf(w).records, id, w.broker.orders[id])
    ensures Inv(c, w.(broker := EndOrder(w.broker, id, how)))
  {
    var after := EndOrder(w.broker, id, how);
    EndKeepsCoupled(c, w.life, w.broker, id, how);
    EndKeepsStage(c, w.life, w.broker, id, how, w.process);
    OrderProgressKeepsMatch(c, LedgerOf(w), w.broker.orders, id, after.orders[id]);
    RequestIgnoresProgress(c, w.core, w.broker.orders, id, after.orders[id], w.process);
  }

  lemma EndKeepsInv(c: Setup, w: World, id: OrderId, how: Status)
    requires Inv(c, w) && Enabled(c, w, Ends(id, how))
    ensures Inv(c, Next(c, w, Ends(id, how)))
  {
    OrderIsMatched(c, LedgerOf(w), w.broker.orders, id);
    EndedWorldKeepsInv(c, w, id, how);
    assert Next(c, w, Ends(id, how)) == w.(broker := EndOrder(w.broker, id, how));
  }

  lemma FlattenKeepsInv(c: Setup, w: World)
    requires Inv(c, w) && Enabled(c, w, Flatten) && Assumed(c, w, Flatten)
    ensures Inv(c, Next(c, w, Flatten))
  {
    FlatIsCoupled(c, w.life, w.broker.(position := 0));
    assert Facts(c, w.(broker := w.broker.(position := 0)), w.process);
  }

  lemma DeliverKeepsInv(c: Setup, w: World, f: Frame, link: Link)
    requires Inv(c, w) && Enabled(c, w, Deliver(f, link)) && Assumed(c, w, Deliver(f, link))
    ensures Inv(c, Next(c, w, Deliver(f, link)))
  {
    FrameKeepsFacts(c, w, f, link);
  }

  /** Steps of the broker and the operator. */
  predicate AtBroker(a: Action) {
    a.Fills? || a.Ends? || a.Flatten?
  }

  /** Steps of the callback thread. */
  predicate OnCallbackThread(a: Action) {
    a.Report? || a.InsertRow? || a.ObserveId?
  }

  lemma BrokerStepKeepsInv(c: Setup, w: World, a: Action)
    requires Inv(c, w) && Enabled(c, w, a) && Assumed(c, w, a) && AtBroker(a)
    ensures Inv(c, Next(c, w, a))
  {
    if a.Fills? {
      FillKeepsInv(c, w, a.id, a.quantity);
    } else if a.Ends? {
      EndKeepsInv(c, w, a.id, a.how);
    } else {
      FlattenKeepsInv(c, w);
    }
  }

  lemma CallbackStepKeepsInv(c: Setup, w: World, a: Action)
    requires Inv(c, w) && Enabled(c, w, a) && Assumed(c, w, a) && OnCallbackThread(a)
    ensures Inv(c, Next(c, w, a))
  {
    if a.Report? {
      ReportKeepsInv(c, w, a.report);
    } else if a.InsertRow? {
      InsertKeepsInv(c, w);
    } else {
      ObserveKeepsInv(c, w, a.id);
    }
  }

  lemma ProgramStepKeepsInv(c: Setup, w: World, a: Action)
    requires Inv(c, w) && Enabled(c, w, a) && !AtBroker(a) && !OnCallbackThread(a) && !a.Deliver?
    ensures Inv(c, Next(c, w, a))
  {
    if a.Continue? {
      ContinueKeepsInv(c, w, a.contractValid, a.reached);
    } else if a.Start? {
      StartKeepsInv(c, w, a.armed, a.recover);
    } else if a.ConnectIB? {
      ConnectKeepsInv(c, w, a.nextValidId);
    } else {
      LeavingKeepsInv(c, w, a);
    }
  }

  lemma StepKeepsInv(c: Setup, w: World, a: Action)
    requires Inv(c, w) && Enabled(c, w, a) && Assumed(c, w, a)
    ensures Inv(c, Next(c, w, a))
  {
    if AtBroker(a) {
      BrokerStepKeepsInv(c, w, a);
    } else if OnCallbackThread(a) {
      CallbackStepKeepsInv(c, w, a);
    } else if a.Deliver? {
      DeliverKeepsInv(c, w, a.frame, a.link);
    } else {
      ProgramStepKeepsInv(c, w, a);
    }
  }

  // ----------------------------------------------------------------- theorems

  lemma {:induction false} RunsKeepInv(c: Setup, run: seq<Action>, w: World)
    requires Leads(c, run, w) && AssumedThroughout(c, run)
    ensures Inv(c, w)
  {
    if run != [] {
      var before := EndOf(c, run[..|run| - 1]).value;
      RunsKeepInv(c, run[..|run| - 1], before);
      StepKeepsInv(c, before, run[|run| - 1]);
    }
  }

  lemma WorkingIsCovered(c: Setup, w: World)
    requires Inv(c, w)
    ensures Covered(c, w.life, w.broker.position)
  {
    if !NothingWorking(w.broker.orders) {
      var id :| id in w.broker.orders && w.broker.orders[id].Working();
      assert OrderMatches(c, LedgerOf(w).records, id, w.broker.orders[id]);
      CarriedIsCovered(c, w.life, w.broker.position, w.broker.orders[id]);
    }
  }

  predicate WorksAt(broker: Broker, id: OrderId) {
    id in broker.orders && broker.orders[id].Working()
  }

  lemma WorkingOrderFits(c: Setup, w: World, id: OrderId)
    requires Inv(c, w) && WorksAt(w.broker, id)
    ensures var o := w.broker.orders[id];
            -(c.q as int) <= w.broker.position + o.intent.Sign() * (c.q - o.filled) <= c.q
    ensures forall j :: WorksAt(w.broker, j) ==> j == id
  {
    assert OrderMatches(c, LedgerOf(w).records, id, w.broker.orders[id]);
    assert Carried(c, w.life, w.broker.position, w.broker.orders[id]);
  }

  /** No orphan exposure: in every reachable state, with a crash between any two durable
      writes, a position has an open lifecycle signal on its side. */
  lemma NoOrphanExposure(c: Setup, run: seq<Action>, w: World)
    requires Leads(c, run, w) && AssumedThroughout(c, run)
    ensures w.broker.position > 0 ==> exists s :: s in w.life && w.life[s].state == LongOpen
    ensures w.broker.position < 0 ==> exists s :: s in w.life && w.life[s].state == ShortOpen
  {
    RunsKeepInv(c, run, w);
    WorkingIsCovered(c, w);
  }

  /** Exposure bound: the position never leaves the approved range, at most one order has an
      unfilled remainder, and even filling that remainder stays within the range. */
  lemma ExposureBound(c: Setup, run: seq<Action>, w: World)
    requires Leads(c, run, w) && AssumedThroughout(c, run)
    ensures -(c.q as int) <= w.broker.position <= c.q
    ensures forall i, j :: WorksAt(w.broker, i) && WorksAt(w.broker, j) ==> i == j
    ensures forall i :: WorksAt(w.broker, i) ==>
                          var o := w.broker.orders[i];
                          -(c.q as int) <= w.broker.position + o.intent.Sign() * (c.q - o.filled) <= c.q
  {
    RunsKeepInv(c, run, w);
    WorkingIsCovered(c, w);
    forall i | WorksAt(w.broker, i)
      ensures forall j :: WorksAt(w.broker, j) ==> j == i
      ensures var o := w.broker.orders[i];
              -(c.q as int) <= w.broker.position + o.intent.Sign() * (c.q - o.filled) <= c.q
    {
      WorkingOrderFits(c, w, i);
    }
  }
}
