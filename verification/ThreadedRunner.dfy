/** The trader with the ledger work of both threads taken apart: the runner thread checks,
    reads and writes in separate steps, the IB thread finds, reads and writes in separate
    steps, and the program, the broker, Eagle and the operator act between any two of them.
    Every such run is a run of `Runners`, so the exposure theorems hold of it. */
module ThreadedRunners {
  import opened Protocol
  import opened ExecutionLedgers
  import opened ExecutionClients
  import opened SignalLifecycles
  import opened RunnerDecisions
  import opened Runners
  import opened RunnerInvariant
  import Callbacks = OrderCallbacks
  import Core = ExecutionMachines
  import Events = EventStores
  import Safety = RunnerSafety
  import Limits = RunnerLimits
  import Threads = ThreadedMachines

  datatype Trader = Trader(
    store: Events.Store,
    life: Lifecycle,
    threads: Threads.System,
    broker: Broker,
    process: Program)

  const BEGINNING := Trader(Events.EMPTY_STORE, map[], Threads.START, Broker(0, map[]), Down)

  /** The trader as `Runners` sees it. */
  function Whole(t: Trader): World {
    World(t.store, t.life, Threads.Seen(t.threads), t.broker, t.process)
  }

  /** `Alone` does not touch the ledger. `Joined` is the thread step at which ledger work
      takes effect, or is turned down, with what the program makes of it. `Within` is a
      thread step that nothing else sees. */
  datatype Step =
    | Alone(action: Action)
    | Joined(action: Action, thread: Threads.Action)
    | Within(thread: Threads.Action)

  /** A first check that fails: the client raises before anything is written. */
  ghost predicate TurnedDown(s: Threads.System, b: Threads.Action, action: Core.Action)
    requires Threads.Enabled(s, b)
  {
    match b
    case CheckReserve(request) => action == Core.ReserveEvent(request) && Threads.Next(s, b) == s
    case CheckSubmit(request, valid) => action == Core.Begin(request, valid) && Threads.Next(s, b) == s
    case _ => false
  }

  /** The runner thread works on what the program is about to do. */
  ghost predicate Serves(c: Setup, w: World, b: Threads.Action)
    requires w.process.Running?
  {
    match b
    case CheckReserve(request) => CoreContinue(c, w, true) == Some(Core.ReserveEvent(request))
    case CheckSubmit(request, valid) => CoreContinue(c, w, valid) == Some(Core.Begin(request, valid))
    case ReadResolve(event) => CoreContinue(c, w, true) == Some(Core.ResolveUnsent(event))
    case _ => true
  }

  ghost predicate CanStep(c: Setup, t: Trader, s: Step) {
    match s
    case Alone(a) => Enabled(c, Whole(t), a) && CoreAction(c, Whole(t), a).None?
    case Joined(a, b) =>
      && Enabled(c, Whole(t), a) && CoreAction(c, Whole(t), a).Some?
      && Threads.Enabled(t.threads, b)
      && (Threads.TakesEffect(t.threads, b) == CoreAction(c, Whole(t), a)
          || TurnedDown(t.threads, b, CoreAction(c, Whole(t), a).value))
    case Within(b) =>
      && t.process.Running? && Threads.Enabled(t.threads, b)
      && Threads.TakesEffect(t.threads, b).None? && Serves(c, Whole(t), b)
  }

  ghost function After(c: Setup, t: Trader, s: Step): Trader
    requires CanStep(c, t, s)
  {
    match s
    case Alone(a) =>
      var n := Next(c, Whole(t), a);
      Trader(n.store, n.life, t.threads, n.broker, n.process)
    case Joined(a, b) =>
      var n := Next(c, Whole(t), a);
      Trader(n.store, n.life, Threads.Next(t.threads, b), n.broker, n.process)
    case Within(b) => t.(threads := Threads.Next(t.threads, b))
  }

  /** As in `Runners`, but a terminal report need only be true when the IB thread looks it
      up, not when it writes. */
  ghost predicate StepAssumed(c: Setup, t: Trader, s: Step) {
    match s
    case Alone(a) => Assumed(c, Whole(t), a)
    case Joined(a, b) => b.WriteCallback? || Assumed(c, Whole(t), a)
    case Within(b) => b.Find? ==> Truthful(c, Whole(t), b.report)
  }

  // --------------------------------------------------------------- refinement

  lemma TurnedDownChangesNothing(s: Threads.System, b: Threads.Action, action: Core.Action)
    requires Threads.Enabled(s, b) && TurnedDown(s, b, action) && Core.Enabled(Threads.Seen(s), action)
    ensures Core.Next(Threads.Seen(s), action) == Threads.Seen(s) && Threads.Next(s, b) == s
  {
  }

  lemma JoinedRefines(c: Setup, t: Trader, a: Action, b: Threads.Action)
    requires Threads.Steady(t.threads) && CanStep(c, t, Joined(a, b))
    ensures Threads.Seen(Threads.Next(t.threads, b)) == CoreAfter(c, Whole(t), a)
    ensures Threads.Steady(Threads.Next(t.threads, b))
  {
    if TurnedDown(t.threads, b, CoreAction(c, Whole(t), a).value) {
      TurnedDownChangesNothing(t.threads, b, CoreAction(c, Whole(t), a).value);
    } else {
      Threads.StepRefines(t.threads, b);
      Threads.StepKeepsSteady(t.threads, b);
    }
  }

  lemma WithinIsInvisible(c: Setup, t: Trader, b: Threads.Action)
    requires Threads.Steady(t.threads) && CanStep(c, t, Within(b))
    ensures Whole(After(c, t, Within(b))) == Whole(t) && Threads.Steady(After(c, t, Within(b)).threads)
  {
    Threads.StepRefines(t.threads, b);
    Threads.StepKeepsSteady(t.threads, b);
  }

  lemma AloneRefines(c: Setup, t: Trader, a: Action)
    requires CanStep(c, t, Alone(a))
    ensures Whole(After(c, t, Alone(a))) == Next(c, Whole(t), a) && After(c, t, Alone(a)).threads == t.threads
  {
  }

  /** Each step of the taken-apart trader is one step of `Runners`, or none. */
  lemma StepProjects(c: Setup, t: Trader, s: Step)
    requires Threads.Steady(t.threads) && CanStep(c, t, s)
    ensures Threads.Steady(After(c, t, s).threads)
    ensures if s.Within? then Whole(After(c, t, s)) == Whole(t)
            else Enabled(c, Whole(t), s.action) && Whole(After(c, t, s)) == Next(c, Whole(t), s.action)
  {
    match s
    case Alone(a) => AloneRefines(c, t, a);
    case Joined(a, b) => JoinedRefines(c, t, a, b);
    case Within(b) => WithinIsInvisible(c, t, b);
  }

  lemma ReservationDecides(c: Setup, w: World, valid: bool, request: TradeRequest)
    requires w.process.Running? && CoreContinue(c, w, valid) == Some(Core.ReserveEvent(request))
    ensures OnContinue(c, w, valid).process.Running? <==> ReserveExecution(w.core.client, request).error.None?
  {
  }

  lemma SubmissionDecides(c: Setup, w: World, valid: bool, request: TradeRequest)
    requires w.process.Running? && CoreContinue(c, w, valid) == Some(Core.Begin(request, valid)) && w.core.issued.Some?
    ensures OnContinue(c, w, valid).process.Running? <==>
              BeginSubmission(w.core.client, request, w.core.issued.value, valid).error.None?
  {
  }

  /** The program goes on exactly when the thread's own checks let it write: what it makes of
      a reservation agrees with what was checked steps before. */
  lemma ProgramFollowsReservation(c: Setup, t: Trader, valid: bool, reached: bool, b: Threads.Action)
    requires Threads.Steady(t.threads) && CanStep(c, t, Joined(Continue(valid, reached), b))
    requires b.WriteReserve? || b.CheckReserve?
    ensures After(c, t, Joined(Continue(valid, reached), b)).process.Running? <==> b.WriteReserve?
  {
    ReservationDecides(c, Whole(t), valid, if b.CheckReserve? then b.request else t.threads.runner.request);
  }

  /** And of a submission: on after a SUBMITTED write, stopped after a REJECTED one or a
      failed check. */
  lemma ProgramFollowsSubmission(c: Setup, t: Trader, valid: bool, reached: bool, b: Threads.Action)
    requires Threads.Steady(t.threads) && CanStep(c, t, Joined(Continue(valid, reached), b))
    requires b.WriteSubmit? || b.CheckSubmit?
    ensures After(c, t, Joined(Continue(valid, reached), b)).process.Running? <==>
              b.WriteSubmit? && t.threads.runner.pending.next == Submitted
  {
    SubmissionDecides(c, Whole(t), valid, if b.CheckSubmit? then b.request else t.threads.runner.request);
  }

  // ------------------------------------------------------ reports on their way

  /** A terminal report says how the order it names has ended. */
  predicate EndedSo(orders: map<OrderId, Order>, r: Callbacks.Report, q: Quantity) {
    Announces(r, q).Some? ==>
      && Callbacks.Target(r) >= 0 && Callbacks.Target(r) in orders
      && orders[Callbacks.Target(r)].end == Announces(r, q)
  }

  /** The report the IB thread has decided on, and not yet written, is true. */
  predicate OnItsWay(orders: map<OrderId, Order>, ib: Threads.Ib, q: Quantity) {
    match ib
    case Decided(r, _, _) => EndedSo(orders, r, q)
    case IbRead(r, _) => EndedSo(orders, r, q)
    case _ => true
  }

  lemma FoundReportIsTrue(c: Setup, t: Trader, r: Callbacks.Report)
    requires Truthful(c, Whole(t), r) && Threads.OnFind(t.threads, r).Decided?
    ensures EndedSo(t.broker.orders, r, c.q)
  {
    Threads.DecisionNamesHolder(Threads.TablesOf(t.threads), r);
    var e := Callbacks.RequestOf(Threads.TablesOf(t.threads), r).value.0;
    assert Announces(r, c.q).Some? ==>
        TruthfulFor(LedgerOf(Whole(t)).records[e], t.broker.orders, r, c.q);
  }

  lemma EndedReportIsTruthful(c: Setup, w: World, r: Callbacks.Report)
    requires EndedSo(w.broker.orders, r, c.q)
    ensures Truthful(c, w, r)
  {
  }

  /** An order that has ended stays as it ended. */
  predicate EndsStay(before: map<OrderId, Order>, after: map<OrderId, Order>) {
    forall id :: id in before && before[id].end.Some? ==> id in after && after[id].end == before[id].end
  }

  lemma NewOrderHasNewId(c: Setup, l: Ledger, orders: map<OrderId, Order>, request: TradeRequest, id: OrderId)
    requires OrdersMatch(c, l, orders) && UniqueIds(l)
    requires SentFor(l.records, request, id) && NotOrdered(orders, request.event)
    ensures id !in orders
  {
    assert id in orders ==> OrderMatches(c, l.records, id, orders[id]);
  }

  lemma SentOrderIsNew(c: Setup, w: World)
    requires Inv(c, w) && w.process.Running? && w.process.stage.Sending? && w.core.placing.Some?
    ensures w.core.placing.value.orderId !in w.broker.orders
  {
    NewOrderHasNewId(c, LedgerOf(w), w.broker.orders, w.process.stage.request, w.core.placing.value.orderId);
  }

  lemma EndsStayEnded(c: Setup, w: World, a: Action)
    requires Inv(c, w) && BrokerEnabled(c, w.broker, a)
    ensures EndsStay(w.broker.orders, BrokerAfter(c, w, a).orders)
  {
    if a.Continue? && w.process.Running? && w.process.stage.Sending? && w.core.placing.Some? {
      SentOrderIsNew(c, w);
    }
  }

  lemma OnItsWayStays(before: map<OrderId, Order>, after: map<OrderId, Order>, ib: Threads.Ib, q: Quantity)
    requires OnItsWay(before, ib, q) && EndsStay(before, after)
    ensures OnItsWay(after, ib, q)
  {
  }

  ghost predicate Good(c: Setup, t: Trader) {
    match t
    case Trader(_, _, threads, broker, _) =>
      Threads.Steady(threads) && Inv(c, Whole(t)) && OnItsWay(broker.orders, threads.ib, c.q)
  }

  /** Only a lookup puts a report on its way. */
  lemma OnlyFindDecides(s: Threads.System, b: Threads.Action)
    requires Threads.Enabled(s, b) && !b.Find?
    ensures var ib := Threads.Next(s, b).ib;
            || ib.IbIdle? || ib.Inserting? || ib == s.ib
            || (s.ib.Decided? && ib.IbRead? && ib.report == s.ib.report)
  {
  }

  lemma FindKeepsReports(c: Setup, t: Trader, s: Step)
    requires CanStep(c, t, s) && StepAssumed(c, t, s) && !s.Alone? && s.thread.Find?
    ensures OnItsWay(t.broker.orders, Threads.OnFind(t.threads, s.thread.report), c.q)
  {
    if Threads.OnFind(t.threads, s.thread.report).Decided? {
      FindDecidesWithin(c, t, s);
      FoundReportIsTrue(c, t, s.thread.report);
    }
  }

  /** A lookup that only decides is seen by nothing else. */
  lemma FindDecidesWithin(c: Setup, t: Trader, s: Step)
    requires CanStep(c, t, s) && !s.Alone? && s.thread.Find?
    requires Threads.OnFind(t.threads, s.thread.report).Decided?
    ensures s.Within?
  {
  }

  lemma ThreadStepKeepsReports(c: Setup, t: Trader, s: Step)
    requires Good(c, t) && CanStep(c, t, s) && StepAssumed(c, t, s) && !s.Alone?
    ensures OnItsWay(t.broker.orders, After(c, t, s).threads.ib, c.q)
  {
    if s.thread.Find? {
      FindKeepsReports(c, t, s);
    } else {
      OnlyFindDecides(t.threads, s.thread);
    }
  }

  /** What is assumed when a report is looked up still holds when it is written. */
  lemma AssumedWhereItCounts(c: Setup, t: Trader, s: Step)
    requires Good(c, t) && CanStep(c, t, s) && StepAssumed(c, t, s) && !s.Within?
    ensures Assumed(c, Whole(t), s.action)
  {
    if s.Joined? && s.thread.WriteCallback? {
      EndedReportIsTruthful(c, Whole(t), t.threads.ib.report);
      WrittenReportIsTheOne(c, t, s.action);
    }
  }

  lemma WrittenReportIsTheOne(c: Setup, t: Trader, a: Action)
    requires CanStep(c, t, Joined(a, Threads.WriteCallback))
    ensures a == Report(t.threads.ib.report)
  {
  }

  lemma StepKeepsReports(c: Setup, t: Trader, s: Step)
    requires Good(c, t) && CanStep(c, t, s) && StepAssumed(c, t, s)
    ensures OnItsWay(After(c, t, s).broker.orders, After(c, t, s).threads.ib, c.q)
  {
    var after := After(c, t, s);
    if !s.Alone? {
      ThreadStepKeepsReports(c, t, s);
    }
    if !s.Within? {
      EndsStayEnded(c, Whole(t), s.action);
      OnItsWayStays(t.broker.orders, after.broker.orders, after.threads.ib, c.q);
    }
  }

  lemma StepKeepsGood(c: Setup, t: Trader, s: Step)
    requires Good(c, t) && CanStep(c, t, s) && StepAssumed(c, t, s)
    ensures Good(c, After(c, t, s))
  {
    StepProjects(c, t, s);
    StepKeepsReports(c, t, s);
    if !s.Within? {
      AssumedWhereItCounts(c, t, s);
      Safety.StepKeepsInv(c, Whole(t), s.action);
    }
  }

  // --------------------------------------------------------------------- runs

  ghost function EndOfSteps(c: Setup, run: seq<Step>): Option<Trader> {
    if run == [] then Some(BEGINNING) else
    var before := EndOfSteps(c, run[..|run| - 1]);
    if before.Some? && CanStep(c, before.value, run[|run| - 1]) then Some(After(c, before.value, run[|run| - 1]))
    else None
  }

  ghost predicate StepsAssumed(c: Setup, run: seq<Step>) {
    run != [] ==>
      && StepsAssumed(c, run[..|run| - 1])
      && (EndOfSteps(c, run[..|run| - 1]).Some? ==>
            StepAssumed(c, EndOfSteps(c, run[..|run| - 1]).value, run[|run| - 1]))
  }

  /** The run of `Runners`: what the steps that take effect do. */
  function Projected(run: seq<Step>): seq<Action> {
    if run == [] then []
    else if run[|run| - 1].Within? then Projected(run[..|run| - 1])
    else Projected(run[..|run| - 1]) + [run[|run| - 1].action]
  }

  /** Every interleaving of program, threads and outside world is a run of the trader with
      atomic submissions and callbacks. */
  lemma {:induction false} SplitRunsAreRuns(c: Setup, run: seq<Step>, t: Trader)
    requires EndOfSteps(c, run) == Some(t)
    ensures Threads.Steady(t.threads) && Leads(c, Projected(run), Whole(t))
  {
    if run != [] {
      var earlier, last := run[..|run| - 1], run[|run| - 1];
      var before := EndOfSteps(c, earlier).value;
      SplitRunsAreRuns(c, earlier, before);
      StepProjects(c, before, last);
      if !last.Within? {
        Limits.RunGrows(c, Projected(earlier), Whole(before), last.action);
      }
    }
  }

  lemma {:induction false} SplitRunsAreAssumed(c: Setup, run: seq<Step>, t: Trader)
    requires EndOfSteps(c, run) == Some(t) && StepsAssumed(c, run)
    ensures Good(c, t) && Leads(c, Projected(run), Whole(t)) && AssumedThroughout(c, Projected(run))
  {
    SplitRunsAreRuns(c, run, t);
    if run != [] {
      var earlier, last := run[..|run| - 1], run[|run| - 1];
      var before := EndOfSteps(c, earlier).value;
      SplitRunsAreAssumed(c, earlier, before);
      StepKeepsGood(c, before, last);
      if !last.Within? {
        StepProjects(c, before, last);
        AssumedWhereItCounts(c, before, last);
        Limits.RunGrows(c, Projected(earlier), Whole(before), last.action);
      }
    }
  }

  /** The exposure theorems over every interleaving, a crash between any two thread steps
      included: a position always has an open signal on its side, it stays within the
      approved quantity, and at most one order is unfilled, which fits that bound too. */
  lemma ExposureOverInterleavings(c: Setup, run: seq<Step>, t: Trader)
    requires EndOfSteps(c, run) == Some(t) && StepsAssumed(c, run)
    ensures t.broker.position > 0 ==> exists s :: s in t.life && t.life[s].state == LongOpen
    ensures t.broker.position < 0 ==> exists s :: s in t.life && t.life[s].state == ShortOpen
    ensures -(c.q as int) <= t.broker.position <= c.q
    ensures forall i, j :: Safety.WorksAt(t.broker, i) && Safety.WorksAt(t.broker, j) ==> i == j
    ensures forall i :: Safety.WorksAt(t.broker, i) ==>
                          var o := t.broker.orders[i];
                          -(c.q as int) <= t.broker.position + o.intent.Sign() * (c.q - o.filled) <= c.q
  {
    SplitRunsAreAssumed(c, run, t);
    Safety.NoOrphanExposure(c, Projected(run), Whole(t));
    Safety.ExposureBound(c, Projected(run), Whole(t));
  }

  // ----------------------------------------------- nothing is lost by splitting

  /** Both threads are between two operations. */
  predicate Settled(s: Threads.System) {
    (s.runner.RunnerIdle? || s.runner.Placing?) && (s.ib.IbIdle? || s.ib.Inserting?)
  }

  /** The run leads there, and what the threads rely on stands. */
  ghost predicate Reaches(c: Setup, run: seq<Step>, t: Trader) {
    EndOfSteps(c, run) == Some(t) && Threads.Steady(t.threads)
  }

  lemma StepReaches(c: Setup, run: seq<Step>, t: Trader, s: Step)
    requires Reaches(c, run, t) && CanStep(c, t, s)
    ensures Reaches(c, run + [s], After(c, t, s))
  {
    StepProjects(c, t, s);
    assert (run + [s])[..|run|] == run;
  }

  /** A thread step nothing else sees. */
  lemma Works(c: Setup, run: seq<Step>, t: Trader, b: Threads.Action, s: Threads.System) returns (longer: seq<Step>)
    requires Reaches(c, run, t) && CanStep(c, t, Within(b)) && Threads.Next(t.threads, b) == s
    ensures Reaches(c, longer, t.(threads := s)) && Whole(t.(threads := s)) == Whole(t)
  {
    longer := run + [Within(b)];
    StepReaches(c, run, t, Within(b));
    StepProjects(c, t, Within(b));
  }

  /** A thread step at which the action takes effect or is turned down. */
  lemma Concludes(c: Setup, run: seq<Step>, t: Trader, a: Action, b: Threads.Action)
    returns (longer: seq<Step>, n: Trader)
    requires Reaches(c, run, t) && CanStep(c, t, Joined(a, b))
    ensures Reaches(c, longer, n) && Whole(n) == Next(c, Whole(t), a) && n.threads == Threads.Next(t.threads, b)
  {
    longer, n := run + [Joined(a, b)], After(c, t, Joined(a, b));
    StepReaches(c, run, t, Joined(a, b));
    StepProjects(c, t, Joined(a, b));
  }

  /** What the program is about to reserve or resolve does not depend on the contract. */
  lemma ActionServes(c: Setup, w: World, a: Action, action: Core.Action)
    requires CoreAction(c, w, a) == Some(action) && Enabled(c, w, a)
    requires action.ReserveEvent? || action.Begin? || action.ResolveUnsent?
    ensures a.Continue? && w.process.Running?
    ensures CoreContinue(c, w, a.contractValid) == Some(action)
    ensures !action.Begin? ==> CoreContinue(c, w, true) == Some(action)
    ensures w.core.placing.None? && Core.Enabled(w.core, action)
  {
  }

  lemma ReservationSplits(c: Setup, run: seq<Step>, t: Trader, a: Action, request: TradeRequest)
    returns (longer: seq<Step>, n: Trader)
    requires Reaches(c, run, t) && Settled(t.threads) && Enabled(c, Whole(t), a)
    requires CoreAction(c, Whole(t), a) == Some(Core.ReserveEvent(request))
    ensures Reaches(c, longer, n) && Settled(n.threads) && Whole(n) == Next(c, Whole(t), a)
  {
    ActionServes(c, Whole(t), a, Core.ReserveEvent(request));
    var s := t.threads;
    if request.event in s.ledger.records || request.event in s.guard || request.quantity <= 0 {
      longer, n := Concludes(c, run, t, a, Threads.CheckReserve(request));
    } else {
      var checked := t.(threads := s.(runner := Threads.ReserveChecked(request)));
      longer := Works(c, run, t, Threads.CheckReserve(request), checked.threads);
      longer, n := Concludes(c, longer, checked, a, Threads.WriteReserve);
    }
  }

  lemma SubmissionReads(s: Threads.System, request: TradeRequest, valid: bool) returns (p: Threads.Split.Pending)
    requires s.runner == Threads.SubmitChecked(request, valid) && s.issued.Some?
    requires Threads.ReservedFor(s.ledger, request)
    ensures Threads.Next(s, Threads.ReadSubmit) == s.(runner := Threads.SubmitRead(request, valid, p))
  {
    p := Threads.OnReadSubmit(s).pending;
  }

  lemma SubmissionGoesThrough(c: Setup, run: seq<Step>, t: Trader, a: Action, request: TradeRequest, valid: bool)
    returns (longer: seq<Step>, n: Trader)
    requires Reaches(c, run, t) && Settled(t.threads) && Enabled(c, Whole(t), a)
    requires CoreAction(c, Whole(t), a) == Some(Core.Begin(request, valid)) && a.Continue? && t.process.Running?
    requires CoreContinue(c, Whole(t), valid) == Some(Core.Begin(request, valid))
    requires t.threads.runner.RunnerIdle? && t.threads.issued.Some? && Threads.ReservedFor(t.threads.ledger, request)
    ensures Reaches(c, longer, n) && Settled(n.threads) && Whole(n) == Next(c, Whole(t), a)
  {
    var s := t.threads;
    var checked := t.(threads := s.(runner := Threads.SubmitChecked(request, valid)));
    longer := Works(c, run, t, Threads.CheckSubmit(request, valid), checked.threads);
    var p := SubmissionReads(checked.threads, request, valid);
    var read := t.(threads := s.(runner := Threads.SubmitRead(request, valid, p)));
    longer := Works(c, longer, checked, Threads.ReadSubmit, read.threads);
    longer, n := Concludes(c, longer, read, a, Threads.WriteSubmit);
  }

  lemma SubmissionSplits(c: Setup, run: seq<Step>, t: Trader, a: Action, request: TradeRequest, valid: bool)
    returns (longer: seq<Step>, n: Trader)
    requires Reaches(c, run, t) && Settled(t.threads) && Enabled(c, Whole(t), a)
    requires CoreAction(c, Whole(t), a) == Some(Core.Begin(request, valid))
    ensures Reaches(c, longer, n) && Settled(n.threads) && Whole(n) == Next(c, Whole(t), a)
  {
    ActionServes(c, Whole(t), a, Core.Begin(request, valid));
    BeginServes(c, Whole(t), a.contractValid, request, valid);
    if Threads.ReservedFor(t.threads.ledger, request) {
      longer, n := SubmissionGoesThrough(c, run, t, a, request, valid);
    } else {
      longer, n := Concludes(c, run, t, a, Threads.CheckSubmit(request, valid));
    }
  }

  lemma BeginServes(c: Setup, w: World, given: bool, request: TradeRequest, valid: bool)
    requires w.process.Running? && CoreContinue(c, w, given) == Some(Core.Begin(request, valid))
    ensures given == valid
  {
  }

  lemma ResolutionSplits(c: Setup, run: seq<Step>, t: Trader, a: Action, event: EventId)
    returns (longer: seq<Step>, n: Trader)
    requires Reaches(c, run, t) && Settled(t.threads) && Enabled(c, Whole(t), a)
    requires CoreAction(c, Whole(t), a) == Some(Core.ResolveUnsent(event))
    ensures Reaches(c, longer, n) && Settled(n.threads) && Whole(n) == Next(c, Whole(t), a)
  {
    ActionServes(c, Whole(t), a, Core.ResolveUnsent(event));
    var s := t.threads;
    var pending := Threads.Split.Pending(event, s.ledger.records[event], Rejected, None);
    var read := t.(threads := s.(runner := Threads.ResolveRead(pending)));
    longer := Works(c, run, t, Threads.ReadResolve(event), read.threads);
    longer, n := Concludes(c, longer, read, a, Threads.WriteResolve);
  }

  /** A callback that asks for nothing, or for what the ledger refuses. */
  lemma IdleReport(c: Setup, t: Trader, r: Callbacks.Report)
    requires Enabled(c, Whole(t), Report(r)) && t.threads.ib.IbIdle?
    requires var ib := Threads.OnFind(t.threads, r);
             || ib.IbIdle?
             || (ib.Decided? && Transition(t.threads.ledger, ib.event, ib.next, None).Refused?)
    ensures Next(c, Whole(t), Report(r)) == Whole(t)
  {
    assert Core.Tables(Whole(t).core) == Threads.TablesOf(t.threads);
  }

  lemma ReportSplits(c: Setup, run: seq<Step>, t: Trader, r: Callbacks.Report)
    returns (longer: seq<Step>, n: Trader)
    requires Reaches(c, run, t) && Settled(t.threads) && Enabled(c, Whole(t), Report(r))
    ensures Reaches(c, longer, n) && Settled(n.threads) && Whole(n) == Next(c, Whole(t), Report(r))
  {
    ReportWaitsForIdle(c, t, r);
    var ib := Threads.OnFind(t.threads, r);
    if ib.Inserting? {
      longer, n := Concludes(c, run, t, Report(r), Threads.Find(r));
    } else if ib.Decided? {
      longer, n := DecisionSplits(c, run, t, r);
    } else {
      IdleReport(c, t, r);
      longer, n := run, t;
    }
  }

  /** The decision on a callback, and what its read makes of it. */
  ghost function Found(s: Threads.System, r: Callbacks.Report): Threads.System {
    s.(ib := Threads.OnFind(s, r))
  }

  ghost function Read(s: Threads.System, r: Callbacks.Report): Threads.System
    requires Threads.OnFind(s, r).Decided?
  {
    s.(ib := Threads.OnReadCallback(Found(s, r)))
  }

  lemma DecisionIsRead(c: Setup, run: seq<Step>, t: Trader, r: Callbacks.Report) returns (longer: seq<Step>)
    requires Reaches(c, run, t) && t.threads.ib.IbIdle? && t.process.Running?
    requires Threads.OnFind(t.threads, r).Decided?
    ensures var read := t.(threads := Read(t.threads, r)); Reaches(c, longer, read) && Whole(read) == Whole(t)
  {
    var found := t.(threads := Found(t.threads, r));
    longer := Works(c, run, t, Threads.Find(r), found.threads);
    longer := Works(c, longer, found, Threads.ReadCallback, Read(t.threads, r));
  }

  lemma DecisionConcludes(c: Setup, run: seq<Step>, t: Trader, r: Callbacks.Report)
    returns (longer: seq<Step>, n: Trader)
    requires Reaches(c, run, t) && t.threads.ib.IbRead? && t.threads.ib.report == r
    requires (t.threads.runner.RunnerIdle? || t.threads.runner.Placing?) && Enabled(c, Whole(t), Report(r))
    ensures Reaches(c, longer, n) && Settled(n.threads) && Whole(n) == Next(c, Whole(t), Report(r))
  {
    longer, n := Concludes(c, run, t, Report(r), Threads.WriteCallback);
  }

  lemma DecisionSplits(c: Setup, run: seq<Step>, t: Trader, r: Callbacks.Report)
    returns (longer: seq<Step>, n: Trader)
    requires Reaches(c, run, t) && Settled(t.threads) && Enabled(c, Whole(t), Report(r)) && t.threads.ib.IbIdle?
    requires Threads.OnFind(t.threads, r).Decided? && t.process.Running?
    ensures Reaches(c, longer, n) && Settled(n.threads) && Whole(n) == Next(c, Whole(t), Report(r))
  {
    longer := DecisionIsRead(c, run, t, r);
    n := t.(threads := Read(t.threads, r));
    if n.threads.ib.IbRead? {
      longer, n := DecisionConcludes(c, longer, n, r);
    } else {
      IdleReport(c, t, r);
    }
  }

  lemma ReportWaitsForIdle(c: Setup, t: Trader, r: Callbacks.Report)
    requires Settled(t.threads) && Enabled(c, Whole(t), Report(r))
    ensures t.threads.ib.IbIdle? && t.process.Running?
  {
  }

  /** The actions whose ledger work is a single thread step, as that step. */
  ghost function SingleStep(action: Core.Action): Option<Threads.Action> {
    match action
    case Connect(id) => Some(Threads.Connect(id))
    case ObserveId(id) => Some(Threads.ObserveId(id))
    case Issue => Some(Threads.Issue)
    case Place => Some(Threads.Place)
    case InsertRow => Some(Threads.Insert)
    case Crash => Some(Threads.Crash)
    case _ => None
  }

  lemma SingleStepServes(t: Trader, action: Core.Action)
    requires Settled(t.threads) && Core.Enabled(Whole(t).core, action) && SingleStep(action).Some?
    ensures var b := SingleStep(action).value;
            Threads.Enabled(t.threads, b) && Threads.TakesEffect(t.threads, b) == Some(action)
            && Settled(Threads.Next(t.threads, b))
  {
  }

  lemma SingleStepSplits(c: Setup, run: seq<Step>, t: Trader, a: Action, action: Core.Action)
    returns (longer: seq<Step>, n: Trader)
    requires Reaches(c, run, t) && Settled(t.threads) && Enabled(c, Whole(t), a)
    requires CoreAction(c, Whole(t), a) == Some(action) && SingleStep(action).Some?
    ensures Reaches(c, longer, n) && Settled(n.threads) && Whole(n) == Next(c, Whole(t), a)
  {
    SingleStepServes(t, action);
    longer, n := Concludes(c, run, t, a, SingleStep(action).value);
  }

  lemma OnlyReportsCallBack(c: Setup, w: World, a: Action, r: Callbacks.Report)
    requires CoreAction(c, w, a) == Some(Core.Callback(r))
    ensures a == Report(r)
  {
  }

  lemma ActionSplits(c: Setup, run: seq<Step>, t: Trader, a: Action) returns (longer: seq<Step>, n: Trader)
    requires Reaches(c, run, t) && Settled(t.threads) && Enabled(c, Whole(t), a)
    ensures Reaches(c, longer, n) && Settled(n.threads) && Whole(n) == Next(c, Whole(t), a)
  {
    match CoreAction(c, Whole(t), a)
    case None =>
      longer, n := run + [Alone(a)], After(c, t, Alone(a));
      StepReaches(c, run, t, Alone(a));
    case Some(ReserveEvent(request)) => longer, n := ReservationSplits(c, run, t, a, request);
    case Some(Begin(request, valid)) => longer, n := SubmissionSplits(c, run, t, a, request, valid);
    case Some(ResolveUnsent(event)) => longer, n := ResolutionSplits(c, run, t, a, event);
    case Some(Callback(r)) =>
      OnlyReportsCallBack(c, Whole(t), a, r);
      longer, n := ReportSplits(c, run, t, r);
    case Some(action) => longer, n := SingleStepSplits(c, run, t, a, action);
  }

  /** Conversely, every run with atomic submissions and callbacks can be taken apart: both
      traders reach the same worlds. */
  lemma {:induction false} AtomicRunsSplit(c: Setup, run: seq<Action>, w: World) returns (steps: seq<Step>, t: Trader)
    requires Leads(c, run, w)
    ensures Reaches(c, steps, t) && Settled(t.threads) && Whole(t) == w
  {
    if run == [] {
      steps, t := [], BEGINNING;
      SplitRunsAreRuns(c, steps, t);
    } else {
      var before := EndOf(c, run[..|run| - 1]).value;
      steps, t := AtomicRunsSplit(c, run[..|run| - 1], before);
      steps, t := ActionSplits(c, steps, t, run[|run| - 1]);
    }
  }
}
