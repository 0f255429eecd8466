/** Each remaining assumption of the exposure theorems is needed: for each there is a run from
    process start that breaks it at one step, breaks no other anywhere, and ends with a
    position no open signal covers. */
module RunnerAssumptions {
  import opened Protocol
  import opened ExecutionLedgers
  import opened ExecutionClients
  import opened RunnerDecisions
  import opened Runners
  import opened RunnerLimits
  import opened RunnerRoundTrip
  import Allocators = OrderIdAllocators
  import Callbacks = OrderCallbacks
  import Core = ExecutionMachines
  import Events = EventStores

  /** Step `k` breaks an assumption and no other step does. */
  ghost predicate BrokenOnlyAt(c: Setup, run: seq<Action>, k: nat) {
    run != [] ==>
      var earlier, last := run[..|run| - 1], run[|run| - 1];
      && BrokenOnlyAt(c, earlier, k)
      && (EndOf(c, earlier).Some? ==> (Assumed(c, EndOf(c, earlier).value, last) <==> |earlier| != k))
  }

  lemma {:induction false} KeptUpTo(c: Setup, run: seq<Action>, k: nat)
    requires AssumedThroughout(c, run) && |run| <= k
    ensures BrokenOnlyAt(c, run, k)
  {
    if run != [] {
      KeptUpTo(c, run[..|run| - 1], k);
    }
  }

  lemma Then(c: Setup, run: seq<Action>, k: nat, w: World, a: Action, next: World) returns (longer: seq<Action>)
    requires Leads(c, run, w) && BrokenOnlyAt(c, run, k) && |run| > k && Goes(c, w, a, next)
    ensures longer == run + [a] && Leads(c, longer, next) && BrokenOnlyAt(c, longer, k)
  {
    RunGrows(c, run, w, a);
    longer := run + [a];
    assert longer[..|longer| - 1] == run;
  }

  lemma Breaks(c: Setup, run: seq<Action>, w: World, a: Action, next: World) returns (longer: seq<Action>)
    requires Leads(c, run, w) && AssumedThroughout(c, run)
    requires Enabled(c, w, a) && !Assumed(c, w, a) && Next(c, w, a) == next
    ensures longer == run + [a] && Leads(c, longer, next) && BrokenOnlyAt(c, longer, |run|)
  {
    KeptUpTo(c, run, |run|);
    RunGrows(c, run, w, a);
    longer := run + [a];
    assert longer[..|longer| - 1] == run;
  }

  lemma PlacesAnExit(c: Setup, t: RoundTrip) returns (run: seq<Action>)
    requires t.Of(c)
    ensures AssumedThroughout(c, run) && Leads(c, run, Placed(c, t))
  {
    run := ApprovesAnExit(c, t);
    run := ExitIsSent(c, t, run);
  }

  // ------------------------------------------------- a terminal report is false

  /** `w` with the broker as it was before the close filled. */
  function Unfilled(c: Setup, t: RoundTrip, w: World): World {
    w.(broker := Placed(c, t).broker)
  }

  function FalseReport(c: Setup): Action {
    Report(Callbacks.ExecDetails(FullFill(c, 2, "b", "SLD")))
  }

  lemma FalseReportGoes(c: Setup, t: RoundTrip)
    requires t.Of(c)
    ensures var w := Placed(c, t);
            && Enabled(c, w, FalseReport(c)) && !Assumed(c, w, FalseReport(c))
            && Next(c, w, FalseReport(c)) == Unfilled(c, t, ExitReported(c, t))
  {
    ExitExecution(c, t);
    assert Core.Tables(Placed(c, t).core) == Core.Tables(ExitFilled(c, t).core);
    assert !TruthfulFor(LedgerOf(Placed(c, t)).records[t.exit], Placed(c, t).broker.orders,
                        FalseReport(c).report, c.q);
  }

  /** Inserting the row, closing and committing do not look at the broker's orders. */
  lemma ClosingIgnoresBroker(c: Setup, t: RoundTrip, w: World, a: Action, next: World)
    requires Goes(c, w, a, next) && w.process.Running?
    requires a == InsertRow
             || (a == ONWARD && w.process.stage.Waiting? && !w.process.stage.purpose.EntryOrder?)
             || (a == ONWARD && w.process.stage.CloseFilled?)
    ensures Goes(c, Unfilled(c, t, w), a, Unfilled(c, t, next))
  {
  }

  function FalselyFilled(c: Setup, t: RoundTrip): World {
    Unfilled(c, t, ExitRecorded(c, t, AwaitingExit(c, t)))
  }

  lemma BelievesTheReport(c: Setup, t: RoundTrip) returns (run: seq<Action>, k: nat)
    requires t.Of(c)
    ensures k < |run| && run[k] == FalseReport(c) && BrokenOnlyAt(c, run, k)
    ensures Leads(c, run, FalselyFilled(c, t))
  {
    run := PlacesAnExit(c, t);
    k := |run|;
    FalseReportGoes(c, t);
    run := Breaks(c, run, Placed(c, t), FalseReport(c), Unfilled(c, t, ExitReported(c, t)));
    ExitRowGoes(c, t);
    ClosingIgnoresBroker(c, t, ExitReported(c, t), InsertRow, ExitRecorded(c, t, AwaitingExit(c, t)));
    run := Then(c, run, k, Unfilled(c, t, ExitReported(c, t)), InsertRow, FalselyFilled(c, t));
  }

  /** A fill reported that never happened: BTS closes the signal, and the broker still holds
      the whole position. */
  lemma TruthfulReportsAreNeeded(c: Setup, t: RoundTrip) returns (run: seq<Action>, k: nat, w: World)
    requires t.Of(c)
    ensures k < |run| && run[k] == FalseReport(c) && BrokenOnlyAt(c, run, k)
    ensures Leads(c, run, w) && w.broker.position == c.q && !Unorphaned(w)
  {
    var filled := ExitRecorded(c, t, CloseFilled(LiveExit, ExitRequest(c, t)));
    var closed := SignalClosed(c, t, CloseCommitted(LiveExit, ExitRequest(c, t)));
    w := Unfilled(c, t, closed);
    run, k := BelievesTheReport(c, t);
    FilledGoes(c, t);
    ClosingIgnoresBroker(c, t, ExitRecorded(c, t, AwaitingExit(c, t)), ONWARD, filled);
    run := Then(c, run, k, FalselyFilled(c, t), ONWARD, Unfilled(c, t, filled));
    ClosedGoes(c, t);
    ClosingIgnoresBroker(c, t, filled, ONWARD, closed);
    run := Then(c, run, k, Unfilled(c, t, filled), ONWARD, w);
  }

  // --------------------------------- the operator flattens while an order works

  lemma WorkingFlattenGoes(c: Setup, t: RoundTrip)
    requires t.Of(c)
    ensures Enabled(c, Placed(c, t), Flatten) && Next(c, Placed(c, t), Flatten) == Held(Placed(c, t), 0)
    ensures !ClosePending(Placed(c, t).process) && !Assumed(c, Placed(c, t), Flatten)
  {
    assert Placed(c, t).broker.orders[2].Working();
  }

  /** With no close on its way but one at work, a flatten leaves the close to sell what is
      no longer held. */
  lemma FlattenWhileWorkingOrphans(c: Setup, t: RoundTrip) returns (run: seq<Action>, k: nat, w: World)
    requires t.Of(c)
    ensures k < |run| && run[k] == Flatten && BrokenOnlyAt(c, run, k)
    ensures EndOf(c, run[..k]).Some? && !ClosePending(EndOf(c, run[..k]).value.process)
    ensures Leads(c, run, w) && w.broker.position == -(c.q as int) && !Unorphaned(w)
  {
    run := PlacesAnExit(c, t);
    k := |run|;
    var before := run;
    WorkingFlattenGoes(c, t);
    run := Breaks(c, run, Placed(c, t), Flatten, Held(Placed(c, t), 0));
    FillAfterFlatten(c, t);
    w := Next(c, Held(Placed(c, t), 0), Fills(2, c.q));
    run := Then(c, run, k, Held(Placed(c, t), 0), Fills(2, c.q), w);
    assert run[..k] == before;
  }

  // -------------------------------------------- a signal has two exit events

  /** A session after a reconnect in which Eagle is already flat and announces one frame. */
  const GAP := Session(true, 1, 0, false, false, {}, true, false)

  const SEEN := GAP.(processed := 1, complete := true)

  const FLAT_HELLO := Deliver(Hello(true, 1, []), Ready)

  function SecondRequest(c: Setup, t: RoundTrip, second: EventId): TradeRequest {
    RequestFor(c, second, t.signal, SellToClose)
  }

  /** The first exit is at work and unfilled; the Eagle connection has been lost. */
  function Lost(c: Setup, t: RoundTrip, session: Session, stage: Stage): World {
    Placed(c, t).(process := Running(true, false, None, session, stage))
  }

  function SecondLedger(c: Setup, t: RoundTrip, second: EventId): Ledger {
    var l := CalledClient(c, t).ledger;
    Ledger(l.records[second := ExitRecord(c, t, Reserved, None)], l.log + [Row(second, None, Reserved, None)])
  }

  function SecondClient(c: Setup, t: RoundTrip, second: EventId): Client {
    Client(SecondLedger(c, t, second), CalledClient(c, t).guard[second := t.signal], CalledClient(c, t).calls)
  }

  function SecondReserved(c: Setup, t: RoundTrip, second: EventId, session: Session, stage: Stage): World {
    var w := Lost(c, t, session, stage);
    w.(core := w.core.(client := SecondClient(c, t, second)))
  }

  function SecondConsumed(c: Setup, t: RoundTrip, second: EventId, session: Session, stage: Stage): World {
    SecondReserved(c, t, second, session, stage).(store := Events.Store({t.entry, t.exit, second}, Some(4)))
  }

  const PROVED := SEEN.(gapExit := false)
  const BEATEN := PROVED.(heartbeatSeen := true)

  function Pending(c: Setup, t: RoundTrip, second: EventId): World {
    SecondConsumed(c, t, second, BEATEN, CloseApproved(PendingExit(5), SecondRequest(c, t, second)))
  }

  const FOUR := Allocators.Allocator(true, Some(4), Some(3), None)

  function SecondIssued(c: Setup, t: RoundTrip, second: EventId): World {
    var w := Pending(c, t, second);
    w.(core := w.core.(allocator := FOUR, issued := Some(3)))
  }

  function SecondSubmitted(c: Setup, t: RoundTrip, second: EventId): Client {
    var l := SecondLedger(c, t, second);
    SecondClient(c, t, second).(ledger :=
      Ledger(l.records[second := ExitRecord(c, t, Submitted, Some(3))],
             l.log + [Row(second, Some(Reserved), Submitted, Some(3))]))
  }

  function SecondCall(c: Setup, t: RoundTrip, second: EventId): World {
    var w := SecondConsumed(c, t, second, BEATEN, Sending(PendingExit(5), SecondRequest(c, t, second)));
    w.(core := w.core.(client := SecondSubmitted(c, t, second), allocator := FOUR,
                       placing := Some(OrderFor(SecondRequest(c, t, second), 3))))
  }

  ghost predicate Other(c: Setup, t: RoundTrip, second: EventId) {
    t.Of(c) && second != t.entry && second != t.exit
  }

  lemma LossGoes(c: Setup, t: RoundTrip)
    requires t.Of(c)
    ensures Goes(c, Placed(c, t), Disconnect, Lost(c, t, LOST_SESSION, Idle))
  {
  }

  lemma FlatHelloGoes(c: Setup, t: RoundTrip)
    requires t.Of(c)
    ensures Goes(c, Lost(c, t, LOST_SESSION, Idle), FLAT_HELLO, Lost(c, t, GAP, Idle))
  {
    OnlyOpenSignal(Placed(c, t).life, t.signal);
  }

  function SecondExit(t: RoundTrip, second: EventId): Action {
    Deliver(Exit(second, 4, t.signal), Ready)
  }

  lemma SecondExitGoes(c: Setup, t: RoundTrip, second: EventId)
    requires Other(c, t, second)
    ensures var w := Lost(c, t, GAP, Idle);
            && Enabled(c, w, SecondExit(t, second)) && !Assumed(c, w, SecondExit(t, second))
            && Next(c, w, SecondExit(t, second)) == Lost(c, t, SEEN, ReplayedExposed(second, 4, t.signal))
  {
    OnlyOpenSignal(Placed(c, t).life, t.signal);
  }

  lemma SecondReserveGoes(c: Setup, t: RoundTrip, second: EventId)
    requires Other(c, t, second)
    ensures Goes(c, Lost(c, t, SEEN, ReplayedExposed(second, 4, t.signal)), ONWARD,
                 SecondReserved(c, t, second, SEEN, ReplayedDurable(second, 4, t.signal)))
  {
  }

  lemma SecondConsumeGoes(c: Setup, t: RoundTrip, second: EventId)
    requires Other(c, t, second)
    ensures Goes(c, SecondReserved(c, t, second, SEEN, ReplayedDurable(second, 4, t.signal)), ONWARD,
                 SecondConsumed(c, t, second, PROVED, Idle))
  {
    assert {t.entry, t.exit} + {second} == {t.entry, t.exit, second};
  }

  const LATE_BEAT := Deliver(Heartbeat(5), Ready)

  lemma SecondIsPending(c: Setup, t: RoundTrip, second: EventId)
    requires Other(c, t, second)
    ensures FindReservedExit(SecondLedger(c, t, second)) == ReservedExit(second)
    ensures RequestBehind(SecondLedger(c, t, second), second) == SecondRequest(c, t, second)
  {
    var l := SecondLedger(c, t, second);
    assert ReservedIn(l, second);
    assert forall e :: ReservedIn(l, e) ==> e == second;
  }

  lemma LateBeatGoes(c: Setup, t: RoundTrip, second: EventId)
    requires Other(c, t, second)
    ensures Goes(c, SecondConsumed(c, t, second, PROVED, Idle), LATE_BEAT,
                 SecondConsumed(c, t, second, BEATEN, PendingChecked(SecondRequest(c, t, second), 5)))
  {
    SecondIsPending(c, t, second);
    OnlyOpenSignal(Placed(c, t).life, t.signal);
  }

  lemma SecondApproveGoes(c: Setup, t: RoundTrip, second: EventId)
    requires Other(c, t, second)
    ensures Goes(c, SecondConsumed(c, t, second, BEATEN, PendingChecked(SecondRequest(c, t, second), 5)), ONWARD,
                 Pending(c, t, second))
  {
    OnlyOpenSignal(Placed(c, t).life, t.signal);
  }

  lemma SecondIssueGoes(c: Setup, t: RoundTrip, second: EventId)
    requires Other(c, t, second)
    ensures Goes(c, Pending(c, t, second), ONWARD, SecondIssued(c, t, second))
  {
  }

  lemma SecondSubmitGoes(c: Setup, t: RoundTrip, second: EventId)
    requires Other(c, t, second)
    ensures Goes(c, SecondIssued(c, t, second), ONWARD, SecondCall(c, t, second))
  {
  }

  /** Both closes are with the broker, unfilled. */
  function SecondSent(c: Setup, t: RoundTrip, second: EventId): World {
    var w := SecondConsumed(c, t, second, BEATEN, Waiting(PendingExit(5), SecondRequest(c, t, second)));
    var client := SecondSubmitted(c, t, second);
    var calls := client.calls + [OrderFor(SecondRequest(c, t, second), 3)];
    w.(core := w.core.(client := client.(calls := calls), allocator := FOUR),
       broker := Broker(c.q, Placed(c, t).broker.orders[3 := Order(second, t.signal, SellToClose, 0, None)]))
  }

  lemma SecondPlaceGoes(c: Setup, t: RoundTrip, second: EventId)
    requires Other(c, t, second)
    ensures Goes(c, SecondCall(c, t, second), ONWARD, SecondSent(c, t, second))
  {
  }

  lemma BothFillsGo(c: Setup, t: RoundTrip, second: EventId)
    requires Other(c, t, second)
    ensures var w := SecondSent(c, t, second); Goes(c, w, Fills(2, c.q), Next(c, w, Fills(2, c.q)))
    ensures var first := Next(c, SecondSent(c, t, second), Fills(2, c.q));
            && Goes(c, first, Fills(3, c.q), Next(c, first, Fills(3, c.q)))
            && Next(c, first, Fills(3, c.q)).broker.position == -(c.q as int)
            && !Unorphaned(Next(c, first, Fills(3, c.q)))
  {
    FillCompletes(c, SecondSent(c, t, second), 2);
    FillCompletes(c, Next(c, SecondSent(c, t, second), Fills(2, c.q)), 3);
  }

  lemma SecondIsConsumed(c: Setup, t: RoundTrip, second: EventId) returns (run: seq<Action>, k: nat)
    requires Other(c, t, second)
    ensures k < |run| && run[k] == SecondExit(t, second) && BrokenOnlyAt(c, run, k)
    ensures Leads(c, run, SecondConsumed(c, t, second, PROVED, Idle))
  {
    var exposed := Lost(c, t, SEEN, ReplayedExposed(second, 4, t.signal));
    var durable := SecondReserved(c, t, second, SEEN, ReplayedDurable(second, 4, t.signal));
    run := PlacesAnExit(c, t);
    LossGoes(c, t);
    run := OneMore(c, run, Placed(c, t), Disconnect, Lost(c, t, LOST_SESSION, Idle));
    FlatHelloGoes(c, t);
    run := OneMore(c, run, Lost(c, t, LOST_SESSION, Idle), FLAT_HELLO, Lost(c, t, GAP, Idle));
    k := |run|;
    SecondExitGoes(c, t, second);
    run := Breaks(c, run, Lost(c, t, GAP, Idle), SecondExit(t, second), exposed);
    SecondReserveGoes(c, t, second);
    run := Then(c, run, k, exposed, ONWARD, durable);
    SecondConsumeGoes(c, t, second);
    run := Then(c, run, k, durable, ONWARD, SecondConsumed(c, t, second, PROVED, Idle));
  }

  lemma SecondIsApproved(c: Setup, t: RoundTrip, second: EventId, start: seq<Action>, k: nat)
    returns (run: seq<Action>)
    requires Other(c, t, second) && k < |start| && BrokenOnlyAt(c, start, k)
    requires Leads(c, start, SecondConsumed(c, t, second, PROVED, Idle))
    ensures run == start + [LATE_BEAT, ONWARD] && BrokenOnlyAt(c, run, k) && Leads(c, run, Pending(c, t, second))
  {
    var checked := SecondConsumed(c, t, second, BEATEN, PendingChecked(SecondRequest(c, t, second), 5));
    LateBeatGoes(c, t, second);
    run := Then(c, start, k, SecondConsumed(c, t, second, PROVED, Idle), LATE_BEAT, checked);
    SecondApproveGoes(c, t, second);
    run := Then(c, run, k, checked, ONWARD, Pending(c, t, second));
  }

  lemma SecondIsSubmitted(c: Setup, t: RoundTrip, second: EventId, start: seq<Action>, k: nat)
    returns (run: seq<Action>)
    requires Other(c, t, second) && k < |start| && BrokenOnlyAt(c, start, k)
    requires Leads(c, start, Pending(c, t, second))
    ensures run == start + [ONWARD, ONWARD] && BrokenOnlyAt(c, run, k) && Leads(c, run, SecondCall(c, t, second))
  {
    SecondIssueGoes(c, t, second);
    run := Then(c, start, k, Pending(c, t, second), ONWARD, SecondIssued(c, t, second));
    SecondSubmitGoes(c, t, second);
    run := Then(c, run, k, SecondIssued(c, t, second), ONWARD, SecondCall(c, t, second));
  }

  lemma SecondIsSent(c: Setup, t: RoundTrip, second: EventId, start: seq<Action>, k: nat)
    returns (run: seq<Action>)
    requires Other(c, t, second) && k < |start| && BrokenOnlyAt(c, start, k)
    requires Leads(c, start, Pending(c, t, second))
    ensures run == start + [ONWARD, ONWARD] + [ONWARD] && BrokenOnlyAt(c, run, k)
    ensures Leads(c, run, SecondSent(c, t, second))
  {
    run := SecondIsSubmitted(c, t, second, start, k);
    SecondPlaceGoes(c, t, second);
    run := Then(c, run, k, SecondCall(c, t, second), ONWARD, SecondSent(c, t, second));
  }

  /** With a second exit event for a signal whose close is already at work, the recovery at
      the next heartbeat sends a second close, and both fill. */
  lemma OneExitPerSignalIsNeeded(c: Setup, t: RoundTrip, second: EventId)
    returns (run: seq<Action>, k: nat, w: World)
    requires Other(c, t, second)
    ensures k < |run| && run[k] == SecondExit(t, second) && BrokenOnlyAt(c, run, k)
    ensures Leads(c, run, w) && w.broker.position == -(c.q as int) && !Unorphaned(w)
  {
    run, k := SecondIsConsumed(c, t, second);
    var start := run;
    run := SecondIsApproved(c, t, second, start, k);
    run := SecondIsSent(c, t, second, run, k);
    BothFillsGo(c, t, second);
    var first := Next(c, SecondSent(c, t, second), Fills(2, c.q));
    run := Then(c, run, k, SecondSent(c, t, second), Fills(2, c.q), first);
    w := Next(c, first, Fills(3, c.q));
    run := Then(c, run, k, first, Fills(3, c.q), w);
    assert run[k] == start[k];
  }
}
