/** The ledger's `transition` is two steps: it reads the record and checks the table, then
    writes. The runner thread and the IB thread interleave these steps freely. A record
    belongs to the runner while RESERVED and to the IB thread once its order is placed, so
    what was read is still current when it is written. */
module TwoThreads {
  import opened Protocol
  import opened ExecutionLedgers

  /** A transition between its read and its write. */
  datatype Pending = Pending(event: EventId, seen: Record, next: Status, id: Option<OrderId>)

  datatype Threads = Threads(
    ledger: Ledger,
    runner: Option<Pending>,
    toPlace: Option<OrderId>,       // SUBMITTED is written, the broker call is next
    ib: Option<Pending>,
    placed: set<OrderId>)

  const IDLE := Threads(EMPTY, None, None, None, {})

  datatype Action =
    | RunnerReserves(request: TradeRequest)
    | RunnerReads(event: EventId, next: Status, id: Option<OrderId>)
    | RunnerWrites
    | RunnerPlaces
    | IbReads(event: EventId, next: Status)
    | IbWrites

  /** The read step: the record, if the transition is allowed from what was read. */
  function ReadPhase(l: Ledger, event: EventId, next: Status, id: Option<OrderId>): Option<Pending> {
    if event in l.records && l.records[event].status.MayBecome(next)
    then Some(Pending(event, l.records[event], next, id)) else None
  }

  /** The write step trusts what was read. */
  function WritePhase(l: Ledger, p: Pending): Ledger
    requires p.event in l.records
  {
    var effective := if p.id.Some? then p.id else p.seen.brokerId;
    Ledger(l.records[p.event := l.records[p.event].(status := p.next, brokerId := effective)],
           l.log + [Row(p.event, Some(p.seen.status), p.next, effective)])
  }

  /** The runner moves records it saw RESERVED, submitting under an id no record holds and
      no order carries; IB reports on an id only after its order was placed. */
  predicate Enabled(t: Threads, a: Action) {
    match a
    case RunnerReserves(_) => t.runner.None? && t.toPlace.None?
    case RunnerReads(event, next, id) =>
      && t.runner.None? && t.toPlace.None?
      && event in t.ledger.records && t.ledger.records[event].status == Reserved
      && ((next == Rejected && id.None?) || (next == Submitted && id.Some? && Unused(t, id.value)))
    case RunnerWrites => t.runner.Some?
    case RunnerPlaces => t.toPlace.Some?
    case IbReads(event, next) =>
      && t.ib.None?
      && event in t.ledger.records
      && t.ledger.records[event].brokerId.Some? && t.ledger.records[event].brokerId.value in t.placed
      && next != Submitted
    case IbWrites => t.ib.Some?
  }

  predicate Unused(t: Threads, id: OrderId) {
    && id !in t.placed
    && forall e :: e in t.ledger.records ==> t.ledger.records[e].brokerId != Some(id)
  }

  function Next(t: Threads, a: Action): Threads
    requires Enabled(t, a) && Steady(t)
  {
    match a
    case RunnerReserves(request) => t.(ledger := After(t.ledger, Reserve(t.ledger, request)))
    case RunnerReads(event, next, id) => t.(runner := ReadPhase(t.ledger, event, next, id))
    case RunnerWrites =>
      t.(ledger := WritePhase(t.ledger, t.runner.value), runner := None,
         toPlace := if t.runner.value.next == Submitted then t.runner.value.id else None)
    case RunnerPlaces => t.(placed := t.placed + {t.toPlace.value}, toPlace := None)
    case IbReads(event, next) => t.(ib := ReadPhase(t.ledger, event, next, None))
    case IbWrites => t.(ledger := WritePhase(t.ledger, t.ib.value), ib := None)
  }

  // ---------------------------------------------------------------- invariant

  /** What was read is what is there, and the transition is allowed from it. */
  predicate Current(l: Ledger, p: Pending) {
    p.event in l.records && l.records[p.event] == p.seen && p.seen.status.MayBecome(p.next)
  }

  /** The runner holds only RESERVED records, the IB thread only records of placed orders,
      and a placed order's record has left RESERVED. */
  ghost predicate Steady(t: Threads) {
    match t
    case Threads(ledger, runner, toPlace, ib, placed) =>
      && IdsAfterReserved(ledger)
      && (runner.Some? ==> Current(ledger, runner.value) && runner.value.seen.status == Reserved
                           && (runner.value.id.Some? <==> runner.value.next == Submitted))
      && (ib.Some? ==> Current(ledger, ib.value) && ib.value.seen.brokerId.Some?
                       && ib.value.id.None? && ib.value.next != Submitted)
  }

  /** With what was read still current, read and write together are the atomic transition. */
  lemma CurrentWriteIsAtomic(l: Ledger, p: Pending)
    requires Current(l, p)
    ensures WritePhase(l, p) == After(l, Transition(l, p.event, p.next, p.id))
  {
  }

  lemma StepKeepsSteady(t: Threads, a: Action)
    requires Steady(t) && Enabled(t, a)
    ensures Steady(Next(t, a))
  {
  }

  ghost function EndOf(run: seq<Action>): Option<Threads>
    ensures EndOf(run).Some? ==> Steady(EndOf(run).value)
  {
    if run == [] then Some(IDLE) else
    var before := EndOf(run[..|run| - 1]);
    if before.Some? && Enabled(before.value, run[|run| - 1]) then
      StepKeepsSteady(before.value, run[|run| - 1]);
      Some(Next(before.value, run[|run| - 1]))
    else None
  }

  /** The atomic ledger call each write step amounts to. */
  ghost function AtomicRun(run: seq<Action>): seq<Operation> {
    if run == [] || EndOf(run[..|run| - 1]).None? then [] else
    AtomicRun(run[..|run| - 1]) + AtomicCall(EndOf(run[..|run| - 1]).value, run[|run| - 1])
  }

  function AtomicCall(t: Threads, a: Action): seq<Operation> {
    match a
    case RunnerReserves(request) => [ReserveOp(request)]
    case RunnerWrites => if t.runner.Some? then [CallOf(t.runner.value)] else []
    case IbWrites => if t.ib.Some? then [CallOf(t.ib.value)] else []
    case _ => []
  }

  function CallOf(p: Pending): Operation {
    if p.id.Some? then SubmitOp(p.event, p.id.value) else MarkOp(p.event, p.next)
  }

  lemma CallIsPerformed(t: Threads, a: Action)
    requires Steady(t) && Enabled(t, a)
    ensures var calls := AtomicCall(t, a);
            && |calls| <= 1
            && Next(t, a).ledger == (if calls == [] then t.ledger else Perform(t.ledger, calls[0]))
            && (calls != [] ==> !calls[0].RawOp? && (calls[0].MarkOp? ==> calls[0].next != Submitted))
  {
    match a
    case RunnerWrites => CurrentWriteIsAtomic(t.ledger, t.runner.value);
    case IbWrites => CurrentWriteIsAtomic(t.ledger, t.ib.value);
    case _ =>
  }

  /** Linearizability: every interleaving of the two threads leaves the ledger as some
      sequence of atomic calls would, one per write. */
  lemma {:induction false} InterleavingsAreAtomic(run: seq<Action>)
    requires EndOf(run).Some?
    ensures EndOf(run).value.ledger == PerformAll(AtomicRun(run))
    ensures forall i :: 0 <= i < |AtomicRun(run)| ==>
                          !AtomicRun(run)[i].RawOp?
                          && (AtomicRun(run)[i].MarkOp? ==> AtomicRun(run)[i].next != Submitted)
  {
    if run != [] {
      var earlier, last := run[..|run| - 1], run[|run| - 1];
      InterleavingsAreAtomic(earlier);
      CallIsPerformed(EndOf(earlier).value, last);
      var calls := AtomicCall(EndOf(earlier).value, last);
      if calls == [] {
        assert AtomicRun(run) == AtomicRun(earlier);
      } else {
        assert AtomicRun(run) == AtomicRun(earlier) + [calls[0]];
        assert AtomicRun(run)[..|AtomicRun(run)| - 1] == AtomicRun(earlier);
      }
    }
  }

  /** So in every interleaving each history follows the table of allowed transitions, each
      row starting from the status the previous row ended in, and broker ids are written once. */
  lemma InterleavingsKeepLedger(run: seq<Action>)
    requires EndOf(run).Some?
    ensures Agrees(EndOf(run).value.ledger) && IdsWrittenOnce(EndOf(run).value.ledger)
  {
    InterleavingsAreAtomic(run);
    LedgerAgreesWithLog(AtomicRun(run));
    BrokerIdWrittenOnce(AtomicRun(run));
  }

  // ------------------------------------------------------- without ownership

  lemma HistoryAfterWrite(l: Ledger, p: Pending, event: EventId)
    requires p.event in l.records
    ensures var log := WritePhase(l, p).log;
            History(log, event)
            == if p.event == event then History(l.log, event) + [log[|l.log|]] else History(l.log, event)
  {
    HistoryOfAppended(l.log, WritePhase(l, p).log[|l.log|], event);
  }

  lemma StaleWriteBreaksChain(l: Ledger, p: Pending)
    requires Agrees(l) && p.event in l.records && l.records[p.event].status != p.seen.status
    ensures !Agrees(WritePhase(l, p))
  {
    var after, h := WritePhase(l, p), History(l.log, p.event);
    assert AgreesAt(l, p.event);
    HistoryAfterWrite(l, p, p.event);
    var longer := History(after.log, p.event);
    assert longer == h + [after.log[|l.log|]];
    assert longer[|h|].before == Some(p.seen.status) && longer[|h| - 1] == h[|h| - 1];
    assert !Chain(longer);
    assert !AgreesAt(after, p.event);
  }

  lemma CurrentStatusKeepsChain(l: Ledger, p: Pending)
    requires Agrees(l) && p.event in l.records && p.seen.status.MayBecome(p.next)
    requires l.records[p.event].status == p.seen.status
    ensures Agrees(WritePhase(l, p))
  {
    var after := WritePhase(l, p);
    forall e ensures AgreesAt(after, e) {
      assert AgreesAt(l, e);
      HistoryAfterWrite(l, p, e);
      if e == p.event {
        ExplainsAppended(History(l.log, e), l.records[e], after.log[|l.log|], after.records[e]);
      }
    }
  }

  /** The exact condition: a checked write keeps ledger and log in agreement if and only if
      the status read is still the record's status. */
  lemma WriteKeepsLedgerIffCurrent(l: Ledger, p: Pending)
    requires Agrees(l) && p.event in l.records && p.seen.status.MayBecome(p.next)
    ensures Agrees(WritePhase(l, p)) <==> l.records[p.event].status == p.seen.status
  {
    if l.records[p.event].status == p.seen.status {
      CurrentStatusKeepsChain(l, p);
    } else {
      StaleWriteBreaksChain(l, p);
    }
  }

  /** Two threads that both read a SUBMITTED record, one to fill it and one to cancel it,
      leave a terminal status twice in the log: without ownership the ledger breaks. */
  lemma RacingWritersBreakLedger(l: Ledger, event: EventId)
    requires Agrees(l) && event in l.records && l.records[event].status == Submitted
    ensures var fill, cancel := ReadPhase(l, event, Filled, None), ReadPhase(l, event, Cancelled, None);
            && fill.Some? && cancel.Some?
            && Agrees(WritePhase(l, fill.value))
            && !Agrees(WritePhase(WritePhase(l, fill.value), cancel.value))
  {
    var fill, cancel := ReadPhase(l, event, Filled, None).value, ReadPhase(l, event, Cancelled, None).value;
    WriteKeepsLedgerIffCurrent(l, fill);
    WriteKeepsLedgerIffCurrent(WritePhase(l, fill), cancel);
  }
}
