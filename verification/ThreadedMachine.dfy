/** The execution machine with its steps taken apart: the client gets and checks a record,
    then `transition` reads it again, then writes; a handler finds and decides, then
    `transition` reads, then writes, then the execution row follows. The runner thread and
    the IB thread interleave all of these. Every such interleaving is a run of the machine
    in `ExecutionMachines`, where submission and callback are single actions. */
module ThreadedMachines {
  import opened Protocol
  import opened ExecutionLedgers
  import opened OrderCallbacks
  import opened ExecutionClients
  import opened OrderIdAllocators
  import Split = TwoThreads
  import Core = ExecutionMachines

  /** The runner thread between two steps. */
  datatype Runner =
    | RunnerIdle
    | ReserveChecked(request: TradeRequest)
    | SubmitChecked(request: TradeRequest, contractValid: bool)
    | SubmitRead(request: TradeRequest, contractValid: bool, pending: Split.Pending)
    | Placing(call: Call)
    | ResolveRead(pending: Split.Pending)

  /** The IB thread between two steps. */
  datatype Ib =
    | IbIdle
    | Decided(report: Report, event: EventId, next: Status)
    | IbRead(report: Report, pending: Split.Pending)
    | Inserting(execution: Execution, event: EventId)

  datatype System = System(
    ledger: Ledger,
    guard: map<EventId, SignalId>,
    calls: seq<Call>,
    rows: map<string, ExecRow>,
    allocator: Allocator,
    issued: Option<OrderId>,
    runner: Runner,
    ib: Ib)

  datatype Action =
    | Connect(nextValidId: OrderId)
    | ObserveId(id: OrderId)
    | Issue
    | CheckReserve(request: TradeRequest)
    | WriteReserve
    | CheckSubmit(request: TradeRequest, contractValid: bool)
    | ReadSubmit
    | WriteSubmit
    | Place
    | ReadResolve(event: EventId)
    | WriteResolve
    | Find(report: Report)
    | ReadCallback
    | WriteCallback
    | Insert
    | Crash

  const START := System(EMPTY, map[], [], map[], FRESH, None, RunnerIdle, IbIdle)

  function TablesOf(s: System): Books {
    Books(s.ledger, s.rows)
  }

  /** What the machine with single actions sees of the threads. */
  function Seen(s: System): Core.Machine {
    Core.Machine(Client(s.ledger, s.guard, s.calls), s.rows, s.allocator, s.issued,
                 if s.runner.Placing? then Some(s.runner.call) else None,
                 if s.ib.Inserting? then Some((s.ib.execution, s.ib.event)) else None)
  }

  // -------------------------------------------------------------------- steps

  predicate Enabled(s: System, a: Action) {
    match a
    case Connect(_) => true
    case ObserveId(_) => true
    case Issue => s.runner.RunnerIdle? && Allocate(s.allocator).Some?
    case CheckReserve(_) => s.runner.RunnerIdle?
    case WriteReserve => s.runner.ReserveChecked?
    case CheckSubmit(_, _) => s.runner.RunnerIdle? && s.issued.Some?
    case ReadSubmit => s.runner.SubmitChecked? && s.issued.Some?
    case WriteSubmit => s.runner.SubmitRead? && s.issued.Some?
    case Place => s.runner.Placing?
    case ReadResolve(_) => s.runner.RunnerIdle?
    case WriteResolve => s.runner.ResolveRead?
    case Find(_) => s.ib.IbIdle?
    case ReadCallback => s.ib.Decided?
    case WriteCallback => s.ib.IbRead?
    case Insert => s.ib.Inserting?
    case Crash => true
  }

  predicate ReservedFor(l: Ledger, request: TradeRequest) {
    && request.event in l.records
    && l.records[request.event].status == Reserved
    && Matches(l.records[request.event], request)
  }

  /** The insertion trusts the checks made before it. */
  function InsertReserved(l: Ledger, request: TradeRequest): Ledger {
    Ledger(l.records[request.event :=
             Record(request.signal, request.symbol, request.intent, request.quantity, Reserved, None)],
           l.log + [Row(request.event, None, Reserved, None)])
  }

  /** The write of a transition trusts what was read before it. */
  function Write(l: Ledger, p: Split.Pending): Ledger {
    if p.event in l.records then Split.WritePhase(l, p) else l
  }

  function GuardAfter(guard: map<EventId, SignalId>, request: TradeRequest): map<EventId, SignalId> {
    if request.event in guard then guard else guard[request.event := request.signal]
  }

  function OnReadSubmit(s: System): Runner
    requires s.runner.SubmitChecked? && s.issued.Some?
  {
    var request, valid := s.runner.request, s.runner.contractValid;
    var read := if Constructible(request, valid) then Split.ReadPhase(s.ledger, request.event, Submitted, s.issued)
                else Split.ReadPhase(s.ledger, request.event, Rejected, None);
    if read.Some? then SubmitRead(request, valid, read.value) else RunnerIdle
  }

  function OnWriteSubmit(s: System): System
    requires s.runner.SubmitRead? && s.issued.Some?
  {
    var request, p := s.runner.request, s.runner.pending;
    var written := s.(ledger := Write(s.ledger, p), guard := GuardAfter(s.guard, request));
    if p.next == Submitted then written.(issued := None, runner := Placing(OrderFor(request, s.issued.value)))
    else written.(runner := RunnerIdle)
  }

  ghost function OnFind(s: System, r: Report): Ib {
    var wanted := RequestOf(TablesOf(s), r);
    if wanted.Some? then Decided(r, wanted.value.0, wanted.value.1)
    else if r.ExecDetails? && Screen(TablesOf(s), r.execution).Accept?
    then Inserting(r.execution, Screen(TablesOf(s), r.execution).event)
    else IbIdle
  }

  function OnReadCallback(s: System): Ib
    requires s.ib.Decided?
  {
    var read := Split.ReadPhase(s.ledger, s.ib.event, s.ib.next, None);
    if read.Some? then IbRead(s.ib.report, read.value) else IbIdle
  }

  function OnWriteCallback(s: System): System
    requires s.ib.IbRead?
  {
    var r, p := s.ib.report, s.ib.pending;
    s.(ledger := Write(s.ledger, p), ib := if r.ExecDetails? then Inserting(r.execution, p.event) else IbIdle)
  }

  ghost function Next(s: System, a: Action): System
    requires Enabled(s, a)
  {
    match a
    case Connect(id) => s.(allocator := EnsureMinimum(Initialize(s.allocator, id), Core.DurableFloor(s.ledger)))
    case ObserveId(id) => s.(allocator := Observe(s.allocator, id))
    case Issue => s.(allocator := Allocate(s.allocator).value.1, issued := Some(Allocate(s.allocator).value.0))
    case CheckReserve(request) =>
      if request.event in s.ledger.records || request.event in s.guard || request.quantity <= 0 then s
      else s.(runner := ReserveChecked(request))
    case WriteReserve =>
      var request := s.runner.request;
      s.(ledger := InsertReserved(s.ledger, request), guard := s.guard[request.event := request.signal],
         runner := RunnerIdle)
    case CheckSubmit(request, valid) =>
      if ReservedFor(s.ledger, request) then s.(runner := SubmitChecked(request, valid)) else s
    case ReadSubmit => s.(runner := OnReadSubmit(s))
    case WriteSubmit => OnWriteSubmit(s)
    case Place => s.(calls := s.calls + [s.runner.call], runner := RunnerIdle)
    case ReadResolve(event) =>
      if event in s.ledger.records && s.ledger.records[event].status == Reserved
      then s.(runner := ResolveRead(Split.Pending(event, s.ledger.records[event], Rejected, None))) else s
    case WriteResolve => s.(ledger := Write(s.ledger, s.runner.pending), runner := RunnerIdle)
    case Find(r) => s.(ib := OnFind(s, r))
    case ReadCallback => s.(ib := OnReadCallback(s))
    case WriteCallback => OnWriteCallback(s)
    case Insert => s.(rows := WithRow(s.rows, s.ib.execution, s.ib.event), ib := IbIdle)
    case Crash => System(s.ledger, map[], s.calls, s.rows, FRESH, None, RunnerIdle, IbIdle)
  }

  /** The step at which an operation takes effect, as the action it is there. */
  ghost function TakesEffect(s: System, a: Action): Option<Core.Action>
    requires Enabled(s, a)
  {
    match a
    case Connect(id) => Some(Core.Connect(id))
    case ObserveId(id) => Some(Core.ObserveId(id))
    case Issue => Some(Core.Issue)
    case WriteReserve => Some(Core.ReserveEvent(s.runner.request))
    case WriteSubmit => Some(Core.Begin(s.runner.request, s.runner.contractValid))
    case Place => Some(Core.Place)
    case WriteResolve => Some(Core.ResolveUnsent(s.runner.pending.event))
    case Find(r) => if OnFind(s, r).Inserting? then Some(Core.Callback(r)) else None
    case WriteCallback => Some(Core.Callback(s.ib.report))
    case Insert => Some(Core.InsertRow)
    case Crash => Some(Core.Crash)
    case _ => None
  }

  // ---------------------------------------------------------------- invariant

  /** What the runner thread has checked or read still stands. */
  predicate RunnerStands(l: Ledger, guard: map<EventId, SignalId>, issued: Option<OrderId>, runner: Runner) {
    match runner
    case RunnerIdle => true
    case ReserveChecked(request) => request.event !in l.records && request.event !in guard && request.quantity > 0
    case SubmitChecked(request, _) => ReservedFor(l, request)
    case SubmitRead(request, valid, p) =>
      && ReservedFor(l, request)
      && p.event == request.event && p.seen == l.records[p.event]
      && (if Constructible(request, valid) then p.next == Submitted && p.id == issued && issued.Some?
          else p.next == Rejected && p.id.None?)
    case Placing(_) => true
    case ResolveRead(p) =>
      && p.event in l.records && p.seen == l.records[p.event] && p.seen.status == Reserved
      && p.next == Rejected && p.id.None?
  }

  /** What the IB thread has decided is what it would decide now. */
  ghost predicate IbStands(l: Ledger, rows: map<string, ExecRow>, ib: Ib) {
    match ib
    case IbIdle => true
    case Decided(r, event, next) => RequestOf(Books(l, rows), r) == Some((event, next))
    case IbRead(r, p) => RequestOf(Books(l, rows), r) == Some((p.event, p.next)) && Split.Current(l, p) && p.id.None?
    case Inserting(_, _) => true
  }

  ghost predicate Steady(s: System) {
    match s
    case System(ledger, guard, _, rows, _, issued, runner, ib) =>
      Core.Sound(Seen(s)) && RunnerStands(ledger, guard, issued, runner) && IbStands(ledger, rows, ib)
  }

  // --------------------------------------------------------------- refinement

  lemma InsertIsReserve(client: Client, request: TradeRequest)
    requires request.event !in client.ledger.records && request.event !in client.guard && request.quantity > 0
    ensures ReserveExecution(client, request).client
            == Client(InsertReserved(client.ledger, request), client.guard[request.event := request.signal],
                      client.calls)
  {
  }

  /** A write of what was read, with the record unchanged since, is the atomic transition. */
  lemma WriteIsTransition(l: Ledger, p: Split.Pending)
    requires Split.Current(l, p)
    ensures Write(l, p) == After(l, Transition(l, p.event, p.next, p.id))
  {
    Split.CurrentWriteIsAtomic(l, p);
  }

  lemma SubmitRefines(s: System)
    requires Steady(s) && Enabled(s, WriteSubmit)
    ensures Core.Enabled(Seen(s), Core.Begin(s.runner.request, s.runner.contractValid))
    ensures Seen(Next(s, WriteSubmit)) == Core.Next(Seen(s), Core.Begin(s.runner.request, s.runner.contractValid))
  {
    WriteIsTransition(s.ledger, s.runner.pending);
  }

  lemma CallbackRefines(s: System)
    requires Steady(s) && Enabled(s, WriteCallback)
    ensures Core.Enabled(Seen(s), Core.Callback(s.ib.report))
    ensures Seen(Next(s, WriteCallback)) == Core.Next(Seen(s), Core.Callback(s.ib.report))
  {
    WriteIsTransition(s.ledger, s.ib.pending);
    assert Core.Tables(Seen(s)) == TablesOf(s);
  }

  lemma FindRefines(s: System, r: Report)
    requires Enabled(s, Find(r)) && OnFind(s, r).Inserting?
    ensures Core.Enabled(Seen(s), Core.Callback(r))
    ensures Seen(Next(s, Find(r))) == Core.Next(Seen(s), Core.Callback(r))
  {
    assert Core.Tables(Seen(s)) == TablesOf(s);
  }

  /** Reads and checks are invisible to the machine. */
  lemma ChecksAreInvisible(s: System, a: Action)
    requires Enabled(s, a)
    requires a.CheckReserve? || a.CheckSubmit? || a.ReadSubmit? || a.ReadResolve? || a.ReadCallback?
    ensures TakesEffect(s, a).None? && Seen(Next(s, a)) == Seen(s)
  {
  }

  lemma SingleStepRefines(s: System, a: Action)
    requires Enabled(s, a)
    requires a.Connect? || a.ObserveId? || a.Issue? || a.Place? || a.Insert? || a.Crash?
    ensures TakesEffect(s, a).Some? && Core.Enabled(Seen(s), TakesEffect(s, a).value)
    ensures Seen(Next(s, a)) == Core.Next(Seen(s), TakesEffect(s, a).value)
  {
  }

  lemma ReserveRefines(s: System)
    requires Steady(s) && Enabled(s, WriteReserve)
    ensures Core.Enabled(Seen(s), Core.ReserveEvent(s.runner.request))
    ensures Seen(Next(s, WriteReserve)) == Core.Next(Seen(s), Core.ReserveEvent(s.runner.request))
  {
    InsertIsReserve(Seen(s).client, s.runner.request);
  }

  lemma ResolveRefines(s: System)
    requires Steady(s) && Enabled(s, WriteResolve)
    ensures Core.Enabled(Seen(s), Core.ResolveUnsent(s.runner.pending.event))
    ensures Seen(Next(s, WriteResolve)) == Core.Next(Seen(s), Core.ResolveUnsent(s.runner.pending.event))
  {
    WriteIsTransition(s.ledger, s.runner.pending);
  }

  /** Each step of a thread is one action of the machine, or none. */
  lemma StepRefines(s: System, a: Action)
    requires Steady(s) && Enabled(s, a)
    ensures TakesEffect(s, a).None? ==> Seen(Next(s, a)) == Seen(s)
    ensures TakesEffect(s, a).Some? ==>
              && Core.Enabled(Seen(s), TakesEffect(s, a).value)
              && Seen(Next(s, a)) == Core.Next(Seen(s), TakesEffect(s, a).value)
  {
    match a
    case WriteReserve => ReserveRefines(s);
    case WriteSubmit => SubmitRefines(s);
    case WriteResolve => ResolveRefines(s);
    case WriteCallback => CallbackRefines(s);
    case Find(r) =>
      if OnFind(s, r).Inserting? {
        FindRefines(s, r);
      }
    case _ =>
      if TakesEffect(s, a).Some? {
        SingleStepRefines(s, a);
      } else {
        ChecksAreInvisible(s, a);
      }
  }

  // --------------------------------------------- the threads leave each other be

  lemma SameHoldersSameLookup(l: Ledger, n: Ledger, id: OrderId)
    requires Holders(l, id) == Holders(n, id)
    ensures LookupOf(l, id) == LookupOf(n, id)
  {
  }

  /** One record written, and neither before nor after under order id `id`. */
  lemma OtherWriteKeepsHolders(l: Ledger, n: Ledger, event: EventId, id: OrderId)
    requires event in n.records && n.records == l.records[event := n.records[event]]
    requires event in l.records ==> l.records[event].brokerId != Some(id)
    requires n.records[event].brokerId != Some(id)
    ensures Holders(n, id) == Holders(l, id)
  {
  }

  /** A decision stands while its own record and the holders of its order id do. */
  lemma DecisionStands(l: Ledger, n: Ledger, rows: map<string, ExecRow>, r: Report)
    requires RequestOf(Books(l, rows), r).Some?
    requires var e := RequestOf(Books(l, rows), r).value.0;
             e in n.records && e in l.records && n.records[e] == l.records[e]
    requires Target(r) >= 0 ==> Holders(n, Target(r)) == Holders(l, Target(r))
    ensures RequestOf(Books(n, rows), r) == RequestOf(Books(l, rows), r)
  {
    if Target(r) >= 0 {
      SameHoldersSameLookup(l, n, Target(r));
    }
  }

  lemma DecisionNamesHolder(b: Books, r: Report)
    requires RequestOf(b, r).Some?
    ensures Target(r) >= 0
    ensures var e := RequestOf(b, r).value.0; e in b.ledger.records && b.ledger.records[e].brokerId == Some(Target(r))
  {
  }

  /** A write to a record that is new or RESERVED, under no order id in use, does not disturb
      the IB thread. */
  lemma RunnerWriteKeepsIb(l: Ledger, n: Ledger, rows: map<string, ExecRow>, event: EventId, ib: Ib)
    requires IbStands(l, rows, ib) && IdsAfterReserved(l)
    requires event in l.records ==> l.records[event].status == Reserved
    requires event in n.records && n.records == l.records[event := n.records[event]]
    requires n.records[event].brokerId.Some? ==> Core.StoredBelow(l, n.records[event].brokerId.value)
    ensures IbStands(n, rows, ib)
  {
    if ib.Decided? || ib.IbRead? {
      var r := ib.report;
      DecisionNamesHolder(Books(l, rows), r);
      OtherWriteKeepsHolders(l, n, event, Target(r));
      DecisionStands(l, n, rows, r);
    }
  }

  /** A write to a record past RESERVED does not disturb the runner thread. */
  lemma IbWriteKeepsRunner(l: Ledger, n: Ledger, guard: map<EventId, SignalId>, issued: Option<OrderId>,
                           event: EventId, runner: Runner)
    requires RunnerStands(l, guard, issued, runner)
    requires event in l.records && l.records[event].status != Reserved
    requires event in n.records && n.records == l.records[event := n.records[event]]
    ensures RunnerStands(n, guard, issued, runner)
  {
  }

  lemma WriteCallbackKeepsSteady(s: System)
    requires Steady(s) && Enabled(s, WriteCallback)
    ensures Steady(Next(s, WriteCallback))
  {
    var p, after := s.ib.pending, Next(s, WriteCallback);
    CallbackRefines(s);
    Core.StepKeepsSound(Seen(s), Core.Callback(s.ib.report));
    DecisionNamesHolder(TablesOf(s), s.ib.report);
    IbWriteKeepsRunner(s.ledger, after.ledger, s.guard, s.issued, p.event, s.runner);
  }

  lemma WriteReserveKeepsSteady(s: System)
    requires Steady(s) && Enabled(s, WriteReserve)
    ensures Steady(Next(s, WriteReserve))
  {
    var request, after := s.runner.request, Next(s, WriteReserve);
    ReserveRefines(s);
    Core.StepKeepsSound(Seen(s), Core.ReserveEvent(request));
    RunnerWriteKeepsIb(s.ledger, after.ledger, s.rows, request.event, s.ib);
  }

  lemma WriteSubmitKeepsSteady(s: System)
    requires Steady(s) && Enabled(s, WriteSubmit)
    ensures Steady(Next(s, WriteSubmit))
  {
    var request, after := s.runner.request, Next(s, WriteSubmit);
    SubmitRefines(s);
    Core.StepKeepsSound(Seen(s), Core.Begin(request, s.runner.contractValid));
    assert s.ledger.records[request.event].brokerId.None?;
    RunnerWriteKeepsIb(s.ledger, after.ledger, s.rows, request.event, s.ib);
  }

  lemma WriteResolveKeepsSteady(s: System)
    requires Steady(s) && Enabled(s, WriteResolve)
    ensures Steady(Next(s, WriteResolve))
  {
    var event, after := s.runner.pending.event, Next(s, WriteResolve);
    ResolveRefines(s);
    Core.StepKeepsSound(Seen(s), Core.ResolveUnsent(event));
    assert s.ledger.records[event].brokerId.None?;
    RunnerWriteKeepsIb(s.ledger, after.ledger, s.rows, event, s.ib);
  }

  /** Steps that write no record leave what both threads rely on. */
  lemma FirstChecksStand(s: System, a: Action)
    requires RunnerStands(s.ledger, s.guard, s.issued, s.runner) && Enabled(s, a)
    requires a.CheckReserve? || a.CheckSubmit? || a.ReadResolve?
    ensures Next(s, a) == s.(runner := Next(s, a).runner) && !Next(s, a).runner.Placing?
    ensures RunnerStands(s.ledger, s.guard, s.issued, Next(s, a).runner)
  {
  }

  lemma ReadSubmitStands(s: System)
    requires RunnerStands(s.ledger, s.guard, s.issued, s.runner) && Enabled(s, ReadSubmit)
    ensures RunnerStands(s.ledger, s.guard, s.issued, OnReadSubmit(s)) && !OnReadSubmit(s).Placing?
  {
  }

  lemma RunnerMayChange(s: System, runner: Runner)
    requires Steady(s) && !s.runner.Placing? && !runner.Placing?
    requires RunnerStands(s.ledger, s.guard, s.issued, runner)
    ensures Steady(s.(runner := runner))
  {
    assert Seen(s.(runner := runner)) == Seen(s);
  }

  lemma ChecksStand(s: System, a: Action)
    requires Steady(s) && Enabled(s, a)
    requires a.CheckReserve? || a.CheckSubmit? || a.ReadSubmit? || a.ReadResolve?
    ensures Steady(Next(s, a))
  {
    if a.ReadSubmit? {
      ReadSubmitStands(s);
      RunnerMayChange(s, OnReadSubmit(s));
    } else {
      FirstChecksStand(s, a);
      RunnerMayChange(s, Next(s, a).runner);
    }
  }

  lemma ReadStands(s: System)
    requires Steady(s) && Enabled(s, ReadCallback)
    ensures var n := Next(s, ReadCallback);
            IbStands(n.ledger, n.rows, n.ib) && n == s.(ib := n.ib) && Seen(n) == Seen(s)
  {
    ChecksAreInvisible(s, ReadCallback);
  }

  lemma FindStands(s: System, r: Report)
    requires Steady(s) && Enabled(s, Find(r))
    ensures Steady(Next(s, Find(r)))
  {
    StepRefines(s, Find(r));
    if OnFind(s, r).Inserting? {
      Core.StepKeepsSound(Seen(s), Core.Callback(r));
    }
  }

  lemma SingleStepKeepsSteady(s: System, a: Action)
    requires Steady(s) && Enabled(s, a)
    requires a.Connect? || a.ObserveId? || a.Issue? || a.Place? || a.Insert? || a.Crash?
    ensures Steady(Next(s, a))
  {
    SingleStepRefines(s, a);
    Core.StepKeepsSound(Seen(s), TakesEffect(s, a).value);
  }

  lemma StepKeepsSteady(s: System, a: Action)
    requires Steady(s) && Enabled(s, a)
    ensures Steady(Next(s, a))
  {
    match a
    case WriteReserve => WriteReserveKeepsSteady(s);
    case WriteSubmit => WriteSubmitKeepsSteady(s);
    case WriteResolve => WriteResolveKeepsSteady(s);
    case WriteCallback => WriteCallbackKeepsSteady(s);
    case Find(r) => FindStands(s, r);
    case ReadCallback => ReadStands(s);
    case _ =>
      if TakesEffect(s, a).Some? {
        SingleStepKeepsSteady(s, a);
      } else {
        ChecksStand(s, a);
      }
  }

  // --------------------------------------------------------------------- runs

  ghost function EndOf(run: seq<Action>): Option<System> {
    if run == [] then Some(START) else
    var before := EndOf(run[..|run| - 1]);
    if before.Some? && Enabled(before.value, run[|run| - 1]) then Some(Next(before.value, run[|run| - 1])) else None
  }

  /** The machine actions of an interleaving, each where it takes effect. */
  ghost function Effects(run: seq<Action>): seq<Core.Action> {
    if run == [] || EndOf(run).None? then
      []
    else
      var earlier, last := run[..|run| - 1], run[|run| - 1];
      var effect := TakesEffect(EndOf(earlier).value, last);
      if effect.Some? then Effects(earlier) + [effect.value] else Effects(earlier)
  }

  lemma EffectExtends(run: seq<Core.Action>, m: Core.Machine, a: Core.Action)
    requires Core.Leads(run, m) && Core.Enabled(m, a)
    ensures Core.Leads(run + [a], Core.Next(m, a))
  {
    assert (run + [a])[..|run|] == run;
  }

  /** Every interleaving of the two threads, with crashes anywhere, is a run of the machine
      in which submissions and callbacks are atomic. */
  lemma {:induction false} ThreadsRefineMachine(run: seq<Action>, s: System)
    requires EndOf(run) == Some(s)
    ensures Steady(s) && Core.Leads(Effects(run), Seen(s))
  {
    if run != [] {
      var earlier, last := run[..|run| - 1], run[|run| - 1];
      var before := EndOf(earlier).value;
      ThreadsRefineMachine(earlier, before);
      StepKeepsSteady(before, last);
      StepRefines(before, last);
      if TakesEffect(before, last).Some? {
        EffectExtends(Effects(earlier), Seen(before), TakesEffect(before, last).value);
      }
    }
  }

  /** So over every interleaving: at most one broker call per event, ledger and log agree,
      broker ids are unique and written once, and no event has more than five rows. */
  lemma ThreadsKeepGuarantees(run: seq<Action>, s: System, event: EventId)
    requires EndOf(run) == Some(s)
    ensures |Core.CallsFor(s.calls, event)| <= 1
    ensures event !in s.ledger.records || s.ledger.records[event].status == Reserved ==>
              Core.CallsFor(s.calls, event) == []
    ensures Agrees(s.ledger) && IdsWrittenOnce(s.ledger) && UniqueIds(s.ledger)
    ensures |History(s.ledger.log, event)| <= 5
  {
    ThreadsRefineMachine(run, s);
    Core.AtMostOneSubmission(Effects(run), Seen(s), event);
    Core.AtMostFiveRowsPerEvent(Effects(run), Seen(s), event);
    Core.BrokerIdsUniqueAcrossRestarts(Effects(run), Seen(s), 0);
  }
}
