/** The runner's stateless decisions: does the broker agree with the durable lifecycle, is a
    request admissible, may a reserved exit be recovered, does Eagle's hello agree. */
module RunnerDecisions {
  import opened Protocol
  import opened ExecutionLedgers
  import opened SignalLifecycles
  import Risk = RiskManagers

  const MAX_CONFIGURABLE_QUANTITY := 10

  type Quantity = q: int | 1 <= q <= MAX_CONFIGURABLE_QUANTITY witness 1

  const SYMBOL := "MBT"

  /** What the durable lifecycle says about open signals. */
  datatype Opens = NoneOpen | OneOpen(signal: SignalId, state: SignalState) | SeveralOpen

  function OpenSignals(life: Lifecycle): set<SignalId> {
    set s | s in life && life[s].state != Closed
  }

  ghost function OpensOf(life: Lifecycle): (opens: Opens)
    ensures opens.NoneOpen? <==> forall s :: s in life ==> life[s].state == Closed
    ensures opens.OneOpen? ==>
              && opens.signal in life && life[opens.signal].state == opens.state && opens.state != Closed
              && forall s :: s in life && s != opens.signal ==> life[s].state == Closed
  {
    assert forall s :: s in OpenSignals(life) <==> s in life && life[s].state != Closed;
    if OpenSignals(life) == {} then
      NoneOpen
    else
      var s :| s in OpenSignals(life);
      if OpenSignals(life) == {s} then OneOpen(s, life[s].state) else SeveralOpen
  }

  lemma OnlyOpenSignal(life: Lifecycle, signal: SignalId)
    requires signal in life && life[signal].state != Closed
    requires forall s :: s in life && s != signal ==> life[s].state == Closed
    ensures OpensOf(life) == OneOpen(signal, life[signal].state)
  {
    assert OpenSignals(life) == {signal};
  }

  /** `n` contracts on the side of a signal. */
  function Signed(state: SignalState, n: int): int {
    match state
    case LongOpen => n
    case ShortOpen => -n
    case Closed => 0
  }

  /** The open state an intent leads to or starts from. */
  function Side(intent: TradeIntent): SignalState {
    if intent.BuyToOpen? || intent.SellToClose? then LongOpen else ShortOpen
  }

  datatype Reason =
    | NotAuthorized | WrongSymbol | WrongQuantity | NotClosing | BrokerFlat | BrokerNotFlat | OutsideQuantity
    | SeveralSignals | FlatButOpen | ExposedButNoSignal | NoSingleSignal | SignalMismatch | DirectionMismatch
    | SeveralEaglePositions | EagleMissing | EagleUnexpected | MalformedEaglePosition

  datatype Ruling = Pass | Stop(reason: Reason)

  // ------------------------------------------------------------ reconciliation

  function Reconcile(position: int, opens: Opens, q: Quantity): Ruling {
    if position != -(q as int) && position != 0 && position != q then Stop(OutsideQuantity)
    else if opens.SeveralOpen? then Stop(SeveralSignals)
    else if position == 0 then (if opens.NoneOpen? then Pass else Stop(FlatButOpen))
    else if opens.NoneOpen? then Stop(ExposedButNoSignal)
    else if position == q && opens.state != LongOpen then Stop(DirectionMismatch)
    else if position == -(q as int) && opens.state != ShortOpen then Stop(DirectionMismatch)
    else Pass
  }

  /** The position that belongs to the durable lifecycle; none if two signals are open. */
  function OwedPosition(opens: Opens, q: Quantity): Option<int> {
    match opens
    case NoneOpen => Some(0)
    case OneOpen(_, state) => Some(Signed(state, q))
    case SeveralOpen => None
  }

  /** Reconciliation passes exactly when the broker holds what the lifecycle says is owed. */
  lemma ReconcileMeansOwed(position: int, life: Lifecycle, q: Quantity)
    ensures Reconcile(position, OpensOf(life), q) == Pass <==> OwedPosition(OpensOf(life), q) == Some(position)
  {
  }

  // ----------------------------------------------------------- request policy

  function ValidateClose(request: TradeRequest, held: int, position: int, opens: Opens, state: SignalState): Ruling {
    if position != held then Stop(OutsideQuantity)
    else if !opens.OneOpen? then Stop(NoSingleSignal)
    else if opens.state != state then Stop(DirectionMismatch)
    else if opens.signal != request.signal then Stop(SignalMismatch)
    else Pass
  }

  function ValidateRequest(request: TradeRequest, position: int, opens: Opens, q: Quantity): Ruling {
    if request.symbol != SYMBOL then Stop(WrongSymbol)
    else if request.quantity != q then Stop(WrongQuantity)
    else
      match request.intent
      case BuyToOpen => ValidateOpen(position, opens)
      case SellToOpen => ValidateOpen(position, opens)
      case SellToClose => ValidateClose(request, q, position, opens, LongOpen)
      case BuyToClose => ValidateClose(request, -(q as int), position, opens, ShortOpen)
  }

  function ValidateOpen(position: int, opens: Opens): Ruling {
    if position != 0 then Stop(BrokerNotFlat)
    else if !opens.NoneOpen? then Stop(SeveralSignals)
    else Pass
  }

  function ExpectedPosition(request: TradeRequest): int {
    if request.intent.Closing() then 0 else request.intent.Sign() * request.quantity
  }

  /** evaluate_reserved_exit_recovery, check by check. */
  function EvaluateRecovery(request: TradeRequest, position: int, opens: Opens, authorized: bool, q: Quantity): Ruling {
    if !authorized then Stop(NotAuthorized)
    else if request.symbol != SYMBOL then Stop(WrongSymbol)
    else if request.quantity != q then Stop(WrongQuantity)
    else if !request.intent.Closing() then Stop(NotClosing)
    else if position == 0 then Stop(BrokerFlat)
    else if position != -(q as int) && position != q then Stop(OutsideQuantity)
    else if !opens.OneOpen? then Stop(NoSingleSignal)
    else if opens.signal != request.signal then Stop(SignalMismatch)
    else if request.intent.SellToClose? then
      (if position != q then Stop(OutsideQuantity)
       else if opens.state != LongOpen then Stop(DirectionMismatch)
       else Pass)
    else
      (if position != -(q as int) then Stop(OutsideQuantity)
       else if opens.state != ShortOpen then Stop(DirectionMismatch)
       else Pass)
  }

  /** The recovery gate and the live request policy, written separately, admit the same closes. */
  lemma RecoveryIsValidatedClose(request: TradeRequest, position: int, opens: Opens, authorized: bool, q: Quantity)
    ensures EvaluateRecovery(request, position, opens, authorized, q) == Pass <==>
              authorized && request.intent.Closing() && ValidateRequest(request, position, opens, q) == Pass
  {
  }

  /** An admitted request starts from a reconciled position, closes the open signal or opens
      from flat, and leads to a position that reconciles with the lifecycle it commits. */
  lemma AdmittedRequestKeepsReconciliation(request: TradeRequest, position: int, life: Lifecycle, q: Quantity)
    requires ValidateRequest(request, position, OpensOf(life), q) == Pass
    ensures Reconcile(position, OpensOf(life), q) == Pass
    ensures position + request.intent.Sign() * q == ExpectedPosition(request)
    ensures request.intent.Closing() ==> Accepts(life, request)
    ensures Accepts(life, request) ==>
              Reconcile(ExpectedPosition(request), OpensOf(Process(life, request)), q) == Pass
  {
    if Accepts(life, request) {
      var after := Process(life, request);
      if !request.intent.Closing() {
        OnlyOpenSignal(after, request.signal);
      }
    }
  }

  function Limits(q: Quantity): Risk.Limits {
    Risk.Limits({SYMBOL}, q, q)
  }

  /** The risk manager approves every admitted close whatever its switches say, and every
      admitted opening unless a switch blocks, always projecting the expected position. */
  lemma AdmittedRequestPassesRisk(request: TradeRequest, switches: Risk.Switches, position: int, opens: Opens,
                                  q: Quantity)
    requires ValidateRequest(request, position, opens, q) == Pass
    ensures var decision := Risk.Evaluate(Limits(q), switches, request, position);
            && (decision.Approved? <==> request.intent.Closing() || !switches.Blocking())
            && (decision.Approved? ==> decision.projected == ExpectedPosition(request))
  {
  }

  // -------------------------------------------------------------- Eagle hello

  /** An open position Eagle reports for the supported symbol; its direction is in lower case. */
  datatype EaglePosition = EaglePosition(signal: SignalId, direction: string)

  function HelloReconciled(eagle: seq<EaglePosition>, position: int, opens: Opens, q: Quantity): Ruling {
    if |eagle| > 1 then Stop(SeveralEaglePositions)
    else if position == 0 && opens.NoneOpen? then (if |eagle| == 0 then Pass else Stop(EagleUnexpected))
    else if position == 0 then Stop(FlatButOpen)
    else if !opens.OneOpen? then Stop(NoSingleSignal)
    else if position != -(q as int) && position != q then Stop(OutsideQuantity)
    else if |eagle| != 1 then Stop(EagleMissing)
    else if eagle[0].signal.text == "" || eagle[0].direction == "" then Stop(MalformedEaglePosition)
    else if eagle[0].direction != "long" && eagle[0].direction != "short" then Stop(MalformedEaglePosition)
    else if eagle[0].signal != opens.signal then Stop(SignalMismatch)
    else if opens.state != (if position == q then LongOpen else ShortOpen) then Stop(DirectionMismatch)
    else if eagle[0].direction != (if position == q then "long" else "short") then Stop(DirectionMismatch)
    else Pass
  }

  /** What Eagle should report if it agrees with the durable lifecycle. */
  function Mirror(opens: Opens): seq<EaglePosition> {
    match opens
    case NoneOpen => []
    case OneOpen(signal, state) => [EaglePosition(signal, if state == LongOpen then "long" else "short")]
    case SeveralOpen => []
  }

  /** Once broker and lifecycle are reconciled, the hello passes exactly when Eagle's list
      mirrors the lifecycle. */
  lemma HelloMirrorsLifecycle(eagle: seq<EaglePosition>, position: int, life: Lifecycle, q: Quantity)
    requires Reconcile(position, OpensOf(life), q) == Pass
    requires OpensOf(life).OneOpen? ==> OpensOf(life).signal.text != ""
    ensures HelloReconciled(eagle, position, OpensOf(life), q) == Pass <==> eagle == Mirror(OpensOf(life))
  {
    if OpensOf(life).OneOpen? && |eagle| == 1 {
      assert eagle == [eagle[0]];
    }
  }

  /** Signals Eagle holds open while BTS and broker are flat; None if the list is unusable. */
  function MissedSignals(eagle: seq<EaglePosition>, position: int, opens: Opens): Option<set<SignalId>> {
    if position != 0 || !opens.NoneOpen? then Some({})
    else if exists i :: 0 <= i < |eagle| && eagle[i].signal.text == "" then None
    else if exists i, j :: 0 <= i < j < |eagle| && eagle[i].signal == eagle[j].signal then None
    else Some(set i | 0 <= i < |eagle| :: eagle[i].signal)
  }

  /** After a reconnect: Eagle is flat while BTS and broker still agree on a position. */
  predicate PossibleGapExit(reconnect: bool, eagle: seq<EaglePosition>, position: int, opens: Opens, q: Quantity) {
    reconnect && |eagle| == 0 && opens.OneOpen? && position == Signed(opens.state, q)
  }

  // ---------------------------------------------------------- execution state

  predicate ExecutionClear(l: Ledger) {
    forall e :: e in l.records ==> l.records[e].status.Terminal()
  }

  datatype ReservedLookup = NoReservation | ReservedExit(event: EventId) | Unrecoverable

  function ReservedEvents(l: Ledger): set<EventId> {
    set e | e in l.records && l.records[e].status == Reserved
  }

  /** No RESERVED record, the only one and it closes, or a state no one may recover: a
      reserved opening, or several reservations. */
  ghost function FindReservedExit(l: Ledger): (found: ReservedLookup)
    ensures found.NoReservation? <==> forall e :: e in l.records ==> l.records[e].status != Reserved
    ensures found.ReservedExit? ==>
              && found.event in l.records
              && l.records[found.event].status == Reserved
              && l.records[found.event].intent.Closing()
              && forall e :: e in l.records && l.records[e].status == Reserved ==> e == found.event
    ensures found.Unrecoverable? <==>
              || (exists e :: ReservedIn(l, e) && !l.records[e].intent.Closing())
              || (exists e, f :: ReservedIn(l, e) && ReservedIn(l, f) && e != f)
  {
    assert forall e :: e in ReservedEvents(l) <==> ReservedIn(l, e);
    assert forall e :: e in l.records ==> (l.records[e].status == Reserved <==> e in ReservedEvents(l));
    if ReservedEvents(l) == {} then NoReservation
    else if exists e :: e in ReservedEvents(l) && !l.records[e].intent.Closing() then Unrecoverable
    else
      var e :| e in ReservedEvents(l);
      if ReservedEvents(l) == {e} then
        assert forall f :: ReservedIn(l, f) ==> f in ReservedEvents(l);
        ReservedExit(e)
      else
        var f :| f in ReservedEvents(l) - {e};
        assert ReservedIn(l, f);
        Unrecoverable
  }

  predicate ReservedIn(l: Ledger, event: EventId) {
    event in l.records && l.records[event].status == Reserved
  }

  /** The request behind a record. The lookup the runner calls for it is not part of the
      ledger's source; it is taken to return the request the record was reserved for. */
  function RequestBehind(l: Ledger, event: EventId): TradeRequest
    requires event in l.records
  {
    var record := l.records[event];
    TradeRequest(event, record.signal, record.intent, record.symbol, record.quantity)
  }
}
