/** The durable lifecycle of an Eagle signal, and the adapter that reads it to translate
    Eagle frames into trade intents. */
module SignalLifecycles {
  import opened Protocol

  datatype SignalState = LongOpen | ShortOpen | Closed

  datatype LifeRow = LifeRow(state: SignalState, lastEvent: EventId)

  type Lifecycle = map<SignalId, LifeRow>

  function StateOf(life: Lifecycle, signal: SignalId): Option<SignalState> {
    if signal in life then Some(life[signal].state) else None
  }

  /** The valid next state; None when the intent is rejected. */
  function NextState(previous: Option<SignalState>, intent: TradeIntent): Option<SignalState> {
    match previous
    case None =>
      (match intent
       case BuyToOpen => Some(LongOpen)
       case SellToOpen => Some(ShortOpen)
       case _ => None)
    case Some(LongOpen) => if intent.SellToClose? then Some(Closed) else None
    case Some(ShortOpen) => if intent.BuyToClose? then Some(Closed) else None
    case Some(Closed) => None
  }

  predicate Accepts(life: Lifecycle, request: TradeRequest) {
    NextState(StateOf(life, request.signal), request.intent).Some?
  }

  /** A rejected transition leaves every row as it was. */
  function Process(life: Lifecycle, request: TradeRequest): Lifecycle {
    var next := NextState(StateOf(life, request.signal), request.intent);
    if next.Some? then life[request.signal := LifeRow(next.value, request.event)] else life
  }

  function ProcessAll(requests: seq<TradeRequest>): Lifecycle {
    if requests == [] then map[] else Process(ProcessAll(requests[..|requests| - 1]), requests[|requests| - 1])
  }

  /** The accepted requests of one signal, in order. */
  function AcceptedFor(requests: seq<TradeRequest>, signal: SignalId): seq<TradeRequest> {
    if requests == [] then
      []
    else
      var earlier, last := requests[..|requests| - 1], requests[|requests| - 1];
      if last.signal == signal && Accepts(ProcessAll(earlier), last)
      then AcceptedFor(earlier, signal) + [last]
      else AcceptedFor(earlier, signal)
  }

  predicate Pair(open: TradeIntent, close: TradeIntent) {
    (open.BuyToOpen? && close.SellToClose?) || (open.SellToOpen? && close.BuyToClose?)
  }

  /** Whatever is requested, the accepted intents of a signal are nothing, one opening, or
      an opening and the close of the other side, and the stored row is what they add up to. */
  lemma {:induction false} AcceptedIntentsPairUp(requests: seq<TradeRequest>, signal: SignalId)
    ensures var life, mine := ProcessAll(requests), AcceptedFor(requests, signal);
            && |mine| <= 2
            && (|mine| == 0 ==> signal !in life)
            && (|mine| == 1 ==> signal in life && !mine[0].intent.Closing()
                                && life[signal].state == (if mine[0].intent.Buys() then LongOpen else ShortOpen)
                                && life[signal].lastEvent == mine[0].event)
            && (|mine| == 2 ==> signal in life && Pair(mine[0].intent, mine[1].intent)
                                && life[signal] == LifeRow(Closed, mine[1].event))
  {
    if requests != [] {
      AcceptedIntentsPairUp(requests[..|requests| - 1], signal);
    }
  }

  class SignalLifecycleGuard {
    var rows: Lifecycle

    constructor ()
      ensures rows == map[]
    {
      rows := map[];
    }

    method ProcessRequest(request: TradeRequest) returns (allowed: bool)
      modifies this
      ensures allowed <==> Accepts(old(rows), request)
      ensures rows == Process(old(rows), request)
    {
      var previous: Option<SignalState> := None;
      if request.signal in rows {
        previous := Some(rows[request.signal].state);
      }
      var next := NextState(previous, request.intent);
      if next.None? {
        return false;
      }
      rows := rows[request.signal := LifeRow(next.value, request.event)];
      return true;
    }
  }

  // ------------------------------------------------------------------ adapter

  datatype Adaptation = Adapted(intent: TradeIntent) | IgnoredSymbol | IgnoredUnknownExit | Malformed

  const SUPPORTED_SYMBOL := "BTCUSDT"

  /** A fund.entry frame. Symbol and direction arrive trimmed, in canonical case. */
  function AdaptEntry(symbol: string, direction: string): Adaptation {
    if symbol == "" then Malformed
    else if symbol != SUPPORTED_SYMBOL then IgnoredSymbol
    else if direction == "long" then Adapted(BuyToOpen)
    else if direction == "short" then Adapted(SellToOpen)
    else Malformed
  }

  /** A fund.exit frame is translated from the durable state of its signal alone. */
  function AdaptExit(life: Lifecycle, signal: SignalId): Adaptation {
    match StateOf(life, signal)
    case Some(LongOpen) => Adapted(SellToClose)
    case Some(ShortOpen) => Adapted(BuyToClose)
    case _ => IgnoredUnknownExit
  }

  /** The adapter and the guard agree: an adapted exit carries the one intent the guard
      accepts for the signal, and an exit is ignored exactly when the guard would accept
      no closing intent. */
  lemma AdapterAgreesWithGuard(life: Lifecycle, signal: SignalId, request: TradeRequest)
    requires request.signal == signal
    ensures AdaptExit(life, signal).Adapted? ==>
              (Accepts(life, request) <==> request.intent == AdaptExit(life, signal).intent)
    ensures AdaptExit(life, signal).Adapted? && Accepts(life, request) ==>
              Process(life, request)[signal] == LifeRow(Closed, request.event)
              && AdaptExit(Process(life, request), signal) == IgnoredUnknownExit
    ensures !AdaptExit(life, signal).Adapted? ==> !(request.intent.Closing() && Accepts(life, request))
  {
  }

  /** Over every run: an exit is translated exactly while the signal's accepted intents are
      one opening, and then into that opening's close. */
  lemma ExitTranslatedIffOpen(requests: seq<TradeRequest>, signal: SignalId)
    ensures var adaptation, mine := AdaptExit(ProcessAll(requests), signal), AcceptedFor(requests, signal);
            && (adaptation.Adapted? <==> |mine| == 1)
            && (adaptation.Adapted? ==> Pair(mine[0].intent, adaptation.intent))
  {
    AcceptedIntentsPairUp(requests, signal);
  }
}
