/** Pre-execution risk checks. Opening orders pass every gate; closing orders only have to
    shrink the position without crossing flat. */
module RiskManagers {
  import opened Protocol

  datatype Limits = Limits(symbols: set<string>, maxOrder: int, maxAbsolute: int)

  /** Emergency kill switch, daily-loss trip, operator pause. */
  datatype Switches = Switches(killed: bool, tripped: bool, paused: bool) {
    predicate Blocking() {
      killed || tripped || paused
    }
  }

  datatype Reason = SymbolNotAllowed | QuantityNotPositive | KillSwitch | DailyLoss | Paused | OrderTooLarge
    | PositionTooLarge | NothingToClose | CrossesFlat

  datatype Decision = Approved(projected: int) | Rejected(reason: Reason, projected: int)

  function Delta(intent: TradeIntent, quantity: int): int {
    intent.Sign() * quantity
  }

  function Evaluate(limits: Limits, switches: Switches, request: TradeRequest, current: int): Decision {
    if request.symbol !in limits.symbols then Rejected(SymbolNotAllowed, current)
    else if request.quantity <= 0 then Rejected(QuantityNotPositive, current)
    else
      var projected := current + Delta(request.intent, request.quantity);
      if request.intent.Closing() then EvaluateClose(request.intent, current, projected)
      else EvaluateOpen(limits, switches, request.quantity, current, projected)
  }

  function EvaluateClose(intent: TradeIntent, current: int, projected: int): Decision {
    if intent.SellToClose? && current <= 0 then Rejected(NothingToClose, projected)
    else if intent.SellToClose? && projected < 0 then Rejected(CrossesFlat, projected)
    else if intent.BuyToClose? && current >= 0 then Rejected(NothingToClose, projected)
    else if intent.BuyToClose? && projected > 0 then Rejected(CrossesFlat, projected)
    else Approved(projected)
  }

  function EvaluateOpen(limits: Limits, switches: Switches, quantity: int, current: int, projected: int): Decision {
    if switches.killed then Rejected(KillSwitch, current)
    else if switches.tripped then Rejected(DailyLoss, current)
    else if switches.paused then Rejected(Paused, current)
    else if quantity > limits.maxOrder then Rejected(OrderTooLarge, current)
    else if Abs(projected) > limits.maxAbsolute then Rejected(PositionTooLarge, projected)
    else Approved(projected)
  }

  function Abs(n: int): nat {
    if n < 0 then -n else n
  }

  /** A request as it arrives, with the switches of that moment. */
  datatype Trade = Trade(request: TradeRequest, switches: Switches)

  function Fill(limits: Limits, position: int, trade: Trade): int {
    var decision := Evaluate(limits, trade.switches, trade.request, position);
    if decision.Approved? then position + Delta(trade.request.intent, trade.request.quantity) else position
  }

  /** The position after each approved request has filled completely. */
  function PositionAfter(limits: Limits, start: int, trades: seq<Trade>): int {
    if trades == [] then start
    else Fill(limits, PositionAfter(limits, start, trades[..|trades| - 1]), trades[|trades| - 1])
  }

  function Approvals(limits: Limits, start: int, trades: seq<Trade>): nat {
    if trades == [] then 0 else
    var earlier, last := trades[..|trades| - 1], trades[|trades| - 1];
    Approvals(limits, start, earlier)
    + if Evaluate(limits, last.switches, last.request, PositionAfter(limits, start, earlier)).Approved? then 1 else 0
  }

  /** An approved close strictly shrinks the position and keeps its sign; it is judged the
      same whatever the switches say. */
  lemma ApprovedCloseShrinks(limits: Limits, switches: Switches, calm: Switches, request: TradeRequest, current: int)
    requires request.intent.Closing()
    ensures Evaluate(limits, switches, request, current) == Evaluate(limits, calm, request, current)
    ensures Evaluate(limits, switches, request, current).Approved? ==>
              var next := current + Delta(request.intent, request.quantity);
              && Abs(next) < Abs(current)
              && (current > 0 ==> next >= 0)
              && (current < 0 ==> next <= 0)
  {
  }

  /** Over any sequence of approved, filled requests the position stays within the larger
      of its start and the limit. */
  lemma {:induction false} PositionStaysBounded(limits: Limits, start: int, trades: seq<Trade>)
    ensures Abs(PositionAfter(limits, start, trades)) <= Abs(start)
            || Abs(PositionAfter(limits, start, trades)) <= limits.maxAbsolute
  {
    if trades != [] {
      PositionStaysBounded(limits, start, trades[..|trades| - 1]);
    }
  }

  /** While a switch blocks, the position never grows or changes side, and every approved
      request takes it closer to flat by at least one contract. */
  lemma {:induction false} BlockedPositionOnlyShrinks(limits: Limits, start: int, trades: seq<Trade>)
    requires forall i :: 0 <= i < |trades| ==> trades[i].switches.Blocking()
    ensures var position := PositionAfter(limits, start, trades);
            && (start >= 0 ==> 0 <= position)
            && (start <= 0 ==> position <= 0)
            && Abs(position) + Approvals(limits, start, trades) <= Abs(start)
  {
    if trades != [] {
      BlockedPositionOnlyShrinks(limits, start, trades[..|trades| - 1]);
    }
  }
}
