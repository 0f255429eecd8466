/** The daily-loss guard and the risk manager together: profit and loss moves in between
    trades, and each trade is judged under the trip of that moment. */
module RiskUnderLoss {
  import opened Protocol
  import opened RiskManagers
  import Loss = DailyLossGuards

  /** A profit-and-loss update, or a request with the other two switches as they stand. */
  datatype Happening =
    | Pnl(update: Loss.Update)
    | Request(request: TradeRequest, killed: bool, paused: bool)

  datatype Desk = Desk(day: Loss.Day, position: int)

  function TradeAt(day: Loss.Day, h: Happening): Trade
    requires h.Request?
  {
    Trade(h.request, Switches(h.killed, day.tripped, h.paused))
  }

  function Step(limits: Limits, loss: real, desk: Desk, h: Happening): Desk {
    match h
    case Pnl(update) => desk.(day := Loss.Perform(loss, desk.day, update))
    case Request(_, _, _) => desk.(position := Fill(limits, desk.position, TradeAt(desk.day, h)))
  }

  function Run(limits: Limits, loss: real, start: Desk, hs: seq<Happening>): Desk {
    if hs == [] then start else Step(limits, loss, Run(limits, loss, start, hs[..|hs| - 1]), hs[|hs| - 1])
  }

  predicate Resets(h: Happening) {
    h.Pnl? && h.update.ResetDay?
  }

  /** Nearer to flat, or where it was, and on the same side. */
  predicate NoFurther(before: int, after: int) {
    Abs(after) <= Abs(before) && (before >= 0 ==> after >= 0) && (before <= 0 ==> after <= 0)
  }

  /** While tripped, one step neither untrips nor takes the position further out. */
  lemma TrippedStep(limits: Limits, loss: real, desk: Desk, h: Happening)
    requires desk.day.tripped && !Resets(h)
    ensures Step(limits, loss, desk, h).day.tripped
    ensures NoFurther(desk.position, Step(limits, loss, desk, h).position)
    ensures h.Request? ==>
              var decision := Evaluate(limits, TradeAt(desk.day, h).switches, h.request, desk.position);
              decision.Approved? ==>
                h.request.intent.Closing() && Abs(Step(limits, loss, desk, h).position) < Abs(desk.position)
  {
    if h.Request? && h.request.intent.Closing() {
      var switches := TradeAt(desk.day, h).switches;
      ApprovedCloseShrinks(limits, switches, switches, h.request, desk.position);
    }
  }

  lemma {:induction false} TrippedStaysTripped(limits: Limits, loss: real, start: Desk, hs: seq<Happening>)
    requires start.day.tripped && forall i :: 0 <= i < |hs| ==> !Resets(hs[i])
    ensures Run(limits, loss, start, hs).day.tripped
    ensures NoFurther(start.position, Run(limits, loss, start, hs).position)
  {
    if hs != [] {
      var earlier := hs[..|hs| - 1];
      TrippedStaysTripped(limits, loss, start, earlier);
      TrippedStep(limits, loss, Run(limits, loss, start, earlier), hs[|hs| - 1]);
    }
  }

  lemma {:induction false} RunSplits(limits: Limits, loss: real, start: Desk, hs: seq<Happening>, k: nat)
    requires k <= |hs|
    ensures Run(limits, loss, start, hs) == Run(limits, loss, Run(limits, loss, start, hs[..k]), hs[k..])
  {
    if k == |hs| {
      assert hs[..k] == hs && hs[k..] == [];
    } else {
      var earlier := hs[..|hs| - 1];
      RunSplits(limits, loss, start, earlier, k);
      assert earlier[..k] == hs[..k];
      assert hs[k..][..|hs[k..]| - 1] == earlier[k..];
    }
  }

  /** The updates among the happenings. */
  function Updates(hs: seq<Happening>): seq<Loss.Update> {
    if hs == [] then
      []
    else
      var earlier, last := Updates(hs[..|hs| - 1]), hs[|hs| - 1];
      if last.Pnl? then earlier + [last.update] else earlier
  }

  /** Trades do not disturb the guard: the desk's day is the guard's own. */
  lemma {:induction false} DayFollowsUpdates(limits: Limits, loss: real, position: int, hs: seq<Happening>)
    ensures Run(limits, loss, Desk(Loss.NEW_DAY, position), hs).day == Loss.PerformAll(loss, Updates(hs))
  {
    if hs != [] {
      var earlier, last := hs[..|hs| - 1], hs[|hs| - 1];
      DayFollowsUpdates(limits, loss, position, earlier);
      if last.Pnl? {
        var longer := Updates(earlier) + [last.update];
        assert longer[..|longer| - 1] == Updates(earlier);
      }
    }
  }

  /** Over any mix of updates and trades: from the moment the loss limit is reached until the
      day is reset, the position only moves towards flat, however far the figures recover and
      whatever is requested. */
  lemma BreachFreezesGrowth(limits: Limits, loss: real, position: int, hs: seq<Happening>, k: nat)
    requires loss > 0.0 && k <= |hs|
    requires exists j :: Loss.BreachedAt(loss, Updates(hs[..k]), j)
    requires forall i :: k <= i < |hs| ==> !Resets(hs[i])
    ensures var start := Desk(Loss.NEW_DAY, position);
            NoFurther(Run(limits, loss, start, hs[..k]).position, Run(limits, loss, start, hs).position)
  {
    var start := Desk(Loss.NEW_DAY, position);
    Loss.TrippedIffBreached(loss, Updates(hs[..k]));
    DayFollowsUpdates(limits, loss, position, hs[..k]);
    RunSplits(limits, loss, start, hs, k);
    TrippedStaysTripped(limits, loss, Run(limits, loss, start, hs[..k]), hs[k..]);
  }
}
