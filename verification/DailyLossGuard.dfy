/** Daily profit and loss, and the trip that blocks new risk once the limit is reached. */
module DailyLossGuards {
  datatype Day = Day(realized: real, unrealized: real, tripped: bool) {
    function Total(): real {
      realized + unrealized
    }
  }

  const NEW_DAY := Day(0.0, 0.0, false)

  datatype Update = Realized(value: real) | Unrealized(value: real) | Both(realized: real, unrealized: real) | ResetDay

  function Evaluated(limit: real, day: Day): Day {
    day.(tripped := day.tripped || day.Total() <= -limit)
  }

  function AfterLoss(day: Day, loss: real): Day {
    day.(unrealized := day.unrealized - loss)
  }

  function Perform(limit: real, day: Day, update: Update): Day {
    match update
    case Realized(value) => Evaluated(limit, day.(realized := value))
    case Unrealized(value) => Evaluated(limit, day.(unrealized := value))
    case Both(realized, unrealized) => Evaluated(limit, day.(realized := realized, unrealized := unrealized))
    case ResetDay => NEW_DAY
  }

  function PerformAll(limit: real, updates: seq<Update>): Day {
    if updates == [] then NEW_DAY
    else Perform(limit, PerformAll(limit, updates[..|updates| - 1]), updates[|updates| - 1])
  }

  /** After k updates the total was at or below minus the limit, and no reset followed. */
  ghost predicate BreachedAt(limit: real, updates: seq<Update>, k: nat) {
    && 0 < k <= |updates|
    && PerformAll(limit, updates[..k]).Total() <= -limit
    && forall i :: k <= i < |updates| ==> !updates[i].ResetDay?
  }

  lemma BreachedAtPrefix(limit: real, updates: seq<Update>, k: nat)
    requires 0 < k < |updates|
    ensures BreachedAt(limit, updates, k) <==>
              BreachedAt(limit, updates[..|updates| - 1], k) && !updates[|updates| - 1].ResetDay?
  {
    assert updates[..|updates| - 1][..k] == updates[..k];
  }

  /** The guard is tripped exactly when the limit was reached since the last reset, however
      far the totals have recovered since. */
  lemma {:induction false} TrippedIffBreached(limit: real, updates: seq<Update>)
    requires limit > 0.0
    ensures PerformAll(limit, updates).tripped <==> exists k :: BreachedAt(limit, updates, k)
  {
    if updates != [] {
      var earlier := updates[..|updates| - 1];
      TrippedIffBreached(limit, earlier);
      assert updates[..|updates|] == updates;
      assert BreachedAt(limit, updates, |updates|) <==> PerformAll(limit, updates).Total() <= -limit;
      forall k: nat | 0 < k < |updates|
        ensures BreachedAt(limit, updates, k) <==> BreachedAt(limit, earlier, k) && !updates[|updates| - 1].ResetDay?
      {
        BreachedAtPrefix(limit, updates, k);
      }
    }
  }

  class DailyLossGuard {
    const maxDailyLoss: real
    var realizedPnl: real
    var unrealizedPnl: real
    var tripped: bool

    function State(): Day
      reads this
    {
      Day(realizedPnl, unrealizedPnl, tripped)
    }

    constructor (maxDailyLoss: real)
      requires maxDailyLoss > 0.0
      ensures this.maxDailyLoss == maxDailyLoss && State() == NEW_DAY
    {
      this.maxDailyLoss := maxDailyLoss;
      realizedPnl, unrealizedPnl, tripped := 0.0, 0.0, false;
    }

    method UpdateRealizedPnl(value: real)
      modifies this
      ensures State() == Perform(maxDailyLoss, old(State()), Realized(value))
    {
      realizedPnl := value;
      EvaluateLimit();
    }

    method UpdateUnrealizedPnl(value: real)
      modifies this
      ensures State() == Perform(maxDailyLoss, old(State()), Unrealized(value))
    {
      unrealizedPnl := value;
      EvaluateLimit();
    }

    method UpdatePnl(realized: real, unrealized: real)
      modifies this
      ensures State() == Perform(maxDailyLoss, old(State()), Both(realized, unrealized))
    {
      realizedPnl := realized;
      unrealizedPnl := unrealized;
      EvaluateLimit();
    }

    method EvaluateLimit()
      modifies this`tripped
      ensures State() == Evaluated(maxDailyLoss, old(State()))
    {
      if tripped {
        return;
      }
      if realizedPnl + unrealizedPnl <= -maxDailyLoss {
        tripped := true;
      }
    }

    method Reset()
      modifies this
      ensures State() == Perform(maxDailyLoss, old(State()), ResetDay)
    {
      realizedPnl, unrealizedPnl, tripped := 0.0, 0.0, false;
    }

    /** What may still be lost today: a further loss trips the guard exactly when it reaches
        this amount; zero once tripped. */
    method RemainingLossCapacity() returns (capacity: real)
      ensures tripped || State().Total() <= -maxDailyLoss ==> capacity == 0.0
      ensures !tripped ==> forall loss :: loss > 0.0 || capacity > 0.0 ==>
                             (Evaluated(maxDailyLoss, AfterLoss(State(), loss)).tripped <==> loss >= capacity)
      ensures capacity >= 0.0
    {
      if tripped {
        return 0.0;
      }
      capacity := maxDailyLoss + (realizedPnl + unrealizedPnl);
      if capacity <= 0.0 {
        return 0.0;
      }
    }
  }
}
