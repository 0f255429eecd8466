/** Preparing a trade request without touching durable state, and committing it to the
    signal lifecycle once every outside check has passed. */
module TradeCoordinators {
  import opened Protocol
  import opened SignalLifecycles

  /** A normalised Eagle event. */
  datatype Event = Event(id: EventId, signal: SignalId, intent: TradeIntent)

  datatype Settings = Settings(symbol: string, quantity: int, paused: bool)

  datatype Decision = Approved(request: TradeRequest) | TradingPaused | InvalidLifecycle

  function Prepare(settings: Settings, event: Event): Decision {
    if settings.paused then TradingPaused
    else Approved(TradeRequest(event.id, event.signal, event.intent, settings.symbol, settings.quantity))
  }

  function Commit(life: Lifecycle, request: TradeRequest): Decision {
    if Accepts(life, request) then Approved(request) else InvalidLifecycle
  }

  /** process_event: prepare, then commit what was prepared. */
  function ProcessEvent(settings: Settings, life: Lifecycle, event: Event): (Decision, Lifecycle) {
    var prepared := Prepare(settings, event);
    if !prepared.Approved? then (prepared, life)
    else (Commit(life, prepared.request), Process(life, prepared.request))
  }

  /** The one-call form approves an event exactly when trading runs and the lifecycle accepts
      it; on refusal the lifecycle is untouched, and a second call is always refused. */
  lemma ProcessingHappensOnce(settings: Settings, life: Lifecycle, event: Event)
    ensures var (decision, after) := ProcessEvent(settings, life, event);
            && (decision.Approved? <==>
                  !settings.paused && NextState(StateOf(life, event.signal), event.intent).Some?)
            && (!decision.Approved? ==> after == life)
            && !ProcessEvent(settings, after, event).0.Approved?
  {
  }

  class TradeCoordinator {
    const guard: SignalLifecycleGuard
    var settings: Settings

    constructor (guard: SignalLifecycleGuard, settings: Settings)
      ensures this.guard == guard && this.settings == settings
    {
      this.guard, this.settings := guard, settings;
    }

    /** Changes nothing. */
    method PrepareEvent(event: Event) returns (decision: Decision)
      ensures decision == Prepare(settings, event)
    {
      if settings.paused {
        return TradingPaused;
      }
      return Approved(TradeRequest(event.id, event.signal, event.intent, settings.symbol, settings.quantity));
    }

    method CommitRequest(request: TradeRequest) returns (decision: Decision)
      modifies guard
      ensures decision == Commit(old(guard.rows), request)
      ensures guard.rows == Process(old(guard.rows), request)
    {
      var allowed := guard.ProcessRequest(request);
      return if allowed then Approved(request) else InvalidLifecycle;
    }

    method ProcessOneEvent(event: Event) returns (decision: Decision)
      modifies guard
      ensures (decision, guard.rows) == ProcessEvent(settings, old(guard.rows), event)
    {
      decision := PrepareEvent(event);
      if decision.Approved? {
        decision := CommitRequest(decision.request);
      }
    }
  }
}
