/** The runner's session flags as the message loop holds them: variables updated in place by
    each frame. Every method is proved against the value-level reaction of the step machine,
    given as the ghost world `w` the loop is in. */
module RunnerSessions {
  import opened Protocol
  import opened RunnerDecisions
  import opened Runners
  import Events = EventStores

  class EagleSession {
    const armed: bool
    const q: Quantity
    const events: Events.EventStore
    var helloReceived: bool
    var replayExpected: nat
    var replayProcessed: nat
    var replayComplete: bool
    var postReplayHeartbeatSeen: bool
    var missedSignals: set<SignalId>
    var possiblePendingGapExit: bool
    var sessionIsReconnect: bool

    function State(): Session
      reads this
    {
      Session(helloReceived, replayExpected, replayProcessed, replayComplete, postReplayHeartbeatSeen,
              missedSignals, possiblePendingGapExit, sessionIsReconnect)
    }

    /** The loop is listening in world `w`. */
    ghost predicate Listens(w: World)
      reads this, events
    {
      && w.store == events.State()
      && w.process.Running? && w.process.armed == armed && w.process.session == State() && w.process.stage.Idle?
    }

    constructor (armed: bool, q: Quantity, events: Events.EventStore)
      ensures this.armed == armed && this.q == q && this.events == events && State() == FIRST_SESSION
    {
      this.armed, this.q, this.events := armed, q, events;
      helloReceived, replayExpected, replayProcessed, replayComplete := false, 0, 0, false;
      postReplayHeartbeatSeen, missedSignals, possiblePendingGapExit := false, {}, false;
      sessionIsReconnect := false;
    }

    method RecordReplayFrame()
      modifies this
      ensures State() == CountReplayed(old(State()))
    {
      replayProcessed := replayProcessed + 1;
      replayComplete := replayProcessed >= replayExpected;
    }

    /** fund.hello. `opens` is the loaded lifecycle, `clear` whether every execution is
        terminal, `stopped` a raised error. */
    method HandleHello(live: bool, replayCount: nat, eagle: seq<EaglePosition>, link: Link, position: int, opens: Opens,
                       clear: bool, ghost c: Setup, ghost w: World) returns (stopped: bool)
      requires Listens(w) && c.q == q
      requires position == w.broker.position && opens == OpensOf(w.life) && clear == ExecutionClear(LedgerOf(w))
      modifies this
      ensures OnHello(c, w, Hello(live, replayCount, eagle), link)
              == if stopped then Stopped(w) else Resume(w, State())
    {
      helloReceived := true;
      replayExpected := replayCount;
      replayProcessed := 0;
      replayComplete := replayExpected == 0;
      postReplayHeartbeatSeen := false;
      if !live {
        return true;
      }
      if link.Unavailable? {
        LoseConnection();
        return false;
      }
      if link.Recovered? && !clear {
        return true;
      }
      if Reconcile(position, opens, q) != Pass {
        return true;
      }
      possiblePendingGapExit := PossibleGapExit(sessionIsReconnect, eagle, position, opens, q);
      var missed := MissedSignals(eagle, position, opens);
      if missed.None? {
        return true;
      }
      missedSignals := missed.value;
      if missedSignals == {} && !possiblePendingGapExit {
        if HelloReconciled(eagle, position, opens, q) != Pass {
          return true;
        }
      }
      sessionIsReconnect := false;
      return false;
    }

    method HandleUpdate(event: EventId, seqNo: nat, ghost w: World)
      requires Listens(w)
      modifies this, events
      ensures OnUpdate(w, event, seqNo) == Reaction(events.State(), w.process.(session := State()))
    {
      if !replayComplete {
        var _ := events.CheckAndMarkEventWithSeq(event, seqNo);
        RecordReplayFrame();
      } else if armed {
        var _ := events.CheckAndMarkEventWithSeq(event, seqNo);
      }
    }

    /** The end of heartbeat handling. */
    method FinishHeartbeat(seqNo: nat, ghost w: World) returns (stopped: bool)
      requires Listens(w)
      modifies this, events
      ensures stopped ==> events.State() == old(events.State())
      ensures Tail(w, old(State()), seqNo)
              == if stopped then Stopped(w) else Reaction(events.State(), w.process.(session := State()))
    {
      if possiblePendingGapExit && replayComplete {
        return true;
      }
      if armed || !replayComplete {
        events.MarkSeqProcessed(seqNo);
      }
      if replayComplete {
        postReplayHeartbeatSeen := true;
      }
      return false;
    }

    /** A lifecycle frame of a missed trade arriving live; its exit ends the trade. */
    method HandleMissed(event: EventId, seqNo: nat, signal: SignalId, exit: bool, ghost w: World)
      requires Listens(w) && signal in missedSignals
      modifies this, events
      ensures Ignore(w, event, seqNo, State()) == Reaction(events.State(), w.process.(session := State()))
      ensures State() == if exit then old(State()).(missed := old(missedSignals) - {signal}) else old(State())
    {
      if armed {
        var _ := events.CheckAndMarkEventWithSeq(event, seqNo);
      }
      if exit {
        missedSignals := missedSignals - {signal};
      }
    }

    /** Nothing of a lost session carries over. */
    method LoseConnection()
      modifies this
      ensures State() == LOST_SESSION
    {
      helloReceived := false;
      replayExpected := 0;
      replayProcessed := 0;
      replayComplete := false;
      postReplayHeartbeatSeen := false;
      possiblePendingGapExit := false;
      sessionIsReconnect := true;
      missedSignals := {};
    }
  }
}
