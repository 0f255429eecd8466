/** Where the runner does something other than its messages or its shape suggest, with the
    exact condition of each case. */
module RunnerDepartures {
  import opened Protocol
  import opened RunnerDecisions
  import opened Runners
  import Events = EventStores

  // ---------------------------------------------------------- unowned exits

  /** A replayed exit that reaches the ownership check: new, not missed, not bound by an
      inherited reservation, with no record, not the event that closed its signal. */
  ghost predicate ReachesOwnership(w: World, f: Frame) {
    && w.process.Running? && f.Exit? && !w.process.session.complete
    && Consumes(w, f.event, f.seqNo) && f.signal !in w.process.session.missed
    && w.process.inherited.None? && f.event !in LedgerOf(w).records
    && !ClosedBy(w.life, f.signal, f.event)
  }

  /** BTS owns the signal: it is the one open, and the broker is flat or holds all of it. */
  ghost predicate Owns(c: Setup, w: World, signal: SignalId) {
    && OpensIn(w).OneOpen? && OpensIn(w).signal == signal
    && (w.broker.position == 0 || w.broker.position == Signed(OpensIn(w).state, c.q))
  }

  /** With IB reachable, such an exit leaves the runner running if and only if BTS owns its
      signal. */
  lemma ReplayedExitRunsIffOwned(c: Setup, w: World, f: Frame, link: Link)
    requires ReachesOwnership(w, f) && !link.Unavailable?
    ensures Receive(c, w, f, link).process.Running? <==> Owns(c, w, f.signal)
  {
  }

  /** With IB unreachable the runner goes on whatever BTS owns: the session is given up, and
      the frame, still unprocessed and not passed by the cursor, comes again. */
  lemma UnreachableReplayedExitRunsOn(c: Setup, w: World, f: Frame)
    requires ReachesOwnership(w, f)
    ensures Receive(c, w, f, Unavailable) == Resume(w, LOST_SESSION)
    ensures Consumes(w.(store := Receive(c, w, f, Unavailable).store), f.event, f.seqNo)
  {
  }

  // ------------------------------------------------- replayed missed signals

  /** A replayed frame of a missed signal changes the event store if and only if it is a new
      entry: the exit is announced as consumed and is not. */
  lemma MissedReplayConsumesIffEntry(c: Setup, w: World, f: Frame, link: Link)
    requires w.process.Running? && !w.process.session.complete
    requires (f.Entry? || f.Exit?) && f.signal in w.process.session.missed
    ensures Receive(c, w, f, link).store != w.store <==> f.Entry? && Consumes(w, f.event, f.seqNo)
  {
    if f.Entry? && Consumes(w, f.event, f.seqNo) {
      assert f.event in Events.Consume(w.store, f.event, f.seqNo).processed;
    }
  }

  // ------------------------------------------------------------ gap exit check

  /** The end of heartbeat handling stops the runner if and only if a possible gap exit is
      still unexplained after replay, whatever was recovered before it. */
  lemma HeartbeatTailStopsIffGap(c: Setup, w: World, valid: bool)
    requires w.process.Running? && w.process.stage.HeartbeatTail?
    ensures OnContinue(c, w, valid).process.Down? <==> w.process.session.gapExit && w.process.session.complete
  {
  }

  predicate Unexplained(p: Program) {
    match p
    case Down => false
    case Running(_, _, _, session, _) => session.gapExit && session.complete
  }

  /** The stages of a pending exit that a heartbeat found. */
  predicate WithinHeartbeat(stage: Stage) {
    match stage
    case PendingChecked(_, _) => true
    case PendingFlat(_, _) => true
    case PendingClosed(_, _) => true
    case CloseApproved(purpose, _) => purpose.PendingExit?
    case Sending(purpose, _) => purpose.PendingExit?
    case Waiting(purpose, _) => purpose.PendingExit?
    case CloseFilled(purpose, _) => purpose.PendingExit?
    case CloseCommitted(purpose, _) => purpose.PendingExit?
    case HeartbeatTail(_) => true
    case _ => false
  }

  lemma UnexplainedHeartbeat(c: Setup, w: World, seqNo: nat, link: Link)
    requires Unexplained(w.process) && !link.Unavailable?
    ensures var next := OnHeartbeat(c, w, seqNo, link).process;
            next.Running? ==> Unexplained(next) && WithinHeartbeat(next.stage)
  {
  }

  lemma UnexplainedStaysUnexplained(c: Setup, w: World, valid: bool)
    requires Unexplained(w.process) && WithinHeartbeat(w.process.stage)
    ensures var next := OnContinue(c, w, valid).process;
            next.Running? ==> Unexplained(next) && WithinHeartbeat(next.stage) && !w.process.stage.HeartbeatTail?
  {
  }

  /** So with a possible gap exit unexplained after replay a heartbeat never gets the runner
      back to listening in this session: it stops at once, or it recovers the pending exit,
      order, fill and commit included, and then stops at the check. */
  lemma GapHeartbeatNeverListens(c: Setup, w: World, a: Action)
    requires Enabled(c, w, a) && Unexplained(w.process)
    requires (w.process.stage.Idle? && a.Deliver? && a.frame.Heartbeat? && !a.link.Unavailable?)
             || (a.Continue? && WithinHeartbeat(w.process.stage))
    ensures var next := Next(c, w, a).process;
            next.Running? ==> Unexplained(next) && WithinHeartbeat(next.stage)
    ensures a.Continue? && w.process.stage.HeartbeatTail? ==> Next(c, w, a).process.Down?
  {
    match a
    case Deliver(f, link) => UnexplainedHeartbeat(c, w, f.seqNo, link);
    case Continue(valid, _) => UnexplainedStaysUnexplained(c, w, valid);
  }
}
