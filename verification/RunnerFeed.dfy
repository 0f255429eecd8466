/** The runner at the end of Eagle's numbered stream. Each session starts behind the durable
    cursor and delivers the history frame by frame, until the connection, the process or the
    runner's patience ends. Which frames does the cursor pass unprocessed? */
module RunnerFeeds {
  import opened Protocol
  import opened Runners
  import Events = EventStores

  /** `at` is the next frame of the session to deliver; `skipped` the exits that were
      delivered and left unprocessed because their signal was missed. */
  datatype Feed = Feed(world: World, history: seq<Frame>, at: nat, skipped: set<EventId>)

  datatype FeedAction =
    | Publish(frame: Frame)
    | Greet(hello: Frame, link: Link)
    | DeliverNext(link: Link)
    | Other(action: Action)

  const FEED := Feed(START, [], 0, {})

  /** Updates, entries and exits carry an event id. */
  predicate IsEvent(f: Frame) {
    f.Update? || f.Entry? || f.Exit?
  }

  predicate Beyond(cursor: Option<nat>, seqNo: nat) {
    cursor.None? || seqNo > cursor.value
  }

  function LastSeq(history: seq<Frame>): nat
    requires forall i :: 0 <= i < |history| ==> !history[i].Hello?
  {
    if history == [] then 0 else history[|history| - 1].seqNo
  }

  /** Eagle's log: rising positive numbers, and no event id twice. */
  ghost predicate Numbered(history: seq<Frame>) {
    && (forall i :: 0 <= i < |history| ==> !history[i].Hello? && history[i].seqNo > 0)
    && (forall i, j :: 0 <= i < j < |history| ==> history[i].seqNo < history[j].seqNo)
    && (forall i, j :: 0 <= i < j < |history| && IsEvent(history[i]) && IsEvent(history[j]) ==>
                         history[i].event != history[j].event)
  }

  /** Where a session that asks for everything after the cursor starts. */
  function StartOf(history: seq<Frame>, cursor: Option<nat>): (k: nat)
    requires forall i :: 0 <= i < |history| ==> !history[i].Hello?
    ensures k <= |history|
  {
    if history == [] || !Beyond(cursor, history[|history| - 1].seqNo) then |history|
    else StartOf(history[..|history| - 1], cursor)
  }

  /** The replayed exit of a missed signal, not processed before. */
  predicate Skips(w: World, f: Frame)
    requires w.process.Running?
  {
    f.Exit? && !w.process.session.complete && f.signal in w.process.session.missed && Consumes(w, f.event, f.seqNo)
  }

  ghost predicate CanFeed(c: Setup, f: Feed, a: FeedAction) {
    match a
    case Publish(frame) => Numbered(f.history + [frame])
    case Greet(hello, link) =>
      && Numbered(f.history)
      && hello.Hello? && Enabled(c, f.world, Deliver(hello, link)) && !f.world.process.session.hello
    case DeliverNext(link) =>
      && f.at < |f.history| && Enabled(c, f.world, Deliver(f.history[f.at], link)) && f.world.process.session.hello
    case Other(action) => !action.Deliver? && Enabled(c, f.world, action)
  }

  ghost function Fed(c: Setup, f: Feed, a: FeedAction): Feed
    requires CanFeed(c, f, a)
  {
    match a
    case Publish(frame) => f.(history := f.history + [frame])
    case Greet(hello, link) =>
      f.(world := Next(c, f.world, Deliver(hello, link)), at := StartOf(f.history, f.world.store.cursor))
    case DeliverNext(link) =>
      var frame := f.history[f.at];
      f.(world := Next(c, f.world, Deliver(frame, link)), at := f.at + 1,
         skipped := if Skips(f.world, frame) then f.skipped + {frame.event} else f.skipped)
    case Other(action) => f.(world := Next(c, f.world, action))
  }

  // ------------------------------------------------------- what matters of the runner

  /** The replayed exit being made durable. */
  function FlightOf(stage: Stage): Option<Frame> {
    match stage
    case ReplayedFlat(event, seqNo, signal) => Some(Exit(event, seqNo, signal))
    case ReplayedExposed(event, seqNo, signal) => Some(Exit(event, seqNo, signal))
    case ReplayedDurable(event, seqNo, signal) => Some(Exit(event, seqNo, signal))
    case _ => None
  }

  function BeatBehind(purpose: Purpose): Option<nat> {
    match purpose
    case PendingExit(seqNo) => Some(seqNo)
    case _ => None
  }

  /** The heartbeat being handled. */
  function BeatOf(stage: Stage): Option<nat> {
    match stage
    case PendingChecked(_, seqNo) => Some(seqNo)
    case PendingFlat(_, seqNo) => Some(seqNo)
    case PendingClosed(_, seqNo) => Some(seqNo)
    case CloseApproved(purpose, _) => BeatBehind(purpose)
    case Sending(purpose, _) => BeatBehind(purpose)
    case Waiting(purpose, _) => BeatBehind(purpose)
    case CloseFilled(purpose, _) => BeatBehind(purpose)
    case CloseCommitted(purpose, _) => BeatBehind(purpose)
    case HeartbeatTail(seqNo) => Some(seqNo)
    case _ => None
  }

  datatype View = View(
    store: Events.Store,
    listening: bool,
    armed: bool,
    complete: bool,
    flight: Option<Frame>,
    beat: Option<nat>)
  {
    /** New frames are processed: armed, or still in replay. */
    predicate Keeping() {
      armed || !complete
    }

    /** Work on a frame belongs to a session. */
    predicate Sane() {
      flight.Some? || beat.Some? ==> listening
    }

    predicate Resting() {
      flight.None? && beat.None?
    }
  }

  function ViewAs(store: Events.Store, p: Program): View {
    match p
    case Down => View(store, false, false, false, None, None)
    case Running(armed, _, _, session, stage) =>
      View(store, session.hello, armed, session.complete, FlightOf(stage), BeatOf(stage))
  }

  function ViewOf(w: World): View {
    ViewAs(w.store, w.process)
  }

  function ViewAfter(r: Reaction): View {
    ViewAs(r.store, r.process)
  }

  predicate SameSession(v: View, n: View) {
    n.listening && v.listening && n.armed == v.armed && n.complete == v.complete
  }

  // ------------------------------------------------- what each kind of step does

  /** No frame is finished and none taken up. */
  predicate Quiet(v: View, n: View) {
    && n.store == v.store
    && (n.listening ==> SameSession(v, n) && n.flight == v.flight && (n.beat.None? || n.beat == v.beat))
    && (v.Sane() ==> n.Sane())
  }

  predicate Greeted(v: View, n: View) {
    n.store == v.store && n.Resting()
  }

  predicate TookEvent(v: View, n: View, f: Frame, skips: bool)
    requires IsEvent(f)
  {
    && (n.store == v.store || (v.Keeping() && n.store == Events.Consume(v.store, f.event, f.seqNo)))
    && n.beat.None?
    && (n.flight.Some? ==> n.listening && n.flight == Some(f) && n.store == v.store && v.Keeping())
    && (n.listening ==>
          && n.armed == v.armed && (v.complete ==> n.complete)
          && (n.flight.None? && v.Keeping() ==> f.event in n.store.processed || skips))
  }

  predicate TookBeat(v: View, n: View, seqNo: nat) {
    && (n.store == v.store || (v.Keeping() && n.store == Events.MarkSeq(v.store, seqNo)))
    && n.flight.None?
    && (n.beat.Some? ==> n.listening && n.beat == Some(seqNo) && n.armed)
    && (n.listening ==> SameSession(v, n))
  }

  predicate EndedFlight(v: View, n: View) {
    && v.flight.Some? && v.flight.value.Exit? && n.Resting()
    && (n.listening ==> SameSession(v, n))
    && (if n.listening
        then Events.Check(v.store, v.flight.value.event, v.flight.value.seqNo).Accepted?
             && n.store == Events.Consume(v.store, v.flight.value.event, v.flight.value.seqNo)
        else n.store == v.store)
  }

  predicate EndedBeat(v: View, n: View) {
    && v.beat.Some? && n.Resting()
    && (n.store == v.store || n.store == Events.MarkSeq(v.store, v.beat.value))
    && (n.listening ==> SameSession(v, n))
  }

  lemma HelloIsGreeting(c: Setup, w: World, f: Frame, link: Link)
    requires w.process.Running? && f.Hello?
    ensures Greeted(ViewOf(w), ViewAfter(OnHello(c, w, f, link)))
  {
  }

  lemma HeartbeatIsTaken(c: Setup, w: World, seqNo: nat, link: Link)
    requires w.process.Running? && w.process.session.hello
    ensures TookBeat(ViewOf(w), ViewAfter(OnHeartbeat(c, w, seqNo, link)), seqNo)
  {
  }

  lemma UpdateIsTaken(w: World, f: Frame)
    requires w.process.Running? && w.process.session.hello && f.Update?
    requires Beyond(w.store.cursor, f.seqNo)
    ensures TookEvent(ViewOf(w), ViewAfter(OnUpdate(w, f.event, f.seqNo)), f, false)
  {
  }

  lemma ReplayedEntryIsTaken(c: Setup, w: World, f: Frame)
    requires w.process.Running? && w.process.session.hello && f.Entry? && !w.process.session.complete
    requires Beyond(w.store.cursor, f.seqNo)
    ensures TookEvent(ViewOf(w), ViewAfter(OnReplayedEntry(c, w, f)), f, false)
  {
  }

  lemma LiveEntryIsTaken(c: Setup, w: World, f: Frame, link: Link)
    requires w.process.Running? && w.process.session.hello && f.Entry? && w.process.session.complete
    requires Beyond(w.store.cursor, f.seqNo)
    ensures TookEvent(ViewOf(w), ViewAfter(OnLiveEntry(c, w, f, link)), f, false)
  {
  }

  lemma OwedExitIsTaken(c: Setup, w: World, f: Frame, session: Session)
    requires w.process.Running? && w.process.session.hello && f.Exit? && !w.process.session.complete
    requires session.hello
    ensures TookEvent(ViewOf(w), ViewAfter(OnOwedExit(c, w, f, session)), f, false)
  {
  }

  lemma ReplayedExitIsTaken(c: Setup, w: World, f: Frame, link: Link)
    requires w.process.Running? && w.process.session.hello && f.Exit? && !w.process.session.complete
    requires Beyond(w.store.cursor, f.seqNo)
    ensures TookEvent(ViewOf(w), ViewAfter(OnReplayedExit(c, w, f, link)), f, Skips(w, f))
  {
    OwedExitIsTaken(c, w, f, CountReplayed(w.process.session));
  }

  lemma LiveExitIsTaken(c: Setup, w: World, f: Frame, link: Link)
    requires w.process.Running? && w.process.session.hello && f.Exit? && w.process.session.complete
    requires Beyond(w.store.cursor, f.seqNo)
    ensures TookEvent(ViewOf(w), ViewAfter(OnLiveExit(c, w, f, link)), f, false)
  {
  }

  lemma BeatGoesOn(c: Setup, w: World, valid: bool)
    requires w.process.Running? && BeatOf(w.process.stage).Some? && !w.process.stage.HeartbeatTail?
    ensures Quiet(ViewOf(w), ViewAfter(OnContinue(c, w, valid)))
  {
  }

  lemma FlightGoesOn(c: Setup, w: World, valid: bool)
    requires w.process.Running? && FlightOf(w.process.stage).Some? && !w.process.stage.ReplayedDurable?
    ensures Quiet(ViewOf(w), ViewAfter(OnContinue(c, w, valid)))
  {
  }

  predicate Ordering(stage: Stage) {
    stage.CloseApproved? || stage.Sending? || stage.Waiting? || stage.CloseFilled? || stage.CloseCommitted?
  }

  lemma OrderGoesOn(c: Setup, w: World, valid: bool)
    requires w.process.Running? && Ordering(w.process.stage) && BeatOf(w.process.stage).None?
    ensures Quiet(ViewOf(w), ViewAfter(OnContinue(c, w, valid)))
  {
  }

  lemma RestGoesOn(c: Setup, w: World, valid: bool)
    requires w.process.Running? && !Ordering(w.process.stage)
    requires FlightOf(w.process.stage).None? && BeatOf(w.process.stage).None?
    ensures Quiet(ViewOf(w), ViewAfter(OnContinue(c, w, valid)))
  {
  }

  lemma ContinueIsQuiet(c: Setup, w: World, valid: bool)
    requires w.process.Running? && !w.process.stage.ReplayedDurable? && !w.process.stage.HeartbeatTail?
    ensures Quiet(ViewOf(w), ViewAfter(OnContinue(c, w, valid)))
  {
    if BeatOf(w.process.stage).Some? {
      BeatGoesOn(c, w, valid);
    } else if FlightOf(w.process.stage).Some? {
      FlightGoesOn(c, w, valid);
    } else if Ordering(w.process.stage) {
      OrderGoesOn(c, w, valid);
    } else {
      RestGoesOn(c, w, valid);
    }
  }

  lemma DurableEndsFlight(c: Setup, w: World, valid: bool)
    requires w.process.Running? && w.process.stage.ReplayedDurable? && w.process.session.hello
    ensures EndedFlight(ViewOf(w), ViewAfter(OnContinue(c, w, valid)))
  {
  }

  lemma TailEndsBeat(c: Setup, w: World, valid: bool)
    requires w.process.Running? && w.process.stage.HeartbeatTail? && w.process.session.hello
    ensures EndedBeat(ViewOf(w), ViewAfter(OnContinue(c, w, valid)))
  {
  }

  lemma OthersAreQuiet(c: Setup, w: World, a: Action)
    requires Enabled(c, w, a) && !a.Deliver? && !a.Continue?
    ensures Quiet(ViewOf(w), ViewOf(Next(c, w, a)))
  {
  }

  // ---------------------------------------------------------------- invariant

  predicate HandledEvent(store: Events.Store, skipped: set<EventId>, f: Frame) {
    IsEvent(f) ==> f.event in store.processed || f.event in skipped
  }

  predicate HandledUpTo(store: Events.Store, skipped: set<EventId>, history: seq<Frame>, k: nat) {
    forall j :: 0 <= j < k && j < |history| ==> HandledEvent(store, skipped, history[j])
  }

  /** The cursor has passed no event but the processed and the skipped ones. */
  ghost predicate PassedAreHandled(store: Events.Store, skipped: set<EventId>, history: seq<Frame>) {
    forall j :: 0 <= j < |history| && !history[j].Hello? && !Beyond(store.cursor, history[j].seqNo) ==>
                  HandledEvent(store, skipped, history[j])
  }

  predicate Names(f: Frame, e: EventId, cursor: Option<nat>) {
    IsEvent(f) && f.event == e && !Beyond(cursor, f.seqNo)
  }

  /** Every processed event is one of the history's that the cursor has passed. */
  ghost predicate ProcessedArePassed(store: Events.Store, history: seq<Frame>) {
    forall e :: e in store.processed ==> exists j :: 0 <= j < |history| && Names(history[j], e, store.cursor)
  }

  ghost predicate AllBeyond(cursor: Option<nat>, history: seq<Frame>, k: nat) {
    forall j :: k <= j < |history| ==> !history[j].Hello? && Beyond(cursor, history[j].seqNo)
  }

  /** Where a session stands in the history. */
  ghost predicate Placed(v: View, skipped: set<EventId>, history: seq<Frame>, at: nat) {
    && at <= |history| && AllBeyond(v.store.cursor, history, at)
    && (v.Resting() && v.Keeping() ==> HandledUpTo(v.store, skipped, history, at))
    && (v.flight.Some? ==> FlightPlaced(v, skipped, history, at))
    && (v.beat.Some? ==> BeatPlaced(v, skipped, history, at))
  }

  ghost predicate FlightPlaced(v: View, skipped: set<EventId>, history: seq<Frame>, at: nat)
    requires v.flight.Some? && at <= |history|
  {
    && 0 < at && history[at - 1] == v.flight.value && v.flight.value.Exit?
    && AllBeyond(v.store.cursor, history, at - 1)
    && HandledUpTo(v.store, skipped, history, at - 1)
  }

  ghost predicate BeatPlaced(v: View, skipped: set<EventId>, history: seq<Frame>, at: nat)
    requires v.beat.Some? && at <= |history|
  {
    && v.armed && 0 < at && !history[at - 1].Hello? && history[at - 1].seqNo == v.beat.value
    && HandledUpTo(v.store, skipped, history, at)
  }

  /** The cursor never runs ahead of the history. */
  ghost predicate Inside(cursor: Option<nat>, history: seq<Frame>) {
    cursor.Some? ==>
      && history != [] && !history[|history| - 1].Hello?
      && cursor.value <= history[|history| - 1].seqNo
  }

  ghost predicate Follows(v: View, skipped: set<EventId>, history: seq<Frame>, at: nat) {
    && Numbered(history) && v.Sane() && Inside(v.store.cursor, history)
    && PassedAreHandled(v.store, skipped, history) && ProcessedArePassed(v.store, history)
    && (v.listening ==> Placed(v, skipped, history, at))
  }

  // ------------------------------------------------------ the steps keep it

  /** Consuming the first frame beyond the cursor, once all before it are handled. */
  lemma ConsumeKeepsStore(store: Events.Store, skipped: set<EventId>, history: seq<Frame>, at: nat)
    requires Numbered(history) && at < |history| && IsEvent(history[at]) && AllBeyond(store.cursor, history, at)
    requires HandledUpTo(store, skipped, history, at) && ProcessedArePassed(store, history)
    requires PassedAreHandled(store, skipped, history) && Inside(store.cursor, history)
    ensures var after := Events.Consume(store, history[at].event, history[at].seqNo);
            && PassedAreHandled(after, skipped, history) && ProcessedArePassed(after, history)
            && AllBeyond(after.cursor, history, at + 1)
            && HandledUpTo(after, skipped, history, at + 1)
            && Inside(after.cursor, history)
  {
    var f := history[at];
    var after := Events.Consume(store, f.event, f.seqNo);
    forall e | e in after.processed
      ensures exists j :: 0 <= j < |history| && Names(history[j], e, after.cursor)
    {
      if e in store.processed {
        var j :| 0 <= j < |history| && Names(history[j], e, store.cursor);
        assert Names(history[j], e, after.cursor);
      } else {
        assert Names(history[at], e, after.cursor);
      }
    }
  }

  lemma MarkKeepsStore(store: Events.Store, skipped: set<EventId>, history: seq<Frame>, at: nat, seqNo: nat)
    requires Numbered(history) && 0 < at <= |history| && history[at - 1].seqNo == seqNo
    requires AllBeyond(store.cursor, history, at)
    requires HandledUpTo(store, skipped, history, at) && ProcessedArePassed(store, history)
    requires PassedAreHandled(store, skipped, history) && Inside(store.cursor, history)
    ensures var after := Events.MarkSeq(store, seqNo);
            && PassedAreHandled(after, skipped, history) && ProcessedArePassed(after, history)
            && AllBeyond(after.cursor, history, at) && HandledUpTo(after, skipped, history, at)
            && Inside(after.cursor, history)
  {
    var after := Events.MarkSeq(store, seqNo);
    forall e | e in after.processed
      ensures exists j :: 0 <= j < |history| && Names(history[j], e, after.cursor)
    {
      var j :| 0 <= j < |history| && Names(history[j], e, store.cursor);
      assert Names(history[j], e, after.cursor);
    }
  }

  lemma QuietKeepsPlace(v: View, n: View, skipped: set<EventId>, history: seq<Frame>, at: nat)
    requires Follows(v, skipped, history, at) && Quiet(v, n)
    requires n.listening && v.beat.Some? ==> v.flight.None?
    ensures Follows(n, skipped, history, at)
  {
  }

  lemma GreetingKeepsPlace(v: View, n: View, skipped: set<EventId>, history: seq<Frame>, at: nat)
    requires Follows(v, skipped, history, at) && Greeted(v, n)
    ensures Follows(n, skipped, history, StartOf(history, v.store.cursor))
  {
    StartIsTheCut(history, v.store.cursor);
  }

  /** A session starts at the first frame the cursor has not passed. */
  lemma {:induction false} StartIsTheCut(history: seq<Frame>, cursor: Option<nat>)
    requires Numbered(history)
    ensures AllBeyond(cursor, history, StartOf(history, cursor))
    ensures forall j :: 0 <= j < StartOf(history, cursor) ==> !Beyond(cursor, history[j].seqNo)
  {
    if history != [] && Beyond(cursor, history[|history| - 1].seqNo) {
      StartIsTheCut(history[..|history| - 1], cursor);
    }
  }

  lemma MoreSkippedIsHandled(store: Events.Store, skipped: set<EventId>, more: set<EventId>, history: seq<Frame>)
    requires PassedAreHandled(store, skipped, history) && skipped <= more
    ensures PassedAreHandled(store, more, history)
    ensures forall k :: HandledUpTo(store, skipped, history, k) ==> HandledUpTo(store, more, history, k)
  {
  }

  lemma EventKeepsPlace(v: View, n: View, skipped: set<EventId>, history: seq<Frame>, at: nat, skips: bool)
    requires Follows(v, skipped, history, at) && v.listening && v.Resting() && at < |history| && IsEvent(history[at])
    requires TookEvent(v, n, history[at], skips) && (n.flight.Some? ==> history[at].Exit?)
    ensures Follows(n, if skips then skipped + {history[at].event} else skipped, history, at + 1)
  {
    var more := if skips then skipped + {history[at].event} else skipped;
    MoreSkippedIsHandled(v.store, skipped, more, history);
    if v.Keeping() {
      ConsumeKeepsStore(v.store, more, history, at);
    }
  }

  lemma BeatKeepsPlace(v: View, n: View, skipped: set<EventId>, history: seq<Frame>, at: nat)
    requires Follows(v, skipped, history, at) && v.listening && v.Resting() && at < |history| && history[at].Heartbeat?
    requires TookBeat(v, n, history[at].seqNo)
    ensures Follows(n, skipped, history, at + 1)
  {
    if v.Keeping() {
      MarkKeepsStore(v.store, skipped, history, at + 1, history[at].seqNo);
    }
  }

  lemma FlightEndKeepsPlace(v: View, n: View, skipped: set<EventId>, history: seq<Frame>, at: nat)
    requires Follows(v, skipped, history, at) && EndedFlight(v, n)
    ensures Follows(n, skipped, history, at)
  {
    ConsumeKeepsStore(v.store, skipped, history, at - 1);
  }

  lemma BeatEndKeepsPlace(v: View, n: View, skipped: set<EventId>, history: seq<Frame>, at: nat)
    requires Follows(v, skipped, history, at) && EndedBeat(v, n)
    ensures Follows(n, skipped, history, at)
  {
    MarkKeepsStore(v.store, skipped, history, at, v.beat.value);
  }

  lemma PublishKeepsPlace(v: View, skipped: set<EventId>, history: seq<Frame>, at: nat, frame: Frame)
    requires Follows(v, skipped, history, at) && Numbered(history + [frame])
    ensures Follows(v, skipped, history + [frame], at)
  {
    var longer := history + [frame];
    assert longer[|history|] == frame && forall j :: 0 <= j < |history| ==> longer[j] == history[j];
    assert Beyond(v.store.cursor, frame.seqNo);
    forall e | e in v.store.processed
      ensures exists j :: 0 <= j < |longer| && Names(longer[j], e, v.store.cursor)
    {
      var j :| 0 <= j < |history| && Names(history[j], e, v.store.cursor);
      assert Names(longer[j], e, v.store.cursor);
    }
  }

  // --------------------------------------------------------------------- runs

  ghost predicate InPlace(f: Feed) {
    match f
    case Feed(world, history, at, skipped) => Follows(ViewOf(world), skipped, history, at)
  }

  lemma GreetKeepsPlace(c: Setup, f: Feed, hello: Frame, link: Link)
    requires InPlace(f) && CanFeed(c, f, Greet(hello, link))
    ensures InPlace(Fed(c, f, Greet(hello, link)))
  {
    var after := Fed(c, f, Greet(hello, link));
    HelloIsGreeting(c, f.world, hello, link);
    GreetingKeepsPlace(ViewOf(f.world), ViewOf(after.world), f.skipped, f.history, f.at);
  }

  lemma EventIsTaken(c: Setup, w: World, f: Frame, link: Link)
    requires w.process.Running? && w.process.session.hello && IsEvent(f) && Beyond(w.store.cursor, f.seqNo)
    ensures TookEvent(ViewOf(w), ViewAfter(Receive(c, w, f, link)), f, Skips(w, f))
  {
    match f
    case Update(_, _) => UpdateIsTaken(w, f);
    case Entry(_, _, _, _, _) =>
      if w.process.session.complete {
        LiveEntryIsTaken(c, w, f, link);
      } else {
        ReplayedEntryIsTaken(c, w, f);
      }
    case Exit(_, _, _) =>
      if w.process.session.complete {
        LiveExitIsTaken(c, w, f, link);
      } else {
        ReplayedExitIsTaken(c, w, f, link);
      }
  }

  lemma OnlyExitsFly(c: Setup, w: World, f: Frame, link: Link)
    requires w.process.Running? && ViewAfter(Receive(c, w, f, link)).flight.Some?
    ensures f.Exit?
  {
  }

  lemma IdleIsResting(w: World)
    requires w.process.Running? && w.process.stage.Idle?
    ensures ViewOf(w).Resting()
  {
  }

  lemma DeliveryIsReceived(c: Setup, w: World, f: Frame, link: Link)
    requires Enabled(c, w, Deliver(f, link))
    ensures w.process.Running? && w.process.stage.Idle?
    ensures ViewOf(Next(c, w, Deliver(f, link))) == ViewAfter(Receive(c, w, f, link))
  {
  }

  lemma DeliveryKeepsPlace(c: Setup, f: Feed, link: Link)
    requires InPlace(f) && CanFeed(c, f, DeliverNext(link))
    ensures InPlace(Fed(c, f, DeliverNext(link)))
  {
    var frame := f.history[f.at];
    var v, n := ViewOf(f.world), ViewOf(Fed(c, f, DeliverNext(link)).world);
    DeliveryIsReceived(c, f.world, frame, link);
    IdleIsResting(f.world);
    if frame.Heartbeat? {
      HeartbeatIsTaken(c, f.world, frame.seqNo, link);
      BeatKeepsPlace(v, n, f.skipped, f.history, f.at);
    } else {
      EventIsTaken(c, f.world, frame, link);
      if n.flight.Some? {
        OnlyExitsFly(c, f.world, frame, link);
      }
      EventKeepsPlace(v, n, f.skipped, f.history, f.at, Skips(f.world, frame));
    }
  }

  lemma ContinuationIsReaction(c: Setup, w: World, valid: bool, reached: bool)
    requires Enabled(c, w, Continue(valid, reached))
    ensures w.process.Running?
    ensures ViewOf(Next(c, w, Continue(valid, reached))) == ViewAfter(OnContinue(c, w, valid))
  {
  }

  lemma FlightOrBeat(w: World)
    ensures ViewOf(w).beat.Some? ==> ViewOf(w).flight.None?
  {
  }

  lemma OtherKeepsPlace(c: Setup, f: Feed, a: Action)
    requires InPlace(f) && CanFeed(c, f, Other(a))
    ensures InPlace(Fed(c, f, Other(a)))
  {
    var v, n := ViewOf(f.world), ViewOf(Fed(c, f, Other(a)).world);
    FlightOrBeat(f.world);
    if !a.Continue? {
      OthersAreQuiet(c, f.world, a);
      QuietKeepsPlace(v, n, f.skipped, f.history, f.at);
    } else {
      ContinuationIsReaction(c, f.world, a.contractValid, a.reached);
      if f.world.process.stage.ReplayedDurable? {
        DurableEndsFlight(c, f.world, a.contractValid);
        FlightEndKeepsPlace(v, n, f.skipped, f.history, f.at);
      } else if f.world.process.stage.HeartbeatTail? {
        TailEndsBeat(c, f.world, a.contractValid);
        BeatEndKeepsPlace(v, n, f.skipped, f.history, f.at);
      } else {
        ContinueIsQuiet(c, f.world, a.contractValid);
        QuietKeepsPlace(v, n, f.skipped, f.history, f.at);
      }
    }
  }

  lemma FeedingKeepsPlace(c: Setup, f: Feed, a: FeedAction)
    requires InPlace(f) && CanFeed(c, f, a)
    ensures InPlace(Fed(c, f, a))
  {
    match a
    case Publish(frame) => PublishKeepsPlace(ViewOf(f.world), f.skipped, f.history, f.at, frame);
    case Greet(hello, link) => GreetKeepsPlace(c, f, hello, link);
    case DeliverNext(link) => DeliveryKeepsPlace(c, f, link);
    case Other(action) => OtherKeepsPlace(c, f, action);
  }

  ghost function EndOfFeed(c: Setup, run: seq<FeedAction>): Option<Feed> {
    if run == [] then Some(FEED) else
    var before := EndOfFeed(c, run[..|run| - 1]);
    if before.Some? && CanFeed(c, before.value, run[|run| - 1]) then Some(Fed(c, before.value, run[|run| - 1]))
    else None
  }

  lemma {:induction false} FeedsStayInPlace(c: Setup, run: seq<FeedAction>, f: Feed)
    requires EndOfFeed(c, run) == Some(f)
    ensures InPlace(f)
  {
    if run != [] {
      var before := EndOfFeed(c, run[..|run| - 1]).value;
      FeedsStayInPlace(c, run[..|run| - 1], before);
      FeedingKeepsPlace(c, before, run[|run| - 1]);
    }
  }

  /** Step `k` delivered the replayed exit `e` of a missed signal and left it unprocessed. */
  ghost predicate SkippedAt(c: Setup, run: seq<FeedAction>, k: nat, e: EventId) {
    && k < |run| && run[k].DeliverNext? && EndOfFeed(c, run[..k]).Some?
    && var f := EndOfFeed(c, run[..k]).value;
    && f.world.process.Running? && f.at < |f.history|
    && Skips(f.world, f.history[f.at]) && f.history[f.at].event == e
  }

  lemma {:induction false} SkippedWasMissed(c: Setup, run: seq<FeedAction>, f: Feed, e: EventId) returns (k: nat)
    requires EndOfFeed(c, run) == Some(f) && e in f.skipped
    ensures SkippedAt(c, run, k, e)
  {
    var earlier := run[..|run| - 1];
    var before := EndOfFeed(c, earlier).value;
    if e in before.skipped {
      k := SkippedWasMissed(c, earlier, before, e);
      assert run[..k] == earlier[..k];
    } else {
      k := |run| - 1;
    }
  }

  /** What the runner's cursor passes: over every run, with any breaks, crashes and outages,
      every event the cursor has passed is processed, but for replayed exits of missed
      signals; every processed event has been passed; and a session never has its cursor on
      or beyond a frame it has yet to deliver. */
  lemma CursorPassesOnlyMissedExits(c: Setup, run: seq<FeedAction>, f: Feed, j: nat)
    requires EndOfFeed(c, run) == Some(f) && j < |f.history| && IsEvent(f.history[j])
    ensures var frame, store := f.history[j], f.world.store;
            && (!Beyond(store.cursor, frame.seqNo) && frame.event !in store.processed ==>
                  exists k :: SkippedAt(c, run, k, frame.event))
            && (frame.event in store.processed ==> !Beyond(store.cursor, frame.seqNo))
            && (f.world.process.Running? && f.world.process.session.hello && j >= f.at ==>
                  Beyond(store.cursor, frame.seqNo))
  {
    FeedsStayInPlace(c, run, f);
    var frame, store := f.history[j], f.world.store;
    if frame.event in store.processed {
      var i :| 0 <= i < |f.history| && Names(f.history[i], frame.event, store.cursor);
      assert i == j;
    } else if !Beyond(store.cursor, frame.seqNo) {
      assert HandledEvent(store, f.skipped, frame);
      var k := SkippedWasMissed(c, run, f, frame.event);
    }
  }

  /** Such an exit is lost with the next frame: once an update has been consumed the store
      refuses it as out of sequence. */
  lemma SkippedExitIsLost(c: Setup, w: World, exit: Frame, update: Frame, link: Link)
    requires Enabled(c, w, Deliver(exit, link)) && Skips(w, exit)
    requires update.Update? && update.event != exit.event && update.seqNo > exit.seqNo
    requires Consumes(w, update.event, update.seqNo)
    requires w.process.armed || w.process.session.processed + 1 < w.process.session.expected
    ensures var left := Next(c, w, Deliver(exit, link));
            && Enabled(c, left, Deliver(update, link))
            && var store := Next(c, left, Deliver(update, link)).store;
            && exit.event !in store.processed
            && Events.Check(store, exit.event, exit.seqNo).OutOfSequence?
  {
  }
}
