/** Delivery of Eagle's history over connections that may break anywhere: the server replays
    what lies behind the client's durable cursor, the client consumes frame by frame, and a
    tracker counts the announced replay. */
module ReplayDelivery {
  import opened Protocol
  import opened EventStores

  /** A numbered frame: an entry or exit, or a heartbeat. */
  datatype Frame = Lifecycle(event: EventId, seqNo: nat) | Heartbeat(seqNo: nat)

  // ------------------------------------------------------------------- server

  /** messages_after_seq: the part of the history newer than a cursor. */
  function MessagesAfter(history: seq<Frame>, cursor: nat): seq<Frame> {
    if history == [] then
      []
    else
      var earlier, last := MessagesAfter(history[..|history| - 1], cursor), history[|history| - 1];
      if last.seqNo > cursor then earlier + [last] else earlier
  }

  /** The part of the history a cursor has passed. */
  function MessagesUpTo(history: seq<Frame>, cursor: nat): seq<Frame> {
    if history == [] then
      []
    else
      var earlier, last := MessagesUpTo(history[..|history| - 1], cursor), history[|history| - 1];
      if last.seqNo <= cursor then earlier + [last] else earlier
  }

  function LifecycleCount(frames: seq<Frame>): nat {
    if frames == [] then 0
    else LifecycleCount(frames[..|frames| - 1]) + if frames[|frames| - 1].Lifecycle? then 1 else 0
  }

  function EventsOf(frames: seq<Frame>): seq<EventId> {
    if frames == [] then
      []
    else
      var earlier, last := EventsOf(frames[..|frames| - 1]), frames[|frames| - 1];
      if last.Lifecycle? then earlier + [last.event] else earlier
  }

  ghost predicate Rising(frames: seq<Frame>) {
    forall i, j :: 0 <= i < j < |frames| ==> frames[i].seqNo < frames[j].seqNo
  }

  /** Positive, rising sequence numbers and distinct event ids. */
  ghost predicate WellNumbered(history: seq<Frame>) {
    && (forall i :: 0 <= i < |history| ==> history[i].seqNo > 0)
    && Rising(history)
    && (forall i, j :: 0 <= i < j < |history| && history[i].Lifecycle? && history[j].Lifecycle? ==>
                         history[i].event != history[j].event)
  }

  // ------------------------------------------------------------ replay tracker

  datatype Tracker = Tracker(hello: bool, expected: nat, processed: nat) {
    predicate Complete() {
      hello && processed >= expected
    }
  }

  const NEW_TRACKER := Tracker(false, 0, 0)

  function RecordLifecycle(t: Tracker): Tracker {
    if t.Complete() then t else t.(processed := t.processed + 1)
  }

  class ReplayTracker {
    var helloReceived: bool
    var expectedReplayCount: nat
    var processedReplayCount: nat

    function State(): Tracker
      reads this
    {
      Tracker(helloReceived, expectedReplayCount, processedReplayCount)
    }

    constructor ()
      ensures State() == NEW_TRACKER
    {
      helloReceived, expectedReplayCount, processedReplayCount := false, 0, 0;
    }

    method ProcessHello(replayCount: nat)
      modifies this
      ensures State() == Tracker(true, replayCount, 0)
    {
      helloReceived := true;
      expectedReplayCount := replayCount;
      processedReplayCount := 0;
    }

    method ReplayComplete() returns (complete: bool)
      ensures complete == State().Complete()
    {
      return helloReceived && processedReplayCount >= expectedReplayCount;
    }

    /** Refused before the hello. */
    method RecordLifecycleEvent() returns (recorded: bool)
      modifies this
      ensures recorded == old(helloReceived)
      ensures State() == if recorded then RecordLifecycle(old(State())) else old(State())
    {
      if !helloReceived {
        return false;
      }
      if processedReplayCount >= expectedReplayCount {
        return true;
      }
      processedReplayCount := processedReplayCount + 1;
      return true;
    }
  }

  // ------------------------------------------------------------------- client

  /** The client's durable store, its tracker, and the events it has accepted so far. */
  datatype Client = Client(store: Store, tracker: Tracker, accepted: seq<EventId>)

  function CursorOf(s: Store): nat {
    if s.cursor.Some? then s.cursor.value else 0
  }

  /** Replay is counted by accepted events only. */
  function Receive(c: Client, f: Frame): Client {
    match f
    case Heartbeat(seqNo) => c.(store := MarkSeq(c.store, seqNo))
    case Lifecycle(event, seqNo) =>
      if !Check(c.store, event, seqNo).Accepted? then c
      else Client(Consume(c.store, event, seqNo),
                  if c.tracker.Complete() || !c.tracker.hello then c.tracker else RecordLifecycle(c.tracker),
                  c.accepted + [event])
  }

  function ReceiveAll(c: Client, frames: seq<Frame>): Client {
    if frames == [] then c else Receive(ReceiveAll(c, frames[..|frames| - 1]), frames[|frames| - 1])
  }

  /** One session: the hello with its announced count, then every frame of the stream in
      turn, until the stream ends or breaks. */
  method RunSession(store: EventStore, tracker: ReplayTracker, replayCount: nat, frames: seq<Frame>,
                    before: seq<EventId>)
    returns (accepted: seq<EventId>)
    modifies store, tracker
    ensures Client(store.State(), tracker.State(), accepted)
            == ReceiveAll(Client(old(store.State()), Tracker(true, replayCount, 0), before), frames)
  {
    accepted := before;
    tracker.ProcessHello(replayCount);
    ghost var start := Client(store.State(), tracker.State(), before);
    for i := 0 to |frames|
      invariant tracker.helloReceived
      invariant Client(store.State(), tracker.State(), accepted) == ReceiveAll(start, frames[..i])
    {
      assert frames[..i + 1][..i] == frames[..i];
      match frames[i] {
        case Heartbeat(seqNo) =>
          store.MarkSeqProcessed(seqNo);
        case Lifecycle(event, seqNo) =>
          var wasComplete := tracker.ReplayComplete();
          var verdict := store.CheckAndMarkEventWithSeq(event, seqNo);
          if verdict.Accepted? {
            accepted := accepted + [event];
            if !wasComplete {
              var _ := tracker.RecordLifecycleEvent();
            }
          }
      }
    }
    assert frames[..|frames|] == frames;
  }

  // -------------------------------------------------------------------- runs

  /** `stream` holds the frames sent but not yet handled; `target` is the last sequence
      number of the replay announced by the hello. */
  datatype Link = Down | Up(stream: seq<Frame>, target: nat)

  datatype World = World(history: seq<Frame>, client: Client, link: Link)

  datatype Action =
    | Publish(frame: Frame)
    | Connect
    | Deliver
    | Break

  const START := World([], Client(EMPTY_STORE, NEW_TRACKER, []), Down)

  function LastSeq(history: seq<Frame>): nat {
    if history == [] then 0 else history[|history| - 1].seqNo
  }

  predicate Enabled(w: World, a: Action) {
    match a
    case Publish(f) =>
      f.seqNo > LastSeq(w.history)
      && (f.Lifecycle? ==>
            forall i :: 0 <= i < |w.history| && w.history[i].Lifecycle? ==> w.history[i].event != f.event)
    case Connect => w.link.Down?
    case Deliver => w.link.Up? && w.link.stream != []
    case Break => true
  }

  /** A break may fall anywhere; only the durable store is kept. */
  function Next(w: World, a: Action): World
    requires Enabled(w, a)
  {
    match a
    case Publish(f) =>
      World(w.history + [f], w.client, if w.link.Up? then w.link.(stream := w.link.stream + [f]) else w.link)
    case Connect =>
      var replay := MessagesAfter(w.history, CursorOf(w.client.store));
      World(w.history, w.client.(tracker := Tracker(true, LifecycleCount(replay), 0)), Up(replay, LastSeq(w.history)))
    case Deliver =>
      World(w.history, Receive(w.client, w.link.stream[0]), w.link.(stream := w.link.stream[1..]))
    case Break => World(w.history, w.client.(tracker := NEW_TRACKER), Down)
  }

  function EndOf(run: seq<Action>): Option<World> {
    if run == [] then Some(START) else
    var before := EndOf(run[..|run| - 1]);
    if before.Some? && Enabled(before.value, run[|run| - 1]) then Some(Next(before.value, run[|run| - 1])) else None
  }

  function Deliveries(k: nat): seq<Action> {
    if k == 0 then [] else Deliveries(k - 1) + [Deliver]
  }

  /** The world after the first k frames of the stream have been handled. */
  function Handled(w: World, k: nat): World
    requires w.link.Up? && k <= |w.link.stream|
  {
    World(w.history, ReceiveAll(w.client, w.link.stream[..k]), Up(w.link.stream[k..], w.link.target))
  }

  lemma HandlesOneMore(w: World, k: nat)
    requires w.link.Up? && k < |w.link.stream|
    ensures Enabled(Handled(w, k), Deliver) && Next(Handled(w, k), Deliver) == Handled(w, k + 1)
  {
    var stream := w.link.stream;
    assert stream[k..][0] == stream[k] && stream[k..][1..] == stream[k + 1..];
    assert stream[..k + 1][..k] == stream[..k] && stream[..k + 1][k] == stream[k];
  }

  lemma RunGrows(run: seq<Action>, w: World, a: Action)
    requires EndOf(run) == Some(w) && Enabled(w, a)
    ensures EndOf(run + [a]) == Some(Next(w, a))
  {
    assert (run + [a])[..|run|] == run;
  }

  lemma NothingHandled(w: World)
    requires w.link.Up?
    ensures Handled(w, 0) == w
  {
    assert w.link.stream[..0] == [] && w.link.stream[0..] == w.link.stream;
  }

  /** What a session loop does to store and tracker before its connection ends after k frames
      is k deliveries of a run. */
  lemma {:induction false} SessionIsARun(run: seq<Action>, w: World, k: nat) returns (longer: seq<Action>)
    requires EndOf(run) == Some(w) && w.link.Up? && k <= |w.link.stream|
    ensures longer == run + Deliveries(k)
    ensures EndOf(longer) == Some(Handled(w, k))
  {
    if k == 0 {
      NothingHandled(w);
      longer := run;
    } else {
      var shorter := SessionIsARun(run, w, k - 1);
      HandlesOneMore(w, k - 1);
      RunGrows(shorter, Handled(w, k - 1), Deliver);
      longer := shorter + [Deliver];
    }
  }

  // ----------------------------------------------------- cutting the history

  lemma {:induction false} PartsAreBounded(history: seq<Frame>, cursor: nat)
    ensures forall i :: 0 <= i < |MessagesUpTo(history, cursor)| ==> MessagesUpTo(history, cursor)[i].seqNo <= cursor
    ensures forall i :: 0 <= i < |MessagesAfter(history, cursor)| ==> MessagesAfter(history, cursor)[i].seqNo > cursor
  {
    if history != [] {
      PartsAreBounded(history[..|history| - 1], cursor);
    }
  }

  lemma UpToAppended(frames: seq<Frame>, f: Frame, cursor: nat)
    ensures f.seqNo <= cursor ==> MessagesUpTo(frames + [f], cursor) == MessagesUpTo(frames, cursor) + [f]
    ensures f.seqNo <= cursor ==> MessagesAfter(frames + [f], cursor) == MessagesAfter(frames, cursor)
    ensures f.seqNo > cursor ==> MessagesUpTo(frames + [f], cursor) == MessagesUpTo(frames, cursor)
    ensures f.seqNo > cursor ==> MessagesAfter(frames + [f], cursor) == MessagesAfter(frames, cursor) + [f]
  {
    assert (frames + [f])[..|frames|] == frames;
  }

  ghost predicate AllWithin(frames: seq<Frame>, cursor: nat) {
    forall i :: 0 <= i < |frames| ==> frames[i].seqNo <= cursor
  }

  ghost predicate AllBeyond(frames: seq<Frame>, cursor: nat) {
    forall i :: 0 <= i < |frames| ==> frames[i].seqNo > cursor
  }

  lemma {:induction false} AllUpTo(frames: seq<Frame>, cursor: nat)
    requires AllWithin(frames, cursor)
    ensures MessagesUpTo(frames, cursor) == frames && MessagesAfter(frames, cursor) == []
  {
    if frames != [] {
      var earlier, last := frames[..|frames| - 1], frames[|frames| - 1];
      assert frames == earlier + [last];
      AllUpTo(earlier, cursor);
      UpToAppended(earlier, last, cursor);
    }
  }

  /** A numbered history is cut in two by any cursor. */
  lemma {:induction false} CursorCutsHistory(history: seq<Frame>, cursor: nat)
    requires Rising(history)
    ensures MessagesUpTo(history, cursor) + MessagesAfter(history, cursor) == history
  {
    if history != [] {
      var earlier, last := history[..|history| - 1], history[|history| - 1];
      assert history == earlier + [last];
      if last.seqNo <= cursor {
        assert AllWithin(history, cursor);
        AllUpTo(history, cursor);
      } else {
        CursorCutsHistory(earlier, cursor);
      }
    }
  }

  /** Where a history is cut decides both parts. */
  lemma {:induction false} CutIsUnique(left: seq<Frame>, right: seq<Frame>, cursor: nat)
    requires AllWithin(left, cursor) && AllBeyond(right, cursor)
    ensures MessagesUpTo(left + right, cursor) == left
    ensures MessagesAfter(left + right, cursor) == right
  {
    if right == [] {
      assert left + right == left;
      AllUpTo(left, cursor);
    } else {
      var earlier, last := right[..|right| - 1], right[|right| - 1];
      CutIsUnique(left, earlier, cursor);
      UpToAppended(left + earlier, last, cursor);
      assert left + right == (left + earlier) + [last];
    }
  }

  /** Handling the first frame behind the cursor moves exactly that frame across. */
  lemma FirstFrameCrosses(history: seq<Frame>, cursor: nat)
    requires WellNumbered(history) && MessagesAfter(history, cursor) != []
    ensures var f := MessagesAfter(history, cursor)[0];
            && f.seqNo > cursor
            && MessagesUpTo(history, f.seqNo) == MessagesUpTo(history, cursor) + [f]
            && MessagesAfter(history, f.seqNo) == MessagesAfter(history, cursor)[1..]
  {
    var left, right := MessagesUpTo(history, cursor), MessagesAfter(history, cursor);
    CursorCutsHistory(history, cursor);
    PartsAreBounded(history, cursor);
    var f := right[0];
    assert (left + [f]) + right[1..] == history;
    forall i | 0 <= i < |right[1..]| ensures right[1..][i].seqNo > f.seqNo {
      assert history[|left|] == f && history[|left| + 1 + i] == right[1..][i];
    }
    assert AllWithin(left + [f], f.seqNo) && AllBeyond(right[1..], f.seqNo);
    CutIsUnique(left + [f], right[1..], f.seqNo);
  }

  lemma EventsOfAppended(frames: seq<Frame>, f: Frame)
    ensures EventsOf(frames + [f]) == if f.Lifecycle? then EventsOf(frames) + [f.event] else EventsOf(frames)
    ensures LifecycleCount(frames + [f]) == LifecycleCount(frames) + if f.Lifecycle? then 1 else 0
  {
    assert (frames + [f])[..|frames|] == frames;
  }

  lemma {:induction false} EventsComeFromFrames(frames: seq<Frame>)
    ensures forall e :: e in EventsOf(frames) <==>
                          exists i :: 0 <= i < |frames| && frames[i] == Lifecycle(e, frames[i].seqNo)
  {
    if frames != [] {
      EventsComeFromFrames(frames[..|frames| - 1]);
      assert frames == frames[..|frames| - 1] + [frames[|frames| - 1]];
    }
  }

  // ---------------------------------------------------------------- invariant

  /** Accepted is exactly what the cursor has passed, and a live connection holds exactly
      what it has not. */
  ghost predicate Delivered(w: World) {
    match w
    case World(history, Client(store, _, accepted), link) =>
      && WellNumbered(history)
      && CursorOf(store) <= LastSeq(history)
      && accepted == EventsOf(MessagesUpTo(history, CursorOf(store)))
      && (forall e :: e in store.processed <==> e in accepted)
      && (link.Up? ==> link.stream == MessagesAfter(history, CursorOf(store)))
  }

  lemma PublishKeepsDelivered(w: World, f: Frame)
    requires Delivered(w) && Enabled(w, Publish(f))
    ensures Delivered(Next(w, Publish(f)))
  {
    var longer, cursor := w.history + [f], CursorOf(w.client.store);
    UpToAppended(w.history, f, cursor);
    forall i | 0 <= i < |w.history| ensures w.history[i].seqNo <= LastSeq(w.history) {
      assert i == |w.history| - 1 || w.history[i].seqNo < w.history[|w.history| - 1].seqNo;
    }
    assert WellNumbered(longer);
  }

  lemma NextFrameIsAccepted(w: World)
    requires Delivered(w) && Enabled(w, Deliver)
    ensures var f := w.link.stream[0];
            f.seqNo > CursorOf(w.client.store) && (f.Lifecycle? ==> f.event !in w.client.accepted)
  {
    var left, f := MessagesUpTo(w.history, CursorOf(w.client.store)), w.link.stream[0];
    CursorCutsHistory(w.history, CursorOf(w.client.store));
    PartsAreBounded(w.history, CursorOf(w.client.store));
    EventsComeFromFrames(left);
    forall i | 0 <= i < |left| && left[i].Lifecycle? && f.Lifecycle? ensures left[i].event != f.event {
      assert w.history[i] == left[i] && w.history[|left|] == f;
    }
  }

  lemma DeliverKeepsDelivered(w: World)
    requires Delivered(w) && Enabled(w, Deliver)
    ensures Delivered(Next(w, Deliver))
  {
    var f, cursor := w.link.stream[0], CursorOf(w.client.store);
    NextFrameIsAccepted(w);
    FirstFrameCrosses(w.history, cursor);
    EventsOfAppended(MessagesUpTo(w.history, cursor), f);
    CursorCutsHistory(w.history, cursor);
    var k := |MessagesUpTo(w.history, cursor)|;
    assert w.history[k] == f;
    assert f.seqNo <= LastSeq(w.history);
    assert CursorOf(Next(w, Deliver).client.store) == f.seqNo;
  }

  lemma StepKeepsDelivered(w: World, a: Action)
    requires Delivered(w) && Enabled(w, a)
    ensures Delivered(Next(w, a))
  {
    match a
    case Publish(f) => PublishKeepsDelivered(w, f);
    case Deliver => DeliverKeepsDelivered(w);
    case _ =>
  }

  lemma {:induction false} RunsDeliver(run: seq<Action>)
    requires EndOf(run).Some?
    ensures Delivered(EndOf(run).value)
  {
    if run != [] {
      RunsDeliver(run[..|run| - 1]);
      StepKeepsDelivered(EndOf(run[..|run| - 1]).value, run[|run| - 1]);
    }
  }

  lemma {:induction false} DistinctEvents(frames: seq<Frame>)
    requires WellNumbered(frames)
    ensures forall i, j :: 0 <= i < j < |EventsOf(frames)| ==> EventsOf(frames)[i] != EventsOf(frames)[j]
  {
    if frames != [] {
      var earlier, last := frames[..|frames| - 1], frames[|frames| - 1];
      DistinctEvents(earlier);
      EventsComeFromFrames(earlier);
      assert last.Lifecycle? ==> last.event !in EventsOf(earlier);
    }
  }

  /** Exactly once, in order, over any number of breaks: the accepted events are the
      history's lifecycle events up to the cursor, each once; and a connection that has
      nothing left to deliver has delivered the whole history. */
  lemma ExactlyOnceDelivery(run: seq<Action>, w: World)
    requires EndOf(run) == Some(w)
    ensures w.client.accepted == EventsOf(MessagesUpTo(w.history, CursorOf(w.client.store)))
    ensures forall i, j :: 0 <= i < j < |w.client.accepted| ==> w.client.accepted[i] != w.client.accepted[j]
    ensures w.link.Up? && w.link.stream == [] ==> w.client.accepted == EventsOf(w.history)
  {
    RunsDeliver(run);
    CursorCutsHistory(w.history, CursorOf(w.client.store));
    var passed := MessagesUpTo(w.history, CursorOf(w.client.store));
    var rest := MessagesAfter(w.history, CursorOf(w.client.store));
    assert forall i :: 0 <= i < |passed| ==> passed[i] == w.history[i];
    assert WellNumbered(passed);
    DistinctEvents(passed);
    if rest == [] {
      assert passed == w.history;
    }
  }

  // ----------------------------------------------------------- replay counting

  /** What is still to come of the announced replay. */
  function Outstanding(link: Link): nat
    requires link.Up?
  {
    LifecycleCount(MessagesUpTo(link.stream, link.target))
  }

  ghost predicate Counted(w: World) {
    match w
    case World(_, Client(_, tracker, _), link) =>
      link.Up? ==> tracker.hello && tracker.processed + Outstanding(link) == tracker.expected
  }

  lemma {:induction false} UpToKeepsFirst(frames: seq<Frame>, cursor: nat)
    requires frames != []
    ensures MessagesUpTo(frames, cursor)
            == (if frames[0].seqNo <= cursor then [frames[0]] else []) + MessagesUpTo(frames[1..], cursor)
  {
    if |frames| > 1 {
      var n := |frames| - 1;
      UpToKeepsFirst(frames[..n], cursor);
      assert frames[..n][1..] == frames[1..][..n - 1];
    } else {
      assert frames[..0] == [] && frames[1..] == [];
    }
  }

  lemma {:induction false} CountFirst(frames: seq<Frame>)
    requires frames != []
    ensures LifecycleCount(frames) == (if frames[0].Lifecycle? then 1 else 0) + LifecycleCount(frames[1..])
  {
    if |frames| > 1 {
      var n := |frames| - 1;
      CountFirst(frames[..n]);
      assert frames[..n][1..] == frames[1..][..n - 1];
    } else {
      assert frames[..0] == [] && frames[1..] == [];
    }
  }

  lemma NothingUpTo(frames: seq<Frame>, cursor: nat)
    requires AllBeyond(frames, cursor)
    ensures MessagesUpTo(frames, cursor) == []
  {
    CutIsUnique([], frames, cursor);
    assert [] + frames == frames;
  }

  /** The stream is the end of the history and numbered like it. */
  lemma StreamEndsHistory(w: World)
    requires Delivered(w) && w.link.Up?
    ensures |w.link.stream| <= |w.history|
    ensures var k := |w.history| - |w.link.stream|;
            && w.history[..k] == MessagesUpTo(w.history, CursorOf(w.client.store))
            && w.history[k..] == w.link.stream
    ensures Rising(w.link.stream)
    ensures forall i :: 0 <= i < |w.link.stream| ==> w.link.stream[i].seqNo <= LastSeq(w.history)
  {
    CursorCutsHistory(w.history, CursorOf(w.client.store));
    var k := |w.history| - |w.link.stream|;
    assert w.history[..k] == MessagesUpTo(w.history, CursorOf(w.client.store));
    assert w.history[k..] == w.link.stream;
  }

  lemma FirstFrameCounts(stream: seq<Frame>, target: nat)
    requires Rising(stream) && stream != []
    ensures LifecycleCount(MessagesUpTo(stream, target))
            == LifecycleCount(MessagesUpTo(stream[1..], target))
               + if stream[0].Lifecycle? && stream[0].seqNo <= target then 1 else 0
  {
    UpToKeepsFirst(stream, target);
    if stream[0].seqNo <= target {
      var due := MessagesUpTo(stream, target);
      CountFirst(due);
      assert due[1..] == MessagesUpTo(stream[1..], target);
    } else {
      assert [] + MessagesUpTo(stream[1..], target) == MessagesUpTo(stream[1..], target);
    }
  }

  lemma PastTargetIsComplete(stream: seq<Frame>, target: nat)
    requires Rising(stream) && stream != [] && stream[0].seqNo > target
    ensures LifecycleCount(MessagesUpTo(stream, target)) == 0
  {
    assert AllBeyond(stream, target);
    NothingUpTo(stream, target);
  }

  /** An accepted lifecycle frame counts unless the announced number is already reached. */
  lemma ReceivingCounts(c: Client, f: Frame)
    requires c.tracker.hello && (f.Lifecycle? ==> Check(c.store, f.event, f.seqNo).Accepted?)
    ensures Receive(c, f).tracker
            == if f.Lifecycle? && c.tracker.processed < c.tracker.expected
               then c.tracker.(processed := c.tracker.processed + 1) else c.tracker
  {
  }

  lemma DeliverKeepsCounted(w: World)
    requires Delivered(w) && Counted(w) && Enabled(w, Deliver)
    ensures Counted(Next(w, Deliver))
  {
    var f := w.link.stream[0];
    NextFrameIsAccepted(w);
    assert f.Lifecycle? ==> Check(w.client.store, f.event, f.seqNo).Accepted?;
    ReceivingCounts(w.client, f);
    StreamEndsHistory(w);
    FirstFrameCounts(w.link.stream, w.link.target);
    if f.seqNo > w.link.target {
      PastTargetIsComplete(w.link.stream, w.link.target);
    }
  }

  lemma StepKeepsCounted(w: World, a: Action)
    requires Delivered(w) && Counted(w) && Enabled(w, a)
    requires w.link.Up? ==> w.link.target <= LastSeq(w.history)
    ensures Counted(Next(w, a))
    ensures Next(w, a).link.Up? ==> Next(w, a).link.target <= LastSeq(Next(w, a).history)
  {
    match a
    case Publish(f) =>
      if w.link.Up? {
        UpToAppended(w.link.stream, f, w.link.target);
      }
    case Connect =>
      StepKeepsDelivered(w, Connect);
      StreamEndsHistory(Next(w, Connect));
      assert AllWithin(Next(w, Connect).link.stream, LastSeq(w.history));
      AllUpTo(Next(w, Connect).link.stream, LastSeq(w.history));
    case Deliver => DeliverKeepsCounted(w);
    case Break =>
  }

  lemma {:induction false} RunsCount(run: seq<Action>)
    requires EndOf(run).Some?
    ensures var w := EndOf(run).value;
            Counted(w) && (w.link.Up? ==> w.link.target <= LastSeq(w.history))
  {
    if run != [] {
      RunsCount(run[..|run| - 1]);
      RunsDeliver(run[..|run| - 1]);
      StepKeepsCounted(EndOf(run[..|run| - 1]).value, run[|run| - 1]);
    }
  }

  /** No lifecycle frame up to `bound` is still to come. */
  ghost predicate Drained(stream: seq<Frame>, bound: nat) {
    forall i :: 0 <= i < |stream| && stream[i].Lifecycle? ==> stream[i].seqNo > bound
  }

  lemma DrainedAppended(frames: seq<Frame>, f: Frame, bound: nat)
    ensures Drained(frames + [f], bound) <==> Drained(frames, bound) && (f.Lifecycle? ==> f.seqNo > bound)
  {
    var longer := frames + [f];
    assert longer[|frames|] == f;
    assert forall i :: 0 <= i < |frames| ==> longer[i] == frames[i];
  }

  lemma {:induction false} NoneOutstanding(frames: seq<Frame>, cursor: nat)
    ensures LifecycleCount(MessagesUpTo(frames, cursor)) == 0 <==> Drained(frames, cursor)
  {
    if frames != [] {
      var earlier, last := frames[..|frames| - 1], frames[|frames| - 1];
      assert frames == earlier + [last];
      NoneOutstanding(earlier, cursor);
      UpToAppended(earlier, last, cursor);
      EventsOfAppended(MessagesUpTo(earlier, cursor), last);
      DrainedAppended(earlier, last, cursor);
    }
  }

  lemma AcceptedIffPassed(w: World, i: nat)
    requires Delivered(w) && i < |w.history| && w.history[i].Lifecycle?
    ensures w.history[i].event in w.client.accepted <==> i < |MessagesUpTo(w.history, CursorOf(w.client.store))|
  {
    var passed := MessagesUpTo(w.history, CursorOf(w.client.store));
    CursorCutsHistory(w.history, CursorOf(w.client.store));
    EventsComeFromFrames(passed);
    if i < |passed| {
      assert passed[i] == Lifecycle(w.history[i].event, passed[i].seqNo);
    } else {
      forall j | 0 <= j < |passed| && passed[j].Lifecycle? ensures passed[j].event != w.history[i].event {
        assert w.history[j] == passed[j];
      }
    }
  }

  /** Every lifecycle frame up to `bound` has been accepted. */
  ghost predicate AcceptedUpTo(w: World, bound: nat) {
    forall i :: 0 <= i < |w.history| && w.history[i].Lifecycle? && w.history[i].seqNo <= bound ==>
                  w.history[i].event in w.client.accepted
  }

  lemma DrainedIsAccepted(w: World)
    requires Delivered(w) && w.link.Up? && Drained(w.link.stream, w.link.target)
    ensures AcceptedUpTo(w, w.link.target)
  {
    StreamEndsHistory(w);
    var k := |w.history| - |w.link.stream|;
    forall i | k <= i < |w.history| && w.history[i].Lifecycle? ensures w.history[i].seqNo > w.link.target {
      assert w.history[k..][i - k] == w.history[i];
    }
    forall i | 0 <= i < |w.history| && w.history[i].Lifecycle? && w.history[i].seqNo <= w.link.target
      ensures w.history[i].event in w.client.accepted
    {
      AcceptedIffPassed(w, i);
    }
  }

  lemma AcceptedIsDrained(w: World)
    requires Delivered(w) && w.link.Up? && AcceptedUpTo(w, w.link.target)
    ensures Drained(w.link.stream, w.link.target)
  {
    StreamEndsHistory(w);
    var k := |w.history| - |w.link.stream|;
    forall i | 0 <= i < |w.link.stream| && w.link.stream[i].Lifecycle? ensures w.link.stream[i].seqNo > w.link.target {
      assert w.history[k + i] == w.history[k..][i];
      AcceptedIffPassed(w, k + i);
    }
  }

  /** Replay counts as complete exactly when no announced lifecycle frame is left: every
      lifecycle frame up to the hello's last sequence number has been accepted. */
  lemma ReplayCompleteIffDrained(run: seq<Action>, w: World)
    requires EndOf(run) == Some(w) && w.link.Up?
    ensures w.client.tracker.Complete() <==> AcceptedUpTo(w, w.link.target)
  {
    RunsDeliver(run);
    RunsCount(run);
    NoneOutstanding(w.link.stream, w.link.target);
    if Drained(w.link.stream, w.link.target) {
      DrainedIsAccepted(w);
    }
    if AcceptedUpTo(w, w.link.target) {
      AcceptedIsDrained(w);
    }
  }
}
