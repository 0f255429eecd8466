/** The durable Eagle cursor: processed event ids and the last sequence number, always
    written together. */
module EventStores {
  import opened Protocol

  datatype Store = Store(processed: set<EventId>, cursor: Option<nat>)

  datatype Verdict = Accepted | DuplicateEvent | OutOfSequence

  const EMPTY_STORE := Store({}, None)

  /** check_event_with_seq: the read-only check. */
  function Check(s: Store, event: EventId, seqNo: nat): Verdict {
    if event in s.processed then DuplicateEvent
    else if s.cursor.Some? && seqNo <= s.cursor.value then OutOfSequence
    else Accepted
  }

  /** check_and_mark_event_with_seq: both columns move, or neither. */
  function Consume(s: Store, event: EventId, seqNo: nat): Store {
    if Check(s, event, seqNo).Accepted? then Store(s.processed + {event}, Some(seqNo)) else s
  }

  function MarkSeq(s: Store, seqNo: nat): Store {
    if s.cursor.None? || seqNo > s.cursor.value then s.(cursor := Some(seqNo)) else s
  }

  /** Every call that can change the store. MarkEvent is mark_event_processed and
      check_and_mark_event, which touch only the ids; AdvanceSeq is mark_seq_processed
      and check_and_mark_seq, which touch only the cursor. */
  datatype Operation =
    | ConsumeEvent(event: EventId, seqNo: nat)
    | AdvanceSeq(seqNo: nat)
    | MarkEvent(event: EventId)

  function Perform(s: Store, op: Operation): Store {
    match op
    case ConsumeEvent(event, seqNo) => Consume(s, event, seqNo)
    case AdvanceSeq(seqNo) => MarkSeq(s, seqNo)
    case MarkEvent(event) => s.(processed := s.processed + {event})
  }

  function PerformAll(ops: seq<Operation>): Store {
    if ops == [] then EMPTY_STORE else Perform(PerformAll(ops[..|ops| - 1]), ops[|ops| - 1])
  }

  /** The events accepted with their sequence numbers, in order. */
  function AcceptedEvents(ops: seq<Operation>): seq<(EventId, nat)> {
    if ops == [] then
      []
    else
      var earlier, last := ops[..|ops| - 1], ops[|ops| - 1];
      if last.ConsumeEvent? && Check(PerformAll(earlier), last.event, last.seqNo).Accepted?
      then AcceptedEvents(earlier) + [(last.event, last.seqNo)]
      else AcceptedEvents(earlier)
  }

  /** The sequence numbers the caller has asked to advance to. */
  function MarkedSeqs(ops: seq<Operation>): seq<nat> {
    if ops == [] then
      []
    else
      MarkedSeqs(ops[..|ops| - 1]) + if ops[|ops| - 1].AdvanceSeq? then [ops[|ops| - 1].seqNo] else []
  }

  ghost predicate IsMaximum(cursor: Option<nat>, seqs: seq<nat>) {
    match cursor
    case None => seqs == []
    case Some(top) => top in seqs && forall n :: n in seqs ==> n <= top
  }

  function SeqsOf(events: seq<(EventId, nat)>): seq<nat> {
    seq(|events|, i requires 0 <= i < |events| => events[i].1)
  }

  lemma MaximumGrows(cursor: Option<nat>, seqs: seq<nat>, n: nat, more: seq<nat>)
    requires IsMaximum(cursor, seqs) && forall m :: m in more <==> m in seqs || m == n
    ensures IsMaximum(if cursor.None? || n > cursor.value then Some(n) else cursor, more)
  {
  }

  /** The numbers the cursor answers for. */
  function SeqsBehind(ops: seq<Operation>): seq<nat> {
    SeqsOf(AcceptedEvents(ops)) + MarkedSeqs(ops)
  }

  lemma {:induction false} CursorTopsSeqs(ops: seq<Operation>)
    ensures IsMaximum(PerformAll(ops).cursor, SeqsBehind(ops))
  {
    if ops != [] {
      var earlier, last := ops[..|ops| - 1], ops[|ops| - 1];
      CursorTopsSeqs(earlier);
      var before, was, marked := PerformAll(earlier), AcceptedEvents(earlier), MarkedSeqs(earlier);
      if AcceptedEvents(ops) != was {
        assert SeqsOf(was + [(last.event, last.seqNo)]) == SeqsOf(was) + [last.seqNo];
        MaximumGrows(before.cursor, SeqsBehind(earlier), last.seqNo, SeqsBehind(ops));
      } else if last.AdvanceSeq? {
        MaximumGrows(before.cursor, SeqsBehind(earlier), last.seqNo, SeqsBehind(ops));
      } else {
        assert MarkedSeqs(ops) == marked;
      }
    }
  }

  lemma AcceptedIsBehind(ops: seq<Operation>, i: nat)
    requires i < |AcceptedEvents(ops)|
    ensures PerformAll(ops).cursor.Some? && AcceptedEvents(ops)[i].1 <= PerformAll(ops).cursor.value
  {
    CursorTopsSeqs(ops);
    assert SeqsBehind(ops)[i] == AcceptedEvents(ops)[i].1;
  }

  /** Rising numbers and distinct ids, all of them processed. */
  ghost predicate Orderly(accepted: seq<(EventId, nat)>, processed: set<EventId>) {
    && (forall i :: 0 <= i < |accepted| ==> accepted[i].0 in processed)
    && (forall i, j :: 0 <= i < j < |accepted| ==> accepted[i].1 < accepted[j].1 && accepted[i].0 != accepted[j].0)
  }

  lemma {:induction false} AcceptedIsOrderly(ops: seq<Operation>)
    ensures Orderly(AcceptedEvents(ops), PerformAll(ops).processed)
  {
    if ops != [] {
      var earlier := ops[..|ops| - 1];
      AcceptedIsOrderly(earlier);
      forall i: nat | i < |AcceptedEvents(earlier)|
        ensures PerformAll(earlier).cursor.Some? && AcceptedEvents(earlier)[i].1 <= PerformAll(earlier).cursor.value
      {
        AcceptedIsBehind(earlier, i);
      }
    }
  }

  /** Over any mix of calls the cursor is the maximum of the accepted and the marked
      sequence numbers, and accepted events have rising numbers and distinct ids. */
  lemma CursorIsMaximum(ops: seq<Operation>)
    ensures IsMaximum(PerformAll(ops).cursor, SeqsOf(AcceptedEvents(ops)) + MarkedSeqs(ops))
    ensures Orderly(AcceptedEvents(ops), PerformAll(ops).processed)
  {
    CursorTopsSeqs(ops);
    AcceptedIsOrderly(ops);
  }

  /** The read-only check says what the mutating call would do next; whatever it says, the
      second call for the same event is refused. */
  lemma CheckForetellsConsume(ops: seq<Operation>, event: EventId, seqNo: nat)
    ensures var s := PerformAll(ops);
            && (Check(s, event, seqNo).Accepted? <==> AcceptedEvents(ops + [ConsumeEvent(event, seqNo)])
                                                      == AcceptedEvents(ops) + [(event, seqNo)])
            && (!Check(s, event, seqNo).Accepted? ==> PerformAll(ops + [ConsumeEvent(event, seqNo)]) == s)
            && !Check(PerformAll(ops + [ConsumeEvent(event, seqNo)]), event, seqNo).Accepted?
  {
    var longer := ops + [ConsumeEvent(event, seqNo)];
    assert longer[..|longer| - 1] == ops;
    assert |AcceptedEvents(ops) + [(event, seqNo)]| == |AcceptedEvents(ops)| + 1;
  }

  class EventStore {
    var processed: set<EventId>
    var lastSeq: Option<nat>

    function State(): Store
      reads this
    {
      Store(processed, lastSeq)
    }

    constructor ()
      ensures State() == EMPTY_STORE
    {
      processed, lastSeq := {}, None;
    }

    method CheckEventWithSeq(event: EventId, seqNo: nat) returns (verdict: Verdict)
      ensures verdict == Check(State(), event, seqNo)
    {
      if event in processed {
        return DuplicateEvent;
      }
      if lastSeq.Some? && seqNo <= lastSeq.value {
        return OutOfSequence;
      }
      return Accepted;
    }

    method CheckAndMarkEventWithSeq(event: EventId, seqNo: nat) returns (verdict: Verdict)
      modifies this
      ensures verdict == Check(old(State()), event, seqNo)
      ensures State() == Perform(old(State()), ConsumeEvent(event, seqNo))
    {
      if event in processed {
        return DuplicateEvent;
      }
      if lastSeq.Some? && seqNo <= lastSeq.value {
        return OutOfSequence;
      }
      processed := processed + {event};
      lastSeq := Some(seqNo);
      return Accepted;
    }

    method MarkSeqProcessed(seqNo: nat)
      modifies this
      ensures State() == Perform(old(State()), AdvanceSeq(seqNo))
    {
      if lastSeq.None? {
        lastSeq := Some(seqNo);
        return;
      }
      if seqNo > lastSeq.value {
        lastSeq := Some(seqNo);
      }
    }

    method CheckAndMarkSeq(seqNo: nat) returns (advanced: bool)
      modifies this
      ensures State() == Perform(old(State()), AdvanceSeq(seqNo))
      ensures advanced <==> State() != old(State())
    {
      if lastSeq.None? {
        lastSeq := Some(seqNo);
        return true;
      }
      if seqNo <= lastSeq.value {
        return false;
      }
      lastSeq := Some(seqNo);
      return true;
    }

    method CheckAndMarkEvent(event: EventId) returns (unseen: bool)
      modifies this
      ensures State() == Perform(old(State()), MarkEvent(event))
      ensures unseen <==> event !in old(processed)
    {
      unseen := event !in processed;
      processed := processed + {event};
    }
  }
}
