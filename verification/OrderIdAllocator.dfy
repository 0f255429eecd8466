/** Allocation of IB order ids. The allocator keeps four fields; `LeastSafeId` is the
    single number they amount to, and every id handed out is exactly that number. */
module OrderIdAllocators {
  import opened Protocol

  datatype Allocator = Allocator(
    initialized: bool,
    next: Option<OrderId>,
    highestAllocated: Option<OrderId>,
    highestObserved: Option<OrderId>)

  const FRESH := Allocator(false, None, None, None)

  function Max(a: nat, b: nat): nat {
    if a < b then b else a
  }

  /** `candidate` raised to at least one more than an optional id. */
  function Above(candidate: nat, id: Option<OrderId>): nat {
    if id.Some? then Max(candidate, id.value + 1) else candidate
  }

  function Initialize(a: Allocator, nextValidId: OrderId): Allocator {
    var candidate := Above(nextValidId, a.highestObserved);
    var kept := if a.next.Some? then Max(candidate, a.next.value) else candidate;
    a.(next := Some(Above(kept, a.highestAllocated)), initialized := true)
  }

  function Allocate(a: Allocator): Option<(OrderId, Allocator)> {
    if !a.initialized || a.next.None? then
      None
    else
      Some((a.next.value, a.(highestAllocated := a.next, next := Some(a.next.value + 1))))
  }

  function Observe(a: Allocator, id: OrderId): Allocator {
    var seen := if a.highestObserved.None? || id > a.highestObserved.value then Some(id) else a.highestObserved;
    var next := if a.initialized && a.next.Some? && id >= a.next.value then Some(id + 1) else a.next;
    a.(highestObserved := seen, next := next)
  }

  function EnsureMinimum(a: Allocator, minimum: OrderId): Allocator {
    if a.next.Some? && minimum > a.next.value then a.(next := Some(minimum)) else a
  }

  /** Any call made on the allocator during one process. */
  datatype Request = NextValidId(id: OrderId) | Observed(id: OrderId) | Minimum(id: OrderId) | Take

  function Perform(a: Allocator, call: Request): Allocator {
    match call
    case NextValidId(id) => Initialize(a, id)
    case Observed(id) => Observe(a, id)
    case Minimum(id) => EnsureMinimum(a, id)
    case Take => if Allocate(a).Some? then Allocate(a).value.1 else a
  }

  function PerformAll(calls: seq<Request>): Allocator {
    if calls == [] then FRESH else Perform(PerformAll(calls[..|calls| - 1]), calls[|calls| - 1])
  }

  predicate Started(calls: seq<Request>) {
    exists i :: 0 <= i < |calls| && calls[i].NextValidId?
  }

  /** How one call moves the least safe id. */
  function SafeAfter(started: bool, safe: nat, call: Request): nat {
    match call
    case NextValidId(id) => Max(safe, id)
    case Observed(id) => Max(safe, id + 1)
    case Minimum(id) => if started then Max(safe, id) else safe
    case Take => if started then safe + 1 else safe
  }

  /** The smallest id above every id the handshake offered, the broker showed or BTS took,
      and not below any floor asked for since the handshake. */
  function LeastSafeId(calls: seq<Request>): nat {
    if calls == [] then
      0
    else
      var earlier := calls[..|calls| - 1];
      SafeAfter(Started(earlier), LeastSafeId(earlier), calls[|calls| - 1])
  }

  lemma StartedGrows(calls: seq<Request>, last: Request)
    ensures Started(calls + [last]) <==> Started(calls) || last.NextValidId?
  {
    var longer := calls + [last];
    assert longer[|calls|] == last;
    assert forall i :: 0 <= i < |calls| ==> longer[i] == calls[i];
  }

  /** The fields encode `safe`, the least safe id. */
  predicate Encodes(a: Allocator, safe: nat) {
    && a.initialized == a.next.Some?
    && (a.initialized ==> a.next.value == safe)
    && (!a.initialized ==> a.highestAllocated.None? && safe == Above(0, a.highestObserved))
    && (a.initialized ==> Above(0, a.highestAllocated) <= a.next.value)
    && (a.initialized ==> Above(0, a.highestObserved) <= a.next.value)
  }

  lemma LastCallKeepsEncoding(a: Allocator, safe: nat, call: Request)
    requires Encodes(a, safe)
    ensures Encodes(Perform(a, call), SafeAfter(a.initialized, safe, call))
    ensures Perform(a, call).initialized <==> a.initialized || call.NextValidId?
  {
  }

  /** The four fields always encode the one number. */
  lemma {:induction false} FieldsEncodeLeastSafeId(calls: seq<Request>)
    ensures var a := PerformAll(calls);
            && (a.initialized <==> Started(calls))
            && Encodes(a, LeastSafeId(calls))
  {
    if calls != [] {
      var earlier, last := calls[..|calls| - 1], calls[|calls| - 1];
      FieldsEncodeLeastSafeId(earlier);
      StartedGrows(earlier, last);
      assert calls == earlier + [last];
      LastCallKeepsEncoding(PerformAll(earlier), LeastSafeId(earlier), last);
    }
  }

  lemma {:induction false} LeastSafeIdGrows(calls: seq<Request>, k: nat)
    requires k <= |calls|
    ensures LeastSafeId(calls[..k]) <= LeastSafeId(calls)
  {
    if k == |calls| {
      assert calls[..k] == calls;
    } else {
      var earlier := calls[..|calls| - 1];
      LeastSafeIdGrows(earlier, k);
      assert earlier[..k] == calls[..k];
    }
  }

  /** The id taken by call number k. */
  function TakenBy(calls: seq<Request>, k: nat): Option<OrderId>
    requires k < |calls|
  {
    if calls[k].Take? then
      (if Allocate(PerformAll(calls[..k])).Some? then Some(Allocate(PerformAll(calls[..k])).value.0) else None)
    else
      None
  }

  /** Each id taken exceeds every id taken or observed before it, is not below an earlier
      nextValidId, and is not below a floor asked for after the handshake. */
  lemma TakenIdExceedsEarlier(calls: seq<Request>, j: nat, k: nat)
    requires j < k < |calls| && TakenBy(calls, k).Some?
    ensures TakenBy(calls, j).Some? ==> TakenBy(calls, j).value < TakenBy(calls, k).value
    ensures calls[j].Observed? ==> calls[j].id < TakenBy(calls, k).value
    ensures calls[j].NextValidId? ==> calls[j].id <= TakenBy(calls, k).value
    ensures calls[j].Minimum? && Started(calls[..j]) ==> calls[j].id <= TakenBy(calls, k).value
  {
    var before := calls[..k];
    FieldsEncodeLeastSafeId(before);
    FieldsEncodeLeastSafeId(calls[..j]);
    LeastSafeIdGrows(before, j + 1);
    assert before[..j + 1] == calls[..j + 1];
    assert calls[..j + 1][..j] == calls[..j];
  }

  // ------------------------------------------------------------- minimality

  /** An id no one could object to: above every id observed or taken, not below any offer,
      and not below any floor asked for since the handshake. */
  ghost predicate SafeFor(calls: seq<Request>, n: nat) {
    forall k: nat :: k < |calls| ==> Permits(calls, k, n)
  }

  predicate Permits(calls: seq<Request>, k: nat, n: nat)
    requires k < |calls|
  {
    match calls[k]
    case NextValidId(id) => id <= n
    case Observed(id) => id < n
    case Minimum(id) => Started(calls[..k]) ==> id <= n
    case Take => TakenBy(calls, k).Some? ==> TakenBy(calls, k).value < n
  }

  lemma PermitsPrefix(calls: seq<Request>, m: nat, k: nat, n: nat)
    requires k < m <= |calls|
    ensures Permits(calls[..m], k, n) <==> Permits(calls, k, n)
  {
    assert calls[..m][..k] == calls[..k];
  }

  /** A take hands out the least safe id of the calls before it. */
  lemma TakenIsLeastSafe(calls: seq<Request>, k: nat)
    requires k < |calls| && calls[k].Take?
    ensures TakenBy(calls, k) == if Started(calls[..k]) then Some(LeastSafeId(calls[..k])) else None
  {
    FieldsEncodeLeastSafeId(calls[..k]);
  }

  /** The number the fields encode is safe, and no smaller number is. */
  lemma {:induction false} LeastSafeIdIsLeast(calls: seq<Request>, n: nat)
    ensures SafeFor(calls, LeastSafeId(calls))
    ensures SafeFor(calls, n) ==> LeastSafeId(calls) <= n
  {
    if calls != [] {
      var m := |calls| - 1;
      var earlier := calls[..m];
      LeastSafeIdIsLeast(earlier, n);
      forall k: nat | k < m
        ensures Permits(calls, k, LeastSafeId(calls))
        ensures Permits(calls, k, n) ==> Permits(earlier, k, n)
      {
        PermitsPrefix(calls, m, k, LeastSafeId(earlier));
        PermitsPrefix(calls, m, k, n);
        assert Permits(earlier, k, LeastSafeId(earlier));
        LeastSafeIdGrows(calls, m);
      }
      if calls[m].Take? {
        TakenIsLeastSafe(calls, m);
      }
      assert SafeFor(calls, n) ==> Permits(calls, m, n);
    }
  }

  // -------------------------------------------------------- floors and handshake

  /** The run in which a floor is asked for after `before`, anything follows, and an id is
      then taken. */
  function FloorRun(before: seq<Request>, floor: OrderId, after: seq<Request>): seq<Request> {
    before + [Minimum(floor)] + after + [Take]
  }

  /** The id taken at the end, if there is one, clears the floor. */
  predicate Clears(before: seq<Request>, floor: OrderId, after: seq<Request>) {
    var calls := FloorRun(before, floor, after);
    TakenBy(calls, |calls| - 1).Some? ==> floor <= TakenBy(calls, |calls| - 1).value
  }

  /** The id taken at the end of a floor run. */
  lemma TakenAfterFloor(before: seq<Request>, floor: OrderId, after: seq<Request>)
    ensures var calls, earlier := FloorRun(before, floor, after), before + [Minimum(floor)] + after;
            && TakenBy(calls, |calls| - 1) == (if Started(earlier) then Some(LeastSafeId(earlier)) else None)
            && LeastSafeId(before + [Minimum(floor)]) <= LeastSafeId(earlier)
            && LeastSafeId(before + [Minimum(floor)]) == SafeAfter(Started(before), LeastSafeId(before), Minimum(floor))
  {
    var calls, asked := FloorRun(before, floor, after), before + [Minimum(floor)];
    var earlier := asked + after;
    assert calls[..|calls| - 1] == earlier;
    TakenIsLeastSafe(calls, |calls| - 1);
    assert earlier[..|asked|] == asked;
    LeastSafeIdGrows(earlier, |asked|);
    assert asked[..|before|] == before;
  }

  /** With no handshake yet and a floor above the least safe id, the next handshake that
      offers little loses it. */
  lemma LowOfferLosesFloor(before: seq<Request>, floor: OrderId)
    requires !Started(before) && LeastSafeId(before) < floor
    ensures !Clears(before, floor, [NextValidId(0)])
  {
    var asked, after := before + [Minimum(floor)], [NextValidId(0)];
    TakenAfterFloor(before, floor, after);
    assert (asked + after)[..|asked|] == asked;
    StartedGrows(asked, NextValidId(0));
  }

  /** The exact condition: whatever calls follow, every id taken clears a floor if and only if
      the handshake had come when the floor was asked for, or the floor was not above the
      least safe id anyway. */
  lemma FloorHoldsIff(before: seq<Request>, floor: OrderId)
    ensures (forall after :: Clears(before, floor, after)) <==> Started(before) || floor <= LeastSafeId(before)
  {
    if Started(before) || floor <= LeastSafeId(before) {
      forall after ensures Clears(before, floor, after) {
        TakenAfterFloor(before, floor, after);
      }
    } else {
      LowOfferLosesFloor(before, floor);
    }
  }

  /** The same condition on the allocator's own fields, as a caller can check it. */
  lemma FloorHoldsIffReady(before: seq<Request>, floor: OrderId)
    ensures (forall after :: Clears(before, floor, after)) <==>
              PerformAll(before).initialized || floor <= Above(0, PerformAll(before).highestObserved)
  {
    FloorHoldsIff(before, floor);
    FieldsEncodeLeastSafeId(before);
  }

  /** The interleaving of a first handshake: a floor that comes just before the offer holds
      exactly when the offer clears it; coming just after, it always holds. */
  lemma FloorBeforeHandshakeIsLost(floor: OrderId, offered: OrderId)
    ensures TakenBy([Minimum(floor), NextValidId(offered), Take], 2) == Some(offered)
    ensures TakenBy([NextValidId(offered), Minimum(floor), Take], 2) == Some(Max(offered, floor))
    ensures Clears([], floor, [NextValidId(offered)]) <==> floor <= offered
    ensures 0 < floor ==> !forall after :: Clears([], floor, after)
    ensures forall after :: Clears([NextValidId(offered)], floor, after)
  {
    var wrong, right := [Minimum(floor), NextValidId(offered), Take], [NextValidId(offered), Minimum(floor), Take];
    var early, offer := [Minimum(floor)], [NextValidId(offered)];
    TakenAfterFloor([], floor, offer);
    TakenAfterFloor(offer, floor, []);
    assert FloorRun([], floor, offer) == wrong && FloorRun(offer, floor, []) == right;
    assert early[..0] == [] && offer[..0] == [] && wrong[..2][..1] == early && right[..2][..1] == offer;
    assert [] + early + offer == wrong[..2] && offer + early + [] == right[..2];
    StartedGrows(early, offer[0]);
    StartedGrows([], offer[0]);
    StartedGrows(offer, early[0]);
    assert early + [offer[0]] == wrong[..2] && [] + [offer[0]] == offer && offer + [early[0]] == right[..2];
    FloorHoldsIff([], floor);
    FloorHoldsIff(offer, floor);
  }

  /** The allocator as the program holds it. The lock makes each call atomic. */
  class IBOrderIdAllocator {
    var initialized: bool
    var nextOrderId: Option<OrderId>
    var highestAllocatedOrderId: Option<OrderId>
    var highestObservedOrderId: Option<OrderId>

    function State(): Allocator
      reads this
    {
      Allocator(initialized, nextOrderId, highestAllocatedOrderId, highestObservedOrderId)
    }

    constructor ()
      ensures State() == FRESH
    {
      initialized, nextOrderId := false, None;
      highestAllocatedOrderId, highestObservedOrderId := None, None;
    }

    method InitializeFrom(nextValidId: OrderId)
      modifies this
      ensures State() == Perform(old(State()), NextValidId(nextValidId))
    {
      var candidate := nextValidId;
      if highestObservedOrderId.Some? {
        candidate := Max(candidate, highestObservedOrderId.value + 1);
      }
      if nextOrderId.Some? {
        candidate := Max(candidate, nextOrderId.value);
      }
      if highestAllocatedOrderId.Some? {
        candidate := Max(candidate, highestAllocatedOrderId.value + 1);
      }
      nextOrderId := Some(candidate);
      initialized := true;
    }

    method TakeId() returns (id: Option<OrderId>)
      modifies this
      ensures State() == Perform(old(State()), Take)
      ensures id == if Allocate(old(State())).Some? then Some(Allocate(old(State())).value.0) else None
    {
      if !initialized || nextOrderId.None? {
        return None;
      }
      var taken := nextOrderId.value;
      highestAllocatedOrderId := Some(taken);
      nextOrderId := Some(taken + 1);
      return Some(taken);
    }

    method ObserveOrderId(id: OrderId)
      modifies this
      ensures State() == Perform(old(State()), Observed(id))
    {
      if highestObservedOrderId.None? || id > highestObservedOrderId.value {
        highestObservedOrderId := Some(id);
      }
      if initialized && nextOrderId.Some? && id >= nextOrderId.value {
        nextOrderId := Some(id + 1);
      }
    }

    method EnsureMinimumNextId(minimum: OrderId)
      modifies this
      ensures State() == Perform(old(State()), Minimum(minimum))
    {
      if nextOrderId.None? {
        return;
      }
      if minimum > nextOrderId.value {
        nextOrderId := Some(minimum);
      }
    }
  }
}
