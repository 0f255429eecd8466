/** Comparison of Eagle's and the broker's open positions. Positions are dictionaries; the
    manager compares canonical forms, sorted inside each position and across positions. */
module Reconciliation {
  import opened Protocol
  import opened CanonicalOrder

  /** A key as str() and a value as repr() would print it. */
  type Item = (string, string)

  /** A dictionary's items in insertion order. */
  type Position = seq<Item>

  predicate IsDictionary(p: Position) {
    forall i, j :: 0 <= i < j < |p| ==> p[i].0 != p[j].0
  }

  // ----------------------------------------------------------- canonical form

  predicate CharLE(a: char, b: char) {
    a <= b
  }

  function StringLE(): (string, string) -> bool {
    Lex((a, b) => CharLE(a, b))
  }

  /** Items compare by key, then by value. */
  predicate ItemLE(a: Item, b: Item) {
    if a.0 == b.0 then StringLE()(a.1, b.1) else StringLE()(a.0, b.0)
  }

  function ItemOrder(): (Item, Item) -> bool {
    (a, b) => ItemLE(a, b)
  }

  function CanonicalRow(p: Position): seq<Item> {
    Sort(ItemOrder(), p)
  }

  /** _sort_positions. */
  function Canonical(positions: seq<Position>): seq<seq<Item>> {
    Sort(Lex(ItemOrder()), Map(CanonicalRow, positions))
  }

  lemma StringLEIsTotalOrder()
    ensures TotalOrder(StringLE())
  {
    LexIsTotalOrder((a: char, b: char) => CharLE(a, b));
  }

  lemma ItemLEIsTotalOrder()
    ensures TotalOrder(ItemOrder())
  {
    StringLEIsTotalOrder();
    var le := StringLE();
    forall a, b ensures ItemOrder()(a, b) || ItemOrder()(b, a) {
      assert le(a.0, b.0) || le(b.0, a.0);
      assert le(a.1, b.1) || le(b.1, a.1);
    }
    forall a, b | ItemOrder()(a, b) && ItemOrder()(b, a) ensures a == b {
      assert a.0 == b.0;
      assert a.1 == b.1;
    }
    forall a, b, c | ItemOrder()(a, b) && ItemOrder()(b, c) ensures ItemOrder()(a, c) {
      if a.0 == b.0 == c.0 {
        assert le(a.1, c.1);
      } else {
        assert le(a.0, c.0);
      }
    }
  }

  // ------------------------------------------------------------------ meaning

  function MapOf(p: Position): map<string, string> {
    if p == [] then map[] else MapOf(p[..|p| - 1])[p[|p| - 1].0 := p[|p| - 1].1]
  }

  /** A dictionary's map holds exactly its items. */
  lemma {:induction false} MapHoldsItems(p: Position)
    requires IsDictionary(p)
    ensures forall item :: item in p <==> item.0 in MapOf(p) && MapOf(p)[item.0] == item.1
  {
    if p != [] {
      var earlier, last := p[..|p| - 1], p[|p| - 1];
      MapHoldsItems(earlier);
      assert p == earlier + [last];
      assert forall item :: item in earlier ==> item.0 != last.0;
    }
  }

  lemma {:induction false} DictionaryHasNoRepeats(p: Position, item: Item)
    requires IsDictionary(p)
    ensures multiset(p)[item] == if item in p then 1 else 0
  {
    if p != [] {
      var earlier, last := p[..|p| - 1], p[|p| - 1];
      DictionaryHasNoRepeats(earlier, item);
      assert p == earlier + [last];
      assert last !in earlier;
    }
  }

  ghost predicate SameItems(p: Position, r: Position) {
    forall item :: item in p <==> item in r
  }

  lemma SameItemsIffSameMap(p: Position, r: Position)
    requires IsDictionary(p) && IsDictionary(r)
    ensures SameItems(p, r) <==> MapOf(p) == MapOf(r)
  {
    MapHoldsItems(p);
    MapHoldsItems(r);
    if SameItems(p, r) {
      forall key ensures key in MapOf(p) <==> key in MapOf(r) {
        assert key in MapOf(p) ==> (key, MapOf(p)[key]) in p;
        assert key in MapOf(r) ==> (key, MapOf(r)[key]) in r;
      }
      forall key | key in MapOf(p) ensures MapOf(p)[key] == MapOf(r)[key] {
        assert (key, MapOf(p)[key]) in r;
      }
    }
  }

  lemma SameItemsIffSameMultiset(p: Position, r: Position)
    requires IsDictionary(p) && IsDictionary(r)
    ensures SameItems(p, r) <==> multiset(p) == multiset(r)
  {
    if SameItems(p, r) {
      forall item ensures multiset(p)[item] == multiset(r)[item] {
        DictionaryHasNoRepeats(p, item);
        DictionaryHasNoRepeats(r, item);
      }
    } else {
      var item :| !(item in p <==> item in r);
      assert !(item in multiset(p) <==> item in multiset(r));
    }
  }

  /** The items of a position as a multiset: two keys that print alike stay two items. */
  function ItemsOf(p: Position): multiset<Item> {
    multiset(p)
  }

  /** Two positions have the same canonical row exactly when they print the same items,
      whatever the order of their keys. */
  lemma RowIsCanonical(p: Position, r: Position)
    ensures CanonicalRow(p) == CanonicalRow(r) <==> ItemsOf(p) == ItemsOf(r)
  {
    ItemLEIsTotalOrder();
    SortIsCanonical(ItemOrder(), p, r);
  }

  /** When no two keys of a position print alike, the same items means the same map. */
  lemma SameItemsMeansSameMap(p: Position, r: Position)
    requires IsDictionary(p) && IsDictionary(r)
    ensures ItemsOf(p) == ItemsOf(r) <==> MapOf(p) == MapOf(r)
  {
    SameItemsIffSameMap(p, r);
    SameItemsIffSameMultiset(p, r);
  }

  /** For all inputs, the canonical forms agree exactly when the two lists are the same
      multiset of item multisets: neither the order of positions nor the order of keys
      matters, and nothing else is lost. */
  lemma CanonicalIffSameItems(eagle: seq<Position>, broker: seq<Position>)
    ensures Canonical(eagle) == Canonical(broker) <==> multiset(Map(ItemsOf, eagle)) == multiset(Map(ItemsOf, broker))
  {
    ItemLEIsTotalOrder();
    LexIsTotalOrder(ItemOrder());
    SortIsCanonical(Lex(ItemOrder()), Map(CanonicalRow, eagle), Map(CanonicalRow, broker));
    forall p, r | p in eagle + broker && r in eagle + broker
      ensures CanonicalRow(p) == CanonicalRow(r) <==> ItemsOf(p) == ItemsOf(r)
    {
      RowIsCanonical(p, r);
    }
    if multiset(Map(CanonicalRow, eagle)) == multiset(Map(CanonicalRow, broker)) {
      SameKernelSameImages(CanonicalRow, ItemsOf, eagle, broker);
    }
    if multiset(Map(ItemsOf, eagle)) == multiset(Map(ItemsOf, broker)) {
      SameKernelSameImages(ItemsOf, CanonicalRow, eagle, broker);
    }
  }

  /** And when no two keys of a position print alike, exactly when they are the same
      multiset of key/value maps. */
  lemma CanonicalIffSameMaps(eagle: seq<Position>, broker: seq<Position>)
    requires forall p :: p in eagle + broker ==> IsDictionary(p)
    ensures Canonical(eagle) == Canonical(broker) <==> multiset(Map(MapOf, eagle)) == multiset(Map(MapOf, broker))
  {
    CanonicalIffSameItems(eagle, broker);
    forall p, r | p in eagle + broker && r in eagle + broker
      ensures ItemsOf(p) == ItemsOf(r) <==> MapOf(p) == MapOf(r)
    {
      SameItemsMeansSameMap(p, r);
    }
    if multiset(Map(ItemsOf, eagle)) == multiset(Map(ItemsOf, broker)) {
      SameKernelSameImages(ItemsOf, MapOf, eagle, broker);
    }
    if multiset(Map(MapOf, eagle)) == multiset(Map(MapOf, broker)) {
      SameKernelSameImages(MapOf, ItemsOf, eagle, broker);
    }
  }

  // ------------------------------------------------------------------ manager

  /** A broker position comes as a dictionary or as a position object. */
  datatype BrokerEntry =
    | Dictionary(items: Position)
    | BrokerPosition(symbol: string, side: string, quantity: string, signal: Option<string>)

  function ToDict(e: BrokerEntry): Position {
    match e
    case Dictionary(items) => items
    case BrokerPosition(symbol, side, quantity, signal) =>
      [("symbol", symbol), ("side", side), ("quantity", quantity)]
      + if signal.Some? then [("signal_id", signal.value)] else []
  }

  predicate WellFormed(e: BrokerEntry) {
    e.Dictionary? ==> IsDictionary(e.items)
  }

  datatype Status = NotChecked | Matched | Mismatched

  datatype Result = Result(status: Status, eagle: seq<Position>, broker: seq<Position>)

  lemma MapAppends<T, U>(f: T -> U, s: seq<T>, i: nat)
    requires i < |s|
    ensures Map(f, s[..i + 1]) == Map(f, s[..i]) + [f(s[i])]
  {
    assert s[..i + 1][..i] == s[..i];
  }

  class ReconciliationManager {
    var lastResult: Result

    constructor ()
      ensures lastResult == Result(NotChecked, [], [])
    {
      lastResult := Result(NotChecked, [], []);
    }

    static method NormalizeBrokerPositions(positions: seq<BrokerEntry>) returns (normalized: seq<Position>)
      ensures normalized == Map(ToDict, positions)
    {
      normalized := [];
      for i := 0 to |positions|
        invariant normalized == Map(ToDict, positions[..i])
      {
        MapAppends(ToDict, positions, i);
        normalized := normalized + [ToDict(positions[i])];
      }
      assert positions[..|positions|] == positions;
    }

    static method SortPositions(positions: seq<Position>) returns (rows: seq<seq<Item>>)
      ensures rows == Canonical(positions)
    {
      rows := [];
      for i := 0 to |positions|
        invariant rows == Map(CanonicalRow, positions[..i])
      {
        MapAppends(CanonicalRow, positions, i);
        rows := rows + [CanonicalRow(positions[i])];
      }
      assert positions[..|positions|] == positions;
      rows := Sort(Lex(ItemOrder()), rows);
    }

    /** MATCHED exactly when both sides print the same multiset of item multisets, which is
        the same multiset of maps when no two keys of a position print alike. */
    method Reconcile(eagle: seq<Position>, broker: seq<BrokerEntry>) returns (result: Result)
      modifies this
      ensures result == lastResult
      ensures result.eagle == eagle && result.broker == Map(ToDict, broker)
      ensures result.status == Matched <==> multiset(Map(ItemsOf, eagle)) == multiset(Map(ItemsOf, result.broker))
      ensures (forall p :: p in eagle ==> IsDictionary(p)) && (forall e :: e in broker ==> WellFormed(e)) ==>
                (result.status == Matched <==> multiset(Map(MapOf, eagle)) == multiset(Map(MapOf, result.broker)))
      ensures result.status != NotChecked
    {
      var normalized := NormalizeBrokerPositions(broker);
      var eagleSorted := SortPositions(eagle);
      var brokerSorted := SortPositions(normalized);
      CanonicalIffSameItems(eagle, normalized);
      MapsAgreeToo(eagle, broker, normalized);
      if eagleSorted == brokerSorted {
        result := Result(Matched, eagle, normalized);
      } else {
        result := Result(Mismatched, eagle, normalized);
      }
      lastResult := result;
    }
  }

  lemma MapsAgreeToo(eagle: seq<Position>, broker: seq<BrokerEntry>, normalized: seq<Position>)
    requires normalized == Map(ToDict, broker)
    ensures (forall p :: p in eagle ==> IsDictionary(p)) && (forall e :: e in broker ==> WellFormed(e)) ==>
              (Canonical(eagle) == Canonical(normalized) <==>
               multiset(Map(MapOf, eagle)) == multiset(Map(MapOf, normalized)))
  {
    if (forall p :: p in eagle ==> IsDictionary(p)) && (forall e :: e in broker ==> WellFormed(e)) {
      EntriesAreDictionaries(broker);
      CanonicalIffSameMaps(eagle, normalized);
    }
  }

  lemma {:induction false} EntriesAreDictionaries(entries: seq<BrokerEntry>)
    requires forall e :: e in entries ==> WellFormed(e)
    ensures forall p :: p in Map(ToDict, entries) ==> IsDictionary(p)
  {
    if entries != [] {
      EntriesAreDictionaries(entries[..|entries| - 1]);
      assert WellFormed(entries[|entries| - 1]);
    }
  }
}
