/** Total orders, lexicographic comparison of sequences, and sorting as a canonical form:
    two sequences sort alike exactly when they hold the same elements equally often. */
module CanonicalOrder {
  ghost predicate TotalOrder<T(!new)>(le: (T, T) -> bool) {
    && (forall a, b :: le(a, b) || le(b, a))
    && (forall a, b :: le(a, b) && le(b, a) ==> a == b)
    && (forall a, b, c :: le(a, b) && le(b, c) ==> le(a, c))
  }

  // ------------------------------------------------------------ lexicographic

  /** Tuple and string comparison: the first difference decides, a prefix comes first. */
  predicate LexLE<T(==)>(le: (T, T) -> bool, a: seq<T>, b: seq<T>) {
    if a == [] then true
    else if b == [] then false
    else if a[0] == b[0] then LexLE(le, a[1..], b[1..])
    else le(a[0], b[0])
  }

  function Lex<T(==)>(le: (T, T) -> bool): (seq<T>, seq<T>) -> bool {
    (a, b) => LexLE(le, a, b)
  }

  lemma {:induction false} LexTotal<T(!new)>(le: (T, T) -> bool, a: seq<T>, b: seq<T>)
    requires TotalOrder(le)
    ensures LexLE(le, a, b) || LexLE(le, b, a)
  {
    if a != [] && b != [] {
      LexTotal(le, a[1..], b[1..]);
    }
  }

  lemma {:induction false} LexAntisymmetric<T(!new)>(le: (T, T) -> bool, a: seq<T>, b: seq<T>)
    requires TotalOrder(le) && LexLE(le, a, b) && LexLE(le, b, a)
    ensures a == b
  {
    if a != [] && b != [] {
      assert a[0] == b[0];
      LexAntisymmetric(le, a[1..], b[1..]);
      assert a == [a[0]] + a[1..] && b == [b[0]] + b[1..];
    }
  }

  lemma {:induction false} LexTransitive<T(!new)>(le: (T, T) -> bool, a: seq<T>, b: seq<T>, c: seq<T>)
    requires TotalOrder(le) && LexLE(le, a, b) && LexLE(le, b, c)
    ensures LexLE(le, a, c)
  {
    if a != [] && b != [] && c != [] {
      if a[0] == b[0] && b[0] == c[0] {
        LexTransitive(le, a[1..], b[1..], c[1..]);
      } else {
        assert le(a[0], c[0]);
      }
    }
  }

  lemma LexIsTotalOrder<T(!new)>(le: (T, T) -> bool)
    requires TotalOrder(le)
    ensures TotalOrder(Lex(le))
  {
    var lex := Lex(le);
    forall a, b ensures lex(a, b) || lex(b, a) {
      LexTotal(le, a, b);
    }
    forall a, b | lex(a, b) && lex(b, a) ensures a == b {
      LexAntisymmetric(le, a, b);
    }
    forall a, b, c | lex(a, b) && lex(b, c) ensures lex(a, c) {
      LexTransitive(le, a, b, c);
    }
  }

  // ------------------------------------------------------------------ sorting

  function Insert<T>(le: (T, T) -> bool, x: T, s: seq<T>): seq<T> {
    if s == [] || le(x, s[0]) then [x] + s else [s[0]] + Insert(le, x, s[1..])
  }

  function Sort<T>(le: (T, T) -> bool, s: seq<T>): seq<T> {
    if s == [] then [] else Insert(le, s[0], Sort(le, s[1..]))
  }

  ghost predicate Sorted<T>(le: (T, T) -> bool, s: seq<T>) {
    forall i, j :: 0 <= i < j < |s| ==> le(s[i], s[j])
  }

  lemma {:induction false} InsertAdds<T(!new)>(le: (T, T) -> bool, x: T, s: seq<T>)
    ensures multiset(Insert(le, x, s)) == multiset(s) + multiset{x}
  {
    if s != [] && !le(x, s[0]) {
      InsertAdds(le, x, s[1..]);
      assert s == [s[0]] + s[1..];
    }
  }

  lemma SortedCons<T(!new)>(le: (T, T) -> bool, x: T, s: seq<T>)
    requires Sorted(le, s) && forall y :: y in s ==> le(x, y)
    ensures Sorted(le, [x] + s)
  {
  }

  lemma {:induction false} InsertSorts<T(!new)>(le: (T, T) -> bool, x: T, s: seq<T>)
    requires TotalOrder(le) && Sorted(le, s)
    ensures Sorted(le, Insert(le, x, s))
  {
    if s == [] || le(x, s[0]) {
      forall y | y in s ensures le(x, y) {
        var i :| 0 <= i < |s| && s[i] == y;
        assert i == 0 || le(s[0], y);
      }
      SortedCons(le, x, s);
    } else {
      var rest := Insert(le, x, s[1..]);
      InsertSorts(le, x, s[1..]);
      InsertAdds(le, x, s[1..]);
      forall y | y in rest ensures le(s[0], y) {
        assert y in multiset(rest);
      }
      SortedCons(le, s[0], rest);
    }
  }

  lemma {:induction false} SortSorts<T(!new)>(le: (T, T) -> bool, s: seq<T>)
    requires TotalOrder(le)
    ensures Sorted(le, Sort(le, s)) && multiset(Sort(le, s)) == multiset(s)
  {
    if s != [] {
      SortSorts(le, s[1..]);
      InsertSorts(le, s[0], Sort(le, s[1..]));
      InsertAdds(le, s[0], Sort(le, s[1..]));
      assert s == [s[0]] + s[1..];
    }
  }

  lemma LeastIsFirst<T(!new)>(le: (T, T) -> bool, a: seq<T>, b: seq<T>)
    requires TotalOrder(le) && Sorted(le, a) && Sorted(le, b) && multiset(a) == multiset(b) && a != []
    ensures b != [] && a[0] == b[0]
  {
    assert a[0] in multiset(b);
    assert b[0] in multiset(a);
    var i :| 0 <= i < |b| && b[i] == a[0];
    var j :| 0 <= j < |a| && a[j] == b[0];
    assert le(b[0], a[0]) && le(a[0], b[0]);
  }

  lemma SameTails<T(!new)>(a: seq<T>, b: seq<T>)
    requires a != [] && b != [] && a[0] == b[0] && multiset(a) == multiset(b)
    ensures multiset(a[1..]) == multiset(b[1..])
  {
    assert a == [a[0]] + a[1..] && b == [b[0]] + b[1..];
    assert multiset(a[1..]) == multiset(a) - multiset{a[0]};
    assert multiset(b[1..]) == multiset(b) - multiset{b[0]};
  }

  lemma {:induction false} SortedFormIsUnique<T(!new)>(le: (T, T) -> bool, a: seq<T>, b: seq<T>)
    requires TotalOrder(le) && Sorted(le, a) && Sorted(le, b) && multiset(a) == multiset(b)
    ensures a == b
  {
    if a != [] {
      LeastIsFirst(le, a, b);
      SameTails(a, b);
      SortedFormIsUnique(le, a[1..], b[1..]);
      assert a == [a[0]] + a[1..] && b == [b[0]] + b[1..];
    } else {
      assert |b| == |multiset(b)| == 0;
    }
  }

  /** Sorting forgets the order and nothing else. */
  lemma SortIsCanonical<T(!new)>(le: (T, T) -> bool, a: seq<T>, b: seq<T>)
    requires TotalOrder(le)
    ensures Sort(le, a) == Sort(le, b) <==> multiset(a) == multiset(b)
  {
    SortSorts(le, a);
    SortSorts(le, b);
    if multiset(a) == multiset(b) {
      SortedFormIsUnique(le, Sort(le, a), Sort(le, b));
    }
  }

  // ----------------------------------------------------- images of sequences

  function Map<T, U>(f: T -> U, s: seq<T>): seq<U> {
    if s == [] then [] else Map(f, s[..|s| - 1]) + [f(s[|s| - 1])]
  }

  lemma {:induction false} ImagesCountAlike<T(!new), U(!new), V(!new)>(f: T -> U, g: T -> V, s: seq<T>, x: T)
    requires forall y :: y in s ==> (f(y) == f(x) <==> g(y) == g(x))
    ensures multiset(Map(f, s))[f(x)] == multiset(Map(g, s))[g(x)]
  {
    if s != [] {
      var n := |s| - 1;
      ImagesCountAlike(f, g, s[..n], x);
    }
  }

  lemma {:induction false} ImagesComeFromElements<T(!new), U(!new)>(f: T -> U, s: seq<T>, u: U)
    ensures u in multiset(Map(f, s)) <==> exists x :: x in s && f(x) == u
  {
    if s != [] {
      var n := |s| - 1;
      ImagesComeFromElements(f, s[..n], u);
      assert s == s[..n] + [s[n]];
      assert multiset(Map(f, s)) == multiset(Map(f, s[..n])) + multiset{f(s[n])};
    }
  }

  /** Two ways of describing elements that tell the same ones apart agree on whether two
      sequences have the same image. */
  lemma SameKernelSameImages<T(!new), U(!new), V(!new)>(f: T -> U, g: T -> V, a: seq<T>, b: seq<T>)
    requires forall x, y :: x in a + b && y in a + b ==> (f(x) == f(y) <==> g(x) == g(y))
    requires multiset(Map(f, a)) == multiset(Map(f, b))
    ensures multiset(Map(g, a)) == multiset(Map(g, b))
  {
    forall v | v in multiset(Map(g, a)) || v in multiset(Map(g, b))
      ensures multiset(Map(g, a))[v] == multiset(Map(g, b))[v]
    {
      ImagesComeFromElements(g, a, v);
      ImagesComeFromElements(g, b, v);
      var x :| x in a + b && g(x) == v;
      ImagesCountAlike(f, g, a, x);
      ImagesCountAlike(f, g, b, x);
    }
  }
}
