/** Python's sorted(set(...)): the strictly increasing listing of a finite set. */
module Sorting {
  import opened Sequences

  ghost predicate StrictOrder<T(!new)>(lt: (T, T) -> bool) {
    && (forall a :: !lt(a, a))
    && (forall a, b :: a == b || lt(a, b) || lt(b, a))
    && (forall a, b, c :: lt(a, b) && lt(b, c) ==> lt(a, c))
  }

  ghost predicate Sorted<T>(lt: (T, T) -> bool, s: seq<T>) {
    forall i, j :: 0 <= i < j < |s| ==> lt(s[i], s[j])
  }

  function Insert<T(==)>(lt: (T, T) -> bool, s: seq<T>, x: T): seq<T> {
    if s == [] || lt(x, s[0]) then [x] + s
    else if s[0] == x then s
    else [s[0]] + Insert(lt, s[1..], x)
  }

  lemma ElementsOfPrepended<T>(x: T, s: seq<T>)
    ensures Elements([x] + s) == {x} + Elements(s)
  {
  }

  lemma {:induction false} InsertIsSorted<T(!new)>(lt: (T, T) -> bool, s: seq<T>, x: T)
    requires StrictOrder(lt) && Sorted(lt, s)
    ensures Sorted(lt, Insert(lt, s, x))
    ensures Elements(Insert(lt, s, x)) == Elements(s) + {x}
  {
    if s != [] && !lt(x, s[0]) && s[0] != x {
      var rest := s[1..];
      InsertIsSorted(lt, rest, x);
      assert s == [s[0]] + rest;
      var r := Insert(lt, rest, x);
      forall j | 0 <= j < |r| ensures lt(s[0], r[j]) {
        assert r[j] in Elements(r);
      }
      ElementsOfPrepended(s[0], r);
      ElementsOfPrepended(s[0], rest);
    } else {
      ElementsOfPrepended(x, s);
    }
  }

  /** The sorted listing of a set is unique. */
  lemma {:induction false} SortedIsUnique<T(!new)>(lt: (T, T) -> bool, a: seq<T>, b: seq<T>)
    requires StrictOrder(lt) && Sorted(lt, a) && Sorted(lt, b) && Elements(a) == Elements(b)
    ensures a == b
  {
    NoElements(a);
    NoElements(b);
    if a != [] {
      assert a[0] in Elements(a);
      assert b[0] in Elements(b) && a[0] in b && b[0] in a;
      assert a[0] == b[0];
      HeadIsNew(lt, a);
      HeadIsNew(lt, b);
      SortedIsUnique(lt, a[1..], b[1..]);
    }
  }

  lemma HeadIsNew<T(!new)>(lt: (T, T) -> bool, a: seq<T>)
    requires StrictOrder(lt) && Sorted(lt, a) && a != []
    ensures Elements(a[1..]) == Elements(a) - {a[0]}
  {
  }

  ghost function SortedSeq<T(!new)>(lt: (T, T) -> bool, s: set<T>): (r: seq<T>)
    requires StrictOrder(lt)
    ensures Sorted(lt, r) && Elements(r) == s
  {
    if s == {} then []
    else
      var x :| x in s;
      var r := SortedSeq(lt, s - {x});
      InsertIsSorted(lt, r, x);
      Insert(lt, r, x)
  }

  method SortSet<T(==, !new)>(lt: (T, T) -> bool, s: set<T>) returns (r: seq<T>)
    requires StrictOrder(lt)
    ensures r == SortedSeq(lt, s)
  {
    r := [];
    var rest := s;
    while rest != {}
      invariant rest <= s
      invariant Sorted(lt, r) && Elements(r) == s - rest
      decreases rest
    {
      var x :| x in rest;
      InsertIsSorted(lt, r, x);
      r := Insert(lt, r, x);
      rest := rest - {x};
    }
    SortedIsUnique(lt, r, SortedSeq(lt, s));
  }

  /** The keys of a map with distinct values, in the order of the values. */
  method SortByKey<K(==), T(==, !new)>(lt: (T, T) -> bool, values: map<K, T>) returns (keys: seq<K>)
    requires StrictOrder(lt)
    requires forall a, b :: a in values && b in values && values[a] == values[b] ==> a == b
    ensures forall k :: k in keys <==> k in values
    ensures forall i, j :: 0 <= i < j < |keys| ==> lt(values[keys[i]], values[keys[j]])
  {
    var sorted := SortSet(lt, set k | k in values :: values[k]);
    assert forall v :: v in sorted <==> v in Elements(sorted);
    keys := [];
    var i := 0;
    while i < |sorted|
      invariant 0 <= i <= |sorted| && |keys| == i
      invariant forall j :: 0 <= j < i ==> keys[j] in values && values[keys[j]] == sorted[j]
    {
      assert sorted[i] in sorted;
      var k :| k in values && values[k] == sorted[i];
      keys := keys + [k];
      i := i + 1;
    }
    forall k | k in values ensures k in keys {
      assert values[k] in sorted;
      var j :| 0 <= j < |sorted| && sorted[j] == values[k];
      assert keys[j] == k;
    }
  }

  // ----- The two orders used -----

  predicate IntLess(a: int, b: int) { a < b }

  /** Code-point order on strings. */
  predicate Below(a: string, b: string) {
    b != "" && (a == "" || a[0] < b[0] || (a[0] == b[0] && Below(a[1..], b[1..])))
  }

  lemma {:induction false} BelowTotal(a: string, b: string)
    ensures !Below(a, a)
    ensures a == b || Below(a, b) || Below(b, a)
  {
    if a != "" && b != "" {
      BelowTotal(a[1..], b[1..]);
      assert a == [a[0]] + a[1..] && b == [b[0]] + b[1..];
    } else if a != "" {
      BelowTotal(a[1..], "");
    }
  }

  lemma {:induction false} BelowTransitive(a: string, b: string, c: string)
    requires Below(a, b) && Below(b, c)
    ensures Below(a, c)
  {
    if a != "" && a[0] == b[0] && b[0] == c[0] {
      BelowTransitive(a[1..], b[1..], c[1..]);
    }
  }

  lemma BelowIsOrder()
    ensures StrictOrder(Below)
  {
    forall a, b ensures !Below(a, a) && (a == b || Below(a, b) || Below(b, a)) { BelowTotal(a, b); }
    forall a, b, c | Below(a, b) && Below(b, c) ensures Below(a, c) { BelowTransitive(a, b, c); }
  }
}
