/** Optional values, standing in for None, null columns and missing keys. */
module Options {
  datatype Option<+T> = None | Some(value: T) {
    function GetOr(default: T): T {
      match this
      case Some(v) => v
      case None => default
    }
  }
}

/** Small facts about finite sequences that several components share. */
module Sequences {

  ghost predicate Increasing(s: seq<int>) {
    forall i, j :: 0 <= i < j < |s| ==> s[i] < s[j]
  }

  function Elements<T>(s: seq<T>): set<T> {
    set x | x in s
  }

  lemma NoElements<T>(s: seq<T>)
    ensures Elements(s) == {} <==> s == []
  {
    if s != [] { assert s[0] in Elements(s); }
  }

  /** Appending numbers that all lie above the old ones keeps a sequence increasing. */
  lemma IncreasingAppend(a: seq<int>, b: seq<int>)
    requires Increasing(a) && Increasing(b)
    requires forall x, y :: x in a && y in b ==> x < y
    ensures Increasing(a + b)
  {
    forall i, j | 0 <= i < j < |a + b| ensures (a + b)[i] < (a + b)[j] {
      if i < |a| && |a| <= j {
        assert a[i] in a && b[j - |a|] in b;
      }
    }
  }

  lemma IncreasingParts(a: seq<int>, b: seq<int>)
    requires Increasing(a + b)
    ensures Increasing(a) && Increasing(b)
    ensures forall x, y :: x in a && y in b ==> x < y
  {
    assert forall i :: 0 <= i < |a| ==> a[i] == (a + b)[i];
    assert forall i :: 0 <= i < |b| ==> b[i] == (a + b)[|a| + i];
  }

  /** The positions of the elements that satisfy p, in order. */
  function Where<T>(s: seq<T>, p: T -> bool): (ids: seq<nat>) {
    if |s| == 0 then []
    else
      Where(s[..|s| - 1], p) + if p(s[|s| - 1]) then [|s| - 1] else []
  }

  lemma {:induction false} WhereIsExact<T>(s: seq<T>, p: T -> bool)
    ensures forall i {:trigger i in Where(s, p)} :: i in Where(s, p) <==> 0 <= i < |s| && p(s[i])
    ensures Increasing(Where(s, p))
  {
    if |s| > 0 {
      var front := s[..|s| - 1];
      WhereIsExact(front, p);
      IncreasingAppend(Where(front, p), if p(s[|s| - 1]) then [|s| - 1] else []);
      forall i ensures i in Where(s, p) <==> 0 <= i < |s| && p(s[i]) {
        if 0 <= i < |front| { assert front[i] == s[i]; }
        assert i in Where(front, p) <==> 0 <= i < |front| && p(front[i]);
      }
    }
  }

  /** Looking at one more element extends the positions found so far. */
  lemma WhereGrows<T>(s: seq<T>, n: nat, p: T -> bool)
    requires n < |s|
    ensures Where(s[..n + 1], p) == Where(s[..n], p) + if p(s[n]) then [n] else []
  {
    assert s[..n + 1][..n] == s[..n];
  }
}
