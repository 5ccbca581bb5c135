/**
 * `Array.prototype.filter`: the elements of a sequence that satisfy a
 * predicate, in their original order. Every view of the client list that
 * the source derives with `.filter(...)` is an instance of `Select`.
 */
module Filtering {

  function Select<T>(s: seq<T>, p: T -> bool): (r: seq<T>)
    ensures |r| <= |s|
    ensures forall i :: 0 <= i < |r| ==> r[i] in s && p(r[i])
    ensures forall i :: 0 <= i < |s| && p(s[i]) ==> s[i] in r
  {
    if s == [] then []
    else (if p(s[0]) then [s[0]] else []) + Select(s[1..], p)
  }

  /** Filtering distributes over concatenation: the kept elements stay in order. */
  lemma {:induction false} SelectAppend<T>(a: seq<T>, b: seq<T>, p: T -> bool)
    ensures Select(a + b, p) == Select(a, p) + Select(b, p)
  {
    if a == [] {
      assert a + b == b;
    } else {
      assert (a + b)[0] == a[0];
      assert (a + b)[1..] == a[1..] + b;
      SelectAppend(a[1..], b, p);
    }
  }

  /** Each kept element keeps its multiplicity; each dropped one has none. */
  lemma {:induction false} SelectMultiset<T>(s: seq<T>, p: T -> bool, x: T)
    ensures multiset(Select(s, p))[x] == if p(x) then multiset(s)[x] else 0
  {
    if s != [] {
      SelectMultiset(s[1..], p, x);
      assert s == [s[0]] + s[1..];
    }
  }

  /** When every element passes, nothing is dropped. */
  lemma {:induction false} SelectKeepsAll<T>(s: seq<T>, p: T -> bool)
    requires forall i :: 0 <= i < |s| ==> p(s[i])
    ensures Select(s, p) == s
  {
    if s != [] {
      SelectKeepsAll(s[1..], p);
    }
  }

  /** When no element passes, the result is empty. */
  lemma {:induction false} SelectDropsAll<T>(s: seq<T>, p: T -> bool)
    requires forall i :: 0 <= i < |s| ==> !p(s[i])
    ensures Select(s, p) == []
  {
    if s != [] {
      SelectDropsAll(s[1..], p);
    }
  }

  /** Predicates that agree pointwise select the same elements. */
  lemma {:induction false} SelectSame<T>(s: seq<T>, p: T -> bool, q: T -> bool)
    requires forall x :: p(x) == q(x)
    ensures Select(s, p) == Select(s, q)
  {
    if s != [] {
      SelectSame(s[1..], p, q);
    }
  }

  /** A weaker predicate keeps at least as many elements. */
  lemma {:induction false} SelectWeaker<T>(s: seq<T>, p: T -> bool, q: T -> bool)
    requires forall x :: p(x) ==> q(x)
    ensures |Select(s, p)| <= |Select(s, q)|
  {
    if s != [] {
      SelectWeaker(s[1..], p, q);
    }
  }

  /** Counting with a disjunction of two exclusive predicates adds the counts. */
  lemma {:induction false} SelectDisjoint<T>(s: seq<T>, p: T -> bool, q: T -> bool, r: T -> bool)
    requires forall x :: r(x) == (p(x) || q(x))
    requires forall x :: !(p(x) && q(x))
    ensures |Select(s, r)| == |Select(s, p)| + |Select(s, q)|
  {
    if s != [] {
      SelectDisjoint(s[1..], p, q, r);
    }
  }

  /** An element and its negation split the sequence. */
  lemma {:induction false} SelectComplement<T>(s: seq<T>, p: T -> bool, q: T -> bool)
    requires forall x :: q(x) == !p(x)
    ensures |Select(s, p)| + |Select(s, q)| == |s|
  {
    if s != [] {
      SelectComplement(s[1..], p, q);
    }
  }

  /** Selecting from a sequence with a given head. */
  lemma SelectCons<T>(h: T, t: seq<T>, p: T -> bool)
    ensures Select([h] + t, p) == (if p(h) then [h] else []) + Select(t, p)
  {
    assert ([h] + t)[1..] == t;
  }

  /** Two sequences with the same head and the same selection still agree once the head is dropped. */
  lemma SelectDropCommonHead<T>(t: seq<T>, u: seq<T>, p: T -> bool)
    requires t != [] && u != [] && t[0] == u[0]
    requires Select(t, p) == Select(u, p)
    ensures Select(t[1..], p) == Select(u[1..], p)
  {
    var a, b := Select(t[1..], p), Select(u[1..], p);
    if p(t[0]) {
      assert Select(t, p) == [t[0]] + a;
      assert Select(u, p) == [t[0]] + b;
      assert ([t[0]] + a)[1..] == a;
      assert ([t[0]] + b)[1..] == b;
    } else {
      assert Select(t, p) == a;
      assert Select(u, p) == b;
    }
  }
}
