/** Shared vocabulary of the models. */
module Prelude {
  datatype Option<+T> = None | Some(value: T)

  /** Number.MAX_SAFE_INTEGER. */
  const MAX_SAFE_INTEGER: int := 9007199254740991

  function Max(a: real, b: real): real { if a > b then a else b }
  function Min(a: real, b: real): real { if a < b then a else b }

  /** Array.prototype.filter: the members satisfying p, in order. */
  function Filter<T(!new)>(p: T -> bool, s: seq<T>): (r: seq<T>)
    ensures forall x :: x in r <==> x in s && p(x)
    ensures |r| <= |s|
  {
    if s == [] then []
    else if p(s[0]) then [s[0]] + Filter(p, s[1..])
    else Filter(p, s[1..])
  }

  lemma MemberOrEmpty<T(!new)>(s: seq<T>)
    ensures s == [] || exists x :: x in s
  {
    if s != [] { assert s[0] in s; }
  }

  /** A stable sort by "satisfies last": the others keep their order, and so do those moved behind them. */
  function MoveToEnd<T(!new)>(last: T -> bool, s: seq<T>): seq<T> {
    Filter((x: T) => !last(x), s) + Filter(last, s)
  }

  lemma {:induction false} FilterCount<T(!new)>(p: T -> bool, s: seq<T>, x: T)
    ensures multiset(Filter(p, s))[x] == if p(x) then multiset(s)[x] else 0
    decreases |s|
  {
    if s != [] {
      FilterCount(p, s[1..], x);
      assert s == [s[0]] + s[1..];
    }
  }

  lemma {:induction false} FilterConcat<T(!new)>(p: T -> bool, a: seq<T>, b: seq<T>)
    ensures Filter(p, a + b) == Filter(p, a) + Filter(p, b)
    decreases |a|
  {
    if a == [] {
      assert a + b == b;
    } else {
      assert (a + b)[1..] == a[1..] + b;
      FilterConcat(p, a[1..], b);
    }
  }

  /** Filtering keeps the members in their order: each step of s adds its member at the end or nothing. */
  lemma FilterSnoc<T(!new)>(p: T -> bool, s: seq<T>, x: T)
    ensures Filter(p, s + [x]) == Filter(p, s) + if p(x) then [x] else []
  {
    FilterConcat(p, s, [x]);
    assert [x][1..] == [];
  }

  /** Moving to the end is stable: the members moved, and those left, keep their order. */
  lemma MoveToEndIsStable<T(!new)>(last: T -> bool, s: seq<T>)
    ensures Filter(last, MoveToEnd(last, s)) == Filter(last, s)
    ensures Filter((x: T) => !last(x), MoveToEnd(last, s)) == Filter((x: T) => !last(x), s)
  {
    var others := (x: T) => !last(x);
    FilterConcat(last, Filter(others, s), Filter(last, s));
    FilterConcat(others, Filter(others, s), Filter(last, s));
    FilterTwice(last, s);
    FilterTwice(others, s);
    FilterOpposite(last, others, s);
    FilterOpposite(others, last, s);
  }

  lemma {:induction false} FilterTwice<T(!new)>(p: T -> bool, s: seq<T>)
    ensures Filter(p, Filter(p, s)) == Filter(p, s)
    decreases |s|
  {
    if s != [] {
      FilterTwice(p, s[1..]);
      if p(s[0]) { assert Filter(p, s)[1..] == Filter(p, s[1..]); }
    }
  }

  lemma FilterOpposite<T(!new)>(p: T -> bool, q: T -> bool, s: seq<T>)
    requires forall x :: p(x) ==> !q(x)
    ensures Filter(p, Filter(q, s)) == []
  {
    MemberOrEmpty(Filter(p, Filter(q, s)));
  }

  /** Moving to the end loses and invents nothing, and nothing moved precedes anything left in place. */
  lemma MoveToEndSorts<T(!new)>(last: T -> bool, s: seq<T>)
    ensures multiset(MoveToEnd(last, s)) == multiset(s)
    ensures forall i, j :: 0 <= i < j < |MoveToEnd(last, s)| && last(MoveToEnd(last, s)[i]) ==>
              last(MoveToEnd(last, s)[j])
  {
    var first := Filter((x: T) => !last(x), s);
    forall x ensures multiset(MoveToEnd(last, s))[x] == multiset(s)[x] {
      FilterCount((y: T) => !last(y), s, x);
      FilterCount(last, s, x);
    }
    forall k | 0 <= k < |first| ensures !last(MoveToEnd(last, s)[k]) {
      assert first[k] in first;
    }
    forall k | |first| <= k < |MoveToEnd(last, s)| ensures last(MoveToEnd(last, s)[k]) {
      assert Filter(last, s)[k - |first|] in Filter(last, s);
    }
  }
}
