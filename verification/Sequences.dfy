/** Small vocabulary shared by the models. */
module Sequences {

  datatype Option<+T> = None | Some(value: T)

  function RemoveAt<X>(s: seq<X>, k: nat): seq<X>
    requires k < |s|
  {
    s[..k] + s[k + 1..]
  }

  function Map<X, Y>(s: seq<X>, f: X -> Y): (t: seq<Y>)
    ensures |t| == |s| && forall i :: 0 <= i < |s| ==> t[i] == f(s[i])
  {
    seq(|s|, i requires 0 <= i < |s| => f(s[i]))
  }

  /** 0, 1, ..., n - 1. */
  function Iota(n: nat): seq<nat> {
    seq(n, i requires 0 <= i < n => i)
  }

  lemma Regroup<X>(x: seq<X>, y: seq<X>, z: seq<X>)
    ensures x + (y + z) == (x + y) + z
  {
  }

  lemma BagRemove<X>(s: seq<X>, k: nat)
    requires k < |s|
    ensures multiset(s) == multiset(RemoveAt(s, k)) + multiset{s[k]}
  {
    assert s == s[..k] + [s[k]] + s[k + 1..];
  }

  lemma BagHead<X>(s: seq<X>)
    requires s != []
    ensures multiset(s) == multiset(s[1..]) + multiset{s[0]}
  {
    assert s == [s[0]] + s[1..];
  }

  /** Taken and waiting are what there was at the start and what was made; in the same order if `fifo`. */
  predicate Balanced<X(==)>(taken: seq<X>, line: seq<X>, first: seq<X>, made: seq<X>, fifo: bool) {
    && multiset(taken) + multiset(line) == multiset(first) + multiset(made)
    && (fifo ==> taken + line == first + made)
  }

  lemma BalancedTake<X>(taken: seq<X>, line: seq<X>, line': seq<X>, first: seq<X>, made: seq<X>, fifo: bool, x: X)
    requires Balanced(taken, line, first, made, fifo)
    requires multiset(line) == multiset{x} + multiset(line') && (fifo ==> line == [x] + line')
    ensures Balanced(taken + [x], line', first, made, fifo)
  {
    Regroup(taken, [x], line');
  }

  lemma BalancedMake<X>(taken: seq<X>, line: seq<X>, first: seq<X>, made: seq<X>, fifo: bool, more: seq<X>)
    requires Balanced(taken, line, first, made, fifo)
    ensures Balanced(taken, line + more, first, made + more, fifo)
  {
    Regroup(taken, line, more);
    Regroup(first, made, more);
    var t, l, f, m, e := multiset(taken), multiset(line), multiset(first), multiset(made), multiset(more);
    assert multiset(line + more) == l + e && multiset(made + more) == m + e;
    assert t + (l + e) == (t + l) + e && f + (m + e) == (f + m) + e;
  }

  lemma BalancedFirst<X>(first: seq<X>, fifo: bool)
    ensures Balanced([], first, first, [], fifo)
  {
  }
}
