/** Sums and threshold counts over per-client tables. */
module Sums {

  function Sum(s: seq<int>): int {
    if s == [] then 0 else s[0] + Sum(s[1..])
  }

  function Flag(b: bool): int {
    if b then 1 else 0
  }

  /** 1 for every entry of s above r, 0 for the others. */
  function Marks(s: seq<nat>, r: nat): (m: seq<int>)
    ensures |m| == |s|
  {
    seq(|s|, i requires 0 <= i < |s| => if s[i] > r then 1 else 0)
  }

  /** How many entries of s are above r. */
  function CountAbove(s: seq<nat>, r: nat): int {
    Sum(Marks(s, r))
  }

  lemma {:induction false} SumUpdate(s: seq<int>, i: nat, v: int)
    requires i < |s|
    ensures Sum(s[i := v]) == Sum(s) - s[i] + v
  {
    if i == 0 {
      assert s[i := v][1..] == s[1..];
    } else {
      SumUpdate(s[1..], i - 1, v);
      assert s[i := v][1..] == s[1..][i - 1 := v];
    }
  }

  /** Sums are monotone, and equal sums of ordered tables mean equal tables. */
  lemma {:induction false} SumOrder(a: seq<int>, b: seq<int>)
    requires |a| == |b|
    requires forall i :: 0 <= i < |a| ==> a[i] <= b[i]
    ensures Sum(a) <= Sum(b)
    ensures Sum(a) == Sum(b) ==> a == b
  {
    if a != [] {
      SumOrder(a[1..], b[1..]);
      assert a == [a[0]] + a[1..] && b == [b[0]] + b[1..];
    }
  }

  lemma {:induction false} SumAdd(a: seq<int>, b: seq<int>, c: seq<int>)
    requires |a| == |b| == |c|
    requires forall i :: 0 <= i < |a| ==> a[i] + b[i] == c[i]
    ensures Sum(a) + Sum(b) == Sum(c)
  {
    if a != [] {
      SumAdd(a[1..], b[1..], c[1..]);
    }
  }

  lemma {:induction false} SumZero(s: seq<int>)
    requires forall i :: 0 <= i < |s| ==> s[i] == 0
    ensures Sum(s) == 0
  {
    if s != [] {
      SumZero(s[1..]);
    }
  }

  /** No entry of a table without negative entries exceeds the sum. */
  lemma {:induction false} SumMember(s: seq<int>, i: nat)
    requires i < |s| && forall j :: 0 <= j < |s| ==> s[j] >= 0
    ensures Sum(s) >= s[i]
  {
    SumNonNegative(s[1..]);
    if i > 0 {
      SumMember(s[1..], i - 1);
    }
  }

  lemma {:induction false} SumNonNegative(s: seq<int>)
    requires forall j :: 0 <= j < |s| ==> s[j] >= 0
    ensures Sum(s) >= 0
  {
    if s != [] {
      SumNonNegative(s[1..]);
    }
  }

  /** A smaller sum has a smaller entry somewhere. */
  lemma {:induction false} SumGap(a: seq<int>, b: seq<int>) returns (i: nat)
    requires |a| == |b| && Sum(a) < Sum(b)
    ensures i < |a| && a[i] < b[i]
  {
    if a[0] < b[0] {
      i := 0;
    } else {
      i := SumGap(a[1..], b[1..]);
      i := i + 1;
    }
  }

  lemma {:induction false} SumOnes(s: seq<int>)
    requires forall i :: 0 <= i < |s| ==> s[i] == 1
    ensures Sum(s) == |s|
  {
    if s != [] {
      SumOnes(s[1..]);
    }
  }

  lemma {:induction false} SumAppend(a: seq<int>, b: seq<int>)
    ensures Sum(a + b) == Sum(a) + Sum(b)
  {
    if a == [] {
      assert a + b == b;
    } else {
      SumAppend(a[1..], b);
      assert (a + b)[1..] == a[1..] + b;
    }
  }

  lemma CountUpdate(s: seq<nat>, i: nat, v: nat, r: nat)
    requires i < |s|
    ensures CountAbove(s[i := v], r)
         == CountAbove(s, r) - (if s[i] > r then 1 else 0) + (if v > r then 1 else 0)
  {
    var m := if v > r then 1 else 0;
    assert Marks(s[i := v], r) == Marks(s, r)[i := m];
    SumUpdate(Marks(s, r), i, m);
  }

  lemma CountNone(s: seq<nat>, r: nat)
    requires forall i :: 0 <= i < |s| ==> s[i] <= r
    ensures CountAbove(s, r) == 0
  {
    SumZero(Marks(s, r));
  }

  /** When a is below b entry by entry, equal counts mean the same entries are above r. */
  lemma CountOrder(a: seq<nat>, b: seq<nat>, r: nat)
    requires |a| == |b|
    requires forall i :: 0 <= i < |a| ==> a[i] <= b[i]
    ensures CountAbove(a, r) <= CountAbove(b, r)
    ensures CountAbove(a, r) == CountAbove(b, r) ==> forall i :: 0 <= i < |a| ==> (a[i] > r <==> b[i] > r)
  {
    SumOrder(Marks(a, r), Marks(b, r));
    if CountAbove(a, r) == CountAbove(b, r) {
      forall i | 0 <= i < |a| ensures a[i] > r <==> b[i] > r {
        assert Marks(a, r)[i] == Marks(b, r)[i];
      }
    }
  }

  /** clients_per_round for rounds 0..m-1. */
  function PerRound(totals: seq<nat>, m: nat): (p: seq<int>)
    ensures |p| == m
  {
    seq(m, r requires 0 <= r < m => CountAbove(totals, r))
  }

  /** Counting the (client, round) pairs by client or by round gives the same number. */
  lemma {:induction false} DoubleCount(totals: seq<nat>, m: nat)
    requires forall i :: 0 <= i < |totals| ==> totals[i] <= m
    ensures Sum(PerRound(totals, m)) == Sum(totals)
  {
    if totals == [] {
      SumZero(PerRound(totals, m));
    } else {
      var t, rest := totals[0], totals[1..];
      DoubleCount(rest, m);
      var ones := seq(m, r requires 0 <= r < m => if t > r then 1 else 0);
      forall r | 0 <= r < m ensures ones[r] + PerRound(rest, m)[r] == PerRound(totals, m)[r] {
        assert Marks(totals, r)[1..] == Marks(rest, r);
      }
      SumAdd(ones, PerRound(rest, m), PerRound(totals, m));
      StepSum(t, m);
      assert ones == seq(m, r requires 0 <= r < m => if t > r then 1 else 0);
    }
  }

  lemma {:induction false} StepSum(t: nat, m: nat)
    requires t <= m
    ensures Sum(seq(m, r requires 0 <= r < m => if t > r then 1 else 0)) == t
  {
    var ones := seq(m, r requires 0 <= r < m => if t > r then 1 else 0);
    if m == 0 {
    } else if t == m {
      var s := seq(m - 1, r requires 0 <= r < m - 1 => if t - 1 > r then 1 else 0);
      StepSum(t - 1, m - 1);
      assert ones == s + [1];
      SumAppend(s, [1]);
    } else {
      var s := seq(m - 1, r requires 0 <= r < m - 1 => if t > r then 1 else 0);
      StepSum(t, m - 1);
      assert ones == s + [0];
      SumAppend(s, [0]);
    }
  }
}
