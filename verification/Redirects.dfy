/**
 The redirect resolver of benchmark/line_retrieval/gen_data.py.

 A line holds a value of its own or is the same as another line.  The generator replaces the
 value of every redirected line by that of the line its redirects end at, while it is still
 reading values, and sets aside the lines whose redirects run in a circle.
 */
module Redirects {
  import opened Sequences

  type Table = seq<Option<nat>>

  predicate ValidTable(t: Table) {
    forall i :: 0 <= i < |t| && t[i].Some? ==> t[i].value < |t|
  }

  // ---------------------------------------------------------------------------
  // Following redirects

  /** The line after k redirects from i, if there are that many. */
  function Hop(t: Table, i: nat, k: nat): (r: Option<nat>)
    requires ValidTable(t) && i < |t|
    ensures r.Some? ==> r.value < |t|
    decreases k
  {
    if k == 0 then Some(i) else if t[i].None? then None else Hop(t, t[i].value, k - 1)
  }

  /** After k redirects from i the line is one with a value of its own. */
  ghost predicate EndsAfter(t: Table, i: nat, k: nat) {
    ValidTable(t) && i < |t| && Hop(t, i, k).Some? && t[Hop(t, i, k).value].None?
  }

  ghost predicate Ends(t: Table, i: nat) {
    exists k: nat :: EndsAfter(t, i, k)
  }

  lemma {:induction false} HopAdd(t: Table, i: nat, a: nat, b: nat)
    requires ValidTable(t) && i < |t|
    ensures var x := Hop(t, i, a); Hop(t, i, a + b) == if x.None? then None else Hop(t, x.value, b)
    decreases a
  {
    if a > 0 && t[i].Some? {
      HopAdd(t, t[i].value, a - 1, b);
    }
  }

  lemma NothingAfterEnd(t: Table, i: nat, k: nat, m: nat)
    requires EndsAfter(t, i, k) && m > k
    ensures Hop(t, i, m) == None
  {
    HopAdd(t, i, k, m - k);
  }

  lemma EndUnique(t: Table, i: nat, k: nat, m: nat)
    requires EndsAfter(t, i, k) && EndsAfter(t, i, m)
    ensures k == m
  {
    if k < m {
      NothingAfterEnd(t, i, k, m);
    } else if m < k {
      NothingAfterEnd(t, i, m, k);
    }
  }

  /** Meeting a line twice means going round for ever. */
  lemma CircleNeverEnds(t: Table, i: nat, a: nat, b: nat)
    requires ValidTable(t) && i < |t| && a < b && Hop(t, i, a).Some? && Hop(t, i, a) == Hop(t, i, b)
    ensures !Ends(t, i)
  {
    if k: nat :| EndsAfter(t, i, k) {
      if k < b {
        NothingAfterEnd(t, i, k, b);
      } else {
        var x := Hop(t, i, a).value;
        HopAdd(t, i, a, k - b);
        HopAdd(t, i, b, k - b);
        EndUnique(t, i, k, k - (b - a));
      }
    }
  }

  /** c is the complete chain of redirects from i. */
  ghost predicate IsChain(t: Table, i: nat, c: seq<nat>) {
    EndsAfter(t, i, |c|) && forall k :: 0 <= k < |c| ==> Hop(t, i, k + 1) == Some(c[k])
  }

  /** The line the redirects from i end at. */
  ghost function Terminal(t: Table, i: nat): (r: nat)
    requires Ends(t, i)
    ensures r < |t| && t[r].None?
  {
    var k: nat :| EndsAfter(t, i, k);
    Hop(t, i, k).value
  }

  lemma TerminalOfChain(t: Table, i: nat, c: seq<nat>)
    requires IsChain(t, i, c)
    ensures Ends(t, i) && Terminal(t, i) == if c == [] then i else c[|c| - 1]
  {
    var k: nat :| EndsAfter(t, i, k) && Terminal(t, i) == Hop(t, i, k).value;
    EndUnique(t, i, k, |c|);
  }

  // ---------------------------------------------------------------------------
  // The code

  function Below(n: nat): (s: set<nat>)
    ensures forall i: nat :: i in s <==> i < n
  {
    if n == 0 then {} else Below(n - 1) + {n - 1}
  }

  /** One pass of the inner loop: walk from i until a line of its own or a line met before. */
  method Walk(t: Table, i: nat) returns (cur: nat, link: Option<seq<nat>>)
    requires ValidTable(t) && i < |t|
    ensures cur < |t|
    ensures link.Some? <==> Ends(t, i)
    ensures link.Some? ==> IsChain(t, i, link.value) && cur == Terminal(t, i)
  {
    var path: seq<nat> := [];
    var visited: set<nat> := {};
    cur := i;
    while t[cur].Some?
      invariant cur < |t| && cur !in visited && visited <= Below(|t|)
      invariant Hop(t, i, |path|) == Some(cur)
      invariant forall k :: 0 <= k < |path| ==> Hop(t, i, k + 1) == Some(path[k])
      invariant forall x :: x in visited <==> exists k: nat :: k < |path| && Hop(t, i, k) == Some(x)
      decreases Below(|t|) - visited
    {
      HopAdd(t, i, |path|, 1);
      ghost var before, last := visited, cur;
      visited := visited + {cur};
      assert cur in visited && cur !in before;
      path := path + [t[cur].value];
      cur := t[cur].value;
      assert Hop(t, i, |path|) == Some(cur);
      assert Hop(t, i, |path| - 1) == Some(last);
      if cur in visited {
        var k: nat :| k < |path| && Hop(t, i, k) == Some(cur);
        CircleNeverEnds(t, i, k, |path|);
        return cur, None;
      }
    }
    TerminalOfChain(t, i, path);
    link := Some(path);
  }

  /** What the pass leaves in line i: the value its redirects end at, and the chain that leads there. */
  ghost predicate Resolved(t: Table, raw: seq<string>, i: nat, value: string, link: Option<seq<nat>>)
    requires ValidTable(t) && i < |t| == |raw|
  {
    if Ends(t, i) then link.Some? && IsChain(t, i, link.value) && value == raw[Terminal(t, i)]
    else link.None?
  }

  lemma OwnValueResolved(t: Table, raw: seq<string>, i: nat)
    requires ValidTable(t) && i < |t| == |raw| && t[i].None?
    ensures Resolved(t, raw, i, raw[i], Some([]))
  {
    assert EndsAfter(t, i, 0);
    TerminalOfChain(t, i, []);
  }

  /**
   The whole pass.  Values are overwritten while later lines still read them, and yet every line
   outside `ring` ends with the original value of the line its redirects end at.
   */
  method ResolveAll(t: Table, values: array<string>) returns (links: seq<Option<seq<nat>>>, ring: set<nat>)
    requires ValidTable(t) && values.Length == |t|
    modifies values
    ensures |links| == |t|
    ensures forall i: nat :: i in ring <==> i < |t| && !Ends(t, i)
    ensures forall i :: 0 <= i < |t| ==> Resolved(t, old(values[..]), i, values[i], links[i])
  {
    ghost var raw := values[..];
    links, ring := seq(|t|, _ => Some([])), {};
    var i := 0;
    while i < |t|
      invariant 0 <= i <= |t| == |links|
      invariant forall k: nat :: k in ring <==> k < i && !Ends(t, k)
      invariant forall k :: 0 <= k < i ==> Resolved(t, raw, k, values[k], links[k])
      invariant forall k :: i <= k < |t| ==> values[k] == raw[k] && links[k] == Some([])
      invariant forall k :: 0 <= k < |t| && t[k].None? ==> values[k] == raw[k]
    {
      if t[i].None? {
        OwnValueResolved(t, raw, i);
      } else {
        var cur, link := Walk(t, i);
        if link.None? {
          ring := ring + {i};
        }
        values[i] := values[cur];
        links := links[i := link];
      }
      i := i + 1;
    }
  }

  /** group_by_num_hoops[hoops]: the lines outside `ring` with hoops - 1 redirects, in order. */
  method Group(links: seq<Option<seq<nat>>>, ring: set<nat>, hoops: nat) returns (group: seq<nat>)
    requires forall i :: 0 <= i < |links| && i !in ring ==> links[i].Some?
    ensures forall q :: q in group ==> q < |links| && q !in ring && |links[q].value| + 1 == hoops
    ensures forall q: nat :: q < |links| && q !in ring && |links[q].value| + 1 == hoops ==> q in group
    ensures forall a, b :: 0 <= a < b < |group| ==> group[a] < group[b]
  {
    group := [];
    var i := 0;
    while i < |links|
      invariant 0 <= i <= |links|
      invariant forall q :: q in group ==> q < i && q !in ring && |links[q].value| + 1 == hoops
      invariant forall q: nat :: q < i && q !in ring && |links[q].value| + 1 == hoops ==> q in group
      invariant forall a, b :: 0 <= a < b < |group| ==> group[a] < group[b]
    {
      if i !in ring && |links[i].value| + 1 == hoops {
        assert forall a :: 0 <= a < |group| ==> group[a] in group;
        group := group + [i];
      }
      i := i + 1;
    }
  }
}
