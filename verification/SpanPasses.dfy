/** The recursive passes over the span tree, run on the spans in place. */
module SpanPasses {
  import opened Sequences
  import opened SpanTree

  ghost predicate IsTree(spans: seq<Record>, child: seq<seq<nat>>) {
    |child| == |spans| && forall k :: 0 <= k < |spans| ==> child[k] == Child(spans, k)
  }

  /** The end times after a pass that took 1000 ns off at every visit. */
  ghost predicate Shortened(before: seq<int>, after: seq<int>, visits: multiset<nat>) {
    |after| == |before| && forall j :: 0 <= j < |before| ==> after[j] == before[j] - 1000 * visits[j]
  }

  lemma KidsDepth(spans: seq<Record>, i: nat, d: nat)
    requires AtDepth(spans, i, d)
    ensures d < |spans| && AllAtDepth(spans, Child(spans, i), d + 1)
  {
    DepthBound(spans, i, d);
    forall k | 0 <= k < |Child(spans, i)| ensures AtDepth(spans, Child(spans, i)[k], d + 1) {
      DepthBelow(spans, i, d, Child(spans, i)[k]);
    }
  }

  lemma IndexBound(spans: seq<Record>, i: nat, d: nat)
    requires AtDepth(spans, i, d)
    ensures i < |spans|
  {
  }

  lemma {:induction false} ForestAppend(spans: seq<Record>, tops: seq<nat>, x: nat, d: nat)
    requires AllAtDepth(spans, tops, d) && AtDepth(spans, x, d)
    ensures AllAtDepth(spans, tops + [x], d)
    ensures Forest(spans, tops + [x], d) == Forest(spans, tops, d) + Subtree(spans, x, d)
  {
    if tops == [] {
      assert [] + [x] == [x] && [x][1..] == [];
      assert Forest(spans, [x], d) == Subtree(spans, x, d) + Forest(spans, [], d);
    } else {
      ForestAppend(spans, tops[1..], x, d);
      assert (tops + [x])[1..] == tops[1..] + [x];
      Regroup(Subtree(spans, tops[0], d), Forest(spans, tops[1..], d), Subtree(spans, x, d));
    }
  }

  lemma ShortenedTwice(a: seq<int>, b: seq<int>, c: seq<int>, v: multiset<nat>, w: multiset<nat>)
    requires Shortened(a, b, v) && Shortened(b, c, w)
    ensures Shortened(a, c, v + w)
  {
  }

  // ---------------------------------------------------------------------------
  // __convert_to_perfetto_span: the end time loses 1000 ns

  method Convert(spans: seq<Record>, child: seq<seq<nat>>, ends: array<int>, i: nat, ghost d: nat)
    requires IsTree(spans, child) && ends.Length == |spans| && AtDepth(spans, i, d)
    modifies ends
    ensures Shortened(old(ends[..]), ends[..], multiset(Subtree(spans, i, d)))
    decreases |spans| - d, 0
  {
    hide AtDepth, AllAtDepth;
    KidsDepth(spans, i, d);
    IndexBound(spans, i, d);
    ghost var before := ends[..];
    ends[i] := ends[i] - 1000;
    assert Shortened(before, ends[..], multiset{i});
    var kids := child[i];
    ConvertAll(spans, child, ends, kids, d + 1);
    ShortenedTwice(before, old(ends[..])[i := before[i] - 1000], ends[..], multiset{i},
                   multiset(Forest(spans, kids, d + 1)));
  }

  /** The loop over a list of spans at one depth. */
  method ConvertAll(spans: seq<Record>, child: seq<seq<nat>>, ends: array<int>, tops: seq<nat>, ghost d: nat)
    requires IsTree(spans, child) && ends.Length == |spans| && AllAtDepth(spans, tops, d)
    modifies ends
    ensures Shortened(old(ends[..]), ends[..], multiset(Forest(spans, tops, d)))
    decreases |spans| - d, 1
  {
    hide AtDepth;
    var k := 0;
    assert Forest(spans, tops[..0], d) == [];
    while k < |tops|
      invariant 0 <= k <= |tops|
      invariant AllAtDepth(spans, tops[..k], d)
      invariant Shortened(old(ends[..]), ends[..], multiset(Forest(spans, tops[..k], d)))
    {
      ghost var between := ends[..];
      Convert(spans, child, ends, tops[k], d);
      ForestAppend(spans, tops[..k], tops[k], d);
      assert tops[..k] + [tops[k]] == tops[..k + 1];
      ShortenedTwice(old(ends[..]), between, ends[..], multiset(Forest(spans, tops[..k], d)),
                     multiset(Subtree(spans, tops[k], d)));
      k := k + 1;
    }
    assert tops[..k] == tops;
  }

  lemma LevelNext(spans: seq<Record>, nodes: seq<nat>, x: nat)
    ensures Level(spans, nodes + [x]) == Level(spans, nodes) + Child(spans, x)
  {
    assert (nodes + [x])[..|nodes|] == nodes;
  }

  lemma KidsKnown(spans: seq<Record>, child: seq<seq<nat>>, k: nat)
    requires IsTree(spans, child) && k < |spans|
    ensures |child| == |spans| && child[k] == Child(spans, k) && forall b :: 0 <= b < |child[k]| ==> child[k][b] < |spans|
  {
    assert forall b :: 0 <= b < |child[k]| ==> child[k][b] in Child(spans, k);
  }

  lemma NoLevel(spans: seq<Record>)
    ensures Level(spans, []) == []
  {
  }

  /** The spans two levels below every request, request by request and thread by thread. */
  method CollectTops(spans: seq<Record>, child: seq<seq<nat>>, roots: seq<nat>) returns (tops: seq<nat>)
    requires IsTree(spans, child) && roots == Roots(spans, |spans|)
    ensures tops == Tops(spans)
  {
    hide Child, Roots, Level, IsTree;
    tops := [];
    ghost var threads := [];
    NoLevel(spans);
    var a := 0;
    while a < |roots|
      invariant 0 <= a <= |roots|
      invariant threads == Level(spans, roots[..a]) && tops == Level(spans, threads)
    {
      var root := roots[a];
      KidsKnown(spans, child, root);
      tops := CollectRoot(spans, child, child[root], threads, tops);
      LevelNext(spans, roots[..a], root);
      assert roots[..a] + [root] == roots[..a + 1];
      threads := threads + child[root];
      a := a + 1;
    }
    assert roots[..a] == roots;
  }

  method CollectRoot(spans: seq<Record>, child: seq<seq<nat>>, own: seq<nat>, ghost threads: seq<nat>, tops: seq<nat>)
    returns (tops': seq<nat>)
    requires IsTree(spans, child) && (forall b :: 0 <= b < |own| ==> own[b] < |spans|)
    requires tops == Level(spans, threads)
    ensures tops' == Level(spans, threads + own)
  {
    tops' := tops;
    var b := 0;
    assert threads + own[..0] == threads;
    while b < |own|
      invariant 0 <= b <= |own|
      invariant tops' == Level(spans, threads + own[..b])
    {
      LevelNext(spans, threads + own[..b], own[b]);
      assert threads + own[..b] + [own[b]] == threads + own[..b + 1];
      tops' := tops' + child[own[b]];
      b := b + 1;
    }
    assert own[..b] == own;
  }

  /** generate_perfetto_span: every drawn span loses 1000 ns once, no other span changes. */
  method Generate(spans: seq<Record>, child: seq<seq<nat>>, roots: seq<nat>, ends: array<int>) returns (tops: seq<nat>)
    requires IsTree(spans, child) && roots == Roots(spans, |spans|) && ends.Length == |spans|
    modifies ends
    ensures tops == Tops(spans)
    ensures forall j :: 0 <= j < |spans| ==> ends[j] == old(ends[j]) - if Drawn(spans, j) then 1000 else 0
  {
    hide Tops, Forest, Drawn, AllAtDepth;
    tops := CollectTops(spans, child, roots);
    TopsAreDepthTwo(spans);
    ConvertAll(spans, child, ends, tops, 2);
    forall j | 0 <= j < |spans| ensures ends[j] == old(ends[j]) - if Drawn(spans, j) then 1000 else 0 {
      EveryDrawnSpanOnce(spans, j);
      assert ends[..][j] == old(ends[..])[j] - 1000 * multiset(Forest(spans, tops, 2))[j];
    }
  }

  // ---------------------------------------------------------------------------
  // __set_span_tid: a span's line goes to everything below it

  method SetTid(spans: seq<Record>, child: seq<seq<nat>>, tids: array<nat>, i: nat, line: nat, ghost d: nat)
    requires IsTree(spans, child) && tids.Length == |spans| && AtDepth(spans, i, d)
    modifies tids
    ensures forall j :: 0 <= j < |spans| ==> tids[j] == if Below(spans, j, i) then line else old(tids[j])
    decreases |spans| - d
  {
    KidsDepth(spans, i, d);
    tids[i] := line;
    var kids := child[i];
    var k := 0;
    while k < |kids|
      invariant 0 <= k <= |kids|
      invariant forall j :: 0 <= j < |spans| ==>
                  tids[j] == if j == i || Covered(spans, kids[..k], j) then line else old(tids[j])
    {
      assert AtDepth(spans, kids[k], d + 1);
      SetTid(spans, child, tids, kids[k], line, d + 1);
      forall j | 0 <= j < |spans|
        ensures Covered(spans, kids[..k + 1], j) <==> Covered(spans, kids[..k], j) || Below(spans, j, kids[k])
      {
        CoveredNext(spans, kids, k, j);
      }
      k := k + 1;
    }
    assert kids[..k] == kids;
    forall j | 0 <= j < |spans| ensures Below(spans, j, i) <==> j == i || Covered(spans, kids, j) {
      BelowSplits(spans, i, d, j);
    }
  }

  lemma CoveredNext(spans: seq<Record>, kids: seq<nat>, k: nat, j: nat)
    requires k < |kids|
    ensures Covered(spans, kids[..k + 1], j) <==> Covered(spans, kids[..k], j) || Below(spans, j, kids[k])
  {
    if Covered(spans, kids[..k], j) {
      var a :| 0 <= a < k && Below(spans, j, kids[..k][a]);
      assert kids[..k + 1][a] == kids[..k][a];
    }
    if Below(spans, j, kids[k]) {
      assert kids[..k + 1][k] == kids[k];
    }
    if Covered(spans, kids[..k + 1], j) {
      var a :| 0 <= a < k + 1 && Below(spans, j, kids[..k + 1][a]);
      assert a < k ==> kids[..k][a] == kids[..k + 1][a];
    }
  }

  // ---------------------------------------------------------------------------
  // __gather_one_span: what is written out

  method Gather(spans: seq<Record>, child: seq<seq<nat>>, i: nat, ghost d: nat) returns (elems: seq<nat>)
    requires IsTree(spans, child) && AtDepth(spans, i, d)
    ensures elems == Subtree(spans, i, d)
    decreases |spans| - d
  {
    hide AtDepth;
    KidsDepth(spans, i, d);
    IndexBound(spans, i, d);
    elems := [i];
    var kids := child[i];
    var k := 0;
    while k < |kids|
      invariant 0 <= k <= |kids|
      invariant AllAtDepth(spans, kids[..k], d + 1)
      invariant elems == [i] + Forest(spans, kids[..k], d + 1)
    {
      assert AtDepth(spans, kids[k], d + 1);
      var below := Gather(spans, child, kids[k], d + 1);
      ForestAppend(spans, kids[..k], kids[k], d + 1);
      assert kids[..k] + [kids[k]] == kids[..k + 1];
      elems := elems + below;
      k := k + 1;
    }
    assert kids[..k] == kids;
  }

  lemma SameBagDistinct(a: seq<nat>, b: seq<nat>)
    requires Distinct(a) && multiset(a) == multiset(b)
    ensures Distinct(b)
  {
    forall i, j | 0 <= i < j < |b| ensures b[i] != b[j] {
      assert b == b[..j] + [b[j]] + b[j + 1..];
      assert b[i] in b[..j];
      assert multiset(b)[b[j]] == multiset(b[..j])[b[j]] + 1 + multiset(b[j + 1..])[b[j]];
      OnceInDistinct(a, b[j]);
    }
  }

  lemma OnceInDistinct(a: seq<nat>, x: nat)
    requires Distinct(a)
    ensures multiset(a)[x] <= 1
  {
    if i: nat :| i < |a| && a[i] == x {
      assert a == a[..i] + [x] + a[i + 1..];
      assert x !in a[..i] && x !in a[i + 1..];
    } else {
      assert x !in a;
    }
  }

  /** Whatever order the layout has put the spans in: every drawn span is gathered exactly once, and nothing else. */
  method GatherAll(spans: seq<Record>, child: seq<seq<nat>>, tops: seq<nat>) returns (elems: seq<nat>)
    requires IsTree(spans, child) && multiset(tops) == multiset(Tops(spans))
    ensures forall j: nat :: multiset(elems)[j] == if Drawn(spans, j) then 1 else 0
  {
    hide IsTree, Drawn, AtDepth, Tops;
    TopsAreDepthTwo(spans);
    SameBagDistinct(Tops(spans), tops);
    SameMembers(spans, tops);
    elems := [];
    for k := 0 to |tops|
      invariant AllAtDepth(spans, tops[..k], 2) && elems == Forest(spans, tops[..k], 2)
    {
      var own := Gather(spans, child, tops[k], 2);
      ForestAppend(spans, tops[..k], tops[k], 2);
      assert tops[..k + 1] == tops[..k] + [tops[k]];
      elems := elems + own;
    }
    assert tops[..|tops|] == tops;
    forall j: nat ensures multiset(elems)[j] == if Drawn(spans, j) then 1 else 0 {
      ForestCount(spans, tops, 2, j);
      CoveredIffDrawn(spans, tops, j);
    }
  }

  lemma SameMembers(spans: seq<Record>, tops: seq<nat>)
    requires multiset(tops) == multiset(Tops(spans))
    ensures AllAtDepth(spans, tops, 2) && forall x: nat :: AtDepth(spans, x, 2) ==> x in tops
  {
    hide AtDepth, Tops;
    TopsAreDepthTwo(spans);
    assert forall x: nat :: x in tops <==> x in multiset(tops);
    assert forall x: nat :: x in Tops(spans) <==> x in multiset(Tops(spans));
  }

  lemma CoveredIffDrawn(spans: seq<Record>, tops: seq<nat>, j: nat)
    requires AllAtDepth(spans, tops, 2) && forall x: nat :: AtDepth(spans, x, 2) ==> x in tops
    ensures Covered(spans, tops, j) <==> Drawn(spans, j)
  {
    hide AtDepth;
    if Covered(spans, tops, j) {
      CoveredIsDrawn(spans, tops, j);
    }
    if Drawn(spans, j) {
      DrawnIsCovered(spans, tops, j);
    }
  }
}
