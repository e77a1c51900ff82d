/**
 build_otel_span_tree and the recursive passes of scripts/convert_otel_2_perfetto.py.

 Span objects are indices into the list of engine spans.  Ids may repeat and parents may form
 cycles: nothing is assumed of the input.
 */
module SpanTree {
  import opened Sequences

  /** `isRequest`: the span's module attribute is "sglang::request".  A missing parent id is "". */
  datatype Record = Record(id: string, parent: string, isRequest: bool)

  // ---------------------------------------------------------------------------
  // Parents

  /** span_id_map[id]: the last span with that id. */
  function Lookup(spans: seq<Record>, id: string): (r: Option<nat>)
    ensures r.Some? ==> r.value < |spans| && spans[r.value].id == id
    ensures forall i :: (if r.Some? then r.value + 1 else 0) <= i < |spans| ==> spans[i].id != id
  {
    if spans == [] then None
    else if spans[|spans| - 1].id == id then Some(|spans| - 1)
    else Lookup(spans[..|spans| - 1], id)
  }

  /** Request spans are roots; any other span hangs below the span its parent id stands for, if any. */
  function Parent(spans: seq<Record>, i: nat): (r: Option<nat>)
    requires i < |spans|
    ensures r.Some? ==> r.value < |spans|
  {
    if spans[i].isRequest then None else Lookup(spans, spans[i].parent)
  }

  /** Span p is the parent of i if and only if i is no request and p is the last span with the id i names. */
  lemma ParentIff(spans: seq<Record>, i: nat, p: nat)
    requires i < |spans|
    ensures Parent(spans, i) == Some(p) <==>
            && !spans[i].isRequest && p < |spans| && spans[p].id == spans[i].parent
            && forall j :: p < j < |spans| ==> spans[j].id != spans[i].parent
  {
  }

  /** The spans below n whose parent is k, in order. */
  function Children(spans: seq<Record>, k: nat, n: nat): (c: seq<nat>)
    requires n <= |spans|
    ensures forall i: nat :: i in c <==> i < n && Parent(spans, i) == Some(k)
    ensures forall a :: 0 <= a < |c| ==> c[a] < n
    ensures forall a, b :: 0 <= a < b < |c| ==> c[a] < c[b]
  {
    if n == 0 then []
    else
      var rest := Children(spans, k, n - 1);
      if Parent(spans, n - 1) == Some(k) then rest + [n - 1] else rest
  }

  function Child(spans: seq<Record>, k: nat): (c: seq<nat>)
    ensures forall i: nat :: i in c <==> i < |spans| && Parent(spans, i) == Some(k)
    ensures forall a, b :: 0 <= a < b < |c| ==> c[a] < c[b]
  {
    Children(spans, k, |spans|)
  }

  /** d steps up from span j. */
  function Up(spans: seq<Record>, j: nat, d: nat): (r: Option<nat>)
    requires j < |spans|
    ensures r.Some? ==> r.value < |spans|
    decreases d
  {
    if d == 0 then Some(j)
    else match Parent(spans, j)
      case None => None
      case Some(p) => Up(spans, p, d - 1)
  }

  ghost predicate IsRoot(spans: seq<Record>, r: nat) {
    r < |spans| && spans[r].isRequest
  }

  /** Span i is d levels below a request span. */
  ghost predicate AtDepth(spans: seq<Record>, i: nat, d: nat) {
    i < |spans| && Up(spans, i, d).Some? && IsRoot(spans, Up(spans, i, d).value)
  }

  /** Span j is i or below it. */
  ghost predicate Below(spans: seq<Record>, j: nat, i: nat) {
    j < |spans| && exists d: nat :: Up(spans, j, d) == Some(i)
  }

  lemma {:induction false} UpAdd(spans: seq<Record>, j: nat, a: nat, b: nat)
    requires j < |spans|
    ensures var x := Up(spans, j, a);
            Up(spans, j, a + b) == if x.None? then None else Up(spans, x.value, b)
    decreases a
  {
    if a > 0 && Parent(spans, j).Some? {
      UpAdd(spans, Parent(spans, j).value, a - 1, b);
    }
  }

  predicate Distinct(s: seq<nat>) {
    forall a, b :: 0 <= a < b < |s| ==> s[a] != s[b]
  }

  // ---------------------------------------------------------------------------
  // Under a root there are no cycles

  /** Nothing is above a root. */
  lemma AboveRoot(spans: seq<Record>, r: nat, d: nat)
    requires IsRoot(spans, r) && d > 0
    ensures Up(spans, r, d) == None
  {
  }

  /** The depth of a span under a root is unique. */
  lemma DepthUnique(spans: seq<Record>, i: nat, d: nat, e: nat)
    requires AtDepth(spans, i, d) && AtDepth(spans, i, e)
    ensures d == e
  {
    if d < e {
      UpAdd(spans, i, d, e - d);
      AboveRoot(spans, Up(spans, i, d).value, e - d);
    } else if e < d {
      UpAdd(spans, i, e, d - e);
      AboveRoot(spans, Up(spans, i, e).value, d - e);
    }
  }

  /** Going up from a span under a root lowers its depth by as much. */
  lemma DepthAbove(spans: seq<Record>, i: nat, d: nat, a: nat)
    requires AtDepth(spans, i, d) && Up(spans, i, a).Some?
    ensures a <= d && AtDepth(spans, Up(spans, i, a).value, d - a)
  {
    if a <= d {
      UpAdd(spans, i, a, d - a);
    } else {
      UpAdd(spans, i, d, a - d);
      AboveRoot(spans, Up(spans, i, d).value, a - d);
    }
  }

  lemma DepthBelow(spans: seq<Record>, i: nat, d: nat, c: nat)
    requires AtDepth(spans, i, d) && c in Child(spans, i)
    ensures AtDepth(spans, c, d + 1)
  {
  }

  /** The spans from i up to its root are different spans, so fewer than all are above it. */
  lemma DepthBound(spans: seq<Record>, i: nat, d: nat)
    requires AtDepth(spans, i, d)
    ensures d < |spans|
  {
    forall a: nat | a <= d ensures Up(spans, i, a).Some? {
      UpAdd(spans, i, a, d - a);
    }
    var path := seq(d + 1, a requires 0 <= a < d + 1 => Up(spans, i, a).value);
    forall a, b | 0 <= a < b <= d ensures path[a] != path[b] {
      PathDistinct(spans, i, d, a, b);
    }
    Fits(path, |spans|);
  }

  lemma PathDistinct(spans: seq<Record>, i: nat, d: nat, a: nat, b: nat)
    requires AtDepth(spans, i, d) && a < b && Up(spans, i, a).Some? && Up(spans, i, b).Some?
    ensures Up(spans, i, a) != Up(spans, i, b)
  {
    DepthAbove(spans, i, d, a);
    DepthAbove(spans, i, d, b);
    if Up(spans, i, a) == Up(spans, i, b) {
      DepthUnique(spans, Up(spans, i, a).value, d - a, d - b);
    }
  }

  /** Different numbers below n are at most n many. */
  lemma {:induction false} Fits(s: seq<nat>, n: nat)
    requires forall k :: 0 <= k < |s| ==> s[k] < n
    requires Distinct(s)
    ensures |s| <= n
  {
    if s == [] {
    } else if k :| 0 <= k < |s| && s[k] == n - 1 {
      Fits(s[..k] + s[k + 1..], n - 1);
    } else {
      assert s[0] < n;
      Fits(s, n - 1);
    }
  }

  // ---------------------------------------------------------------------------
  // The recursive passes

  /** The spans a pass visits from span i, in order.  Under a root it always comes to an end. */
  ghost function Subtree(spans: seq<Record>, i: nat, d: nat): seq<nat>
    requires AtDepth(spans, i, d)
    decreases |spans| - d, 1, 0
  {
    DepthBound(spans, i, d);
    [i] + Forest(spans, Child(spans, i), d + 1)
  }

  ghost predicate AllAtDepth(spans: seq<Record>, tops: seq<nat>, d: nat) {
    forall k :: 0 <= k < |tops| ==> AtDepth(spans, tops[k], d)
  }

  ghost function Forest(spans: seq<Record>, tops: seq<nat>, d: nat): seq<nat>
    requires AllAtDepth(spans, tops, d)
    decreases |spans| - d, 2, |tops|
  {
    if tops == [] then []
    else
      DepthBound(spans, tops[0], d);
      Subtree(spans, tops[0], d) + Forest(spans, tops[1..], d)
  }

  ghost predicate Covered(spans: seq<Record>, tops: seq<nat>, j: nat) {
    exists k :: 0 <= k < |tops| && Below(spans, j, tops[k])
  }

  /** Two spans at the same depth are never both above a third. */
  lemma OneAncestorPerDepth(spans: seq<Record>, j: nat, a: nat, b: nat, d: nat)
    requires AtDepth(spans, a, d) && AtDepth(spans, b, d) && Below(spans, j, a) && Below(spans, j, b)
    ensures a == b
  {
    var m: nat :| Up(spans, j, m) == Some(a);
    var n: nat :| Up(spans, j, n) == Some(b);
    UpAdd(spans, j, m, d);
    UpAdd(spans, j, n, d);
    DepthUnique(spans, j, m + d, n + d);
  }

  /** What is below i is i itself or below one of its children. */
  lemma BelowSplits(spans: seq<Record>, i: nat, d: nat, j: nat)
    requires AtDepth(spans, i, d)
    ensures Below(spans, j, i) <==> j == i || Covered(spans, Child(spans, i), j)
    ensures !(j == i && Covered(spans, Child(spans, i), j))
  {
    var kids := Child(spans, i);
    if Below(spans, j, i) && j != i {
      var a: nat :| Up(spans, j, a) == Some(i);
      UpAdd(spans, j, a - 1, 1);
      var c := Up(spans, j, a - 1).value;
      assert c in kids && Below(spans, j, c);
    }
    if Covered(spans, kids, j) {
      var k :| 0 <= k < |kids| && Below(spans, j, kids[k]);
      var a: nat :| Up(spans, j, a) == Some(kids[k]);
      assert kids[k] in kids;
      assert Up(spans, kids[k], 1) == Some(i);
      UpAdd(spans, j, a, 1);
      if j == i {
        PathDistinct(spans, i, d, 0, a + 1);
      }
    }
    if j == i {
      assert Up(spans, i, 0) == Some(i);
    }
  }

  /** A pass from span i visits every span at or below i exactly once, and no other. */
  lemma {:induction false} SubtreeCount(spans: seq<Record>, i: nat, d: nat, j: nat)
    requires AtDepth(spans, i, d)
    ensures multiset(Subtree(spans, i, d))[j] == if Below(spans, j, i) then 1 else 0
    decreases |spans| - d, 1, 0
  {
    DepthBound(spans, i, d);
    BelowSplits(spans, i, d, j);
    ForestCount(spans, Child(spans, i), d + 1, j);
  }

  lemma {:induction false} ForestCount(spans: seq<Record>, tops: seq<nat>, d: nat, j: nat)
    requires AllAtDepth(spans, tops, d)
    requires Distinct(tops)
    ensures multiset(Forest(spans, tops, d))[j] == if Covered(spans, tops, j) then 1 else 0
    decreases |spans| - d, 2, |tops|
  {
    if tops != [] {
      var top, rest := tops[0], tops[1..];
      DepthBound(spans, top, d);
      SubtreeCount(spans, top, d, j);
      ForestCount(spans, rest, d, j);
      assert forall k :: 0 <= k < |rest| ==> rest[k] == tops[k + 1];
      if Below(spans, j, top) && Covered(spans, rest, j) {
        var k :| 0 <= k < |rest| && Below(spans, j, rest[k]);
        OneAncestorPerDepth(spans, j, top, rest[k], d);
      }
      CoveredSplits(spans, tops, j);
    }
  }

  lemma CoveredSplits(spans: seq<Record>, tops: seq<nat>, j: nat)
    requires tops != []
    ensures Covered(spans, tops, j) <==> Below(spans, j, tops[0]) || Covered(spans, tops[1..], j)
  {
    var rest := tops[1..];
    if Covered(spans, rest, j) {
      var k :| 0 <= k < |rest| && Below(spans, j, rest[k]);
      assert rest[k] == tops[k + 1];
    }
    if Covered(spans, tops, j) && !Below(spans, j, tops[0]) {
      var k :| 0 <= k < |tops| && Below(spans, j, tops[k]);
      assert rest[k - 1] == tops[k];
    }
  }

  // ---------------------------------------------------------------------------
  // From request spans to thread spans to the spans that are drawn

  /** The request spans below n, in order. */
  function Roots(spans: seq<Record>, n: nat): (r: seq<nat>)
    requires n <= |spans|
    ensures forall i: nat :: i in r <==> i < n && spans[i].isRequest
    ensures forall a :: 0 <= a < |r| ==> r[a] < n
    ensures forall a, b :: 0 <= a < b < |r| ==> r[a] < r[b]
  {
    if n == 0 then []
    else if spans[n - 1].isRequest then Roots(spans, n - 1) + [n - 1]
    else Roots(spans, n - 1)
  }

  /** All children of all the given spans. */
  function Level(spans: seq<Record>, nodes: seq<nat>): seq<nat> {
    if nodes == [] then [] else Level(spans, nodes[..|nodes| - 1]) + Child(spans, nodes[|nodes| - 1])
  }

  /** The spans two levels below a request span: root_span["spans"], for all requests. */
  function Tops(spans: seq<Record>): seq<nat> {
    Level(spans, Level(spans, Roots(spans, |spans|)))
  }

  lemma {:induction false} LevelMembers(spans: seq<Record>, nodes: seq<nat>, x: nat)
    ensures x in Level(spans, nodes) <==> x < |spans| && Parent(spans, x).Some? && Parent(spans, x).value in nodes
  {
    if nodes != [] {
      var most, last := nodes[..|nodes| - 1], nodes[|nodes| - 1];
      LevelMembers(spans, most, x);
      assert nodes == most + [last];
    }
  }

  lemma {:induction false} LevelDistinct(spans: seq<Record>, nodes: seq<nat>)
    requires Distinct(nodes)
    ensures Distinct(Level(spans, nodes))
  {
    if nodes != [] {
      var most, last := nodes[..|nodes| - 1], nodes[|nodes| - 1];
      LevelDistinct(spans, most);
      var l, kids := Level(spans, most), Child(spans, last);
      forall a, b | 0 <= a < |l| && 0 <= b < |kids| ensures l[a] != kids[b] {
        LevelMembers(spans, most, l[a]);
        assert l[a] in l && kids[b] in kids;
      }
    }
  }

  lemma TopsAreDepthTwo(spans: seq<Record>)
    ensures AllAtDepth(spans, Tops(spans), 2)
    ensures forall x: nat :: x in Tops(spans) <==> AtDepth(spans, x, 2)
    ensures Distinct(Tops(spans))
  {
    var roots := Roots(spans, |spans|);
    var threads := Level(spans, roots);
    LevelDistinct(spans, roots);
    LevelDistinct(spans, threads);
    forall x: nat ensures x in Tops(spans) <==> AtDepth(spans, x, 2) {
      LevelMembers(spans, threads, x);
      if x < |spans| && Parent(spans, x).Some? {
        var p := Parent(spans, x).value;
        LevelMembers(spans, roots, p);
        assert Up(spans, x, 2) == Up(spans, p, 1);
        assert Parent(spans, p).Some? ==> Up(spans, p, 1) == Some(Parent(spans, p).value);
      }
    }
    forall k | 0 <= k < |Tops(spans)| ensures AtDepth(spans, Tops(spans)[k], 2) {
      assert Tops(spans)[k] in Tops(spans);
    }
  }

  /** At depth two or more under a request span. */
  ghost predicate Drawn(spans: seq<Record>, j: nat) {
    exists d: nat :: d >= 2 && AtDepth(spans, j, d)
  }

  lemma CoveredIsDrawn(spans: seq<Record>, tops: seq<nat>, j: nat)
    requires AllAtDepth(spans, tops, 2) && Covered(spans, tops, j)
    ensures Drawn(spans, j)
  {
    var k :| 0 <= k < |tops| && Below(spans, j, tops[k]);
    var a: nat :| Up(spans, j, a) == Some(tops[k]);
    UpAdd(spans, j, a, 2);
    assert AtDepth(spans, j, a + 2);
  }

  lemma DrawnIsCovered(spans: seq<Record>, tops: seq<nat>, j: nat)
    requires forall x: nat :: AtDepth(spans, x, 2) ==> x in tops
    requires Drawn(spans, j)
    ensures Covered(spans, tops, j)
  {
    var d: nat :| d >= 2 && AtDepth(spans, j, d);
    UpAdd(spans, j, d - 2, 2);
    var x := Up(spans, j, d - 2).value;
    assert AtDepth(spans, x, 2);
    var k :| 0 <= k < |tops| && tops[k] == x;
    assert Below(spans, j, tops[k]);
  }

  /**
   For any list of spans, cycles and duplicate ids included: a recursive pass over all drawn
   spans visits every span at depth two or more under a request exactly once, and nothing else.
   */
  lemma EveryDrawnSpanOnce(spans: seq<Record>, j: nat)
    ensures AllAtDepth(spans, Tops(spans), 2)
    ensures multiset(Forest(spans, Tops(spans), 2))[j] == if Drawn(spans, j) then 1 else 0
  {
    TopsAreDepthTwo(spans);
    ForestCount(spans, Tops(spans), 2, j);
    if Covered(spans, Tops(spans), j) {
      CoveredIsDrawn(spans, Tops(spans), j);
    }
    if Drawn(spans, j) {
      DrawnIsCovered(spans, Tops(spans), j);
    }
  }

  /** A span is in at most one child list, and a request span in none. */
  lemma OneChildList(spans: seq<Record>, i: nat, k: nat, l: nat)
    requires i in Child(spans, k)
    ensures multiset(Child(spans, k))[i] == 1
    ensures i in Child(spans, l) ==> k == l
    ensures !spans[i].isRequest
  {
    var c := Child(spans, k);
    var a :| 0 <= a < |c| && c[a] == i;
    assert c == c[..a] + [i] + c[a + 1..];
    assert i !in c[..a] && i !in c[a + 1..];
  }

  // ---------------------------------------------------------------------------
  // The code

  lemma {:induction false} LookupNext(spans: seq<Record>, i: nat, id: string)
    requires i < |spans|
    ensures Lookup(spans[..i + 1], id) == if spans[i].id == id then Some(i) else Lookup(spans[..i], id)
  {
    assert spans[..i + 1][..i] == spans[..i];
  }

  /** span_id_map: the last span with each id. */
  method MapIds(spans: seq<Record>) returns (idMap: map<string, nat>)
    ensures forall id :: Lookup(spans, id) == if id in idMap then Some(idMap[id]) else None
  {
    idMap := map[];
    var i := 0;
    while i < |spans|
      invariant 0 <= i <= |spans|
      invariant forall id :: Lookup(spans[..i], id) == if id in idMap then Some(idMap[id]) else None
    {
      forall id ensures Lookup(spans[..i + 1], id) == if spans[i].id == id then Some(i) else Lookup(spans[..i], id) {
        LookupNext(spans, i, id);
      }
      idMap := idMap[spans[i].id := i];
      i := i + 1;
    }
    assert spans[..i] == spans;
  }

  method BuildTree(spans: seq<Record>) returns (child: seq<seq<nat>>, roots: seq<nat>)
    ensures |child| == |spans| && forall k :: 0 <= k < |spans| ==> child[k] == Child(spans, k)
    ensures roots == Roots(spans, |spans|)
  {
    hide Lookup;
    var idMap := MapIds(spans);
    child, roots := seq(|spans|, _ => []), [];
    var i := 0;
    while i < |spans|
      invariant 0 <= i <= |spans| == |child|
      invariant forall k :: 0 <= k < |spans| ==> child[k] == Children(spans, k, i)
      invariant roots == Roots(spans, i)
    {
      assert Lookup(spans, spans[i].parent).Some? <==> spans[i].parent in idMap;
      if spans[i].isRequest {
        roots := roots + [i];
      } else if spans[i].parent in idMap {
        var p := idMap[spans[i].parent];
        assert Parent(spans, i) == Some(p);
        child := child[p := child[p] + [i]];
      }
      i := i + 1;
    }
  }
}
