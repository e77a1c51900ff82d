/** The layout as the script runs it: containers on the heap, found through nested dictionaries. */
module TraceGraph {
  import opened SpanContainer
  import opened TraceLayout
  import opened TraceDriver

  lemma {:induction false} FirstClearUnique(lines: seq<seq<Span>>, x: Span, k: nat)
    requires k <= |lines|
    requires forall i :: 0 <= i < k ==> NeighbourOverlap(lines[i], x.start, x.end)
    requires k < |lines| ==> !NeighbourOverlap(lines[k], x.start, x.end)
    ensures k == FirstClear(lines, x)
  {
    if k > 0 {
      FirstClearUnique(lines[1..], x, k - 1);
    }
  }

  /** The loop over the lines of a process. */
  method FindClear(boxes: seq<SpanLayoutContainer>, ghost lines: seq<seq<Span>>, x: Span) returns (k: nat)
    requires |lines| == |boxes|
    requires forall i :: 0 <= i < |boxes| ==> boxes[i].intervals == lines[i] && Sorted(lines[i])
    ensures k == FirstClear(lines, x)
  {
    k := 0;
    while k < |boxes|
      invariant 0 <= k <= |boxes|
      invariant forall i :: 0 <= i < k ==> NeighbourOverlap(lines[i], x.start, x.end)
    {
      var hit := boxes[k].CheckOverlap(x.start, x.end);
      if !hit {
        break;
      }
      k := k + 1;
    }
    FirstClearUnique(lines, x, k);
  }

  /** No container serves two lines. */
  ghost predicate Separate(graph: map<Pid, seq<SpanLayoutContainer>>) {
    forall p, k, q, l ::
      p in graph && q in graph && 0 <= k < |graph[p]| && 0 <= l < |graph[q]| && graph[p][k] == graph[q][l] ==>
      p == q && k == l
  }

  lemma SeparateExtend(graph: map<Pid, seq<SpanLayoutContainer>>, pid: Pid, box: SpanLayoutContainer)
    requires Separate(graph)
    requires forall p, k :: p in graph && 0 <= k < |graph[p]| ==> graph[p][k] != box
    ensures Separate(graph[pid := (if pid in graph then graph[pid] else []) + [box]])
  {
  }

  class Graph {
    var graph: map<Pid, seq<SpanLayoutContainer>>
    var slots: seq<(Pid, nat)>
    var placed: seq<Placed>

    ghost var grid: map<Pid, seq<seq<Span>>>     // the spans the containers of `graph` hold
    ghost var boxes: set<SpanLayoutContainer>    // those containers

    ghost function Abs(): Board
      reads this
    {
      Board(grid, slots, placed)
    }

    /** The containers are distinct, and each holds what `grid` says. */
    ghost predicate Valid()
      reads this, boxes
    {
      && graph.Keys == grid.Keys
      && (forall p :: p in graph ==> |graph[p]| == |grid[p]|)
      && (forall p, k :: p in graph && 0 <= k < |graph[p]| ==>
            graph[p][k] in boxes && graph[p][k].intervals == grid[p][k])
      && Separate(graph)
      && Wf(Abs())
    }

    constructor ()
      ensures Valid() && Abs() == EMPTY && boxes == {}
    {
      graph, slots, placed, grid, boxes := map[], [], [], map[], {};
      EmptyWf();
    }

    method OpenNewLine(pid: Pid)
      requires Valid()
      modifies this
      ensures Valid() && fresh(boxes - old(boxes)) && old(boxes) <= boxes
      ensures Abs() == OpenLine(old(Abs()), pid)
    {
      hide Wf, Separate;
      OpenLineWf(Abs(), pid);
      grid := OpenLine(Abs(), pid).grid;
      var row := if pid in graph then graph[pid] else [];
      var box := new SpanLayoutContainer();
      SeparateExtend(graph, pid, box);
      boxes := boxes + {box};
      graph := graph[pid := row + [box]];
      slots := slots + [(pid, |row| + 1)];
    }

    method Find(st: Status, pid: Pid, x: Span) returns (line: nat, st': Status)
      requires Valid() && Remembered(Abs(), st)
      modifies this
      ensures Valid() && fresh(boxes - old(boxes)) && old(boxes) <= boxes
      ensures Choice(line, Abs(), st') == FindLine(old(Abs()), st, pid, x)
    {
      hide Wf, OpenLine, FirstClear, Separate, NeighbourOverlap, Sorted;
      if pid in st {
        line, st' := st[pid], st;
        assert HasLine(Abs(), pid, line);
        if x.start == x.end {
          return;
        }
        LineSorted(Abs(), pid, line - 1);
        var hit := graph[pid][line - 1].CheckOverlap(x.start, x.end);
        if !hit {
          return;
        }
      }
      var row := if pid in graph then graph[pid] else [];
      ghost var lines := if pid in grid then grid[pid] else [];
      forall k | 0 <= k < |lines| ensures Sorted(lines[k]) {
        LineSorted(Abs(), pid, k);
      }
      var k := FindClear(row, lines, x);
      line, st' := k + 1, st[pid := k + 1];
      if k >= |row| {
        OpenNewLine(pid);
      }
    }

    method InsertInto(pid: Pid, line: nat, x: Span)
      requires Valid() && HasLine(Abs(), pid, line)
      modifies this, boxes
      ensures Valid() && boxes == old(boxes)
      ensures Abs() == InsertAt(old(Abs()), pid, line, x)
    {
      hide Wf;
      InsertAtWf(Abs(), pid, line, x);
      LineSorted(Abs(), pid, line - 1);
      graph[pid][line - 1].InsertSpan(x.start, x.end);
      grid := InsertAt(Abs(), pid, line, x).grid;
      placed := placed + [Placed(pid, line, x)];
    }

    /** Lay out the spans of one request. */
    method PlaceRequest(arrivals: seq<Arrival>)
      requires Valid()
      modifies this, boxes
      ensures Valid() && fresh(boxes - old(boxes)) && old(boxes) <= boxes
      ensures Abs() == PlaceAll(Session(old(Abs()), map[]), arrivals).board
    {
      hide Wf, Place, Good;
      ghost var s0 := Session(Abs(), map[]);
      FreshGood(Abs());
      var st: Status := map[];
      var i := 0;
      assert arrivals[0..] == arrivals;
      while i < |arrivals|
        invariant 0 <= i <= |arrivals|
        invariant Valid() && fresh(boxes - old(boxes)) && old(boxes) <= boxes
        invariant Good(Session(Abs(), st))
        invariant PlaceAll(Session(Abs(), st), arrivals[i..]) == PlaceAll(s0, arrivals)
      {
        ghost var s := Session(Abs(), st);
        assert arrivals[i..][0] == arrivals[i] && arrivals[i..][1..] == arrivals[i + 1..];
        PlaceGood(s, arrivals[i]);
        st := PlaceOne(st, arrivals[i]);
        i := i + 1;
      }
    }

    method PlaceOne(st: Status, a: Arrival) returns (st': Status)
      requires Valid() && Good(Session(Abs(), st))
      modifies this, boxes
      ensures Valid() && fresh(boxes - old(boxes)) && old(boxes) <= boxes
      ensures Session(Abs(), st') == Place(Session(old(Abs()), st), a)
    {
      hide Wf, FindLine, InsertAt;
      FindLineWf(Abs(), st, a.pid, a.span);
      var line;
      line, st' := Find(st, a.pid, a.span);
      InsertInto(a.pid, line, a.span);
    }

    /** The whole layout: all requests in the given order, each starting with nothing remembered. */
    method Run(requests: seq<seq<Arrival>>)
      requires Valid() && Abs() == EMPTY
      modifies this, boxes
      ensures Valid() && Abs() == Layout(requests)
    {
      hide Wf, PlaceAll;
      var i := 0;
      assert requests[0..] == requests;
      while i < |requests|
        invariant 0 <= i <= |requests|
        invariant Valid() && fresh(boxes - old(boxes)) && old(boxes) <= boxes
        invariant Wf(Abs()) && LayOut(Abs(), requests[i..]) == Layout(requests)
      {
        assert requests[i..][0] == requests[i] && requests[i..][1..] == requests[i + 1..];
        PlaceRequest(requests[i]);
        i := i + 1;
      }
    }
  }

  /** generate_perfetto_span_layout on a fresh graph; false when a request has no spans. */
  method GenerateLayout(roots: seq<seq<Arrival>>, smg: seq<Span>, g: Graph) returns (ok: bool)
    requires g.Valid() && g.Abs() == EMPTY
    modifies g, g.boxes
    ensures g.Valid()
    ensures ok <==> LayoutTrace(roots, smg).Laid?
    ensures ok ==> g.Abs() == LayoutTrace(roots, smg).board
  {
    hide Wf, Layout;
    ok := [] !in roots;
    if ok {
      g.Run(Order(roots, smg));
    }
  }
}
