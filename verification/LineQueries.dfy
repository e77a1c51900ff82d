/**
 The queries of benchmark/line_retrieval/bench_sglang.py: eval_model shows the model the lines up
 to src_index and asks for the value of a line whose redirects must not lead out of them.
 */
module LineQueries {
  import opened Sequences
  import opened Redirects

  /** A line as the prompt shows it. */
  datatype Line = Content(name: string, value: string) | SameAs(name: string, target: string)

  ghost predicate Named(names: seq<string>) {
    forall i, j :: 0 <= i < j < |names| ==> names[i] != names[j]
  }

  /** The text of all lines, written before any value is overwritten. */
  function Lines(t: Table, names: seq<string>, raw: seq<string>): (lines: seq<Line>)
    requires ValidTable(t) && |names| == |raw| == |t|
    ensures |lines| == |t|
  {
    seq(|t|, i requires 0 <= i < |t| =>
      if t[i].None? then Content(names[i], raw[i]) else SameAs(names[i], names[t[i].value]))
  }

  /** The first line of the body with the given name. */
  function Find(body: seq<Line>, name: string): (r: Option<nat>)
    ensures r.Some? ==> r.value < |body| && body[r.value].name == name
    ensures r.None? ==> forall i :: 0 <= i < |body| ==> body[i].name != name
  {
    if body == [] then None
    else if body[0].name == name then Some(0)
    else match Find(body[1..], name)
      case None => None
      case Some(i) => Some(i + 1)
  }

  /** The value a reader of the body finds for a name by following exactly `hops` redirects. */
  function ReadOff(body: seq<Line>, name: string, hops: nat): Option<string>
    decreases hops
  {
    match Find(body, name)
    case None => None
    case Some(i) =>
      match body[i]
      case Content(_, value) => if hops == 0 then Some(value) else None
      case SameAs(_, target) => if hops == 0 then None else ReadOff(body, target, hops - 1)
  }

  // ---------------------------------------------------------------------------
  // Selection

  /** The filter of eval_model: the line and everything its redirects lead to is shown. */
  predicate Shown(links: seq<Option<seq<nat>>>, src: int, q: nat) {
    q < |links| && links[q].Some? && q < src && forall l :: l in links[q].value ==> l <= src
  }

  function Candidates(group: seq<nat>, links: seq<Option<seq<nat>>>, src: int): (c: seq<nat>)
    ensures forall q :: q in c <==> q in group && Shown(links, src, q)
  {
    if group == [] then []
    else
      var rest := Candidates(group[1..], links, src);
      if Shown(links, src, group[0]) then [group[0]] + rest else rest
  }

  datatype Query = Query(line: nat, answer: string, parts: seq<seq<Line>>)

  /** body[:src + 1], as a Python slice. */
  function Body(lines: seq<Line>, src: int): seq<Line>
    requires src >= 0
  {
    if src + 1 <= |lines| then lines[..src + 1] else lines
  }

  function Quarters(body: seq<Line>): seq<seq<Line>> {
    var n := |body| / 4;
    [body[..n], body[n..2 * n], body[2 * n..3 * n], body[3 * n..]]
  }

  /** How many lines of the group qualify. */
  function ShownCount(group: seq<nat>, links: seq<Option<seq<nat>>>, src: int): nat {
    if group == [] then 0
    else (if Shown(links, src, group[0]) then 1 else 0) + ShownCount(group[1..], links, src)
  }

  /** Candidate k is a line of the group with exactly k qualifying lines before it. */
  lemma {:induction false} CandidateAt(group: seq<nat>, links: seq<Option<seq<nat>>>, src: int, k: nat) returns (g: nat)
    requires k < |Candidates(group, links, src)|
    ensures |Candidates(group, links, src)| == ShownCount(group, links, src)
    ensures g < |group| && group[g] == Candidates(group, links, src)[k] && ShownCount(group[..g], links, src) == k
  {
    CandidatesCount(group, links, src);
    var own := if Shown(links, src, group[0]) then 1 else 0;
    if own == 1 && k == 0 {
      g := 0;
    } else {
      g := CandidateAt(group[1..], links, src, k - own);
      g := g + 1;
      assert group[..g][0] == group[0] && group[..g][1..] == group[1..][..g - 1];
    }
  }

  lemma {:induction false} CandidatesCount(group: seq<nat>, links: seq<Option<seq<nat>>>, src: int)
    ensures |Candidates(group, links, src)| == ShownCount(group, links, src)
  {
    if group != [] {
      CandidatesCount(group[1..], links, src);
    }
  }

  function PositionOf(n: nat, percent: real): int {
    Min((n as real * percent).Floor, n - 1)
  }

  /** The index into n candidates. */
  method Position(n: nat, percent: real) returns (k: nat)
    requires n > 0 && percent >= 0.0
    ensures k == PositionOf(n, percent) == Min((n as real * percent).Floor, n - 1) < n
  {
    var floor := (n as real * percent).Floor;
    assert n as real * percent >= 0.0;
    k := if floor < n - 1 then floor else n - 1;
  }

  lemma BodyIsPrefix(lines: seq<Line>, src: int)
    requires src >= 0
    ensures Body(lines, src) == lines[..Min(src + 1, |lines|)]
  {
  }

  function Min(a: int, b: int): int {
    if a < b then a else b
  }

  /**
   One query, or None where the list of candidates is empty and indexing it fails.  With n lines
   of the group to choose from, it asks for the one that has min(int(n * percent), n - 1) of them
   before it.  The shown lines are split into three parts of a quarter each and the rest.
   */
  method MakeQuery(group: seq<nat>, links: seq<Option<seq<nat>>>, values: seq<string>, lines: seq<Line>,
                   src: int, percent: real) returns (query: Option<Query>, ghost g: nat)
    requires |values| == |links| == |lines| && percent >= 0.0
    ensures query.None? <==> forall q :: q in group ==> !Shown(links, src, q)
    ensures query.Some? ==>
              && g < |group| && query.value.line == group[g] < |links| && links[group[g]].Some?
              && group[g] < src && (forall l :: l in links[group[g]].value ==> l <= src)
              && var n := ShownCount(group, links, src);
              && ShownCount(group[..g], links, src) == PositionOf(n, percent)
    ensures query.Some? ==>
              && query.value.answer == values[query.value.line]
              && var parts, shown := query.value.parts, Min(src + 1, |lines|);
              && 0 <= shown && |parts| == 4
              && |parts[0]| == |parts[1]| == |parts[2]| == shown / 4
              && parts[0] + parts[1] + parts[2] + parts[3] == lines[..shown]
  {
    hide Candidates, ShownCount, Quarters, Body, PositionOf;
    var candidates := Candidates(group, links, src);
    g := 0;
    if candidates == [] {
      assert forall q :: q in group && Shown(links, src, q) ==> q in candidates;
      return None, g;
    }
    var k := Position(|candidates|, percent);
    var q := candidates[k];
    assert q in candidates;
    g := CandidateAt(group, links, src, k);
    QuartersJoin(Body(lines, src));
    BodyIsPrefix(lines, src);
    query := Some(Query(q, values[q], Quarters(Body(lines, src))));
  }

  /** A line qualifies if and only if it comes before src and no redirect of it leads past src. */
  lemma ShownIff(links: seq<Option<seq<nat>>>, src: int, q: nat)
    requires q < |links| && links[q].Some?
    ensures Shown(links, src, q) <==> q < src && forall k :: 0 <= k < |links[q].value| ==> links[q].value[k] <= src
  {
    assert forall k :: 0 <= k < |links[q].value| ==> links[q].value[k] in links[q].value;
  }

  // ---------------------------------------------------------------------------
  // Every query can be answered from what is shown

  lemma {:induction false} FindOwn(body: seq<Line>, names: seq<string>, i: nat)
    requires |body| <= |names| && i < |body| && Named(names)
    requires forall k :: 0 <= k < |body| ==> body[k].name == names[k]
    ensures Find(body, names[i]) == Some(i)
  {
    if i > 0 {
      FindOwn(body[1..], names[1..], i - 1);
    }
  }

  /** Reading off the body follows the redirect chain line by line. */
  lemma {:induction false} ReadOffFollows(t: Table, names: seq<string>, raw: seq<string>, body: seq<Line>, i: nat, k: nat)
    requires ValidTable(t) && |names| == |raw| == |t| && Named(names) && i < |t|
    requires |body| <= |t| && body == Lines(t, names, raw)[..|body|]
    requires EndsAfter(t, i, k)
    requires forall m: nat :: m <= k ==> Hop(t, i, m).Some? && Hop(t, i, m).value < |body|
    ensures ReadOff(body, names[i], k) == Some(raw[Hop(t, i, k).value])
    decreases k
  {
    assert Hop(t, i, 0) == Some(i);
    FindOwn(body, names, i);
    assert body[i] == Lines(t, names, raw)[i];
    if k > 0 {
      assert Hop(t, i, 1).Some?;
      var j := t[i].value;
      forall m: nat | m <= k - 1 ensures Hop(t, j, m) == Hop(t, i, m + 1) {
      }
      ReadOffFollows(t, names, raw, body, j, k - 1);
    }
  }

  lemma QuartersJoin(body: seq<Line>)
    ensures var parts := Quarters(body);
            && |parts| == 4 && |parts[0]| == |parts[1]| == |parts[2]| == |body| / 4
            && parts[0] + parts[1] + parts[2] + parts[3] == body
  {
    var n := |body| / 4;
    assert body == body[..n] + body[n..2 * n] + body[2 * n..3 * n] + body[3 * n..];
  }

  /**
   Whatever line a query asks for, following redirects in the shown lines alone reaches a value in
   exactly as many steps as the line has redirects, and that value is the label; the four parts of
   the prompt are the shown lines.
   */
  lemma QueryIsAnswerable(t: Table, names: seq<string>, raw: seq<string>, values: seq<string>,
                          links: seq<Option<seq<nat>>>, src: int, q: nat)
    requires ValidTable(t) && |names| == |raw| == |values| == |links| == |t| && Named(names)
    requires forall i :: 0 <= i < |t| ==> Resolved(t, raw, i, values[i], links[i])
    requires Shown(links, src, q)
    ensures var body := Body(Lines(t, names, raw), src);
            var parts := Quarters(body);
            && ReadOff(body, names[q], |links[q].value|) == Some(values[q])
            && parts[0] + parts[1] + parts[2] + parts[3] == body
  {
    var lines, c := Lines(t, names, raw), links[q].value;
    var body := Body(lines, src);
    QuartersJoin(body);
    assert body == lines[..|body|];
    assert Ends(t, q) && IsChain(t, q, c);
    TerminalOfChain(t, q, c);
    forall m: nat | m <= |c| ensures Hop(t, q, m).Some? && Hop(t, q, m).value < |body| {
      if m > 0 {
        assert Hop(t, q, m) == Some(c[m - 1]) && c[m - 1] in c;
      }
    }
    ReadOffFollows(t, names, raw, body, q, |c|);
  }
}
