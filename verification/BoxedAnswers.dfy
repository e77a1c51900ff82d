/** extract_boxed_answers of benchmark/reasoning_benchmark/answer_extraction.py. */
module BoxedAnswers {
  import opened Sequences
  import opened TextSplit

  const BOXED: string := "boxed{"

  // ---------------------------------------------------------------------------
  // Braces

  /** Opening braces less closing braces. */
  function Depth(s: string): int {
    if s == [] then 0
    else
      var c := s[|s| - 1];
      Depth(s[..|s| - 1]) + if c == '{' then 1 else if c == '}' then -1 else 0
  }

  predicate NeverCloses(s: string, n: nat)
    requires n <= |s|
  {
    forall j :: 0 <= j <= n ==> Depth(s[..j]) >= 0
  }

  predicate Balanced(s: string) {
    Depth(s) == 0 && NeverCloses(s, |s|)
  }

  lemma DepthNext(s: string, i: nat)
    requires i < |s|
    ensures Depth(s[..i + 1]) == Depth(s[..i]) + if s[i] == '{' then 1 else if s[i] == '}' then -1 else 0
  {
    assert s[..i + 1][..i] == s[..i];
  }

  /** The brace that closes more than was opened is at c. */
  predicate ClosesAt(s: string, c: nat) {
    c < |s| && NeverCloses(s, c) && Depth(s[..c + 1]) < 0
  }

  /** What one piece of the text contributes: the text before its closing brace, and with the brace
      when a percent sign follows. */
  function Cut(piece: string, c: nat): string
    requires c < |piece|
  {
    if c + 1 < |piece| && piece[c + 1] == '%' then piece[..c + 1] else piece[..c]
  }

  ghost predicate IsAnswer(piece: string, answer: Option<string>) {
    match answer
    case None => NeverCloses(piece, |piece|)
    case Some(a) => exists c: nat :: ClosesAt(piece, c) && a == Cut(piece, c)
  }

  /** The inner loop. */
  method Answer(piece: string) returns (answer: Option<string>)
    ensures IsAnswer(piece, answer)
  {
    var n := 0;
    for i := 0 to |piece|
      invariant n == Depth(piece[..i]) && n >= 0
      invariant NeverCloses(piece, i)
    {
      DepthNext(piece, i);
      if piece[i] == '{' {
        n := n + 1;
      } else if piece[i] == '}' {
        n := n - 1;
        if n < 0 {
          assert ClosesAt(piece, i);
          return Some(if i + 1 < |piece| && piece[i + 1] == '%' then piece[..i + 1] else piece[..i]);
        }
      }
    }
    return None;
  }

  /** The answers of the pieces, in order. */
  ghost predicate AreAnswers(pieces: seq<string>, answers: seq<string>)
    decreases |pieces|
  {
    if pieces == [] then answers == []
    else
      var last, rest := pieces[|pieces| - 1], pieces[..|pieces| - 1];
      || (IsAnswer(last, None) && AreAnswers(rest, answers))
      || (answers != [] && IsAnswer(last, Some(answers[|answers| - 1])) && AreAnswers(rest, answers[..|answers| - 1]))
  }

  method ExtractBoxedAnswers(text: string) returns (answers: seq<string>)
    ensures AreAnswers(Split(text, BOXED)[1..], answers)
  {
    var pieces := Split(text, BOXED)[1..];
    answers := [];
    for i := 0 to |pieces|
      invariant AreAnswers(pieces[..i], answers)
    {
      var answer := Answer(pieces[i]);
      assert pieces[..i + 1][..i] == pieces[..i];
      if answer.Some? {
        answers := answers + [answer.value];
        assert answers[..|answers| - 1] + [answer.value] == answers;
      }
    }
    assert pieces[..|pieces|] == pieces;
  }

  // ---------------------------------------------------------------------------
  // What the answers are

  /** A piece has one answer or none, and not both. */
  lemma AnswerUnique(piece: string, a: Option<string>, b: Option<string>)
    requires IsAnswer(piece, a) && IsAnswer(piece, b)
    ensures a == b
  {
    if a.Some? && b.Some? {
      var c: nat :| ClosesAt(piece, c) && a.value == Cut(piece, c);
      var d: nat :| ClosesAt(piece, d) && b.value == Cut(piece, d);
      assert c <= d && d <= c;
    }
  }

  /** `payload` in a box, followed by `after`. */
  datatype Box = Box(payload: string, after: string)

  function Piece(box: Box): string {
    box.payload + "}" + box.after
  }

  function Pieces(boxes: seq<Box>): (p: seq<string>)
    ensures |p| == |boxes|
  {
    seq(|boxes|, k requires 0 <= k < |boxes| => Piece(boxes[k]))
  }

  /** The text before the first box, and then the boxes. */
  function Render(before: string, boxes: seq<Box>): string {
    Join([before] + Pieces(boxes), BOXED)
  }

  function Expected(box: Box): string {
    box.payload + if box.after != [] && box.after[0] == '%' then "}" else ""
  }

  function AllExpected(boxes: seq<Box>): (e: seq<string>)
    ensures |e| == |boxes|
  {
    seq(|boxes|, k requires 0 <= k < |boxes| => Expected(boxes[k]))
  }

  predicate Plain(box: Box) {
    Balanced(box.payload) && !Contains(box.payload, BOXED) && !Contains(box.after, BOXED)
  }

  lemma PieceCloses(box: Box)
    requires Balanced(box.payload)
    ensures IsAnswer(Piece(box), Some(Expected(box))) && !IsAnswer(Piece(box), None)
  {
    var piece, c := Piece(box), |box.payload|;
    forall j | 0 <= j <= c ensures Depth(piece[..j]) >= 0 {
      assert piece[..j] == box.payload[..j];
    }
    assert piece[..c] == box.payload;
    DepthNext(piece, c);
    assert ClosesAt(piece, c);
    assert piece[..c + 1] == box.payload + "}";
    assert box.after != [] ==> piece[c + 1] == box.after[0];
    assert Cut(piece, c) == Expected(box);
  }

  lemma {:induction false} BoxesAnswer(boxes: seq<Box>, answers: seq<string>)
    requires forall k :: 0 <= k < |boxes| ==> Balanced(boxes[k].payload)
    requires AreAnswers(Pieces(boxes), answers)
    ensures answers == AllExpected(boxes)
  {
    hide IsAnswer, Balanced, Expected, Piece;
    if boxes != [] {
      var n := |boxes| - 1;
      var last := Piece(boxes[n]);
      assert Pieces(boxes)[..n] == Pieces(boxes[..n]);
      PieceCloses(boxes[n]);
      AnswerUnique(last, Some(answers[|answers| - 1]), Some(Expected(boxes[n])));
      BoxesAnswer(boxes[..n], answers[..|answers| - 1]);
      assert AllExpected(boxes) == AllExpected(boxes[..n]) + [Expected(boxes[n])];
    }
  }

  lemma PiecesApart(before: string, boxes: seq<Box>)
    requires !Contains(before, BOXED) && forall k :: 0 <= k < |boxes| ==> Plain(boxes[k])
    ensures Apart([before] + Pieces(boxes), BOXED)
  {
    forall k | 0 <= k < |boxes| ensures !Contains(Pieces(boxes)[k], BOXED) {
      FencedApart(boxes[k].payload, '}', boxes[k].after, BOXED);
    }
  }

  /**
   The boxes of a text with balanced payloads come out in order: each as its payload, or as its
   payload and the closing brace when a percent sign follows.
   */
  lemma ExtractsPayloads(before: string, boxes: seq<Box>, answers: seq<string>)
    requires !Contains(before, BOXED) && forall k :: 0 <= k < |boxes| ==> Plain(boxes[k])
    requires AreAnswers(Split(Render(before, boxes), BOXED)[1..], answers)
    ensures answers == AllExpected(boxes)
  {
    hide AreAnswers, Split, Join, Contains, Balanced, Pieces;
    var pieces := [before] + Pieces(boxes);
    PiecesApart(before, boxes);
    SplitJoin(pieces, BOXED);
    assert pieces[1..] == Pieces(boxes);
    BoxesAnswer(boxes, answers);
  }

  // ---------------------------------------------------------------------------
  // Nested boxes

  lemma AnswerApart(piece: string, answer: string)
    requires !Contains(piece, BOXED) && IsAnswer(piece, Some(answer))
    ensures !Contains(answer, BOXED)
  {
    var c: nat :| ClosesAt(piece, c) && answer == Cut(piece, c);
    PartApart(piece, 0, c, BOXED);
    PartApart(piece, 0, c + 1, BOXED);
    assert piece[0..c] == piece[..c] && piece[0..c + 1] == piece[..c + 1];
  }

  lemma {:induction false} AnswersApart(pieces: seq<string>, answers: seq<string>)
    requires Apart(pieces, BOXED) && AreAnswers(pieces, answers)
    ensures Apart(answers, BOXED)
  {
    if pieces != [] {
      var last, rest := pieces[|pieces| - 1], pieces[..|pieces| - 1];
      if IsAnswer(last, None) && AreAnswers(rest, answers) {
        AnswersApart(rest, answers);
      } else {
        AnswersApart(rest, answers[..|answers| - 1]);
        AnswerApart(last, answers[|answers| - 1]);
      }
    }
  }

  /** No answer of any text contains the start of a box. */
  lemma NoNestedAnswer(text: string, answers: seq<string>)
    requires AreAnswers(Split(text, BOXED)[1..], answers)
    ensures Apart(answers, BOXED)
  {
    JoinSplit(text, BOXED);
    AnswersApart(Split(text, BOXED)[1..], answers);
  }

  function Payloads(boxes: seq<Box>): (p: seq<string>)
    ensures |p| == |boxes|
  {
    seq(|boxes|, k requires 0 <= k < |boxes| => boxes[k].payload)
  }

  predicate Percent(box: Box) {
    box.after != [] && box.after[0] == '%'
  }

  lemma ExpectedIff(boxes: seq<Box>)
    ensures AllExpected(boxes) == Payloads(boxes) <==> forall k :: 0 <= k < |boxes| ==> !Percent(boxes[k])
  {
    if AllExpected(boxes) == Payloads(boxes) {
      forall k | 0 <= k < |boxes| ensures !Percent(boxes[k]) {
        assert Expected(boxes[k]) == AllExpected(boxes)[k] == Payloads(boxes)[k] == boxes[k].payload;
        assert |Expected(boxes[k])| == |boxes[k].payload| + if Percent(boxes[k]) then 1 else 0;
      }
    } else {
      assert forall k :: 0 <= k < |boxes| ==> boxes[k].payload + "" == boxes[k].payload;
    }
  }

  /**
   The answers of any text with balanced boxes are their payloads if and only if there is no box
   inside a box and no percent sign right after one.
   */
  lemma PayloadsIff(before: string, boxes: seq<Box>, answers: seq<string>)
    requires !Contains(before, BOXED)
    requires forall k :: 0 <= k < |boxes| ==> Balanced(boxes[k].payload) && !Contains(boxes[k].after, BOXED)
    requires AreAnswers(Split(Render(before, boxes), BOXED)[1..], answers)
    ensures answers == Payloads(boxes) <==>
            forall k :: 0 <= k < |boxes| ==> !Contains(boxes[k].payload, BOXED) && !Percent(boxes[k])
  {
    hide AreAnswers, Split, Join, Contains, Balanced, Percent, AllExpected, Render;
    NoNestedAnswer(Render(before, boxes), answers);
    ExpectedIff(boxes);
    if answers == Payloads(boxes) {
      forall k | 0 <= k < |boxes| ensures !Contains(boxes[k].payload, BOXED) {
        assert answers[k] == boxes[k].payload;
      }
    }
    if forall k :: 0 <= k < |boxes| ==> !Contains(boxes[k].payload, BOXED) {
      ExtractsPayloads(before, boxes, answers);
    }
  }

  /** One box, written out. */
  lemma OneBox(before: string, payload: string, after: string, answers: seq<string>)
    requires !Contains(before, "boxed{") && Balanced(payload) && !Contains(payload, "boxed{")
    requires !Contains(after, "boxed{") && (after != "" ==> after[0] != '%')
    requires AreAnswers(Split(before + "boxed{" + (payload + "}" + after), "boxed{")[1..], answers)
    ensures answers == [payload]
  {
    hide AreAnswers, Split, Contains, Balanced;
    var boxes := [Box(payload, after)];
    assert [before] + Pieces(boxes) == [before, payload + "}" + after];
    assert [before, payload + "}" + after][1..] == [payload + "}" + after];
    assert Join([payload + "}" + after], BOXED) == payload + "}" + after;
    assert Render(before, boxes) == before + "boxed{" + (payload + "}" + after);
    PayloadsIff(before, boxes, answers);
  }
}
