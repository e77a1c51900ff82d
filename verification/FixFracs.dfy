/**
 _fix_fracs of benchmark/reasoning_benchmark/answer_extraction.py, which puts braces around the two
 arguments of every \frac that has none.
 */
module FixFracs {
  import opened Sequences
  import opened TextSplit
  import opened BoxedAnswers

  const FRAC: string := "\\frac"

  /** What follows one \frac, with braces; None when it is too short to hold two arguments. */
  function FixPiece(piece: string): Option<string> {
    if piece != [] && piece[0] == '{' then Some(piece)
    else if |piece| < 2 then None
    else if piece[1] != '{' then Some("{" + [piece[0]] + "}{" + [piece[1]] + "}" + piece[2..])
    else Some("{" + [piece[0]] + "}" + [piece[1]] + piece[2..])
  }

  predicate Fixable(pieces: seq<string>) {
    forall k :: 0 <= k < |pieces| ==> FixPiece(pieces[k]).Some?
  }

  function FixPieces(pieces: seq<string>): (fixed: seq<string>)
    requires Fixable(pieces)
    ensures |fixed| == |pieces|
  {
    seq(|pieces|, k requires 0 <= k < |pieces| => FixPiece(pieces[k]).value)
  }

  /** One argument too short anywhere leaves the whole text as it is. */
  function Fix(text: string): string {
    var pieces := Split(text, FRAC);
    if Fixable(pieces[1..]) then Join([pieces[0]] + FixPieces(pieces[1..]), FRAC) else text
  }

  method FixFracs(text: string) returns (result: string)
    ensures result == Fix(text)
  {
    var pieces := Split(text, FRAC);
    result := pieces[0];
    var rest := pieces[1..];
    for k := 0 to |rest|
      invariant Fixable(rest[..k])
      invariant result == Join([pieces[0]] + FixPieces(rest[..k]), FRAC)
    {
      var piece := rest[k];
      var fixed := piece;
      if !(|piece| > 0 && piece[0] == '{') {
        if |piece| < 2 {
          assert !Fixable(rest);
          return text;
        }
        var a, b := piece[0], piece[1];
        if b != '{' {
          fixed := "{" + [a] + "}{" + [b] + "}" + piece[2..];
        } else {
          fixed := "{" + [a] + "}" + [b] + piece[2..];
        }
      }
      assert rest[..k + 1] == rest[..k] + [piece];
      assert FixPieces(rest[..k + 1]) == FixPieces(rest[..k]) + [fixed];
      JoinAppend([pieces[0]] + FixPieces(rest[..k]), [fixed], FRAC);
      assert [pieces[0]] + FixPieces(rest[..k + 1]) == [pieces[0]] + FixPieces(rest[..k]) + [fixed];
      result := result + FRAC + fixed;
    }
    assert rest[..|rest|] == rest;
  }

  // ---------------------------------------------------------------------------
  // Fixing twice

  lemma ShortApart(text: string)
    requires |text| < |FRAC|
    ensures !Contains(text, FRAC)
  {
  }

  lemma FixPieceApart(piece: string)
    requires !Contains(piece, FRAC) && FixPiece(piece).Some?
    ensures !Contains(FixPiece(piece).value, FRAC)
  {
    if piece[0] != '{' {
      var a, b, rest := [piece[0]], [piece[1]], piece[2..];
      PartApart(piece, 2, |piece|, FRAC);
      assert piece[2..|piece|] == rest;
      ShortApart(a);
      ShortApart(b);
      ShortApart("");
      FencedApart(b, '}', rest, FRAC);
      FencedApart("", '{', b + "}" + rest, FRAC);
      FencedApart("", '{', rest, FRAC);
      FencedApart(a, '}', "" + "{" + (b + "}" + rest), FRAC);
      FencedApart(a, '}', "" + "{" + rest, FRAC);
      FencedApart("", '{', a + "}" + ("" + "{" + (b + "}" + rest)), FRAC);
      FencedApart("", '{', a + "}" + ("" + "{" + rest), FRAC);
      assert "" + "{" + (a + "}" + ("" + "{" + (b + "}" + rest))) == "{" + a + "}{" + b + "}" + rest;
      assert "" + "{" + (a + "}" + ("" + "{" + rest)) == "{" + a + "}" + "{" + rest;
    }
  }

  predicate Braced(pieces: seq<string>) {
    forall k :: 0 <= k < |pieces| ==> pieces[k] != [] && pieces[k][0] == '{'
  }

  lemma FixedPieces(text: string)
    requires Fixable(Split(text, FRAC)[1..])
    ensures var pieces := Split(text, FRAC);
            Split(Fix(text), FRAC) == [pieces[0]] + FixPieces(pieces[1..])
  {
    hide Split, Join, Contains, FixPiece;
    var pieces := Split(text, FRAC);
    var fixed := [pieces[0]] + FixPieces(pieces[1..]);
    JoinSplit(text, FRAC);
    forall k | 0 <= k < |fixed| ensures !Contains(fixed[k], FRAC) {
      if k > 0 {
        FixPieceApart(pieces[k]);
      }
    }
    SplitJoin(fixed, FRAC);
  }

  /** In the result every \frac is followed by a brace, if and only if no argument was too short. */
  lemma FixBracesIff(text: string)
    ensures Braced(Split(Fix(text), FRAC)[1..]) <==> Fixable(Split(text, FRAC)[1..])
  {
    hide Split;
    var pieces := Split(text, FRAC);
    if Fixable(pieces[1..]) {
      FixedPieces(text);
      assert Split(Fix(text), FRAC)[1..] == FixPieces(pieces[1..]);
    }
  }

  /** Fixing a fixed text changes nothing. */
  lemma FixIdempotent(text: string)
    ensures Fix(Fix(text)) == Fix(text)
  {
    hide Split;
    var pieces := Split(text, FRAC);
    if Fixable(pieces[1..]) {
      var fixed := FixPieces(pieces[1..]);
      FixedPieces(text);
      assert Split(Fix(text), FRAC)[1..] == fixed;
      assert FixPieces(fixed) == fixed;
    }
  }

  // ---------------------------------------------------------------------------
  // Only braces are added

  function WithoutBraces(s: string): string {
    if s == [] then [] else Keep(s[0]) + WithoutBraces(s[1..])
  }

  function Keep(c: char): string {
    if c == '{' || c == '}' then "" else [c]
  }

  lemma {:induction false} WithoutBracesAppend(a: string, b: string)
    ensures WithoutBraces(a + b) == WithoutBraces(a) + WithoutBraces(b)
  {
    if a == [] {
      assert a + b == b;
    } else {
      WithoutBracesAppend(a[1..], b);
      assert (a + b)[1..] == a[1..] + b;
      Regroup(Keep(a[0]), WithoutBraces(a[1..]), WithoutBraces(b));
    }
  }

  lemma {:induction false} DepthAppend(a: string, b: string)
    ensures Depth(a + b) == Depth(a) + Depth(b)
  {
    if b == [] {
      assert a + b == a;
    } else {
      DepthAppend(a, b[..|b| - 1]);
      assert (a + b)[..|a + b| - 1] == a + b[..|b| - 1];
    }
  }

  /** The same text but for braces, and no more left open. */
  predicate Alike(a: string, b: string) {
    WithoutBraces(a) == WithoutBraces(b) && Depth(a) == Depth(b)
  }

  lemma AlikeAppend(a: string, a': string, b: string, b': string)
    requires Alike(a, a') && Alike(b, b')
    ensures Alike(a + b, a' + b')
  {
    WithoutBracesAppend(a, b);
    WithoutBracesAppend(a', b');
    DepthAppend(a, b);
    DepthAppend(a', b');
  }

  lemma Wrapped(c: char)
    ensures Alike([c], "{" + [c] + "}")
  {
    var s := "{" + [c] + "}";
    DepthNext(s, 0);
    DepthNext(s, 1);
    DepthNext(s, 2);
    assert s[..0] == "" && s[..3] == s && Depth([c]) == Depth("") + Depth([c]);
    assert s[1..] == [c] + "}";
    WithoutBracesAppend([c], "}");
  }

  lemma FixPieceAlike(piece: string)
    requires FixPiece(piece).Some?
    ensures Alike(piece, FixPiece(piece).value)
  {
    if piece[0] != '{' {
      var a, b, rest := [piece[0]], [piece[1]], piece[2..];
      assert piece == a + b + rest;
      Wrapped(piece[0]);
      Wrapped(piece[1]);
      AlikeAppend(a, "{" + a + "}", b, if piece[1] == '{' then b else "{" + b + "}");
      AlikeAppend(a + b, "{" + a + "}" + (if piece[1] == '{' then b else "{" + b + "}"), rest, rest);
      assert "{" + a + "}" + ("{" + b + "}") + rest == "{" + a + "}{" + b + "}" + rest;
    }
  }

  lemma {:induction false} JoinAlike(a: seq<string>, b: seq<string>, sep: string)
    requires |a| == |b| > 0 && forall k :: 0 <= k < |a| ==> Alike(a[k], b[k])
    ensures Alike(Join(a, sep), Join(b, sep))
  {
    if |a| > 1 {
      hide Alike;
      JoinAlike(a[1..], b[1..], sep);
      AlikeSelf(sep);
      AlikeAppend(a[0], b[0], sep, sep);
      AlikeAppend(a[0] + sep, b[0] + sep, Join(a[1..], sep), Join(b[1..], sep));
    }
  }

  lemma AlikeSelf(a: string)
    ensures Alike(a, a)
  {
  }

  /** Fixing adds braces and nothing else, and as many closing as opening ones. */
  lemma FixAlike(text: string)
    ensures Alike(text, Fix(text))
  {
    hide Split, Join, Alike, FixPiece;
    var pieces := Split(text, FRAC);
    AlikeSelf(text);
    if Fixable(pieces[1..]) {
      var fixed := [pieces[0]] + FixPieces(pieces[1..]);
      forall k | 0 <= k < |pieces| ensures Alike(pieces[k], fixed[k]) {
        if k == 0 {
          AlikeSelf(pieces[0]);
        } else {
          FixPieceAlike(pieces[k]);
        }
      }
      JoinSplit(text, FRAC);
      JoinAlike(pieces, fixed, FRAC);
    }
  }

  // ---------------------------------------------------------------------------
  // What the repaired text is

  /** What follows a \frac: something in braces, or two bare characters and the rest. */
  datatype Frac = Group(text: string) | Bare(a: char, b: char, rest: string)

  function Written(f: Frac): string {
    match f
    case Group(text) => "{" + text
    case Bare(a, b, rest) => [a] + [b] + rest
  }

  /** Each bare argument in braces of its own; a brace that is there already opens the second. */
  function Repaired(f: Frac): string {
    match f
    case Group(text) => "{" + text
    case Bare(a, b, rest) => if b == '{' then "{" + [a] + "}{" + rest else "{" + [a] + "}{" + [b] + "}" + rest
  }

  /** A text with the given parts behind its \fracs. */
  function Render(before: string, parts: seq<string>): string {
    if parts == [] then before
    else Render(before, parts[..|parts| - 1]) + "\\frac" + parts[|parts| - 1]
  }

  lemma {:induction false} RenderIsJoin(before: string, parts: seq<string>)
    ensures Render(before, parts) == Join([before] + parts, FRAC)
  {
    if parts != [] {
      var most, last := parts[..|parts| - 1], parts[|parts| - 1];
      RenderIsJoin(before, most);
      JoinAppend([before] + most, [last], FRAC);
      assert [before] + most + [last] == [before] + parts;
    }
  }

  predicate Proper(f: Frac) {
    (f.Bare? ==> f.a != '{') && !Contains(Written(f), FRAC)
  }

  lemma RepairsOne(f: Frac)
    requires f.Bare? ==> f.a != '{'
    ensures FixPiece(Written(f)) == Some(Repaired(f))
  {
    if f.Bare? {
      assert Written(f)[0] == f.a && Written(f)[1] == f.b && Written(f)[2..] == f.rest;
      assert "{" + [f.a] + "}" + "{" + f.rest == "{" + [f.a] + "}{" + f.rest;
    }
  }

  lemma SplitRender(before: string, parts: seq<string>)
    requires !Contains(before, FRAC) && Apart(parts, FRAC)
    ensures Split(Render(before, parts), FRAC) == [before] + parts
  {
    hide Contains, Split, Join, Render;
    RenderIsJoin(before, parts);
    SplitJoin([before] + parts, FRAC);
  }

  /** In a text without a short argument, each \frac gets its two arguments in braces; the rest is unchanged. */
  lemma FixRepairs(before: string, fracs: seq<Frac>)
    requires !Contains(before, FRAC) && forall k :: 0 <= k < |fracs| ==> Proper(fracs[k])
    ensures Fix(Render(before, Map(fracs, Written))) == Render(before, Map(fracs, Repaired))
  {
    hide Contains, Split, Join, Render, FixPiece, Written, Repaired;
    var parts := Map(fracs, Written);
    SplitRender(before, parts);
    assert ([before] + parts)[1..] == parts;
    forall k | 0 <= k < |fracs| ensures FixPiece(parts[k]) == Some(Repaired(fracs[k])) {
      RepairsOne(fracs[k]);
    }
    assert FixPieces(parts) == Map(fracs, Repaired);
    RenderIsJoin(before, Map(fracs, Repaired));
  }

  /** One argument that is too short leaves the whole text as it is. */
  lemma ShortUnchanged(before: string, parts: seq<string>, k: nat)
    requires !Contains(before, FRAC) && Apart(parts, FRAC)
    requires k < |parts| && |parts[k]| < 2 && (parts[k] == "" || parts[k][0] != '{')
    ensures Fix(Render(before, parts)) == Render(before, parts)
  {
    hide Contains, Split, Join, Render;
    SplitRender(before, parts);
    assert ([before] + parts)[1..] == parts;
  }

  lemma FracOf(piece: string) returns (f: Frac)
    requires |piece| >= 2 || (piece != "" && piece[0] == '{')
    ensures Written(f) == piece && (f.Bare? ==> f.a != '{')
  {
    if piece[0] == '{' {
      f := Group(piece[1..]);
    } else {
      f := Bare(piece[0], piece[1], piece[2..]);
    }
  }

  lemma FracsOf(pieces: seq<string>) returns (fracs: seq<Frac>)
    requires forall k :: 0 <= k < |pieces| ==> |pieces[k]| >= 2 || (pieces[k] != "" && pieces[k][0] == '{')
    ensures Map(fracs, Written) == pieces && forall k :: 0 <= k < |fracs| ==> fracs[k].Bare? ==> fracs[k].a != '{'
  {
    hide Written;
    fracs := [];
    for k := 0 to |pieces|
      invariant |fracs| == k && Map(fracs, Written) == pieces[..k]
      invariant forall j :: 0 <= j < k ==> fracs[j].Bare? ==> fracs[j].a != '{'
    {
      var f := FracOf(pieces[k]);
      fracs := fracs + [f];
    }
  }

  /** Every text is written so: with short arguments, or as the fractions FixRepairs speaks of. */
  lemma AnyText(text: string) returns (before: string, parts: seq<string>, fracs: seq<Frac>)
    ensures text == Render(before, parts) && !Contains(before, FRAC) && Apart(parts, FRAC)
    ensures (forall k :: 0 <= k < |parts| ==> |parts[k]| >= 2 || (parts[k] != "" && parts[k][0] == '{')) ==>
              parts == Map(fracs, Written) && forall k :: 0 <= k < |fracs| ==> Proper(fracs[k])
  {
    hide Contains, Split, Join, Render, Written;
    var pieces := Split(text, FRAC);
    JoinSplit(text, FRAC);
    before, parts, fracs := pieces[0], pieces[1..], [];
    assert pieces == [before] + parts;
    RenderIsJoin(before, parts);
    if forall k :: 0 <= k < |parts| ==> |parts[k]| >= 2 || (parts[k] != "" && parts[k][0] == '{') {
      fracs := FracsOf(parts);
      assert forall k :: 0 <= k < |fracs| ==> Written(fracs[k]) == parts[k];
    }
  }
}
