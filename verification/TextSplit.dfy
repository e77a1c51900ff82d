/** Splitting a text at a separator, as str.split does: leftmost occurrences, none overlapping. */
module TextSplit {
  import opened Sequences

  predicate Occurs(text: string, i: nat, sep: string) {
    i + |sep| <= |text| && text[i..i + |sep|] == sep
  }

  predicate Contains(text: string, sep: string) {
    exists i: nat :: i <= |text| && Occurs(text, i, sep)
  }

  /** Where the separator occurs first. */
  function Find(text: string, sep: string): (r: Option<nat>)
    ensures r.Some? ==> Occurs(text, r.value, sep) && forall j: nat :: j < r.value ==> !Occurs(text, j, sep)
    ensures r.None? <==> !Contains(text, sep)
  {
    if Occurs(text, 0, sep) then Some(0)
    else if text == [] then None
    else
      assert forall j: nat :: j > 0 ==> (Occurs(text, j, sep) <==> Occurs(text[1..], j - 1, sep)) by {
        forall j: nat | j > 0 ensures Occurs(text, j, sep) <==> Occurs(text[1..], j - 1, sep) {
          OccursLater(text, j, sep);
        }
      }
      assert forall j: nat :: Occurs(text[1..], j, sep) ==> Occurs(text, j + 1, sep);
      match Find(text[1..], sep)
      case None => None
      case Some(i) => Some(i + 1)
  }

  lemma OccursLater(text: string, j: nat, sep: string)
    requires text != [] && j > 0
    ensures Occurs(text, j, sep) <==> Occurs(text[1..], j - 1, sep)
  {
    if j + |sep| <= |text| {
      assert text[1..][j - 1..j - 1 + |sep|] == text[j..j + |sep|];
    }
  }

  function Split(text: string, sep: string): (pieces: seq<string>)
    requires sep != []
    ensures pieces != []
    decreases |text|
  {
    match Find(text, sep)
    case None => [text]
    case Some(i) => [text[..i]] + Split(text[i + |sep|..], sep)
  }

  function Join(pieces: seq<string>, sep: string): string
    requires pieces != []
  {
    if |pieces| == 1 then pieces[0] else pieces[0] + sep + Join(pieces[1..], sep)
  }

  lemma {:induction false} JoinAppend(a: seq<string>, b: seq<string>, sep: string)
    requires a != [] && b != []
    ensures Join(a + b, sep) == Join(a, sep) + sep + Join(b, sep)
  {
    if |a| == 1 {
      assert (a + b)[1..] == b;
    } else {
      JoinAppend(a[1..], b, sep);
      assert (a + b)[1..] == a[1..] + b;
      var x, y, z := a[0] + sep, Join(a[1..], sep), sep + Join(b, sep);
      assert x + (y + sep + Join(b, sep)) == x + (y + z) == (x + y) + z;
    }
  }

  predicate Apart(pieces: seq<string>, sep: string) {
    forall k :: 0 <= k < |pieces| ==> !Contains(pieces[k], sep)
  }

  /** The pieces join to the text again, and none of them contains the separator. */
  lemma {:induction false} JoinSplit(text: string, sep: string)
    requires sep != []
    ensures Join(Split(text, sep), sep) == text && Apart(Split(text, sep), sep)
    decreases |text|
  {
    match Find(text, sep)
    case None =>
    case Some(i) =>
      var rest := text[i + |sep|..];
      JoinSplit(rest, sep);
      assert text == text[..i] + sep + rest;
      BeforeFirst(text, i, sep);
      assert Split(text, sep)[1..] == Split(rest, sep);
  }

  lemma BeforeFirst(text: string, i: nat, sep: string)
    requires i <= |text| && sep != [] && forall j: nat :: j < i ==> !Occurs(text, j, sep)
    ensures !Contains(text[..i], sep)
  {
    forall j: nat ensures Occurs(text[..i], j, sep) ==> Occurs(text, j, sep) && j < i {
      if j + |sep| <= i {
        assert text[..i][j..j + |sep|] == text[j..j + |sep|];
      }
    }
  }

  // ---------------------------------------------------------------------------
  // Joining and then splitting

  /** The first character of the separator is not repeated in it. */
  predicate Distinctive(sep: string) {
    sep != [] && sep[0] !in sep[1..]
  }

  /** An occurrence that starts in a piece ends in it. */
  lemma NoStraddle(piece: string, sep: string, rest: string, j: nat)
    requires Distinctive(sep) && j < |piece|
    ensures Occurs(piece + sep + rest, j, sep) ==> Occurs(piece, j, sep)
  {
    var whole := piece + sep + rest;
    if j + |sep| <= |piece| {
      assert whole[j..j + |sep|] == piece[j..j + |sep|];
    } else if j + |sep| <= |whole| {
      var k := |piece| - j;
      assert whole[j..j + |sep|][k] == whole[|piece|] == sep[0];
      assert sep[k] == sep[1..][k - 1];
    }
  }

  lemma FindFirst(piece: string, sep: string, rest: string)
    requires Distinctive(sep) && !Contains(piece, sep)
    ensures Find(piece + sep + rest, sep) == Some(|piece|)
  {
    var whole := piece + sep + rest;
    assert whole[|piece|..|piece| + |sep|] == sep;
    forall j: nat | j < |piece| ensures !Occurs(whole, j, sep) {
      NoStraddle(piece, sep, rest, j);
    }
    assert Occurs(whole, |piece|, sep);
  }

  /** Splitting undoes joining, for pieces without the separator. */
  lemma {:induction false} SplitJoin(pieces: seq<string>, sep: string)
    requires Distinctive(sep) && pieces != [] && Apart(pieces, sep)
    ensures Split(Join(pieces, sep), sep) == pieces
  {
    if |pieces| > 1 {
      hide Contains, Occurs;
      SplitJoin(pieces[1..], sep);
      SplitFirst(pieces[0], sep, Join(pieces[1..], sep));
      assert pieces == [pieces[0]] + pieces[1..];
    }
  }

  lemma SplitFirst(piece: string, sep: string, rest: string)
    requires Distinctive(sep) && !Contains(piece, sep)
    ensures Split(piece + sep + rest, sep) == [piece] + Split(rest, sep)
  {
    hide Contains, Occurs;
    var whole := piece + sep + rest;
    FindFirst(piece, sep, rest);
    assert whole[..|piece|] == piece && whole[|piece| + |sep|..] == rest;
  }

  // ---------------------------------------------------------------------------
  // Texts put together

  /** A character outside the separator keeps the texts on its two sides apart. */
  lemma FencedApart(a: string, c: char, b: string, sep: string)
    requires sep != [] && c !in sep && !Contains(a, sep) && !Contains(b, sep)
    ensures !Contains(a + [c] + b, sep)
  {
    var whole := a + [c] + b;
    forall j: nat ensures !Occurs(whole, j, sep) {
      NotAcross(a, c, b, sep, j);
    }
  }

  lemma NotAcross(a: string, c: char, b: string, sep: string, j: nat)
    requires sep != [] && c !in sep && !Contains(a, sep) && !Contains(b, sep)
    ensures !Occurs(a + [c] + b, j, sep)
  {
    var whole, n := a + [c] + b, |sep|;
    if j + n <= |whole| {
      if j + n <= |a| {
        assert whole[j..j + n] == a[j..j + n];
        assert !Occurs(a, j, sep);
      } else if j <= |a| {
        assert whole[j..j + n][|a| - j] == c;
      } else {
        var k := j - |a| - 1;
        assert whole[j..j + n] == b[k..k + n];
        assert !Occurs(b, k, sep);
      }
    }
  }

  lemma PartApart(text: string, i: nat, j: nat, sep: string)
    requires i <= j <= |text| && !Contains(text, sep)
    ensures !Contains(text[i..j], sep)
  {
    forall k: nat ensures Occurs(text[i..j], k, sep) ==> Occurs(text, i + k, sep) {
      if k + |sep| <= j - i {
        var here, there := text[i..j][k..k + |sep|], text[i + k..i + k + |sep|];
        assert forall m :: 0 <= m < |sep| ==> here[m] == text[i..j][k + m] == there[m];
        assert here == there;
      }
    }
  }
}
