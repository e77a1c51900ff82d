/** Every file name once, with the link of the latest run that shipped it. */
module WheelIndexProofs {
  import opened Sequences
  import opened TextSplit
  import opened WheelIndex

  // ---------------------------------------------------------------------------
  // Duplicates

  lemma {:induction false} DedupAppend(a: seq<string>, b: seq<string>, seen: set<string>)
    ensures Dedup(a + b, seen) == Dedup(a, seen) + Dedup(b, seen + Names(a))
    ensures Names(a + b) == Names(a) + Names(b)
  {
    if a == [] {
      assert a + b == b && seen + Names(a) == seen;
    } else {
      hide NameOf;
      assert (a + b)[1..] == a[1..] + b;
      var name := NameOf(a[0]);
      var seen' := if name.Some? then seen + {name.value} else seen;
      assert name.Some? && name.value in seen ==> seen' == seen;
      DedupAppend(a[1..], b, seen');
      assert seen' + Names(a[1..]) == seen + Names(a);
    }
  }

  lemma {:induction false} DedupNames(links: seq<string>, seen: set<string>)
    ensures Names(Dedup(links, seen)) == Names(links) - seen
  {
    if links != [] {
      hide NameOf;
      var name := NameOf(links[0]);
      var seen' := if name.Some? then seen + {name.value} else seen;
      assert name.Some? && name.value in seen ==> seen' == seen;
      DedupNames(links[1..], seen');
      var rest := Dedup(links[1..], seen');
      assert ([links[0]] + rest)[1..] == rest;
    }
  }

  lemma {:induction false} DedupSeen(links: seq<string>, seen: set<string>)
    requires Names(links) <= seen
    ensures Dedup(links, seen) == []
  {
    if links != [] {
      hide NameOf;
      DedupSeen(links[1..], seen);
    }
  }

  /** Links without repeated names stay. */
  lemma {:induction false} DedupAgain(links: seq<string>, seen: set<string>, more: set<string>)
    requires more <= seen
    ensures Dedup(Dedup(links, seen), more) == Dedup(links, seen)
  {
    if links != [] {
      hide NameOf;
      match NameOf(links[0])
      case None => DedupAgain(links[1..], seen, more);
      case Some(n) =>
        if n in seen {
          DedupAgain(links[1..], seen, more);
        } else {
          DedupAgain(links[1..], seen + {n}, more + {n});
          var rest := Dedup(links[1..], seen + {n});
          assert ([links[0]] + rest)[1..] == rest;
        }
    }
  }

  /** Putting the new links before the merged list again changes nothing. */
  lemma MergeIdempotent(added: seq<string>, kept: seq<string>)
    ensures Dedup(added + Dedup(added + kept, {}), {}) == Dedup(added + kept, {})
  {
    hide Dedup, Names;
    var n := Names(added);
    var first, rest := Dedup(added, {}), Dedup(kept, n);
    DedupAppend(added, kept, {});
    assert {} + n == n;
    DedupAppend(added, first + rest, {});
    DedupAppend(first, rest, n);
    DedupNames(added, {});
    assert n - {} == n && n + n == n;
    DedupSeen(first, n);
    DedupAgain(kept, n, n);
    assert [] + rest == rest;
  }

  lemma {:induction false} LookupAppend(a: seq<string>, b: seq<string>, name: string)
    ensures Lookup(a + b, name) == if Lookup(a, name).Some? then Lookup(a, name) else Lookup(b, name)
  {
    if a == [] {
      assert a + b == b;
    } else {
      hide NameOf;
      assert (a + b)[1..] == a[1..] + b;
      LookupAppend(a[1..], b, name);
    }
  }

  lemma {:induction false} LookupDedup(links: seq<string>, seen: set<string>, name: string)
    ensures Lookup(Dedup(links, seen), name) == if name in seen then None else Lookup(links, name)
  {
    if links != [] {
      hide NameOf;
      match NameOf(links[0])
      case None => LookupDedup(links[1..], seen, name);
      case Some(n) =>
        if n in seen {
          LookupDedup(links[1..], seen, name);
        } else {
          LookupDedup(links[1..], seen + {n}, name);
          var rest := Dedup(links[1..], seen + {n});
          assert ([links[0]] + rest)[1..] == rest;
        }
    }
  }

  /** Every link has a file name, and no two have the same. */
  predicate OnceEach(links: seq<string>) {
    && (forall k :: 0 <= k < |links| ==> NameOf(links[k]).Some?)
    && (forall j, k :: 0 <= j < k < |links| ==> NameOf(links[j]) != NameOf(links[k]))
  }

  lemma {:induction false} DedupOnce(links: seq<string>, seen: set<string>)
    ensures OnceEach(Dedup(links, seen))
    ensures forall k :: 0 <= k < |Dedup(links, seen)| ==>
              NameOf(Dedup(links, seen)[k]).Some? && NameOf(Dedup(links, seen)[k]).value !in seen
              && Dedup(links, seen)[k] in links
  {
    if links != [] {
      hide NameOf;
      match NameOf(links[0])
      case None => DedupOnce(links[1..], seen);
      case Some(n) =>
        if n in seen {
          DedupOnce(links[1..], seen);
        } else {
          DedupOnce(links[1..], seen + {n});
        }
    }
  }

  // ---------------------------------------------------------------------------
  // Reading back

  /** A line of an index: it starts like a link, and is one line. */
  predicate IsLine(link: string) {
    IsLink(link) && '\n' !in link
  }

  predicate AreLines(links: seq<string>) {
    forall k :: 0 <= k < |links| ==> IsLine(links[k])
  }

  lemma OneLine(s: string)
    ensures Contains(s, NEWLINE) <==> '\n' in s
  {
    if i: nat :| i < |s| && s[i] == '\n' {
      assert s[i..i + 1] == NEWLINE;
      assert Occurs(s, i, NEWLINE);
    }
    if i: nat :| i <= |s| && Occurs(s, i, NEWLINE) {
      assert s[i] == s[i..i + 1][0];
    }
  }

  lemma {:induction false} OnlyLinksAppend(a: seq<string>, b: seq<string>)
    ensures OnlyLinks(a + b) == OnlyLinks(a) + OnlyLinks(b)
  {
    if a == [] {
      assert a + b == b;
    } else {
      hide IsLink;
      OnlyLinksAppend(a[1..], b);
      assert (a + b)[1..] == a[1..] + b;
      Regroup(if IsLink(a[0]) then [a[0]] else [], OnlyLinks(a[1..]), OnlyLinks(b));
    }
  }

  /** The lines read as links are those that start like one. */
  lemma {:induction false} ReadIff(lines: seq<string>, line: string)
    ensures line in OnlyLinks(lines) <==> line in lines && "<a href=" <= line
  {
    if lines != [] {
      ReadIff(lines[1..], line);
      assert lines == [lines[0]] + lines[1..];
    }
  }

  lemma {:induction false} OnlyLinksAll(links: seq<string>)
    requires forall k :: 0 <= k < |links| ==> IsLink(links[k])
    ensures OnlyLinks(links) == links
  {
    if links != [] {
      hide IsLink;
      OnlyLinksAll(links[1..]);
    }
  }

  /** The lines of a page: the heading, the links (or one empty line), and the empty last line. */
  function PageLines(links: seq<string>, cuda: string): seq<string> {
    ["<!DOCTYPE html>", Title(cuda)] + (if links == [] then [""] else links) + [""]
  }

  lemma PageIsLines(links: seq<string>, cuda: string)
    ensures Page(links, cuda) == Join(PageLines(links, cuda), NEWLINE)
  {
    var top, middle := ["<!DOCTYPE html>", Title(cuda)], if links == [] then [""] else links;
    JoinAppend(top, middle, NEWLINE);
    JoinAppend(top + middle, [""], NEWLINE);
    assert top[1..] == [Title(cuda)];
    assert Join(top, NEWLINE) == "<!DOCTYPE html>" + NEWLINE + Title(cuda);
  }

  lemma PageApart(links: seq<string>, cuda: string)
    requires AreLines(links) && '\n' !in cuda
    ensures Apart(PageLines(links, cuda), NEWLINE)
  {
    hide Contains;
    var lines := PageLines(links, cuda);
    OneLine("");
    OneLine("<!DOCTYPE html>");
    OneLine(Title(cuda));
    forall k | 0 <= k < |links| ensures !Contains(links[k], NEWLINE) {
      OneLine(links[k]);
    }
    forall k | 0 <= k < |lines| ensures !Contains(lines[k], NEWLINE) {
      assert lines[k] in ["<!DOCTYPE html>", Title(cuda), ""] || lines[k] in links;
    }
  }

  lemma PageLinks(links: seq<string>, cuda: string)
    requires AreLines(links)
    ensures OnlyLinks(PageLines(links, cuda)) == links
  {
    hide OnlyLinks, Title, IsLink;
    var top, middle := ["<!DOCTYPE html>", Title(cuda)], if links == [] then [""] else links;
    OnlyLinksAppend(top + middle, [""]);
    OnlyLinksAppend(top, middle);
    NotLinks(cuda);
    OnlyLinksAll(links);
  }

  /** The links written are the links read back. */
  lemma ReadBack(links: seq<string>, cuda: string)
    requires AreLines(links) && '\n' !in cuda
    ensures Links(Some(Page(links, cuda))) == links
  {
    hide Split, Join, Page, PageLines, OnlyLinks, Apart;
    PageIsLines(links, cuda);
    PageApart(links, cuda);
    assert PageLines(links, cuda) != [] by {
      PageNonEmpty(links, cuda);
    }
    SplitJoin(PageLines(links, cuda), NEWLINE);
    PageLinks(links, cuda);
  }

  lemma PageNonEmpty(links: seq<string>, cuda: string)
    ensures PageLines(links, cuda) != []
  {
  }

  lemma LinkStart(line: string)
    requires |line| <= 1 || line[1] != 'a'
    ensures !IsLink(line) && OnlyLinks([line]) == []
  {
    assert PREFIX[1] == 'a' && [line][1..] == [];
  }

  lemma NotLinks(cuda: string)
    ensures OnlyLinks(["<!DOCTYPE html>", Title(cuda)]) == [] && OnlyLinks([""]) == []
  {
    LinkStart("<!DOCTYPE html>");
    LinkStart(Title(cuda));
    LinkStart("");
    OnlyLinksAppend(["<!DOCTYPE html>"], [Title(cuda)]);
    assert ["<!DOCTYPE html>"] + [Title(cuda)] == ["<!DOCTYPE html>", Title(cuda)];
  }

  // ---------------------------------------------------------------------------
  // The links of a run

  /** Characters that no fixed part of a link holds, but for its tags. */
  predicate Special(c: char) {
    c == '>' || c == '\n'
  }

  lemma LacksAppend(a: string, b: string, c: char)
    requires c !in a && c !in b
    ensures c !in a + b
  {
  }

  lemma MarksLack(c: char)
    requires Special(c)
    ensures c !in PREFIX && c !in "/" && c !in "#sha256=" && c !in "\""
  {
  }

  lemma HostLacks(c: char)
    requires Special(c)
    ensures c !in "https://github.com"
  {
  }

  lemma PathLacks(c: char)
    requires Special(c)
    ensures c !in "/sgl-project/whl"
  {
  }

  lemma DownloadLacks(c: char)
    requires Special(c)
    ensures c !in "/releases/download"
  {
  }

  lemma BaseLacks(c: char)
    requires Special(c)
    ensures c !in BASE
  {
    HostLacks(c);
    PathLacks(c);
    DownloadLacks(c);
    LacksAppend("https://github.com", "/sgl-project/whl", c);
    LacksAppend("https://github.com" + "/sgl-project/whl", "/releases/download", c);
  }

  /** The parts of a link before and after the file name in its URL. */
  function Lead(tag: string): string {
    PREFIX + "\"" + BASE + "/" + tag + "/"
  }

  function Digest(sha256: string): string {
    "#sha256=" + sha256 + "\""
  }

  lemma LeadLacks(tag: string, c: char)
    requires Special(c) && c !in tag
    ensures c !in Lead(tag)
  {
    MarksLack(c);
    BaseLacks(c);
    LacksAppend(PREFIX, "\"", c);
    LacksAppend(PREFIX + "\"", BASE, c);
    LacksAppend(PREFIX + "\"" + BASE, "/", c);
    LacksAppend(PREFIX + "\"" + BASE + "/", tag, c);
    LacksAppend(PREFIX + "\"" + BASE + "/" + tag, "/", c);
  }

  lemma LinkParts(w: Wheel, tag: string)
    ensures Link(w, tag) == Lead(tag) + w.filename + Digest(w.sha256) + ">" + w.filename + "</a><br>"
  {
    var url := BASE + "/" + tag + "/" + w.filename + "#sha256=" + w.sha256;
    assert Head(w, tag) == PREFIX + "\"" + url + "\"";
    assert Head(w, tag) == Lead(tag) + w.filename + Digest(w.sha256);
  }

  // ---------------------------------------------------------------------------
  // The name in a link

  lemma {:induction false} SkipTo(link: string, p: nat, h: nat)
    requires p <= h <= |link| && forall k :: p <= k < h ==> link[k] != '>'
    ensures NameFrom(link, p) == NameFrom(link, h)
    decreases h - p
  {
    if p < h {
      SkipTo(link, p + 1, h);
    }
  }

  lemma {:induction false} NameShape(link: string, p: nat)
    requires p <= |link| && NameFrom(link, p).Some?
    ensures IsWheel(NameFrom(link, p).value) && '<' !in NameFrom(link, p).value
    decreases |link| - p
  {
    if NameAt(link, p).None? {
      NameShape(link, p + 1);
    }
  }

  /** What lies between the first '>' of a link and "</a>" is what is read, if it is a wheel's name without '<'. */
  lemma ReadsUpTo(head: string, text: string)
    requires '>' !in head && '<' !in text && IsWheel(text)
    ensures NameOf(head + ">" + text + "</a><br>") == Some(text)
  {
    var link, h, q := head + ">" + text + "</a><br>", |head|, |head| + 1 + |text|;
    assert forall k :: 0 <= k < h ==> link[k] == head[k];
    SkipTo(link, 0, h);
    assert link[h] == '>' && link[h + 1..q] == text && link[q..q + 4] == "</a>";
    assert forall k :: h + 1 <= k < q ==> link[k] == text[k - (h + 1)];
    assert link[q] == '<' && FirstAngle(link, h + 1) == q;
  }

  /** A '>' in the file name itself is met first, in the URL, and more than the name is read. */
  lemma ReadsTooMuch(lead: string, name: string, digest: string)
    requires '>' !in lead && '<' !in digest && '>' in name && '<' !in name && IsWheel(name)
    ensures NameOf(lead + name + digest + ">" + name + "</a><br>") != Some(name)
  {
    var f := FirstOf(name, '>');
    var rest := name[f + 1..] + digest + ">" + name;
    assert name == name[..f] + ">" + name[f + 1..];
    assert lead + name + digest + ">" + name + "</a><br>" == lead + name[..f] + ">" + rest + "</a><br>";
    assert rest[|rest| - 4..] == name[|name| - 4..];
    ReadsUpTo(lead + name[..f], rest);
  }

  lemma FirstOf(s: string, c: char) returns (f: nat)
    requires c in s
    ensures f < |s| && s[f] == c && c !in s[..f]
  {
    f := 0;
    while s[f] != c
      invariant f < |s| && c !in s[..f] && c in s[f..]
      decreases |s| - f
    {
      assert s[..f + 1] == s[..f] + [s[f]] && s[f..] == [s[f]] + s[f + 1..];
      f := f + 1;
    }
  }

  /** The name read from a link is its file name if and only if that is a wheel's name without markup characters. */
  lemma NameOfLinkIff(w: Wheel, tag: string)
    requires '>' !in tag && '>' !in w.sha256 && '<' !in w.sha256
    ensures NameOf(Link(w, tag)) == Some(w.filename) <==>
            IsWheel(w.filename) && '<' !in w.filename && '>' !in w.filename
  {
    hide NameOf, Link, Lead, IsWheel;
    var lead, name, digest := Lead(tag), w.filename, Digest(w.sha256);
    LeadLacks(tag, '>');
    LinkParts(w, tag);
    if NameOf(Link(w, tag)).Some? {
      NameOfShape(Link(w, tag));
    }
    if IsWheel(name) && '<' !in name {
      if '>' in name {
        ReadsTooMuch(lead, name, digest);
      } else {
        ReadsUpTo(lead + name + digest, name);
      }
    }
  }

  lemma NameOfShape(link: string)
    requires NameOf(link).Some?
    ensures IsWheel(NameOf(link).value) && '<' !in NameOf(link).value
  {
    NameShape(link, 0);
  }

  /** A wheel called ".whl" and nothing more has a link without a name. */
  lemma NamelessLink(w: Wheel, tag: string)
    requires '>' !in tag && '>' !in w.sha256 && w.filename == ".whl"
    ensures NameOf(Link(w, tag)) == None
  {
    hide Lead, IsLink;
    LeadLacks(tag, '>');
    LinkParts(w, tag);
    var head := Lead(tag) + w.filename + Digest(w.sha256);
    var link, h := Link(w, tag), |head|;
    assert '>' !in head;
    assert link == head + ">.whl</a><br>" && |link| == h + 13;
    assert forall k :: 0 <= k < h ==> link[k] == head[k];
    SkipTo(link, 0, h);
    NamelessTail(link, h);
  }

  lemma NamelessTail(link: string, h: nat)
    requires |link| == h + 13 && link[h..] == ">.whl</a><br>"
    ensures NameFrom(link, h) == None
  {
    var tail := ">.whl</a><br>";
    assert forall k :: 0 <= k < 13 ==> link[h + k] == tail[k];
    assert link[h + 1] == '.' && link[h + 2] == 'w' && link[h + 3] == 'h' && link[h + 4] == 'l' && link[h + 5] == '<';
    assert FirstAngle(link, h + 1) == h + 5 && |link[h + 1..h + 5]| == 4;
    SkipTo(link, h + 1, h + 8);
    assert FirstAngle(link, h + 9) == h + 9;
    SkipTo(link, h + 9, h + 12);
    assert NameFrom(link, h + 13) == None;
  }

  // ---------------------------------------------------------------------------
  // A run

  /** Tag, names and digests are without line breaks. */
  predicate OneLiners(run: Run) {
    && '\n' !in run.tag
    && forall k :: 0 <= k < |run.wheels| ==> '\n' !in run.wheels[k].filename && '\n' !in run.wheels[k].sha256
  }

  lemma LinkIsLine(w: Wheel, tag: string)
    requires '\n' !in w.filename && '\n' !in w.sha256 && '\n' !in tag
    ensures IsLine(Link(w, tag))
  {
    LeadLacks(tag, '\n');
    LinkParts(w, tag);
    assert PREFIX <= Lead(tag);
    hide Lead, Link;
    assert Lead(tag) <= Link(w, tag) && '\n' !in Digest(w.sha256);
  }

  lemma NewLinksAreLines(run: Run)
    requires OneLiners(run)
    ensures AreLines(NewLinks(run))
  {
    forall k | 0 <= k < |run.wheels| ensures IsLine(NewLinks(run)[k]) {
      LinkIsLine(run.wheels[k], run.tag);
    }
  }

  lemma LinksAreLines(page: Option<string>)
    ensures AreLines(Links(page))
  {
    if page.Some? {
      var lines := Split(page.value, NEWLINE);
      JoinSplit(page.value, NEWLINE);
      forall k | 0 <= k < |lines| ensures '\n' !in lines[k] {
        OneLine(lines[k]);
      }
    }
  }

  /** After a run the page holds the merged links, whatever it held before. */
  lemma UpdateReads(page: Option<string>, run: Run, cuda: string)
    requires OneLiners(run) && '\n' !in cuda && run.wheels != []
    ensures Links(Update(page, run, cuda)) == Dedup(NewLinks(run) + Links(page), {})
  {
    hide Links, Page, Dedup, NewLinks;
    NewLinksAreLines(run);
    LinksAreLines(page);
    var all := NewLinks(run) + Links(page);
    DedupOnce(all, {});
    ReadBack(Dedup(all, {}), cuda);
  }

  // ---------------------------------------------------------------------------
  // The theorems

  /** Running again with the same wheels and tag leaves the page as it is, byte for byte. */
  lemma RerunChangesNothing(page: Option<string>, run: Run, cuda: string)
    requires OneLiners(run) && '\n' !in cuda
    ensures Update(Update(page, run, cuda), run, cuda) == Update(page, run, cuda)
  {
    hide Links, Dedup, Page;
    if run.wheels != [] {
      UpdateReads(page, run, cuda);
      MergeIdempotent(NewLinks(run), Links(page));
    }
  }

  /** The link of the latest run that shipped the file, or else that of the old page. */
  function Latest(page: Option<string>, runs: seq<Run>, name: string): Option<string> {
    if runs == [] then Lookup(Links(page), name)
    else
      var shipped := Lookup(NewLinks(runs[|runs| - 1]), name);
      if shipped.Some? then shipped else Latest(page, runs[..|runs| - 1], name)
  }

  predicate AllOneLiners(runs: seq<Run>) {
    forall i :: 0 <= i < |runs| ==> OneLiners(runs[i])
  }

  /** After any runs, from any page, every file name has the link of the latest run that shipped it;
      no name is lost. */
  lemma {:induction false} LatestLinkWins(page: Option<string>, runs: seq<Run>, cuda: string, name: string)
    requires AllOneLiners(runs) && '\n' !in cuda
    ensures Lookup(Links(UpdateAll(page, runs, cuda)), name) == Latest(page, runs, name)
  {
    if runs != [] {
      hide Links, Dedup, Page, Lookup, NewLinks;
      var before, run := runs[..|runs| - 1], runs[|runs| - 1];
      LatestLinkWins(page, before, cuda, name);
      var kept := UpdateAll(page, before, cuda);
      StepLatest(kept, run, cuda, name);
    }
  }

  lemma StepLatest(page: Option<string>, run: Run, cuda: string, name: string)
    requires OneLiners(run) && '\n' !in cuda
    ensures Lookup(Links(Update(page, run, cuda)), name) ==
            var shipped := Lookup(NewLinks(run), name);
            if shipped.Some? then shipped else Lookup(Links(page), name)
  {
    hide Links, Dedup, Page;
    if run.wheels != [] {
      UpdateReads(page, run, cuda);
      LookupDedup(NewLinks(run) + Links(page), {}, name);
      LookupAppend(NewLinks(run), Links(page), name);
    }
  }

  /** After any runs of which one shipped something, every file name is listed once. */
  lemma {:induction false} ListedOnce(page: Option<string>, runs: seq<Run>, cuda: string, i: nat)
    requires AllOneLiners(runs) && '\n' !in cuda && i < |runs| && runs[i].wheels != []
    ensures OnceEach(Links(UpdateAll(page, runs, cuda)))
  {
    hide Links, Dedup, Page, OnceEach, NewLinks;
    var before, run := runs[..|runs| - 1], runs[|runs| - 1];
    var kept := UpdateAll(page, before, cuda);
    if run.wheels != [] {
      UpdateReads(kept, run, cuda);
      DedupOnce(NewLinks(run) + Links(kept), {});
    } else {
      ListedOnce(page, before, cuda, i);
    }
  }

  /** Every file of the run can be found by its name. */
  predicate HasWheels(run: Run) {
    && '>' !in run.tag
    && forall k :: 0 <= k < |run.wheels| ==>
         && '<' !in run.wheels[k].sha256 && '>' !in run.wheels[k].sha256
         && '<' !in run.wheels[k].filename && '>' !in run.wheels[k].filename && IsWheel(run.wheels[k].filename)
  }

  /** A run's own wheels are found under their names, with the run's own links. */
  lemma ShippedLink(run: Run, k: nat)
    requires HasWheels(run) && k < |run.wheels|
    requires forall j :: 0 <= j < k ==> run.wheels[j].filename != run.wheels[k].filename
    ensures Lookup(NewLinks(run), run.wheels[k].filename) == Some(Link(run.wheels[k], run.tag))
  {
    hide NameOf, Link;
    forall j | 0 <= j < |run.wheels| ensures NameOf(NewLinks(run)[j]) == Some(run.wheels[j].filename) {
      NameOfLinkIff(run.wheels[j], run.tag);
    }
    LookupAt(NewLinks(run), k, run.wheels[k].filename);
  }

  lemma {:induction false} LookupAt(links: seq<string>, k: nat, name: string)
    requires k < |links| && NameOf(links[k]) == Some(name)
    requires forall j :: 0 <= j < k ==> NameOf(links[j]) != Some(name)
    ensures Lookup(links, name) == Some(links[k])
  {
    if k > 0 {
      hide NameOf;
      LookupAt(links[1..], k - 1, name);
    }
  }

  // ---------------------------------------------------------------------------
  // In plain text

  /** A link, written out. */
  lemma LinkText(w: Wheel, tag: string)
    ensures Link(w, tag) == "<a href=\"" + ("https://github.com/sgl-project/whl/releases/download" + "/" + tag + "/"
                          + w.filename + "#sha256=" + w.sha256) + "\"" + ">" + w.filename + "</a><br>"
  {
    BaseText();
    hide *;
    LinkByBase(w, tag);
  }

  lemma BaseText()
    ensures BASE == "https://github.com/sgl-project/whl/releases/download"
  {
  }

  lemma LinkByBase(w: Wheel, tag: string)
    ensures Link(w, tag) == "<a href=\"" + (BASE + "/" + tag + "/" + w.filename + "#sha256=" + w.sha256) + "\"" + ">"
                          + w.filename + "</a><br>"
  {
    assert PREFIX + "\"" == "<a href=\"";
  }

  /** A file called something and ".whl" is read back from its link by its name. */
  lemma WhlIsRead(stem: string, sha256: string, tag: string)
    requires stem != "" && '<' !in stem && '>' !in stem
    requires '>' !in tag && '<' !in sha256 && '>' !in sha256
    ensures NameOf(Link(Wheel(stem + ".whl", sha256), tag)) == Some(stem + ".whl")
  {
    hide NameOf, Link;
    var name := stem + ".whl";
    assert name[|name| - 4..] == ".whl";
    NameOfLinkIff(Wheel(name, sha256), tag);
  }

  /** A name that does not end in ".whl" is read from no link at all. */
  lemma OnlyWhlIsRead(link: string, name: string)
    requires forall stem: string :: name != stem + ".whl"
    ensures NameOf(link) != Some(name)
  {
    if NameOf(link).Some? {
      NameOfShape(link);
      var n := NameOf(link).value;
      assert n == n[..|n| - 4] + ".whl";
    }
  }

  lemma {:induction false} LookupMember(links: seq<string>, name: string)
    requires Lookup(links, name).Some?
    ensures Lookup(links, name).value in links
  {
    hide NameOf;
    if NameOf(links[0]) != Some(name) {
      LookupMember(links[1..], name);
    }
  }

  lemma {:induction false} LookupNone(links: seq<string>, name: string)
    requires forall k :: 0 <= k < |links| ==> NameOf(links[k]) != Some(name)
    ensures Lookup(links, name) == None
  {
    hide NameOf;
    if links != [] {
      LookupNone(links[1..], name);
    }
  }

  /**
   After a run every wheel it shipped is on the page under its own name with its own link, for
   names that end in ".whl" and have no markup; and no name that does not end so is on any page.
   */
  lemma WheelsOnPage(page: Option<string>, run: Run, cuda: string, k: nat)
    requires OneLiners(run) && '\n' !in cuda && k < |run.wheels| && '>' !in run.tag
    requires forall j :: 0 <= j < |run.wheels| ==>
               && |run.wheels[j].filename| > 4
               && run.wheels[j].filename[|run.wheels[j].filename| - 4..] == ".whl"
               && '<' !in run.wheels[j].filename && '>' !in run.wheels[j].filename
               && '<' !in run.wheels[j].sha256 && '>' !in run.wheels[j].sha256
    requires forall j :: 0 <= j < k ==> run.wheels[j].filename != run.wheels[k].filename
    ensures Lookup(Links(Update(page, run, cuda)), run.wheels[k].filename) == Some(Link(run.wheels[k], run.tag))
    ensures Link(run.wheels[k], run.tag) in Links(Update(page, run, cuda))
  {
    hide Links, Update, Link, NameOf, NewLinks, Lookup;
    ShippedLink(run, k);
    StepLatest(page, run, cuda, run.wheels[k].filename);
    LookupMember(Links(Update(page, run, cuda)), run.wheels[k].filename);
  }

  lemma OnlyWhlOnPage(page: Option<string>, name: string)
    requires forall stem: string :: name != stem + ".whl"
    ensures Lookup(Links(page), name) == None
  {
    hide Links;
    forall k | 0 <= k < |Links(page)| ensures NameOf(Links(page)[k]) != Some(name) {
      OnlyWhlIsRead(Links(page)[k], name);
    }
    LookupNone(Links(page), name);
  }
}
