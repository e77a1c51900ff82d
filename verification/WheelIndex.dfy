/**
 The wheel index of scripts/update_nightly_whl_index.py: read the links of the old index, put the
 links of the new wheels before them, drop repeated file names, and write the page again.
 */
module WheelIndex {
  import opened Sequences
  import opened TextSplit

  const NEWLINE: string := "\n"
  const PREFIX: string := "<a href="
  const BASE: string := "https://github.com" + "/sgl-project/whl" + "/releases/download"

  // ---------------------------------------------------------------------------
  // Links

  datatype Wheel = Wheel(filename: string, sha256: string)

  function Head(w: Wheel, tag: string): string {
    PREFIX + "\"" + (BASE + "/" + tag + "/" + w.filename + "#sha256=" + w.sha256) + "\""
  }

  function Link(w: Wheel, tag: string): string {
    Head(w, tag) + ">" + w.filename + "</a><br>"
  }

  /** The index of the first '<' from `i` on, or the end. */
  function FirstAngle(s: string, i: nat): (q: nat)
    requires i <= |s|
    ensures i <= q <= |s| && (forall k :: i <= k < q ==> s[k] != '<') && (q < |s| ==> s[q] == '<')
    decreases |s| - i
  {
    if i == |s| || s[i] == '<' then i else FirstAngle(s, i + 1)
  }

  predicate IsWheel(name: string) {
    |name| >= 5 && name[|name| - 4..] == ".whl"
  }

  /** The pattern at p: '>', a wheel name without '<', and "</a>". */
  function NameAt(link: string, p: nat): Option<string>
    requires p < |link|
  {
    if link[p] != '>' then None
    else
      var q := FirstAngle(link, p + 1);
      if Occurs(link, q, "</a>") && IsWheel(link[p + 1..q]) then Some(link[p + 1..q]) else None
  }

  /** The leftmost match from p on. */
  function NameFrom(link: string, p: nat): Option<string>
    requires p <= |link|
    decreases |link| - p
  {
    if p == |link| then None
    else if NameAt(link, p).Some? then NameAt(link, p)
    else NameFrom(link, p + 1)
  }

  function NameOf(link: string): Option<string> {
    NameFrom(link, 0)
  }

  // ---------------------------------------------------------------------------
  // Duplicates

  function Names(links: seq<string>): set<string> {
    if links == [] then {}
    else (if NameOf(links[0]).Some? then {NameOf(links[0]).value} else {}) + Names(links[1..])
  }

  /** The first link of every file name that is not in `seen`. */
  function Dedup(links: seq<string>, seen: set<string>): seq<string> {
    if links == [] then []
    else
      match NameOf(links[0])
      case None => Dedup(links[1..], seen)
      case Some(n) =>
        if n in seen then Dedup(links[1..], seen) else [links[0]] + Dedup(links[1..], seen + {n})
  }

  /** The first link of a file name. */
  function Lookup(links: seq<string>, name: string): Option<string> {
    if links == [] then None
    else if NameOf(links[0]) == Some(name) then Some(links[0])
    else Lookup(links[1..], name)
  }

  // ---------------------------------------------------------------------------
  // The page

  function Title(cuda: string): string {
    "<h1>SGLang Nightly Wheels (" + cuda + ")</h1>"
  }

  function JoinLines(lines: seq<string>): string {
    if lines == [] then "" else Join(lines, NEWLINE)
  }

  function Page(links: seq<string>, cuda: string): string {
    "<!DOCTYPE html>\n" + (Title(cuda) + "\n") + JoinLines(links) + "\n"
  }

  predicate IsLink(line: string) {
    PREFIX <= line
  }

  function OnlyLinks(lines: seq<string>): (links: seq<string>)
    ensures forall k :: 0 <= k < |links| ==> IsLink(links[k]) && links[k] in lines
  {
    if lines == [] then []
    else (if IsLink(lines[0]) then [lines[0]] else []) + OnlyLinks(lines[1..])
  }

  /** The links of a page; a page that does not exist has none. */
  function Links(page: Option<string>): seq<string> {
    match page
    case None => []
    case Some(content) => OnlyLinks(Split(content, NEWLINE))
  }

  // ---------------------------------------------------------------------------
  // A run

  datatype Run = Run(wheels: seq<Wheel>, tag: string)

  function NewLinks(run: Run): (l: seq<string>)
    ensures |l| == |run.wheels|
  {
    seq(|run.wheels|, k requires 0 <= k < |run.wheels| => Link(run.wheels[k], run.tag))
  }

  /** A run without wheels raises and leaves the page alone. */
  function Update(page: Option<string>, run: Run, cuda: string): Option<string> {
    if run.wheels == [] then page
    else Some(Page(Dedup(NewLinks(run) + Links(page), {}), cuda))
  }

  function UpdateAll(page: Option<string>, runs: seq<Run>, cuda: string): Option<string> {
    if runs == [] then page
    else Update(UpdateAll(page, runs[..|runs| - 1], cuda), runs[|runs| - 1], cuda)
  }
}
