/** The update of the index as a program: its loops compute what the model says. */
module WheelIndexUpdate {
  import opened Sequences
  import opened TextSplit
  import opened WheelIndex
  import opened WheelIndexProofs

  /** Lines of the old page that start like a link. */
  method ReadLinks(page: Option<string>) returns (links: seq<string>)
    ensures links == Links(page)
  {
    links := [];
    if page.Some? {
      var lines := Split(page.value, NEWLINE);
      for i := 0 to |lines|
        invariant links == OnlyLinks(lines[..i])
      {
        assert lines[..i + 1] == lines[..i] + [lines[i]];
        OnlyLinksAppend(lines[..i], [lines[i]]);
        if PREFIX <= lines[i] {
          links := links + [lines[i]];
        }
      }
      assert lines[..|lines|] == lines;
    }
  }

  /** The first link of every file name, in order. */
  method RemoveDuplicates(all: seq<string>) returns (unique: seq<string>)
    ensures unique == Dedup(all, {})
  {
    var seen: set<string> := {};
    unique := [];
    for i := 0 to |all|
      invariant unique == Dedup(all[..i], {}) && seen == Names(all[..i])
    {
      hide NameOf;
      var link := all[i];
      assert all[..i + 1] == all[..i] + [link];
      DedupAppend(all[..i], [link], {});
      assert {} + Names(all[..i]) == seen && [link][1..] == [];
      var name := NameOf(link);
      if name.Some? && name.value !in seen {
        seen := seen + {name.value};
        unique := unique + [link];
      }
    }
    assert all[..|all|] == all;
  }

  /** `page` is the text of the package index.  None is the RuntimeError of a run without wheels. */
  method UpdateWheelIndex(page: Option<string>, run: Run, cuda: string) returns (written: Option<string>)
    ensures written.None? <==> run.wheels == []
    ensures written.Some? ==> written == Update(page, run, cuda)
  {
    var existing := ReadLinks(page);
    var added := [];
    for k := 0 to |run.wheels|
      invariant added == NewLinks(run)[..k]
    {
      added := added + [Link(run.wheels[k], run.tag)];
    }
    assert added == NewLinks(run);
    if added == [] {
      return None;
    }
    var unique := RemoveDuplicates(added + existing);
    return Some(Page(unique, cuda));
  }
}
