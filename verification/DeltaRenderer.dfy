/** RenderDelta: the three sections in canonical order, empty ones left out. */
module DeltaRenderer {
  import opened Seqs
  import opened Text
  import opened OpenSpecModel
  import opened Lexer
  import opened SpecRenderer

  function ModifiedLines(m: ModifiedRequirement): seq<string> {
    RequirementLines(m.requirement, m.previously, "")
  }

  function Bare(name: string): Requirement {
    Requirement(name, "", [])
  }

  function RemovedLines(r: RemovedRequirement): seq<string> {
    RequirementLines(Bare(r.name), "", r.rationale)
  }

  /** A section and its blocks; nothing when there is no block. */
  function Blocks<A>(heading: string, f: A -> seq<string>, xs: seq<A>): seq<string> {
    if xs == [] then [] else SectionHeader(heading) + FlatMap(f, xs)
  }

  function AddedName(): string { "ADDED Requirements" }

  function ModifiedName(): string { "MODIFIED Requirements" }

  function RemovedName(): string { "REMOVED Requirements" }

  function DeltaLines(d: Delta): seq<string> {
    [TitleLine(d.title)] + Blocks(AddedName(), PlainLines, d.added) + Blocks(ModifiedName(), ModifiedLines, d.modified)
    + Blocks(RemovedName(), RemovedLines, d.removed)
  }

  function DeltaText(d: Delta): string {
    Unlines(DeltaLines(d))
  }

  method WriteSection(b: Builder, heading: string)
    requires b.Valid()
    modifies b
    ensures b.Valid() && b.lines == old(b.lines) + SectionHeader(heading)
  {
    hide Unlines, SectionLine;
    b.Line("");
    b.Line(SectionLine(heading));
  }

  method RenderAdded(b: Builder, rs: seq<Requirement>)
    requires b.Valid()
    modifies b
    ensures b.Valid() && b.lines == old(b.lines) + Blocks(AddedName(), PlainLines, rs)
  {
    hide Unlines, PlainLines, SectionHeader, AddedName;
    if |rs| > 0 {
      WriteSection(b, AddedName());
      RenderPlain(b, rs);
      AppendAssoc(old(b.lines), SectionHeader(AddedName()), FlatMap(PlainLines, rs));
    }
  }

  method RenderModified(b: Builder, ms: seq<ModifiedRequirement>)
    requires b.Valid()
    modifies b
    ensures b.Valid() && b.lines == old(b.lines) + Blocks(ModifiedName(), ModifiedLines, ms)
  {
    hide Unlines, RequirementLines, SectionHeader, ModifiedName;
    if |ms| > 0 {
      WriteSection(b, ModifiedName());
      ghost var base := b.lines;
      for i := 0 to |ms|
        invariant b.Valid()
        invariant b.lines == base + FlatMap(ModifiedLines, ms[..i])
      {
        RenderRequirement(b, ms[i].requirement, ms[i].previously, "");
        FlatMapSnoc(ModifiedLines, ms, i);
        AppendAssoc(base, FlatMap(ModifiedLines, ms[..i]), ModifiedLines(ms[i]));
      }
      assert ms[..|ms|] == ms;
      AppendAssoc(old(b.lines), SectionHeader(ModifiedName()), FlatMap(ModifiedLines, ms));
    }
  }

  method RenderRemoved(b: Builder, rs: seq<RemovedRequirement>)
    requires b.Valid()
    modifies b
    ensures b.Valid() && b.lines == old(b.lines) + Blocks(RemovedName(), RemovedLines, rs)
  {
    hide Unlines, RequirementLines, SectionHeader, RemovedName;
    if |rs| > 0 {
      WriteSection(b, RemovedName());
      ghost var base := b.lines;
      for i := 0 to |rs|
        invariant b.Valid()
        invariant b.lines == base + FlatMap(RemovedLines, rs[..i])
      {
        RenderRequirement(b, Bare(rs[i].name), "", rs[i].rationale);
        FlatMapSnoc(RemovedLines, rs, i);
        AppendAssoc(base, FlatMap(RemovedLines, rs[..i]), RemovedLines(rs[i]));
      }
      assert rs[..|rs|] == rs;
      AppendAssoc(old(b.lines), SectionHeader(RemovedName()), FlatMap(RemovedLines, rs));
    }
  }

  method RenderDelta(d: Delta) returns (md: string)
    ensures md == DeltaText(d)
  {
    hide Unlines, TitleLine, Blocks, AddedName, ModifiedName, RemovedName;
    var b := new Builder();
    b.Line(TitleLine(d.title));
    assert b.lines == [TitleLine(d.title)];
    RenderAdded(b, d.added);
    RenderModified(b, d.modified);
    RenderRemoved(b, d.removed);
    md := b.text;
  }
}
