/** RenderSpec and RenderDelta: the lines a canonical document consists of, and the
    builder-driven printers that write exactly those lines. */
module SpecRenderer {
  import opened Seqs
  import opened Text
  import opened OpenSpecModel
  import opened Lexer

  /** strings.Builder, with the lines written so far. */
  class Builder {
    var text: string
    ghost var lines: seq<string>

    ghost predicate Valid()
      reads this
    {
      text == Unlines(lines)
    }

    constructor ()
      ensures Valid() && lines == []
    {
      text, lines := "", [];
    }

    /** A string without line breaks and the newline after it. */
    method Line(s: string)
      requires Valid()
      modifies this
      ensures Valid() && lines == old(lines) + [s]
    {
      hide Unlines;
      UnlinesConcat(lines, [s]);
      UnlinesOne(s);
      AppendAssoc(text, s, "\n");
      text := text + s + "\n";
      lines := lines + [s];
    }

    /** A block of text that may span several lines, and the newline after it. */
    method Block(s: string)
      requires Valid()
      modifies this
      ensures Valid() && lines == old(lines) + Lines(s)
    {
      hide Unlines, Lines;
      UnlinesConcat(lines, Lines(s));
      UnlinesLines(s);
      AppendAssoc(text, s, "\n");
      text := text + s + "\n";
      lines := lines + Lines(s);
    }
  }

  function StepLine(st: Step): string {
    BulletLine(StepText(st))
  }

  function ScenarioHeader(name: string): seq<string> {
    ["", ScenarioLine(name)]
  }

  function ScenarioLines(sc: Scenario): seq<string> {
    ScenarioHeader(sc.name) + Map(StepLine, sc.steps)
  }

  function AnnotationLine(opening: string, value: string): string {
    opening + value + ")"
  }

  function AnnotationLines(opening: string, value: string): seq<string> {
    if value == "" then [] else [AnnotationLine(opening, value)]
  }

  function PreviouslyOpening(): string { "(Previously: " }

  function RationaleOpening(): string { "(Rationale: " }

  function RequirementHeader(name: string): seq<string> {
    ["", RequirementLine(name)]
  }

  function RequirementLines(r: Requirement, previously: string, rationale: string): seq<string> {
    RequirementHeader(r.name) + BlockLines(r.statement)
    + AnnotationLines(PreviouslyOpening(), previously) + AnnotationLines(RationaleOpening(), rationale)
    + FlatMap(ScenarioLines, r.scenarios)
  }

  /** A requirement without annotations, as a spec and an ADDED section carry it. */
  function PlainLines(r: Requirement): seq<string> {
    RequirementLines(r, "", "")
  }

  function SectionHeader(heading: string): seq<string> {
    ["", SectionLine(heading)]
  }

  /** A section of prose; an empty one is left out. */
  function ProseSection(heading: string, prose: string): seq<string> {
    if prose == "" then [] else SectionHeader(heading) + Lines(prose)
  }

  function SpecLines(s: Spec): seq<string> {
    [TitleLine(s.title)] + ProseSection("Purpose", s.purpose) + SectionHeader("Requirements")
    + FlatMap(PlainLines, s.requirements)
  }

  /** The text of a canonical document. */
  function SpecText(s: Spec): string {
    Unlines(SpecLines(s))
  }

  method RenderStep(b: Builder, st: Step)
    requires b.Valid()
    modifies b
    ensures b.Valid() && b.lines == old(b.lines) + [StepLine(st)]
  {
    hide Unlines;
    var line := st.keyword;
    if st.keyword != "" {
      if st.text != "" {
        line := line + " " + st.text;
      }
    } else {
      line := st.text;
    }
    b.Line("- " + line);
  }

  method RenderScenario(b: Builder, sc: Scenario)
    requires b.Valid()
    modifies b
    ensures b.Valid() && b.lines == old(b.lines) + ScenarioLines(sc)
  {
    hide Unlines, StepLine, ScenarioLine;
    b.Line("");
    b.Line(ScenarioLine(sc.name));
    assert b.lines == old(b.lines) + ScenarioHeader(sc.name);
    ghost var base := b.lines;
    for i := 0 to |sc.steps|
      invariant b.Valid()
      invariant b.lines == base + Map(StepLine, sc.steps[..i])
    {
      RenderStep(b, sc.steps[i]);
      MapSnoc(StepLine, sc.steps, i);
      AppendAssoc(base, Map(StepLine, sc.steps[..i]), [StepLine(sc.steps[i])]);
    }
    assert sc.steps[..|sc.steps|] == sc.steps;
    AppendAssoc(old(b.lines), ScenarioHeader(sc.name), Map(StepLine, sc.steps));
  }

  method RenderAnnotation(b: Builder, opening: string, value: string)
    requires b.Valid()
    modifies b
    ensures b.Valid() && b.lines == old(b.lines) + AnnotationLines(opening, value)
  {
    hide Unlines, AnnotationLine;
    if value != "" {
      b.Line(AnnotationLine(opening, value));
    }
  }

  method RenderHead(b: Builder, r: Requirement)
    requires b.Valid()
    modifies b
    ensures b.Valid() && b.lines == old(b.lines) + (RequirementHeader(r.name) + BlockLines(r.statement))
  {
    hide Unlines, Lines, RequirementLine;
    b.Line("");
    b.Line(RequirementLine(r.name));
    if r.statement != "" {
      b.Block(r.statement);
    }
  }

  method RenderRequirement(b: Builder, r: Requirement, previously: string, rationale: string)
    requires b.Valid()
    modifies b
    ensures b.Valid() && b.lines == old(b.lines) + RequirementLines(r, previously, rationale)
  {
    ghost var prev := AnnotationLines(PreviouslyOpening(), previously);
    ghost var rat := AnnotationLines(RationaleOpening(), rationale);
    hide Unlines, Lines, BlockLines, RequirementHeader, AnnotationLines, ScenarioLines, PreviouslyOpening,
         RationaleOpening;
    RenderHead(b, r);
    RenderAnnotation(b, PreviouslyOpening(), previously);
    RenderAnnotation(b, RationaleOpening(), rationale);
    ghost var base := b.lines;
    for i := 0 to |r.scenarios|
      invariant b.Valid()
      invariant b.lines == base + FlatMap(ScenarioLines, r.scenarios[..i])
    {
      RenderScenario(b, r.scenarios[i]);
      FlatMapSnoc(ScenarioLines, r.scenarios, i);
      AppendAssoc(base, FlatMap(ScenarioLines, r.scenarios[..i]), ScenarioLines(r.scenarios[i]));
    }
    assert r.scenarios[..|r.scenarios|] == r.scenarios;
    AppendFour(old(b.lines), RequirementHeader(r.name) + BlockLines(r.statement), prev, rat,
               FlatMap(ScenarioLines, r.scenarios));
  }

  lemma PlainSnoc(base: seq<string>, rs: seq<Requirement>, i: nat)
    requires i < |rs|
    ensures base + FlatMap(PlainLines, rs[..i]) + RequirementLines(rs[i], "", "")
            == base + FlatMap(PlainLines, rs[..i + 1])
  {
    assert PlainLines(rs[i]) == RequirementLines(rs[i], "", "");
    hide PlainLines, RequirementLines;
    FlatMapSnoc(PlainLines, rs, i);
    AppendAssoc(base, FlatMap(PlainLines, rs[..i]), PlainLines(rs[i]));
  }

  method RenderPlain(b: Builder, rs: seq<Requirement>)
    requires b.Valid()
    modifies b
    ensures b.Valid() && b.lines == old(b.lines) + FlatMap(PlainLines, rs)
  {
    hide Unlines, PlainLines, RequirementLines;
    for i := 0 to |rs|
      invariant b.Valid()
      invariant b.lines == old(b.lines) + FlatMap(PlainLines, rs[..i])
    {
      RenderRequirement(b, rs[i], "", "");
      PlainSnoc(old(b.lines), rs, i);
    }
    assert rs[..|rs|] == rs;
  }

  method RenderProse(b: Builder, heading: string, prose: string)
    requires b.Valid()
    modifies b
    ensures b.Valid() && b.lines == old(b.lines) + ProseSection(heading, prose)
  {
    hide Unlines, Lines, SectionLine;
    if prose != "" {
      b.Line("");
      b.Line(SectionLine(heading));
      b.Block(prose);
    }
  }

  method RenderSpec(s: Spec) returns (md: string)
    ensures md == SpecText(s)
  {
    hide Unlines, PlainLines, TitleLine, SectionLine, ProseSection;
    var b := new Builder();
    b.Line(TitleLine(s.title));
    RenderProse(b, "Purpose", s.purpose);
    b.Line("");
    b.Line(SectionLine("Requirements"));
    assert b.lines == [TitleLine(s.title)] + ProseSection("Purpose", s.purpose) + SectionHeader("Requirements");
    RenderPlain(b, s.requirements);
    md := b.text;
  }
}
