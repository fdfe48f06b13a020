/** The tokens that rendered requirement blocks become, shared by specs and deltas. */
module RequirementLexing {
  import opened Seqs
  import opened Text
  import opened OpenSpecModel
  import opened Lexer
  import opened Rules
  import opened SpecRenderer

  function ProseToken(l: string): Token {
    Other(Prose(l))
  }

  function BulletToken(st: Step): Token {
    Other(Prose(StepLine(st)))
  }

  function ScenarioTokens(sc: Scenario): seq<Token> {
    [Other(Blank), ScenarioHead(sc.name)] + Map(BulletToken, sc.steps)
  }

  function AnnotationTokens(opening: string, value: string): seq<Token> {
    if value == "" then [] else [Other(Prose(AnnotationLine(opening, value)))]
  }

  /** The tokens of a statement: prose, except where a line reads as a heading. */
  function BlockTokens(block: string): seq<Token> {
    Map(Classify, BlockLines(block))
  }

  function HeaderTokens(name: string): seq<Token> {
    [Other(Blank), RequirementHead(name)]
  }

  function RequirementTokens(r: Requirement, previously: string, rationale: string): seq<Token> {
    HeaderTokens(r.name) + BlockTokens(r.statement)
    + AnnotationTokens(PreviouslyOpening(), previously) + AnnotationTokens(RationaleOpening(), rationale)
    + FlatMap(ScenarioTokens, r.scenarios)
  }

  function PlainTokens(r: Requirement): seq<Token> {
    RequirementTokens(r, "", "")
  }

  function TitleTokens(title: string): seq<Token> {
    [if title == "" then Other(Prose("#")) else Other(H1(title))]
  }

  function SectionTokens(heading: string): seq<Token> {
    [Other(Blank), Other(H2(heading))]
  }

  lemma LexStep(st: Step)
    requires WellFormedStep(st)
    ensures Classify(StepLine(st)) == BulletToken(st)
    ensures BulletBody(StepLine(st)) == Some(StepText(st)) && ParseStep(StepText(st)) == st
    ensures '\n' !in StepLine(st)
    ensures StepLine(st) != "" && StepLine(st)[0] == '-'
  {
    ParseStepText(st);
    hide StepText, ParseStep, BulletLine, BulletBody, Classify, IsHeading;
    ReadBulletLine(StepText(st));
    ClassifyStored(StepLine(st));
  }

  lemma LexProse(ls: seq<string>)
    requires Stored(ls) && NoHeadings(ls)
    ensures Map(Classify, ls) == Map(ProseToken, ls)
  {
    hide Classify, IsHeading;
    forall i | 0 <= i < |ls|
      ensures Classify(ls[i]) == ProseToken(ls[i])
    {
      ClassifyStored(ls[i]);
    }
  }

  lemma LexSteps(steps: seq<Step>)
    requires WellFormedSteps(steps)
    ensures Map(Classify, Map(StepLine, steps)) == Map(BulletToken, steps)
    ensures NoBreaks(Map(StepLine, steps))
  {
    hide Classify, WellFormedStep, StepLine;
    forall i | 0 <= i < |steps|
      ensures Classify(StepLine(steps[i])) == BulletToken(steps[i]) && '\n' !in StepLine(steps[i])
    {
      LexStep(steps[i]);
    }
  }

  /** A blank line and one more. */
  lemma LexPair(l: string, t: Token)
    requires Classify(l) == t && '\n' !in l
    ensures Map(Classify, ["", l]) == [Other(Blank), t]
    ensures NoBreaks(["", l])
  {
    hide Classify;
    ClassifyBlank();
    MapTwo(Classify, "", l);
  }

  lemma LexScenarioHeader(name: string)
    requires OneLine(name)
    ensures Map(Classify, ScenarioHeader(name)) == [Other(Blank), ScenarioHead(name)]
    ensures NoBreaks(ScenarioHeader(name))
  {
    hide Classify, ScenarioLine, RequirementLine, SectionLine, TitleLine, DecisionLine, Map;
    NoBreakLines(name);
    ClassifyScenario(name);
    LexPair(ScenarioLine(name), ScenarioHead(name));
  }

  lemma LexScenario(sc: Scenario)
    requires WellFormedScenario(sc)
    ensures Map(Classify, ScenarioLines(sc)) == ScenarioTokens(sc)
    ensures NoBreaks(ScenarioLines(sc))
  {
    hide Classify, ScenarioHeader, Map, WellFormedSteps, NoBreaks;
    LexScenarioHeader(sc.name);
    LexSteps(sc.steps);
    MapConcat(Classify, ScenarioHeader(sc.name), Map(StepLine, sc.steps));
    NoBreaksConcat(ScenarioHeader(sc.name), Map(StepLine, sc.steps));
  }

  lemma {:induction false} LexScenarios(scs: seq<Scenario>)
    requires WellFormedScenarios(scs)
    ensures Map(Classify, FlatMap(ScenarioLines, scs)) == FlatMap(ScenarioTokens, scs)
    ensures NoBreaks(FlatMap(ScenarioLines, scs))
  {
    if scs != [] {
      hide Classify, ScenarioLines, ScenarioTokens, WellFormedScenario, NoBreaks, Map;
      LexScenario(scs[0]);
      LexScenarios(scs[1..]);
      MapConcat(Classify, ScenarioLines(scs[0]), FlatMap(ScenarioLines, scs[1..]));
      NoBreaksConcat(ScenarioLines(scs[0]), FlatMap(ScenarioLines, scs[1..]));
    }
  }

  lemma LexRequirementHeader(name: string)
    requires OneLine(name)
    ensures Map(Classify, RequirementHeader(name)) == HeaderTokens(name)
    ensures NoBreaks(RequirementHeader(name))
  {
    hide Classify, ScenarioLine, RequirementLine, SectionLine, TitleLine, DecisionLine, Map;
    NoBreakLines(name);
    ClassifyRequirement(name);
    LexPair(RequirementLine(name), RequirementHead(name));
  }

  predicate IsOpening(opening: string) {
    opening == PreviouslyOpening() || opening == RationaleOpening()
  }

  lemma AnnotationShape(opening: string, value: string)
    requires IsOpening(opening) && OneLine(value)
    ensures var l := AnnotationLine(opening, value);
            OneLine(l) && l != "" && l[0] == '('
  {
    var l := AnnotationLine(opening, value);
    assert l[0] == '(' && l[|l| - 1] == ')';
  }

  lemma LexAnnotation(opening: string, value: string)
    requires IsOpening(opening) && OneLine(value)
    ensures Map(Classify, AnnotationLines(opening, value)) == AnnotationTokens(opening, value)
    ensures NoBreaks(AnnotationLines(opening, value))
  {
    if value != "" {
      hide Classify, AnnotationLine, IsHeading, IsOpening;
      var l := AnnotationLine(opening, value);
      AnnotationShape(opening, value);
      NotHash(l);
      ClassifyStored(l);
      MapOne(Classify, l);
    }
  }

  lemma LexRequirement(r: Requirement, previously: string, rationale: string)
    requires Loose(r) && OneLine(previously) && OneLine(rationale)
    ensures Map(Classify, RequirementLines(r, previously, rationale)) == RequirementTokens(r, previously, rationale)
    ensures NoBreaks(RequirementLines(r, previously, rationale))
  {
    var header, block := RequirementHeader(r.name), BlockLines(r.statement);
    var prev := AnnotationLines(PreviouslyOpening(), previously);
    var rat := AnnotationLines(RationaleOpening(), rationale);
    var body := FlatMap(ScenarioLines, r.scenarios);
    assert IsOpening(PreviouslyOpening()) && IsOpening(RationaleOpening());
    hide Classify, Map, FlatMap, RequirementHeader, BlockLines, AnnotationLines, AnnotationTokens, HeaderTokens,
         NoBreaks,
         PreviouslyOpening, RationaleOpening, OneLine, WellFormedScenarios, Stored, IsOpening;
    LexRequirementHeader(r.name);
    LexAnnotation(PreviouslyOpening(), previously);
    LexAnnotation(RationaleOpening(), rationale);
    LexScenarios(r.scenarios);
    MapConcatFour(Classify, header, block, prev, rat);
    MapConcat(Classify, header + block + prev + rat, body);
    NoBreaksConcat(header, block);
    NoBreaksConcat(header + block, prev);
    NoBreaksConcat(header + block + prev, rat);
    NoBreaksConcat(header + block + prev + rat, body);
  }

  lemma {:induction false} LexPlain(rs: seq<Requirement>)
    requires LooseAll(rs)
    ensures Map(Classify, FlatMap(PlainLines, rs)) == FlatMap(PlainTokens, rs)
    ensures NoBreaks(FlatMap(PlainLines, rs))
  {
    if rs == [] {
      assert Map(Classify, FlatMap(PlainLines, rs)) == [];
    } else {
      hide Classify, RequirementLines, RequirementTokens, Loose, NoBreaks, Map;
      LexRequirement(rs[0], "", "");
      LexPlain(rs[1..]);
      MapConcat(Classify, PlainLines(rs[0]), FlatMap(PlainLines, rs[1..]));
      NoBreaksConcat(PlainLines(rs[0]), FlatMap(PlainLines, rs[1..]));
    }
  }

  lemma LexTitle(title: string)
    requires OneLine(title)
    ensures Map(Classify, [TitleLine(title)]) == TitleTokens(title)
    ensures NoBreaks([TitleLine(title)])
  {
    hide Classify, ScenarioLine, RequirementLine, SectionLine, TitleLine, DecisionLine, Map;
    NoBreakLines(title);
    MapOne(Classify, TitleLine(title));
    if title == "" {
      ClassifyEmptyTitle();
    } else {
      ClassifyTitle(title);
    }
  }

  lemma LexSection(heading: string)
    requires heading != "" && OneLine(heading)
    ensures Map(Classify, SectionHeader(heading)) == SectionTokens(heading)
    ensures NoBreaks(SectionHeader(heading))
  {
    hide Classify, ScenarioLine, RequirementLine, SectionLine, TitleLine, DecisionLine, Map;
    NoBreakLines(heading);
    ClassifySection(heading);
    LexPair(SectionLine(heading), Other(H2(heading)));
  }

  /** Lexing a rendered document gives the lines of the model and the blank after the last newline. */
  lemma LexText(ls: seq<string>)
    requires NoBreaks(ls)
    ensures Map(Classify, Lines(Unlines(ls))) == Map(Classify, ls) + [Other(Blank)]
  {
    hide Classify, NoBreaks;
    LinesOfText(ls);
    ClassifyBlank();
    MapConcat(Classify, ls, [""]);
    MapOne(Classify, "");
  }

  // --- how many prose lines the tokens hold ---

  function ProseBit(t: Token): nat {
    if t.Other? && t.top.Prose? then 1 else 0
  }

  lemma {:induction false} BlockCount(ls: seq<string>)
    requires Stored(ls)
    ensures Sum(ProseBit, Map(Classify, ls)) + Headings(ls) == |ls|
  {
    hide Classify, IsHeading, ProseBit, HeadingBit;
    if ls != [] {
      BlockCount(ls[1..]);
      LineCount(ls[0]);
      assert Map(Classify, ls) == [Classify(ls[0])] + Map(Classify, ls[1..]);
    }
  }

  lemma LineCount(l: string)
    requires l != "" && OneLine(l)
    ensures ProseBit(Classify(l)) + HeadingBit(l) == 1
  {
    hide Trim, TrimCut, ScenarioMark, RequirementMark, SectionMark, TitleMark;
    TrimCutId(l);
    TrimId(l);
  }

  lemma {:induction false} ScenariosCount(scs: seq<Scenario>)
    ensures Sum(ProseBit, FlatMap(ScenarioTokens, scs)) == Sum(ScenarioWeight, scs)
  {
    if scs != [] {
      ScenariosCount(scs[1..]);
      ScenarioCount(scs[0]);
      hide ScenarioTokens, ScenarioWeight, ProseBit;
      SumConcat(ProseBit, ScenarioTokens(scs[0]), FlatMap(ScenarioTokens, scs[1..]));
    }
  }

  lemma ScenarioCount(sc: Scenario)
    ensures Sum(ProseBit, ScenarioTokens(sc)) == |sc.steps|
  {
    SumTwo(ProseBit, Other(Blank), ScenarioHead(sc.name));
    StepsCount(sc.steps);
    assert ProseBit(Other(Blank)) == 0 && ProseBit(ScenarioHead(sc.name)) == 0;
    hide Map, ProseBit;
    SumConcat(ProseBit, [Other(Blank), ScenarioHead(sc.name)], Map(BulletToken, sc.steps));
  }

  lemma {:induction false} StepsCount(steps: seq<Step>)
    ensures Sum(ProseBit, Map(BulletToken, steps)) == |steps|
  {
    if steps != [] {
      hide StepLine;
      StepsCount(steps[1..]);
      assert Map(BulletToken, steps)[1..] == Map(BulletToken, steps[1..]);
    }
  }

  function AnnotationBit(value: string): nat {
    if value == "" then 0 else 1
  }

  lemma RequirementCount(r: Requirement, previously: string, rationale: string)
    requires Loose(r)
    ensures Sum(ProseBit, RequirementTokens(r, previously, rationale)) + Strays(r)
         == Weight(r) + AnnotationBit(previously) + AnnotationBit(rationale)
  {
    var header, block := HeaderTokens(r.name), BlockTokens(r.statement);
    var prev := AnnotationTokens(PreviouslyOpening(), previously);
    var rat := AnnotationTokens(RationaleOpening(), rationale);
    assert Sum(ProseBit, prev) == AnnotationBit(previously);
    assert Sum(ProseBit, rat) == AnnotationBit(rationale);
    SumTwo(ProseBit, Other(Blank), RequirementHead(r.name));
    hide PreviouslyOpening, RationaleOpening, AnnotationTokens, Map, FlatMap, BlockLines, Headings, Stored, OneLine;
    BlockCount(BlockLines(r.statement));
    ScenariosCount(r.scenarios);
    SumConcat(ProseBit, header, block);
    SumConcat(ProseBit, header + block, prev);
    SumConcat(ProseBit, header + block + prev, rat);
    SumConcat(ProseBit, header + block + prev + rat, FlatMap(ScenarioTokens, r.scenarios));
  }

  lemma {:induction false} PlainCount(rs: seq<Requirement>)
    requires LooseAll(rs)
    ensures Sum(ProseBit, FlatMap(PlainTokens, rs)) + Sum(Strays, rs) == Sum(Weight, rs)
  {
    if rs != [] {
      PlainCount(rs[1..]);
      RequirementCount(rs[0], "", "");
      hide RequirementTokens, Strays, Weight, ProseBit, Loose;
      SumConcat(ProseBit, PlainTokens(rs[0]), FlatMap(PlainTokens, rs[1..]));
    }
  }

  // --- tokens of lines without line breaks ---

  /** The tokens of lines that hold no line break. */
  predicate TokenOk(t: Token) {
    match t
    case ScenarioHead(name) => OneLine(name)
    case RequirementHead(name) => OneLine(name)
    case Other(H2(heading)) => OneLine(heading)
    case Other(H1(title)) => OneLine(title)
    case Other(Blank) => true
    case Other(Prose(text)) => text != "" && OneLine(text)
  }

  predicate TokensOk(ts: seq<Token>) {
    forall i :: 0 <= i < |ts| ==> TokenOk(ts[i])
  }

  lemma ClassifyOk(raw: string)
    requires '\n' !in raw
    ensures TokenOk(Classify(raw))
  {
    hide Trim, TrimCut, ScenarioMark, RequirementMark, SectionMark, TitleMark;
  }

  lemma TokensOfLines(ls: seq<string>)
    requires NoBreaks(ls)
    ensures TokensOk(Map(Classify, ls))
  {
    hide Classify, TokenOk;
    forall i | 0 <= i < |ls|
      ensures TokenOk(Classify(ls[i]))
    {
      ClassifyOk(ls[i]);
    }
  }

  lemma TokensOkConcat(a: seq<Token>, b: seq<Token>)
    requires TokensOk(a) && TokensOk(b)
    ensures TokensOk(a + b)
  {
    hide TokenOk;
  }

  lemma SectionCount(heading: string)
    requires OneLine(heading)
    ensures Sum(ProseBit, SectionTokens(heading)) == 0 && TokensOk(SectionTokens(heading))
  {
    SumTwo(ProseBit, Other(Blank), Other(H2(heading)));
  }

  // --- facts both stability proofs use ---

  lemma NoStatement()
    ensures Headings([]) == 0 && Stored([])
  {
  }

  lemma StoredSnoc(ls: seq<string>, l: string)
    requires Stored(ls) && l != "" && OneLine(l)
    ensures Stored(ls + [l])
    ensures Headings(ls + [l]) == Headings(ls) + HeadingBit(l)
  {
    hide IsHeading, OneLine;
    SumSnoc(HeadingBit, ls, l);
  }

  lemma BulletIsNoHeading(t: string)
    requires IsBullet(t)
    ensures !IsHeading(t)
  {
    hide IsHeading;
    assert t[0] == '-' || t[0] == '*' || t[0] == '+';
    NotHash(t);
  }

  lemma ScenarioSnoc(sc: Scenario, step: Step)
    requires WellFormedScenario(sc) && WellFormedStep(step)
    ensures WellFormedScenario(sc.(steps := sc.steps + [step]))
  {
    hide WellFormedStep, OneLine;
  }

  /** No line reads as a heading only after its indentation is removed. */
  predicate NoIndentedHeading(md: string) {
    forall i :: 0 <= i < |Lines(md)| ==>
      (IsHeading(Trim(TrimCut(Lines(md)[i]))) ==> IsHeading(TrimCut(Lines(md)[i])))
  }

  lemma ProseIsNoHeading(raw: string)
    requires Classify(raw).Other? && Classify(raw).top.Prose?
    ensures !IsHeading(TrimCut(raw)) && Classify(raw).top.text == Trim(TrimCut(raw))
  {
    hide Trim, TrimCut, ScenarioMark, RequirementMark, SectionMark, TitleMark;
  }
}
