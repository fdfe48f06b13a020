/** When is parse(render(parse(x))) == parse(x)?  Exactly when no line that the parser
    stored as prose reads as a heading once its indentation is gone. */
module SpecStability {
  import opened Seqs
  import opened Text
  import opened OpenSpecModel
  import opened Lexer
  import opened Rules
  import opened SpecParser
  import opened SpecRenderer
  import opened RequirementLexing
  import opened SpecRoundTrip

  // --- what every run of the parser keeps ---

  predicate StateOk(st: State) {
    && OneLine(st.title) && Stored(st.purposeLines) && Stored(st.stmtLines) && LooseAll(st.reqs)
    && (st.cur.Some? ==> st.cur.value.statement == "" && OneLine(st.cur.value.name)
                         && WellFormedScenarios(st.cur.value.scenarios))
    && (st.cur.None? ==> st.scen.None? && st.stmtLines == [])
    && (st.scen.Some? ==> WellFormedScenario(st.scen.value))
  }

  /** Prose lines and bullets held so far. */
  function StateWeight(st: State): nat {
    |st.purposeLines| + |st.stmtLines| + Sum(Weight, st.reqs)
    + (if st.cur.Some? then Sum(ScenarioWeight, st.cur.value.scenarios) else 0)
    + (if st.scen.Some? then |st.scen.value.steps| else 0)
  }

  /** Stored prose lines that read as headings. */
  function StateStrays(st: State): nat {
    Headings(st.purposeLines) + Headings(st.stmtLines) + Sum(Strays, st.reqs)
  }

  /** The parser is about to store a prose line that reads as a heading: the line was
      indented, so it was no heading, and prose is kept without its indentation. */
  predicate StoresHeading(st: State, t: Token) {
    t.Other? && t.top.Prose? && IsHeading(t.top.text)
    && (st.section.PurposeSection? || (st.cur.Some? && st.scen.None?))
  }

  function StrayBit(st: State, t: Token): nat {
    if StoresHeading(st, t) then 1 else 0
  }

  lemma FlushScenarioOk(st: State)
    requires StateOk(st)
    ensures StateOk(FlushScenario(st)) && FlushScenario(st).scen.None?
    ensures StateWeight(FlushScenario(st)) == StateWeight(st) && StateStrays(FlushScenario(st)) == StateStrays(st)
  {
    hide WellFormedScenario, Stored, LooseAll, OneLine, Sum, Headings;
    if st.scen.Some? {
      SumSnoc(ScenarioWeight, st.cur.value.scenarios, st.scen.value);
    }
  }

  lemma CloseOk(r: Requirement, stmtLines: seq<string>)
    requires r.statement == "" && OneLine(r.name) && WellFormedScenarios(r.scenarios) && Stored(stmtLines)
    ensures BlockLines(CloseRequirement(r, stmtLines).statement) == stmtLines
    ensures Loose(CloseRequirement(r, stmtLines))
    ensures Weight(CloseRequirement(r, stmtLines)) == |stmtLines| + Sum(ScenarioWeight, r.scenarios)
    ensures Strays(CloseRequirement(r, stmtLines)) == Headings(stmtLines)
  {
    hide Trim, Join, Stored, WellFormedScenarios, Lines, Sum, Headings, OneLine;
    BlockOfJoin(stmtLines);
  }

  lemma FlushRequirementOk(st: State)
    requires StateOk(st)
    ensures var r := FlushRequirement(st);
            StateOk(r) && r.cur.None? && StateWeight(r) == StateWeight(st) && StateStrays(r) == StateStrays(st)
  {
    hide WellFormedScenarios, WellFormedScenario, Stored, OneLine, Sum, Headings, CloseRequirement, FlushScenario,
         Weight, Strays, Loose;
    FlushScenarioOk(st);
    NoStatement();
    var s := FlushScenario(st);
    if s.cur.Some? {
      CloseOk(s.cur.value, s.stmtLines);
      SumSnoc(Weight, s.reqs, CloseRequirement(s.cur.value, s.stmtLines));
      SumSnoc(Strays, s.reqs, CloseRequirement(s.cur.value, s.stmtLines));
    }
  }

  lemma BulletOk(st: State, t: string)
    requires StateOk(st) && st.scen.Some? && IsBullet(t) && OneLine(t)
    ensures var r := StepProse(st, t);
            StateOk(r) && StateWeight(r) == StateWeight(st) + 1 && StateStrays(r) == StateStrays(st)
    ensures !IsHeading(t)
  {
    hide IsBullet, OneLine, ParseStep, BulletBody, WellFormedScenario, Sum, Stored, Headings, IsHeading, LooseAll,
         WellFormedScenarios;
    BulletIsNoHeading(t);
    ParseStepWellFormed(t);
    ScenarioSnoc(st.scen.value, ParseStep(BulletBody(t).value));
  }

  lemma ProseOk(st: State, t: string)
    requires StateOk(st) && t != "" && OneLine(t)
    ensures var r := StepProse(st, t);
            && StateOk(r) && StateWeight(r) <= StateWeight(st) + 1
            && StateStrays(r) == StateStrays(st) + StrayBit(st, Other(Prose(t)))
  {
    hide IsBullet, OneLine, ParseStep, BulletBody, WellFormedScenario, WellFormedScenarios, Sum, Stored, Headings,
         IsHeading, LooseAll;
    if IsBullet(t) && st.scen.Some? {
      BulletOk(st, t);
    } else {
      StoredSnoc(st.purposeLines, t);
      StoredSnoc(st.stmtLines, t);
    }
  }

  lemma OpenOk(st: State, name: string)
    requires StateOk(st) && st.cur.None? && OneLine(name)
    ensures var r := st.(cur := Some(Requirement(name, "", [])));
            StateOk(r) && StateWeight(r) == StateWeight(st) && StateStrays(r) == StateStrays(st)
  {
    hide OneLine, Stored, Headings, LooseAll;
  }

  lemma HeadOk(st: State, name: string)
    requires StateOk(st) && OneLine(name)
    ensures var r := StepToken(st, ScenarioHead(name));
            StateOk(r) && StateWeight(r) == StateWeight(st) && StateStrays(r) == StateStrays(st)
  {
    hide FlushScenario, FlushRequirement, StepProse, OneLine, Stored, Headings, LooseAll, Sum;
    FlushScenarioOk(st);
  }

  /** One token adds at most the line it is made of. */
  lemma TokenStep(st: State, t: Token)
    requires StateOk(st) && TokenOk(t)
    ensures var r := StepToken(st, t);
            && StateOk(r) && StateWeight(r) <= StateWeight(st) + ProseBit(t)
            && StateStrays(r) == StateStrays(st) + StrayBit(st, t)
  {
    hide FlushScenario, FlushRequirement, StepProse, OneLine, Stored, Headings, LooseAll, Sum, WellFormedScenario,
         WellFormedScenarios, SectionOf, IsHeading;
    match t
    case ScenarioHead(name) => HeadOk(st, name);
    case RequirementHead(name) => FlushRequirementOk(st); OpenOk(FlushRequirement(st), name);
    case Other(H2(heading)) => FlushRequirementOk(st);
    case Other(H1(title)) =>
    case Other(Blank) =>
    case Other(Prose(text)) => ProseOk(st, text);
  }

  /** How many stored lines read as headings, over a run. */
  function RunStrays(st: State, ts: seq<Token>): nat {
    CountAlong(StepToken, StrayBit, st, ts)
  }

  lemma {:induction false} RunKeeps(st: State, ts: seq<Token>)
    requires StateOk(st) && TokensOk(ts)
    ensures var r := Run(st, ts);
            && StateOk(r) && StateWeight(r) <= StateWeight(st) + Sum(ProseBit, ts)
            && StateStrays(r) == StateStrays(st) + RunStrays(st, ts)
    decreases |ts|
  {
    hide StepToken, StateOk, StateWeight, StateStrays, StrayBit, ProseBit, TokenOk;
    if ts != [] {
      TokenStep(st, ts[0]);
      RunKeeps(StepToken(st, ts[0]), ts[1..]);
    }
  }

  lemma InitOk()
    ensures StateOk(INIT) && StateWeight(INIT) == 0 && StateStrays(INIT) == 0
  {
  }

  lemma FinishCounts(st: State)
    requires StateOk(st)
    ensures LooseSpec(Finish(st)) && SpecWeight(Finish(st)) == StateWeight(st)
            && SpecStrays(Finish(st)) == StateStrays(st)
  {
    var r := FlushRequirement(st);
    assert Finish(st) == Spec(r.title, Trim(Join(r.purposeLines)), r.reqs, r.warnings);
    hide FlushRequirement, Trim, Join, BlockLines, Stored, Headings, Sum, OneLine;
    FlushRequirementOk(st);
    NoStatement();
    BlockOfJoin(r.purposeLines);
  }

  // --- the theorem ---

  /** No line of the document is stored as prose while it reads as a heading. The parser
      state at a line is fixed by the lines before it. */
  predicate NoIndentedHeadingStored(md: string) {
    var ts := Map(Classify, Lines(md));
    forall k :: 0 <= k < |ts| ==> !StoresHeading(Run(INIT, ts[..k]), ts[k])
  }

  lemma RunStraysZero(st: State, ts: seq<Token>)
    ensures RunStrays(st, ts) == 0 <==> forall k :: 0 <= k < |ts| ==> !StoresHeading(Run(st, ts[..k]), ts[k])
  {
    hide StepToken, StoresHeading, Fold, CountAlong;
    CountAlongZero(StepToken, StrayBit, st, ts);
    assert forall k :: 0 <= k < |ts| ==> (StoresHeading(Run(st, ts[..k]), ts[k])
                                          <==> StrayBit(Run(st, ts[..k]), ts[k]) != 0);
  }

  /** Parser output is well formed exactly when no indented heading was stored. */
  lemma ParsedWellFormed(md: string)
    ensures LooseSpec(SpecOf(md))
    ensures WellFormed(SpecOf(md)) <==> NoIndentedHeadingStored(md)
  {
    var ts := Map(Classify, Lines(md));
    hide Map, Lines, Classify, Fold, StepToken, Finish, StateOk, StateWeight, StateStrays, StoresHeading, RunStrays,
         LooseSpec, WellFormed, SpecStrays, SpecWeight, TokensOk;
    InitOk();
    TokensOfLines(Lines(md));
    RunKeeps(INIT, ts);
    FinishCounts(Run(INIT, ts));
    RunStraysZero(INIT, ts);
    WellFormedCount(SpecOf(md));
  }

  lemma BodyCount(s: Spec)
    requires LooseSpec(s)
    ensures Sum(ProseBit, BodyTokens(s)) + SpecStrays(s) == SpecWeight(s)
    ensures TokensOk(BodyTokens(s))
  {
    hide Map, FlatMap, Classify, BlockLines, Headings, Sum, PurposeTokens, SectionTokens, Stored, LooseAll, TokensOk,
         Weight, Strays;
    PurposeCount(s.purpose);
    PlainCount(s.requirements);
    SectionCount("Requirements");
    LexPlain(s.requirements);
    TokensOfLines(FlatMap(PlainLines, s.requirements));
    SumConcat(ProseBit, PurposeTokens(s.purpose), SectionTokens("Requirements"));
    SumConcat(ProseBit, PurposeTokens(s.purpose) + SectionTokens("Requirements"), FlatMap(PlainTokens, s.requirements));
    TokensOkConcat(PurposeTokens(s.purpose), SectionTokens("Requirements"));
    TokensOkConcat(PurposeTokens(s.purpose) + SectionTokens("Requirements"), FlatMap(PlainTokens, s.requirements));
  }

  lemma PurposeCount(purpose: string)
    requires Stored(BlockLines(purpose))
    ensures Sum(ProseBit, PurposeTokens(purpose)) + Headings(BlockLines(purpose)) == |BlockLines(purpose)|
    ensures TokensOk(PurposeTokens(purpose))
  {
    hide Map, Classify, Lines, SectionTokens, TokenOk;
    if purpose != "" {
      SectionCount("Purpose");
      BlockCount(BlockLines(purpose));
      TokensOfLines(BlockLines(purpose));
      SumConcat(ProseBit, SectionTokens("Purpose"), BlockTokens(purpose));
      TokensOkConcat(SectionTokens("Purpose"), BlockTokens(purpose));
    }
  }

  /** Re-parsing keeps at most the prose lines that do not read as headings. */
  lemma ReparseWeight(s: Spec)
    requires LooseSpec(s)
    ensures SpecWeight(SpecOf(SpecText(s))) + SpecStrays(s) <= SpecWeight(s)
  {
    var st := INIT.(title := s.title);
    assert OneLine(s.title);
    TitledInit(s.title);
    hide Fold, Finish, BodyTokens, StepToken, StateOk, StateWeight, StateStrays, TokensOk, SpecWeight, SpecStrays,
         LooseSpec,
         SpecOf, SpecText;
    Reparse(s);
    BodyCount(s);
    RunKeeps(st, BodyTokens(s));
    FinishCounts(Run(st, BodyTokens(s)));
  }

  lemma TitledInit(title: string)
    ensures OneLine(title) ==> StateOk(INIT.(title := title))
    ensures StateWeight(INIT.(title := title)) == 0
  {
  }

  /** parse(render(parse(md))) == parse(md), on every modelled field, if and only if the
      parser stored no indented heading as prose. */
  lemma StableIff(md: string)
    ensures SpecOf(SpecText(SpecOf(md))).(warnings := []) == SpecOf(md).(warnings := [])
            <==> NoIndentedHeadingStored(md)
  {
    var s := SpecOf(md);
    hide SpecOf, SpecText, NoIndentedHeadingStored, WellFormed, LooseSpec, SpecStrays;
    ParsedWellFormed(md);
    if NoIndentedHeadingStored(md) {
      RoundTrip(s);
    } else {
      WellFormedCount(s);
      ReparseWeight(s);
      assert SpecWeight(s.(warnings := [])) == SpecWeight(s);
    }
  }

  // --- the two sides, on texts ---

  /** Without indented headings the result is well formed, and stable. */
  lemma CleanTextIsStable(md: string)
    requires NoIndentedHeading(md)
    ensures WellFormed(SpecOf(md))
    ensures SpecOf(SpecText(SpecOf(md))).(warnings := []) == SpecOf(md).(warnings := [])
  {
    var ts := Map(Classify, Lines(md));
    hide Lines, Classify, Fold, StepToken, SpecOf, SpecText, WellFormed, IsHeading, Trim, TrimCut;
    forall k | 0 <= k < |ts|
      ensures !StoresHeading(Run(INIT, ts[..k]), ts[k])
    {
      if ts[k].Other? && ts[k].top.Prose? {
        ProseIsNoHeading(Lines(md)[k]);
      }
    }
    ParsedWellFormed(md);
    StableIff(md);
  }

  function IndentedSample(): seq<string> {
    [SectionLine("Requirements"), RequirementLine("A"), "  " + RequirementLine("X")]
  }

  lemma SampleNoBreaks()
    ensures NoBreaks(IndentedSample())
  {
    hide SectionLine, RequirementLine, TitleLine, ScenarioLine, DecisionLine, NoBreaks;
    NoBreakLines("Requirements");
    NoBreakLines("A");
    NoBreakLines("X");
    NoBreakMark("  ", RequirementLine("X"));
    NoBreaksThree(SectionLine("Requirements"), RequirementLine("A"), "  " + RequirementLine("X"));
  }

  lemma NoBreaksThree(a: string, b: string, c: string)
    requires '\n' !in a && '\n' !in b && '\n' !in c
    ensures NoBreaks([a, b, c])
  {
  }

  lemma SampleNames()
    ensures OneLine("Requirements") && OneLine("A") && OneLine("X")
  {
  }

  lemma SampleTokens()
    ensures Map(Classify, IndentedSample())
         == [Other(H2("Requirements")), RequirementHead("A"), Other(Prose(RequirementLine("X")))]
  {
    hide Classify, SectionLine, RequirementLine, TitleLine, ScenarioLine, DecisionLine, Map, OneLine;
    SampleNames();
    ClassifySection("Requirements");
    ClassifyRequirement("A");
    RequirementLineEnds("X");
    IndentedIsProse(RequirementLine("X"));
    MapThree(Classify, SectionLine("Requirements"), RequirementLine("A"), "  " + RequirementLine("X"));
  }

  lemma RequirementLineEnds(name: string)
    requires name != "" && OneLine(name)
    ensures RequirementLine(name) != "" && OneLine(RequirementLine(name))
  {
    var l := RequirementLine(name);
    assert l[0] == '#' && l[|l| - 1] == name[|name| - 1];
    NoBreakLines(name);
  }

  /** The stated contract does fail: a requirement heading indented inside a statement
      comes back as a requirement of its own. */
  lemma IndentedHeadingBreaksStability()
    ensures var md := Unlines(IndentedSample());
            SpecOf(SpecText(SpecOf(md))).(warnings := []) != SpecOf(md).(warnings := [])
  {
    var s := IndentedSample();
    var md := Unlines(s);
    var ts := Map(Classify, Lines(md));
    SampleNoBreaks();
    SampleTokens();
    SampleHeading();
    SampleRun();
    hide Lines, Unlines, Classify, Map, Fold, StepToken, SpecOf, SpecText, IsHeading, IndentedSample, RequirementLine,
         NoBreaks, Run;
    LexText(s);
    assert ts[..2] == [Other(H2("Requirements")), RequirementHead("A")];
    assert StoresHeading(Run(INIT, ts[..2]), ts[2]);
    assert !NoIndentedHeadingStored(md);
    StableIff(md);
  }

  lemma SampleHeading()
    ensures IsHeading(RequirementLine("X"))
  {
    RequirementLineShape("X");
  }

  lemma SampleRun()
    ensures var st := Run(INIT, [Other(H2("Requirements")), RequirementHead("A")]);
            st.cur.Some? && st.scen.None?
  {
    hide SectionOf, StepProse;
    FoldTwo(StepToken, INIT, Other(H2("Requirements")), RequirementHead("A"));
  }
}
