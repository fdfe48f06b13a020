/** parse(render(s)) == s on every well-formed capability document. */
module SpecRoundTrip {
  import opened Seqs
  import opened Text
  import opened OpenSpecModel
  import opened Lexer
  import opened Rules
  import opened SpecParser
  import opened SpecRenderer
  import opened RequirementLexing

  function WithSteps(st: State, steps: seq<Step>): State
    requires st.scen.Some?
  {
    st.(scen := Some(st.scen.value.(steps := st.scen.value.steps + steps)))
  }

  lemma RunStep(st: State, step: Step)
    requires st.scen.Some? && WellFormedStep(step)
    ensures StepToken(st, BulletToken(step)) == WithSteps(st, [step])
  {
    hide StepLine, ParseStep, IsBullet, BulletBody, Trim, Join, SectionOf, WellFormedStep;
    LexStep(step);
  }

  lemma {:induction false} RunSteps(st: State, steps: seq<Step>)
    requires st.scen.Some? && WellFormedSteps(steps)
    ensures Run(st, Map(BulletToken, steps)) == WithSteps(st, steps)
    decreases |steps|
  {
    hide WellFormedStep, StepToken, StepLine;
    if steps == [] {
      assert st.scen.value.steps + steps == st.scen.value.steps;
    } else {
      RunStep(st, steps[0]);
      FoldCons(StepToken, st, BulletToken(steps[0]), Map(BulletToken, steps[1..]));
      RunSteps(WithSteps(st, [steps[0]]), steps[1..]);
      AppendAssoc(st.scen.value.steps, [steps[0]], steps[1..]);
      assert [steps[0]] + steps[1..] == steps;
    }
  }

  lemma {:induction false} RunStatement(st: State, ls: seq<string>)
    requires st.cur.Some? && st.scen.None? && !st.section.PurposeSection?
    ensures Run(st, Map(ProseToken, ls)) == st.(stmtLines := st.stmtLines + ls)
    decreases |ls|
  {
    hide IsBullet, SectionOf, FlushRequirement, FlushScenario;
    if ls != [] {
      RunStatement(StepToken(st, ProseToken(ls[0])), ls[1..]);
      AppendAssoc(st.stmtLines, [ls[0]], ls[1..]);
      assert [ls[0]] + ls[1..] == ls;
    }
  }

  lemma {:induction false} RunPurpose(st: State, ls: seq<string>)
    requires st.scen.None? && st.section.PurposeSection?
    ensures Run(st, Map(ProseToken, ls)) == st.(purposeLines := st.purposeLines + ls)
    decreases |ls|
  {
    hide IsBullet, SectionOf, FlushRequirement, FlushScenario;
    if ls != [] {
      RunPurpose(StepToken(st, ProseToken(ls[0])), ls[1..]);
      AppendAssoc(st.purposeLines, [ls[0]], ls[1..]);
      assert [ls[0]] + ls[1..] == ls;
    }
  }

  lemma RunScenario(st: State, sc: Scenario)
    requires st.cur.Some? && WellFormedScenario(sc)
    ensures Run(st, ScenarioTokens(sc)) == FlushScenario(st).(scen := Some(sc))
  {
    hide Fold, Map, FlushRequirement, SectionOf, StepProse, WellFormedSteps;
    var head := [Other(Blank), ScenarioHead(sc.name)];
    FoldTwo(StepToken, st, head[0], head[1]);
    FoldConcat(StepToken, st, head, Map(BulletToken, sc.steps));
    RunSteps(FlushScenario(st).(scen := Some(Scenario(sc.name, []))), sc.steps);
    assert [] + sc.steps == sc.steps;
  }

  function WithScenarios(st: State, scs: seq<Scenario>): State
    requires st.cur.Some?
  {
    st.(cur := Some(st.cur.value.(scenarios := st.cur.value.scenarios + scs)))
  }

  lemma {:induction false} RunScenarios(st: State, scs: seq<Scenario>)
    requires st.cur.Some? && WellFormedScenarios(scs)
    ensures FlushScenario(Run(st, FlatMap(ScenarioTokens, scs))) == WithScenarios(FlushScenario(st), scs)
    decreases |scs|
  {
    hide StepToken, ScenarioTokens, WellFormedScenario;
    if scs == [] {
      assert FlushScenario(st).cur.value.scenarios + [] == FlushScenario(st).cur.value.scenarios;
    } else {
      FoldConcat(StepToken, st, ScenarioTokens(scs[0]), FlatMap(ScenarioTokens, scs[1..]));
      RunScenario(st, scs[0]);
      RunScenarios(FlushScenario(st).(scen := Some(scs[0])), scs[1..]);
      AppendAssoc(FlushScenario(st).cur.value.scenarios, [scs[0]], scs[1..]);
      assert [scs[0]] + scs[1..] == scs;
    }
  }

  lemma CloseStatement(r: Requirement, rendered: string)
    requires Stored(BlockLines(rendered)) && r.statement == ""
    ensures CloseRequirement(r, BlockLines(rendered)) == r.(statement := rendered)
  {
    hide Trim, Join, Lines;
    JoinOfBlock(rendered);
    StoredBlock(BlockLines(rendered));
  }

  /** The parser inside requirement `name`, with its statement read. */
  function Inside(st: State, name: string, block: seq<string>): State {
    FlushRequirement(st).(cur := Some(Requirement(name, "", [])), stmtLines := block)
  }

  lemma RunHead(st: State, name: string, block: seq<string>)
    requires !st.section.PurposeSection?
    ensures Run(st, HeaderTokens(name) + Map(ProseToken, block)) == Inside(st, name, block)
  {
    hide Fold, Map, SectionOf, StepProse, CloseRequirement;
    FoldTwo(StepToken, st, Other(Blank), RequirementHead(name));
    FoldConcat(StepToken, st, HeaderTokens(name), Map(ProseToken, block));
    RunStatement(Inside(st, name, []), block);
    assert [] + block == block;
  }

  lemma RunRequirement(st: State, r: Requirement)
    requires !st.section.PurposeSection? && WellFormedRequirement(r)
    ensures FlushRequirement(Run(st, PlainTokens(r))) == FlushRequirement(st).(reqs := FlushRequirement(st).reqs + [r])
  {
    var head := HeaderTokens(r.name) + Map(ProseToken, BlockLines(r.statement));
    PlainTokensShape(r);
    hide Fold, Map, FlatMap, StepToken, CloseRequirement, HeaderTokens, BlockLines, WellFormedScenarios, Stored,
         NoHeadings,
         PlainTokens, BlockTokens;
    RunHead(st, r.name, BlockLines(r.statement));
    FoldConcat(StepToken, st, head, FlatMap(ScenarioTokens, r.scenarios));
    RunScenarios(Inside(st, r.name, BlockLines(r.statement)), r.scenarios);
    assert [] + r.scenarios == r.scenarios;
    CloseStatement(Requirement(r.name, "", r.scenarios), r.statement);
    CloseEmpty(Requirement(r.name, "", r.scenarios));
  }

  lemma CloseEmpty(r: Requirement)
    ensures CloseRequirement(r, []) == r
  {
  }

  lemma PlainTokensShape(r: Requirement)
    requires WellFormedRequirement(r)
    ensures PlainTokens(r)
         == HeaderTokens(r.name) + Map(ProseToken, BlockLines(r.statement)) + FlatMap(ScenarioTokens, r.scenarios)
  {
    hide Map, FlatMap, HeaderTokens, BlockLines, WellFormedScenarios, Stored, NoHeadings;
    LexProse(BlockLines(r.statement));
    AppendNothing(HeaderTokens(r.name) + BlockTokens(r.statement));
  }

  lemma AppendNothing<T>(s: seq<T>)
    ensures s + [] == s
  {
  }

  lemma {:induction false} RunRequirements(st: State, rs: seq<Requirement>)
    requires !st.section.PurposeSection? && WellFormedRequirements(rs)
    ensures FlushRequirement(Run(st, FlatMap(PlainTokens, rs)))
            == FlushRequirement(st).(reqs := FlushRequirement(st).reqs + rs)
    decreases |rs|
  {
    hide StepToken, PlainTokens, WellFormedRequirement, CloseRequirement;
    if rs == [] {
      AppendNothing(FlushRequirement(st).reqs);
    } else {
      FoldConcat(StepToken, st, PlainTokens(rs[0]), FlatMap(PlainTokens, rs[1..]));
      RunRequirement(st, rs[0]);
      RunRequirements(Run(st, PlainTokens(rs[0])), rs[1..]);
      AppendAssoc(FlushRequirement(st).reqs, [rs[0]], rs[1..]);
      assert [rs[0]] + rs[1..] == rs;
    }
  }

  // --- the whole document ---

  function PurposeTokens(purpose: string): seq<Token> {
    if purpose == "" then [] else SectionTokens("Purpose") + BlockTokens(purpose)
  }

  /** What follows the title. */
  function BodyTokens(s: Spec): seq<Token> {
    PurposeTokens(s.purpose) + SectionTokens("Requirements") + FlatMap(PlainTokens, s.requirements)
  }

  lemma LexPurpose(purpose: string)
    ensures Map(Classify, ProseSection("Purpose", purpose)) == PurposeTokens(purpose)
    ensures NoBreaks(ProseSection("Purpose", purpose))
  {
    hide Classify, Map, Lines, SectionHeader, SectionTokens, NoBreaks;
    if purpose == "" {
      LexNothing();
    } else {
      LexSection("Purpose");
      MapConcat(Classify, SectionHeader("Purpose"), Lines(purpose));
      NoBreaksConcat(SectionHeader("Purpose"), Lines(purpose));
    }
  }

  lemma LexNothing()
    ensures Map(Classify, []) == [] && NoBreaks([])
  {
  }

  lemma LexSpec(s: Spec)
    requires LooseSpec(s)
    ensures Map(Classify, SpecLines(s)) == TitleTokens(s.title) + BodyTokens(s)
    ensures NoBreaks(SpecLines(s))
  {
    var purpose, heading, reqs := ProseSection("Purpose", s.purpose), SectionHeader("Requirements"),
        FlatMap(PlainLines, s.requirements);
    hide Classify, Map, FlatMap, TitleLine, ProseSection, SectionHeader, TitleTokens, PurposeTokens, SectionTokens,
         NoBreaks,
         LooseAll, BlockLines, Stored;
    LexTitle(s.title);
    LexPurpose(s.purpose);
    LexSection("Requirements");
    LexPlain(s.requirements);
    MapConcatFour(Classify, [TitleLine(s.title)], purpose, heading, reqs);
    NoBreaksConcat([TitleLine(s.title)], purpose);
    NoBreaksConcat([TitleLine(s.title)] + purpose, heading);
    NoBreaksConcat([TitleLine(s.title)] + purpose + heading, reqs);
    AppendFour(TitleTokens(s.title), PurposeTokens(s.purpose), SectionTokens("Requirements"),
               FlatMap(PlainTokens, s.requirements), []);
    AppendNothing(TitleTokens(s.title) + PurposeTokens(s.purpose) + SectionTokens("Requirements")
                  + FlatMap(PlainTokens, s.requirements));
    AppendNothing(BodyTokens(s));
  }

  lemma SectionNames()
    ensures SectionOf("Purpose") == PurposeSection
    ensures SectionOf("Requirements") == RequirementsSection
  {
    assert ToLower("Purpose") == "purpose";
    assert ToLower("Requirements") == "requirements";
    assert "requirements"[0] != "purpose"[0];
  }

  lemma RunTitle(title: string)
    ensures Run(INIT, TitleTokens(title)) == INIT.(title := title)
  {
    hide SectionOf, FlushRequirement;
    FoldOne(StepToken, INIT, TitleTokens(title)[0]);
  }

  lemma RunSection(st: State, heading: string)
    requires st.cur.None? && st.scen.None? && st.stmtLines == []
    ensures Run(st, SectionTokens(heading)) == st.(section := SectionOf(heading))
  {
    hide SectionOf, StepProse;
    FoldTwo(StepToken, st, Other(Blank), Other(H2(heading)));
  }

  lemma RunPurposeBlock(st: State, purpose: string)
    requires st.cur.None? && st.scen.None? && st.purposeLines == [] && st.stmtLines == []
    requires Stored(BlockLines(purpose)) && NoHeadings(BlockLines(purpose))
    ensures var r := Run(st, PurposeTokens(purpose));
            r == st.(section := r.section, purposeLines := BlockLines(purpose))
  {
    hide Fold, Map, SectionTokens, BlockLines, StepToken, Stored, NoHeadings, SectionOf;
    if purpose == "" {
      RunNothing(st);
    } else {
      LexProse(BlockLines(purpose));
      SectionNames();
      RunSection(st, "Purpose");
      FoldConcat(StepToken, st, SectionTokens("Purpose"), BlockTokens(purpose));
      RunPurpose(st.(section := PurposeSection), BlockLines(purpose));
      assert [] + BlockLines(purpose) == BlockLines(purpose);
    }
  }

  lemma RunNothing(st: State)
    ensures Run(st, []) == st && BlockLines("") == []
  {
  }

  lemma RunBody(s: Spec)
    requires WellFormed(s)
    ensures Finish(Run(INIT.(title := s.title), BodyTokens(s))) == s.(warnings := [])
  {
    var st1 := INIT.(title := s.title);
    var st2 := Run(st1, PurposeTokens(s.purpose));
    var st3 := st2.(section := RequirementsSection);
    hide Fold, Map, FlatMap, Trim, Join, BlockLines, StepToken, SectionOf, PurposeTokens, SectionTokens,
         FlushRequirement,
         Stored, NoHeadings, WellFormedRequirements;
    RunPurposeBlock(st1, s.purpose);
    SectionNames();
    RunSection(st2, "Requirements");
    FoldConcat(StepToken, st1, PurposeTokens(s.purpose), SectionTokens("Requirements"));
    FoldConcat(StepToken, st1, PurposeTokens(s.purpose) + SectionTokens("Requirements"),
               FlatMap(PlainTokens, s.requirements));
    RunRequirements(st3, s.requirements);
    FlushClosed(st3);
    assert [] + s.requirements == s.requirements;
    JoinOfBlock(s.purpose);
    StoredBlock(BlockLines(s.purpose));
  }

  lemma FlushClosed(st: State)
    requires st.cur.None? && st.scen.None? && st.stmtLines == []
    ensures FlushRequirement(st) == st
  {
  }

  /** The blank line after the last newline changes nothing. */
  lemma RunTail(st: State, tokens: seq<Token>)
    ensures Run(st, tokens + [Other(Blank)]) == Run(st, tokens)
  {
    hide Fold, StepProse, FlushRequirement;
    FoldConcat(StepToken, st, tokens, [Other(Blank)]);
    FoldOne(StepToken, Run(st, tokens), Other(Blank));
  }

  /** Re-parsing any rendered document: the title, then the body tokens. */
  lemma Reparse(s: Spec)
    requires LooseSpec(s)
    ensures SpecOf(SpecText(s)) == Finish(Run(INIT.(title := s.title), BodyTokens(s)))
  {
    hide Map, Fold, Lines, Unlines, Classify, Finish, StepToken, SpecLines, LooseSpec, NoBreaks, TitleTokens,
         BodyTokens;
    LexSpec(s);
    LexText(SpecLines(s));
    RunTail(INIT, TitleTokens(s.title) + BodyTokens(s));
    FoldConcat(StepToken, INIT, TitleTokens(s.title), BodyTokens(s));
    RunTitle(s.title);
  }

  lemma WellFormedIsLoose(s: Spec)
    requires WellFormed(s)
    ensures LooseSpec(s)
  {
    hide BlockLines, NoHeadings, Stored, WellFormedScenarios;
  }

  /** parse(render(s)) == s for every well-formed document; warnings are diagnostic only. */
  lemma RoundTrip(s: Spec)
    requires WellFormed(s)
    ensures SpecOf(SpecText(s)) == s.(warnings := [])
  {
    hide *;
    WellFormedIsLoose(s);
    Reparse(s);
    RunBody(s);
  }
}
