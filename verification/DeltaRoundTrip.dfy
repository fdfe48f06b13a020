/** parse(render(d)) == d on every well-formed delta. */
module DeltaRoundTrip {
  import opened Seqs
  import opened Text
  import opened OpenSpecModel
  import opened Lexer
  import opened Rules
  import opened SpecRenderer
  import opened RequirementLexing
  import opened DeltaParser
  import opened DeltaRenderer

  // --- which deltas the format can carry ---

  predicate IsAnnotation(l: string) {
    Annotation(l, PreviouslyMark()).Some? || Annotation(l, RationaleMark()).Some?
  }

  predicate NoAnnotations(ls: seq<string>) {
    forall i :: 0 <= i < |ls| ==> !IsAnnotation(ls[i])
  }

  predicate LooseBlock(r: Requirement) {
    Loose(r) && NoAnnotations(BlockLines(r.statement))
  }

  predicate LooseModified(m: ModifiedRequirement) {
    LooseBlock(m.requirement) && OneLine(m.previously)
  }

  predicate LooseRemoved(r: RemovedRequirement) {
    OneLine(r.name) && OneLine(r.rationale)
  }

  /** What every parser run yields. */
  predicate LooseDelta(d: Delta) {
    && OneLine(d.title)
    && (forall i :: 0 <= i < |d.added| ==> LooseBlock(d.added[i]))
    && (forall i :: 0 <= i < |d.modified| ==> LooseModified(d.modified[i]))
    && (forall i :: 0 <= i < |d.removed| ==> LooseRemoved(d.removed[i]))
  }

  /** How many stored statement lines read as headings. */
  function ModifiedStrays(m: ModifiedRequirement): nat {
    Strays(m.requirement)
  }

  function DeltaStrays(d: Delta): nat {
    Sum(Strays, d.added) + Sum(ModifiedStrays, d.modified)
  }

  /** Everything the delta format can carry. */
  predicate WellFormedDelta(d: Delta) {
    && LooseDelta(d)
    && (forall i :: 0 <= i < |d.added| ==> NoHeadings(BlockLines(d.added[i].statement)))
    && (forall i :: 0 <= i < |d.modified| ==> NoHeadings(BlockLines(d.modified[i].requirement.statement)))
  }

  // --- annotations ---

  /** parenAnnotation inverts the rendered "(Label: value)", also for a value that ends in ")". */
  lemma ReadAnnotation(mark: string, v: string)
    requires v != "" && OneLine(v)
    ensures Annotation(mark + " " + v + ")", mark) == Some(v)
  {
    var line := mark + " " + v + ")";
    assert line[..|mark|] == mark;
    assert line[|mark|..] == " " + (v + ")");
    ClosedValue(v);
    hide Trim, IsSpace;
  }

  lemma ClosedValue(v: string)
    requires v != "" && OneLine(v)
    ensures Trim(" " + (v + ")")) == v + ")" && Trim(TrimParen(v + ")")) == v
  {
    assert Trimmed(v + ")");
    assert (v + ")")[..|v|] == v;
    hide Trim;
    TrimAfterBlank(v + ")");
    TrimId(v);
  }

  lemma OtherMark(l: string, mark: string)
    requires mark != ""
    requires l == "" || FoldChar(l[0]) != FoldChar(mark[0])
             || (|l| > 1 && |mark| > 1 && FoldChar(l[1]) != FoldChar(mark[1]))
    ensures Annotation(l, mark).None?
  {
    hide Trim, TrimParen, FoldChar;
    if |l| >= |mark| {
      assert l[..|mark|][0] == l[0];
      if |mark| > 1 {
        assert l[..|mark|][1] == l[1];
      }
    }
  }

  lemma MarkShapes()
    ensures PreviouslyOpening() == PreviouslyMark() + " " && RationaleOpening() == RationaleMark() + " "
    ensures |PreviouslyMark()| > 1 && PreviouslyMark()[0] == '(' && PreviouslyMark()[1] == 'P'
    ensures |RationaleMark()| > 1 && RationaleMark()[0] == '(' && RationaleMark()[1] == 'R'
  {
  }

  lemma ReadPreviously(v: string)
    requires v != "" && OneLine(v)
    ensures Annotation(AnnotationLine(PreviouslyOpening(), v), PreviouslyMark()) == Some(v)
  {
    hide PreviouslyOpening, RationaleOpening, PreviouslyMark, RationaleMark, Annotation;
    MarkShapes();
    ReadAnnotation(PreviouslyMark(), v);
  }

  lemma ReadRationale(v: string)
    requires v != "" && OneLine(v)
    ensures Annotation(AnnotationLine(RationaleOpening(), v), PreviouslyMark()).None?
    ensures Annotation(AnnotationLine(RationaleOpening(), v), RationaleMark()) == Some(v)
  {
    hide PreviouslyOpening, RationaleOpening, PreviouslyMark, RationaleMark, Annotation;
    MarkShapes();
    ReadAnnotation(RationaleMark(), v);
    OtherMark(AnnotationLine(RationaleOpening(), v), PreviouslyMark());
  }

  lemma NotParen(l: string)
    requires l == "" || l[0] != '('
    ensures !IsAnnotation(l)
  {
    hide PreviouslyOpening, RationaleOpening, PreviouslyMark, RationaleMark, Annotation;
    MarkShapes();
    OtherMark(l, PreviouslyMark());
    OtherMark(l, RationaleMark());
  }

  // --- what the tokens of one block do to the parser ---

  function WithSteps(st: State, steps: seq<Step>): State
    requires st.scen.Some?
  {
    st.(scen := Some(st.scen.value.(steps := st.scen.value.steps + steps)))
  }

  lemma RunStep(st: State, step: Step)
    requires st.scen.Some? && WellFormedStep(step)
    ensures StepToken(st, BulletToken(step)) == WithSteps(st, [step])
  {
    hide StepLine, ParseStep, IsBullet, BulletBody, Annotation, SectionOf, WellFormedStep, FlushRequirement;
    LexStep(step);
    NotParen(StepLine(step));
  }

  lemma {:induction false} RunSteps(st: State, steps: seq<Step>)
    requires st.scen.Some? && WellFormedSteps(steps)
    ensures Run(st, Map(BulletToken, steps)) == WithSteps(st, steps)
    decreases |steps|
  {
    hide WellFormedStep, StepToken, StepLine;
    if steps == [] {
      assert st.scen.value.steps + steps == st.scen.value.steps;
    } else {
      RunStep(st, steps[0]);
      FoldCons(StepToken, st, BulletToken(steps[0]), Map(BulletToken, steps[1..]));
      RunSteps(WithSteps(st, [steps[0]]), steps[1..]);
      AppendAssoc(st.scen.value.steps, [steps[0]], steps[1..]);
      assert [steps[0]] + steps[1..] == steps;
    }
  }

  lemma {:induction false} RunStatement(st: State, ls: seq<string>)
    requires st.cur.Some? && st.scen.None? && NoAnnotations(ls)
    ensures Run(st, Map(ProseToken, ls)) == st.(stmt := st.stmt + ls)
    decreases |ls|
  {
    hide IsBullet, SectionOf, FlushRequirement, FlushScenario, Annotation, PreviouslyMark, RationaleMark;
    if ls != [] {
      assert !IsAnnotation(ls[0]);
      RunStatement(StepToken(st, ProseToken(ls[0])), ls[1..]);
      AppendAssoc(st.stmt, [ls[0]], ls[1..]);
      assert [ls[0]] + ls[1..] == ls;
    }
  }

  lemma RunScenario(st: State, sc: Scenario)
    requires st.cur.Some? && WellFormedScenario(sc)
    ensures Run(st, ScenarioTokens(sc)) == FlushScenario(st).(scen := Some(sc))
  {
    hide Fold, Map, FlushRequirement, SectionOf, StepProse, WellFormedSteps;
    var head := [Other(Blank), ScenarioHead(sc.name)];
    FoldTwo(StepToken, st, head[0], head[1]);
    FoldConcat(StepToken, st, head, Map(BulletToken, sc.steps));
    RunSteps(FlushScenario(st).(scen := Some(Scenario(sc.name, []))), sc.steps);
    assert [] + sc.steps == sc.steps;
  }

  function WithScenarios(st: State, scs: seq<Scenario>): State
    requires st.cur.Some?
  {
    st.(cur := Some(st.cur.value.(scenarios := st.cur.value.scenarios + scs)))
  }

  lemma {:induction false} RunScenarios(st: State, scs: seq<Scenario>)
    requires st.cur.Some? && WellFormedScenarios(scs)
    ensures FlushScenario(Run(st, FlatMap(ScenarioTokens, scs))) == WithScenarios(FlushScenario(st), scs)
    decreases |scs|
  {
    hide StepToken, ScenarioTokens, WellFormedScenario;
    if scs == [] {
      assert FlushScenario(st).cur.value.scenarios + [] == FlushScenario(st).cur.value.scenarios;
    } else {
      FoldConcat(StepToken, st, ScenarioTokens(scs[0]), FlatMap(ScenarioTokens, scs[1..]));
      RunScenario(st, scs[0]);
      RunScenarios(FlushScenario(st).(scen := Some(scs[0])), scs[1..]);
      AppendAssoc(FlushScenario(st).cur.value.scenarios, [scs[0]], scs[1..]);
      assert [scs[0]] + scs[1..] == scs;
    }
  }

  /** The parser inside a requirement: its statement and annotations are read. */
  function Inside(st: State, a: Accum, block: seq<string>): State {
    FlushRequirement(st).(cur := Some(a), stmt := block)
  }

  lemma RunHead(st: State, name: string, block: seq<string>)
    requires NoAnnotations(block)
    ensures Run(st, HeaderTokens(name) + Map(ProseToken, block)) == Inside(st, Accum(name, [], "", ""), block)
  {
    hide Fold, Map, SectionOf, StepProse, FlushRequirement, NoAnnotations;
    FlushedTwice(st);
    FoldTwo(StepToken, st, Other(Blank), RequirementHead(name));
    FoldConcat(StepToken, st, HeaderTokens(name), Map(ProseToken, block));
    RunStatement(Inside(st, Accum(name, [], "", ""), []), block);
    assert [] + block == block;
  }

  lemma RunAnnotations(st: State, previously: string, rationale: string)
    requires st.cur.Some? && st.cur.value.previously == "" && st.cur.value.rationale == ""
    requires OneLine(previously) && OneLine(rationale)
    ensures Run(st, AnnotationTokens(PreviouslyOpening(), previously) + AnnotationTokens(RationaleOpening(), rationale))
         == st.(cur := Some(st.cur.value.(previously := previously, rationale := rationale)))
  {
    var ps, rs := AnnotationTokens(PreviouslyOpening(), previously), AnnotationTokens(RationaleOpening(), rationale);
    hide Annotation, AnnotationLine, PreviouslyOpening, RationaleOpening, PreviouslyMark, RationaleMark,
         FlushRequirement,
         IsBullet, SectionOf, OneLine;
    if previously != "" {
      ReadPreviously(previously);
    }
    if rationale != "" {
      ReadRationale(rationale);
    }
    FoldConcat(StepToken, st, ps, rs);
  }

  /** One rendered block, read back and dispatched. */
  lemma RunRequirement(st: State, r: Requirement, previously: string, rationale: string)
    requires LooseBlock(r) && NoHeadings(BlockLines(r.statement)) && OneLine(previously) && OneLine(rationale)
    ensures FlushRequirement(Run(st, RequirementTokens(r, previously, rationale)))
         == Dispatch(FlushRequirement(st), Accum(r.name, r.scenarios, previously, rationale), r.statement)
  {
    var block := BlockLines(r.statement);
    var head := HeaderTokens(r.name) + BlockTokens(r.statement);
    var ps, rs := AnnotationTokens(PreviouslyOpening(), previously), AnnotationTokens(RationaleOpening(), rationale);
    var body := FlatMap(ScenarioTokens, r.scenarios);
    var st1 := Inside(st, Accum(r.name, [], "", ""), block);
    var st2 := Inside(st, Accum(r.name, [], previously, rationale), block);
    hide Fold, Map, FlatMap, StepToken, HeaderTokens, BlockLines, WellFormedScenarios, Stored, NoHeadings,
         NoAnnotations,
         PreviouslyOpening, RationaleOpening, AnnotationTokens, OneLine, FlushRequirement;
    LexProse(block);
    RunHead(st, r.name, block);
    RunAnnotations(st1, previously, rationale);
    RunScenarios(st2, r.scenarios);
    AppendAssoc(head, ps, rs);
    FoldConcat(StepToken, st, head, ps + rs);
    FoldConcat(StepToken, st, head + ps + rs, body);
    FlushInside(st, Accum(r.name, [], previously, rationale), block, Run(st2, body), r);
  }

  lemma StatementBack(statement: string)
    requires Stored(BlockLines(statement))
    ensures StatementOf(BlockLines(statement)) == statement
  {
    hide Trim, Join, Lines;
    JoinOfBlock(statement);
    StoredBlock(BlockLines(statement));
  }

  lemma FlushInside(st: State, a: Accum, block: seq<string>, end: State, r: Requirement)
    requires block == BlockLines(r.statement) && Stored(block) && a.scenarios == []
    requires FlushScenario(end) == WithScenarios(FlushScenario(Inside(st, a, block)), r.scenarios)
    ensures FlushRequirement(end) == Dispatch(FlushRequirement(st), a.(scenarios := r.scenarios), r.statement)
  {
    hide Stored, BlockLines, StatementOf;
    StatementBack(r.statement);
    assert [] + r.scenarios == r.scenarios;
    FlushedTwice(st);
  }

  lemma FlushedTwice(st: State)
    ensures FlushRequirement(st).cur.None? && FlushRequirement(st).scen.None? && FlushRequirement(st).stmt == []
    ensures FlushRequirement(st).section == st.section
    ensures FlushRequirement(FlushRequirement(st)) == FlushRequirement(st)
  {
    hide StatementOf;
  }

  // --- whole sections ---

  function ModifiedTokens(m: ModifiedRequirement): seq<Token> {
    RequirementTokens(m.requirement, m.previously, "")
  }

  function RemovedTokens(r: RemovedRequirement): seq<Token> {
    RequirementTokens(Bare(r.name), "", r.rationale)
  }

  lemma {:induction false} RunAdded(st: State, rs: seq<Requirement>)
    requires st.section.AddedSection?
    requires forall i :: 0 <= i < |rs| ==> LooseBlock(rs[i]) && NoHeadings(BlockLines(rs[i].statement))
    ensures FlushRequirement(Run(st, FlatMap(PlainTokens, rs)))
            == FlushRequirement(st).(added := FlushRequirement(st).added + rs)
    decreases |rs|
  {
    hide StepToken, RequirementTokens, LooseBlock, NoHeadings, BlockLines, FlushRequirement;
    FlushedTwice(st);
    if rs == [] {
      assert FlushRequirement(st).added + rs == FlushRequirement(st).added;
    } else {
      FoldConcat(StepToken, st, PlainTokens(rs[0]), FlatMap(PlainTokens, rs[1..]));
      RunRequirement(st, rs[0], "", "");
      FlushedTwice(Run(st, PlainTokens(rs[0])));
      RunAdded(Run(st, PlainTokens(rs[0])), rs[1..]);
      AppendAssoc(FlushRequirement(st).added, [rs[0]], rs[1..]);
      assert [rs[0]] + rs[1..] == rs;
    }
  }

  lemma {:induction false} RunModified(st: State, ms: seq<ModifiedRequirement>)
    requires st.section.ModifiedSection?
    requires forall i :: 0 <= i < |ms| ==> LooseModified(ms[i]) && NoHeadings(BlockLines(ms[i].requirement.statement))
    ensures FlushRequirement(Run(st, FlatMap(ModifiedTokens, ms)))
            == FlushRequirement(st).(modified := FlushRequirement(st).modified + ms)
    decreases |ms|
  {
    hide StepToken, RequirementTokens, LooseBlock, NoHeadings, BlockLines, FlushRequirement, OneLine;
    FlushedTwice(st);
    EmptyLine();
    if ms == [] {
      assert FlushRequirement(st).modified + ms == FlushRequirement(st).modified;
    } else {
      FoldConcat(StepToken, st, ModifiedTokens(ms[0]), FlatMap(ModifiedTokens, ms[1..]));
      RunRequirement(st, ms[0].requirement, ms[0].previously, "");
      FlushedTwice(Run(st, ModifiedTokens(ms[0])));
      RunModified(Run(st, ModifiedTokens(ms[0])), ms[1..]);
      AppendAssoc(FlushRequirement(st).modified, [ms[0]], ms[1..]);
      assert [ms[0]] + ms[1..] == ms;
    }
  }

  lemma EmptyLine()
    ensures OneLine("")
  {
  }

  lemma BareBlock(name: string)
    requires OneLine(name)
    ensures LooseBlock(Bare(name)) && NoHeadings(BlockLines(Bare(name).statement))
  {
  }

  lemma {:induction false} RunRemoved(st: State, rs: seq<RemovedRequirement>)
    requires st.section.RemovedSection?
    requires forall i :: 0 <= i < |rs| ==> LooseRemoved(rs[i])
    ensures FlushRequirement(Run(st, FlatMap(RemovedTokens, rs)))
            == FlushRequirement(st).(removed := FlushRequirement(st).removed + rs)
    decreases |rs|
  {
    hide StepToken, RequirementTokens, LooseBlock, NoHeadings, BlockLines, FlushRequirement, OneLine;
    FlushedTwice(st);
    EmptyLine();
    if rs == [] {
      assert FlushRequirement(st).removed + rs == FlushRequirement(st).removed;
    } else {
      FoldConcat(StepToken, st, RemovedTokens(rs[0]), FlatMap(RemovedTokens, rs[1..]));
      BareBlock(rs[0].name);
      RunRequirement(st, Bare(rs[0].name), "", rs[0].rationale);
      FlushedTwice(Run(st, RemovedTokens(rs[0])));
      RunRemoved(Run(st, RemovedTokens(rs[0])), rs[1..]);
      AppendAssoc(FlushRequirement(st).removed, [rs[0]], rs[1..]);
      assert [rs[0]] + rs[1..] == rs;
    }
  }

  function BlockSection<A>(heading: string, f: A -> seq<Token>, xs: seq<A>): seq<Token> {
    if xs == [] then [] else SectionTokens(heading) + FlatMap(f, xs)
  }

  /** What follows the title. */
  function BodyTokens(d: Delta): seq<Token> {
    BlockSection(AddedName(), PlainTokens, d.added) + BlockSection(ModifiedName(), ModifiedTokens, d.modified)
    + BlockSection(RemovedName(), RemovedTokens, d.removed)
  }

  lemma NameShapes()
    ensures AddedName() != "" && OneLine(AddedName())
    ensures ModifiedName() != "" && OneLine(ModifiedName())
    ensures RemovedName() != "" && OneLine(RemovedName())
  {
  }

  lemma UpperNames()
    ensures "ADDED" <= ToUpper(AddedName())
    ensures "MODIFIED" <= ToUpper(ModifiedName())
    ensures "REMOVED" <= ToUpper(RemovedName())
  {
  }

  lemma SectionFor(heading: string)
    requires OneLine(heading)
    ensures "ADDED" <= ToUpper(heading) ==> SectionOf(heading) == AddedSection
    ensures "MODIFIED" <= ToUpper(heading) ==> SectionOf(heading) == ModifiedSection
    ensures "REMOVED" <= ToUpper(heading) ==> SectionOf(heading) == RemovedSection
  {
    hide Trim, ToUpper;
    TrimId(heading);
    FirstLetters(ToUpper(heading));
  }

  lemma FirstLetters(h: string)
    ensures "ADDED" <= h ==> h != "" && h[0] == 'A'
    ensures "MODIFIED" <= h ==> h != "" && h[0] == 'M'
    ensures "REMOVED" <= h ==> h != "" && h[0] == 'R'
  {
  }

  lemma SectionNames()
    ensures SectionOf(AddedName()) == AddedSection
    ensures SectionOf(ModifiedName()) == ModifiedSection
    ensures SectionOf(RemovedName()) == RemovedSection
  {
    hide SectionOf, AddedName, ModifiedName, RemovedName, ToUpper, OneLine;
    NameShapes();
    UpperNames();
    SectionFor(AddedName());
    SectionFor(ModifiedName());
    SectionFor(RemovedName());
  }

  lemma RunSection(st: State, heading: string)
    ensures Run(st, SectionTokens(heading)) == FlushRequirement(st).(section := SectionOf(heading))
  {
    hide SectionOf, StepProse, FlushRequirement;
    FoldTwo(StepToken, st, Other(Blank), Other(H2(heading)));
  }

  // --- the whole document ---

  lemma RunNothing(st: State)
    ensures Run(st, []) == st
  {
  }

  lemma RunAddedSection(st: State, rs: seq<Requirement>)
    requires FlushRequirement(st) == st
    requires forall i :: 0 <= i < |rs| ==> LooseBlock(rs[i]) && NoHeadings(BlockLines(rs[i].statement))
    ensures var r := FlushRequirement(Run(st, BlockSection(AddedName(), PlainTokens, rs)));
            r == st.(section := r.section, added := st.added + rs)
  {
    hide Fold, FlatMap, SectionOf, AddedName, ModifiedName, RemovedName, FlushRequirement, PlainTokens, SectionTokens,
         LooseBlock,
         NoHeadings, BlockLines;
    FlushedTwice(st);
    if rs == [] {
      RunNothing(st);
    } else {
      SectionNames();
      RunSection(st, AddedName());
      FoldConcat(StepToken, st, SectionTokens(AddedName()), FlatMap(PlainTokens, rs));
      FlushSection(st, AddedSection);
      RunAdded(st.(section := AddedSection), rs);
    }
  }

  lemma RunModifiedSection(st: State, ms: seq<ModifiedRequirement>)
    requires forall i :: 0 <= i < |ms| ==> LooseModified(ms[i]) && NoHeadings(BlockLines(ms[i].requirement.statement))
    ensures var r := FlushRequirement(Run(st, BlockSection(ModifiedName(), ModifiedTokens, ms)));
            r == FlushRequirement(st).(section := r.section, modified := FlushRequirement(st).modified + ms)
  {
    hide Fold, FlatMap, SectionOf, AddedName, ModifiedName, RemovedName, FlushRequirement, ModifiedTokens,
         SectionTokens, LooseModified,
         NoHeadings, BlockLines;
    FlushedTwice(st);
    if ms == [] {
      RunNothing(st);
    } else {
      SectionNames();
      RunSection(st, ModifiedName());
      FoldConcat(StepToken, st, SectionTokens(ModifiedName()), FlatMap(ModifiedTokens, ms));
      FlushSection(FlushRequirement(st), ModifiedSection);
      RunModified(FlushRequirement(st).(section := ModifiedSection), ms);
    }
  }

  lemma RunRemovedSection(st: State, rs: seq<RemovedRequirement>)
    requires forall i :: 0 <= i < |rs| ==> LooseRemoved(rs[i])
    ensures var r := FlushRequirement(Run(st, BlockSection(RemovedName(), RemovedTokens, rs)));
            r == FlushRequirement(st).(section := r.section, removed := FlushRequirement(st).removed + rs)
  {
    hide Fold, FlatMap, SectionOf, AddedName, ModifiedName, RemovedName, FlushRequirement, RemovedTokens, SectionTokens,
         LooseRemoved;
    FlushedTwice(st);
    if rs == [] {
      RunNothing(st);
    } else {
      SectionNames();
      RunSection(st, RemovedName());
      FoldConcat(StepToken, st, SectionTokens(RemovedName()), FlatMap(RemovedTokens, rs));
      FlushSection(FlushRequirement(st), RemovedSection);
      RunRemoved(FlushRequirement(st).(section := RemovedSection), rs);
    }
  }

  lemma FlushSection(st: State, section: Section)
    requires FlushRequirement(st) == st
    ensures FlushRequirement(st.(section := section)) == st.(section := section)
  {
    hide StatementOf;
    assert st.cur.None? && st.scen.None? && st.stmt == [];
  }

  lemma RunBody(d: Delta)
    requires WellFormedDelta(d)
    ensures Finish(Run(INIT.(title := d.title), BodyTokens(d))) == d.(warnings := [])
  {
    var st0 := INIT.(title := d.title);
    var a, m, r := BlockSection(AddedName(), PlainTokens, d.added),
        BlockSection(ModifiedName(), ModifiedTokens, d.modified),
                   BlockSection(RemovedName(), RemovedTokens, d.removed);
    var st1 := Run(st0, a);
    var st2 := Run(st1, m);
    assert FlushRequirement(st0) == st0;
    hide Fold, BlockSection, FlushRequirement, AddedName, ModifiedName, RemovedName, LooseBlock, LooseModified,
         LooseRemoved,
         NoHeadings, BlockLines, OneLine;
    RunAddedSection(st0, d.added);
    RunModifiedSection(st1, d.modified);
    RunRemovedSection(st2, d.removed);
    FoldConcat(StepToken, st0, a, m);
    FoldConcat(StepToken, st0, a + m, r);
    assert [] + d.added == d.added && [] + d.modified == d.modified && [] + d.removed == d.removed;
  }

  // --- lexing ---

  lemma {:induction false} LexModified(ms: seq<ModifiedRequirement>)
    requires forall i :: 0 <= i < |ms| ==> LooseModified(ms[i])
    ensures Map(Classify, FlatMap(ModifiedLines, ms)) == FlatMap(ModifiedTokens, ms)
    ensures NoBreaks(FlatMap(ModifiedLines, ms))
  {
    hide Classify, RequirementLines, RequirementTokens, Loose, NoAnnotations, OneLine;
    EmptyLine();
    if ms != [] {
      LexRequirement(ms[0].requirement, ms[0].previously, "");
      LexModified(ms[1..]);
      MapConcat(Classify, ModifiedLines(ms[0]), FlatMap(ModifiedLines, ms[1..]));
      NoBreaksConcat(ModifiedLines(ms[0]), FlatMap(ModifiedLines, ms[1..]));
    }
  }

  lemma {:induction false} LexRemoved(rs: seq<RemovedRequirement>)
    requires forall i :: 0 <= i < |rs| ==> LooseRemoved(rs[i])
    ensures Map(Classify, FlatMap(RemovedLines, rs)) == FlatMap(RemovedTokens, rs)
    ensures NoBreaks(FlatMap(RemovedLines, rs))
  {
    hide Classify, RequirementLines, RequirementTokens, OneLine, LooseBlock, BlockLines, NoHeadings;
    EmptyLine();
    if rs != [] {
      BareLoose(rs[0].name);
      LexRequirement(Bare(rs[0].name), "", rs[0].rationale);
      LexRemoved(rs[1..]);
      MapConcat(Classify, RemovedLines(rs[0]), FlatMap(RemovedLines, rs[1..]));
      NoBreaksConcat(RemovedLines(rs[0]), FlatMap(RemovedLines, rs[1..]));
    }
  }

  lemma BareLoose(name: string)
    requires OneLine(name)
    ensures Loose(Bare(name)) && Strays(Bare(name)) == 0 && Weight(Bare(name)) == 0
  {
  }

  lemma LexBlocks<A>(heading: string, f: A -> seq<string>, g: A -> seq<Token>, xs: seq<A>)
    requires heading != "" && OneLine(heading)
    requires Map(Classify, FlatMap(f, xs)) == FlatMap(g, xs) && NoBreaks(FlatMap(f, xs))
    ensures Map(Classify, Blocks(heading, f, xs)) == BlockSection(heading, g, xs)
    ensures NoBreaks(Blocks(heading, f, xs))
  {
    hide Classify, Map, FlatMap, SectionHeader, SectionTokens, NoBreaks, OneLine;
    if xs == [] {
      LexNothing();
    } else {
      LexSection(heading);
      MapConcat(Classify, SectionHeader(heading), FlatMap(f, xs));
      NoBreaksConcat(SectionHeader(heading), FlatMap(f, xs));
    }
  }

  lemma LexNothing()
    ensures Map(Classify, []) == [] && NoBreaks([])
  {
  }

  lemma LexDelta(d: Delta)
    requires LooseDelta(d)
    ensures Map(Classify, DeltaLines(d)) == TitleTokens(d.title) + BodyTokens(d)
    ensures NoBreaks(DeltaLines(d))
  {
    var t := [TitleLine(d.title)];
    var a, m, r := Blocks(AddedName(), PlainLines, d.added), Blocks(ModifiedName(), ModifiedLines, d.modified),
                   Blocks(RemovedName(), RemovedLines, d.removed);
    hide Classify, Map, FlatMap, TitleLine, TitleTokens, Blocks, BlockSection, NoBreaks, OneLine, AddedName,
         ModifiedName, RemovedName,
         Loose, NoAnnotations;
    NameShapes();
    LexTitle(d.title);
    LexPlain(d.added);
    LexModified(d.modified);
    LexRemoved(d.removed);
    LexBlocks(AddedName(), PlainLines, PlainTokens, d.added);
    LexBlocks(ModifiedName(), ModifiedLines, ModifiedTokens, d.modified);
    LexBlocks(RemovedName(), RemovedLines, RemovedTokens, d.removed);
    MapConcatFour(Classify, t, a, m, r);
    NoBreaksConcat(t, a);
    NoBreaksConcat(t + a, m);
    NoBreaksConcat(t + a + m, r);
    AssocThree(TitleTokens(d.title), Map(Classify, a), Map(Classify, m), Map(Classify, r));
  }

  lemma AssocThree<T>(t: seq<T>, a: seq<T>, b: seq<T>, c: seq<T>)
    ensures t + a + b + c == t + (a + b + c)
  {
  }

  lemma RunTitle(title: string)
    ensures Run(INIT, TitleTokens(title)) == INIT.(title := title)
  {
    hide SectionOf, FlushRequirement, Annotation;
    FoldOne(StepToken, INIT, TitleTokens(title)[0]);
  }

  /** The blank line after the last newline changes nothing. */
  lemma RunTail(st: State, tokens: seq<Token>)
    ensures Run(st, tokens + [Other(Blank)]) == Run(st, tokens)
  {
    hide Fold, StepProse, FlushRequirement;
    FoldConcat(StepToken, st, tokens, [Other(Blank)]);
    FoldOne(StepToken, Run(st, tokens), Other(Blank));
  }

  /** Re-parsing any rendered delta: the title, then the body tokens. */
  lemma Reparse(d: Delta)
    requires LooseDelta(d)
    ensures DeltaOf(DeltaText(d)) == Finish(Run(INIT.(title := d.title), BodyTokens(d)))
  {
    hide Map, Fold, Lines, Unlines, Classify, Finish, StepToken, DeltaLines, LooseDelta, NoBreaks, TitleTokens,
         BodyTokens;
    LexDelta(d);
    LexText(DeltaLines(d));
    RunTail(INIT, TitleTokens(d.title) + BodyTokens(d));
    FoldConcat(StepToken, INIT, TitleTokens(d.title), BodyTokens(d));
    RunTitle(d.title);
  }

  /** parse(render(d)) == d for every well-formed delta; warnings are diagnostic only. */
  lemma RoundTrip(d: Delta)
    requires WellFormedDelta(d)
    ensures DeltaOf(DeltaText(d)) == d.(warnings := [])
  {
    hide DeltaOf, DeltaText, BodyTokens, Finish, Run, LooseDelta, NoHeadings, BlockLines;
    Reparse(d);
    RunBody(d);
  }
}
