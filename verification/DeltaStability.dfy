/** When is parse(render(parse(x))) == parse(x) for deltas?  Exactly when no line that the
    parser kept in an ADDED or MODIFIED statement reads as a heading without its indentation. */
module DeltaStability {
  import opened Seqs
  import opened Text
  import opened OpenSpecModel
  import opened Lexer
  import opened Rules
  import opened SpecRenderer
  import opened RequirementLexing
  import opened DeltaParser
  import opened DeltaRenderer
  import opened DeltaRoundTrip

  // --- what every run of the parser keeps ---

  predicate ParsedOk(added: seq<Requirement>, modified: seq<ModifiedRequirement>, removed: seq<RemovedRequirement>) {
    && (forall i :: 0 <= i < |added| ==> LooseBlock(added[i]))
    && (forall i :: 0 <= i < |modified| ==> LooseModified(modified[i]))
    && (forall i :: 0 <= i < |removed| ==> LooseRemoved(removed[i]))
  }

  predicate AccumOk(a: Accum) {
    OneLine(a.name) && OneLine(a.previously) && OneLine(a.rationale) && WellFormedScenarios(a.scenarios)
  }

  predicate StateOk(st: State) {
    && OneLine(st.title) && Stored(st.stmt) && NoAnnotations(st.stmt) && ParsedOk(st.added, st.modified, st.removed)
    && (st.cur.Some? ==> AccumOk(st.cur.value))
    && (st.cur.None? ==> st.scen.None? && st.stmt == [])
    && (st.scen.Some? ==> WellFormedScenario(st.scen.value))
  }

  function ModifiedWeight(m: ModifiedRequirement): nat {
    Weight(m.requirement) + AnnotationBit(m.previously)
  }

  function RemovedWeight(r: RemovedRequirement): nat {
    AnnotationBit(r.rationale)
  }

  /** Lines held: prose, bullets and annotations. */
  function DeltaWeight(d: Delta): nat {
    ParsedWeight(d.added, d.modified, d.removed)
  }

  function ParsedWeight(added: seq<Requirement>, modified: seq<ModifiedRequirement>,
                        removed: seq<RemovedRequirement>): nat {
    Sum(Weight, added) + Sum(ModifiedWeight, modified) + Sum(RemovedWeight, removed)
  }

  function AccumWeight(a: Accum): nat {
    Sum(ScenarioWeight, a.scenarios) + AnnotationBit(a.previously) + AnnotationBit(a.rationale)
  }

  function StateWeight(st: State): nat {
    ParsedWeight(st.added, st.modified, st.removed) + |st.stmt|
    + (if st.cur.Some? then AccumWeight(st.cur.value) else 0)
    + (if st.scen.Some? then |st.scen.value.steps| else 0)
  }

  /** ADDED and MODIFIED requirements keep their statement. */
  predicate KeepsStatement(section: Section) {
    section.AddedSection? || section.ModifiedSection?
  }

  function StateStrays(st: State): nat {
    (if KeepsStatement(st.section) then Headings(st.stmt) else 0) + Sum(Strays, st.added)
        + Sum(ModifiedStrays, st.modified)
  }

  /** The parser is about to keep a statement line that reads as a heading. */
  predicate StoresHeading(st: State, t: Token) {
    t.Other? && t.top.Prose? && IsHeading(t.top.text) && st.cur.Some? && st.scen.None? && KeepsStatement(st.section)
  }

  function StrayBit(st: State, t: Token): nat {
    if StoresHeading(st, t) then 1 else 0
  }

  lemma FlushScenarioOk(st: State)
    requires StateOk(st)
    ensures StateOk(FlushScenario(st)) && FlushScenario(st).scen.None?
    ensures StateWeight(FlushScenario(st)) == StateWeight(st) && StateStrays(FlushScenario(st)) == StateStrays(st)
  {
    hide WellFormedScenario, Stored, ParsedOk, ParsedWeight, OneLine, Sum, Headings, NoAnnotations;
    if st.scen.Some? {
      SumSnoc(ScenarioWeight, st.cur.value.scenarios, st.scen.value);
    }
  }

  lemma BlockOk(name: string, scenarios: seq<Scenario>, stmt: seq<string>)
    requires OneLine(name) && WellFormedScenarios(scenarios) && Stored(stmt) && NoAnnotations(stmt)
    ensures var r := Requirement(name, StatementOf(stmt), scenarios);
            && LooseBlock(r) && Strays(r) == Headings(stmt) && Weight(r) == |stmt| + Sum(ScenarioWeight, scenarios)
  {
    hide Trim, Join, Stored, WellFormedScenarios, Lines, Sum, Headings, OneLine, NoAnnotations;
    BlockOfJoin(stmt);
    JoinNothing();
  }

  lemma JoinNothing()
    ensures Trim(Join([])) == ""
  {
  }

  lemma AddedOk(st: State, r: Requirement)
    requires LooseBlock(r) && ParsedOk(st.added, st.modified, st.removed)
    ensures ParsedOk(st.added + [r], st.modified, st.removed)
    ensures ParsedWeight(st.added + [r], st.modified, st.removed)
            == ParsedWeight(st.added, st.modified, st.removed) + Weight(r)
    ensures Sum(Strays, st.added + [r]) == Sum(Strays, st.added) + Strays(r)
  {
    hide LooseBlock, LooseModified, LooseRemoved, Weight, Strays, Sum;
    SumSnoc(Weight, st.added, r);
    SumSnoc(Strays, st.added, r);
  }

  lemma ModifiedOk(st: State, m: ModifiedRequirement)
    requires LooseModified(m) && ParsedOk(st.added, st.modified, st.removed)
    ensures ParsedOk(st.added, st.modified + [m], st.removed)
    ensures ParsedWeight(st.added, st.modified + [m], st.removed)
            == ParsedWeight(st.added, st.modified, st.removed) + ModifiedWeight(m)
    ensures Sum(ModifiedStrays, st.modified + [m]) == Sum(ModifiedStrays, st.modified) + ModifiedStrays(m)
  {
    hide LooseBlock, LooseModified, LooseRemoved, ModifiedWeight, ModifiedStrays, Sum;
    SumSnoc(ModifiedWeight, st.modified, m);
    SumSnoc(ModifiedStrays, st.modified, m);
  }

  lemma RemovedOk(st: State, r: RemovedRequirement)
    requires LooseRemoved(r) && ParsedOk(st.added, st.modified, st.removed)
    ensures ParsedOk(st.added, st.modified, st.removed + [r])
    ensures ParsedWeight(st.added, st.modified, st.removed + [r])
            == ParsedWeight(st.added, st.modified, st.removed) + RemovedWeight(r)
  {
    hide LooseBlock, LooseModified, LooseRemoved, RemovedWeight, Sum;
    SumSnoc(RemovedWeight, st.removed, r);
  }

  /** Closing a block keeps the invariant when what it leaves behind weighs no more. */
  lemma Settled(st: State, r: State)
    requires StateOk(st) && st.cur.Some? && st.scen.None?
    requires r == st.(cur := None, stmt := [], added := r.added, modified := r.modified, removed := r.removed,
                      warnings := r.warnings)
    requires ParsedOk(r.added, r.modified, r.removed)
    requires ParsedWeight(r.added, r.modified, r.removed)
          <= ParsedWeight(st.added, st.modified, st.removed) + |st.stmt| + AccumWeight(st.cur.value)
    requires Sum(Strays, r.added) + Sum(ModifiedStrays, r.modified)
          == Sum(Strays, st.added) + Sum(ModifiedStrays, st.modified)
              + (if KeepsStatement(st.section) then Headings(st.stmt) else 0)
    ensures StateOk(r) && StateWeight(r) <= StateWeight(st) && StateStrays(r) == StateStrays(st)
  {
    hide Stored, OneLine, Sum, Headings, NoAnnotations, ParsedOk, ParsedWeight, AccumWeight, AccumOk;
    NothingOk();
  }

  predicate DispatchKeeps(st: State)
    requires st.cur.Some?
  {
    var r := Dispatch(st, st.cur.value, StatementOf(st.stmt)).(cur := None, stmt := []);
    StateOk(r) && StateWeight(r) <= StateWeight(st) && StateStrays(r) == StateStrays(st)
  }

  lemma DispatchAdded(st: State)
    requires StateOk(st) && st.cur.Some? && st.scen.None? && st.section.AddedSection?
    ensures DispatchKeeps(st)
  {
    var a := st.cur.value;
    var req := Requirement(a.name, StatementOf(st.stmt), a.scenarios);
    assert AccumOk(a) && Stored(st.stmt) && NoAnnotations(st.stmt) && ParsedOk(st.added, st.modified, st.removed);
    hide WellFormedScenarios, Stored, OneLine, Sum, Headings, NoAnnotations, StatementOf, LooseBlock, Weight, Strays,
         ParsedOk, ParsedWeight,
         AnnotationBit, StateOk, StateWeight, StateStrays;
    BlockOk(a.name, a.scenarios, st.stmt);
    AddedOk(st, req);
    Settled(st, Dispatch(st, a, StatementOf(st.stmt)).(cur := None, stmt := []));
  }

  lemma DispatchModified(st: State)
    requires StateOk(st) && st.cur.Some? && st.scen.None? && st.section.ModifiedSection?
    ensures DispatchKeeps(st)
  {
    var a := st.cur.value;
    var req := Requirement(a.name, StatementOf(st.stmt), a.scenarios);
    assert AccumOk(a) && Stored(st.stmt) && NoAnnotations(st.stmt) && ParsedOk(st.added, st.modified, st.removed);
    hide WellFormedScenarios, Stored, OneLine, Sum, Headings, NoAnnotations, StatementOf, LooseBlock, Weight, Strays,
         ParsedOk, ParsedWeight,
         AnnotationBit, StateOk, StateWeight, StateStrays;
    BlockOk(a.name, a.scenarios, st.stmt);
    ModifiedOk(st, ModifiedRequirement(req, a.previously));
    Settled(st, Dispatch(st, a, StatementOf(st.stmt)).(cur := None, stmt := []));
  }

  lemma DispatchRemoved(st: State)
    requires StateOk(st) && st.cur.Some? && st.scen.None? && st.section.RemovedSection?
    ensures DispatchKeeps(st)
  {
    var a := st.cur.value;
    var req := Requirement(a.name, StatementOf(st.stmt), a.scenarios);
    assert AccumOk(a) && Stored(st.stmt) && NoAnnotations(st.stmt) && ParsedOk(st.added, st.modified, st.removed);
    hide WellFormedScenarios, Stored, OneLine, Sum, Headings, NoAnnotations, StatementOf, LooseBlock, Weight, Strays,
         ParsedOk, ParsedWeight,
         AnnotationBit, StateOk, StateWeight, StateStrays;
    BlockOk(a.name, a.scenarios, st.stmt);
    RemovedOk(st, RemovedRequirement(a.name, a.rationale));
    Settled(st, Dispatch(st, a, StatementOf(st.stmt)).(cur := None, stmt := []));
  }

  lemma DispatchNone(st: State)
    requires StateOk(st) && st.cur.Some? && st.scen.None? && st.section.NoSection?
    ensures DispatchKeeps(st)
  {
    var a := st.cur.value;
    var req := Requirement(a.name, StatementOf(st.stmt), a.scenarios);
    assert AccumOk(a) && Stored(st.stmt) && NoAnnotations(st.stmt) && ParsedOk(st.added, st.modified, st.removed);
    hide WellFormedScenarios, Stored, OneLine, Sum, Headings, NoAnnotations, StatementOf, LooseBlock, Weight, Strays,
         ParsedOk, ParsedWeight,
         AnnotationBit, StateOk, StateWeight, StateStrays;
    BlockOk(a.name, a.scenarios, st.stmt);
    Settled(st, Dispatch(st, a, StatementOf(st.stmt)).(cur := None, stmt := []));
  }

  lemma DispatchOk(st: State)
    requires StateOk(st) && st.cur.Some? && st.scen.None?
    ensures DispatchKeeps(st)
  {
    hide StateOk, DispatchKeeps;
    match st.section
    case AddedSection => DispatchAdded(st);
    case ModifiedSection => DispatchModified(st);
    case RemovedSection => DispatchRemoved(st);
    case NoSection => DispatchNone(st);
  }

  lemma NothingOk()
    ensures Headings([]) == 0 && Stored([]) && NoAnnotations([])
  {
  }

  lemma FlushRequirementOk(st: State)
    requires StateOk(st)
    ensures var r := FlushRequirement(st);
            && StateOk(r) && r.cur.None? && r.scen.None? && r.stmt == [] && r.section == st.section
            && StateWeight(r) <= StateWeight(st) && StateStrays(r) == StateStrays(st)
  {
    FlushedTwice(st);
    hide FlushScenario, Dispatch, StatementOf, StateOk, StateWeight, StateStrays;
    FlushScenarioOk(st);
    var s := FlushScenario(st);
    if s.cur.Some? {
      DispatchOk(s);
    } else {
      assert s.(cur := None, stmt := []) == s by {
        IdleState(s);
      }
    }
  }

  lemma IdleState(s: State)
    requires StateOk(s) && s.cur.None?
    ensures s.stmt == []
  {
  }

  lemma SectionOk(st: State, section: Section)
    requires StateOk(st) && st.stmt == []
    ensures var r := st.(section := section);
            StateOk(r) && StateWeight(r) == StateWeight(st) && StateStrays(r) == StateStrays(st)
  {
    hide Stored, NoAnnotations, Headings, ParsedWeight, Sum, AccumOk, AccumWeight;
    NothingOk();
  }

  lemma OpenOk(st: State, name: string)
    requires StateOk(st) && st.cur.None? && OneLine(name)
    ensures var r := st.(cur := Some(Accum(name, [], "", "")));
            StateOk(r) && StateWeight(r) == StateWeight(st) && StateStrays(r) == StateStrays(st)
  {
    hide Stored, NoAnnotations, Headings, ParsedWeight, ParsedOk, OneLine;
    EmptyLine();
  }

  lemma HeadOk(st: State, name: string)
    requires StateOk(st) && OneLine(name)
    ensures var r := StepToken(st, ScenarioHead(name));
            StateOk(r) && StateWeight(r) == StateWeight(st) && StateStrays(r) == StateStrays(st)
  {
    hide FlushScenario, FlushRequirement, StepProse, OneLine, Stored, Headings, ParsedWeight, AccumOk, AccumWeight, Sum,
         NoAnnotations;
    FlushScenarioOk(st);
  }

  lemma AnnotationOk(st: State, a: Accum)
    requires StateOk(st) && st.cur.Some? && AccumOk(a) && AccumWeight(a) <= AccumWeight(st.cur.value) + 1
    ensures var r := st.(cur := Some(a));
            StateOk(r) && StateWeight(r) <= StateWeight(st) + 1 && StateStrays(r) == StateStrays(st)
  {
    hide ParsedWeight, ParsedOk, AccumOk, AccumWeight, Stored, NoAnnotations, Headings, Sum;
  }

  lemma BulletOk(st: State, t: string)
    requires StateOk(st) && st.scen.Some? && IsBullet(t) && OneLine(t)
    ensures var r := st.(scen := Some(st.scen.value.(steps := st.scen.value.steps + [ParseStep(BulletBody(t).value)])));
            StateOk(r) && StateWeight(r) == StateWeight(st) + 1 && StateStrays(r) == StateStrays(st)
  {
    hide IsBullet, OneLine, ParseStep, BulletBody, WellFormedScenario, AccumOk, AccumWeight, ParsedWeight, ParsedOk,
         Stored,
         NoAnnotations, Headings, Sum;
    ParseStepWellFormed(t);
    ScenarioSnoc(st.scen.value, ParseStep(BulletBody(t).value));
  }

  lemma StatementOk(st: State, t: string)
    requires StateOk(st) && st.cur.Some? && t != "" && OneLine(t) && !IsAnnotation(t)
    ensures var r := st.(stmt := st.stmt + [t]);
            && StateOk(r) && StateWeight(r) == StateWeight(st) + 1
            && StateStrays(r) == StateStrays(st) + (if KeepsStatement(st.section) then HeadingBit(t) else 0)
  {
    hide OneLine, WellFormedScenario, AccumOk, AccumWeight, ParsedWeight, ParsedOk, Stored, Headings, Sum, IsAnnotation,
         HeadingBit;
    StoredSnoc(st.stmt, t);
  }

  lemma AnnotationValue(t: string, mark: string)
    requires Annotation(t, mark).Some? && '\n' !in t
    ensures OneLine(Annotation(t, mark).value)
  {
    hide Trim;
  }

  lemma HeadingIsNoAnnotation(t: string)
    requires IsHeading(t)
    ensures !IsAnnotation(t) && !IsBullet(t)
  {
    HeadingIsHash(t);
    hide IsAnnotation, IsHeading;
    NotParen(t);
  }

  lemma HeadingIsHash(t: string)
    requires IsHeading(t)
    ensures t != "" && t[0] == '#'
  {
    hide ScenarioMark, RequirementMark, SectionMark, TitleMark;
    MarkHeads(t);
  }

  lemma ProseOk(st: State, t: string)
    requires StateOk(st) && t != "" && OneLine(t)
    ensures var r := StepProse(st, t);
            && StateOk(r) && StateWeight(r) <= StateWeight(st) + 1
            && StateStrays(r) == StateStrays(st) + StrayBit(st, Other(Prose(t)))
  {
    if IsHeading(t) {
      HeadingIsNoAnnotation(t);
    }
    hide IsBullet, ParseStep, BulletBody, WellFormedScenario, WellFormedScenarios, Stored, Headings, IsHeading,
         ParsedOk, ParsedWeight,
         NoAnnotations, Annotation, PreviouslyMark, RationaleMark, StateOk, StateWeight, StateStrays;
    if st.cur.Some? && Annotation(t, PreviouslyMark()).Some? {
      AnnotationValue(t, PreviouslyMark());
      var a := st.cur.value.(previously := Annotation(t, PreviouslyMark()).value);
      AccumKeeps(st, a);
      AnnotationOk(st, a);
    } else if st.cur.Some? && Annotation(t, RationaleMark()).Some? {
      AnnotationValue(t, RationaleMark());
      var a := st.cur.value.(rationale := Annotation(t, RationaleMark()).value);
      AccumKeeps(st, a);
      AnnotationOk(st, a);
    } else if IsBullet(t) && st.scen.Some? {
      BulletOk(st, t);
    } else if st.cur.Some? && st.scen.None? {
      StatementOk(st, t);
    }
  }

  lemma AccumKeeps(st: State, a: Accum)
    requires StateOk(st) && st.cur.Some? && OneLine(a.previously) && OneLine(a.rationale)
    requires a == st.cur.value.(previously := a.previously) || a == st.cur.value.(rationale := a.rationale)
    ensures AccumOk(a) && AccumWeight(a) <= AccumWeight(st.cur.value) + 1
  {
    hide OneLine, WellFormedScenarios, Sum, ParsedOk, Stored, NoAnnotations;
  }

  /** One token adds at most the line it is made of. */
  lemma TokenStep(st: State, t: Token)
    requires StateOk(st) && TokenOk(t)
    ensures var r := StepToken(st, t);
            && StateOk(r) && StateWeight(r) <= StateWeight(st) + ProseBit(t)
            && StateStrays(r) == StateStrays(st) + StrayBit(st, t)
  {
    hide FlushScenario, FlushRequirement, StepProse, OneLine, StateOk, StateWeight, StateStrays, SectionOf, IsHeading;
    match t
    case ScenarioHead(name) => HeadOk(st, name);
    case RequirementHead(name) => FlushRequirementOk(st); OpenOk(FlushRequirement(st), name);
    case Other(H2(heading)) => FlushRequirementOk(st); SectionOk(FlushRequirement(st), SectionOf(heading));
    case Other(H1(title)) => TitleOk(st, title);
    case Other(Blank) =>
    case Other(Prose(text)) => ProseOk(st, text);
  }

  lemma TitleOk(st: State, title: string)
    requires StateOk(st) && OneLine(title)
    ensures var r := st.(title := title);
            StateOk(r) && StateWeight(r) == StateWeight(st) && StateStrays(r) == StateStrays(st)
  {
    hide Stored, NoAnnotations, Headings, ParsedWeight, ParsedOk, AccumOk, AccumWeight, OneLine, Sum;
  }

  /** How many kept statement lines read as headings, over a run. */
  function RunStrays(st: State, ts: seq<Token>): nat {
    CountAlong(StepToken, StrayBit, st, ts)
  }

  lemma {:induction false} RunKeeps(st: State, ts: seq<Token>)
    requires StateOk(st) && TokensOk(ts)
    ensures var r := Run(st, ts);
            && StateOk(r) && StateWeight(r) <= StateWeight(st) + Sum(ProseBit, ts)
            && StateStrays(r) == StateStrays(st) + RunStrays(st, ts)
    decreases |ts|
  {
    hide StepToken, StateOk, StateWeight, StateStrays, StrayBit, ProseBit, TokenOk;
    if ts != [] {
      TokenStep(st, ts[0]);
      RunKeeps(StepToken(st, ts[0]), ts[1..]);
    }
  }

  lemma InitOk(title: string)
    requires OneLine(title)
    ensures var st := INIT.(title := title);
            StateOk(st) && StateWeight(st) == 0 && StateStrays(st) == 0
  {
    NothingOk();
  }

  lemma FinishCounts(st: State)
    requires StateOk(st)
    ensures LooseDelta(Finish(st)) && DeltaWeight(Finish(st)) <= StateWeight(st)
            && DeltaStrays(Finish(st)) == StateStrays(st)
  {
    var r := FlushRequirement(st);
    hide FlushRequirement, Stored, Headings, Sum, OneLine, NoAnnotations, LooseBlock, LooseModified, LooseRemoved;
    FlushRequirementOk(st);
    NothingOk();
  }

  lemma WellFormedCount(d: Delta)
    requires LooseDelta(d)
    ensures WellFormedDelta(d) <==> DeltaStrays(d) == 0
  {
    hide Headings, NoHeadings, BlockLines, LooseBlock, LooseModified, LooseRemoved, OneLine;
    SumZero(Strays, d.added);
    SumZero(ModifiedStrays, d.modified);
    forall i | 0 <= i < |d.added|
      ensures NoHeadings(BlockLines(d.added[i].statement)) <==> Strays(d.added[i]) == 0
    {
      NoHeadingsCount(BlockLines(d.added[i].statement));
    }
    forall i | 0 <= i < |d.modified|
      ensures NoHeadings(BlockLines(d.modified[i].requirement.statement)) <==> ModifiedStrays(d.modified[i]) == 0
    {
      NoHeadingsCount(BlockLines(d.modified[i].requirement.statement));
    }
  }

  // --- the theorem ---

  /** No statement line that an ADDED or MODIFIED requirement keeps reads as a heading. The
      parser state at a line is fixed by the lines before it. */
  predicate NoIndentedHeadingStored(md: string) {
    var ts := Map(Classify, Lines(md));
    forall k :: 0 <= k < |ts| ==> !StoresHeading(Run(INIT, ts[..k]), ts[k])
  }

  lemma RunStraysZero(st: State, ts: seq<Token>)
    ensures RunStrays(st, ts) == 0 <==> forall k :: 0 <= k < |ts| ==> !StoresHeading(Run(st, ts[..k]), ts[k])
  {
    hide StepToken, StoresHeading, Fold, CountAlong;
    CountAlongZero(StepToken, StrayBit, st, ts);
    assert forall k :: 0 <= k < |ts| ==> (StoresHeading(Run(st, ts[..k]), ts[k])
                                          <==> StrayBit(Run(st, ts[..k]), ts[k]) != 0);
  }

  /** Parser output is well formed exactly when no indented heading was kept. */
  lemma ParsedWellFormed(md: string)
    ensures LooseDelta(DeltaOf(md))
    ensures WellFormedDelta(DeltaOf(md)) <==> NoIndentedHeadingStored(md)
  {
    var ts := Map(Classify, Lines(md));
    assert INIT.(title := "") == INIT;
    hide Map, Lines, Classify, Fold, StepToken, Finish, StateOk, StateWeight, StateStrays, StoresHeading, RunStrays,
         LooseDelta, WellFormedDelta, DeltaStrays, DeltaWeight, TokensOk;
    EmptyLine();
    InitOk("");
    TokensOfLines(Lines(md));
    RunKeeps(INIT, ts);
    FinishCounts(Run(INIT, ts));
    RunStraysZero(INIT, ts);
    WellFormedCount(DeltaOf(md));
  }

  // --- how many lines a rendered delta holds ---

  lemma {:induction false} ModifiedCount(ms: seq<ModifiedRequirement>)
    requires forall i :: 0 <= i < |ms| ==> LooseModified(ms[i])
    ensures Sum(ProseBit, FlatMap(ModifiedTokens, ms)) + Sum(ModifiedStrays, ms) == Sum(ModifiedWeight, ms)
  {
    hide RequirementTokens, Strays, Weight, ProseBit, Loose, NoAnnotations, OneLine;
    if ms != [] {
      ModifiedCount(ms[1..]);
      RequirementCount(ms[0].requirement, ms[0].previously, "");
      SumConcat(ProseBit, ModifiedTokens(ms[0]), FlatMap(ModifiedTokens, ms[1..]));
    }
  }

  lemma {:induction false} RemovedCount(rs: seq<RemovedRequirement>)
    requires forall i :: 0 <= i < |rs| ==> LooseRemoved(rs[i])
    ensures Sum(ProseBit, FlatMap(RemovedTokens, rs)) == Sum(RemovedWeight, rs)
  {
    hide RequirementTokens, Strays, Weight, ProseBit, Loose, OneLine;
    if rs != [] {
      RemovedCount(rs[1..]);
      BareLoose(rs[0].name);
      RequirementCount(Bare(rs[0].name), "", rs[0].rationale);
      SumConcat(ProseBit, RemovedTokens(rs[0]), FlatMap(RemovedTokens, rs[1..]));
    }
  }

  lemma BlocksCount<A>(heading: string, g: A -> seq<Token>, xs: seq<A>)
    requires OneLine(heading)
    ensures Sum(ProseBit, BlockSection(heading, g, xs)) == Sum(ProseBit, FlatMap(g, xs))
  {
    hide ProseBit, SectionTokens;
    if xs != [] {
      SectionBits(heading);
      SumConcat(ProseBit, SectionTokens(heading), FlatMap(g, xs));
    }
  }

  lemma SectionBits(heading: string)
    ensures Sum(ProseBit, SectionTokens(heading)) == 0
  {
    SumTwo(ProseBit, Other(Blank), Other(H2(heading)));
  }

  lemma BodyCount(d: Delta)
    requires LooseDelta(d)
    ensures Sum(ProseBit, BodyTokens(d)) + DeltaStrays(d) == DeltaWeight(d)
  {
    var a, m, r := BlockSection(AddedName(), PlainTokens, d.added),
        BlockSection(ModifiedName(), ModifiedTokens, d.modified),
                   BlockSection(RemovedName(), RemovedTokens, d.removed);
    hide FlatMap, BlockSection, Sum, Loose, NoAnnotations, OneLine, AddedName, ModifiedName, RemovedName;
    NameShapes();
    PlainCount(d.added);
    ModifiedCount(d.modified);
    RemovedCount(d.removed);
    BlocksCount(AddedName(), PlainTokens, d.added);
    BlocksCount(ModifiedName(), ModifiedTokens, d.modified);
    BlocksCount(RemovedName(), RemovedTokens, d.removed);
    SumConcat(ProseBit, a, m);
    SumConcat(ProseBit, a + m, r);
  }

  lemma BodyTokensOk(d: Delta)
    requires LooseDelta(d)
    ensures TokensOk(BodyTokens(d))
  {
    hide Classify, BodyTokens, TokenOk, DeltaLines, LooseDelta;
    LexDelta(d);
    TokensOfLines(DeltaLines(d));
    TokensOkTail(TitleTokens(d.title), BodyTokens(d));
  }

  lemma TokensOkTail(a: seq<Token>, b: seq<Token>)
    requires TokensOk(a + b)
    ensures TokensOk(b)
  {
    hide TokenOk;
    forall i | 0 <= i < |b|
      ensures TokenOk(b[i])
    {
      assert (a + b)[|a| + i] == b[i];
    }
  }

  /** Re-parsing keeps at most the lines that do not read as headings. */
  lemma ReparseWeight(d: Delta)
    requires LooseDelta(d)
    ensures DeltaWeight(DeltaOf(DeltaText(d))) + DeltaStrays(d) <= DeltaWeight(d)
  {
    var st := INIT.(title := d.title);
    assert OneLine(d.title);
    hide Fold, Finish, BodyTokens, StepToken, StateOk, StateWeight, StateStrays, TokensOk, DeltaWeight, DeltaStrays,
         LooseDelta,
         DeltaOf, DeltaText;
    InitOk(d.title);
    Reparse(d);
    BodyCount(d);
    BodyTokensOk(d);
    RunKeeps(st, BodyTokens(d));
    FinishCounts(Run(st, BodyTokens(d)));
  }

  /** parse(render(parse(md))) == parse(md), on every modelled field, if and only if no
      ADDED or MODIFIED statement kept an indented heading. */
  lemma StableIff(md: string)
    ensures DeltaOf(DeltaText(DeltaOf(md))).(warnings := []) == DeltaOf(md).(warnings := [])
            <==> NoIndentedHeadingStored(md)
  {
    var d := DeltaOf(md);
    hide DeltaOf, DeltaText, NoIndentedHeadingStored, WellFormedDelta, LooseDelta, DeltaStrays;
    ParsedWellFormed(md);
    if NoIndentedHeadingStored(md) {
      RoundTrip(d);
    } else {
      WellFormedCount(d);
      ReparseWeight(d);
      assert DeltaWeight(d.(warnings := [])) == DeltaWeight(d);
    }
  }

  /** Without indented headings a delta text is stable. */
  lemma CleanTextIsStable(md: string)
    requires NoIndentedHeading(md)
    ensures WellFormedDelta(DeltaOf(md))
    ensures DeltaOf(DeltaText(DeltaOf(md))).(warnings := []) == DeltaOf(md).(warnings := [])
  {
    var ts := Map(Classify, Lines(md));
    hide Lines, Classify, Fold, StepToken, DeltaOf, DeltaText, WellFormedDelta, IsHeading, Trim, TrimCut;
    forall k | 0 <= k < |ts|
      ensures !StoresHeading(Run(INIT, ts[..k]), ts[k])
    {
      if ts[k].Other? && ts[k].top.Prose? {
        ProseIsNoHeading(Lines(md)[k]);
      }
    }
    ParsedWellFormed(md);
    StableIff(md);
  }
}
