/** When is parse(render(parse(x))) == parse(x) for proposals?  Exactly when no line kept as
    prose reads as a heading without its indentation, and no section heading is blank. */
module ProposalStability {
  import opened Seqs
  import opened Text
  import opened OpenSpecModel
  import opened Lexer
  import opened SpecRenderer
  import opened PlainLexing
  import opened ProposalFormat
  import opened ProposalRoundTrip

  // --- what every run of the parser keeps ---

  predicate StateOk(st: State) {
    && OneLine(st.title) && Stored(st.intent) && Stored(st.approach) && Stored(st.extraRaw)
    && Items(st.scopeInItems) && Items(st.scopeOutItems) && LooseExtras(st.extras)
    && (st.extra.Some? ==> OneLine(st.extra.value) && SectionOf(st.extra.value).NoSection?)
    && (st.extra.None? ==> st.extraRaw == [])
  }

  function StateWeight(st: State): nat {
    |st.intent| + |st.approach| + |st.scopeInItems| + |st.scopeOutItems| + |st.extraRaw| + Sum(ExtraWeight, st.extras)
  }

  function StateStrays(st: State): nat {
    Tops(st.intent) + Tops(st.approach) + Tops(st.extraRaw) + Sum(ExtraStrays, st.extras)
  }

  /** Sections whose prose is kept line by line. */
  predicate KeepsProse(st: State) {
    st.section.IntentSection? || st.section.ApproachSection? || (st.section.NoSection? && st.extra.Some?)
  }

  /** The parser is about to keep a prose line that reads as a heading or a title. */
  predicate StoresHeading(st: State, t: Top) {
    t.Prose? && IsTopHeading(t.text) && KeepsProse(st)
  }

  function StrayBit(st: State, t: Top): nat {
    if StoresHeading(st, t) then 1 else 0
  }

  lemma NothingOk()
    ensures Tops([]) == 0 && Stored([])
  {
  }

  lemma ExtraOk(heading: string, raw: seq<string>)
    requires OneLine(heading) && SectionOf(heading).NoSection? && Stored(raw)
    ensures var sec := MarkdownSection(heading, Trim(Join(raw)));
            LooseExtra(sec) && ExtraWeight(sec) == |raw| && ExtraStrays(sec) == Tops(raw)
  {
    hide Trim, Join, Stored, Tops, SectionOf, OneLine, BlockLines;
    BlockOfJoin(raw);
  }

  lemma FlushOk(st: State)
    requires StateOk(st)
    ensures var r := FlushExtra(st);
            StateOk(r) && StateWeight(r) == StateWeight(st) && StateStrays(r) == StateStrays(st)
  {
    hide Trim, Join, Stored, Tops, SectionOf, OneLine, Items, LooseExtra, ExtraWeight, ExtraStrays, Sum;
    NothingOk();
    if st.extra.Some? {
      var sec := MarkdownSection(st.extra.value, Trim(Join(st.extraRaw)));
      ExtraOk(st.extra.value, st.extraRaw);
      SumSnoc(ExtraWeight, st.extras, sec);
      SumSnoc(ExtraStrays, st.extras, sec);
    }
  }

  lemma OpenedOk(st: State, section: Section, scopeOut: bool, extra: Option<string>)
    requires StateOk(st) && st.extra.None? && st.extraRaw == []
    requires extra.Some? ==> OneLine(extra.value) && SectionOf(extra.value).NoSection?
    ensures var r := st.(section := section, scopeOut := scopeOut, extra := extra);
            StateOk(r) && StateWeight(r) == StateWeight(st) && StateStrays(r) == StateStrays(st)
  {
    hide Stored, Tops, SectionOf, OneLine, Items, LooseExtras, Sum;
  }

  lemma OpenOk(st: State, heading: string)
    requires StateOk(st) && OneLine(heading)
    ensures var r := OpenSection(st, heading);
            StateOk(r) && StateWeight(r) == StateWeight(st) && StateStrays(r) == StateStrays(st)
  {
    hide FlushExtra, StateOk, StateWeight, StateStrays, SectionOf, OneLine;
    FlushOk(st);
    FlushedExtra(st);
    OpenedOk(FlushExtra(st), SectionOf(heading), false, if SectionOf(heading).NoSection? then Some(heading) else None);
  }

  lemma FlushedExtra(st: State)
    ensures FlushExtra(st).extra.None? && FlushExtra(st).extraRaw == []
  {
  }

  lemma ItemsSnoc(items: seq<string>, item: string)
    requires Items(items) && item != "" && OneLine(item)
    ensures Items(items + [item])
  {
    hide OneLine;
  }

  lemma ItemOk(t: string)
    requires OneLine(t) && ScopeOf(t).Item?
    ensures ScopeOf(t).body != "" && OneLine(ScopeOf(t).body)
  {
    hide OneLine, BulletBody, IsBullet, ToLower;
    BulletBodyNotEmpty(t);
  }

  lemma ScopeOk(st: State, t: string)
    requires StateOk(st) && t != "" && OneLine(t)
    ensures var r := StepScope(st, t);
            StateOk(r) && StateWeight(r) <= StateWeight(st) + 1 && StateStrays(r) == StateStrays(st)
  {
    hide ScopeOf, OneLine, Stored, Tops, SectionOf, Items, LooseExtras, Sum;
    if ScopeOf(t).Item? {
      ItemOk(t);
      ItemsSnoc(st.scopeInItems, ScopeOf(t).body);
      ItemsSnoc(st.scopeOutItems, ScopeOf(t).body);
    }
  }

  lemma ProseOk(st: State, t: string)
    requires StateOk(st) && t != "" && OneLine(t)
    ensures var r := StepProse(st, t);
            && StateOk(r) && StateWeight(r) <= StateWeight(st) + 1
            && StateStrays(r) == StateStrays(st) + StrayBit(st, Prose(t))
  {
    hide StepScope, OneLine, Stored, Tops, SectionOf, Items, LooseExtras, Sum, IsTopHeading;
    match st.section
    case IntentSection => StoredTopSnoc(st.intent, t);
    case ApproachSection => StoredTopSnoc(st.approach, t);
    case ScopeSection => ScopeOk(st, t);
    case NoSection => StoredTopSnoc(st.extraRaw, t);
  }

  /** One token adds at most the line it is made of. */
  lemma TopStep(st: State, t: Top)
    requires StateOk(st) && TopOk(t)
    ensures var r := StepTop(st, t);
            && StateOk(r) && StateWeight(r) <= StateWeight(st) + PlainBit(t)
            && StateStrays(r) == StateStrays(st) + StrayBit(st, t)
  {
    hide OpenSection, StepProse, StateOk, StateWeight, StateStrays, OneLine, IsTopHeading;
    match t
    case H2(heading) => OpenOk(st, heading);
    case H1(title) => TitleOk(st, title);
    case Blank =>
    case Prose(text) => ProseOk(st, text);
  }

  lemma TitleOk(st: State, title: string)
    requires StateOk(st) && OneLine(title)
    ensures var r := st.(title := title);
            StateOk(r) && StateWeight(r) == StateWeight(st) && StateStrays(r) == StateStrays(st)
  {
    hide OneLine, Stored, Tops, SectionOf, Items, LooseExtras, Sum;
  }

  /** How many kept lines read as headings, over a run. */
  function RunStrays(st: State, ts: seq<Top>): nat {
    CountAlong(StepTop, StrayBit, st, ts)
  }

  lemma {:induction false} RunKeeps(st: State, ts: seq<Top>)
    requires StateOk(st) && TopsOk(ts)
    ensures var r := Run(st, ts);
            && StateOk(r) && StateWeight(r) <= StateWeight(st) + Sum(PlainBit, ts)
            && StateStrays(r) == StateStrays(st) + RunStrays(st, ts)
    decreases |ts|
  {
    hide StepTop, StateOk, StateWeight, StateStrays, StrayBit, PlainBit, TopOk;
    if ts != [] {
      TopStep(st, ts[0]);
      RunKeeps(StepTop(st, ts[0]), ts[1..]);
    }
  }

  lemma InitOk(title: string)
    requires OneLine(title)
    ensures var st := INIT.(title := title);
            StateOk(st) && StateWeight(st) == 0 && StateStrays(st) == 0
  {
    NothingOk();
  }

  lemma FinishCounts(st: State)
    requires StateOk(st)
    ensures Loose(Finish(st)) && Weight(Finish(st)) == StateWeight(st) && Strays(Finish(st)) == StateStrays(st)
  {
    var r := FlushExtra(st);
    hide FlushExtra, Trim, Join, BlockLines, Stored, Tops, Sum, OneLine, Items, LooseExtras, SectionOf;
    FlushOk(st);
    FlushedExtra(st);
    NothingOk();
    BlockOfJoin(r.intent);
    BlockOfJoin(r.approach);
  }

  // --- blank headings ---

  predicate NamedState(st: State) {
    Named(st.extras) && (st.extra.Some? ==> st.extra.value != "")
  }

  predicate NoBlankHeading(ts: seq<Top>) {
    forall i :: 0 <= i < |ts| ==> ts[i] != H2("")
  }

  lemma BlankIsExtra()
    ensures SectionOf("").NoSection?
  {
    TrimId("");
    hide Trim;
    assert ToLower("") == "";
  }

  lemma NamedStep(st: State, t: Top)
    ensures NamedState(StepTop(st, t)) <==> NamedState(st) && t != H2("")
  {
    BlankIsExtra();
    hide SectionOf, ScopeOf, Trim, Join;
    if st.extra.Some? {
      NamedSnoc(st.extras, MarkdownSection(st.extra.value, Trim(Join(st.extraRaw))));
    }
  }

  lemma NamedSnoc(secs: seq<MarkdownSection>, sec: MarkdownSection)
    ensures Named(secs + [sec]) <==> Named(secs) && sec.heading != ""
  {
    if Named(secs + [sec]) {
      assert (secs + [sec])[|secs|] == sec;
      assert forall i :: 0 <= i < |secs| ==> (secs + [sec])[i] == secs[i];
    }
  }

  lemma {:induction false} RunNamed(st: State, ts: seq<Top>)
    ensures NamedState(Run(st, ts)) <==> NamedState(st) && NoBlankHeading(ts)
    decreases |ts|
  {
    hide StepTop, NamedState;
    if ts != [] {
      NamedStep(st, ts[0]);
      RunNamed(StepTop(st, ts[0]), ts[1..]);
      assert forall i :: 1 <= i < |ts| ==> ts[i] == ts[1..][i - 1];
      assert NoBlankHeading(ts) <==> ts[0] != H2("") && NoBlankHeading(ts[1..]) by {
        if NoBlankHeading(ts) {
          assert forall i :: 0 <= i < |ts[1..]| ==> ts[1..][i] == ts[i + 1];
        }
      }
    }
  }

  lemma FinishNamed(st: State)
    ensures Named(Finish(st).extras) <==> NamedState(st)
  {
    hide Trim, Join;
    if st.extra.Some? {
      NamedSnoc(st.extras, MarkdownSection(st.extra.value, Trim(Join(st.extraRaw))));
    }
  }

  // --- the theorem ---

  /** No kept prose line reads as a heading. The parser state at a line is fixed by the
      lines before it. */
  predicate NoIndentedHeadingStored(md: string) {
    var ts := Map(ClassifyPlain, Lines(md));
    forall k :: 0 <= k < |ts| ==> !StoresHeading(Run(INIT, ts[..k]), ts[k])
  }

  /** No line opens a section with a blank name. */
  predicate HeadingsNamed(md: string) {
    NoBlankHeading(Map(ClassifyPlain, Lines(md)))
  }

  lemma RunStraysZero(st: State, ts: seq<Top>)
    ensures RunStrays(st, ts) == 0 <==> forall k :: 0 <= k < |ts| ==> !StoresHeading(Run(st, ts[..k]), ts[k])
  {
    hide StepTop, StoresHeading, Fold, CountAlong;
    CountAlongZero(StepTop, StrayBit, st, ts);
    assert forall k :: 0 <= k < |ts| ==> (StoresHeading(Run(st, ts[..k]), ts[k])
                                          <==> StrayBit(Run(st, ts[..k]), ts[k]) != 0);
  }

  lemma ParsedWellFormed(md: string)
    ensures Loose(ProposalOf(md))
    ensures Strays(ProposalOf(md)) == 0 <==> NoIndentedHeadingStored(md)
    ensures Named(ProposalOf(md).extras) <==> HeadingsNamed(md)
  {
    var ts := Map(ClassifyPlain, Lines(md));
    InitBlank();
    hide Map, Lines, ClassifyPlain, Fold, StepTop, Finish, StateOk, StateWeight, StateStrays, StoresHeading, RunStrays,
         Loose, Strays, Weight, TopsOk, NamedState, NoBlankHeading, Named;
    TopsOfLines(Lines(md));
    RunKeeps(INIT, ts);
    FinishCounts(Run(INIT, ts));
    RunStraysZero(INIT, ts);
    RunNamed(INIT, ts);
    FinishNamed(Run(INIT, ts));
  }

  lemma InitBlank()
    ensures StateOk(INIT) && StateWeight(INIT) == 0 && StateStrays(INIT) == 0 && NamedState(INIT)
  {
    assert INIT.(title := "") == INIT;
    InitOk("");
  }

  // --- how many lines a rendered proposal holds ---

  lemma {:induction false} ExtrasCount(secs: seq<MarkdownSection>)
    requires LooseExtras(secs)
    ensures Sum(PlainBit, FlatMap(ExtraTops, secs)) + Sum(ExtraStrays, secs) <= Sum(ExtraWeight, secs)
  {
    hide ExtraTops, LooseExtra, ExtraStrays, ExtraWeight, PlainBit;
    if secs != [] {
      ExtrasCount(secs[1..]);
      ExtraCount(secs[0]);
      SumConcat(PlainBit, ExtraTops(secs[0]), FlatMap(ExtraTops, secs[1..]));
    }
  }

  lemma ExtraCount(sec: MarkdownSection)
    requires LooseExtra(sec)
    ensures Sum(PlainBit, ExtraTops(sec)) + ExtraStrays(sec) <= ExtraWeight(sec)
  {
    hide SectionTops, BlockLines, ClassifyPlain, Map, Stored, PlainBit, SectionOf, OneLine, Tops;
    PlainBlockCount(BlockLines(sec.body));
    if sec.heading != "" {
      SectionBits(sec.heading);
      SumConcat(PlainBit, SectionTops(sec.heading), BlockTops(sec.body));
    }
  }

  lemma ScopeWeight(st: State, p: Proposal)
    requires StateOk(st) && Items(p.scopeIn) && Items(p.scopeOut)
    ensures var r := Run(st, ScopeTops(p));
            StateOk(r) && StateWeight(r) == StateWeight(st) + |p.scopeIn| + |p.scopeOut|
  {
    hide Fold, InTops, OutTops, SectionTops, StepTop, FlushExtra, OneLine, Stored, Tops, SectionOf, LooseExtras, Sum;
    if p.scopeIn == [] && p.scopeOut == [] {
      RunNothing(st);
    } else {
      RunScope(st, p);
      FlushOk(st);
      ScopeUntouched(st);
    }
  }

  lemma ScopeUntouched(st: State)
    ensures FlushExtra(st).scopeInItems == st.scopeInItems && FlushExtra(st).scopeOutItems == st.scopeOutItems
  {
    hide Trim, Join;
  }

  lemma BodyTopsOk(p: Proposal)
    requires Loose(p)
    ensures TopsOk(ProseSectionTops("Intent", p.intent)) && TopsOk(ProseSectionTops("Approach", p.approach))
    ensures TopsOk(FlatMap(ExtraTops, p.extras))
  {
    hide ProseSectionTops, ProseSection, ClassifyPlain, TopsOk, Map, FlatMap, ExtraLines, NoBreaks, OneLine, Stored,
         Items, LooseExtras;
    NameShapes();
    PlainProseSection("Intent", p.intent);
    PlainProseSection("Approach", p.approach);
    LexExtras(p.extras);
    TopsOfLines(ProseSection("Intent", p.intent));
    TopsOfLines(ProseSection("Approach", p.approach));
    TopsOfLines(FlatMap(ExtraLines, p.extras));
  }

  /** Re-parsing keeps at most the lines that do not read as headings. */
  lemma ReparseWeight(p: Proposal)
    requires Loose(p)
    ensures Weight(ProposalOf(ProposalText(p))) + Strays(p) <= Weight(p)
  {
    var st0 := INIT.(title := p.title);
    var a, b, c, d := ProseSectionTops("Intent", p.intent), ScopeTops(p), ProseSectionTops("Approach", p.approach),
        FlatMap(ExtraTops, p.extras);
    var st1 := Run(st0, a);
    var st2 := Run(st1, b);
    var st3 := Run(st2, c);
    var st4 := Run(st3, d);
    Reparse(p);
    FoldConcatFour(StepTop, st0, a, b, c, d);
    hide Fold, FlatMap, ProseSectionTops, ScopeTops, Finish, StepTop, StateOk, StateWeight, StateStrays, TopsOk,
         BlockLines, Stored,
         Items, LooseExtras, OneLine, Sum, Tops, ProposalOf, ProposalText, BodyTops;
    InitOk(p.title);
    BodyTopsOk(p);
    RunKeeps(st0, a);
    ScopeWeight(st1, p);
    RunKeeps(st2, c);
    RunKeeps(st3, d);
    FinishCounts(st4);
    ProseSectionCount("Intent", p.intent);
    ProseSectionCount("Approach", p.approach);
    ExtrasCount(p.extras);
  }

  lemma NamedConcat(a: seq<Top>, b: seq<Top>)
    requires NoBlankHeading(a) && NoBlankHeading(b)
    ensures NoBlankHeading(a + b)
  {
  }

  lemma BodyNamed(p: Proposal)
    requires Loose(p)
    ensures NoBlankHeading(BodyTops(p))
  {
    var a, b, c, d := ProseSectionTops("Intent", p.intent), ScopeTops(p), ProseSectionTops("Approach", p.approach),
        FlatMap(ExtraTops, p.extras);
    hide ProseSectionTops, ScopeTops, FlatMap, OneLine, Stored, Items, LooseExtras, NoBlankHeading, BlockLines;
    ProseNamed("Intent", p.intent);
    ProseNamed("Approach", p.approach);
    ScopeNamed(p);
    ExtrasNamed(p.extras);
    NamedConcat(a, b);
    NamedConcat(a + b, c);
    NamedConcat(a + b + c, d);
  }

  lemma PlainNotBlank(ls: seq<string>)
    requires Stored(ls)
    ensures NoBlankHeading(Map(ClassifyPlain, ls))
  {
    hide ClassifyPlain;
    forall i | 0 <= i < |ls|
      ensures ClassifyPlain(ls[i]) != H2("")
    {
      StoredNotBlank(ls[i]);
    }
  }

  /** A stored line that reads as a heading has a name: its last character is no blank. */
  lemma StoredNotBlank(l: string)
    requires l != "" && OneLine(l)
    ensures ClassifyPlain(l) != H2("")
  {
    TrimCutId(l);
    if SectionMark() <= l {
      MarkHeads(l);
      assert |SectionMark()| == 3 && IsSpace(' ');
      hide SectionMark, TitleMark, Trim, IsSpace;
      var rest := l[|SectionMark()|..];
      assert rest != "";
      assert rest[|rest| - 1] == l[|l| - 1];
      TrimNotEmpty(rest);
    }
  }

  lemma ProseNamed(heading: string, prose: string)
    requires heading != "" && Stored(BlockLines(prose))
    ensures NoBlankHeading(ProseSectionTops(heading, prose))
  {
    hide Lines, ClassifyPlain, Map, Stored;
    PlainNotBlank(BlockLines(prose));
  }

  lemma ScopeNamed(p: Proposal)
    ensures NoBlankHeading(ScopeTops(p))
  {
    hide InLabelLine, OutLabelLine, BulletLine;
    ItemsNamed(p.scopeIn);
    ItemsNamed(p.scopeOut);
    hide Map;
  }

  lemma ItemsNamed(items: seq<string>)
    ensures NoBlankHeading(Map(ItemTop, items))
  {
    hide BulletLine;
  }

  lemma {:induction false} ExtrasNamed(secs: seq<MarkdownSection>)
    requires LooseExtras(secs)
    ensures NoBlankHeading(FlatMap(ExtraTops, secs))
  {
    hide BlockLines, ClassifyPlain, Map, Stored, SectionOf, OneLine;
    if secs != [] {
      assert LooseExtra(secs[0]);
      ExtrasNamed(secs[1..]);
      PlainNotBlank(BlockLines(secs[0].body));
    }
  }

  /** Re-parsing a rendered proposal never yields an unnamed section. */
  lemma ReparseNamed(p: Proposal)
    requires Loose(p)
    ensures Named(ProposalOf(ProposalText(p)).extras)
  {
    var st := INIT.(title := p.title);
    hide Fold, StepTop, Finish, BodyTops, Loose, NoBlankHeading, ProposalOf, ProposalText, Named;
    assert NamedState(st) by {
      TitledNamed(p.title);
    }
    Reparse(p);
    BodyNamed(p);
    RunNamed(st, BodyTops(p));
    FinishNamed(Run(st, BodyTops(p)));
  }

  lemma TitledNamed(title: string)
    ensures NamedState(INIT.(title := title))
  {
  }

  /** parse(render(parse(md))) == parse(md) if and only if no indented heading was kept as
      prose and no section heading is blank. */
  lemma StableIff(md: string)
    ensures ProposalOf(ProposalText(ProposalOf(md))) == ProposalOf(md)
            <==> NoIndentedHeadingStored(md) && HeadingsNamed(md)
  {
    var p := ProposalOf(md);
    hide ProposalOf, ProposalText, NoIndentedHeadingStored, HeadingsNamed, Loose, Strays, Named, Weight;
    ParsedWellFormed(md);
    if NoIndentedHeadingStored(md) && HeadingsNamed(md) {
      RoundTrip(p);
    } else if !HeadingsNamed(md) {
      ReparseNamed(p);
    } else {
      ReparseWeight(p);
    }
  }

  /** Without indented or blank section headings a proposal text is stable. */
  lemma CleanTextIsStable(md: string)
    requires NoIndentedTop(md) && HeadingsNamed(md)
    ensures ProposalOf(ProposalText(ProposalOf(md))) == ProposalOf(md)
  {
    var ts := Map(ClassifyPlain, Lines(md));
    hide Lines, ClassifyPlain, Fold, StepTop, ProposalOf, ProposalText, IsTopHeading, Trim, TrimCut, HeadingsNamed;
    forall k | 0 <= k < |ts|
      ensures !StoresHeading(Run(INIT, ts[..k]), ts[k])
    {
      if ts[k].Prose? {
        ProseIsNoTop(Lines(md)[k]);
      }
    }
    StableIff(md);
  }
}
