/** parse(render(p)) == p on every well-formed proposal. */
module ProposalRoundTrip {
  import opened Seqs
  import opened Text
  import opened OpenSpecModel
  import opened Lexer
  import opened SpecRenderer
  import opened PlainLexing
  import opened ProposalFormat

  // --- which proposals the format can carry ---

  predicate Items(items: seq<string>) {
    forall i :: 0 <= i < |items| ==> items[i] != "" && OneLine(items[i])
  }

  predicate LooseExtra(sec: MarkdownSection) {
    OneLine(sec.heading) && SectionOf(sec.heading).NoSection? && Stored(BlockLines(sec.body))
  }

  predicate LooseExtras(secs: seq<MarkdownSection>) {
    forall i :: 0 <= i < |secs| ==> LooseExtra(secs[i])
  }

  /** What every parser run yields. */
  predicate Loose(p: Proposal) {
    && OneLine(p.title) && Stored(BlockLines(p.intent)) && Stored(BlockLines(p.approach))
    && Items(p.scopeIn) && Items(p.scopeOut) && LooseExtras(p.extras)
  }

  function ExtraStrays(sec: MarkdownSection): nat {
    Tops(BlockLines(sec.body))
  }

  /** Stored prose lines that read as a heading or a title. */
  function Strays(p: Proposal): nat {
    Tops(BlockLines(p.intent)) + Tops(BlockLines(p.approach)) + Sum(ExtraStrays, p.extras)
  }

  predicate Named(secs: seq<MarkdownSection>) {
    forall i :: 0 <= i < |secs| ==> secs[i].heading != ""
  }

  /** Everything the proposal format can carry. */
  predicate WellFormed(p: Proposal) {
    Loose(p) && Strays(p) == 0 && Named(p.extras)
  }

  function ExtraWeight(sec: MarkdownSection): nat {
    |BlockLines(sec.body)|
  }

  function Weight(p: Proposal): nat {
    |BlockLines(p.intent)| + |BlockLines(p.approach)| + |p.scopeIn| + |p.scopeOut| + Sum(ExtraWeight, p.extras)
  }

  // --- the tokens of a rendered proposal ---

  function ItemTop(item: string): Top {
    Prose(BulletLine(item))
  }

  function InTops(items: seq<string>): seq<Top> {
    if items == [] then [] else [Prose(InLabelLine())] + Map(ItemTop, items)
  }

  function OutTops(items: seq<string>, afterIn: bool): seq<Top> {
    if items == [] then [] else (if afterIn then [Blank] else []) + [Prose(OutLabelLine())] + Map(ItemTop, items)
  }

  function ScopeTops(p: Proposal): seq<Top> {
    if p.scopeIn == [] && p.scopeOut == [] then []
    else SectionTops("Scope") + InTops(p.scopeIn) + OutTops(p.scopeOut, p.scopeIn != [])
  }

  function ExtraTops(sec: MarkdownSection): seq<Top> {
    if sec.heading == "" then [] else SectionTops(sec.heading) + BlockTops(sec.body)
  }

  /** What follows the title. */
  function BodyTops(p: Proposal): seq<Top> {
    ProseSectionTops("Intent", p.intent) + ScopeTops(p) + ProseSectionTops("Approach", p.approach)
        + FlatMap(ExtraTops, p.extras)
  }

  lemma LexItems(items: seq<string>)
    requires Items(items)
    ensures Map(ClassifyPlain, Map(BulletLine, items)) == Map(ItemTop, items)
    ensures NoBreaks(Map(BulletLine, items))
  {
    hide ClassifyPlain, BulletLine, OneLine;
    forall i | 0 <= i < |items|
      ensures ClassifyPlain(BulletLine(items[i])) == ItemTop(items[i]) && '\n' !in BulletLine(items[i])
    {
      PlainBullet(items[i]);
    }
  }

  lemma LabelShapes()
    ensures InLabelLine() != "" && OneLine(InLabelLine()) && InLabelLine()[0] != '#'
    ensures OutLabelLine() != "" && OneLine(OutLabelLine()) && OutLabelLine()[0] != '#'
  {
  }

  lemma LexLabels()
    ensures ClassifyPlain(InLabelLine()) == Prose(InLabelLine()) && '\n' !in InLabelLine()
    ensures ClassifyPlain(OutLabelLine()) == Prose(OutLabelLine()) && '\n' !in OutLabelLine()
  {
    hide InLabelLine, OutLabelLine, ClassifyTop, TrimCut, ScenarioMark, RequirementMark, SectionMark, TitleMark;
    LabelShapes();
    NotHash(InLabelLine());
    NotHash(OutLabelLine());
    ClassifyTopStored(InLabelLine());
    ClassifyTopStored(OutLabelLine());
  }

  lemma LexIn(items: seq<string>)
    requires Items(items)
    ensures Map(ClassifyPlain, InLines(items)) == InTops(items)
    ensures NoBreaks(InLines(items))
  {
    hide InLabelLine, OutLabelLine, ClassifyPlain, BulletLine, Items;
    LexLabels();
    LexItems(items);
    MapConcat(ClassifyPlain, [InLabelLine()], Map(BulletLine, items));
  }

  lemma LexOut(items: seq<string>, afterIn: bool)
    requires Items(items)
    ensures Map(ClassifyPlain, OutLines(items, afterIn)) == OutTops(items, afterIn)
    ensures NoBreaks(OutLines(items, afterIn))
  {
    hide InLabelLine, OutLabelLine, ClassifyPlain, BulletLine, Items;
    LexLabels();
    PlainBlank();
    LexItems(items);
    if items != [] {
      var lead := (if afterIn then [""] else []) + [OutLabelLine()];
      assert Map(ClassifyPlain, lead) == (if afterIn then [Blank] else []) + [Prose(OutLabelLine())];
      hide Map;
      MapConcat(ClassifyPlain, lead, Map(BulletLine, items));
    }
  }

  lemma LexScope(p: Proposal)
    requires Items(p.scopeIn) && Items(p.scopeOut)
    ensures Map(ClassifyPlain, ScopeLines(p)) == ScopeTops(p)
    ensures NoBreaks(ScopeLines(p))
  {
    hide ClassifyPlain, InLines, OutLines, InTops, OutTops, SectionHeader, SectionTops, Items, NoBreaks, Map;
    if p.scopeIn == [] && p.scopeOut == [] {
      PlainNothing();
    } else {
      PlainSection("Scope");
      LexIn(p.scopeIn);
      LexOut(p.scopeOut, p.scopeIn != []);
      MapConcat(ClassifyPlain, SectionHeader("Scope"), InLines(p.scopeIn));
      MapConcat(ClassifyPlain, SectionHeader("Scope") + InLines(p.scopeIn), OutLines(p.scopeOut, p.scopeIn != []));
      NoBreaksConcat(SectionHeader("Scope"), InLines(p.scopeIn));
      NoBreaksConcat(SectionHeader("Scope") + InLines(p.scopeIn), OutLines(p.scopeOut, p.scopeIn != []));
    }
  }

  lemma LexExtra(sec: MarkdownSection)
    requires LooseExtra(sec)
    ensures Map(ClassifyPlain, ExtraLines(sec)) == ExtraTops(sec)
    ensures NoBreaks(ExtraLines(sec))
  {
    hide ClassifyPlain, SectionHeader, SectionTops, BlockLines, Stored, SectionOf, NoBreaks, Map, OneLine;
    if sec.heading == "" {
      PlainNothing();
    } else {
      PlainSection(sec.heading);
      MapConcat(ClassifyPlain, SectionHeader(sec.heading), BlockLines(sec.body));
      NoBreaksConcat(SectionHeader(sec.heading), BlockLines(sec.body));
    }
  }

  lemma {:induction false} LexExtras(secs: seq<MarkdownSection>)
    requires LooseExtras(secs)
    ensures Map(ClassifyPlain, FlatMap(ExtraLines, secs)) == FlatMap(ExtraTops, secs)
    ensures NoBreaks(FlatMap(ExtraLines, secs))
  {
    hide ClassifyPlain, ExtraLines, ExtraTops, LooseExtra;
    if secs != [] {
      LexExtra(secs[0]);
      LexExtras(secs[1..]);
      MapConcat(ClassifyPlain, ExtraLines(secs[0]), FlatMap(ExtraLines, secs[1..]));
      NoBreaksConcat(ExtraLines(secs[0]), FlatMap(ExtraLines, secs[1..]));
    }
  }

  lemma SectionNames()
    ensures SectionOf("Intent") == IntentSection && SectionOf("Scope") == ScopeSection
            && SectionOf("Approach") == ApproachSection
    ensures OneLine("Intent") && OneLine("Scope") && OneLine("Approach")
  {
    hide Trim;
    NameShapes();
    TrimId("Intent");
    TrimId("Scope");
    TrimId("Approach");
    LowerNames();
    hide ToLower;
    FirstLetters("intent");
    FirstLetters("scope");
    FirstLetters("approach");
  }

  lemma NameShapes()
    ensures OneLine("Intent") && OneLine("Scope") && OneLine("Approach")
  {
  }

  lemma LowerNames()
    ensures ToLower("Intent") == "intent" && ToLower("Scope") == "scope" && ToLower("Approach") == "approach"
  {
  }

  lemma FirstLetters(h: string)
    ensures "intent" <= h ==> h != "" && h[0] == 'i'
    ensures "scope" <= h ==> h != "" && h[0] == 's'
    ensures "approach" <= h ==> h != "" && h[0] == 'a'
  {
  }

  lemma LexProposal(p: Proposal)
    requires Loose(p)
    ensures Map(ClassifyPlain, ProposalLines(p)) == TitleTops(p.title) + BodyTops(p)
    ensures NoBreaks(ProposalLines(p))
  {
    var t, a, b, c, d := [TitleLine(p.title)], ProseSection("Intent", p.intent), ScopeLines(p),
        ProseSection("Approach", p.approach),
                         FlatMap(ExtraLines, p.extras);
    hide ClassifyPlain, Map, FlatMap, TitleLine, ProseSection, ScopeLines, TitleTops, ProseSectionTops, ScopeTops,
         NoBreaks, OneLine,
         Items, LooseExtras, Stored, BlockLines, SectionOf;
    SectionNames();
    PlainTitle(p.title);
    PlainProseSection("Intent", p.intent);
    LexScope(p);
    PlainProseSection("Approach", p.approach);
    LexExtras(p.extras);
    MapConcatFour(ClassifyPlain, t, a, b, c);
    MapConcat(ClassifyPlain, t + a + b + c, d);
    NoBreaksConcat(t, a);
    NoBreaksConcat(t + a, b);
    NoBreaksConcat(t + a + b, c);
    NoBreaksConcat(t + a + b + c, d);
    AppendFour(TitleTops(p.title), ProseSectionTops("Intent", p.intent), ScopeTops(p),
               ProseSectionTops("Approach", p.approach),
               FlatMap(ExtraTops, p.extras));
  }

  // --- what those tokens do to the parser ---

  lemma RunTitle(title: string)
    ensures Run(INIT, TitleTops(title)) == INIT.(title := title)
  {
    hide OpenSection, ScopeOf;
    FoldOne(StepTop, INIT, TitleTops(title)[0]);
  }

  lemma RunTail(st: State, ts: seq<Top>)
    ensures Run(st, ts + [Blank]) == Run(st, ts)
  {
    hide Fold, OpenSection, StepProse;
    FoldConcat(StepTop, st, ts, [Blank]);
    FoldOne(StepTop, Run(st, ts), Blank);
  }

  lemma RunSection(st: State, heading: string)
    ensures Run(st, SectionTops(heading)) == OpenSection(st, heading)
  {
    hide OpenSection, StepProse;
    FoldTwo(StepTop, st, Blank, H2(heading));
  }

  lemma BulletIsItem(item: string)
    requires item != "" && OneLine(item)
    ensures ScopeOf(BulletLine(item)) == Item(item)
  {
    hide BulletLine, BulletBody, IsBullet, ToLower;
    PlainBullet(item);
    LabelLetters(ToLower(BulletLine(item)));
    LowerFirst(BulletLine(item));
  }

  lemma LowerFirst(l: string)
    requires l != "" && l[0] == '-'
    ensures ToLower(l) != "" && ToLower(l)[0] == '-'
  {
  }

  lemma LabelLetters(h: string)
    ensures "in scope" <= h ==> h != "" && h[0] == 'i'
    ensures "out of scope" <= h || "out-of-scope" <= h ==> h != "" && h[0] == 'o'
  {
  }

  lemma LabelsRead()
    ensures ScopeOf(InLabelLine()) == InLabel && ScopeOf(OutLabelLine()) == OutLabel
  {
    LowerLabels();
    hide InLabelLine, OutLabelLine, ToLower;
    LabelLetters(ToLower(OutLabelLine()));
  }

  lemma LowerLabels()
    ensures "in scope" <= ToLower(InLabelLine()) && "out of scope" <= ToLower(OutLabelLine())
    ensures ToLower(OutLabelLine()) != "" && ToLower(OutLabelLine())[0] == 'o'
  {
  }

  function WithItems(st: State, items: seq<string>): State {
    if st.scopeOut then st.(scopeOutItems := st.scopeOutItems + items) else st.(scopeInItems := st.scopeInItems + items)
  }

  lemma RunItem(st: State, item: string)
    requires st.section.ScopeSection? && item != "" && OneLine(item)
    ensures StepTop(st, ItemTop(item)) == WithItems(st, [item])
  {
    hide ScopeOf, BulletLine, OneLine, OpenSection;
    BulletIsItem(item);
  }

  lemma {:induction false} RunItems(st: State, items: seq<string>)
    requires st.section.ScopeSection? && Items(items)
    ensures Run(st, Map(ItemTop, items)) == WithItems(st, items)
    decreases |items|
  {
    hide BulletLine, OneLine, StepTop;
    if items == [] {
      assert WithItems(st, items) == st;
    } else {
      RunItem(st, items[0]);
      FoldCons(StepTop, st, ItemTop(items[0]), Map(ItemTop, items[1..]));
      RunItems(WithItems(st, [items[0]]), items[1..]);
      AppendAssoc(st.scopeOutItems, [items[0]], items[1..]);
      AppendAssoc(st.scopeInItems, [items[0]], items[1..]);
      assert [items[0]] + items[1..] == items;
    }
  }

  lemma RunIn(st: State, items: seq<string>)
    requires st.section.ScopeSection? && !st.scopeOut && Items(items)
    ensures Run(st, InTops(items)) == st.(scopeInItems := st.scopeInItems + items)
  {
    hide Map, ScopeOf, InLabelLine, OutLabelLine, OpenSection, Items, Fold;
    if items == [] {
      RunNothing(st);
      assert st.scopeInItems + items == st.scopeInItems;
    } else {
      LabelsRead();
      FoldCons(StepTop, st, Prose(InLabelLine()), Map(ItemTop, items));
      RunItems(st, items);
    }
  }

  lemma RunNothing(st: State)
    ensures Run(st, []) == st
  {
  }

  lemma RunOut(st: State, items: seq<string>, afterIn: bool)
    requires st.section.ScopeSection? && Items(items)
    ensures Run(st, OutTops(items, afterIn))
            == st.(scopeOut := st.scopeOut || items != [], scopeOutItems := st.scopeOutItems + items)
  {
    hide Map, ScopeOf, InLabelLine, OutLabelLine, OpenSection, Items, Fold;
    if items == [] {
      RunNothing(st);
      assert st.scopeOutItems + items == st.scopeOutItems;
    } else {
      LabelsRead();
      var lead := if afterIn then [Blank] else [];
      FoldConcat(StepTop, st, lead + [Prose(OutLabelLine())], Map(ItemTop, items));
      FoldConcat(StepTop, st, lead, [Prose(OutLabelLine())]);
      RunLead(st, lead);
      FoldOne(StepTop, st, Prose(OutLabelLine()));
      RunItems(st.(scopeOut := true), items);
    }
  }

  lemma RunLead(st: State, lead: seq<Top>)
    requires lead == [Blank] || lead == []
    ensures Run(st, lead) == st
  {
    hide StepProse, OpenSection;
    if lead == [Blank] {
      FoldOne(StepTop, st, Blank);
    }
  }

  /** The scope block is read back exactly, whatever came before it. */
  lemma RunScope(st: State, p: Proposal)
    requires Items(p.scopeIn) && Items(p.scopeOut)
    requires p.scopeIn != [] || p.scopeOut != []
    ensures Run(st, ScopeTops(p))
         == FlushExtra(st).(section := ScopeSection, scopeOut := p.scopeOut != [],
                            scopeInItems := st.scopeInItems + p.scopeIn, scopeOutItems := st.scopeOutItems + p.scopeOut)
  {
    hide Fold, InTops, OutTops, SectionTops, Items, Trim, Join, SectionOf;
    SectionNames();
    RunSection(st, "Scope");
    var st1 := OpenSection(st, "Scope");
    FoldConcat(StepTop, st, SectionTops("Scope"), InTops(p.scopeIn));
    FoldConcat(StepTop, st, SectionTops("Scope") + InTops(p.scopeIn), OutTops(p.scopeOut, p.scopeIn != []));
    RunIn(st1, p.scopeIn);
    RunOut(st1.(scopeInItems := st1.scopeInItems + p.scopeIn), p.scopeOut, p.scopeIn != []);
  }

  lemma {:induction false} RunIntent(st: State, ls: seq<string>)
    requires st.section.IntentSection?
    ensures Run(st, Map(PlainProse, ls)) == st.(intent := st.intent + ls)
    decreases |ls|
  {
    hide OpenSection, ScopeOf;
    if ls != [] {
      RunIntent(StepTop(st, PlainProse(ls[0])), ls[1..]);
      AppendAssoc(st.intent, [ls[0]], ls[1..]);
      assert [ls[0]] + ls[1..] == ls;
    }
  }

  lemma {:induction false} RunApproach(st: State, ls: seq<string>)
    requires st.section.ApproachSection?
    ensures Run(st, Map(PlainProse, ls)) == st.(approach := st.approach + ls)
    decreases |ls|
  {
    hide OpenSection, ScopeOf;
    if ls != [] {
      RunApproach(StepTop(st, PlainProse(ls[0])), ls[1..]);
      AppendAssoc(st.approach, [ls[0]], ls[1..]);
      assert [ls[0]] + ls[1..] == ls;
    }
  }

  lemma {:induction false} RunExtraBody(st: State, ls: seq<string>)
    requires st.section.NoSection? && st.extra.Some?
    ensures Run(st, Map(PlainProse, ls)) == st.(extraRaw := st.extraRaw + ls)
    decreases |ls|
  {
    hide OpenSection, ScopeOf;
    if ls != [] {
      RunExtraBody(StepTop(st, PlainProse(ls[0])), ls[1..]);
      AppendAssoc(st.extraRaw, [ls[0]], ls[1..]);
      assert [ls[0]] + ls[1..] == ls;
    }
  }

  /** With no extra section open, a heading only selects a section. */
  lemma OpenPlain(st: State, heading: string)
    requires st.extra.None? && st.extraRaw == [] && !SectionOf(heading).NoSection?
    ensures OpenSection(st, heading) == st.(section := SectionOf(heading), scopeOut := false)
  {
    hide SectionOf, Trim, Join;
  }

  lemma RunIntentBlock(st: State, intent: string)
    requires Stored(BlockLines(intent)) && NoTops(BlockLines(intent)) && st.extra.None? && st.extraRaw == []
             && st.intent == []
    ensures var r := Run(st, ProseSectionTops("Intent", intent));
            r == st.(section := r.section, scopeOut := r.scopeOut, intent := BlockLines(intent))
  {
    hide Fold, Map, Lines, SectionTops, StepTop, SectionOf, Stored, NoTops, OpenSection;
    if intent == "" {
      RunNothing(st);
    } else {
      SectionNames();
      OpenPlain(st, "Intent");
      RunSection(st, "Intent");
      PlainStored(BlockLines(intent));
      FoldConcat(StepTop, st, SectionTops("Intent"), BlockTops(intent));
      RunIntent(OpenSection(st, "Intent"), BlockLines(intent));
      assert [] + BlockLines(intent) == BlockLines(intent);
    }
  }

  lemma RunApproachBlock(st: State, approach: string)
    requires Stored(BlockLines(approach)) && NoTops(BlockLines(approach)) && st.extra.None? && st.extraRaw == []
             && st.approach == []
    ensures var r := Run(st, ProseSectionTops("Approach", approach));
            r == st.(section := r.section, scopeOut := r.scopeOut, approach := BlockLines(approach))
  {
    hide Fold, Map, Lines, SectionTops, StepTop, SectionOf, Stored, NoTops, OpenSection;
    if approach == "" {
      RunNothing(st);
    } else {
      SectionNames();
      OpenPlain(st, "Approach");
      RunSection(st, "Approach");
      PlainStored(BlockLines(approach));
      FoldConcat(StepTop, st, SectionTops("Approach"), BlockTops(approach));
      RunApproach(OpenSection(st, "Approach"), BlockLines(approach));
      assert [] + BlockLines(approach) == BlockLines(approach);
    }
  }

  lemma RunScopeBlock(st: State, p: Proposal)
    requires Items(p.scopeIn) && Items(p.scopeOut) && st.extra.None? && st.extraRaw == []
    requires st.scopeInItems == [] && st.scopeOutItems == []
    ensures var r := Run(st, ScopeTops(p));
            r == st.(section := r.section, scopeOut := r.scopeOut, scopeInItems := p.scopeIn,
                     scopeOutItems := p.scopeOut)
  {
    hide Fold, InTops, OutTops, SectionTops, Items, Trim, Join, StepTop;
    if p.scopeIn == [] && p.scopeOut == [] {
      RunNothing(st);
    } else {
      RunScope(st, p);
      assert [] + p.scopeIn == p.scopeIn && [] + p.scopeOut == p.scopeOut;
    }
  }

  lemma BodyBack(body: string)
    requires Stored(BlockLines(body))
    ensures Trim(Join(BlockLines(body))) == body
  {
    hide Trim, Join, Lines;
    JoinOfBlock(body);
    StoredBlock(BlockLines(body));
  }

  lemma RunExtra(st: State, sec: MarkdownSection)
    requires LooseExtra(sec) && NoTops(BlockLines(sec.body)) && sec.heading != ""
    ensures var r := Run(st, ExtraTops(sec));
            && FlushExtra(r)
               == FlushExtra(st).(section := NoSection, scopeOut := false, extras := FlushExtra(st).extras + [sec])
  {
    var st1 := OpenSection(st, sec.heading);
    hide Fold, Map, SectionTops, StepTop, SectionOf, Stored, NoTops, Trim, Join, BlockLines, OneLine;
    RunSection(st, sec.heading);
    PlainStored(BlockLines(sec.body));
    FoldConcat(StepTop, st, SectionTops(sec.heading), BlockTops(sec.body));
    RunExtraBody(st1, BlockLines(sec.body));
    assert [] + BlockLines(sec.body) == BlockLines(sec.body);
    BodyBack(sec.body);
  }

  lemma {:induction false} RunExtras(st: State, secs: seq<MarkdownSection>)
    requires LooseExtras(secs) && Named(secs) && forall i :: 0 <= i < |secs| ==> NoTops(BlockLines(secs[i].body))
    ensures var r := FlushExtra(Run(st, FlatMap(ExtraTops, secs)));
            r == FlushExtra(st).(section := r.section, scopeOut := r.scopeOut, extras := FlushExtra(st).extras + secs)
    decreases |secs|
  {
    hide StepTop, ExtraTops, LooseExtra, NoTops, BlockLines, FlushExtra;
    if secs == [] {
      assert FlushExtra(st).extras + secs == FlushExtra(st).extras;
    } else {
      FoldConcat(StepTop, st, ExtraTops(secs[0]), FlatMap(ExtraTops, secs[1..]));
      RunExtra(st, secs[0]);
      RunExtras(Run(st, ExtraTops(secs[0])), secs[1..]);
      AppendAssoc(FlushExtra(st).extras, [secs[0]], secs[1..]);
      assert [secs[0]] + secs[1..] == secs;
    }
  }

  lemma NoStrays(p: Proposal)
    requires WellFormed(p)
    ensures NoTops(BlockLines(p.intent)) && NoTops(BlockLines(p.approach))
    ensures forall i :: 0 <= i < |p.extras| ==> NoTops(BlockLines(p.extras[i].body))
  {
    hide NoTops, Tops, BlockLines, LooseExtras, Items, Stored, OneLine;
    NoTopsCount(BlockLines(p.intent));
    NoTopsCount(BlockLines(p.approach));
    SumZero(ExtraStrays, p.extras);
    forall i | 0 <= i < |p.extras|
      ensures NoTops(BlockLines(p.extras[i].body))
    {
      assert ExtraStrays(p.extras[i]) == 0;
      NoTopsCount(BlockLines(p.extras[i].body));
    }
  }

  lemma RunBody(p: Proposal)
    requires WellFormed(p)
    ensures Finish(Run(INIT.(title := p.title), BodyTops(p))) == p
  {
    var st0 := INIT.(title := p.title);
    var a, b, c, d := ProseSectionTops("Intent", p.intent), ScopeTops(p), ProseSectionTops("Approach", p.approach),
        FlatMap(ExtraTops, p.extras);
    var st1 := Run(st0, a);
    var st2 := Run(st1, b);
    var st3 := Run(st2, c);
    hide Fold, FlatMap, ProseSectionTops, ScopeTops, Trim, Join, BlockLines, Items, LooseExtras, Stored, NoTops,
         OneLine, Strays, Named;
    NoStrays(p);
    RunIntentBlock(st0, p.intent);
    RunScopeBlock(st1, p);
    RunApproachBlock(st2, p.approach);
    RunExtras(st3, p.extras);
    FoldConcatFour(StepTop, st0, a, b, c, d);
    assert [] + p.extras == p.extras;
    BodyBack(p.intent);
    BodyBack(p.approach);
  }

  /** Re-parsing any rendered proposal: the title, then the body tokens. */
  lemma Reparse(p: Proposal)
    requires Loose(p)
    ensures ProposalOf(ProposalText(p)) == Finish(Run(INIT.(title := p.title), BodyTops(p)))
  {
    hide Map, Fold, Lines, Unlines, ClassifyPlain, Finish, StepTop, ProposalLines, Loose, NoBreaks, TitleTops, BodyTops;
    LexProposal(p);
    PlainText(ProposalLines(p));
    RunTail(INIT, TitleTops(p.title) + BodyTops(p));
    FoldConcat(StepTop, INIT, TitleTops(p.title), BodyTops(p));
    RunTitle(p.title);
  }

  /** parse(render(p)) == p for every well-formed proposal. */
  lemma RoundTrip(p: Proposal)
    requires WellFormed(p)
    ensures ProposalOf(ProposalText(p)) == p
  {
    hide ProposalOf, ProposalText, BodyTops, Finish, Run, Loose, Strays, Named;
    Reparse(p);
    RunBody(p);
  }
}
