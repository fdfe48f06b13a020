/** When is parse(render(parse(x))) == parse(x) for designs?  Exactly when no line kept as
    prose reads as a heading without its indentation, and no section heading is blank. A
    decision heading is one only inside a decision's own body. */
module DesignStability {
  import opened Seqs
  import opened Text
  import opened OpenSpecModel
  import opened Lexer
  import opened SpecRenderer
  import opened PlainLexing
  import opened DesignFormat
  import opened DesignRoundTrip
  import ProposalFormat
  import Extras = ProposalRoundTrip
  import ExtrasStable = ProposalStability

  // --- what every run of the parser keeps ---

  predicate StateOk(st: State) {
    && OneLine(st.title) && Stored(st.technical) && Stored(st.dataFlow) && Stored(st.decBody) && Stored(st.extraRaw)
    && LooseDecisions(st.decisions) && LooseChanges(st.changes) && LooseExtras(st.extras)
    && (st.cur.Some? ==> OneLine(st.cur.value) && st.section.DecisionSection?)
    && (st.cur.None? ==> st.decBody == [])
    && (st.extra.Some? ==> OneLine(st.extra.value) && SectionOf(st.extra.value).NoSection?)
    && (st.extra.None? ==> st.extraRaw == [])
  }

  function DecisionWeight(dec: DesignDecision): nat {
    1 + |BlockLines(dec.body)|
  }

  /** Lines kept, kept lines that read as a heading or a title, kept decision lines that
      read as a decision heading, and decisions. */
  datatype Tally = Tally(weight: nat, tops: nat, marks: nat, decisions: nat)

  function StateTally(st: State): Tally {
    Tally(
      |st.technical| + |st.dataFlow| + |st.decBody| + |st.extraRaw| + |st.changes| + (if st.cur.Some? then 1 else 0)
      + Sum(DecisionWeight, st.decisions) + Sum(Extras.ExtraWeight, st.extras),
      Tops(st.technical) + Tops(st.dataFlow) + Tops(st.decBody) + Tops(st.extraRaw)
      + Sum(DecisionTops, st.decisions) + Sum(Extras.ExtraStrays, st.extras),
      Marks(st.decBody) + Sum(DecisionMarks, st.decisions),
      |st.decisions| + (if st.cur.Some? then 1 else 0))
  }

  function DesignTally(d: Design): Tally {
    Tally(
      |BlockLines(d.technicalApproach)| + |BlockLines(d.dataFlow)| + |d.fileChanges|
      + Sum(DecisionWeight, d.decisions) + Sum(Extras.ExtraWeight, d.extras),
      TopStrays(d), MarkStrays(d), |d.decisions|)
  }

  /** Sections whose prose is kept line by line. */
  predicate KeepsProse(st: State) {
    st.section.TechnicalSection? || st.section.DataFlowSection? || st.cur.Some?
        || (st.section.NoSection? && st.extra.Some?)
  }

  /** The parser is about to keep a prose line that reads as a heading there. */
  predicate StoresHeading(st: State, raw: string) {
    var t := ClassifyPlain(raw);
    && !OpensDecision(st, raw) && t.Prose? && KeepsProse(st)
    && (IsTopHeading(t.text) || (st.cur.Some? && DecisionMark() <= t.text))
  }

  function StrayBit(st: State, raw: string): nat {
    if StoresHeading(st, raw) then 1 else 0
  }

  lemma NothingOk()
    ensures Tops([]) == 0 && Marks([]) == 0 && Stored([])
  {
  }

  lemma ExtraOk(heading: string, raw: seq<string>)
    requires OneLine(heading) && SectionOf(heading).NoSection? && Stored(raw)
    ensures var sec := MarkdownSection(heading, Trim(Join(raw)));
            LooseExtra(sec) && Extras.ExtraWeight(sec) == |raw| && Extras.ExtraStrays(sec) == Tops(raw)
  {
    hide Trim, Join, Stored, Tops, SectionOf, OneLine, BlockLines;
    BlockOfJoin(raw);
  }

  lemma DecisionOk(name: string, body: seq<string>)
    requires OneLine(name) && Stored(body)
    ensures var dec := DesignDecision(name, Trim(Join(body)));
            LooseDecision(dec) && DecisionWeight(dec) == 1 + |body| && DecisionTops(dec) == Tops(body)
                && DecisionMarks(dec) == Marks(body)
  {
    hide Trim, Join, Stored, Tops, Marks, OneLine, BlockLines;
    BlockOfJoin(body);
  }

  lemma FlushExtraOk(st: State)
    requires StateOk(st)
    ensures StateOk(FlushExtra(st)) && StateTally(FlushExtra(st)) == StateTally(st)
  {
    hide Trim, Join, Stored, Tops, Marks, SectionOf, OneLine, LooseDecisions, LooseChanges, LooseExtra,
         Extras.ExtraWeight,
         Extras.ExtraStrays, Sum;
    NothingOk();
    if st.extra.Some? {
      var sec := MarkdownSection(st.extra.value, Trim(Join(st.extraRaw)));
      ExtraOk(st.extra.value, st.extraRaw);
      SumSnoc(Extras.ExtraWeight, st.extras, sec);
      SumSnoc(Extras.ExtraStrays, st.extras, sec);
    }
  }

  lemma FlushDecisionOk(st: State)
    requires StateOk(st)
    ensures StateOk(FlushDecision(st)) && StateTally(FlushDecision(st)) == StateTally(st)
  {
    hide Trim, Join, Stored, Tops, Marks, SectionOf, OneLine, LooseDecision, LooseChanges, LooseExtras, DecisionWeight,
         DecisionTops, DecisionMarks, Sum;
    NothingOk();
    if st.cur.Some? {
      var dec := DesignDecision(st.cur.value, Trim(Join(st.decBody)));
      DecisionOk(st.cur.value, st.decBody);
      SumSnoc(DecisionWeight, st.decisions, dec);
      SumSnoc(DecisionTops, st.decisions, dec);
      SumSnoc(DecisionMarks, st.decisions, dec);
    }
  }

  lemma FlushedOk(st: State)
    requires StateOk(st)
    ensures StateOk(Flushed(st)) && StateTally(Flushed(st)) == StateTally(st)
    ensures Flushed(st).cur.None? && Flushed(st).extra.None?
  {
    FlushedNothing(st);
    hide StateOk, StateTally, FlushExtra, FlushDecision;
    FlushDecisionOk(st);
    FlushExtraOk(FlushDecision(st));
  }

  lemma FlushedNothing(st: State)
    ensures Flushed(st).cur.None? && Flushed(st).extra.None? && FlushDecision(st).cur.None?
            && FlushDecision(st).section == st.section
  {
    hide Trim, Join;
  }

  lemma OpenedOk(st: State, section: Section, extra: Option<string>)
    requires StateOk(st) && st.extra.None? && st.cur.None?
    requires extra.Some? ==> OneLine(extra.value) && SectionOf(extra.value).NoSection?
    ensures var r := st.(section := section, extra := extra);
            StateOk(r) && StateTally(r) == StateTally(st)
  {
    hide Stored, Tops, Marks, SectionOf, OneLine, LooseDecisions, LooseChanges, LooseExtras, Sum;
  }

  lemma OpenOk(st: State, heading: string)
    requires StateOk(st) && OneLine(heading)
    ensures StateOk(OpenSection(st, heading)) && StateTally(OpenSection(st, heading)) == StateTally(st)
  {
    hide FlushExtra, FlushDecision, StateOk, StateTally, SectionOf, OneLine;
    FlushedOk(st);
    OpenedOk(Flushed(st), SectionOf(heading), if SectionOf(heading).NoSection? then Some(heading) else None);
  }

  /** One more line or one more decision. */
  predicate OneMore(a: Tally, b: Tally, tops: nat, marks: nat) {
    && b.weight <= a.weight + 1 && b.tops == a.tops + tops && b.marks == a.marks + marks && b.decisions >= a.decisions
  }

  lemma NewDecisionOk(st: State, name: string)
    requires StateOk(st) && st.cur.None? && OneLine(name) && st.section.DecisionSection?
    ensures var r := st.(cur := Some(name));
            var was := StateTally(st);
            StateOk(r) && StateTally(r) == was.(weight := was.weight + 1, decisions := was.decisions + 1)
  {
    hide Stored, Tops, Marks, SectionOf, OneLine, LooseDecisions, LooseChanges, LooseExtras, Sum;
  }

  lemma OpenDecisionOk(st: State, name: string)
    requires StateOk(st) && OneLine(name) && st.section.DecisionSection?
    ensures var r := OpenDecision(st, name);
            var was := StateTally(st);
            StateOk(r) && StateTally(r) == was.(weight := was.weight + 1, decisions := was.decisions + 1)
  {
    hide FlushDecision, StateOk, StateTally, OneLine;
    FlushDecisionOk(st);
    FlushedNothing(st);
    NewDecisionOk(FlushDecision(st), name);
  }

  lemma TitleOk(st: State, title: string)
    requires StateOk(st) && OneLine(title)
    ensures var r := st.(title := title);
            StateOk(r) && StateTally(r) == StateTally(st)
  {
    hide OneLine, Stored, Tops, Marks, SectionOf, LooseDecisions, LooseChanges, LooseExtras, Sum;
  }

  lemma ChangesSnoc(fcs: seq<FileChange>, t: string)
    requires LooseChanges(fcs) && OneLine(t) && ParseChange(t).Some?
    ensures LooseChanges(fcs + [ParseChange(t).value])
  {
    hide OneLine, ParseChange, LooseChange;
    ParsedChange(t);
  }

  lemma MarksSnoc(ls: seq<string>, l: string)
    ensures Marks(ls + [l]) == Marks(ls) + MarkBit(l)
  {
    hide MarkBit;
    SumSnoc(MarkBit, ls, l);
  }

  lemma ProseOk(st: State, t: string)
    requires StateOk(st) && t != "" && OneLine(t)
    ensures var r := StepProse(st, t);
            && StateOk(r)
            && OneMore(StateTally(st), StateTally(r), if KeepsProse(st) then TopBit(t) else 0,
                       if st.cur.Some? then MarkBit(t) else 0)
  {
    hide OneLine, Stored, Tops, Marks, SectionOf, LooseDecisions, LooseChanges, LooseExtras, Sum, IsTopHeading,
         ParseChange, DecisionMark;
    match st.section
    case TechnicalSection => StoredTopSnoc(st.technical, t);
    case DataFlowSection => StoredTopSnoc(st.dataFlow, t);
    case DecisionSection => StoredTopSnoc(st.decBody, t); MarksSnoc(st.decBody, t);
    case ChangeSection =>
      if ParseChange(t).Some? {
        ChangesSnoc(st.changes, t);
      }
    case NoSection => StoredTopSnoc(st.extraRaw, t);
  }

  /** The counts after one line: at most one more, and exactly the strays it adds. */
  predicate Counted(a: Tally, b: Tally, bit: nat, stray: nat) {
    b.weight <= a.weight + bit && b.tops + b.marks == a.tops + a.marks + stray && b.decisions >= a.decisions
  }

  function LineBit(raw: string): nat {
    PlainBit(ClassifyPlain(raw))
  }

  /** A line is not both kinds of heading. */
  lemma NotBoth(t: string)
    ensures TopBit(t) + MarkBit(t) <= 1
    ensures TopBit(t) + MarkBit(t) == 1 <==> IsTopHeading(t) || DecisionMark() <= t
  {
    MarkHeads(t);
    hide SectionMark, TitleMark, DecisionMark;
  }

  /** A decision heading is prose to the shared line classifier. */
  lemma MarkIsProse(raw: string)
    requires DecisionMark() <= TrimCut(raw)
    ensures LineBit(raw) == 1
  {
    MarkHeads(TrimCut(raw));
    var line := TrimCut(raw);
    assert !IsSpace('#') && line[0] == '#';
    hide SectionMark, TitleMark, DecisionMark, TrimCut, IsSpace, TrimEnd;
    assert TrimStart(line) == line;
    TrimEndKeeps(line);
  }

  lemma {:induction false} TrimEndKeeps(s: string)
    requires s != "" && !IsSpace(s[0])
    ensures TrimEnd(s) != ""
  {
    hide IsSpace;
    if IsSpace(s[|s| - 1]) {
      TrimEndKeeps(s[..|s| - 1]);
    }
  }

  lemma OpenLine(st: State, raw: string)
    requires StateOk(st) && '\n' !in raw && OpensDecision(st, raw)
    ensures StateOk(FeedLine(st, raw)) && Counted(StateTally(st), StateTally(FeedLine(st, raw)), LineBit(raw),
                                                  StrayBit(st, raw))
  {
    hide StateOk, StateTally, OpenDecision, Trim, TrimCut, DecisionMark, ClassifyPlain;
    MarkIsProse(raw);
    OpenDecisionOk(st, Trim(TrimCut(raw)[|DecisionMark()|..]));
  }

  lemma CurInDecisions(st: State)
    requires StateOk(st)
    ensures st.cur.Some? ==> st.section.DecisionSection?
  {
    hide Stored, SectionOf, OneLine, LooseDecisions, LooseChanges, LooseExtras;
  }

  lemma ProseLine(st: State, raw: string, t: string)
    requires StateOk(st) && '\n' !in raw && !OpensDecision(st, raw) && ClassifyPlain(raw) == Prose(t)
    ensures StateOk(FeedLine(st, raw)) && Counted(StateTally(st), StateTally(FeedLine(st, raw)), LineBit(raw),
                                                  StrayBit(st, raw))
  {
    hide StateOk, StateTally, OpenDecision, TrimCut, DecisionMark, ClassifyPlain, StepProse, IsTopHeading, OneLine,
         TopBit, MarkBit;
    ClassifyPlainOk(raw);
    ProseOk(st, t);
    NotBoth(t);
    CurInDecisions(st);
    BitsAdd(st, t);
  }

  lemma BitsAdd(st: State, t: string)
    ensures TopBit(t) == 1 <==> IsTopHeading(t)
    ensures MarkBit(t) == 1 <==> DecisionMark() <= t
  {
    hide IsTopHeading, DecisionMark;
  }

  lemma LineStep(st: State, raw: string)
    requires StateOk(st) && '\n' !in raw
    ensures StateOk(FeedLine(st, raw)) && Counted(StateTally(st), StateTally(FeedLine(st, raw)), LineBit(raw),
                                                  StrayBit(st, raw))
  {
    hide StateOk, StateTally, OpenDecision, OpenSection, TrimCut, DecisionMark, ClassifyPlain, StepProse, IsTopHeading,
         OneLine;
    if OpensDecision(st, raw) {
      OpenLine(st, raw);
    } else {
      ClassifyPlainOk(raw);
      match ClassifyPlain(raw)
      case H2(heading) => OpenOk(st, heading);
      case H1(title) => TitleOk(st, title);
      case Blank =>
      case Prose(text) => ProseLine(st, raw, text);
    }
  }

  function RunStrays(st: State, lines: seq<string>): nat {
    CountAlong(FeedLine, StrayBit, st, lines)
  }

  lemma {:induction false} RunKeeps(st: State, lines: seq<string>)
    requires StateOk(st) && NoBreaks(lines)
    ensures var r := Run(st, lines);
            StateOk(r) && Counted(StateTally(st), StateTally(r), Sum(LineBit, lines), RunStrays(st, lines))
    decreases |lines|
  {
    hide FeedLine, StateOk, StateTally, StrayBit, LineBit;
    if lines != [] {
      LineStep(st, lines[0]);
      RunKeeps(FeedLine(st, lines[0]), lines[1..]);
    }
  }

  lemma InitOk(title: string)
    requires OneLine(title)
    ensures var st := INIT.(title := title);
            StateOk(st) && StateTally(st) == Tally(0, 0, 0, 0)
  {
    NothingOk();
  }

  lemma FinishCounts(st: State)
    requires StateOk(st)
    ensures Loose(Finish(st)) && DesignTally(Finish(st)) == StateTally(st)
  {
    var r := Flushed(st);
    hide FlushExtra, FlushDecision, Trim, Join, BlockLines, Stored, Tops, Marks, Sum, OneLine, LooseDecisions,
         LooseChanges, LooseExtras,
         SectionOf;
    FlushedOk(st);
    NothingOk();
    BlockOfJoin(r.technical);
    BlockOfJoin(r.dataFlow);
  }

  // --- blank headings ---

  predicate NamedState(st: State) {
    Extras.Named(st.extras) && (st.extra.Some? ==> st.extra.value != "")
  }

  predicate NoBlankHeading(lines: seq<string>) {
    forall i :: 0 <= i < |lines| ==> ClassifyPlain(lines[i]) != H2("")
  }

  lemma BlankIsExtra()
    ensures SectionOf("").NoSection?
  {
    TrimId("");
    hide Trim;
    assert ToLower("") == "";
  }

  lemma FlushNamed(st: State)
    ensures Extras.Named(Flushed(st).extras) <==> NamedState(st)
    ensures NamedState(FlushDecision(st)) <==> NamedState(st)
  {
    hide Trim, Join, Extras.Named;
    if st.extra.Some? {
      ExtrasStable.NamedSnoc(st.extras, MarkdownSection(st.extra.value, Trim(Join(st.extraRaw))));
    }
  }

  lemma MarkNotBlank(raw: string)
    requires DecisionMark() <= TrimCut(raw)
    ensures ClassifyPlain(raw) != H2("")
  {
    hide ClassifyPlain, DecisionMark, TrimCut;
    MarkIsProse(raw);
  }

  lemma NamedStep(st: State, raw: string)
    ensures NamedState(FeedLine(st, raw)) <==> NamedState(st) && ClassifyPlain(raw) != H2("")
  {
    hide SectionOf, ParseChange, Trim, TrimCut, DecisionMark, ClassifyPlain, FlushDecision, FlushExtra, Extras.Named;
    BlankIsExtra();
    FlushNamed(st);
    if OpensDecision(st, raw) {
      MarkNotBlank(raw);
    }
  }

  lemma {:induction false} RunNamed(st: State, lines: seq<string>)
    ensures NamedState(Run(st, lines)) <==> NamedState(st) && NoBlankHeading(lines)
    decreases |lines|
  {
    hide FeedLine, NamedState, ClassifyPlain;
    if lines != [] {
      NamedStep(st, lines[0]);
      RunNamed(FeedLine(st, lines[0]), lines[1..]);
      assert lines == [lines[0]] + lines[1..];
      BlankCons(lines[0], lines[1..]);
    }
  }

  lemma BlankCons(l: string, ls: seq<string>)
    ensures NoBlankHeading([l] + ls) <==> ClassifyPlain(l) != H2("") && NoBlankHeading(ls)
  {
    hide ClassifyPlain;
    NoBlankConcat([l], ls);
    if NoBlankHeading([l] + ls) {
      assert ([l] + ls)[0] == l;
    }
  }

  lemma NoBlankConcat(a: seq<string>, b: seq<string>)
    ensures NoBlankHeading(a + b) <==> NoBlankHeading(a) && NoBlankHeading(b)
  {
    hide ClassifyPlain;
    if NoBlankHeading(a + b) {
      assert forall i :: 0 <= i < |a| ==> (a + b)[i] == a[i];
      assert forall i :: 0 <= i < |b| ==> (a + b)[|a| + i] == b[i];
    }
  }

  lemma FinishNamed(st: State)
    ensures Extras.Named(Finish(st).extras) <==> NamedState(st)
  {
    hide Trim, Join, FlushExtra, FlushDecision, Extras.Named;
    FlushNamed(st);
  }

  // --- the characterisation ---

  /** No kept prose line reads as a heading. The parser state at a line is fixed by the
      lines before it. */
  predicate NoIndentedHeadingStored(md: string) {
    var lines := Lines(md);
    forall k :: 0 <= k < |lines| ==> !StoresHeading(Run(INIT, lines[..k]), lines[k])
  }

  predicate HeadingsNamed(md: string) {
    NoBlankHeading(Lines(md))
  }

  lemma RunStraysZero(st: State, lines: seq<string>)
    ensures RunStrays(st, lines) == 0 <==> forall k :: 0 <= k < |lines| ==>
            !StoresHeading(Run(st, lines[..k]), lines[k])
  {
    hide FeedLine, StoresHeading, Fold, CountAlong;
    CountAlongZero(FeedLine, StrayBit, st, lines);
    assert forall k :: 0 <= k < |lines| ==> (StoresHeading(Run(st, lines[..k]), lines[k])
                                             <==> StrayBit(Run(st, lines[..k]), lines[k]) != 0);
  }

  lemma ParsedWellFormed(md: string)
    ensures Loose(DesignOf(md))
    ensures TopStrays(DesignOf(md)) + MarkStrays(DesignOf(md)) == 0 <==> NoIndentedHeadingStored(md)
    ensures Extras.Named(DesignOf(md).extras) <==> HeadingsNamed(md)
  {
    var lines := Lines(md);
    InitBlank();
    hide Lines, Fold, FeedLine, Finish, StateOk, StateTally, StoresHeading, RunStrays, Loose, TopStrays, MarkStrays,
         NamedState,
         NoBlankHeading, Extras.Named, Sum;
    RunKeeps(INIT, lines);
    FinishCounts(Run(INIT, lines));
    RunStraysZero(INIT, lines);
    RunNamed(INIT, lines);
    FinishNamed(Run(INIT, lines));
  }

  lemma InitBlank()
    ensures StateOk(INIT) && StateTally(INIT) == Tally(0, 0, 0, 0) && NamedState(INIT)
  {
    assert INIT.(title := "") == INIT;
    InitOk("");
  }

  // --- how many lines a rendered design holds ---

  lemma BlankBit()
    ensures LineBit("") == 0
  {
    hide ClassifyPlain;
    PlainBlank();
  }

  lemma HeaderBits(heading: string)
    requires heading != "" && OneLine(heading)
    ensures Sum(LineBit, SectionHeader(heading)) == 0
  {
    hide LineBit, SectionLine, OneLine;
    BlankBit();
    HeadingBit(heading);
    SumTwo(LineBit, "", SectionLine(heading));
  }

  lemma HeadingBit(heading: string)
    requires heading != "" && OneLine(heading)
    ensures LineBit(SectionLine(heading)) == 0
  {
    hide ClassifyTop, TrimCut, SectionLine, OneLine;
    ClassifySection(heading);
  }

  lemma BitAtMostOne(raw: string)
    ensures LineBit(raw) <= 1
  {
    hide ClassifyPlain;
  }

  lemma {:induction false} BlockBits(ls: seq<string>)
    requires Stored(ls)
    ensures Sum(LineBit, ls) + Tops(ls) == |ls|
  {
    hide ClassifyPlain, IsTopHeading, PlainBit, TopBit;
    if ls != [] {
      BlockBits(ls[1..]);
      PlainLineCount(ls[0]);
    }
  }

  lemma ProseBits(heading: string, prose: string)
    requires Stored(BlockLines(prose)) && heading != "" && OneLine(heading)
    ensures Sum(LineBit, ProseSection(heading, prose)) + Tops(BlockLines(prose)) == |BlockLines(prose)|
  {
    hide Lines, SectionHeader, LineBit, Stored, OneLine;
    BlockBits(BlockLines(prose));
    if prose != "" {
      HeaderBits(heading);
      SumConcat(LineBit, SectionHeader(heading), Lines(prose));
    }
  }

  lemma DecisionBits(dec: DesignDecision)
    requires LooseDecision(dec)
    ensures Sum(LineBit, DecisionLines(dec)) + DecisionTops(dec) <= DecisionWeight(dec)
  {
    hide BlockLines, LineBit, Stored, OneLine, Tops, DecisionLine;
    BlankBit();
    BitAtMostOne(DecisionLine(dec.name));
    SumTwo(LineBit, "", DecisionLine(dec.name));
    BlockBits(BlockLines(dec.body));
    SumConcat(LineBit, ["", DecisionLine(dec.name)], BlockLines(dec.body));
  }

  lemma {:induction false} DecisionListBits(decs: seq<DesignDecision>)
    requires LooseDecisions(decs)
    ensures Sum(LineBit, FlatMap(DecisionLines, decs)) + Sum(DecisionTops, decs) <= Sum(DecisionWeight, decs)
  {
    hide DecisionLines, LooseDecision, DecisionTops, DecisionWeight, LineBit;
    if decs != [] {
      DecisionListBits(decs[1..]);
      DecisionBits(decs[0]);
      SumConcat(LineBit, DecisionLines(decs[0]), FlatMap(DecisionLines, decs[1..]));
    }
  }

  lemma DecisionsBits(decs: seq<DesignDecision>)
    requires LooseDecisions(decs)
    ensures Sum(LineBit, DecisionsLines(decs)) + Sum(DecisionTops, decs) <= Sum(DecisionWeight, decs)
  {
    hide DecisionLines, LooseDecision, DecisionTops, DecisionWeight, LineBit, SectionHeader, OneLine;
    if decs != [] {
      NameShapes();
      HeaderBits("Architecture Decisions");
      DecisionListBits(decs);
      SumConcat(LineBit, SectionHeader("Architecture Decisions"), FlatMap(DecisionLines, decs));
    }
  }

  lemma {:induction false} LinesBound(ls: seq<string>)
    ensures Sum(LineBit, ls) <= |ls|
  {
    hide LineBit;
    if ls != [] {
      BitAtMostOne(ls[0]);
      LinesBound(ls[1..]);
    }
  }

  lemma ChangesBits(fcs: seq<FileChange>)
    ensures Sum(LineBit, ChangesLines(fcs)) <= |fcs|
  {
    hide ChangeLine, LineBit, SectionHeader, OneLine;
    LinesBound(Map(ChangeLine, fcs));
    if fcs != [] {
      NameShapes();
      HeaderBits("File Changes");
      SumConcat(LineBit, SectionHeader("File Changes"), Map(ChangeLine, fcs));
    }
  }

  lemma ExtraBits(sec: MarkdownSection)
    requires LooseExtra(sec)
    ensures Sum(LineBit, ProposalFormat.ExtraLines(sec)) + Extras.ExtraStrays(sec) <= Extras.ExtraWeight(sec)
  {
    hide BlockLines, SectionHeader, LineBit, Stored, OneLine, Tops, SectionOf;
    BlockBits(BlockLines(sec.body));
    if sec.heading != "" {
      HeaderBits(sec.heading);
      SumConcat(LineBit, SectionHeader(sec.heading), BlockLines(sec.body));
    }
  }

  lemma {:induction false} ExtrasBits(secs: seq<MarkdownSection>)
    requires LooseExtras(secs)
    ensures Sum(LineBit, FlatMap(ProposalFormat.ExtraLines, secs))
            + Sum(Extras.ExtraStrays, secs) <= Sum(Extras.ExtraWeight, secs)
  {
    hide ProposalFormat.ExtraLines, LooseExtra, Extras.ExtraStrays, Extras.ExtraWeight, LineBit;
    if secs != [] {
      ExtrasBits(secs[1..]);
      ExtraBits(secs[0]);
      SumConcat(LineBit, ProposalFormat.ExtraLines(secs[0]), FlatMap(ProposalFormat.ExtraLines, secs[1..]));
    }
  }

  lemma BodyBits(d: Design)
    requires Loose(d)
    ensures Sum(LineBit, BodyLines(d)) + TopStrays(d) <= DesignTally(d).weight
  {
    var a, b, c, e, x := ProseSection("Technical Approach", d.technicalApproach), DecisionsLines(d.decisions),
                         ProseSection("Data Flow", d.dataFlow), ChangesLines(d.fileChanges),
                         FlatMap(ProposalFormat.ExtraLines, d.extras);
    hide Sum, FlatMap, LineBit, ProseSection, DecisionsLines, ChangesLines, BlockLines, Stored, Tops, OneLine,
         LooseDecisions,
         LooseChanges, LooseExtras;
    NameShapes();
    ProseBits("Technical Approach", d.technicalApproach);
    DecisionsBits(d.decisions);
    ProseBits("Data Flow", d.dataFlow);
    ChangesBits(d.fileChanges);
    ExtrasBits(d.extras);
    SumConcat(LineBit, a, b);
    SumConcat(LineBit, a + b, c);
    SumConcat(LineBit, a + b + c, e);
    SumConcat(LineBit, a + b + c + e, x);
  }

  lemma BodyBreaks(d: Design)
    requires Loose(d)
    ensures NoBreaks(BodyLines(d))
  {
    hide FlatMap, ProseSection, DecisionsLines, ChangesLines, NoBreaks, Stored, LooseDecisions, LooseChanges,
         LooseExtras, BlockLines, OneLine;
    BreaksSections(d);
    BreaksExtras(d.extras);
    var a, b, c, e := ProseSection("Technical Approach", d.technicalApproach), DecisionsLines(d.decisions),
                      ProseSection("Data Flow", d.dataFlow), ChangesLines(d.fileChanges);
    NoBreaksConcat(a, b);
    NoBreaksConcat(a + b, c);
    NoBreaksConcat(a + b + c, e);
    NoBreaksConcat(a + b + c + e, FlatMap(ProposalFormat.ExtraLines, d.extras));
  }

  /** Re-parsing keeps at most the lines that do not read as a section heading or title. */
  lemma ReparseWeight(d: Design)
    requires Loose(d)
    ensures DesignTally(DesignOf(DesignText(d))).weight + TopStrays(d) <= DesignTally(d).weight
  {
    var st := INIT.(title := d.title);
    LooseTitle(d);
    hide Fold, FeedLine, Finish, StateOk, StateTally, BodyLines, NoBreaks, Loose, TopStrays, DesignTally, DesignOf,
         DesignText, Sum, OneLine;
    Reparse(d);
    InitOk(d.title);
    BodyBits(d);
    BodyBreaks(d);
    RunKeeps(st, BodyLines(d));
    FinishCounts(Run(st, BodyLines(d)));
  }

  lemma LooseTitle(d: Design)
    requires Loose(d)
    ensures OneLine(d.title) && LooseDecisions(d.decisions)
  {
    hide OneLine, Stored, LooseDecisions, LooseChanges, LooseExtras;
  }

  // --- how many decisions a rendered design holds ---

  function Count(st: State): nat {
    StateTally(st).decisions
  }

  lemma BodyLineCount(st: State, l: string)
    requires l != "" && OneLine(l) && !IsTopHeading(l) && st.section.DecisionSection?
    ensures FeedLine(st, l).section.DecisionSection? && Count(FeedLine(st, l)) == Count(st) + MarkBit(l)
  {
    hide DecisionMark, TrimCut, ClassifyTop, IsTopHeading, Trim, Join, Sum, Tops, Marks, IsSpace;
    TrimCutId(l);
    ClassifyTopStored(l);
  }

  lemma {:induction false} BodyCount(st: State, ls: seq<string>)
    requires Stored(ls) && NoTops(ls) && st.section.DecisionSection?
    ensures Run(st, ls).section.DecisionSection? && Count(Run(st, ls)) == Count(st) + Marks(ls)
    decreases |ls|
  {
    hide FeedLine, Count, OneLine, IsTopHeading, MarkBit;
    if ls != [] {
      BodyLineCount(st, ls[0]);
      BodyCount(FeedLine(st, ls[0]), ls[1..]);
    }
  }

  lemma OpenCount(st: State, name: string)
    requires st.section.DecisionSection?
    ensures OpenDecision(st, name).section.DecisionSection? && Count(OpenDecision(st, name)) == Count(st) + 1
  {
    hide Trim, Join, Sum, Tops, Marks;
  }

  lemma {:induction false} DecisionsCount(st: State, decs: seq<DesignDecision>)
    requires LooseDecisions(decs) && st.section.DecisionSection?
    requires forall i :: 0 <= i < |decs| ==> NoTops(BlockLines(decs[i].body))
    ensures Count(Run(st, FlatMap(DecisionLines, decs))) == Count(st) + |decs| + Sum(DecisionMarks, decs)
    decreases |decs|
  {
    hide FeedLine, Count, OneLine, Stored, NoTops, Marks, BlockLines, OpenDecision, DecisionLine;
    if decs != [] {
      var dec := decs[0];
      assert LooseDecision(dec);
      FeedDecision(st, dec.name);
      OpenCount(st, dec.name);
      BodyCount(OpenDecision(st, dec.name), BlockLines(dec.body));
      FoldConcat(FeedLine, st, ["", DecisionLine(dec.name)], BlockLines(dec.body));
      FoldConcat(FeedLine, st, DecisionLines(dec), FlatMap(DecisionLines, decs[1..]));
      DecisionsCount(Run(st, DecisionLines(dec)), decs[1..]);
    }
  }

  lemma SectionCount(st: State)
    ensures var r := Run(st, SectionHeader("Architecture Decisions"));
            r.section.DecisionSection? && Count(r) == Count(st)
  {
    OpenedCount(st, "Architecture Decisions");
    hide Fold, SectionHeader, SectionOf, OpenSection, Count, OneLine;
    SectionNames();
    FeedSection(st, "Architecture Decisions");
  }

  lemma OpenedCount(st: State, heading: string)
    ensures OpenSection(st, heading).section == SectionOf(heading) && Count(OpenSection(st, heading)) == Count(st)
  {
    hide Trim, Join, Sum, Tops, Marks, SectionOf;
  }

  /** A decision body line that reads as a decision heading comes back as one more decision. */
  lemma ReparseDecisions(d: Design)
    requires Loose(d) && TopStrays(d) == 0
    ensures |DesignOf(DesignText(d)).decisions| >= |d.decisions| + MarkStrays(d)
  {
    var st := INIT.(title := d.title);
    var a := Run(st, ProseSection("Technical Approach", d.technicalApproach));
    var b := Run(a, DecisionsLines(d.decisions));
    var rest := ProseSection("Data Flow", d.dataFlow) + ChangesLines(d.fileChanges)
        + FlatMap(ProposalFormat.ExtraLines, d.extras);
    LooseTitle(d);
    hide Fold, FlatMap, FeedLine, Finish, StateOk, StateTally, BodyLines, NoBreaks, Loose, TopStrays, DesignOf,
         DesignText, Sum,
         DecisionsLines, ProseSection, ChangesLines, OneLine, LooseDecisions;
    Reparse(d);
    InitOk(d.title);
    RestOfBody(d, st);
    NoStrays(d);
    RunKeeps(st, ProseSection("Technical Approach", d.technicalApproach));
    DecisionsKept(a, d.decisions);
    RunKeeps(a, DecisionsLines(d.decisions));
    RunKeeps(b, rest);
    FinishCounts(Run(b, rest));
  }

  lemma DecisionsKept(a: State, decs: seq<DesignDecision>)
    requires LooseDecisions(decs)
    requires forall i :: 0 <= i < |decs| ==> NoTops(BlockLines(decs[i].body))
    ensures Count(Run(a, DecisionsLines(decs))) >= |decs| + Sum(DecisionMarks, decs)
  {
    hide FlatMap, FeedLine, Count, SectionHeader, NoTops, BlockLines, DecisionMarks, LooseDecisions;
    if decs != [] {
      SectionCount(a);
      FoldConcat(FeedLine, a, SectionHeader("Architecture Decisions"), FlatMap(DecisionLines, decs));
      DecisionsCount(Run(a, SectionHeader("Architecture Decisions")), decs);
    }
  }

  lemma RestOfBody(d: Design, st: State)
    requires Loose(d)
    ensures var rest := ProseSection("Data Flow", d.dataFlow) + ChangesLines(d.fileChanges)
            + FlatMap(ProposalFormat.ExtraLines, d.extras);
            && NoBreaks(ProseSection("Technical Approach", d.technicalApproach))
               && NoBreaks(DecisionsLines(d.decisions)) && NoBreaks(rest)
            && Run(st, BodyLines(d))
               == Run(Run(Run(st, ProseSection("Technical Approach", d.technicalApproach)),
                          DecisionsLines(d.decisions)), rest)
  {
    hide Fold, FlatMap, ProseSection, DecisionsLines, ChangesLines, NoBreaks, Stored, LooseDecisions, LooseChanges,
         LooseExtras,
         BlockLines, OneLine;
    var a, b, c, e, x := ProseSection("Technical Approach", d.technicalApproach), DecisionsLines(d.decisions),
                         ProseSection("Data Flow", d.dataFlow), ChangesLines(d.fileChanges),
                         FlatMap(ProposalFormat.ExtraLines, d.extras);
    BreaksSections(d);
    BreaksExtras(d.extras);
    NoBreaksConcat(c, e);
    NoBreaksConcat(c + e, x);
    AppendAssoc(a + b, c, e);
    AppendAssoc(a + b, c + e, x);
    FoldConcat(FeedLine, st, a, b);
    FoldConcat(FeedLine, st, a + b, c + e + x);
  }

  // --- a rendered design has no blank heading ---

  lemma StoredNamed(ls: seq<string>)
    requires Stored(ls)
    ensures NoBlankHeading(ls)
  {
    hide ClassifyPlain, OneLine;
    forall i | 0 <= i < |ls|
      ensures ClassifyPlain(ls[i]) != H2("")
    {
      ExtrasStable.StoredNotBlank(ls[i]);
    }
  }

  lemma HeaderNamed(heading: string)
    requires heading != "" && OneLine(heading)
    ensures NoBlankHeading(SectionHeader(heading))
  {
    hide ClassifyTop, TrimCut, SectionLine, OneLine;
    PlainBlank();
    ClassifySection(heading);
  }

  lemma NothingNamed()
    ensures NoBlankHeading([])
  {
  }

  lemma ProseNamed(heading: string, prose: string)
    requires heading != "" && OneLine(heading) && Stored(BlockLines(prose))
    ensures NoBlankHeading(ProseSection(heading, prose))
  {
    hide Lines, SectionHeader, NoBlankHeading, Stored, OneLine;
    NothingNamed();
    if prose != "" {
      HeaderNamed(heading);
      StoredNamed(BlockLines(prose));
      NoBlankConcat(SectionHeader(heading), Lines(prose));
    }
  }

  lemma DecisionNamed(dec: DesignDecision)
    requires LooseDecision(dec)
    ensures NoBlankHeading(DecisionLines(dec))
  {
    hide BlockLines, Stored, NoBlankHeading, OneLine, DecisionLine;
    DecisionHeadNamed(dec.name);
    StoredNamed(BlockLines(dec.body));
    NoBlankConcat(["", DecisionLine(dec.name)], BlockLines(dec.body));
  }

  lemma DecisionHeadNamed(name: string)
    requires OneLine(name)
    ensures NoBlankHeading(["", DecisionLine(name)])
  {
    hide DecisionLine, DecisionMark, ClassifyPlain, TrimCut, Trim, OneLine, Trimmed;
    PlainBlank();
    DecisionLineShape(name);
    MarkedName(DecisionMark(), name);
    MarkNotBlank(DecisionLine(name));
  }

  lemma {:induction false} DecisionsNamed(decs: seq<DesignDecision>)
    requires LooseDecisions(decs)
    ensures NoBlankHeading(FlatMap(DecisionLines, decs))
  {
    hide DecisionLines, LooseDecision, NoBlankHeading;
    NothingNamed();
    if decs != [] {
      DecisionNamed(decs[0]);
      DecisionsNamed(decs[1..]);
      NoBlankConcat(DecisionLines(decs[0]), FlatMap(DecisionLines, decs[1..]));
    }
  }

  lemma ChangesNamed(fcs: seq<FileChange>)
    requires LooseChanges(fcs)
    ensures NoBlankHeading(Map(ChangeLine, fcs))
  {
    hide ChangeLine, ClassifyPlain, LooseChange, ParseChange, DecisionMark, TrimCut;
    forall i | 0 <= i < |fcs|
      ensures ClassifyPlain(ChangeLine(fcs[i])) != H2("")
    {
      ChangeBack(fcs[i]);
    }
  }

  lemma {:induction false} ExtrasNamed(secs: seq<MarkdownSection>)
    requires LooseExtras(secs)
    ensures NoBlankHeading(FlatMap(ProposalFormat.ExtraLines, secs))
  {
    hide BlockLines, Stored, SectionOf, OneLine, NoBlankHeading, SectionHeader;
    NothingNamed();
    if secs != [] {
      var sec := secs[0];
      assert LooseExtra(sec);
      ExtrasNamed(secs[1..]);
      if sec.heading != "" {
        HeaderNamed(sec.heading);
        StoredNamed(BlockLines(sec.body));
        NoBlankConcat(SectionHeader(sec.heading), BlockLines(sec.body));
      }
      NoBlankConcat(ProposalFormat.ExtraLines(sec), FlatMap(ProposalFormat.ExtraLines, secs[1..]));
    }
  }

  lemma SectionsNamed(d: Design)
    requires Loose(d)
    ensures NoBlankHeading(DecisionsLines(d.decisions)) && NoBlankHeading(ChangesLines(d.fileChanges))
    ensures NoBlankHeading(ProseSection("Technical Approach", d.technicalApproach))
            && NoBlankHeading(ProseSection("Data Flow", d.dataFlow))
  {
    hide FlatMap, Map, BlockLines, Stored, OneLine, NoBlankHeading, SectionHeader, ProseSection, LooseDecisions,
         LooseChanges, LooseExtras;
    NothingNamed();
    NameShapes();
    HeaderNamed("Architecture Decisions");
    HeaderNamed("File Changes");
    DecisionsNamed(d.decisions);
    ChangesNamed(d.fileChanges);
    NoBlankConcat(SectionHeader("Architecture Decisions"), FlatMap(DecisionLines, d.decisions));
    NoBlankConcat(SectionHeader("File Changes"), Map(ChangeLine, d.fileChanges));
    ProseNamed("Technical Approach", d.technicalApproach);
    ProseNamed("Data Flow", d.dataFlow);
  }

  lemma BodyNamed(d: Design)
    requires Loose(d)
    ensures NoBlankHeading(BodyLines(d))
  {
    var a, b, c, e, x := ProseSection("Technical Approach", d.technicalApproach), DecisionsLines(d.decisions),
                         ProseSection("Data Flow", d.dataFlow), ChangesLines(d.fileChanges),
                         FlatMap(ProposalFormat.ExtraLines, d.extras);
    hide FlatMap, BlockLines, Stored, OneLine, NoBlankHeading, ProseSection, DecisionsLines, ChangesLines,
         LooseDecisions, LooseChanges,
         LooseExtras;
    SectionsNamed(d);
    ExtrasNamed(d.extras);
    NoBlankConcat(a, b);
    NoBlankConcat(a + b, c);
    NoBlankConcat(a + b + c, e);
    NoBlankConcat(a + b + c + e, x);
  }

  /** Re-parsing a rendered design never yields an unnamed section. */
  lemma ReparseNamed(d: Design)
    requires Loose(d)
    ensures Extras.Named(DesignOf(DesignText(d)).extras)
  {
    var st := INIT.(title := d.title);
    TitledNamed(d.title);
    hide Fold, FeedLine, Finish, BodyLines, Loose, NoBlankHeading, DesignOf, DesignText, Extras.Named, NamedState;
    Reparse(d);
    BodyNamed(d);
    RunNamed(st, BodyLines(d));
    FinishNamed(Run(st, BodyLines(d)));
  }

  lemma TitledNamed(title: string)
    ensures NamedState(INIT.(title := title))
  {
  }

  /** parse(render(parse(md))) == parse(md) if and only if no indented heading was kept as
      prose and no section heading is blank. */
  lemma StableIff(md: string)
    ensures DesignOf(DesignText(DesignOf(md))) == DesignOf(md) <==> NoIndentedHeadingStored(md) && HeadingsNamed(md)
  {
    var d := DesignOf(md);
    hide DesignOf, DesignText, NoIndentedHeadingStored, HeadingsNamed, Loose, TopStrays, MarkStrays, Extras.Named;
    ParsedWellFormed(md);
    if NoIndentedHeadingStored(md) && HeadingsNamed(md) {
      RoundTrip(d);
    } else if !HeadingsNamed(md) {
      ReparseNamed(d);
    } else if TopStrays(d) > 0 {
      ReparseWeight(d);
    } else {
      ReparseDecisions(d);
    }
  }

  /** No line reads as a decision heading only after its indentation is removed. */
  predicate NoIndentedDecision(md: string) {
    forall i :: 0 <= i < |Lines(md)| ==> (DecisionMark() <= Trim(TrimCut(Lines(md)[i]))
                                          ==> DecisionMark() <= TrimCut(Lines(md)[i]))
  }

  lemma StateAt(md: string, k: nat)
    requires k <= |Lines(md)|
    ensures StateOk(Run(INIT, Lines(md)[..k]))
  {
    hide Lines, Fold, FeedLine, StateOk, StateTally, Sum, OneLine;
    BlankTitle();
    InitOk("");
    assert INIT.(title := "") == INIT;
    RunKeeps(INIT, Lines(md)[..k]);
  }

  lemma BlankTitle()
    ensures OneLine("")
  {
  }

  /** Without indented or blank section headings and without indented decision headings a design
      text is stable. */
  lemma CleanTextIsStable(md: string)
    requires NoIndentedTop(md) && NoIndentedDecision(md) && HeadingsNamed(md)
    ensures DesignOf(DesignText(DesignOf(md))) == DesignOf(md)
  {
    hide Lines, ClassifyPlain, Run, DesignOf, DesignText, IsTopHeading, Trim, TrimCut, HeadingsNamed, StateOk,
         DecisionMark;
    forall k | 0 <= k < |Lines(md)|
      ensures !StoresHeading(Run(INIT, Lines(md)[..k]), Lines(md)[k])
    {
      StateAt(md, k);
      CurInDecisions(Run(INIT, Lines(md)[..k]));
      if ClassifyPlain(Lines(md)[k]).Prose? {
        ProseIsNoTop(Lines(md)[k]);
      }
    }
    StableIff(md);
  }
}
