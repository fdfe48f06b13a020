/** parse(render(d)) == d on every well-formed design. */
module DesignRoundTrip {
  import opened Seqs
  import opened Text
  import opened OpenSpecModel
  import opened Lexer
  import opened SpecRenderer
  import opened PlainLexing
  import opened DesignFormat
  import Extras = ProposalRoundTrip
  import ProposalFormat

  // --- which designs the format can carry ---

  predicate LooseDecision(dec: DesignDecision) {
    OneLine(dec.name) && Stored(BlockLines(dec.body))
  }

  predicate LooseDecisions(decs: seq<DesignDecision>) {
    forall i :: 0 <= i < |decs| ==> LooseDecision(decs[i])
  }

  predicate LooseChange(fc: FileChange) {
    '`' !in fc.path && '\n' !in fc.path && OneLine(fc.kind)
  }

  predicate LooseChanges(fcs: seq<FileChange>) {
    forall i :: 0 <= i < |fcs| ==> LooseChange(fcs[i])
  }

  predicate LooseExtra(sec: MarkdownSection) {
    OneLine(sec.heading) && SectionOf(sec.heading).NoSection? && Stored(BlockLines(sec.body))
  }

  predicate LooseExtras(secs: seq<MarkdownSection>) {
    forall i :: 0 <= i < |secs| ==> LooseExtra(secs[i])
  }

  /** What every parser run yields. */
  predicate Loose(d: Design) {
    && OneLine(d.title) && Stored(BlockLines(d.technicalApproach)) && Stored(BlockLines(d.dataFlow))
    && LooseDecisions(d.decisions) && LooseChanges(d.fileChanges) && LooseExtras(d.extras)
  }

  /** No line reads as a decision heading. */
  predicate NoMarks(ls: seq<string>) {
    forall i :: 0 <= i < |ls| ==> !(DecisionMark() <= ls[i])
  }

  function MarkBit(l: string): nat {
    if DecisionMark() <= l then 1 else 0
  }

  function Marks(ls: seq<string>): nat {
    Sum(MarkBit, ls)
  }

  function DecisionTops(dec: DesignDecision): nat {
    Tops(BlockLines(dec.body))
  }

  function DecisionMarks(dec: DesignDecision): nat {
    Marks(BlockLines(dec.body))
  }

  /** Stored prose lines that read as a section heading or a title. */
  function TopStrays(d: Design): nat {
    Tops(BlockLines(d.technicalApproach)) + Tops(BlockLines(d.dataFlow)) + Sum(DecisionTops, d.decisions)
    + Sum(Extras.ExtraStrays, d.extras)
  }

  /** Stored decision prose that reads as a decision heading. */
  function MarkStrays(d: Design): nat {
    Sum(DecisionMarks, d.decisions)
  }

  /** Everything the design format can carry. */
  predicate WellFormed(d: Design) {
    Loose(d) && TopStrays(d) == 0 && MarkStrays(d) == 0 && Extras.Named(d.extras)
  }

  // --- file changes: printing and reading are inverse ---

  function KindSuffix(kind: string): string {
    if kind == "" then "" else " (" + kind + ")"
  }

  lemma ParensText(kind: string)
    ensures KindSuffix(kind) == if kind == "" then "" else " " + ("(" + kind + ")")
  {
    hide IsSpace;
    AppendAssoc(" ", "(" + kind, ")");
    AppendAssoc(" ", "(", kind);
  }

  lemma Parens(kind: string)
    ensures var k := "(" + kind + ")";
            Trimmed(k) && "(" <= k && k[|k| - 1] == ')' && k[1..|k| - 1] == kind
  {
    hide KindSuffix;
    assert !IsSpace('(') && !IsSpace(')');
    hide IsSpace;
    var k := "(" + kind + ")";
    assert k[0] == '(' && k[|k| - 1] == ')';
  }

  /** The rendered kind reads back, a kind that ends in a parenthesis included. */
  lemma KindBack(kind: string)
    requires OneLine(kind)
    ensures KindOf(Trim(KindSuffix(kind))) == kind
  {
    if kind == "" {
      TrimId("");
    } else {
      hide Trim, KindSuffix, Trimmed;
      ParensText(kind);
      Parens(kind);
      var k := "(" + kind + ")";
      TrimAfterBlank(k);
      TrimId(kind);
    }
  }

  lemma SuffixShape(kind: string)
    requires '\n' !in kind
    ensures '\n' !in KindSuffix(kind) && (KindSuffix(kind) != "" ==> KindSuffix(kind)[|KindSuffix(kind)| - 1] == ')')
  {
  }

  lemma Quoted(path: string, suffix: string)
    requires '\n' !in path && '\n' !in suffix && (suffix != "" ==> suffix[|suffix| - 1] == ')')
    ensures var b := "`" + path + "`" + suffix;
            b != "" && OneLine(b) && "`" <= b && b[1..] == path + ['`'] + suffix
  {
    var b := "`" + path + "`" + suffix;
    assert b[0] == '`';
    assert b[|b| - 1] == if suffix == "" then '`' else ')';
  }

  lemma ChangeBodyShape(fc: FileChange)
    requires LooseChange(fc)
    ensures var b := ChangeBody(fc);
            b != "" && OneLine(b) && "`" <= b && b[1..] == fc.path + ['`'] + KindSuffix(fc.kind)
  {
    SuffixShape(fc.kind);
    assert ChangeBody(fc) == "`" + fc.path + "`" + KindSuffix(fc.kind);
    Quoted(fc.path, KindSuffix(fc.kind));
  }

  /** What ParseChange finds in a body that opens with a quoted path. */
  lemma ParseQuoted(t: string, path: string, suffix: string)
    requires IsBullet(t) && "`" <= BulletBody(t).value && '`' !in path
    requires BulletBody(t).value[1..] == path + ['`'] + suffix
    ensures ParseChange(t) == Some(FileChange(path, KindOf(Trim(suffix))))
  {
    hide IsBullet, BulletBody, Trim, KindOf;
    IndexOfFirst(path, suffix, '`');
    var body, tail := BulletBody(t).value, path + ['`'] + suffix;
    assert tail[..|path|] == path && tail[|path| + 1..] == suffix;
    assert body[1..1 + |path|] == tail[..|path|];
    assert body[|path| + 2..] == tail[|path| + 1..];
  }

  /** renderFileChange inverts parseFileChange. */
  lemma ChangeBack(fc: FileChange)
    requires LooseChange(fc)
    ensures ParseChange(ChangeLine(fc)) == Some(fc)
    ensures ClassifyPlain(ChangeLine(fc)) == Prose(ChangeLine(fc)) && '\n' !in ChangeLine(fc)
    ensures !(DecisionMark() <= TrimCut(ChangeLine(fc)))
  {
    hide ChangeBody, KindSuffix, BulletLine, BulletBody, Trim, TrimCut, ClassifyPlain, OneLine, KindOf, DecisionMark,
         ParseChange;
    var b := ChangeBody(fc);
    ChangeBodyShape(fc);
    PlainBullet(b);
    KindBack(fc.kind);
    ReadBulletLine(b);
    BulletLineShape(b);
    ParseQuoted(ChangeLine(fc), fc.path, KindSuffix(fc.kind));
    ChangeLineKept(b);
  }

  lemma ChangeLineKept(b: string)
    requires b != "" && OneLine(b)
    ensures !(DecisionMark() <= TrimCut(BulletLine(b)))
  {
    hide BulletLine, BulletBody, Trim, TrimCut, DecisionMark;
    ReadBulletLine(b);
    TrimCutId(BulletLine(b));
    NotHash(BulletLine(b));
  }

  lemma PieceBreaks(s: string, i: nat, j: nat)
    requires i <= j <= |s| && '\n' !in s
    ensures '\n' !in s[i..j]
  {
  }

  lemma ParsedKind(rest: string)
    requires '\n' !in rest
    ensures OneLine(KindOf(rest))
  {
    hide Trim;
    if "(" <= rest && rest[|rest| - 1] == ')' {
      PieceBreaks(rest, 1, if |rest| == 1 then 1 else |rest| - 1);
    }
  }

  lemma ParsedChange(t: string)
    requires OneLine(t) && ParseChange(t).Some?
    ensures LooseChange(ParseChange(t).value)
  {
    hide BulletBody, Trim, IsBullet, OneLine, KindOf;
    BulletBodyNotEmpty(t);
    var body := BulletBody(t).value;
    var end := IndexOf(body[1..], '`');
    assert body[1..1 + end] == body[1..][..end];
    OneLineBreaks(body);
    PieceBreaks(body, 1, 1 + end);
    PieceBreaks(body, end + 2, |body|);
    assert body[end + 2..] == body[end + 2..|body|];
    ParsedKind(Trim(body[end + 2..]));
  }

  lemma OneLineBreaks(s: string)
    requires OneLine(s)
    ensures '\n' !in s
  {
  }

  // --- what one rendered line does to the parser ---

  lemma FeedBlank(st: State)
    ensures FeedLine(st, "") == st
  {
    hide DecisionMark, TrimCut, OpenDecision, ClassifyPlain;
    PlainBlank();
    TrimCutId("");
    NotHash("");
  }

  lemma SectionNotDecision(heading: string)
    requires heading != "" && OneLine(heading)
    ensures !(DecisionMark() <= TrimCut(SectionLine(heading)))
  {
    hide DecisionMark, SectionMark, TrimCut, SectionLine, Trim, OneLine;
    SectionLineShape(heading);
    MarkHeads(TrimCut(SectionLine(heading)));
  }

  lemma FeedSection(st: State, heading: string)
    requires heading != "" && OneLine(heading)
    ensures Run(st, SectionHeader(heading)) == OpenSection(st, heading)
  {
    hide DecisionMark, SectionLine, TrimCut, OpenDecision, OpenSection, ClassifyTop, StepProse, OneLine;
    SectionNotDecision(heading);
    ClassifySection(heading);
    FeedBlank(st);
    FoldTwo(FeedLine, st, "", SectionLine(heading));
  }

  lemma FeedDecision(st: State, name: string)
    requires OneLine(name) && st.section.DecisionSection?
    ensures Run(st, ["", DecisionLine(name)]) == OpenDecision(st, name)
  {
    DecisionLineShape(name);
    MarkedName(DecisionMark(), name);
    hide DecisionMark, DecisionLine, TrimCut, OpenDecision, StepTop, Trim;
    FeedBlank(st);
    FoldTwo(FeedLine, st, "", DecisionLine(name));
  }

  lemma FeedTitle(title: string)
    requires OneLine(title)
    ensures Run(INIT, [TitleLine(title)]) == INIT.(title := title)
  {
    hide DecisionMark, TrimCut, OpenDecision, ClassifyTop, TitleLine, OneLine;
    FoldOne(FeedLine, INIT, TitleLine(title));
    if title == "" {
      ClassifyEmptyTitle();
    } else {
      ClassifyTitle(title);
    }
  }

  lemma FeedStored(st: State, l: string)
    requires l != "" && OneLine(l) && !IsTopHeading(l)
    requires st.section.DecisionSection? ==> !(DecisionMark() <= l)
    ensures FeedLine(st, l) == StepProse(st, l)
  {
    hide DecisionMark, TrimCut, ClassifyTop, StepProse, OpenDecision, IsTopHeading;
    ClassifyTopStored(l);
    TrimCutId(l);
  }

  lemma FeedChange(st: State, fc: FileChange)
    requires LooseChange(fc) && st.section.ChangeSection?
    ensures FeedLine(st, ChangeLine(fc)) == st.(changes := st.changes + [fc])
  {
    hide DecisionMark, TrimCut, ClassifyPlain, ParseChange, OpenDecision, ChangeLine, LooseChange;
    ChangeBack(fc);
  }

  // --- what whole blocks do ---

  /** The state after a block of prose: the section decides where the lines go. */
  function Kept(st: State, ls: seq<string>): State {
    match st.section
    case TechnicalSection => st.(technical := st.technical + ls)
    case DataFlowSection => st.(dataFlow := st.dataFlow + ls)
    case DecisionSection => if st.cur.Some? then st.(decBody := st.decBody + ls) else st
    case ChangeSection => st
    case NoSection => if st.extra.Some? then st.(extraRaw := st.extraRaw + ls) else st
  }

  lemma KeptCons(st: State, l: string, ls: seq<string>)
    requires !st.section.ChangeSection?
    ensures Kept(StepProse(st, l), ls) == Kept(st, [l] + ls)
  {
    AppendAssoc(st.technical, [l], ls);
    AppendAssoc(st.dataFlow, [l], ls);
    AppendAssoc(st.decBody, [l], ls);
    AppendAssoc(st.extraRaw, [l], ls);
  }

  lemma KeptNothing(st: State)
    ensures Kept(st, []) == st
  {
  }

  lemma SectionKept(st: State, l: string)
    ensures StepProse(st, l).section == st.section
  {
    hide ParseChange;
  }

  lemma {:induction false} RunStored(st: State, ls: seq<string>)
    requires Stored(ls) && NoTops(ls) && !st.section.ChangeSection?
    requires st.section.DecisionSection? ==> NoMarks(ls)
    ensures Run(st, ls) == Kept(st, ls)
    decreases |ls|
  {
    hide FeedLine, StepProse, Kept, OneLine, IsTopHeading, DecisionMark;
    if ls == [] {
      KeptNothing(st);
    } else {
      FeedStored(st, ls[0]);
      SectionKept(st, ls[0]);
      RunStored(StepProse(st, ls[0]), ls[1..]);
      KeptCons(st, ls[0], ls[1..]);
      assert [ls[0]] + ls[1..] == ls;
    }
  }

  lemma {:induction false} RunChanges(st: State, fcs: seq<FileChange>)
    requires LooseChanges(fcs) && st.section.ChangeSection?
    ensures Run(st, Map(ChangeLine, fcs)) == st.(changes := st.changes + fcs)
    decreases |fcs|
  {
    hide FeedLine, ChangeLine, LooseChange;
    if fcs == [] {
      assert st.changes + fcs == st.changes;
    } else {
      FeedChange(st, fcs[0]);
      FoldCons(FeedLine, st, ChangeLine(fcs[0]), Map(ChangeLine, fcs[1..]));
      RunChanges(st.(changes := st.changes + [fcs[0]]), fcs[1..]);
      AppendAssoc(st.changes, [fcs[0]], fcs[1..]);
      assert [fcs[0]] + fcs[1..] == fcs;
    }
  }

  /** Both flushes: what every section heading, and the end of the text, does first. */
  function Flushed(st: State): State {
    FlushExtra(FlushDecision(st))
  }

  lemma BodyBack(body: string)
    requires Stored(BlockLines(body))
    ensures Trim(Join(BlockLines(body))) == body
  {
    Extras.BodyBack(body);
  }

  lemma DecisionClosed(st: State, dec: DesignDecision)
    requires LooseDecision(dec) && st.section.DecisionSection?
    ensures FlushDecision(Kept(OpenDecision(st, dec.name), BlockLines(dec.body)))
         == FlushDecision(st).(decisions := FlushDecision(st).decisions + [dec])
  {
    hide Trim, Join, BlockLines, Stored, OneLine;
    BodyBack(dec.body);
    assert [] + BlockLines(dec.body) == BlockLines(dec.body);
  }

  lemma RunDecision(st: State, dec: DesignDecision)
    requires LooseDecision(dec) && st.section.DecisionSection? && NoTops(BlockLines(dec.body))
             && NoMarks(BlockLines(dec.body))
    ensures var r := Run(st, DecisionLines(dec));
            r.section.DecisionSection? && FlushDecision(r)
                == FlushDecision(st).(decisions := FlushDecision(st).decisions + [dec])
  {
    OpenedDecision(st, dec.name);
    hide Fold, FlushDecision, OpenDecision, BlockLines, Stored, NoTops, NoMarks, OneLine;
    FeedDecision(st, dec.name);
    FoldConcat(FeedLine, st, ["", DecisionLine(dec.name)], BlockLines(dec.body));
    RunStored(OpenDecision(st, dec.name), BlockLines(dec.body));
    DecisionClosed(st, dec);
  }

  lemma OpenedDecision(st: State, name: string)
    ensures OpenDecision(st, name).section == st.section && OpenDecision(st, name).cur == Some(name)
  {
    hide Trim, Join;
  }

  lemma {:induction false} RunDecisionList(st: State, decs: seq<DesignDecision>)
    requires LooseDecisions(decs) && st.section.DecisionSection?
    requires forall i :: 0 <= i < |decs| ==> NoTops(BlockLines(decs[i].body)) && NoMarks(BlockLines(decs[i].body))
    ensures var r := Run(st, FlatMap(DecisionLines, decs));
            FlushDecision(r) == FlushDecision(st).(decisions := FlushDecision(st).decisions + decs)
    decreases |decs|
  {
    hide FeedLine, DecisionLines, LooseDecision, NoTops, NoMarks, BlockLines, FlushDecision;
    if decs == [] {
      assert FlushDecision(st).decisions + decs == FlushDecision(st).decisions;
    } else {
      RunDecision(st, decs[0]);
      var next := Run(st, DecisionLines(decs[0]));
      FoldConcat(FeedLine, st, DecisionLines(decs[0]), FlatMap(DecisionLines, decs[1..]));
      RunDecisionList(next, decs[1..]);
      AppendAssoc(FlushDecision(st).decisions, [decs[0]], decs[1..]);
      assert [decs[0]] + decs[1..] == decs;
    }
  }

  /** Equal once flushed, up to the section that is open. */
  predicate SameBut(r: State, s: State) {
    Flushed(r) == s.(section := r.section)
  }

  lemma OpenFlushed(st: State, heading: string)
    requires !SectionOf(heading).NoSection?
    ensures OpenSection(st, heading) == Flushed(st).(section := SectionOf(heading), extra := None)
    ensures Flushed(st).extra.None? && Flushed(st).extraRaw == [] && Flushed(st).cur.None? && Flushed(st).decBody == []
  {
    hide Trim, Join, SectionOf;
  }

  lemma FlushedTwice(st: State)
    requires st.extra.None? && st.extraRaw == [] && st.cur.None? && st.decBody == []
    ensures Flushed(st) == st && FlushDecision(st) == st
  {
  }

  lemma SectionNames()
    ensures SectionOf("Technical Approach") == TechnicalSection
            && SectionOf("Architecture Decisions") == DecisionSection
    ensures SectionOf("Data Flow") == DataFlowSection && SectionOf("File Changes") == ChangeSection
    ensures OneLine("Technical Approach") && OneLine("Architecture Decisions") && OneLine("Data Flow")
            && OneLine("File Changes")
  {
    hide Trim, ToLower;
    NameShapes();
    TrimId("Technical Approach");
    TrimId("Architecture Decisions");
    TrimId("Data Flow");
    TrimId("File Changes");
    LowerNames();
    FirstLetters("architecture decisions");
    FirstLetters("data flow");
    FirstLetters("file changes");
  }

  lemma NameShapes()
    ensures OneLine("Technical Approach") && OneLine("Architecture Decisions") && OneLine("Data Flow")
            && OneLine("File Changes")
  {
    ShortShapes();
    LongShapes();
  }

  lemma ShortShapes()
    ensures OneLine("Data Flow") && OneLine("File Changes")
  {
  }

  lemma LongShapes()
    ensures OneLine("Technical Approach") && OneLine("Architecture Decisions")
  {
  }

  lemma LowerNames()
    ensures ToLower("Technical Approach") == "technical approach"
            && ToLower("Architecture Decisions") == "architecture decisions"
    ensures ToLower("Data Flow") == "data flow" && ToLower("File Changes") == "file changes"
  {
    hide ToLower;
    LowerTechnical();
    LowerArchitecture();
    LowerShort();
  }

  lemma LowerTechnical()
    ensures ToLower("Technical Approach") == "technical approach"
  {
  }

  lemma LowerArchitecture()
    ensures ToLower("Architecture Decisions") == "architecture decisions"
  {
  }

  lemma LowerShort()
    ensures ToLower("Data Flow") == "data flow" && ToLower("File Changes") == "file changes"
  {
  }

  lemma FirstLetters(h: string)
    ensures "technical approach" <= h ==> h != "" && h[0] == 't'
    ensures "architecture decision" <= h ==> h != "" && h[0] == 'a'
    ensures "data flow" <= h ==> h != "" && h[0] == 'd'
    ensures "file change" <= h ==> h != "" && h[0] == 'f'
  {
  }

  lemma RunNothing(st: State)
    ensures Run(st, []) == st
  {
  }

  /** A prose section, read back: its lines land in the field its heading selects. */
  lemma RunProse(st: State, heading: string, prose: string)
    requires heading != "" && OneLine(heading) && prose != ""
    requires SectionOf(heading).TechnicalSection? || SectionOf(heading).DataFlowSection?
    requires Stored(BlockLines(prose)) && NoTops(BlockLines(prose))
    ensures Run(st, ProseSection(heading, prose)) == Kept(Flushed(st).(section := SectionOf(heading), extra := None),
                                                          BlockLines(prose))
  {
    hide Fold, Lines, SectionHeader, FeedLine, SectionOf, Stored, NoTops, Kept, Flushed, OpenSection, OneLine;
    FeedSection(st, heading);
    OpenFlushed(st, heading);
    FoldConcat(FeedLine, st, SectionHeader(heading), Lines(prose));
    RunStored(OpenSection(st, heading), Lines(prose));
  }

  lemma RunTechnical(st: State, prose: string)
    requires Stored(BlockLines(prose)) && NoTops(BlockLines(prose)) && st.technical == [] && st == Flushed(st)
    ensures SameBut(Run(st, ProseSection("Technical Approach", prose)), st.(technical := BlockLines(prose)))
  {
    hide Fold, Lines, SectionHeader, FeedLine, SectionOf, Stored, NoTops, OneLine, Trim, Join;
    if prose == "" {
      RunNothing(st);
    } else {
      SectionNames();
      RunProse(st, "Technical Approach", prose);
      assert [] + BlockLines(prose) == BlockLines(prose);
    }
  }

  lemma RunDataFlow(st: State, prose: string)
    requires Stored(BlockLines(prose)) && NoTops(BlockLines(prose)) && st.dataFlow == []
    ensures SameBut(Run(st, ProseSection("Data Flow", prose)), Flushed(st).(dataFlow := BlockLines(prose)))
  {
    hide Fold, Lines, SectionHeader, FeedLine, SectionOf, Stored, NoTops, OneLine, Trim, Join;
    if prose == "" {
      RunNothing(st);
    } else {
      SectionNames();
      RunProse(st, "Data Flow", prose);
      assert [] + BlockLines(prose) == BlockLines(prose);
    }
  }

  lemma RunDecisions(st: State, decs: seq<DesignDecision>)
    requires LooseDecisions(decs)
    requires forall i :: 0 <= i < |decs| ==> NoTops(BlockLines(decs[i].body)) && NoMarks(BlockLines(decs[i].body))
    ensures SameBut(Run(st, DecisionsLines(decs)), Flushed(st).(decisions := Flushed(st).decisions + decs))
  {
    hide Fold, FlatMap, SectionHeader, FeedLine, SectionOf, NoTops, NoMarks, BlockLines, LooseDecisions, Flushed,
         OpenSection;
    if decs == [] {
      RunNothing(st);
      FlushedFields(st);
      assert Flushed(st).decisions + decs == Flushed(st).decisions;
    } else {
      SectionNames();
      FeedSection(st, "Architecture Decisions");
      OpenFlushed(st, "Architecture Decisions");
      FoldConcat(FeedLine, st, SectionHeader("Architecture Decisions"), FlatMap(DecisionLines, decs));
      RunOpened(Flushed(st).(section := DecisionSection, extra := None), decs);
    }
  }

  lemma RunOpened(st: State, decs: seq<DesignDecision>)
    requires LooseDecisions(decs) && st.section.DecisionSection?
    requires st.extra.None? && st.extraRaw == [] && st.cur.None? && st.decBody == []
    requires forall i :: 0 <= i < |decs| ==> NoTops(BlockLines(decs[i].body)) && NoMarks(BlockLines(decs[i].body))
    ensures SameBut(Run(st, FlatMap(DecisionLines, decs)), st.(decisions := st.decisions + decs))
  {
    hide Run, FlatMap, NoTops, NoMarks, BlockLines, LooseDecisions, FlushDecision, Flushed;
    FlushedTwice(st);
    RunDecisionList(st, decs);
    DecisionsFlushed(Run(st, FlatMap(DecisionLines, decs)));
    FlushedFields(Run(st, FlatMap(DecisionLines, decs)));
  }

  lemma DecisionsFlushed(r: State)
    requires FlushDecision(r).extra.None? && FlushDecision(r).extraRaw == []
    ensures Flushed(r) == FlushDecision(r)
  {
    hide FlushDecision;
  }

  lemma RunFileChanges(st: State, fcs: seq<FileChange>)
    requires LooseChanges(fcs)
    ensures SameBut(Run(st, ChangesLines(fcs)), Flushed(st).(changes := st.changes + fcs))
  {
    hide Fold, Map, SectionHeader, FeedLine, SectionOf, Trim, Join, LooseChanges;
    if fcs == [] {
      RunNothing(st);
      assert st.changes + fcs == st.changes;
    } else {
      SectionNames();
      FeedSection(st, "File Changes");
      FoldConcat(FeedLine, st, SectionHeader("File Changes"), Map(ChangeLine, fcs));
      RunChanges(OpenSection(st, "File Changes"), fcs);
    }
  }

  lemma RunExtra(st: State, sec: MarkdownSection)
    requires LooseExtra(sec) && NoTops(BlockLines(sec.body)) && sec.heading != ""
    ensures SameBut(Run(st, ProposalFormat.ExtraLines(sec)), Flushed(st).(extras := Flushed(st).extras + [sec]))
  {
    hide Fold, SectionHeader, FeedLine, SectionOf, Stored, NoTops, Trim, Join, BlockLines, OneLine;
    FeedSection(st, sec.heading);
    FoldConcat(FeedLine, st, SectionHeader(sec.heading), BlockLines(sec.body));
    RunStored(OpenSection(st, sec.heading), BlockLines(sec.body));
    assert [] + BlockLines(sec.body) == BlockLines(sec.body);
    BodyBack(sec.body);
  }

  lemma {:induction false} RunExtras(st: State, secs: seq<MarkdownSection>)
    requires LooseExtras(secs) && Extras.Named(secs) && forall i :: 0 <= i < |secs| ==> NoTops(BlockLines(secs[i].body))
    ensures SameBut(Run(st, FlatMap(ProposalFormat.ExtraLines, secs)),
                    Flushed(st).(extras := Flushed(st).extras + secs))
    decreases |secs|
  {
    hide FeedLine, ProposalFormat.ExtraLines, LooseExtra, NoTops, BlockLines, Flushed;
    if secs == [] {
      FlushedFields(st);
      assert Flushed(st).extras + secs == Flushed(st).extras;
    } else {
      FoldConcat(FeedLine, st, ProposalFormat.ExtraLines(secs[0]), FlatMap(ProposalFormat.ExtraLines, secs[1..]));
      RunExtra(st, secs[0]);
      RunExtras(Run(st, ProposalFormat.ExtraLines(secs[0])), secs[1..]);
      AppendAssoc(Flushed(st).extras, [secs[0]], secs[1..]);
      assert [secs[0]] + secs[1..] == secs;
    }
  }

  // --- the theorem ---

  lemma NoMarksCount(ls: seq<string>)
    ensures NoMarks(ls) <==> Marks(ls) == 0
  {
    hide DecisionMark;
    SumZero(MarkBit, ls);
  }

  lemma NoStrays(d: Design)
    requires TopStrays(d) == 0
    ensures NoTops(BlockLines(d.technicalApproach)) && NoTops(BlockLines(d.dataFlow))
    ensures forall i :: 0 <= i < |d.decisions| ==> NoTops(BlockLines(d.decisions[i].body))
    ensures forall i :: 0 <= i < |d.extras| ==> NoTops(BlockLines(d.extras[i].body))
  {
    hide NoTops, Tops, BlockLines;
    NoTopsCount(BlockLines(d.technicalApproach));
    NoTopsCount(BlockLines(d.dataFlow));
    SumZero(DecisionTops, d.decisions);
    SumZero(Extras.ExtraStrays, d.extras);
    forall i | 0 <= i < |d.decisions|
      ensures NoTops(BlockLines(d.decisions[i].body))
    {
      assert DecisionTops(d.decisions[i]) == 0;
      NoTopsCount(BlockLines(d.decisions[i].body));
    }
    forall i | 0 <= i < |d.extras|
      ensures NoTops(BlockLines(d.extras[i].body))
    {
      assert Extras.ExtraStrays(d.extras[i]) == 0;
      NoTopsCount(BlockLines(d.extras[i].body));
    }
  }

  lemma NoMarkStrays(d: Design)
    requires MarkStrays(d) == 0
    ensures forall i :: 0 <= i < |d.decisions| ==> NoMarks(BlockLines(d.decisions[i].body))
  {
    hide NoMarks, Marks, BlockLines;
    SumZero(DecisionMarks, d.decisions);
    forall i | 0 <= i < |d.decisions|
      ensures NoMarks(BlockLines(d.decisions[i].body))
    {
      assert DecisionMarks(d.decisions[i]) == 0;
      NoMarksCount(BlockLines(d.decisions[i].body));
    }
  }

  /** What follows the title. */
  function BodyLines(d: Design): seq<string> {
    ProseSection("Technical Approach", d.technicalApproach) + DecisionsLines(d.decisions)
    + ProseSection("Data Flow", d.dataFlow) + ChangesLines(d.fileChanges) + FlatMap(ProposalFormat.ExtraLines, d.extras)
  }

  /** The body of a rendered design, one block after the other. */
  lemma RunBlocks(st: State, d: Design)
    ensures var a := Run(st, ProseSection("Technical Approach", d.technicalApproach));
            var b := Run(a, DecisionsLines(d.decisions));
            var c := Run(b, ProseSection("Data Flow", d.dataFlow));
            var e := Run(c, ChangesLines(d.fileChanges));
            Run(st, BodyLines(d)) == Run(e, FlatMap(ProposalFormat.ExtraLines, d.extras))
  {
    var a, b, c, e := ProseSection("Technical Approach", d.technicalApproach), DecisionsLines(d.decisions),
                      ProseSection("Data Flow", d.dataFlow), ChangesLines(d.fileChanges);
    hide Fold, FlatMap, ProseSection, DecisionsLines, ChangesLines;
    FoldConcatFour(FeedLine, st, a, b, c, e);
    FoldConcat(FeedLine, st, a + b + c + e, FlatMap(ProposalFormat.ExtraLines, d.extras));
  }

  /** What a flush leaves in the fields it does not own. */
  lemma FlushedFields(st: State)
    ensures var r := Flushed(st);
            && r.title == st.title && r.section == st.section && r.technical == st.technical
               && r.dataFlow == st.dataFlow
            && r.changes == st.changes && Flushed(r) == r
  {
    hide Trim, Join;
  }

  lemma RunFirst(st0: State, d: Design)
    requires WellFormed(d) && st0.technical == [] && st0.decisions == [] && Flushed(st0) == st0
    ensures var b := Run(Run(st0, ProseSection("Technical Approach", d.technicalApproach)),
                         DecisionsLines(d.decisions));
            SameBut(b, st0.(technical := BlockLines(d.technicalApproach), decisions := d.decisions))
  {
    hide Run, ProseSection, DecisionsLines, BlockLines, LooseChanges, LooseExtras, LooseDecisions, Stored, NoTops,
         NoMarks, OneLine,
         TopStrays, MarkStrays, Extras.Named, Flushed;
    assert st0.decisions + d.decisions == d.decisions;
    NoStrays(d);
    NoMarkStrays(d);
    var a := Run(st0, ProseSection("Technical Approach", d.technicalApproach));
    RunTechnical(st0, d.technicalApproach);
    FlushedFields(a);
    RunDecisions(a, d.decisions);
  }

  lemma RunSecond(b: State, d: Design)
    requires WellFormed(d) && b.dataFlow == [] && b.changes == []
    ensures var e := Run(Run(b, ProseSection("Data Flow", d.dataFlow)), ChangesLines(d.fileChanges));
            SameBut(e, Flushed(b).(dataFlow := BlockLines(d.dataFlow), changes := d.fileChanges))
  {
    assert [] + d.fileChanges == d.fileChanges;
    hide Run, ProseSection, ChangesLines, BlockLines, LooseChanges, LooseExtras, LooseDecisions, Stored, NoTops,
         NoMarks, OneLine,
         TopStrays, MarkStrays, Extras.Named, Flushed;
    NoStrays(d);
    var c := Run(b, ProseSection("Data Flow", d.dataFlow));
    RunDataFlow(b, d.dataFlow);
    FlushedFields(b);
    FlushedFields(c);
    RunFileChanges(c, d.fileChanges);
  }

  lemma RunBody(d: Design)
    requires WellFormed(d)
    ensures Finish(Run(INIT.(title := d.title), BodyLines(d))) == d
  {
    var st0 := INIT.(title := d.title);
    var b := Run(Run(st0, ProseSection("Technical Approach", d.technicalApproach)), DecisionsLines(d.decisions));
    var e := Run(Run(b, ProseSection("Data Flow", d.dataFlow)), ChangesLines(d.fileChanges));
    var r := Run(e, FlatMap(ProposalFormat.ExtraLines, d.extras));
    assert [] + d.extras == d.extras;
    hide Run, FlatMap, ProseSection, DecisionsLines, ChangesLines, BodyLines, Trim, Join, BlockLines, Finish,
         LooseChanges, LooseExtras, LooseDecisions, Stored, NoTops, NoMarks, OneLine, TopStrays, MarkStrays,
             Extras.Named, Flushed;
    RunBlocks(st0, d);
    NoStrays(d);
    FlushedTwice(st0);
    RunFirst(st0, d);
    FlushedFields(b);
    RunSecond(b, d);
    FlushedFields(e);
    RunExtras(e, d.extras);
    BodyBack(d.technicalApproach);
    BodyBack(d.dataFlow);
    FinishIsFlushed(r);
  }

  function FinishFlushed(s: State): Design {
    Design(s.title, Trim(Join(s.technical)), s.decisions, Trim(Join(s.dataFlow)), s.changes, s.extras)
  }

  lemma FinishIsFlushed(st: State)
    ensures Finish(st) == FinishFlushed(Flushed(st))
  {
    hide Trim, Join, FlushExtra, FlushDecision;
  }

  // --- no line breaks inside a rendered line ---

  lemma BreaksHeader(heading: string)
    requires '\n' !in heading
    ensures NoBreaks(SectionHeader(heading))
  {
    hide SectionLine;
    NoBreakLines(heading);
  }

  lemma {:induction false} BreaksDecisions(decs: seq<DesignDecision>)
    requires LooseDecisions(decs)
    ensures NoBreaks(FlatMap(DecisionLines, decs))
  {
    hide BlockLines, Stored, DecisionLine, Trimmed;
    if decs != [] {
      BreaksDecisions(decs[1..]);
      assert LooseDecision(decs[0]);
      NoBreakLines(decs[0].name);
      NoBreaksConcat(["", DecisionLine(decs[0].name)], BlockLines(decs[0].body));
      NoBreaksConcat(DecisionLines(decs[0]), FlatMap(DecisionLines, decs[1..]));
    }
  }

  lemma {:induction false} BreaksExtras(secs: seq<MarkdownSection>)
    requires LooseExtras(secs)
    ensures NoBreaks(FlatMap(ProposalFormat.ExtraLines, secs))
  {
    hide BlockLines, Stored, SectionHeader, SectionOf, Trimmed, NoBreaks;
    if secs == [] {
      PlainNothing();
    } else {
      BreaksExtras(secs[1..]);
      assert LooseExtra(secs[0]);
      PlainNothing();
      BreaksHeader(secs[0].heading);
      NoBreaksConcat(SectionHeader(secs[0].heading), BlockLines(secs[0].body));
      NoBreaksConcat(ProposalFormat.ExtraLines(secs[0]), FlatMap(ProposalFormat.ExtraLines, secs[1..]));
    }
  }

  lemma BreaksChanges(fcs: seq<FileChange>)
    requires LooseChanges(fcs)
    ensures NoBreaks(Map(ChangeLine, fcs))
  {
    hide ChangeLine, ParseChange, ClassifyPlain, DecisionMark, LooseChange, TrimCut;
    forall i | 0 <= i < |fcs|
      ensures '\n' !in ChangeLine(fcs[i])
    {
      ChangeBack(fcs[i]);
    }
  }

  lemma BreaksProse(heading: string, prose: string)
    requires '\n' !in heading
    ensures NoBreaks(ProseSection(heading, prose))
  {
    hide Lines, SectionHeader;
    BreaksHeader(heading);
  }

  lemma BreaksSections(d: Design)
    requires Loose(d)
    ensures NoBreaks(ProseSection("Technical Approach", d.technicalApproach)) && NoBreaks(DecisionsLines(d.decisions))
    ensures NoBreaks(ProseSection("Data Flow", d.dataFlow)) && NoBreaks(ChangesLines(d.fileChanges))
  {
    hide Map, FlatMap, ProseSection, SectionHeader, NoBreaks, Trimmed, LooseDecisions, LooseChanges, LooseExtras,
         Stored, BlockLines;
    NameShapes();
    PlainNothing();
    BreaksProse("Technical Approach", d.technicalApproach);
    BreaksProse("Data Flow", d.dataFlow);
    BreaksHeader("Architecture Decisions");
    BreaksDecisions(d.decisions);
    NoBreaksConcat(SectionHeader("Architecture Decisions"), FlatMap(DecisionLines, d.decisions));
    BreaksHeader("File Changes");
    BreaksChanges(d.fileChanges);
    NoBreaksConcat(SectionHeader("File Changes"), Map(ChangeLine, d.fileChanges));
  }

  lemma DesignBreaks(d: Design)
    requires Loose(d)
    ensures NoBreaks(DesignLines(d)) && DesignLines(d) == [TitleLine(d.title)] + BodyLines(d)
  {
    var t, a, b, c, e, x := [TitleLine(d.title)], ProseSection("Technical Approach", d.technicalApproach),
        DecisionsLines(d.decisions),
                            ProseSection("Data Flow", d.dataFlow), ChangesLines(d.fileChanges),
                            FlatMap(ProposalFormat.ExtraLines, d.extras);
    hide FlatMap, TitleLine, ProseSection, DecisionsLines, ChangesLines, NoBreaks, Stored, LooseDecisions, LooseChanges,
         LooseExtras,
         BlockLines, Trimmed;
    BreaksTitle(d.title);
    BreaksSections(d);
    BreaksExtras(d.extras);
    NoBreaksConcat(a, b);
    NoBreaksConcat(a + b, c);
    NoBreaksConcat(a + b + c, e);
    NoBreaksConcat(a + b + c + e, x);
    NoBreaksConcat(t, BodyLines(d));
    AppendFour(t, a, b, c, e);
    AppendAssoc(t, a + b + c + e, x);
  }

  lemma BreaksTitle(title: string)
    requires '\n' !in title
    ensures NoBreaks([TitleLine(title)])
  {
    hide TitleLine;
    NoBreakLines(title);
  }

  /** Re-parsing any rendered design: the title, then the body lines. */
  lemma Reparse(d: Design)
    requires Loose(d)
    ensures DesignOf(DesignText(d)) == Finish(Run(INIT.(title := d.title), BodyLines(d)))
  {
    var body := [TitleLine(d.title)] + BodyLines(d);
    hide Fold, Lines, Unlines, Finish, FeedLine, DesignLines, NoBreaks, TitleLine, BodyLines, Stored, LooseDecisions,
         LooseChanges,
         LooseExtras, BlockLines;
    DesignBreaks(d);
    LinesOfText(body);
    FoldConcat(FeedLine, INIT, body, [""]);
    FoldOne(FeedLine, Run(INIT, body), "");
    FeedBlank(Run(INIT, body));
    FoldConcat(FeedLine, INIT, [TitleLine(d.title)], BodyLines(d));
    FeedTitle(d.title);
  }

  /** parse(render(d)) == d for every well-formed design. */
  lemma RoundTrip(d: Design)
    requires WellFormed(d)
    ensures DesignOf(DesignText(d)) == d
  {
    hide DesignOf, DesignText, BodyLines, Finish, Run, Loose, TopStrays, MarkStrays, Extras.Named;
    Reparse(d);
    RunBody(d);
  }
}
