/** ParseDesign and RenderDesign: prose sections, architecture decisions, file changes and
    every section the format does not model. */
module DesignFormat {
  import opened Seqs
  import opened Text
  import opened OpenSpecModel
  import opened Lexer
  import opened SpecRenderer
  import opened PlainLexing
  import ProposalFormat

  datatype Section = NoSection | TechnicalSection | DecisionSection | DataFlowSection | ChangeSection

  /** designSection: a case-insensitive prefix match. */
  function SectionOf(heading: string): Section {
    var h := ToLower(Trim(heading));
    if "technical approach" <= h then TechnicalSection
    else if "architecture decision" <= h then DecisionSection
    else if "data flow" <= h then DataFlowSection
    else if "file change" <= h then ChangeSection
    else NoSection
  }

  /** What stands in parentheses after a path, if anything does. */
  function KindOf(rest: string): string {
    if "(" <= rest && rest[|rest| - 1] == ')' then Trim(rest[1..|rest| - 1]) else ""
  }

  /** parseFileChange: a bullet whose body starts with a path in backquotes. */
  function ParseChange(trimmed: string): Option<FileChange> {
    if !IsBullet(trimmed) then None else
      var body := BulletBody(trimmed).value;
      if !("`" <= body) then None else
        var end := IndexOf(body[1..], '`');
        if end == |body[1..]| then None
        else Some(FileChange(body[1..1 + end], KindOf(Trim(body[end + 2..]))))
  }

  // --- the parser ---

  datatype State = State(
    title: string,
    section: Section,
    technical: seq<string>,
    dataFlow: seq<string>,
    cur: Option<string>,
    decBody: seq<string>,
    decisions: seq<DesignDecision>,
    changes: seq<FileChange>,
    extra: Option<string>,
    extraRaw: seq<string>,
    extras: seq<MarkdownSection>)

  const INIT := State("", NoSection, [], [], None, [], [], [], None, [], [])

  function FlushDecision(st: State): State {
    (if st.cur.Some? then st.(decisions := st.decisions + [DesignDecision(st.cur.value, Trim(Join(st.decBody)))])
     else st)
    .(cur := None, decBody := [])
  }

  function FlushExtra(st: State): State {
    (if st.extra.Some? then st.(extras := st.extras + [MarkdownSection(st.extra.value, Trim(Join(st.extraRaw)))])
     else st)
    .(extra := None, extraRaw := [])
  }

  function OpenDecision(st: State, name: string): State {
    FlushDecision(st).(cur := Some(name))
  }

  function OpenSection(st: State, heading: string): State {
    FlushExtra(FlushDecision(st))
    .(section := SectionOf(heading), extra := if SectionOf(heading).NoSection? then Some(heading) else None)
  }

  function StepProse(st: State, t: string): State {
    match st.section
    case TechnicalSection => st.(technical := st.technical + [t])
    case DataFlowSection => st.(dataFlow := st.dataFlow + [t])
    case DecisionSection => if st.cur.Some? then st.(decBody := st.decBody + [t]) else st
    case ChangeSection => if ParseChange(t).Some? then st.(changes := st.changes + [ParseChange(t).value]) else st
    case NoSection => if st.extra.Some? then st.(extraRaw := st.extraRaw + [t]) else st
  }

  function StepTop(st: State, t: Top): State {
    match t
    case H2(heading) => OpenSection(st, heading)
    case H1(title) => st.(title := title)
    case Blank => st
    case Prose(text) => StepProse(st, text)
  }

  /** Only inside the decisions section is "### Decision:" a heading. */
  predicate OpensDecision(st: State, raw: string) {
    st.section.DecisionSection? && DecisionMark() <= TrimCut(raw)
  }

  function FeedLine(st: State, raw: string): State {
    if OpensDecision(st, raw) then OpenDecision(st, Trim(TrimCut(raw)[|DecisionMark()|..]))
    else StepTop(st, ClassifyPlain(raw))
  }

  function Run(st: State, lines: seq<string>): State {
    Fold(FeedLine, st, lines)
  }

  function Finish(st: State): Design {
    var s := FlushExtra(FlushDecision(st));
    Design(s.title, Trim(Join(s.technical)), s.decisions, Trim(Join(s.dataFlow)), s.changes, s.extras)
  }

  /** The meaning of ParseDesign. */
  function DesignOf(md: string): Design {
    Finish(Run(INIT, Lines(md)))
  }

  class Parser {
    var title: string
    var section: Section
    var technical: seq<string>
    var dataFlow: seq<string>
    var cur: Option<string>
    var decBody: seq<string>
    var decisions: seq<DesignDecision>
    var changes: seq<FileChange>
    var extra: Option<string>
    var extraRaw: seq<string>
    var extras: seq<MarkdownSection>

    ghost function Abs(): State
      reads this
    {
      State(title, section, technical, dataFlow, cur, decBody, decisions, changes, extra, extraRaw, extras)
    }

    constructor ()
      ensures Abs() == INIT
    {
      title, section, technical, dataFlow, cur, decBody := "", NoSection, [], [], None, [];
      decisions, changes, extra, extraRaw, extras := [], [], None, [], [];
    }

    method CloseDecision()
      modifies this
      ensures Abs() == FlushDecision(old(Abs()))
    {
      hide Trim, Join;
      if cur.Some? {
        decisions := decisions + [DesignDecision(cur.value, Trim(Join(decBody)))];
      }
      cur := None;
      decBody := [];
    }

    method CloseExtra()
      modifies this
      ensures Abs() == FlushExtra(old(Abs()))
    {
      hide Trim, Join;
      if extra.Some? {
        extras := extras + [MarkdownSection(extra.value, Trim(Join(extraRaw)))];
      }
      extra := None;
      extraRaw := [];
    }

    method OnSection(heading: string)
      modifies this
      ensures Abs() == OpenSection(old(Abs()), heading)
    {
      hide SectionOf, Trim, Join;
      CloseDecision();
      CloseExtra();
      section := SectionOf(heading);
      if section.NoSection? {
        extra := Some(heading);
      }
    }

    method OnProse(trimmed: string)
      modifies this
      ensures Abs() == StepProse(old(Abs()), trimmed)
    {
      hide ParseChange;
      match section {
        case TechnicalSection => technical := technical + [trimmed];
        case DataFlowSection => dataFlow := dataFlow + [trimmed];
        case DecisionSection =>
          if cur.Some? {
            decBody := decBody + [trimmed];
          }
        case ChangeSection =>
          var change := ParseChange(trimmed);
          if change.Some? {
            changes := changes + [change.value];
          }
        case NoSection =>
          if extra.Some? {
            extraRaw := extraRaw + [trimmed];
          }
      }
    }

    method Feed(raw: string)
      modifies this
      ensures Abs() == FeedLine(old(Abs()), raw)
    {
      hide Trim, TrimCut, SectionMark, TitleMark, DecisionMark, OpenSection, StepProse, FlushDecision;
      var line := TrimCut(raw);
      var trimmed := Trim(line);
      if section.DecisionSection? && DecisionMark() <= line {
        CloseDecision();
        cur := Some(Trim(line[|DecisionMark()|..]));
      } else if SectionMark() <= line {
        OnSection(Trim(line[|SectionMark()|..]));
      } else if TitleMark() <= line {
        title := Trim(line[|TitleMark()|..]);
      } else if trimmed != "" {
        OnProse(trimmed);
      }
    }
  }

  method ParseDesign(md: string) returns (d: Design)
    ensures d == DesignOf(md)
  {
    hide FeedLine, FlushExtra, FlushDecision, Trim, Join, Lines;
    var s := new Parser();
    var lines := Lines(md);
    for k := 0 to |lines|
      invariant s.Abs() == Run(INIT, lines[..k])
    {
      s.Feed(lines[k]);
      FoldSnoc(FeedLine, INIT, lines, k);
    }
    assert lines[..|lines|] == lines;
    s.CloseDecision();
    s.CloseExtra();
    d := Design(s.title, Trim(Join(s.technical)), s.decisions, Trim(Join(s.dataFlow)), s.changes, s.extras);
  }

  // --- the printer ---

  function DecisionLines(dec: DesignDecision): seq<string> {
    ["", DecisionLine(dec.name)] + BlockLines(dec.body)
  }

  function DecisionsLines(decs: seq<DesignDecision>): seq<string> {
    if decs == [] then [] else SectionHeader("Architecture Decisions") + FlatMap(DecisionLines, decs)
  }

  function ChangeBody(fc: FileChange): string {
    "`" + fc.path + "`" + (if fc.kind == "" then "" else " (" + fc.kind + ")")
  }

  function ChangeLine(fc: FileChange): string {
    BulletLine(ChangeBody(fc))
  }

  function ChangesLines(fcs: seq<FileChange>): seq<string> {
    if fcs == [] then [] else SectionHeader("File Changes") + Map(ChangeLine, fcs)
  }

  function DesignLines(d: Design): seq<string> {
    [TitleLine(d.title)] + ProseSection("Technical Approach", d.technicalApproach) + DecisionsLines(d.decisions)
    + ProseSection("Data Flow", d.dataFlow) + ChangesLines(d.fileChanges) + FlatMap(ProposalFormat.ExtraLines, d.extras)
  }

  function DesignText(d: Design): string {
    Unlines(DesignLines(d))
  }

  method RenderDecisions(b: Builder, decs: seq<DesignDecision>)
    requires b.Valid()
    modifies b
    ensures b.Valid() && b.lines == old(b.lines) + FlatMap(DecisionLines, decs)
  {
    hide Unlines, Lines, DecisionLine;
    for i := 0 to |decs|
      invariant b.Valid()
      invariant b.lines == old(b.lines) + FlatMap(DecisionLines, decs[..i])
    {
      var dec := decs[i];
      ghost var before := b.lines;
      FlatMapSnoc(DecisionLines, decs, i);
      b.Line("");
      b.Line(DecisionLine(dec.name));
      if dec.body != "" {
        b.Block(dec.body);
      }
      assert b.lines == before + DecisionLines(dec);
      AppendAssoc(old(b.lines), FlatMap(DecisionLines, decs[..i]), DecisionLines(dec));
    }
    assert decs[..|decs|] == decs;
  }

  method RenderChange(b: Builder, fc: FileChange)
    requires b.Valid()
    modifies b
    ensures b.Valid() && b.lines == old(b.lines) + [ChangeLine(fc)]
  {
    hide Unlines;
    var line := "- `" + fc.path + "`";
    if fc.kind != "" {
      line := line + " (" + fc.kind + ")";
    }
    assert line == ChangeLine(fc);
    b.Line(line);
  }

  method RenderChanges(b: Builder, fcs: seq<FileChange>)
    requires b.Valid()
    modifies b
    ensures b.Valid() && b.lines == old(b.lines) + Map(ChangeLine, fcs)
  {
    hide Unlines, ChangeLine;
    for i := 0 to |fcs|
      invariant b.Valid()
      invariant b.lines == old(b.lines) + Map(ChangeLine, fcs[..i])
    {
      RenderChange(b, fcs[i]);
      MapSnoc(ChangeLine, fcs, i);
      AppendAssoc(old(b.lines), Map(ChangeLine, fcs[..i]), [ChangeLine(fcs[i])]);
    }
    assert fcs[..|fcs|] == fcs;
  }

  method RenderSection(b: Builder, heading: string)
    requires b.Valid()
    modifies b
    ensures b.Valid() && b.lines == old(b.lines) + SectionHeader(heading)
  {
    hide Unlines, SectionLine;
    b.Line("");
    b.Line(SectionLine(heading));
  }

  method RenderDesign(d: Design) returns (md: string)
    ensures md == DesignText(d)
  {
    hide Unlines, TitleLine, ProseSection, DecisionLines, ChangeLine, ProposalFormat.ExtraLines, SectionHeader, Map,
         FlatMap;
    var b := new Builder();
    b.Line(TitleLine(d.title));
    assert b.lines == [TitleLine(d.title)];
    RenderProse(b, "Technical Approach", d.technicalApproach);
    ghost var sofar := b.lines;
    if d.decisions != [] {
      RenderSection(b, "Architecture Decisions");
      RenderDecisions(b, d.decisions);
      AppendAssoc(sofar, SectionHeader("Architecture Decisions"), FlatMap(DecisionLines, d.decisions));
    }
    assert b.lines == sofar + DecisionsLines(d.decisions);
    RenderProse(b, "Data Flow", d.dataFlow);
    sofar := b.lines;
    if d.fileChanges != [] {
      RenderSection(b, "File Changes");
      RenderChanges(b, d.fileChanges);
      AppendAssoc(sofar, SectionHeader("File Changes"), Map(ChangeLine, d.fileChanges));
    }
    assert b.lines == sofar + ChangesLines(d.fileChanges);
    ProposalFormat.RenderExtras(b, d.extras);
    md := b.text;
  }
}
