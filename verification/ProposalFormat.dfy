/** ParseProposal and RenderProposal: intent, scope lists, approach, and every section the
    format does not model. */
module ProposalFormat {
  import opened Seqs
  import opened Text
  import opened OpenSpecModel
  import opened Lexer
  import opened SpecRenderer
  import opened PlainLexing

  datatype Section = NoSection | IntentSection | ScopeSection | ApproachSection

  /** proposalSection: a case-insensitive prefix match. */
  function SectionOf(heading: string): Section {
    var h := ToLower(Trim(heading));
    if "intent" <= h then IntentSection
    else if "scope" <= h then ScopeSection
    else if "approach" <= h then ApproachSection
    else NoSection
  }

  datatype ScopeLine = InLabel | OutLabel | Item(body: string) | Ignored

  /** A line of the scope section. */
  function ScopeOf(t: string): ScopeLine {
    var low := ToLower(t);
    if "in scope" <= low then InLabel
    else if "out of scope" <= low || "out-of-scope" <= low then OutLabel
    else if IsBullet(t) then Item(BulletBody(t).value)
    else Ignored
  }

  // --- the parser ---

  datatype State = State(
    title: string,
    section: Section,
    scopeOut: bool,
    intent: seq<string>,
    approach: seq<string>,
    scopeInItems: seq<string>,
    scopeOutItems: seq<string>,
    extra: Option<string>,
    extraRaw: seq<string>,
    extras: seq<MarkdownSection>)

  const INIT := State("", NoSection, false, [], [], [], [], None, [], [])

  function FlushExtra(st: State): State {
    (if st.extra.Some? then st.(extras := st.extras + [MarkdownSection(st.extra.value, Trim(Join(st.extraRaw)))])
     else st)
    .(extra := None, extraRaw := [])
  }

  function StepScope(st: State, t: string): State {
    match ScopeOf(t)
    case InLabel => st.(scopeOut := false)
    case OutLabel => st.(scopeOut := true)
    case Item(body) =>
      if st.scopeOut then st.(scopeOutItems := st.scopeOutItems + [body])
      else st.(scopeInItems := st.scopeInItems + [body])
    case Ignored => st
  }

  function StepProse(st: State, t: string): State {
    match st.section
    case IntentSection => st.(intent := st.intent + [t])
    case ApproachSection => st.(approach := st.approach + [t])
    case ScopeSection => StepScope(st, t)
    case NoSection => if st.extra.Some? then st.(extraRaw := st.extraRaw + [t]) else st
  }

  function OpenSection(st: State, heading: string): State {
    var s := FlushExtra(st).(section := SectionOf(heading), scopeOut := false);
    if s.section.NoSection? then s.(extra := Some(heading)) else s
  }

  function StepTop(st: State, t: Top): State {
    match t
    case H2(heading) => OpenSection(st, heading)
    case H1(title) => st.(title := title)
    case Blank => st
    case Prose(text) => StepProse(st, text)
  }

  function Run(st: State, ts: seq<Top>): State {
    Fold(StepTop, st, ts)
  }

  function Finish(st: State): Proposal {
    var s := FlushExtra(st);
    Proposal(s.title, Trim(Join(s.intent)), s.scopeInItems, s.scopeOutItems, Trim(Join(s.approach)), s.extras)
  }

  /** The meaning of ParseProposal. */
  function ProposalOf(md: string): Proposal {
    Finish(Run(INIT, Map(ClassifyPlain, Lines(md))))
  }

  class Parser {
    var title: string
    var section: Section
    var scopeOut: bool
    var intent: seq<string>
    var approach: seq<string>
    var scopeInItems: seq<string>
    var scopeOutItems: seq<string>
    var extra: Option<string>
    var extraRaw: seq<string>
    var extras: seq<MarkdownSection>

    ghost function Abs(): State
      reads this
    {
      State(title, section, scopeOut, intent, approach, scopeInItems, scopeOutItems, extra, extraRaw, extras)
    }

    constructor ()
      ensures Abs() == INIT
    {
      title, section, scopeOut, intent, approach := "", NoSection, false, [], [];
      scopeInItems, scopeOutItems, extra, extraRaw, extras := [], [], None, [], [];
    }

    method CloseExtra()
      modifies this
      ensures Abs() == FlushExtra(old(Abs()))
    {
      hide Trim, Join;
      if extra.Some? {
        extras := extras + [MarkdownSection(extra.value, Trim(Join(extraRaw)))];
      }
      extra := None;
      extraRaw := [];
    }

    method OnSection(heading: string)
      modifies this
      ensures Abs() == OpenSection(old(Abs()), heading)
    {
      hide SectionOf, FlushExtra;
      CloseExtra();
      section, scopeOut := SectionOf(heading), false;
      if section.NoSection? {
        extra := Some(heading);
      }
    }

    method OnProse(trimmed: string)
      modifies this
      ensures Abs() == StepProse(old(Abs()), trimmed)
    {
      hide ScopeOf;
      match section {
        case IntentSection => intent := intent + [trimmed];
        case ApproachSection => approach := approach + [trimmed];
        case ScopeSection =>
          match ScopeOf(trimmed) {
            case InLabel => scopeOut := false;
            case OutLabel => scopeOut := true;
            case Item(body) =>
              if scopeOut {
                scopeOutItems := scopeOutItems + [body];
              } else {
                scopeInItems := scopeInItems + [body];
              }
            case Ignored =>
          }
        case NoSection =>
          if extra.Some? {
            extraRaw := extraRaw + [trimmed];
          }
      }
    }

    method Feed(raw: string)
      modifies this
      ensures Abs() == StepTop(old(Abs()), ClassifyPlain(raw))
    {
      hide Trim, TrimCut, SectionMark, TitleMark, OpenSection, StepProse;
      var line := TrimCut(raw);
      var trimmed := Trim(line);
      if SectionMark() <= line {
        OnSection(Trim(line[|SectionMark()|..]));
      } else if TitleMark() <= line {
        title := Trim(line[|TitleMark()|..]);
      } else if trimmed != "" {
        OnProse(trimmed);
      }
    }
  }

  method ParseProposal(md: string) returns (p: Proposal)
    ensures p == ProposalOf(md)
  {
    hide ClassifyPlain, StepTop, FlushExtra, Trim, Join;
    var s := new Parser();
    var lines := Lines(md);
    ghost var tops := Map(ClassifyPlain, lines);
    for k := 0 to |lines|
      invariant s.Abs() == Run(INIT, tops[..k])
    {
      s.Feed(lines[k]);
      FoldSnoc(StepTop, INIT, tops, k);
    }
    assert tops[..|lines|] == tops;
    s.CloseExtra();
    p := Proposal(s.title, Trim(Join(s.intent)), s.scopeInItems, s.scopeOutItems, Trim(Join(s.approach)), s.extras);
  }

  // --- the printer ---

  function InLabelLine(): string { "In scope:" }

  function OutLabelLine(): string { "Out of scope:" }

  function InLines(items: seq<string>): seq<string> {
    if items == [] then [] else [InLabelLine()] + Map(BulletLine, items)
  }

  /** The out-of-scope list; a blank line sets it off from an in-scope list before it. */
  function OutLines(items: seq<string>, afterIn: bool): seq<string> {
    if items == [] then [] else (if afterIn then [""] else []) + [OutLabelLine()] + Map(BulletLine, items)
  }

  function ScopeLines(p: Proposal): seq<string> {
    if p.scopeIn == [] && p.scopeOut == [] then []
    else SectionHeader("Scope") + InLines(p.scopeIn) + OutLines(p.scopeOut, p.scopeIn != [])
  }

  /** renderExtraSections skips a section without a heading. */
  function ExtraLines(sec: MarkdownSection): seq<string> {
    if sec.heading == "" then [] else SectionHeader(sec.heading) + BlockLines(sec.body)
  }

  function ProposalLines(p: Proposal): seq<string> {
    [TitleLine(p.title)] + ProseSection("Intent", p.intent) + ScopeLines(p) + ProseSection("Approach", p.approach)
    + FlatMap(ExtraLines, p.extras)
  }

  function ProposalText(p: Proposal): string {
    Unlines(ProposalLines(p))
  }

  method RenderBullets(b: Builder, items: seq<string>)
    requires b.Valid()
    modifies b
    ensures b.Valid() && b.lines == old(b.lines) + Map(BulletLine, items)
  {
    hide Unlines, BulletLine;
    for i := 0 to |items|
      invariant b.Valid()
      invariant b.lines == old(b.lines) + Map(BulletLine, items[..i])
    {
      b.Line(BulletLine(items[i]));
      MapSnoc(BulletLine, items, i);
      AppendAssoc(old(b.lines), Map(BulletLine, items[..i]), [BulletLine(items[i])]);
    }
    assert items[..|items|] == items;
  }

  method RenderScope(b: Builder, p: Proposal)
    requires b.Valid()
    modifies b
    ensures b.Valid() && b.lines == old(b.lines) + ScopeLines(p)
  {
    hide Unlines, BulletLine, Map, SectionLine, InLabelLine, OutLabelLine;
    if p.scopeIn != [] || p.scopeOut != [] {
      b.Line("");
      b.Line(SectionLine("Scope"));
      assert b.lines == old(b.lines) + SectionHeader("Scope");
      if p.scopeIn != [] {
        b.Line(InLabelLine());
        RenderBullets(b, p.scopeIn);
      }
      assert b.lines == old(b.lines) + (SectionHeader("Scope") + InLines(p.scopeIn));
      if p.scopeOut != [] {
        if p.scopeIn != [] {
          b.Line("");
        }
        b.Line(OutLabelLine());
        RenderBullets(b, p.scopeOut);
      }
    }
  }

  method RenderExtras(b: Builder, secs: seq<MarkdownSection>)
    requires b.Valid()
    modifies b
    ensures b.Valid() && b.lines == old(b.lines) + FlatMap(ExtraLines, secs)
  {
    hide Unlines, Lines, SectionLine;
    for i := 0 to |secs|
      invariant b.Valid()
      invariant b.lines == old(b.lines) + FlatMap(ExtraLines, secs[..i])
    {
      var sec := secs[i];
      ghost var before := b.lines;
      FlatMapSnoc(ExtraLines, secs, i);
      if sec.heading != "" {
        b.Line("");
        b.Line(SectionLine(sec.heading));
        if sec.body != "" {
          b.Block(sec.body);
        }
      }
      assert b.lines == before + ExtraLines(sec);
      AppendAssoc(old(b.lines), FlatMap(ExtraLines, secs[..i]), ExtraLines(sec));
    }
    assert secs[..|secs|] == secs;
  }

  method RenderProposal(p: Proposal) returns (md: string)
    ensures md == ProposalText(p)
  {
    hide Unlines, TitleLine, ProseSection, ScopeLines, ExtraLines;
    var b := new Builder();
    b.Line(TitleLine(p.title));
    assert b.lines == [TitleLine(p.title)];
    RenderProse(b, "Intent", p.intent);
    RenderScope(b, p);
    RenderProse(b, "Approach", p.approach);
    RenderExtras(b, p.extras);
    md := b.text;
  }
}
