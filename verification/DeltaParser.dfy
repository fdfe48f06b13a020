/** ParseDelta: the requirement grammar of ParseSpec under ADDED, MODIFIED and REMOVED
    sections, with the one-line annotations a delta adds. */
module DeltaParser {
  import opened Seqs
  import opened Text
  import opened OpenSpecModel
  import opened Lexer

  datatype Section = NoSection | AddedSection | ModifiedSection | RemovedSection

  datatype Accum = Accum(name: string, scenarios: seq<Scenario>, previously: string, rationale: string)

  datatype State = State(
    title: string,
    section: Section,
    cur: Option<Accum>,
    scen: Option<Scenario>,
    stmt: seq<string>,
    added: seq<Requirement>,
    modified: seq<ModifiedRequirement>,
    removed: seq<RemovedRequirement>,
    warnings: seq<Warning>)

  const INIT := State("", NoSection, None, None, [], [], [], [], [])

  /** parseDeltaSection: a case-insensitive prefix match. */
  function SectionOf(heading: string): Section {
    var h := ToUpper(Trim(heading));
    if "ADDED" <= h then AddedSection
    else if "MODIFIED" <= h then ModifiedSection
    else if "REMOVED" <= h then RemovedSection
    else NoSection
  }

  /** ASCII case folding: strings.EqualFold against an ASCII literal of equal byte length. */
  function FoldChar(c: char): char {
    if 'A' <= c <= 'Z' then (c as int + 32) as char else c
  }

  predicate EqualFold(a: string, b: string) {
    |a| == |b| && forall i :: 0 <= i < |a| ==> FoldChar(a[i]) == FoldChar(b[i])
  }

  function TrimParen(s: string): string {
    if s != "" && s[|s| - 1] == ')' then s[..|s| - 1] else s
  }

  function PreviouslyMark(): string { "(Previously:" }

  function RationaleMark(): string { "(Rationale:" }

  /** parenAnnotation: the value of a "(Label: value)" line. */
  function Annotation(trimmed: string, mark: string): Option<string> {
    if |trimmed| < |mark| || !EqualFold(trimmed[..|mark|], mark) then None
    else Some(Trim(TrimParen(Trim(trimmed[|mark|..]))))
  }

  function FlushScenario(st: State): State {
    if st.cur.Some? && st.scen.Some? then
      st.(cur := Some(st.cur.value.(scenarios := st.cur.value.scenarios + [st.scen.value])), scen := None)
    else st.(scen := None)
  }

  /** appendDeltaRequirement */
  function Dispatch(st: State, a: Accum, statement: string): State {
    match st.section
    case AddedSection => st.(added := st.added + [Requirement(a.name, statement, a.scenarios)])
    case ModifiedSection =>
      st.(modified := st.modified + [ModifiedRequirement(Requirement(a.name, statement, a.scenarios), a.previously)])
    case RemovedSection =>
      var s := if statement != "" || a.scenarios != []
          then st.(warnings := st.warnings + [RemovedCarriesContent(a.name)]) else st;
      s.(removed := s.removed + [RemovedRequirement(a.name, a.rationale)])
    case NoSection => st.(warnings := st.warnings + [RequirementOutsideSection(a.name)])
  }

  function StatementOf(stmt: seq<string>): string {
    if stmt != [] then Trim(Join(stmt)) else ""
  }

  function FlushRequirement(st: State): State {
    var s := FlushScenario(st);
    (if s.cur.Some? then Dispatch(s, s.cur.value, StatementOf(s.stmt)) else s).(cur := None, stmt := [])
  }

  function StepProse(st: State, t: string): State {
    if st.cur.Some? && Annotation(t, PreviouslyMark()).Some? then
      st.(cur := Some(st.cur.value.(previously := Annotation(t, PreviouslyMark()).value)))
    else if st.cur.Some? && Annotation(t, RationaleMark()).Some? then
      st.(cur := Some(st.cur.value.(rationale := Annotation(t, RationaleMark()).value)))
    else if IsBullet(t) && st.scen.Some? then
      st.(scen := Some(st.scen.value.(steps := st.scen.value.steps + [ParseStep(BulletBody(t).value)])))
    else if st.cur.Some? && st.scen.None? then st.(stmt := st.stmt + [t])
    else st
  }

  function StepToken(st: State, token: Token): State {
    match token
    case ScenarioHead(name) =>
      var s := FlushScenario(st);
      if s.cur.None? then s.(warnings := s.warnings + [ScenarioBeforeRequirement(name)])
      else s.(scen := Some(Scenario(name, [])))
    case RequirementHead(name) => FlushRequirement(st).(cur := Some(Accum(name, [], "", "")))
    case Other(H2(heading)) => FlushRequirement(st).(section := SectionOf(heading))
    case Other(H1(title)) => st.(title := title)
    case Other(Blank) => st
    case Other(Prose(t)) => StepProse(st, t)
  }

  function Run(st: State, tokens: seq<Token>): State {
    Fold(StepToken, st, tokens)
  }

  function Finish(st: State): Delta {
    var s := FlushRequirement(st);
    Delta(s.title, s.added, s.modified, s.removed, s.warnings)
  }

  /** The meaning of ParseDelta. */
  function DeltaOf(md: string): Delta {
    Finish(Run(INIT, Map(Classify, Lines(md))))
  }

  class Parser {
    var title: string
    var section: Section
    var cur: Option<Accum>
    var curScen: Option<Scenario>
    var stmt: seq<string>
    var added: seq<Requirement>
    var modified: seq<ModifiedRequirement>
    var removed: seq<RemovedRequirement>
    var warnings: seq<Warning>

    ghost function Abs(): State
      reads this
    {
      State(title, section, cur, curScen, stmt, added, modified, removed, warnings)
    }

    constructor ()
      ensures Abs() == INIT
    {
      title, section, cur, curScen, stmt := "", NoSection, None, None, [];
      added, modified, removed, warnings := [], [], [], [];
    }

    method CloseScenario()
      modifies this
      ensures Abs() == FlushScenario(old(Abs()))
    {
      if cur.Some? && curScen.Some? {
        cur := Some(cur.value.(scenarios := cur.value.scenarios + [curScen.value]));
      }
      curScen := None;
    }

    method Append(a: Accum, statement: string)
      modifies this
      ensures Abs() == Dispatch(old(Abs()), a, statement)
    {
      match section {
        case AddedSection =>
          added := added + [Requirement(a.name, statement, a.scenarios)];
        case ModifiedSection =>
          modified := modified + [ModifiedRequirement(Requirement(a.name, statement, a.scenarios), a.previously)];
        case RemovedSection =>
          if statement != "" || a.scenarios != [] {
            warnings := warnings + [RemovedCarriesContent(a.name)];
          }
          removed := removed + [RemovedRequirement(a.name, a.rationale)];
        case NoSection =>
          warnings := warnings + [RequirementOutsideSection(a.name)];
      }
    }

    method CloseBlock()
      modifies this
      ensures Abs() == FlushRequirement(old(Abs()))
    {
      hide Trim, Join, Dispatch, FlushScenario;
      CloseScenario();
      if cur.Some? {
        var statement := "";
        if stmt != [] {
          statement := Trim(Join(stmt));
        }
        Append(cur.value, statement);
      }
      cur := None;
      stmt := [];
    }

    method OnScenario(name: string)
      modifies this
      ensures Abs() == StepToken(old(Abs()), ScenarioHead(name))
    {
      CloseScenario();
      if cur.None? {
        warnings := warnings + [ScenarioBeforeRequirement(name)];
      } else {
        curScen := Some(Scenario(name, []));
      }
    }

    method OnRequirement(name: string)
      modifies this
      ensures Abs() == StepToken(old(Abs()), RequirementHead(name))
    {
      hide FlushRequirement;
      CloseBlock();
      cur := Some(Accum(name, [], "", ""));
    }

    method OnSection(heading: string)
      modifies this
      ensures Abs() == StepToken(old(Abs()), Other(H2(heading)))
    {
      hide FlushRequirement, SectionOf;
      CloseBlock();
      section := SectionOf(heading);
    }

    method OnProse(trimmed: string)
      modifies this
      ensures Abs() == StepProse(old(Abs()), trimmed)
    {
      hide ParseStep, IsBullet, BulletBody, Annotation;
      if cur.Some? {
        var previously := Annotation(trimmed, PreviouslyMark());
        if previously.Some? {
          cur := Some(cur.value.(previously := previously.value));
          return;
        }
        var rationale := Annotation(trimmed, RationaleMark());
        if rationale.Some? {
          cur := Some(cur.value.(rationale := rationale.value));
          return;
        }
      }
      var body := BulletBody(trimmed);
      if body.Some? && curScen.Some? {
        curScen := Some(curScen.value.(steps := curScen.value.steps + [ParseStep(body.value)]));
        return;
      }
      if cur.Some? && curScen.None? {
        stmt := stmt + [trimmed];
      }
    }

    /** The cases below the requirement and scenario headings. */
    method OnTop(line: string)
      modifies this
      ensures Abs() == StepToken(old(Abs()), Other(ClassifyTop(line)))
    {
      hide Trim, StepProse, FlushRequirement, SectionMark, TitleMark;
      var trimmed := Trim(line);
      if SectionMark() <= line {
        OnSection(Trim(line[|SectionMark()|..]));
      } else if TitleMark() <= line {
        title := Trim(line[|TitleMark()|..]);
      } else if trimmed != "" {
        OnProse(trimmed);
      }
    }

    method Feed(raw: string)
      modifies this
      ensures Abs() == StepToken(old(Abs()), Classify(raw))
    {
      hide Trim, TrimCut, StepToken, ClassifyTop, ScenarioMark, RequirementMark;
      var line := TrimCut(raw);
      if ScenarioMark() <= line {
        OnScenario(Trim(line[|ScenarioMark()|..]));
      } else if RequirementMark() <= line {
        OnRequirement(Trim(line[|RequirementMark()|..]));
      } else {
        OnTop(line);
      }
    }
  }

  method ParseDelta(md: string) returns (d: Delta)
    ensures d == DeltaOf(md)
  {
    hide Classify, StepToken, FlushRequirement;
    var p := new Parser();
    var lines := Lines(md);
    ghost var tokens := Map(Classify, lines);
    for k := 0 to |lines|
      invariant p.Abs() == Run(INIT, tokens[..k])
    {
      p.Feed(lines[k]);
      FoldSnoc(StepToken, INIT, tokens, k);
    }
    assert tokens[..|lines|] == tokens;
    p.CloseBlock();
    d := Delta(p.title, p.added, p.modified, p.removed, p.warnings);
  }
}
