/** ParseSpec: a line-oriented state machine over the heading structure of a capability document.
    `StepLine` is the machine; the class is the same machine over mutable fields. */
module SpecParser {
  import opened Seqs
  import opened Text
  import opened OpenSpecModel
  import opened Lexer

  datatype Section = NoSection | PurposeSection | RequirementsSection

  datatype State = State(
    title: string,
    section: Section,
    purposeLines: seq<string>,
    stmtLines: seq<string>,
    cur: Option<Requirement>,
    scen: Option<Scenario>,
    reqs: seq<Requirement>,
    warnings: seq<Warning>)

  const INIT := State("", NoSection, [], [], None, None, [], [])

  function SectionOf(heading: string): Section {
    if ToLower(heading) == "purpose" then PurposeSection
    else if ToLower(heading) == "requirements" then RequirementsSection
    else NoSection
  }

  function FlushScenario(st: State): State {
    if st.cur.Some? && st.scen.Some? then
      st.(cur := Some(st.cur.value.(scenarios := st.cur.value.scenarios + [st.scen.value])), scen := None)
    else st.(scen := None)
  }

  function CloseRequirement(r: Requirement, stmtLines: seq<string>): Requirement {
    if stmtLines != [] then r.(statement := Trim(Join(stmtLines))) else r
  }

  function FlushRequirement(st: State): State {
    var s := FlushScenario(st);
    if s.cur.Some? then
      s.(reqs := s.reqs + [CloseRequirement(s.cur.value, s.stmtLines)], cur := None, stmtLines := [])
    else s.(stmtLines := [])
  }

  function StepProse(st: State, t: string): State {
    if IsBullet(t) && st.scen.Some? then
      st.(scen := Some(st.scen.value.(steps := st.scen.value.steps + [ParseStep(BulletBody(t).value)])))
    else if st.section.PurposeSection? then st.(purposeLines := st.purposeLines + [t])
    else if st.cur.Some? && st.scen.None? then st.(stmtLines := st.stmtLines + [t])
    else st
  }

  function StepToken(st: State, token: Token): State {
    match token
    case ScenarioHead(name) =>
      var s := FlushScenario(st);
      if s.cur.None? then s.(warnings := s.warnings + [ScenarioBeforeRequirement(name)])
      else s.(scen := Some(Scenario(name, [])))
    case RequirementHead(name) => FlushRequirement(st).(cur := Some(Requirement(name, "", [])))
    case Other(H2(heading)) => FlushRequirement(st).(section := SectionOf(heading))
    case Other(H1(title)) => st.(title := title)
    case Other(Blank) => st
    case Other(Prose(t)) => StepProse(st, t)
  }

  function Run(st: State, tokens: seq<Token>): State {
    Fold(StepToken, st, tokens)
  }

  function Finish(st: State): Spec {
    var s := FlushRequirement(st);
    Spec(s.title, Trim(Join(s.purposeLines)), s.reqs, s.warnings)
  }

  /** The meaning of ParseSpec. */
  function SpecOf(md: string): Spec {
    Finish(Run(INIT, Map(Classify, Lines(md))))
  }

  class Parser {
    var title: string
    var section: Section
    var purposeLines: seq<string>
    var stmtLines: seq<string>
    var curReq: Option<Requirement>
    var curScen: Option<Scenario>
    var requirements: seq<Requirement>
    var warnings: seq<Warning>

    ghost function Abs(): State
      reads this
    {
      State(title, section, purposeLines, stmtLines, curReq, curScen, requirements, warnings)
    }

    constructor ()
      ensures Abs() == INIT
    {
      title, section, purposeLines, stmtLines := "", NoSection, [], [];
      curReq, curScen, requirements, warnings := None, None, [], [];
    }

    method CloseScenario()
      modifies this
      ensures Abs() == FlushScenario(old(Abs()))
    {
      if curReq.Some? && curScen.Some? {
        curReq := Some(curReq.value.(scenarios := curReq.value.scenarios + [curScen.value]));
      }
      curScen := None;
    }

    method CloseBlock()
      modifies this
      ensures Abs() == FlushRequirement(old(Abs()))
    {
      hide Trim, Join;
      CloseScenario();
      if curReq.Some? {
        if stmtLines != [] {
          curReq := Some(curReq.value.(statement := Trim(Join(stmtLines))));
        }
        requirements := requirements + [curReq.value];
      }
      curReq := None;
      stmtLines := [];
    }

    method OnScenario(name: string)
      modifies this
      ensures Abs() == StepToken(old(Abs()), ScenarioHead(name))
    {
      CloseScenario();
      if curReq.None? {
        warnings := warnings + [ScenarioBeforeRequirement(name)];
      } else {
        curScen := Some(Scenario(name, []));
      }
    }

    method OnProse(trimmed: string)
      modifies this
      ensures Abs() == StepProse(old(Abs()), trimmed)
    {
      hide ParseStep, IsBullet, BulletBody;
      var body := BulletBody(trimmed);
      if body.Some? && curScen.Some? {
        curScen := Some(curScen.value.(steps := curScen.value.steps + [ParseStep(body.value)]));
      } else if section.PurposeSection? {
        purposeLines := purposeLines + [trimmed];
      } else if curReq.Some? && curScen.None? {
        stmtLines := stmtLines + [trimmed];
      }
    }

    method OnRequirement(name: string)
      modifies this
      ensures Abs() == StepToken(old(Abs()), RequirementHead(name))
    {
      CloseBlock();
      curReq := Some(Requirement(name, "", []));
    }

    method OnSection(heading: string)
      modifies this
      ensures Abs() == StepToken(old(Abs()), Other(H2(heading)))
    {
      CloseBlock();
      section := SectionOf(heading);
    }

    /** The cases below the requirement and scenario headings. */
    method OnTop(line: string)
      modifies this
      ensures Abs() == StepToken(old(Abs()), Other(ClassifyTop(line)))
    {
      hide Trim, StepProse, FlushRequirement, SectionMark, TitleMark;
      var trimmed := Trim(line);
      if SectionMark() <= line {
        OnSection(Trim(line[|SectionMark()|..]));
      } else if TitleMark() <= line {
        title := Trim(line[|TitleMark()|..]);
      } else if trimmed != "" {
        OnProse(trimmed);
      }
    }

    method Feed(raw: string)
      modifies this
      ensures Abs() == StepToken(old(Abs()), Classify(raw))
    {
      hide Trim, TrimCut, StepToken, ClassifyTop, ScenarioMark, RequirementMark;
      var line := TrimCut(raw);
      if ScenarioMark() <= line {
        OnScenario(Trim(line[|ScenarioMark()|..]));
      } else if RequirementMark() <= line {
        OnRequirement(Trim(line[|RequirementMark()|..]));
      } else {
        OnTop(line);
      }
    }
  }

  method ParseSpec(md: string) returns (s: Spec)
    ensures s == SpecOf(md)
  {
    hide Classify, StepToken;
    var p := new Parser();
    var lines := Lines(md);
    ghost var tokens := Map(Classify, lines);
    for k := 0 to |lines|
      invariant p.Abs() == Run(INIT, tokens[..k])
    {
      p.Feed(lines[k]);
      FoldSnoc(StepToken, INIT, tokens, k);
    }
    assert tokens[..|lines|] == tokens;
    p.CloseBlock();
    s := Spec(p.title, Trim(Join(p.purposeLines)), p.requirements, p.warnings);
  }
}
