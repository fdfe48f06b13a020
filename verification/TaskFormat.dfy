/** ParseTasks and RenderTasks: checkboxes grouped by section. */
module TaskFormat {
  import opened Seqs
  import opened Text
  import opened OpenSpecModel
  import opened Lexer
  import opened SpecRenderer
  import opened PlainLexing

  // --- one task ---

  predicate IsDigit(c: char) {
    '0' <= c <= '9'
  }

  /** isTaskNumber: digits and dots, at least one digit. */
  predicate IsTaskNumber(s: string) {
    (forall i :: 0 <= i < |s| ==> IsDigit(s[i]) || s[i] == '.') && (exists i :: 0 <= i < |s| && IsDigit(s[i]))
  }

  method ScanTaskNumber(s: string) returns (ok: bool)
    ensures ok <==> IsTaskNumber(s)
  {
    if s == "" {
      return false;
    }
    var hasDigit := false;
    for i := 0 to |s|
      invariant forall j :: 0 <= j < i ==> IsDigit(s[j]) || s[j] == '.'
      invariant hasDigit <==> exists j :: 0 <= j < i && IsDigit(s[j])
    {
      if IsDigit(s[i]) {
        hasDigit := true;
      } else if s[i] != '.' {
        return false;
      }
    }
    return hasDigit;
  }

  /** splitTaskNumber: (number, text). */
  function SplitNumber(s: string): (string, string) {
    var (head, rest) := CutBlank(s);
    if ' ' in s && IsTaskNumber(head) then (head, Trim(rest))
    else if IsTaskNumber(s) then (s, "")
    else ("", s)
  }

  /** taskContent */
  function Content(t: Task): string {
    if t.number != "" && t.text != "" then t.number + " " + t.text
    else if t.number != "" then t.number
    else t.text
  }

  function Unchecked(): string { "[ ]" }

  function Checked(): string { "[x]" }

  function CheckedUpper(): string { "[X]" }

  /** The done flag and the rest of a bullet body. */
  function SplitBox(body: string): (bool, string) {
    if Checked() <= body || CheckedUpper() <= body then (true, Trim(body[3..]))
    else if Unchecked() <= body then (false, Trim(body[3..]))
    else (false, body)
  }

  /** parseTaskBullet, on the text after the bullet marker. */
  function TaskOf(body: string): Task {
    var (done, content) := SplitBox(body);
    var (number, text) := SplitNumber(content);
    Task(number, text, done)
  }

  function Box(done: bool): string {
    if done then Checked() else Unchecked()
  }

  /** The bullet body a printer writes for a task. */
  function TaskBody(t: Task): string {
    if Content(t) != "" then Box(t.done) + " " + Content(t) else Box(t.done)
  }

  /** The tasks a parser can produce: exactly those whose content splits back. */
  predicate WellFormedTask(t: Task) {
    OneLine(Content(t)) && SplitNumber(Content(t)) == (t.number, t.text)
  }

  /** splitTaskNumber inverts taskContent on everything splitTaskNumber yields. */
  lemma SplitContent(s: string, done: bool)
    requires OneLine(s)
    ensures var (number, text) := SplitNumber(s);
            WellFormedTask(Task(number, text, done))
  {
    var (number, text) := SplitNumber(s);
    var t := Task(number, text, done);
    var i := IndexOf(s, ' ');
    if ' ' in s && IsTaskNumber(s[..i]) {
      NumberThenText(s, i);
      ContentOfBoth(number, text, done);
    } else if IsTaskNumber(s) {
      assert number == s && text == "" && Content(t) == s;
    } else {
      assert number == "" && text == s && Content(t) == s;
    }
  }

  lemma NumberThenText(s: string, i: nat)
    requires OneLine(s) && i == IndexOf(s, ' ') && i < |s| && IsTaskNumber(s[..i])
    ensures SplitNumber(s) == (s[..i], Trim(s[i + 1..]))
    ensures Trim(s[i + 1..]) != ""
  {
    hide IsTaskNumber, Trim;
    assert s[i] == ' ' && IsSpace(s[i]);
    assert i + 1 < |s|;
    var rest := s[i + 1..];
    assert rest[|rest| - 1] == s[|s| - 1];
    TrimNotEmpty(rest);
  }

  lemma ContentOfBoth(number: string, text: string, done: bool)
    requires IsTaskNumber(number) && text != "" && OneLine(text)
    ensures WellFormedTask(Task(number, text, done))
  {
    hide IsTaskNumber, Trim, CutBlank;
    NumberIsLine(number);
    CutBlankAt(number, text);
    TrimId(text);
    var c := number + " " + text;
    assert c[0] == number[0] && c[|c| - 1] == text[|text| - 1] && c[|number|] == ' ';
  }

  lemma NumberIsLine(number: string)
    requires IsTaskNumber(number)
    ensures number != "" && OneLine(number) && ' ' !in number
  {
    assert IsDigit(number[0]) || number[0] == '.';
    assert IsDigit(number[|number| - 1]) || number[|number| - 1] == '.';
  }

  lemma TaskOfOk(body: string)
    requires OneLine(body)
    ensures WellFormedTask(TaskOf(body))
  {
    hide SplitNumber, WellFormedTask, Trim, Checked, CheckedUpper, Unchecked;
    var (done, content) := SplitBox(body);
    SplitContent(content, done);
  }

  lemma BoxShapes()
    ensures Checked() == ['[', 'x', ']'] && CheckedUpper() == ['[', 'X', ']'] && Unchecked() == ['[', ' ', ']']
  {
  }

  lemma SplitBoxBack(done: bool, content: string)
    requires OneLine(content)
    ensures SplitBox(if content != "" then Box(done) + " " + content else Box(done)) == (done, content)
  {
    hide Trim;
    BoxShapes();
    var body := if content != "" then Box(done) + " " + content else Box(done);
    assert body[..3] == Box(done) && body[1] == Box(done)[1];
    if content != "" {
      assert body[3..] == " " + content;
      TrimAfterBlank(content);
    } else {
      assert body[3..] == "";
      TrimId("");
    }
  }

  lemma TaskBodyShape(t: Task)
    requires OneLine(Content(t))
    ensures TaskBody(t) != "" && OneLine(TaskBody(t))
  {
    hide Content;
    BoxShapes();
    var b := TaskBody(t);
    assert b[0] == '[';
    if Content(t) != "" {
      assert b[|b| - 1] == Content(t)[|Content(t)| - 1];
    }
  }

  /** A rendered task reads back. */
  lemma TaskBack(t: Task)
    requires WellFormedTask(t)
    ensures TaskOf(TaskBody(t)) == t
    ensures TaskBody(t) != "" && OneLine(TaskBody(t))
  {
    hide SplitNumber, SplitBox, Content, Box, OneLine;
    TaskBodyShape(t);
    SplitBoxBack(t.done, Content(t));
  }

  // --- the parser ---

  datatype State = State(title: string, cur: Option<TaskSection>, sections: seq<TaskSection>)

  const INIT := State("", None, [])

  function FlushSection(st: State): State {
    if st.cur.Some? then st.(sections := st.sections + [st.cur.value], cur := None) else st
  }

  function AddTask(st: State, task: Task): State {
    var sec := if st.cur.Some? then st.cur.value else TaskSection("", []);
    st.(cur := Some(sec.(tasks := sec.tasks + [task])))
  }

  function StepTop(st: State, t: Top): State {
    match t
    case H2(heading) => FlushSection(st).(cur := Some(TaskSection(heading, [])))
    case H1(title) => st.(title := title)
    case Blank => st
    case Prose(text) => if IsBullet(text) then AddTask(st, TaskOf(BulletBody(text).value)) else st
  }

  function Run(st: State, ts: seq<Top>): State {
    Fold(StepTop, st, ts)
  }

  function Finish(st: State): Tasks {
    Tasks(st.title, FlushSection(st).sections)
  }

  /** The meaning of ParseTasks. */
  function TasksOf(md: string): Tasks {
    Finish(Run(INIT, Map(ClassifyPlain, Lines(md))))
  }

  class Parser {
    var title: string
    var cur: Option<TaskSection>
    var sections: seq<TaskSection>

    ghost function Abs(): State
      reads this
    {
      State(title, cur, sections)
    }

    constructor ()
      ensures Abs() == INIT
    {
      title, cur, sections := "", None, [];
    }

    method CloseSection()
      modifies this
      ensures Abs() == FlushSection(old(Abs()))
    {
      if cur.Some? {
        sections := sections + [cur.value];
      }
      cur := None;
    }

    method Feed(raw: string)
      modifies this
      ensures Abs() == StepTop(old(Abs()), ClassifyPlain(raw))
    {
      hide Trim, TrimCut, SectionMark, TitleMark, TaskOf, BulletBody, IsBullet;
      var line := TrimCut(raw);
      var trimmed := Trim(line);
      if SectionMark() <= line {
        CloseSection();
        cur := Some(TaskSection(Trim(line[|SectionMark()|..]), []));
      } else if TitleMark() <= line {
        title := Trim(line[|TitleMark()|..]);
      } else if trimmed != "" {
        var body := BulletBody(trimmed);
        if body.Some? {
          if cur.None? {
            cur := Some(TaskSection("", []));
          }
          cur := Some(cur.value.(tasks := cur.value.tasks + [TaskOf(body.value)]));
        }
      }
    }
  }

  method ParseTasks(md: string) returns (t: Tasks)
    ensures t == TasksOf(md)
  {
    hide ClassifyPlain, StepTop;
    var p := new Parser();
    var lines := Lines(md);
    ghost var tops := Map(ClassifyPlain, lines);
    for k := 0 to |lines|
      invariant p.Abs() == Run(INIT, tops[..k])
    {
      p.Feed(lines[k]);
      FoldSnoc(StepTop, INIT, tops, k);
    }
    assert tops[..|lines|] == tops;
    p.CloseSection();
    t := Tasks(p.title, p.sections);
  }

  // --- the printer ---

  function TaskLine(t: Task): string {
    BulletLine(TaskBody(t))
  }

  function NameLines(name: string): seq<string> {
    if name == "" then [] else SectionHeader(name)
  }

  function SectionLines(sec: TaskSection): seq<string> {
    NameLines(sec.name) + Map(TaskLine, sec.tasks)
  }

  function TasksLines(t: Tasks): seq<string> {
    [TitleLine(t.title)] + FlatMap(SectionLines, t.sections)
  }

  function TasksText(t: Tasks): string {
    Unlines(TasksLines(t))
  }

  method RenderSection(b: Builder, sec: TaskSection)
    requires b.Valid()
    modifies b
    ensures b.Valid() && b.lines == old(b.lines) + SectionLines(sec)
  {
    hide Unlines, TaskBody, SectionLine;
    if sec.name != "" {
      b.Line("");
      b.Line(SectionLine(sec.name));
    }
    assert b.lines == old(b.lines) + NameLines(sec.name);
    ghost var base := b.lines;
    for i := 0 to |sec.tasks|
      invariant b.Valid()
      invariant b.lines == base + Map(TaskLine, sec.tasks[..i])
    {
      b.Line(TaskLine(sec.tasks[i]));
      MapSnoc(TaskLine, sec.tasks, i);
      AppendAssoc(base, Map(TaskLine, sec.tasks[..i]), [TaskLine(sec.tasks[i])]);
    }
    assert sec.tasks[..|sec.tasks|] == sec.tasks;
    AppendAssoc(old(b.lines), NameLines(sec.name), Map(TaskLine, sec.tasks));
  }

  method RenderTasks(t: Tasks) returns (md: string)
    ensures md == TasksText(t)
  {
    hide Unlines, SectionLines, TitleLine;
    var b := new Builder();
    b.Line(TitleLine(t.title));
    assert b.lines == [TitleLine(t.title)];
    for i := 0 to |t.sections|
      invariant b.Valid()
      invariant b.lines == [TitleLine(t.title)] + FlatMap(SectionLines, t.sections[..i])
    {
      RenderSection(b, t.sections[i]);
      FlatMapSnoc(SectionLines, t.sections, i);
      AppendAssoc([TitleLine(t.title)], FlatMap(SectionLines, t.sections[..i]), SectionLines(t.sections[i]));
    }
    assert t.sections[..|t.sections|] == t.sections;
    md := b.text;
  }

  // --- the round trip ---

  predicate LooseSection(sec: TaskSection) {
    OneLine(sec.name) && forall i :: 0 <= i < |sec.tasks| ==> WellFormedTask(sec.tasks[i])
  }

  /** What every parser run yields. */
  predicate Loose(t: Tasks) {
    OneLine(t.title) && forall i :: 0 <= i < |t.sections| ==> LooseSection(t.sections[i])
  }

  /** An unnamed section comes first and holds tasks, or its heading would vanish. */
  predicate NamesOk(secs: seq<TaskSection>) {
    forall i :: 0 <= i < |secs| ==> (secs[i].name == "" ==> i == 0 && secs[i].tasks != [])
  }

  function TaskTop(t: Task): Top {
    Prose(TaskLine(t))
  }

  function NameTops(name: string): seq<Top> {
    if name == "" then [] else SectionTops(name)
  }

  function TaskSectionTops(sec: TaskSection): seq<Top> {
    NameTops(sec.name) + Map(TaskTop, sec.tasks)
  }

  lemma LexTasks(tasks: seq<Task>)
    requires forall i :: 0 <= i < |tasks| ==> WellFormedTask(tasks[i])
    ensures Map(ClassifyPlain, Map(TaskLine, tasks)) == Map(TaskTop, tasks)
    ensures NoBreaks(Map(TaskLine, tasks))
  {
    hide ClassifyPlain, WellFormedTask, TaskBody, BulletLine, OneLine;
    forall i | 0 <= i < |tasks|
      ensures ClassifyPlain(TaskLine(tasks[i])) == TaskTop(tasks[i]) && '\n' !in TaskLine(tasks[i])
    {
      TaskBack(tasks[i]);
      PlainBullet(TaskBody(tasks[i]));
    }
  }

  lemma LexTaskSection(sec: TaskSection)
    requires LooseSection(sec)
    ensures Map(ClassifyPlain, SectionLines(sec)) == TaskSectionTops(sec)
    ensures NoBreaks(SectionLines(sec))
  {
    hide ClassifyPlain, Map, SectionHeader, SectionTops, NoBreaks, WellFormedTask, OneLine;
    if sec.name == "" {
      PlainNothing();
    } else {
      PlainSection(sec.name);
    }
    LexTasks(sec.tasks);
    MapConcat(ClassifyPlain, NameLines(sec.name), Map(TaskLine, sec.tasks));
    NoBreaksConcat(NameLines(sec.name), Map(TaskLine, sec.tasks));
  }

  lemma {:induction false} LexSections(secs: seq<TaskSection>)
    requires forall i :: 0 <= i < |secs| ==> LooseSection(secs[i])
    ensures Map(ClassifyPlain, FlatMap(SectionLines, secs)) == FlatMap(TaskSectionTops, secs)
    ensures NoBreaks(FlatMap(SectionLines, secs))
  {
    hide ClassifyPlain, SectionLines, TaskSectionTops, LooseSection;
    if secs != [] {
      LexTaskSection(secs[0]);
      LexSections(secs[1..]);
      MapConcat(ClassifyPlain, SectionLines(secs[0]), FlatMap(SectionLines, secs[1..]));
      NoBreaksConcat(SectionLines(secs[0]), FlatMap(SectionLines, secs[1..]));
    }
  }

  function WithTasks(st: State, tasks: seq<Task>): State
    requires st.cur.Some?
  {
    st.(cur := Some(st.cur.value.(tasks := st.cur.value.tasks + tasks)))
  }

  lemma RunTask(st: State, task: Task)
    requires WellFormedTask(task)
    ensures StepTop(st, TaskTop(task)) == AddTask(st, task)
  {
    hide WellFormedTask, TaskBody, BulletLine, OneLine, TaskOf, BulletBody, IsBullet;
    TaskBack(task);
    PlainBullet(TaskBody(task));
  }

  lemma {:induction false} RunTasks(st: State, tasks: seq<Task>)
    requires st.cur.Some? && forall i :: 0 <= i < |tasks| ==> WellFormedTask(tasks[i])
    ensures Run(st, Map(TaskTop, tasks)) == WithTasks(st, tasks)
    decreases |tasks|
  {
    hide WellFormedTask, StepTop, TaskLine;
    if tasks == [] {
      assert st.cur.value.tasks + tasks == st.cur.value.tasks;
    } else {
      RunTask(st, tasks[0]);
      FoldCons(StepTop, st, TaskTop(tasks[0]), Map(TaskTop, tasks[1..]));
      RunTasks(AddTask(st, tasks[0]), tasks[1..]);
      AppendAssoc(st.cur.value.tasks, [tasks[0]], tasks[1..]);
      assert [tasks[0]] + tasks[1..] == tasks;
    }
  }

  lemma RunNamed(st: State, sec: TaskSection)
    requires sec.name != "" && LooseSection(sec)
    ensures Run(st, TaskSectionTops(sec)) == FlushSection(st).(cur := Some(sec))
  {
    hide Fold, Map, WellFormedTask;
    FoldTwo(StepTop, st, Blank, H2(sec.name));
    FoldConcat(StepTop, st, NameTops(sec.name), Map(TaskTop, sec.tasks));
    RunTasks(FlushSection(st).(cur := Some(TaskSection(sec.name, []))), sec.tasks);
    assert [] + sec.tasks == sec.tasks;
  }

  lemma UnnamedShape(sec: TaskSection)
    requires sec.name == "" && sec.tasks != []
    ensures TaskSectionTops(sec) == [TaskTop(sec.tasks[0])] + Map(TaskTop, sec.tasks[1..])
  {
    hide TaskTop;
  }

  lemma RunUnnamed(st: State, sec: TaskSection)
    requires sec.name == "" && sec.tasks != [] && LooseSection(sec) && st.cur.None?
    ensures Run(st, TaskSectionTops(sec)) == st.(cur := Some(sec))
  {
    hide Fold, Map, WellFormedTask, StepTop, TaskTop, TaskSectionTops, OneLine;
    var first, rest := sec.tasks[0], sec.tasks[1..];
    UnnamedShape(sec);
    assert sec.tasks == [first] + rest;
    RunTask(st, first);
    FoldCons(StepTop, st, TaskTop(first), Map(TaskTop, rest));
    RunTasks(AddTask(st, first), rest);
    assert [] + [first] == [first];
  }

  lemma {:induction false} RunSections(st: State, secs: seq<TaskSection>)
    requires forall i :: 0 <= i < |secs| ==> LooseSection(secs[i]) && secs[i].name != ""
    ensures var r := Run(st, FlatMap(TaskSectionTops, secs));
            FlushSection(r).sections == FlushSection(st).sections + secs && r.title == st.title
    decreases |secs|
  {
    hide StepTop, TaskSectionTops, LooseSection;
    if secs == [] {
      assert FlushSection(st).sections + secs == FlushSection(st).sections;
    } else {
      FoldConcat(StepTop, st, TaskSectionTops(secs[0]), FlatMap(TaskSectionTops, secs[1..]));
      RunNamed(st, secs[0]);
      RunSections(FlushSection(st).(cur := Some(secs[0])), secs[1..]);
      AppendAssoc(FlushSection(st).sections, [secs[0]], secs[1..]);
      assert [secs[0]] + secs[1..] == secs;
    }
  }

  lemma RunTitle(title: string)
    ensures Run(INIT, TitleTops(title)) == INIT.(title := title)
  {
    hide FlushSection, TaskOf;
    FoldOne(StepTop, INIT, TitleTops(title)[0]);
  }

  lemma RunTail(st: State, ts: seq<Top>)
    ensures Run(st, ts + [Blank]) == Run(st, ts)
  {
    hide Fold, FlushSection, TaskOf;
    FoldConcat(StepTop, st, ts, [Blank]);
    FoldOne(StepTop, Run(st, ts), Blank);
  }

  /** Re-parsing any rendered task list: the title, then the section tokens. */
  lemma Reparse(t: Tasks)
    requires Loose(t)
    ensures TasksOf(TasksText(t)) == Finish(Run(INIT.(title := t.title), FlatMap(TaskSectionTops, t.sections)))
  {
    var title, body := [TitleLine(t.title)], FlatMap(SectionLines, t.sections);
    hide Map, Fold, FlatMap, Lines, Unlines, ClassifyPlain, Finish, StepTop, LooseSection, NoBreaks, TitleTops,
         TitleLine, OneLine;
    PlainTitle(t.title);
    LexSections(t.sections);
    MapConcat(ClassifyPlain, title, body);
    NoBreaksConcat(title, body);
    PlainText(title + body);
    RunTail(INIT, TitleTops(t.title) + FlatMap(TaskSectionTops, t.sections));
    FoldConcat(StepTop, INIT, TitleTops(t.title), FlatMap(TaskSectionTops, t.sections));
    RunTitle(t.title);
  }

  /** parse(render(t)) == t when an unnamed section comes first and holds tasks. */
  lemma RoundTrip(t: Tasks)
    requires Loose(t) && NamesOk(t.sections)
    ensures TasksOf(TasksText(t)) == t
  {
    var st := INIT.(title := t.title);
    hide Fold, TaskSectionTops, LooseSection, TasksOf, TasksText, OneLine;
    Reparse(t);
    if t.sections != [] && t.sections[0].name == "" {
      var first, rest := t.sections[0], t.sections[1..];
      assert forall i :: 0 <= i < |rest| ==> rest[i] == t.sections[i + 1];
      RunUnnamed(st, first);
      FoldConcat(StepTop, st, TaskSectionTops(first), FlatMap(TaskSectionTops, rest));
      RunSections(st.(cur := Some(first)), rest);
      assert [first] + rest == t.sections && [] + [first] == [first];
    } else {
      RunSections(st, t.sections);
      assert [] + t.sections == t.sections;
    }
  }

  // --- what every run of the parser keeps ---

  predicate TitledOk(st: State) {
    && OneLine(st.title)
    && (forall i :: 0 <= i < |st.sections| ==> LooseSection(st.sections[i]))
    && (st.cur.Some? ==> LooseSection(st.cur.value))
  }

  lemma SectionSnoc(sec: TaskSection, task: Task)
    requires LooseSection(sec) && WellFormedTask(task)
    ensures LooseSection(sec.(tasks := sec.tasks + [task]))
  {
    hide WellFormedTask, OneLine;
  }

  lemma TopStep(st: State, t: Top)
    requires TitledOk(st) && TopOk(t)
    ensures TitledOk(StepTop(st, t))
  {
    hide LooseSection, OneLine, TaskOf, BulletBody, IsBullet;
    EmptySection();
    match t
    case H2(heading) => NewSection(heading);
    case H1(title) =>
    case Blank =>
    case Prose(text) =>
      if IsBullet(text) {
        BulletBodyNotEmpty(text);
        TaskOfOk(BulletBody(text).value);
        SectionSnoc(if st.cur.Some? then st.cur.value else TaskSection("", []), TaskOf(BulletBody(text).value));
      }
  }

  lemma EmptySection()
    ensures LooseSection(TaskSection("", []))
  {
  }

  lemma NewSection(name: string)
    requires OneLine(name)
    ensures LooseSection(TaskSection(name, []))
  {
  }

  lemma {:induction false} RunKeeps(st: State, ts: seq<Top>)
    requires TitledOk(st) && TopsOk(ts)
    ensures TitledOk(Run(st, ts))
    decreases |ts|
  {
    hide StepTop, TitledOk, TopOk;
    if ts != [] {
      TopStep(st, ts[0]);
      RunKeeps(StepTop(st, ts[0]), ts[1..]);
    }
  }

  lemma ParsedLoose(md: string)
    ensures Loose(TasksOf(md))
  {
    var ts := Map(ClassifyPlain, Lines(md));
    hide Map, Lines, ClassifyPlain, Fold, StepTop, TitledOk, TopsOk, Finish, Loose;
    InitTitled();
    TopsOfLines(Lines(md));
    RunKeeps(INIT, ts);
    FinishTitled(Run(INIT, ts));
  }

  lemma InitTitled()
    ensures TitledOk(INIT)
  {
  }

  lemma FinishTitled(st: State)
    requires TitledOk(st)
    ensures Loose(Finish(st))
  {
    hide LooseSection, OneLine;
  }

  // --- what a run over named headings can yield ---

  predicate NamedOk(st: State) {
    && NamesOk(st.sections)
    && (st.cur.None? ==> st.sections == [])
    && (st.cur.Some? && st.cur.value.name == "" ==> st.sections == [] && st.cur.value.tasks != [])
  }

  predicate NoBlankHeading(ts: seq<Top>) {
    forall i :: 0 <= i < |ts| ==> ts[i] != H2("")
  }

  lemma {:induction false} RunNames(st: State, ts: seq<Top>)
    requires NamedOk(st) && NoBlankHeading(ts)
    ensures NamedOk(Run(st, ts))
    decreases |ts|
  {
    hide TaskOf, IsBullet, BulletBody;
    if ts != [] {
      RunNames(StepTop(st, ts[0]), ts[1..]);
    }
  }

  lemma {:induction false} RenderedHeadings(secs: seq<TaskSection>)
    ensures NoBlankHeading(FlatMap(TaskSectionTops, secs))
  {
    hide TaskTop;
    if secs != [] {
      RenderedHeadings(secs[1..]);
      assert NoBlankHeading(Map(TaskTop, secs[0].tasks)) by {
        TaskTopsNamed(secs[0].tasks);
      }
    }
  }

  lemma TaskTopsNamed(tasks: seq<Task>)
    ensures NoBlankHeading(Map(TaskTop, tasks))
  {
  }

  lemma InitNamed(title: string)
    ensures NamedOk(INIT.(title := title))
  {
  }

  lemma FinishNames(st: State)
    requires NamedOk(st)
    ensures NamesOk(Finish(st).sections)
  {
  }

  // --- which texts yield such names ---

  predicate IsTask(t: Top) {
    t.Prose? && IsBullet(t.text)
  }

  /** A task comes before the next section heading. */
  predicate TaskFirst(ts: seq<Top>) {
    exists j :: 0 <= j < |ts| && IsTask(ts[j]) && forall i :: 0 <= i < j ==> !ts[i].H2?
  }

  /** No section heading and no task before line k, and a task between k and the next
      section heading. */
  predicate OpensUnnamed(ts: seq<Top>, k: nat)
    requires k < |ts|
  {
    (forall j :: 0 <= j < k ==> !ts[j].H2? && !IsTask(ts[j])) && TaskFirst(ts[k + 1..])
  }

  /** Every section heading with a blank name is the first of all headings and tasks and has
      a task of its own. */
  predicate BlankHeadingsOk(ts: seq<Top>) {
    forall k :: 0 <= k < |ts| && ts[k] == H2("") ==> OpensUnnamed(ts, k)
  }

  /** An unnamed section is already second, or already empty and closed. */
  predicate Spoilt(st: State) {
    !NamesOk(st.sections) || (st.cur.Some? && st.cur.value.name == "" && st.sections != [])
  }

  lemma {:induction false} StaysSpoilt(st: State, ts: seq<Top>)
    requires Spoilt(st)
    ensures !NamesOk(Finish(Run(st, ts)).sections)
    decreases |ts|
  {
    hide TaskOf, IsBullet, BulletBody;
    if ts == [] {
      NamesPrefix(st.sections, if st.cur.Some? then st.cur.value else TaskSection("", []));
    } else {
      NamesPrefix(st.sections, if st.cur.Some? then st.cur.value else TaskSection("", []));
      StaysSpoilt(StepTop(st, ts[0]), ts[1..]);
    }
  }

  lemma NamesPrefix(secs: seq<TaskSection>, sec: TaskSection)
    ensures NamesOk(secs + [sec]) <==> NamesOk(secs) && (sec.name == "" ==> secs == [] && sec.tasks != [])
  {
    assert (secs + [sec])[|secs|] == sec;
    assert forall i :: 0 <= i < |secs| ==> (secs + [sec])[i] == secs[i];
  }

  lemma NoBlankCons(ts: seq<Top>)
    requires ts != []
    ensures NoBlankHeading(ts) <==> ts[0] != H2("") && NoBlankHeading(ts[1..])
  {
    if NoBlankHeading(ts) {
      assert forall i :: 0 <= i < |ts[1..]| ==> ts[1..][i] == ts[i + 1];
    }
    assert forall i :: 1 <= i < |ts| ==> ts[i] == ts[1..][i - 1];
  }

  lemma TaskFirstCons(ts: seq<Top>)
    requires ts != []
    ensures TaskFirst(ts) <==> IsTask(ts[0]) || (!ts[0].H2? && TaskFirst(ts[1..]))
  {
    hide IsTask;
    var rest := ts[1..];
    assert forall i :: 0 <= i < |rest| ==> rest[i] == ts[i + 1];
    if TaskFirst(ts) {
      var j :| 0 <= j < |ts| && IsTask(ts[j]) && forall i :: 0 <= i < j ==> !ts[i].H2?;
      if j > 0 {
        assert IsTask(rest[j - 1]);
      }
    }
    if TaskFirst(rest) && !ts[0].H2? {
      var j :| 0 <= j < |rest| && IsTask(rest[j]) && forall i :: 0 <= i < j ==> !rest[i].H2?;
      forall i | 0 <= i < j + 1
        ensures !ts[i].H2?
      {
        assert i > 0 ==> ts[i] == rest[i - 1];
      }
      assert IsTask(ts[j + 1]);
    }
  }

  lemma OpensCons(ts: seq<Top>, k: nat)
    requires k + 1 < |ts|
    ensures OpensUnnamed(ts, k + 1) <==> !ts[0].H2? && !IsTask(ts[0]) && OpensUnnamed(ts[1..], k)
  {
    hide IsTask, TaskFirst;
    var rest := ts[1..];
    assert ts[k + 2..] == rest[k + 1..];
    assert forall j :: 0 <= j < k ==> rest[j] == ts[j + 1];
    assert forall j :: 1 <= j < k + 1 ==> ts[j] == rest[j - 1];
  }

  /** The first line decides: a blank heading waits for its task, any other heading or task
      rules out blank headings behind it. */
  lemma BlankHeadingsCons(ts: seq<Top>)
    requires ts != []
    ensures BlankHeadingsOk(ts)
       <==> if ts[0] == H2("") then TaskFirst(ts[1..]) && NoBlankHeading(ts[1..])
            else if ts[0].H2? || IsTask(ts[0]) then NoBlankHeading(ts[1..])
            else BlankHeadingsOk(ts[1..])
  {
    hide IsTask, TaskFirst;
    var rest := ts[1..];
    forall k | 0 <= k < |rest|
      ensures OpensUnnamed(ts, k + 1) <==> !ts[0].H2? && !IsTask(ts[0]) && OpensUnnamed(rest, k)
      ensures ts[k + 1] == rest[k]
    {
      OpensCons(ts, k);
    }
    assert OpensUnnamed(ts, 0) <==> TaskFirst(rest);
    hide OpensUnnamed;
    assert forall k :: 1 <= k < |ts| ==>
           ts[k] == rest[k - 1] && (OpensUnnamed(ts, k) <==> OpensUnnamed(ts, (k - 1) + 1));
  }

  /** Behind a section that is in order, blank headings are what spoils the names. */
  lemma {:induction false} NamesBehind(st: State, ts: seq<Top>)
    requires NamedOk(st) && st.cur.Some?
    ensures NamesOk(Finish(Run(st, ts)).sections) <==> NoBlankHeading(ts)
    decreases |ts|
  {
    hide TaskOf, IsBullet, BulletBody, NoBlankHeading;
    NamesPrefix(st.sections, st.cur.value);
    if ts == [] {
      NothingBlank();
    } else {
      NoBlankCons(ts);
      if ts[0] == H2("") {
        StaysSpoilt(StepTop(st, ts[0]), ts[1..]);
      } else {
        NamesBehind(StepTop(st, ts[0]), ts[1..]);
      }
    }
  }

  lemma NothingBlank()
    ensures NoBlankHeading([]) && BlankHeadingsOk([]) && !TaskFirst([])
  {
  }

  /** Behind a first blank heading that has no task yet. */
  lemma {:induction false} NamesWaiting(st: State, ts: seq<Top>)
    requires st.sections == [] && st.cur == Some(TaskSection("", []))
    ensures NamesOk(Finish(Run(st, ts)).sections) <==> TaskFirst(ts) && NoBlankHeading(ts)
    decreases |ts|
  {
    hide TaskOf, IsBullet, BulletBody, NoBlankHeading, TaskFirst;
    NamesPrefix([], st.cur.value);
    if ts == [] {
      NothingBlank();
    } else {
      NoBlankCons(ts);
      TaskFirstCons(ts);
      if ts[0].H2? {
        StaysSpoilt(StepTop(st, ts[0]), ts[1..]);
      } else if IsTask(ts[0]) {
        NamesBehind(StepTop(st, ts[0]), ts[1..]);
      } else {
        NamesWaiting(StepTop(st, ts[0]), ts[1..]);
      }
    }
  }

  lemma {:induction false} NamesOfLines(st: State, ts: seq<Top>)
    requires st.sections == [] && st.cur.None?
    ensures NamesOk(Finish(Run(st, ts)).sections) <==> BlankHeadingsOk(ts)
    decreases |ts|
  {
    hide TaskOf, IsBullet, BulletBody, NoBlankHeading, TaskFirst, BlankHeadingsOk;
    if ts == [] {
      NothingBlank();
    } else {
      BlankHeadingsCons(ts);
      if ts[0] == H2("") {
        NamesWaiting(StepTop(st, ts[0]), ts[1..]);
      } else if ts[0].H2? || IsTask(ts[0]) {
        NamesBehind(StepTop(st, ts[0]), ts[1..]);
      } else {
        NamesOfLines(StepTop(st, ts[0]), ts[1..]);
      }
    }
  }

  /** parse(render(parse(md))) == parse(md) if and only if every section heading of md with a
      blank name comes before any section heading or task and has a task before the next
      section heading. */
  lemma StableIff(md: string)
    ensures TasksOf(TasksText(TasksOf(md))) == TasksOf(md) <==> BlankHeadingsOk(Map(ClassifyPlain, Lines(md)))
  {
    var t := TasksOf(md);
    var ts := FlatMap(TaskSectionTops, t.sections);
    InitNamed(t.title);
    NamesOfLines(INIT, Map(ClassifyPlain, Lines(md)));
    hide TasksText, Loose, NamesOk, NamedOk, NoBlankHeading, BlankHeadingsOk, Finish, Fold, TaskSectionTops,
         ClassifyPlain, Map, Lines;
    ParsedLoose(md);
    if NamesOk(t.sections) {
      RoundTrip(t);
    } else {
      Reparse(t);
      RenderedHeadings(t.sections);
      RunNames(INIT.(title := t.title), ts);
      FinishNames(Run(INIT.(title := t.title), ts));
    }
  }

  /** Unless a line opens a section with a blank name, the contract holds. */
  lemma NamedHeadingsAreStable(md: string)
    requires NoBlankHeading(Map(ClassifyPlain, Lines(md)))
    ensures TasksOf(TasksText(TasksOf(md))) == TasksOf(md)
  {
    hide TasksOf, TasksText, TaskFirst, IsTask, ClassifyPlain, Lines, Map;
    StableIff(md);
  }
}
