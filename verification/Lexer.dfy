/** What one line of an OpenSpec document is, before any parser state is consulted. */
module Lexer {
  import opened Text
  import opened OpenSpecModel

  function TitleMark(): string { "# " }

  function SectionMark(): string { "## " }

  function RequirementMark(): string { "### Requirement:" }

  function ScenarioMark(): string { "#### Scenario:" }

  function DecisionMark(): string { "### Decision:" }

  /** The tail of the switch every parser shares: section heading, title, blank, prose. */
  datatype Top = H2(heading: string) | H1(title: string) | Blank | Prose(text: string)

  function ClassifyTop(line: string): Top {
    if SectionMark() <= line then H2(Trim(line[|SectionMark()|..]))
    else if TitleMark() <= line then H1(Trim(line[|TitleMark()|..]))
    else if Trim(line) == "" then Blank
    else Prose(Trim(line))
  }

  /** Lines of a spec or a delta, where requirements and scenarios have headings too. */
  datatype Token = ScenarioHead(name: string) | RequirementHead(name: string) | Other(top: Top)

  function Classify(raw: string): Token {
    var line := TrimCut(raw);
    if ScenarioMark() <= line then ScenarioHead(Trim(line[|ScenarioMark()|..]))
    else if RequirementMark() <= line then RequirementHead(Trim(line[|RequirementMark()|..]))
    else Other(ClassifyTop(line))
  }

  /** Does this (trimmed) line read as a section heading or a title? */
  predicate IsTopHeading(l: string) {
    SectionMark() <= l || TitleMark() <= l
  }

  /** Does this (trimmed) line read as any heading of a spec or a delta? */
  predicate IsHeading(l: string) {
    ScenarioMark() <= l || RequirementMark() <= l || IsTopHeading(l)
  }

  // --- the lines a printer writes, and how they classify ---

  function TitleLine(title: string): string { "# " + title }

  function SectionLine(heading: string): string { "## " + heading }

  function RequirementLine(name: string): string { "### Requirement: " + name }

  function ScenarioLine(name: string): string { "#### Scenario: " + name }

  function DecisionLine(name: string): string { "### Decision: " + name }

  function BulletLine(body: string): string { "- " + body }

  lemma NoBreakLines(name: string)
    requires '\n' !in name
    ensures '\n' !in TitleLine(name) && '\n' !in SectionLine(name)
    ensures '\n' !in RequirementLine(name) && '\n' !in ScenarioLine(name) && '\n' !in DecisionLine(name)
  {
    NoBreakMark("# ", name);
    NoBreakMark("## ", name);
    NoBreakMark("### Requirement: ", name);
    NoBreakMark("#### Scenario: ", name);
    NoBreakMark("### Decision: ", name);
  }

  lemma NoBreakMark(mark: string, name: string)
    requires '\n' !in mark && '\n' !in name
    ensures '\n' !in mark + name
  {
  }

  /** The marks tell themselves apart in their first four characters. */
  lemma MarkHeads(l: string)
    ensures ScenarioMark() <= l ==> |l| > 3 && l[0] == '#' && l[1] == '#' && l[2] == '#' && l[3] == '#'
    ensures RequirementMark() <= l ==> |l| > 3 && l[0] == '#' && l[1] == '#' && l[2] == '#' && l[3] == ' '
    ensures DecisionMark() <= l ==> |l| > 3 && l[0] == '#' && l[1] == '#' && l[2] == '#' && l[3] == ' '
    ensures SectionMark() <= l ==> |l| > 2 && l[0] == '#' && l[1] == '#' && l[2] == ' '
    ensures TitleMark() <= l ==> |l| > 1 && l[0] == '#' && l[1] == ' '
  {
  }

  lemma NotHash(l: string)
    requires l == "" || l[0] != '#'
    ensures !IsHeading(l) && !(DecisionMark() <= l)
  {
    hide ScenarioMark, RequirementMark, SectionMark, TitleMark, DecisionMark;
    MarkHeads(l);
  }

  lemma ClassifyStored(l: string)
    requires l != "" && OneLine(l) && !IsHeading(l)
    ensures Classify(l) == Other(Prose(l))
  {
    hide ScenarioMark, RequirementMark, SectionMark, TitleMark, Trim, TrimCut;
    TrimCutId(l);
    TrimId(l);
  }

  lemma ClassifyTopStored(l: string)
    requires l != "" && OneLine(l) && !IsTopHeading(l)
    ensures ClassifyTop(TrimCut(l)) == Prose(l)
  {
    hide SectionMark, TitleMark, Trim, TrimCut;
    TrimCutId(l);
    TrimId(l);
  }

  /** Indentation hides a heading from every parser, and is then dropped. */
  lemma IndentedIsProse(l: string)
    requires l != "" && OneLine(l)
    ensures Classify("  " + l) == Other(Prose(l))
    ensures ClassifyTop(TrimCut("  " + l)) == Prose(l) && TrimCut("  " + l) == "  " + l
  {
    hide ScenarioMark, RequirementMark, SectionMark, TitleMark, Trim, TrimCut;
    TrimCutAfter("  ", l);
    assert ("  " + l)[0] == ' ';
    MarkHeads("  " + l);
    TrimTwoBlanks(l);
  }

  lemma ClassifyBlank()
    ensures Classify("") == Other(Blank)
    ensures ClassifyTop(TrimCut("")) == Blank
  {
    hide ScenarioMark, RequirementMark, SectionMark, TitleMark;
    NotHash("");
  }

  /** A mark, a blank and a name read back as the name. */
  lemma MarkedName(mark: string, name: string)
    requires OneLine(name) && Trimmed(mark) && mark != ""
    ensures var line := TrimCut(mark + " " + name);
            mark <= line && Trim(line[|mark|..]) == name
  {
    if name == "" {
      assert mark + " " + name == mark + " ";
      TrimCutBlankTail(mark);
      assert mark[|mark|..] == "";
    } else {
      hide Trim, TrimCut;
      TrimCutAfter(mark + " ", name);
      MarkedNameTail(mark, name);
    }
  }

  lemma MarkedNameTail(mark: string, name: string)
    requires OneLine(name)
    ensures mark <= mark + " " + name && Trim((mark + " " + name)[|mark|..]) == name
  {
    hide Trim;
    assert (mark + " " + name)[|mark|..] == " " + name;
    TrimAfterBlank(name);
  }

  lemma RequirementLineShape(name: string)
    ensures RequirementLine(name) == RequirementMark() + " " + name
    ensures Trimmed(RequirementMark()) && RequirementMark() != ""
  {
  }

  lemma ScenarioLineShape(name: string)
    ensures ScenarioLine(name) == ScenarioMark() + " " + name
    ensures Trimmed(ScenarioMark()) && ScenarioMark() != ""
  {
  }

  lemma DecisionLineShape(name: string)
    ensures DecisionLine(name) == DecisionMark() + " " + name
    ensures Trimmed(DecisionMark()) && DecisionMark() != ""
  {
  }

  lemma ClassifyRequirement(name: string)
    requires OneLine(name)
    ensures Classify(RequirementLine(name)) == RequirementHead(name)
  {
    RequirementLineShape(name);
    hide RequirementLine, ScenarioMark, RequirementMark, SectionMark, TitleMark, Trim, TrimCut, OneLine, ClassifyTop;
    MarkedName(RequirementMark(), name);
    MarkHeads(TrimCut(RequirementLine(name)));
  }

  lemma ClassifyScenario(name: string)
    requires OneLine(name)
    ensures Classify(ScenarioLine(name)) == ScenarioHead(name)
  {
    ScenarioLineShape(name);
    hide ScenarioLine, ScenarioMark, RequirementMark, SectionMark, TitleMark, Trim, TrimCut, OneLine, ClassifyTop;
    MarkedName(ScenarioMark(), name);
  }

  lemma SectionLineShape(heading: string)
    requires heading != "" && OneLine(heading)
    ensures var line := TrimCut(SectionLine(heading));
            SectionMark() <= line && Trim(line[|SectionMark()|..]) == heading
  {
    hide Trim, TrimCut;
    TrimCutAfter("## ", heading);
    assert ("## " + heading)[3..] == heading;
    TrimId(heading);
  }

  lemma ClassifySection(heading: string)
    requires heading != "" && OneLine(heading)
    ensures Classify(SectionLine(heading)) == Other(H2(heading))
    ensures ClassifyTop(TrimCut(SectionLine(heading))) == H2(heading)
  {
    hide SectionLine, ScenarioMark, RequirementMark, SectionMark, TitleMark, Trim, TrimCut, OneLine;
    SectionLineShape(heading);
    MarkHeads(TrimCut(SectionLine(heading)));
  }

  lemma TitleLineShape(title: string)
    requires title != "" && OneLine(title)
    ensures var line := TrimCut(TitleLine(title));
            TitleMark() <= line && Trim(line[|TitleMark()|..]) == title
  {
    hide Trim, TrimCut;
    TrimCutAfter("# ", title);
    assert ("# " + title)[2..] == title;
    TrimId(title);
  }

  lemma ClassifyTitle(title: string)
    requires title != "" && OneLine(title)
    ensures Classify(TitleLine(title)) == Other(H1(title))
    ensures ClassifyTop(TrimCut(TitleLine(title))) == H1(title)
  {
    hide TitleLine, ScenarioMark, RequirementMark, SectionMark, TitleMark, Trim, TrimCut, OneLine;
    TitleLineShape(title);
    MarkHeads(TrimCut(TitleLine(title)));
  }

  /** An empty title leaves a bare "#", which is prose to every parser. */
  lemma ClassifyEmptyTitle()
    ensures Classify(TitleLine("")) == Other(Prose("#"))
    ensures ClassifyTop(TrimCut(TitleLine(""))) == Prose("#")
  {
    BareHash();
    hide TitleLine, ScenarioMark, RequirementMark, SectionMark, TitleMark, Trim, TrimCut;
    MarkHeads("#");
  }

  lemma BareHash()
    ensures TrimCut(TitleLine("")) == "#" && Trim("#") == "#"
  {
    TrimCutBlankTail("#");
    assert "#" + " " == TitleLine("");
    TrimId("#");
  }

  // --- bullets and steps ---

  predicate IsBullet(trimmed: string) {
    "- " <= trimmed || "* " <= trimmed || "+ " <= trimmed
  }

  /** bulletBody: the item text after its marker, or None when the line is no bullet. */
  function BulletBody(trimmed: string): (r: Option<string>)
    ensures r.Some? <==> IsBullet(trimmed)
  {
    if IsBullet(trimmed) then Some(Trim(trimmed[2..])) else None
  }

  /** The text before the first blank and the text after it (strings.Cut). */
  function CutBlank(s: string): (r: (string, string))
    ensures ' ' !in r.0
  {
    var i := IndexOf(s, ' ');
    if i == |s| then (s, "") else (s[..i], s[i + 1..])
  }

  lemma CutBlankAt(a: string, b: string)
    requires ' ' !in a
    ensures CutBlank(a + " " + b) == (a, b)
  {
    IndexOfFirst(a, b, ' ');
    var s := a + [' '] + b;
    assert s[..|a|] == a && s[|a| + 1..] == b;
  }

  predicate IsKeyword(kw: string) {
    kw == "GIVEN" || kw == "WHEN" || kw == "THEN" || kw == "AND"
  }

  function ParseStep(bullet: string): Step {
    var b := Trim(bullet);
    var (head, rest) := CutBlank(b);
    if IsKeyword(ToUpper(head)) then Step(ToUpper(head), Trim(rest)) else Step("", b)
  }

  /** The bullet text a printer writes for a step. */
  function StepText(st: Step): string {
    if st.keyword != "" then
      if st.text != "" then st.keyword + " " + st.text else st.keyword
    else st.text
  }

  /** The steps a parser can produce. */
  predicate WellFormedStep(st: Step) {
    && OneLine(st.text)
    && (st.keyword == "" ==> st.text != "" && !IsKeyword(ToUpper(CutBlank(st.text).0)))
    && (st.keyword != "" ==> IsKeyword(st.keyword))
  }

  lemma KeywordShape(kw: string)
    requires IsKeyword(kw)
    ensures kw != "" && OneLine(kw) && ' ' !in kw && ToUpper(kw) == kw
  {
  }

  lemma ParseStepText(st: Step)
    requires WellFormedStep(st)
    ensures StepText(st) != "" && OneLine(StepText(st))
    ensures ParseStep(StepText(st)) == st
  {
    var t := StepText(st);
    if st.keyword == "" {
      TrimId(t);
    } else {
      KeywordShape(st.keyword);
      if st.text == "" {
        TrimId(t);
        assert IndexOf(t, ' ') == |t|;
      } else {
        assert t[0] == st.keyword[0] && t[|t| - 1] == st.text[|st.text| - 1];
        TrimId(t);
        TrimId(st.text);
        IndexOfFirst(st.keyword, st.text, ' ');
        assert t == st.keyword + [' '] + st.text;
        assert t[..|st.keyword|] == st.keyword && t[|st.keyword| + 1..] == st.text;
      }
    }
  }

  lemma ParseStepWellFormed(trimmed: string)
    requires OneLine(trimmed) && IsBullet(trimmed)
    ensures WellFormedStep(ParseStep(BulletBody(trimmed).value))
  {
    BulletBodyNotEmpty(trimmed);
    StepWellFormed(BulletBody(trimmed).value);
  }

  lemma StepWellFormed(b: string)
    requires b != "" && OneLine(b)
    ensures WellFormedStep(ParseStep(b))
  {
    TrimId(b);
    var (head, rest) := CutBlank(b);
    assert '\n' !in rest;
  }

  lemma BulletBodyNotEmpty(trimmed: string)
    requires OneLine(trimmed) && IsBullet(trimmed)
    ensures BulletBody(trimmed).value != "" && OneLine(BulletBody(trimmed).value)
  {
    assert trimmed[1] == ' ';
    var rest := trimmed[2..];
    assert rest != "";
    TrimNotEmpty(rest);
  }

  lemma TrimNotEmpty(s: string)
    requires s != "" && !IsSpace(s[|s| - 1])
    ensures Trim(s) != ""
  {
    TrimStartKeeps(s);
  }

  lemma {:induction false} TrimStartKeeps(s: string)
    requires s != "" && !IsSpace(s[|s| - 1])
    ensures TrimStart(s) != "" && TrimStart(s)[|TrimStart(s)| - 1] == s[|s| - 1]
  {
    if IsSpace(s[0]) {
      TrimStartKeeps(s[1..]);
    }
  }

  /** "- " and a trimmed body is a bullet line that reads back as that body. */
  lemma ReadBulletLine(body: string)
    requires body != "" && OneLine(body)
    ensures var l := BulletLine(body);
            l != "" && OneLine(l) && l[0] == '-' && !IsHeading(l) && BulletBody(l) == Some(body)
  {
    BulletLineShape(body);
    hide ScenarioMark, RequirementMark, SectionMark, TitleMark, Trim, IsHeading, BulletLine;
    NotHash(BulletLine(body));
    TrimId(body);
  }

  lemma BulletLineShape(body: string)
    requires body != "" && OneLine(body)
    ensures var l := BulletLine(body);
            l != "" && OneLine(l) && l[0] == '-' && IsBullet(l) && l[2..] == body
  {
    var l := "- " + body;
    assert l[|l| - 1] == body[|body| - 1] && l[2..] == body;
  }
}
