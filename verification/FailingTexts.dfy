/** One text for each way the stated contract, parse(render(parse(x))) == parse(x), fails:
    an indented heading kept as prose, and a section heading with a blank name. */
module FailingTexts {
  import opened Seqs
  import opened Text
  import opened Lexer
  import opened PlainLexing
  import SpecStability
  import DeltaParser
  import DeltaRenderer
  import DeltaRoundTrip
  import DeltaStability
  import ProposalFormat
  import ProposalRoundTrip
  import ProposalStability
  import DesignFormat
  import DesignRoundTrip
  import DesignStability
  import TaskFormat

  // --- lines ---

  /** A no-break space is a space to the trim that names a section, and none to the trim that
      cuts a line. */
  const BLANK_HEADING := "## \U{A0}"

  lemma BlankHeading()
    ensures ClassifyPlain(BLANK_HEADING) == H2("") && '\n' !in BLANK_HEADING
  {
    assert TrimCut(BLANK_HEADING) == BLANK_HEADING;
    assert BLANK_HEADING[3..] == ['\U{A0}'];
    assert TrimStart(['\U{A0}']) == "";
  }

  /** Without it the mark loses its blank and is no heading at all. */
  lemma BareMarkIsProse()
    ensures ClassifyPlain("## ") == Prose("##")
  {
    TrimCutBlankTail("##");
    TrimId("##");
  }

  lemma SectionLineEnds(heading: string)
    requires heading != "" && OneLine(heading)
    ensures SectionLine(heading) != "" && OneLine(SectionLine(heading)) && IsTopHeading(SectionLine(heading))
  {
    var l := SectionLine(heading);
    assert l[0] == '#' && l[|l| - 1] == heading[|heading| - 1];
    NoBreakLines(heading);
  }

  lemma DecisionLineEnds(name: string)
    requires name != "" && OneLine(name)
    ensures DecisionLine(name) != "" && OneLine(DecisionLine(name)) && DecisionMark() <= DecisionLine(name)
  {
    var l := DecisionLine(name);
    assert l[0] == '#' && l[|l| - 1] == name[|name| - 1];
    NoBreakLines(name);
  }

  lemma OneLetters()
    ensures OneLine("A") && OneLine("B") && OneLine("X")
  {
  }

  /** The line before the end of a text of n lines is where the text ends in order. */
  lemma LinesAre(ls: seq<string>)
    requires NoBreaks(ls)
    ensures Lines(Unlines(ls)) == ls + [""]
    ensures forall k :: 0 <= k <= |ls| ==> Lines(Unlines(ls))[..k] == ls[..k]
  {
    LinesOfText(ls);
  }

  // --- deltas ---

  function DeltaSample(): seq<string> {
    [SectionLine(DeltaRenderer.AddedName()), RequirementLine("A"), "  " + RequirementLine("X")]
  }

  lemma DeltaTokens()
    ensures NoBreaks(DeltaSample())
    ensures Map(Classify, DeltaSample())
         == [Other(H2(DeltaRenderer.AddedName())), RequirementHead("A"), Other(Prose(RequirementLine("X")))]
    ensures IsHeading(RequirementLine("X"))
  {
    hide Classify, SectionLine, RequirementLine, Map, OneLine, IsHeading, DeltaRenderer.AddedName;
    var added := DeltaRenderer.AddedName();
    DeltaRoundTrip.NameShapes();
    OneLetters();
    NoBreakLines(added);
    NoBreakLines("A");
    SpecStability.RequirementLineEnds("X");
    IndentedIsProse(RequirementLine("X"));
    NoBreakMark("  ", RequirementLine("X"));
    ClassifySection(added);
    ClassifyRequirement("A");
    SpecStability.SampleHeading();
    SpecStability.NoBreaksThree(SectionLine(added), RequirementLine("A"), "  " + RequirementLine("X"));
    MapThree(Classify, SectionLine(added), RequirementLine("A"), "  " + RequirementLine("X"));
  }

  lemma DeltaRun()
    ensures var st := DeltaParser.Run(DeltaParser.INIT, [Other(H2(DeltaRenderer.AddedName())), RequirementHead("A")]);
            st.cur.Some? && st.scen.None? && st.section.AddedSection?
  {
    hide DeltaParser.SectionOf, DeltaParser.StepProse, DeltaRenderer.AddedName, DeltaParser.Dispatch;
    DeltaRoundTrip.SectionNames();
    FoldTwo(DeltaParser.StepToken, DeltaParser.INIT, Other(H2(DeltaRenderer.AddedName())), RequirementHead("A"));
  }

  /** A requirement heading indented inside an added statement comes back as a requirement. */
  lemma DeltaIndentedHeading()
    ensures var md := Unlines(DeltaSample());
            DeltaParser.DeltaOf(DeltaRenderer.DeltaText(DeltaParser.DeltaOf(md))).(warnings := [])
            != DeltaParser.DeltaOf(md).(warnings := [])
  {
    var md := Unlines(DeltaSample());
    var ts := Map(Classify, Lines(md));
    hide Lines, Unlines, Classify, Map, Fold, DeltaParser.StepToken, DeltaParser.DeltaOf, DeltaRenderer.DeltaText,
         IsHeading, DeltaSample,
         RequirementLine, NoBreaks, DeltaParser.Run, DeltaRenderer.AddedName;
    DeltaTokens();
    DeltaRun();
    LinesAre(DeltaSample());
    MapConcat(Classify, DeltaSample(), [""]);
    assert ts[..2] == [Other(H2(DeltaRenderer.AddedName())), RequirementHead("A")];
    assert DeltaStability.StoresHeading(DeltaParser.Run(DeltaParser.INIT, ts[..2]), ts[2]);
    assert !DeltaStability.NoIndentedHeadingStored(md);
    DeltaStability.StableIff(md);
  }

  // --- two lines: a section heading, then an indented one ---

  function SectionSample(heading: string): seq<string> {
    [SectionLine(heading), "  " + SectionLine("X")]
  }

  lemma SectionSampleLines(heading: string)
    requires heading != "" && OneLine(heading)
    ensures var ls := Lines(Unlines(SectionSample(heading)));
            && |ls| == 3
            && ClassifyPlain(ls[0]) == H2(heading) && ClassifyPlain(ls[1]) == Prose(SectionLine("X"))
               && TrimCut(ls[1]) == ls[1]
            && IsTopHeading(SectionLine("X"))
  {
    OneLetters();
    NoBreakLines(heading);
    hide ClassifyTop, SectionLine, OneLine, IsTopHeading, Lines, Unlines, TrimCut;
    SectionLineEnds("X");
    IndentedIsProse(SectionLine("X"));
    NoBreakMark("  ", SectionLine("X"));
    ClassifySection(heading);
    LinesAre(SectionSample(heading));
  }

  /** A heading indented inside the intent comes back as a section. */
  lemma ProposalIndentedHeading()
    ensures var md := Unlines(SectionSample("Intent"));
            ProposalFormat.ProposalOf(ProposalFormat.ProposalText(ProposalFormat.ProposalOf(md)))
            != ProposalFormat.ProposalOf(md)
  {
    var md := Unlines(SectionSample("Intent"));
    var ts := Map(ClassifyPlain, Lines(md));
    hide Lines, Unlines, ClassifyPlain, Fold, ProposalFormat.SectionOf, ProposalFormat.ProposalOf,
         ProposalFormat.ProposalText, SectionSample,
         SectionLine, IsTopHeading, ProposalStability.HeadingsNamed;
    ProposalRoundTrip.SectionNames();
    SectionSampleLines("Intent");
    assert ts[..1] == [H2("Intent")];
    FoldOne(ProposalFormat.StepTop, ProposalFormat.INIT, H2("Intent"));
    assert ProposalStability.StoresHeading(ProposalFormat.Run(ProposalFormat.INIT, ts[..1]), ts[1]);
    assert !ProposalStability.NoIndentedHeadingStored(md);
    ProposalStability.StableIff(md);
  }

  /** A heading indented inside the technical approach comes back as a section. */
  lemma DesignIndentedHeading()
    ensures var md := Unlines(SectionSample("Technical Approach"));
            DesignFormat.DesignOf(DesignFormat.DesignText(DesignFormat.DesignOf(md))) != DesignFormat.DesignOf(md)
  {
    var md := Unlines(SectionSample("Technical Approach"));
    var ls := Lines(md);
    hide Lines, Unlines, ClassifyPlain, Fold, DesignFormat.SectionOf, DesignFormat.DesignOf, DesignFormat.DesignText,
         SectionSample,
         SectionLine, IsTopHeading, DesignStability.HeadingsNamed, TrimCut, Trim;
    DesignRoundTrip.SectionNames();
    SectionSampleLines("Technical Approach");
    assert ls[..1] == [ls[0]];
    FoldOne(DesignFormat.FeedLine, DesignFormat.INIT, ls[0]);
    assert DesignStability.StoresHeading(DesignFormat.Run(DesignFormat.INIT, ls[..1]), ls[1]);
    assert !DesignStability.NoIndentedHeadingStored(md);
    DesignStability.StableIff(md);
  }

  // --- designs: a decision heading inside a decision ---

  function DecisionSample(): seq<string> {
    [SectionLine("Architecture Decisions"), DecisionLine("A"), "  " + DecisionLine("B")]
  }

  lemma DecisionSampleLines()
    ensures var ls := Lines(Unlines(DecisionSample()));
            && |ls| == 4
            && ClassifyPlain(ls[0]) == H2("Architecture Decisions") && DecisionMark() <= TrimCut(ls[1])
            && ClassifyPlain(ls[2]) == Prose(DecisionLine("B")) && !(DecisionMark() <= TrimCut(ls[2]))
            && DecisionMark() <= DecisionLine("B")
  {
    hide ClassifyTop, SectionLine, DecisionLine, DecisionMark, OneLine, Lines, Unlines, TrimCut, Trim;
    OneLetters();
    DesignRoundTrip.NameShapes();
    NoBreakLines("Architecture Decisions");
    NoBreakLines("A");
    DecisionLineEnds("A");
    DecisionLineEnds("B");
    TrimCutId(DecisionLine("A"));
    IndentedIsProse(DecisionLine("B"));
    assert ("  " + DecisionLine("B"))[0] == ' ';
    MarkHeads("  " + DecisionLine("B"));
    NoBreakMark("  ", DecisionLine("B"));
    ClassifySection("Architecture Decisions");
    LinesAre(DecisionSample());
  }

  lemma InDecision(a: string, b: string)
    requires ClassifyPlain(a) == H2("Architecture Decisions") && DecisionMark() <= TrimCut(b)
    ensures var st := DesignFormat.Run(DesignFormat.INIT, [a, b]); st.cur.Some? && st.section.DecisionSection?
  {
    hide ClassifyPlain, DesignFormat.SectionOf, TrimCut, Trim;
    DesignRoundTrip.SectionNames();
    FoldTwo(DesignFormat.FeedLine, DesignFormat.INIT, a, b);
  }

  /** A decision heading indented inside a decision comes back as a decision. */
  lemma DesignIndentedDecision()
    ensures var md := Unlines(DecisionSample());
            DesignFormat.DesignOf(DesignFormat.DesignText(DesignFormat.DesignOf(md))) != DesignFormat.DesignOf(md)
  {
    var md := Unlines(DecisionSample());
    var ls := Lines(md);
    hide Lines, Unlines, ClassifyPlain, DesignFormat.Run, DesignFormat.DesignOf, DesignFormat.DesignText,
         DecisionSample,
         DecisionLine, DecisionMark, IsTopHeading, DesignStability.HeadingsNamed, TrimCut, Trim;
    DecisionSampleLines();
    InDecision(ls[0], ls[1]);
    assert ls[..2] == [ls[0], ls[1]];
    assert DesignStability.StoresHeading(DesignFormat.Run(DesignFormat.INIT, ls[..2]), ls[2]);
    assert !DesignStability.NoIndentedHeadingStored(md);
    DesignStability.StableIff(md);
  }

  // --- blank names ---

  lemma BlankLines(ls: seq<string>, k: nat)
    requires NoBreaks(ls) && k < |ls| && ls[k] == BLANK_HEADING
    ensures var md := Unlines(ls);
            && Lines(md) == ls + [""] && Lines(md)[k] == BLANK_HEADING
            && Map(ClassifyPlain, Lines(md))[k] == H2("")
  {
    hide ClassifyPlain, Lines, Unlines;
    BlankHeading();
    LinesAre(ls);
  }

  /** A section with a blank name disappears from a proposal and from a design. */
  lemma BlankSectionVanishes()
    ensures var md := Unlines([BLANK_HEADING]);
            && ProposalFormat.ProposalOf(ProposalFormat.ProposalText(ProposalFormat.ProposalOf(md)))
               != ProposalFormat.ProposalOf(md)
            && DesignFormat.DesignOf(DesignFormat.DesignText(DesignFormat.DesignOf(md))) != DesignFormat.DesignOf(md)
  {
    var md := Unlines([BLANK_HEADING]);
    BlankHeading();
    hide Lines, Unlines, ClassifyPlain, ProposalFormat.ProposalOf, ProposalFormat.ProposalText, DesignFormat.DesignOf,
         DesignFormat.DesignText,
         ProposalStability.NoIndentedHeadingStored, DesignStability.NoIndentedHeadingStored;
    BlankLines([BLANK_HEADING], 0);
    assert !ProposalStability.HeadingsNamed(md);
    assert ClassifyPlain(Lines(md)[0]) == H2("");
    assert !DesignStability.HeadingsNamed(md);
    ProposalStability.StableIff(md);
    DesignStability.StableIff(md);
  }

  /** In a task list an unnamed section disappears when it holds no task. */
  lemma EmptyTaskSection()
    ensures var md := Unlines([BLANK_HEADING]);
            TaskFormat.TasksOf(TaskFormat.TasksText(TaskFormat.TasksOf(md))) != TaskFormat.TasksOf(md)
  {
    var md := Unlines([BLANK_HEADING]);
    var ts := Map(ClassifyPlain, Lines(md));
    BlankHeading();
    PlainBlank();
    hide Lines, Unlines, ClassifyPlain, TaskFormat.TasksOf, TaskFormat.TasksText;
    BlankLines([BLANK_HEADING], 0);
    assert ts == [H2(""), Blank];
    assert ts[1..] == [Blank];
    assert !TaskFormat.TaskFirst([Blank]);
    assert !TaskFormat.OpensUnnamed(ts, 0);
    TaskFormat.StableIff(md);
  }

  /** And it joins the section before it when it is not the first. */
  lemma SecondTaskSection()
    ensures var md := Unlines([SectionLine("A"), BLANK_HEADING]);
            TaskFormat.TasksOf(TaskFormat.TasksText(TaskFormat.TasksOf(md))) != TaskFormat.TasksOf(md)
  {
    var ls := [SectionLine("A"), BLANK_HEADING];
    var md := Unlines(ls);
    var ts := Map(ClassifyPlain, Lines(md));
    BlankHeading();
    TwoHeadings();
    hide Lines, Unlines, ClassifyPlain, TaskFormat.TasksOf, TaskFormat.TasksText, SectionLine, TaskFormat.TaskFirst,
         NoBreaks, TaskFormat.IsTask;
    BlankLines(ls, 1);
    assert ts[0] == H2("A");
    assert !TaskFormat.OpensUnnamed(ts, 1);
    TaskFormat.StableIff(md);
  }

  lemma TwoHeadings()
    ensures ClassifyPlain(SectionLine("A")) == H2("A") && NoBreaks([SectionLine("A"), BLANK_HEADING])
  {
    OneLetters();
    NoBreakLines("A");
    hide SectionLine, ClassifyTop, TrimCut;
    ClassifySection("A");
    BlankHeading();
  }
}
