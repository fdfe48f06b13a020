/** Lines of a proposal, a design or a task list: section headings, a title, prose. */
module PlainLexing {
  import opened Seqs
  import opened Text
  import opened Lexer
  import opened SpecRenderer

  function ClassifyPlain(raw: string): Top {
    ClassifyTop(TrimCut(raw))
  }

  predicate TopOk(t: Top) {
    match t
    case H2(heading) => OneLine(heading)
    case H1(title) => OneLine(title)
    case Blank => true
    case Prose(text) => text != "" && OneLine(text)
  }

  predicate TopsOk(ts: seq<Top>) {
    forall i :: 0 <= i < |ts| ==> TopOk(ts[i])
  }

  function PlainProse(l: string): Top {
    Prose(l)
  }

  /** No line reads as a section heading or a title. */
  predicate NoTops(ls: seq<string>) {
    forall i :: 0 <= i < |ls| ==> !IsTopHeading(ls[i])
  }

  function TopBit(l: string): nat {
    if IsTopHeading(l) then 1 else 0
  }

  function Tops(ls: seq<string>): nat {
    Sum(TopBit, ls)
  }

  lemma NoTopsCount(ls: seq<string>)
    ensures NoTops(ls) <==> Tops(ls) == 0
  {
    hide IsTopHeading;
    SumZero(TopBit, ls);
  }

  function PlainBit(t: Top): nat {
    if t.Prose? then 1 else 0
  }

  function TitleTops(title: string): seq<Top> {
    [if title == "" then Prose("#") else H1(title)]
  }

  function SectionTops(heading: string): seq<Top> {
    [Blank, H2(heading)]
  }

  function BlockTops(block: string): seq<Top> {
    Map(ClassifyPlain, BlockLines(block))
  }

  function ProseSectionTops(heading: string, prose: string): seq<Top> {
    if prose == "" then [] else SectionTops(heading) + BlockTops(prose)
  }

  lemma ClassifyPlainOk(raw: string)
    requires '\n' !in raw
    ensures TopOk(ClassifyPlain(raw))
  {
    hide Trim, TrimCut, SectionMark, TitleMark;
  }

  lemma TopsOfLines(ls: seq<string>)
    requires NoBreaks(ls)
    ensures TopsOk(Map(ClassifyPlain, ls))
  {
    hide ClassifyPlain, TopOk;
    forall i | 0 <= i < |ls|
      ensures TopOk(ClassifyPlain(ls[i]))
    {
      ClassifyPlainOk(ls[i]);
    }
  }

  lemma PlainStored(ls: seq<string>)
    requires Stored(ls) && NoTops(ls)
    ensures Map(ClassifyPlain, ls) == Map(PlainProse, ls)
  {
    forall i | 0 <= i < |ls|
      ensures ClassifyPlain(ls[i]) == PlainProse(ls[i])
    {
      hide ClassifyTop, IsTopHeading, TrimCut;
      ClassifyTopStored(ls[i]);
    }
  }

  lemma PlainLineCount(l: string)
    requires l != "" && OneLine(l)
    ensures PlainBit(ClassifyPlain(l)) + TopBit(l) == 1
  {
    hide Trim, TrimCut, SectionMark, TitleMark;
    TrimCutId(l);
    TrimId(l);
  }

  lemma {:induction false} PlainBlockCount(ls: seq<string>)
    requires Stored(ls)
    ensures Sum(PlainBit, Map(ClassifyPlain, ls)) + Tops(ls) == |ls|
  {
    hide ClassifyPlain, IsTopHeading, PlainBit, TopBit;
    if ls != [] {
      PlainBlockCount(ls[1..]);
      PlainLineCount(ls[0]);
      assert Map(ClassifyPlain, ls) == [ClassifyPlain(ls[0])] + Map(ClassifyPlain, ls[1..]);
    }
  }

  lemma PlainBlank()
    ensures ClassifyPlain("") == Blank
  {
    ClassifyBlank();
  }

  lemma PlainTitle(title: string)
    requires OneLine(title)
    ensures Map(ClassifyPlain, [TitleLine(title)]) == TitleTops(title)
    ensures NoBreaks([TitleLine(title)])
  {
    hide Classify, ClassifyTop, TrimCut, ScenarioLine, RequirementLine, SectionLine, TitleLine, DecisionLine, Map;
    NoBreakLines(title);
    MapOne(ClassifyPlain, TitleLine(title));
    if title == "" {
      ClassifyEmptyTitle();
    } else {
      ClassifyTitle(title);
    }
  }

  lemma PlainSection(heading: string)
    requires heading != "" && OneLine(heading)
    ensures Map(ClassifyPlain, SectionHeader(heading)) == SectionTops(heading)
    ensures NoBreaks(SectionHeader(heading))
  {
    hide Classify, ClassifyTop, TrimCut, ScenarioLine, RequirementLine, SectionLine, TitleLine, DecisionLine, Map;
    NoBreakLines(heading);
    ClassifySection(heading);
    PlainBlank();
    MapTwo(ClassifyPlain, "", SectionLine(heading));
  }

  lemma PlainNothing()
    ensures Map(ClassifyPlain, []) == [] && NoBreaks([])
  {
  }

  lemma PlainProseSection(heading: string, prose: string)
    requires heading != "" && OneLine(heading)
    ensures Map(ClassifyPlain, ProseSection(heading, prose)) == ProseSectionTops(heading, prose)
    ensures NoBreaks(ProseSection(heading, prose))
  {
    hide ClassifyPlain, Map, Lines, SectionHeader, SectionTops, NoBreaks, OneLine;
    if prose == "" {
      PlainNothing();
    } else {
      PlainSection(heading);
      MapConcat(ClassifyPlain, SectionHeader(heading), Lines(prose));
      NoBreaksConcat(SectionHeader(heading), Lines(prose));
    }
  }

  /** A bullet with a trimmed body is prose to every parser. */
  lemma PlainBullet(body: string)
    requires body != "" && OneLine(body)
    ensures ClassifyPlain(BulletLine(body)) == Prose(BulletLine(body))
    ensures BulletBody(BulletLine(body)) == Some(body) && '\n' !in BulletLine(body)
    ensures BulletLine(body) != "" && BulletLine(body)[0] == '-'
  {
    hide ClassifyTop, TrimCut, BulletLine, BulletBody, ScenarioMark, RequirementMark, SectionMark, TitleMark;
    ReadBulletLine(body);
    ClassifyTopStored(BulletLine(body));
  }

  lemma PlainText(ls: seq<string>)
    requires NoBreaks(ls)
    ensures Map(ClassifyPlain, Lines(Unlines(ls))) == Map(ClassifyPlain, ls) + [Blank]
  {
    hide ClassifyPlain, NoBreaks;
    LinesOfText(ls);
    PlainBlank();
    MapConcat(ClassifyPlain, ls, [""]);
    MapOne(ClassifyPlain, "");
  }

  lemma SectionBits(heading: string)
    ensures Sum(PlainBit, SectionTops(heading)) == 0
  {
    SumTwo(PlainBit, Blank, H2(heading));
  }

  lemma ProseSectionCount(heading: string, prose: string)
    requires Stored(BlockLines(prose))
    ensures Sum(PlainBit, ProseSectionTops(heading, prose)) + Tops(BlockLines(prose)) == |BlockLines(prose)|
  {
    hide Map, ClassifyPlain, Lines, SectionTops, PlainBit;
    if prose != "" {
      SectionBits(heading);
      PlainBlockCount(BlockLines(prose));
      SumConcat(PlainBit, SectionTops(heading), BlockTops(prose));
    }
  }

  lemma StoredTopSnoc(ls: seq<string>, l: string)
    requires Stored(ls) && l != "" && OneLine(l)
    ensures Stored(ls + [l])
    ensures Tops(ls + [l]) == Tops(ls) + TopBit(l)
  {
    hide IsTopHeading, OneLine;
    SumSnoc(TopBit, ls, l);
  }

  /** No line reads as a section heading or a title only after its indentation is removed. */
  predicate NoIndentedTop(md: string) {
    forall i :: 0 <= i < |Lines(md)| ==> (IsTopHeading(Trim(TrimCut(Lines(md)[i])))
                                          ==> IsTopHeading(TrimCut(Lines(md)[i])))
  }

  lemma ProseIsNoTop(raw: string)
    requires ClassifyPlain(raw).Prose?
    ensures !IsTopHeading(TrimCut(raw)) && ClassifyPlain(raw).text == Trim(TrimCut(raw))
  {
    hide Trim, TrimCut, SectionMark, TitleMark;
  }
}
