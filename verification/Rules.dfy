/** Which specs and deltas the format can carry, and how many stored prose lines would
    read as headings. */
module Rules {
  import opened Seqs
  import opened Text
  import opened OpenSpecModel
  import opened Lexer

  predicate WellFormedSteps(steps: seq<Step>) {
    forall i :: 0 <= i < |steps| ==> WellFormedStep(steps[i])
  }

  predicate WellFormedScenario(sc: Scenario) {
    OneLine(sc.name) && WellFormedSteps(sc.steps)
  }

  predicate WellFormedScenarios(scs: seq<Scenario>) {
    forall i :: 0 <= i < |scs| ==> WellFormedScenario(scs[i])
  }

  /** What every parser run yields: trimmed names, trimmed prose lines. */
  predicate Loose(r: Requirement) {
    OneLine(r.name) && Stored(BlockLines(r.statement)) && WellFormedScenarios(r.scenarios)
  }

  predicate LooseAll(rs: seq<Requirement>) {
    forall i :: 0 <= i < |rs| ==> Loose(rs[i])
  }

  predicate LooseSpec(s: Spec) {
    OneLine(s.title) && Stored(BlockLines(s.purpose)) && LooseAll(s.requirements)
  }

  /** No prose line reads as a heading. */
  predicate NoHeadings(ls: seq<string>) {
    forall i :: 0 <= i < |ls| ==> !IsHeading(ls[i])
  }

  predicate WellFormedRequirement(r: Requirement) {
    Loose(r) && NoHeadings(BlockLines(r.statement))
  }

  predicate WellFormedRequirements(rs: seq<Requirement>) {
    forall i :: 0 <= i < |rs| ==> WellFormedRequirement(rs[i])
  }

  /** Everything the capability format can carry. */
  predicate WellFormed(s: Spec) {
    OneLine(s.title) && Stored(BlockLines(s.purpose)) && NoHeadings(BlockLines(s.purpose))
    && WellFormedRequirements(s.requirements)
  }

  // --- counting ---

  function HeadingBit(l: string): nat {
    if IsHeading(l) then 1 else 0
  }

  /** How many of the lines read as headings. */
  function Headings(ls: seq<string>): nat {
    Sum(HeadingBit, ls)
  }

  function Strays(r: Requirement): nat {
    Headings(BlockLines(r.statement))
  }

  function SpecStrays(s: Spec): nat {
    Headings(BlockLines(s.purpose)) + Sum(Strays, s.requirements)
  }

  function ScenarioWeight(sc: Scenario): nat {
    |sc.steps|
  }

  /** How many prose lines and bullets a requirement holds. */
  function Weight(r: Requirement): nat {
    |BlockLines(r.statement)| + Sum(ScenarioWeight, r.scenarios)
  }

  function SpecWeight(s: Spec): nat {
    |BlockLines(s.purpose)| + Sum(Weight, s.requirements)
  }

  lemma NoHeadingsCount(ls: seq<string>)
    ensures NoHeadings(ls) <==> Headings(ls) == 0
  {
    hide IsHeading;
    SumZero(HeadingBit, ls);
  }

  lemma WellFormedCount(s: Spec)
    requires LooseSpec(s)
    ensures WellFormed(s) <==> SpecStrays(s) == 0
  {
    hide Headings, NoHeadings, BlockLines, Loose;
    NoHeadingsCount(BlockLines(s.purpose));
    RequirementsCount(s.requirements);
  }

  lemma RequirementsCount(rs: seq<Requirement>)
    requires LooseAll(rs)
    ensures WellFormedRequirements(rs) <==> Sum(Strays, rs) == 0
  {
    hide Headings, NoHeadings, BlockLines, Loose;
    SumZero(Strays, rs);
    forall i | 0 <= i < |rs|
      ensures WellFormedRequirement(rs[i]) <==> Strays(rs[i]) == 0
    {
      NoHeadingsCount(BlockLines(rs[i].statement));
    }
  }
}
