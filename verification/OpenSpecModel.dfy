/** The OpenSpec artifacts: what the five parsers return and the five printers take. */
module OpenSpecModel {

  datatype Step = Step(keyword: string, text: string)

  datatype Scenario = Scenario(name: string, steps: seq<Step>)

  datatype Requirement = Requirement(name: string, statement: string, scenarios: seq<Scenario>)

  datatype Warning =
    | ScenarioBeforeRequirement(name: string)
    | RemovedCarriesContent(name: string)
    | RequirementOutsideSection(name: string)

  datatype Spec = Spec(title: string, purpose: string, requirements: seq<Requirement>, warnings: seq<Warning>)

  datatype ModifiedRequirement = ModifiedRequirement(requirement: Requirement, previously: string)

  datatype RemovedRequirement = RemovedRequirement(name: string, rationale: string)

  datatype Delta = Delta(
    title: string,
    added: seq<Requirement>,
    modified: seq<ModifiedRequirement>,
    removed: seq<RemovedRequirement>,
    warnings: seq<Warning>)

  datatype MarkdownSection = MarkdownSection(heading: string, body: string)

  datatype Proposal = Proposal(
    title: string,
    intent: string,
    scopeIn: seq<string>,
    scopeOut: seq<string>,
    approach: string,
    extras: seq<MarkdownSection>)

  datatype DesignDecision = DesignDecision(name: string, body: string)

  datatype FileChange = FileChange(path: string, kind: string)

  datatype Design = Design(
    title: string,
    technicalApproach: string,
    decisions: seq<DesignDecision>,
    dataFlow: string,
    fileChanges: seq<FileChange>,
    extras: seq<MarkdownSection>)

  datatype Task = Task(number: string, text: string, done: bool)

  datatype TaskSection = TaskSection(name: string, tasks: seq<Task>)

  datatype Tasks = Tasks(title: string, sections: seq<TaskSection>)
}
