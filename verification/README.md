# Verified models of semdev's deterministic cores

semdev drives a change from an issue to a reviewed pull request. Around the language
models sit deterministic cores that decide what is stored, announced, committed and
counted. This project models nine of them in Dafny and proves what they promise.

1. **The OpenSpec format engine**: five line-oriented parsers (capability spec, delta,
   proposal, design, task list) and their printers. `SpecParser`, `SpecRenderer`,
   `SpecRoundTrip`, `SpecStability`, `DeltaParser`, `DeltaRenderer`, `DeltaRoundTrip`,
   `DeltaStability`, `ProposalFormat`, `ProposalRoundTrip`, `ProposalStability`,
   `DesignFormat`, `DesignRoundTrip`, `DesignStability`, `TaskFormat`, `FailingTexts`, over `Text`,
   `Seqs`, `Lexer`, `Rules`, `RequirementLexing`, `PlainLexing`, `OpenSpecModel`.
2. **The change-approval gate**: classified intents and exact commands race on one
   decision fact. `ChangeGate`, `ChangeGateSafety`, `ChangeGateNotices`,
   `ChangeGateDecision`, `ChangeGateRuns`.
3. **Standards sync**: a declared file reconciled onto a shared record store.
   `StandardsFile`, `StandardsRecords`, `StandardsSync`.
4. **The vacuous-test floor**: a search over a cyclic call graph and a constant-expression
   analysis. `GoAst`, `VacuousTest`, `AssertionSearch`, `VacuousFloor`,
   `ConstantMeaning`.
5. **Patch apply and commit**: git as three trees. `DiffTargets`, `PatchCommit`.
6. **The poll transport**: at-least-once delivery through cursors. `Poller`.
7. **The contract-validated writer**: `WriteRetry`, `GroupWriter`, `Contracts`,
   `ContractWrites`.
8. **Resource registries and intake**: step systems with interleavings and crashes.
   `ResourceRegistry`, `IntakeWake`.
9. **Small dense algorithms**: `ShellScan`, `AttemptId`, `DevTask`.

Parsers, printers, the sync, the patcher, the poller, the writer, the scanner and the
searches are classes and methods with loops, each proved against a specification function
or predicate; the laws are lemmas about that specification. Protocols whose difficulty is
interleaving are step systems: one external call is one step, the environment picks its
answer, and a failed call may have landed all the same.

## What turned out different from the documentation

- The round-trip contract (`internal/openspec/model.go:10-12`) is conditional. Headings are
  recognised on the line as written, prose is stored without its indentation, so an
  indented heading kept as prose comes back as a heading. `StableIff` gives the exact
  condition for each format; proposals, designs and task lists also lose sections with a
  blank name, which needs white space that the line trim (blank, tab, carriage return)
  keeps and the name trim removes, such as a no-break space. `FailingTexts` has a text for
  each way a format fails.
- The gate can diverge from what a thread shows (`internal/conversationchannel/apply.go:171-180`).
  A post that lands while reporting failure leaves a later announcement on the thread than
  the one remembered as posted (`ShownOneDecisionWroteAnother`, `LatestShownIff`). The
  acknowledged announcement always matches (`EveryWriteJustified`).
- A thread can assert a decision against the record for ever: a guard ends a retry
  (`AnnouncedAndAbandoned`), the correction of a superseded announcement is lost
  (`CorrectionLost`), or an applied decision is overwritten by a stamp that was open at the
  same time (`AppliedThenOverwritten`). `AnnouncementOpenIff` says exactly when, against the
  decision that stands; `DispatchAnswersIff` says what the dispatch itself left undone. Both
  speak of the last announcement a dispatch got acknowledged; an earlier one of the same
  dispatch is followed on the thread by it (`EarlierAnswered`), and a reader sees two
  announcements and no correction.
- The exhaustion notice (`internal/conversationchannel/apply.go:121-125`) can be untrue
  (`NoticeCanBeWrong`); `ExhaustionNoticeIff` says exactly when.
- Overlapping stamps overwrite each other more often than once per stamp
  (`OverwritesExceedStamps`), because one stamp may land several requests that report
  failure. Without such requests once per stamp is the bound (`TruthfulOverwrites`); in
  general the most there can be is `MostOverwrites` (`MostOverwritesIsMaximum`), which says
  exactly when once per stamp holds (`StampBoundIff`).
- Contract names are called presentation only (`internal/graphown/contracts.go:309-312`),
  and a write selects its contract by name (`internal/graphown/writer.go:119-131`).
  `SharedNameIff` and `NameIsolatesIff` say when that is safe.
- A partial Up is said to tear down whatever it created
  (`internal/cleanroom/container.go:121-124`); a container that was created and does not
  start is kept by nobody and removed by nobody. Slots are emptied before a teardown is
  tried and its error is dropped or only reported, so a failed teardown leaves a container or
  directory that nothing knows of (`TeardownCanLose`). `NothingLeaks` has the exact
  condition for each kind.
- An issue that is triggered again can lose its wake: after a crash between record and wake
  an older run with the same ref is taken for its own (`OlderRunHidesEvent`, `NoWakeIff`).
- A diff is said to be rejected unless its write set can be enumerated
  (`internal/runspace/patcher.go:218-227`); a git block with /dev/null on both sides is
  accepted and names no file (`NamelessBlockAccepted`, `BlockNamesIff`).
- A subshell inside a command substitution is read as ending it (`NestedParensAreFlagged`);
  `EnclosedIff` says which enclosed words are read as data.

## Model

| member | source | states |
|---|---|---|
| `SpecParser.ParseSpec` | internal/openspec/parse.go:45-133 | The loop with its two flush closures returns the value of the left fold of one-line steps over the classified lines; the round-trip and stability results are proved about that value. |
| `SpecRenderer.RenderSpec` | internal/openspec/render.go:77-96 | The builder loop writes exactly the canonical lines of the spec, in order, each ended by a newline. |
| `SpecRenderer.RenderRequirement` | internal/openspec/render.go:134-155 | Appends heading, statement, both annotations when set, then every scenario, and nothing else. |
| `SpecRoundTrip.RoundTrip` | internal/openspec/render.go:71-96 | Parsing a rendered spec gives the spec back, for every spec whose names and prose lines are trimmed and whose prose holds no heading line; warnings aside. |
| `SpecStability.ParsedWellFormed` | internal/openspec/parse.go:78-125 | Every parse result is trimmed and step-complete, and it is fully well formed if and only if no line was stored as prose that reads as a heading without its indentation. |
| `SpecStability.StableIff` | internal/openspec/model.go:10-12 | The stated contract, parse(render(parse(x))) equals parse(x) on modelled fields, holds of a text if and only if no indented heading was stored; both directions, all texts. |
| `SpecStability.CleanTextIsStable` | internal/openspec/parse.go:78-107 | A text none of whose indented lines trims to a heading prefix is well formed and stable. |
| `SpecStability.IndentedHeadingBreaksStability` | internal/openspec/parse.go:78-125 | A concrete document for which the contract fails: an indented requirement heading in a statement comes back as a second requirement. |
| `SpecRoundTrip.RunRequirement` | internal/openspec/parse.go:95-125 | A rendered requirement, fed to the parser from any open state, closes the one before it and is read back whole. |
| `SpecRoundTrip.RunScenario` | internal/openspec/parse.go:87-94 | A rendered scenario with its steps is read back onto the current requirement. |
| `Lexer.ParseStepText` | internal/openspec/parse.go:151-160 | A step text read back gives the same keyword and text, for every step the parser can produce. |
| `Lexer.ParseStepWellFormed` | internal/openspec/parse.go:138-160 | Every bullet of a trimmed line parses to such a step. |
| `DeltaParser.ParseDelta` | internal/openspec/parse.go:188-269 | The delta loop and its dispatch on the open section return the value of the fold of its one-line steps. |
| `DeltaRenderer.RenderDelta` | internal/openspec/render.go:102-129 | Writes ADDED, MODIFIED and REMOVED blocks in that order, empty ones left out. |
| `DeltaRoundTrip.ReadAnnotation` | internal/openspec/parse.go:318-325 | The rendered "(Label: v)" line reads back as v for every trimmed non-empty v, values that end in a parenthesis included. |
| `DeltaRoundTrip.RoundTrip` | internal/openspec/render.go:102-155 | Every requirement, scenario, step, Previously and Rationale of a well-formed delta survives rendering and parsing. |
| `DeltaRoundTrip.RunRemoved` | internal/openspec/parse.go:274-291 | Removed requirements come back with name and rationale and with no warning. |
| `DeltaStability.StableIff` | internal/openspec/model.go:10-12 | The contract for deltas, sections in any order and repeated: it holds if and only if no added or modified statement kept an indented heading. |
| `DeltaStability.ParsedWellFormed` | internal/openspec/parse.go:188-291 | What every parsed delta satisfies, and when it is fully well formed. |
| `DeltaStability.CleanTextIsStable` | internal/openspec/parse.go:218-262 | A delta text none of whose indented lines trims to a heading prefix is well formed and stable. |
| `ProposalFormat.ParseProposal` | internal/openspec/parse.go:331-400 | The proposal loop returns the value of the fold of its one-line steps. |
| `ProposalFormat.RenderProposal` | internal/openspec/render.go:182-219 | Writes intent, both scope lists, approach and every named extra section. |
| `ProposalRoundTrip.RoundTrip` | internal/openspec/render.go:182-219 | Scope lists, prose and unmodelled extra sections of a well-formed proposal survive. |
| `ProposalRoundTrip.RunScope` | internal/openspec/parse.go:370-386 | The scope block is read back into the two lists from any parser state. |
| `ProposalStability.StableIff` | internal/openspec/model.go:10-12 | The contract for proposals holds if and only if no indented heading was kept as prose and no section heading is blank. |
| `ProposalStability.CleanTextIsStable` | internal/openspec/parse.go:352-400 | A proposal text without indented or blank section headings is stable. |
| `DesignFormat.ParseDesign` | internal/openspec/parse.go:418-495 | The design loop, with its two flushes and the heading that exists only inside the decisions section, returns the value of the fold of its one-line steps. |
| `DesignFormat.RenderDesign` | internal/openspec/render.go:223-265 | Writes technical approach, decisions, data flow, file changes and extras in canonical order. |
| `DesignRoundTrip.ChangeBack` | internal/openspec/parse.go:515-529 | A rendered file change parses back to the same path and kind, for every path without a backquote and every trimmed kind. |
| `DesignRoundTrip.ParsedChange` | internal/openspec/parse.go:515-529 | Every file change the parser can produce is one the printer can carry. |
| `DesignRoundTrip.RoundTrip` | internal/openspec/render.go:223-294 | Decisions, file changes, prose and extras of a well-formed design survive. |
| `DesignStability.StableIff` | internal/openspec/model.go:10-12 | The contract for designs holds if and only if no kept prose line reads as a heading where it stands (a decision heading only inside a decision body) and no section heading is blank. |
| `DesignStability.ReparseDecisions` | internal/openspec/parse.go:453-472 | A decision body line that reads as a decision heading comes back as one more decision. |
| `DesignStability.CleanTextIsStable` | internal/openspec/parse.go:449-495 | A design text without indented or blank section headings and without indented decision headings is stable. |
| `TaskFormat.ParseTasks` | internal/openspec/parse.go:535-570 | The task-list loop returns the value of the fold of its one-line steps. |
| `TaskFormat.SplitContent` | internal/openspec/render.go:333-342 | splitTaskNumber inverts taskContent for every task the bullet parser can produce. |
| `TaskFormat.TaskBack` | internal/openspec/parse.go:575-589 | A rendered checkbox bullet parses back to the same number, text and done flag. |
| `TaskFormat.ScanTaskNumber` | internal/openspec/parse.go:605-620 | The byte loop accepts exactly the dotted task numbers. |
| `TaskFormat.RenderTasks` | internal/openspec/render.go:299-329 | Writes every section and checkbox line; an unnamed section has no heading. |
| `TaskFormat.RoundTrip` | internal/openspec/render.go:299-342 | Sections, numbers, texts and done flags survive when only the first section is unnamed and it holds tasks. |
| `TaskFormat.StableIff` | internal/openspec/model.go:10-12 | The contract for task lists holds of a text if and only if every section heading with a blank name stands before any section heading and any task, and has a task before the next section heading. |
| `TaskFormat.NamedHeadingsAreStable` | internal/openspec/parse.go:535-570 | A text without blank section headings is always stable. |
| `TaskFormat.NamesOfLines` | internal/openspec/parse.go:535-570 | The lines decide the section names: only the first section parsed is unnamed, and it holds tasks, if and only if that condition on the blank headings holds. |
| `FailingTexts.DeltaIndentedHeading` | internal/openspec/parse.go:218-260 | A delta on which the contract fails: an indented requirement heading in an added statement. |
| `FailingTexts.ProposalIndentedHeading` | internal/openspec/parse.go:352-400 | A proposal on which it fails: an indented section heading in the intent. |
| `FailingTexts.DesignIndentedHeading` | internal/openspec/parse.go:449-490 | A design on which it fails: an indented section heading in the technical approach. |
| `FailingTexts.DesignIndentedDecision` | internal/openspec/parse.go:453-472 | A design on which it fails: an indented decision heading in the body of a decision. |
| `FailingTexts.BlankSectionVanishes` | internal/openspec/render.go:267-280 | A proposal and a design on which it fails: a section named by a no-break space alone, which the line trim keeps and the name trim removes. |
| `FailingTexts.EmptyTaskSection` | internal/openspec/render.go:306-312 | A task list on which it fails: a section with such a name and no task. |
| `FailingTexts.SecondTaskSection` | internal/openspec/render.go:306-312 | Another: such a section behind a named one. |
| `ChangeGateSafety.EveryWriteJustified` | internal/conversationchannel/apply.go:171-190 | In every interleaving, every write a dispatch issues has as its last acknowledged announcement exactly (decision, author) of the undecided snapshot of that attempt, and that author was authorized in the same dispatch; every command write is the decision its authorized author asked for, on a run at the gate, in a message fresh for it. |
| `ChangeGateSafety.LatestShownIff` | internal/conversationchannel/apply.go:351-361 | The last announcement of that dispatch that a reader of the thread can see matches its write if and only if no post of it since its last acknowledged one landed while reporting failure. |
| `ChangeGateRuns.ShownOneDecisionWroteAnother` | internal/conversationchannel/apply.go:351-368 | A run of the code in which the thread last announces rejection by one author while approval by another is written. |
| `ChangeGateNotices.AnnouncementOpenIff` | internal/conversationchannel/apply.go:363-395 | For every finished dispatch of every run, whatever happened after it: the thread asserts its last acknowledged announcement against the decision that stands, if and only if no correction of it landed and either no write request of any process has landed or the last one to land wrote the other decision; that one is never its own, and only a superseded dispatch corrects. |
| `ChangeGateNotices.FinishedIsSettled` | internal/conversationchannel/apply.go:363-395 | The step that ends a dispatch as applied leaves its announced decision standing; the step that finds it superseded found the other one standing. |
| `ChangeGateNotices.DispatchAnswersIff` | internal/conversationchannel/apply.go:279-395 | What the dispatch itself leaves undone: its last announcement is neither written by it, nor found standing, nor visibly corrected, if and only if it ended without comparing it to the gate and none of its write requests for it landed, or it was superseded and its correction did not land. |
| `ChangeGateNotices.ExhaustionNoticeIff` | internal/conversationchannel/apply.go:223-241 | In every run, where the exhaustion notice is posted: it is true if and only if no write request of any process has landed; if the dispatch saw no request of its own answered by a kind that may have landed, only another process can have made it untrue. |
| `ChangeGateSafety.OnlyRetriesAbandonAnnouncements` | internal/conversationchannel/apply.go:279-284 | A dispatch that stopped at a guard after announcing did so on a retry. |
| `ChangeGateRuns.AnnouncedAndAbandoned` | internal/conversationchannel/apply.go:279-284 | A run that ends at a guard: approval announced, rejection stands, no correction. |
| `ChangeGateRuns.CorrectionLost` | internal/conversationchannel/apply.go:386-390 | A run that is superseded and whose correction fails. |
| `ChangeGateRuns.AppliedThenOverwritten` | internal/conversationchannel/approval.go:310-325 | A run that ends as applied and is overwritten by a stamp open at the same time: the thread asserts approval, rejection stands, nobody corrects. |
| `ChangeGateRuns.NoticeCanBeWrong` | internal/conversationchannel/apply.go:223-241 | A run that logs the exhaustion notice as posted while the gate is decided, by a request of the dispatch itself that landed while reporting failure. |
| `ChangeGateSafety.ApplyOk` | internal/conversationchannel/apply.go:246-396 | One answered call of a dispatch keeps its memo (announced, authorized, thread) true of the history. |
| `ChangeGateSafety.CommandOk` | internal/conversationchannel/approval.go:156-249 | One answered call of an exact command keeps authorization, phase and freshness. |
| `ChangeGateDecision.OverwritesBounded` | internal/conversationchannel/approval.go:340-365 | Once decided the gate stays decided, and along any run the decision changes at most as often as the stamps that had read it undecided may still issue requests. |
| `ChangeGateDecision.StableOnceQuiet` | internal/conversationchannel/approval.go:340-365 | With no stamp open the decision is stable for ever. |
| `ChangeGateDecision.FirstDecisionWins` | internal/conversationchannel/approval.go:310-339 | If stamp windows never overlap, the first decision stands for the rest of the run. |
| `ChangeGateRuns.OverwritesExceedStamps` | internal/conversationchannel/approval.go:310-339 | Two open stamps overwrite each other four times after the first write: one overwrite for each open stamp is not the bound. |
| `ChangeGateDecision.TruthfulOverwrites` | internal/conversationchannel/approval.go:310-339 | In every run in which no write request lands while reporting failure, it is: overwrites and the stamps open at the end are at most the stamps open at the start. |
| `ChangeGateDecision.StampBoundIff` | internal/conversationchannel/approval.go:310-339 | From a decided state, every run keeps that bound if and only if the requests left, taken in turns against and for what stands, do not exceed it. |
| `ChangeGateDecision.MostOverwritesIsMaximum` | internal/conversationchannel/approval.go:310-339 | From every decided state, the requests left against and for what stands, taken in turns, are exactly the most overwrites any run has: no run exceeds it and one reaches it. |
| `StandardsFile.Parse` | internal/standards/standards.go:139-205 | Accepts exactly the files whose version, count, entries, ids and identity keys are valid, returns their standards in order, and otherwise names a defect the file really has. |
| `StandardsFile.ValidateStandard` | internal/standards/standards.go:207-258 | Accepts exactly the valid entries with a new id and reports the defect otherwise. |
| `StandardsFile.AcceptedAreDistinct` | internal/standards/standards.go:170-191 | Standards accepted together never share a record content, for any source. |
| `StandardsFile.SameRecordIff` | internal/standards/sync.go:467-477 | Two record contents are equal if and only if text and role set are. |
| `StandardsFile.AliasedShareRecord` | internal/standards/standards.go:170-191 | The parser refuses a pair for aliasing if and only if both would be one record. |
| `StandardsFile.SortedIsPermutation` | internal/standards/sync.go:467-470 | The sorted scope holds exactly the declared roles. |
| `StandardsSync.Syncer.Sync` | internal/standards/sync.go:156-251 | Whatever calls fail, the store ends between start and final state; success gives exactly the final state and exact born, promoted and retired counts; an invalid file writes nothing; without faults it succeeds whenever the store matches the declared ids. |
| `StandardsSync.Syncer.SyncAbsent` | internal/standards/sync.go:292-301 | Retirement only, with the same exactness. |
| `StandardsSync.Syncer.RetireRemoved` | internal/standards/sync.go:341-371 | Retires exactly the live, undeclared records of this repo, whatever order they are listed in. |
| `StandardsSync.Syncer.EvidenceMatches` | internal/standards/sync.go:384-411 | With memoized lookups, true exactly when some cited source resolves to the repo. |
| `StandardsRecords.ExactlyDeclared` | internal/standards/sync.go:156-251 | After success the live records of the repo are exactly the declared ones, all active, if and only if nothing is declared or the source entity names the repo. |
| `StandardsRecords.OthersUntouched` | internal/standards/sync.go:341-371 | Undeclared records that do not resolve to the repo are left exactly as they were. |
| `StandardsRecords.SecondSyncIdle` | internal/standards/sync.go:204-240 | A second sync changes nothing and counts zero births, promotions and retirements. |
| `StandardsRecords.Converges` | internal/standards/sync.go:156-251 | From any state a failed pass can leave, a successful one reaches the same final state. |
| `StandardsRecords.SourceSettles` | internal/standards/sync.go:178-193 | The source entity is created at most once, whichever pass got there, and then names the repo unless something else held its id. |
| `AssertionSearch.Asserts` | internal/floors/checks.go:227-257 | True exactly when a function with a credited assertion of its own is reachable through calls that pass a testing receiver; any call graph, no uniqueness of names assumed. |
| `AssertionSearch.FuncAsserts` | internal/floors/checks.go:227-257 | With a visited set shared by all branches: everything newly visited is reached and finished, and the answer covers exactly it; it terminates. |
| `AssertionSearch.VisitedIsReachable` | internal/floors/checks.go:219-231 | A finished visited set that holds the root answers the reachability question. |
| `VacuousTest.DeadFailCalls` | internal/floors/checks.go:295-317 | Exactly the fail calls whose path runs through a branch of a constant-condition if, at any depth. |
| `VacuousTest.TestingVars` | internal/floors/checks.go:379-429 | Exactly the testing parameter names declared anywhere in the function. |
| `ConstantMeaning.ConstantIsFixed` | internal/floors/checks.go:319-338 | A constant expression has the same value in every environment that leaves the predeclared names alone, whatever operators mean. |
| `ConstantMeaning.ConstantIff` | internal/floors/checks.go:319-338 | With uninterpreted operators it is constant if and only if no two such environments tell its values apart. |
| `ConstantMeaning.ShadowedIsComputed` | internal/floors/checks.go:327-328 | Shadowing a predeclared name breaks it: the hypothesis is needed. |
| `VacuousFloor.BuildFuncIndex` | internal/floors/checks.go:187-204 | Indexes every authored top-level function name, each to its last declaration. |
| `VacuousFloor.IndexUnique` | internal/floors/checks.go:187-204 | There is only one index of that kind. |
| `VacuousFloor.VacuousTestFloor` | internal/floors/checks.go:140-169 | Rejects exactly when some undeferred test with a body reaches no assertion, and names exactly those tests. |
| `VacuousFloor.ContainsWord` | internal/floors/checks.go:530-549 | True exactly when the marker stands somewhere as a whole word, overlapping occurrences included. |
| `GoAst.WalkFinds` | internal/floors/checks.go:233-255 | The inspection meets every node, at its path. |
| `GoAst.WalkOnly` | internal/floors/checks.go:233-255 | And meets nothing else. |
| `DiffTargets.ParseDiffTargets` | internal/runspace/patcher.go:228-293 | Accepts exactly the diffs with no unsupported or unprefixed header and a header in every git block, and then lists each file a header names once, in order of first mention. |
| `DiffTargets.EveryHeaderListed` | internal/runspace/patcher.go:218-227 | No file a header names escapes the list. |
| `DiffTargets.BlockNamesIff` | internal/runspace/patcher.go:218-227 | A git block of an accepted diff names a listed file if and only if one of its headers is not /dev/null. |
| `DiffTargets.NamelessBlockAccepted` | internal/runspace/patcher.go:258-272 | A block with /dev/null on both sides is accepted and names no file. |
| `PatchCommit.Checkout.Apply` | internal/runspace/patcher.go:60-151 | HEAD moves at most once, to exactly the diff applied to the previously committed tree, with every target approved; over any sequence of calls and disturbances the moves join up. |
| `PatchCommit.Checkout.Disturb` | internal/runspace/patcher.go:57-59 | Whatever happens to the work tree, the index and the contract between two calls, HEAD and its record of contained moves stand. |
| `PatchCommit.Checkout.Reset` | internal/runspace/patcher.go:153-170 | On success the index is HEAD, tracked files are as committed, and only ignored untracked files remain. |
| `PatchCommit.StagedIsPatched` | internal/runspace/patcher.go:172-184 | What is staged is the diff applied to the committed snapshot; residue never enters. |
| `PatchCommit.OutsideScopesUntouched` | internal/runspace/patcher.go:80-99 | Over any number of attempts, a path no approved scope named is in HEAD as at the start. |
| `PatchCommit.CommitDiffersOnTargets` | internal/runspace/patcher.go:172-184 | A committed tree differs from its parent only on its targets, and there as the diff says. |
| `Poller.Read` | internal/forge/conversation/github.go:104-146 | Returns the comments with a larger id, in order, and the newest id, or the input cursor when there is none. |
| `Poller.Poller.Tick` | internal/conversationchannel/poller.go:78-137 | Keeps every cursor covered by handled comments; cursors of active threads never decrease; afterwards only active threads have cursors; without faults every comment present at the start is handled. |
| `Poller.Poller.PollThread` | internal/conversationchannel/poller.go:95-128 | The cursor moves only past comments that were all handled without error. |
| `Poller.Advanced` | internal/conversationchannel/poller.go:112-127 | Advancing after a clean pass covers everything up to the new cursor. |
| `Poller.CursorsGrow` | internal/conversationchannel/poller.go:78-137 | Comments that arrive later, with larger ids, uncover no cursor. |
| `GroupWriter.Entity.Replace` | internal/graphown/writer.go:119-152 | The requests sent are exactly the logged ones, answered as the environment chose, each but the last retryable; the group ends as desired if one landed and untouched otherwise, as desired on success; the predicates of all other writers end as those writers left them. |
| `GroupWriter.RequestsBounded` | internal/graphown/writer.go:154-176 | At most four requests, which Replace ties to those sent; a revision conflict from the third on, a success or a bug-shaped error is the last. |
| `GroupWriter.ReconciledParts` | internal/graphown/writer.go:77-118 | A reconcile sets the group to desired and leaves the rest alone. |
| `Contracts.DeriveContracts` | internal/graphown/contracts.go:340-407 | Succeeds exactly on tables without a classification defect; then each Go-written predicate is in the contract of its writer and class, nothing else is in any, and each contract has the name of its owner, with the class when the owner has several. |
| `Contracts.GroupsAreDisjoint` | internal/graphown/contracts.go:25-44 | With unique names no predicate is in two contracts, and its contract belongs to its writer. |
| `Contracts.ContractFor` | internal/graphown/contracts.go:511-540 | Returns the name of the contract of the owner that claims the entity exactly when there is one and only one. |
| `Contracts.SharedNameIff` | internal/graphown/contracts.go:309-319 | Two derived contracts share a name if and only if a single-class owner is spelled as owner, dash and class suffix of a contract of a multi-class owner, or one owner claims two classes without a suffix. |
| `Contracts.NameIsolatesIff` | internal/graphown/writer.go:119-131 | A write is sent under a name; the contracts of that name hold predicates of its writer alone if and only if no other owner is spelled so. |
| `Contracts.NamesCanCollide` | internal/graphown/contracts.go:472-479 | Tables on which two owners get the same contract name. |
| `ContractWrites.WriteFacts` | internal/graphown/writer.go:119-152 | From choosing the contract to the replaced group: a write is sent exactly when one contract of the owner claims the entity and the group of its name holds what is written; where no other writer shares a contract name with the owner, every predicate another writer stamps ends as the interleaved writes left it. |
| `ContractWrites.SelectedIsOwn` | internal/graphown/writer.go:119-131 | A group selected by name then holds predicates of the owner alone. |
| `ResourceRegistry.NeverTwice` | internal/runspace/sandboxes.go:66-140 | In every interleaving each container or directory is in one slot, one call, gone or lost, never two; no teardown is attempted twice, whether it works or not, and none of something held. |
| `ResourceRegistry.NothingLeaks` | internal/runspace/sandboxes.go:66-140 | When all calls are done, every resource of a kind is in a slot or really gone, if and only if no teardown of one failed and, for sandboxes, no container failed to start after it was created. |
| `ResourceRegistry.WhereResourcesEnd` | internal/runspace/runspace.go:201-250 | When all calls are done, each resource is in a slot, really gone, or lost (a failed teardown or start), and only one of these. |
| `ResourceRegistry.TeardownCanLose` | internal/runspace/sandboxes.go:105-120 | A run in which a sandbox leaves its slot and its teardown fails: no slot, no call, not gone. |
| `ResourceRegistry.FailureKeepsEntries` | internal/runspace/runspace.go:195-227 | Over any run with any other calls in it: of a provisioning, copy or clone that fails at some step, every step leaves every slot as it finds it. |
| `ResourceRegistry.FailureCleansUp` | internal/runspace/runspace.go:195-227 | The failing step itself: a half-made checkout or clone is torn down, a container that does not start is lost, and nothing is made or gone. |
| `ResourceRegistry.StepMoves` | internal/runspace/runspace.go:277-361 | Each step moves a resource from one place to one place. |
| `IntakeWake.RecordThenWake` | internal/intake/component.go:438-496 | In every run with crashes and redelivery, each wake has its record, and an acknowledged, admitted, buildable event has its wake published or a run that carries its ref, perhaps an older one. |
| `IntakeWake.NoWakeIff` | internal/intake/component.go:451-463 | Such an event has no wake of its own if and only if it was acknowledged as a duplicate, a run with its ref having stood when it asked, and no publish request for it ever landed. |
| `IntakeWake.OlderRunHidesEvent` | internal/intake/component.go:451-463 | A run of that kind: an issue triggered again, a crash between record and wake, and a redelivery that takes the old run for its own. |
| `IntakeWake.RedeliveryIsSilent` | internal/intake/component.go:451-463 | Once a run carries the ref of a recorded event, deliveries from then on never publish its wake, and the wakes still to come are at most the handlers already past their check. |
| `IntakeWake.CrashIsRepaired` | internal/intake/component.go:438-470 | With the record written and no run yet, a fault-free redelivery publishes the wake. |
| `ShellScan.Scanner.Next` | internal/standards/gates.go:196-230 | The cursor advances as the pure unit reader does, the dangling backslash included. |
| `ShellScan.TopLevelSeparator` | internal/standards/gates.go:144-167 | Returns the first top-level separator of the pure fold. |
| `ShellScan.OnlySeparators` | internal/standards/gates.go:141-167 | Only the four separators are reported, never a double ampersand. |
| `ShellScan.SemicolonIsFlagged` | internal/standards/gates.go:141-167 | After any text that reads as complete, a semicolon is flagged whatever follows. |
| `ShellScan.QuotedIsData` | internal/standards/gates.go:196-220 | After complete text, quoted data the scan stays inside of, whole escapes in double quotes included, leaves the verdict to what follows. |
| `ShellScan.EnclosedIff` | internal/standards/gates.go:169-230 | A word in single or double quotes, backquotes or a command substitution is invisible to the rule, whatever follows, if and only if its own text, read from inside the opener, holds no separator and ends back at the top level. |
| `ShellScan.InsideIsData` | internal/standards/gates.go:211-229 | Data in a substitution or backquotes that the scan stays inside of, back at its level where the closer stands, is never flagged. |
| `ShellScan.SingleQuoteIff` | internal/standards/gates.go:211-214 | For single quotes that is: no single quote in the data. |
| `ShellScan.EscapedIff` | internal/standards/gates.go:200-220 | For double quotes and backquotes, on characters: every closer has an odd number of backslashes before it and the data ends in an even number. |
| `ShellScan.PlainSubstitutionIff` | internal/standards/gates.go:222-228 | For a substitution without quotes and escapes, on characters: closing parentheses never outrun the openings and equal them at the end. |
| `ShellScan.EscapedQuoteIsData` | internal/standards/gates.go:200-209 | An escaped quote does not end the quoted text, so the bar behind it is data. |
| `ShellScan.EscapedIsData` | internal/standards/gates.go:200-209 | A backslash makes the next character data, whatever it is. |
| `ShellScan.EscapedSemicolonIsData` | internal/standards/gates.go:203-209 | A dangling backslash before the semicolon: completeness is needed. |
| `ShellScan.NestedParensAreFlagged` | internal/standards/gates.go:222-228 | A subshell inside a substitution ends it early, so data after it is flagged. |
| `AttemptId.CodeInjective` | internal/floors/attempt.go:24-33 | The bytes fed to the hash determine the file and target lists. |
| `AttemptId.SameInputIff` | internal/floors/attempt.go:10-35 | With distinct paths they are equal if and only if both attempts have the same files and targets, in whatever order. |
| `AttemptId.HashInput` | internal/floors/attempt.go:19-33 | Returns the length-prefixed code of a sorted arrangement of exactly these files and targets. |
| `AttemptId.SortedUnique` | internal/floors/attempt.go:20-23 | A sorted list is fixed by its elements, so an unstable sort does not matter. |
| `DevTask.Project` | internal/devtask/project.go:103-137 | Succeeds exactly on non-empty, contiguous, complete task sets; then spec i is the trimmed and clamped image of the task with index i; on a schema failure lists exactly the incomplete tasks, in index order. |
| `DevTask.CheckIndices` | internal/devtask/project.go:143-155 | Accepts exactly the permutations of 0..n-1 and otherwise names a duplicated or out-of-range index. |
| `DevTask.InPlace` | internal/devtask/project.go:135-136 | n increasing indices in 0..n-1 each sit at their own position. |
| `DevTask.CompleteIff` | internal/devtask/project.go:159-194 | A task has no gap if and only if it is complete. |

## Left out

- Spec.Capability, which the caller fills from a path; warning texts (warnings are values).
- Case folding is exact only on characters that fold to ASCII letters; no other character
  can match a keyword or a section name.
- RenderChangeFolder and the file-system side of changes: input and output around the round
  trips proved here.
- Strings are sequences of characters; byte offsets, and lengths in `AttemptId`, are those
  of a sequence whose elements stand for bytes. `StandardsFile` counts UTF-8 bytes where the
  source bounds them.
- SHA-256, its truncation to twelve digits in source ids, and UUIDv5: identities are taken
  as injective functions of their content.
- ChangeGateSafety.EveryWriteJustified: states the acknowledged announcement, not the last
  one visible on the thread, because that is false of the code; LatestShownIff gives the
  exact condition.
- In the gate model a failing post may have landed, and so may a write request that failed
  with any kind but a revision conflict or an unavailable store; a landing is at the
  request, never later. A cancelled context is
  a crash of the dispatch. The missing-channel and malformed-envelope exits, comment bodies
  and counters are not modelled, nor is the bridge that stamps pending messages: its effect
  on the gate is the re-classification action.
- Authorization, run resolution and ref parsing are answers of the environment.
- Two syncs of different repos at the same time: faults interrupt a sync at any call, but
  no other writer runs inside one. Severity, detail and timestamps of a record, and the
  warning about the injection ceiling, are not modelled.
- Checks, proofs, null entries and the byte bound of a standards file: parsing starts from
  decoded entries and covers the declared standards.
- The syntax tree has the node kinds the floor looks at; every other kind is a node with
  children. Parsing Go is not part of this model. The offender list is not sorted.
- The other floors are short checks over the same tree.
- Git commands are steps on three trees; merges, modes, symbolic links and submodules are
  not modelled. git apply is taken to write exactly the files its headers name.
- Poller ids are unbounded integers, and the decimal text of a cursor is the integer itself.
- The mutation client, which resolves a contract name and rejects duplicate names at boot, is
  not part of this model; `WriteFacts` takes any contract of the name. The lesson-record
  mirror is one constant more.
- A failed teardown counts as having removed nothing, although it may have removed part.
- Contracts: the sorted order of contracts and of predicates inside one, and the pattern
  language (matching is a parameter).
- ReadOwnedPredicates: a filter and a sort.
- Resource registries are modelled on values, one step per lock or external call, to show
  interleavings; the mutex is the atomicity of a step. A crash of the process, which drops
  the in-memory maps, is not modelled.
- Intake normalisation, the repository binding and the HTTP receiver.
- ShellScan: comment stripping, line splitting and the vacuity rules, which are short case
  analyses over the same scanner.
- The order in which simultaneous defects are reported is the source's, but only the truth
  of the reported one is stated.
