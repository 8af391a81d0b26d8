# Verification of the ontology platform's registry core

This project models the part of the platform that decides what an ontology registry may contain and
how its three environments change, and proves properties of it in Dafny 4.11. It covers

- the registry, its six checkers with the three-colour cycle search, the referrer scan, and all edits
  (`Ontology`, `Formats`, `WellFormedness`, `Findings`, `ExtendsSearch`, `Checks`, `Validator`,
  `RefsScan`, `Crud`, `Effects`, `Merging`, `Diff`);
- the ingestion agent, its tools, and one job from queued to terminal (`Tools`, `Agent`, `Workers`);
- the versioned environments and everybody who writes them, one call at a time against arbitrary
  concurrent commits (`Store`, `Lifecycle`, `Writers`) and as runs of any number of interleaved
  clients (`Programs`, `History`, `RunLaws`, `Origins`, `Tags`, `LostUpdate`);
- the replaying event bus, its queues proved against logs and cursors, call by call and over whole
  runs (`BusModel`, `EventBus`, `BusRuns`);
- the index and projection rule of result masking (`Masking`).

`dafny verify dfyconfig.toml` checks everything.

## How it is modelled

- **Registries.** The five dictionaries are maps; an iteration over a dictionary visits the keys in
  any order, so results hold for every order. Object types and link types share one record `Entity`.
  Fields that no modelled code looks at are kept in `other`, so equality is equality of all fields.
  References are to map keys; a key and the rid inside its definition may differ.
- **Findings** are sets of tagged values instead of lists with message strings; only
  `MappingEmpty` is a warning.
- **Well-formedness** is stated without the checkers, over one reference relation (`HasEdge`) and one
  graph (`Extends`). `WellFormed` is every rule but connection existence, `Valid` adds that rule for
  a given set of connections.
- **Edits** (`put_*`, `delete_*`, `set_asset_mapping`, imports) are one type `Edit` with one
  specification `ApplyEdit`; `RunEdit` computes it with the modelled validator and scan. The editor
  tools and the agent's tools both use it. `Effects` says definition by definition what each edit
  does, without naming the functions that compute it.
- **Transactions.** Every load is a step of its own. The saves of one transaction commit together,
  each checking its expected version, because a save holds its row lock until the commit. An
  exception rolls the transaction back, as in `onto_platform/api_routes.py:123-142`. Methods with
  parameters like `c1`, `c2`, `others` or `during` take as such the commits of all other transactions
  at that point; `Carries` ties each of them to the program that the interleaved runs use.
- **The language model, cancellation and time-outs** are arbitrary functions of the step.
- **The event bus** runs each method as one atomic step, since putting on an unbounded queue never
  suspends; outstanding cleanup tasks are a list, and firing or cancelling one is a step.

## What the code does that one might not expect

- `undo_promote` takes the version tag for the sign of an empty slot. Only imports change a tag, so
  content edited in place is promoted with the empty tag and can never be restored
  (`Tags.UndoNeverAvailable`, `Examples.UndoRefusesAFullSlot`; the condition is
  `Programs.UndoRestoresIff`).
- In merge mode the final import overlays staging with the working registry, so an agent's deletes
  are undone (`Tools.MergeBringsBackDeleted`; the job imports what its agent left exactly under the
  condition of `Tools.MergeJobIsFaithfulIff`). What comes back can even make a valid working registry
  fail validation (`Examples.MergeJobCanFailValidation`): exactly if it does not agree with the
  categories and shared types the agent left, if a restored interface named by the empty string
  closes a cycle (`Merging.MergeIsWellFormedIff`), or if it is mapped to a connection that has been
  deleted since (`Tools.MergeJobImportsIff`). Then the job fails (`Workers.RunOneJob`).
- A decision is built after its call has run, and building it raises if the call's arguments are no
  object or count something without a length. The exception leaves the agent loop: no decision, no
  answer, the job fails as a provider error, and the call may have changed the working registry
  (`Examples.UnknownCallEndsRun`, `Examples.PutGoesUnrecorded`; the condition is `Agent.EndsWellIffSummarizable`).
- The class comment of `StaleStagingError` says that a chat rollback will not overwrite concurrent
  changes. The check is against a version loaded by the rollback itself, so it can
  (`LostUpdate.CancelLosesUpdate`). It discards another writer's commit exactly when staging has
  moved on from the version the session was created on by more than the imports of the session's
  own turns since (`RunLaws.CancelDiscardsForeignIff`; some commit, of anybody, exactly when it has
  moved on at all, `RunLaws.CancelDiscardsIff`).
- An editor call without `expected_version` can overwrite an edit made during the call
  (`LostUpdate.UnversionedEditLosesUpdate`), and so can one that names a version its first load had
  not reached; the condition is `RunLaws.EditSawWhatItReplacesIff`.
- The limit on sessions of a token is checked without a lock, so two calls that interleave can exceed
  it (`Writers.TwoCallsExceedTheLimit`; the condition is in `Writers.ChatSessions.CreateSession`).
- A closed turn whose single cleanup is cancelled or fires while somebody is subscribed is kept for
  ever (`BusModel.TurnsGetStranded`, `BusModel.StrandedForEver`; the condition is
  `BusModel.StrandedByIff`).
- The empty string is accepted in any list of references (`Examples.EmptyParentIsAccepted`).

## Model

| member | source | states |
|---|---|---|
| `Formats.ReferencesAreOccurrences` | `onto_platform/registry/checks/cross_property.py:6-15` | the scan for `{name}` references finds a name iff it occurs, skipping no occurrence |
| `Formats.RidIsSpelled` | `onto_platform/registry/checks/structural.py:7-10` | a rid has the format iff it is `ri.`, the prefix, a dot and a uuid, but for one final newline |
| `Formats.UuidIsGroups` | `onto_platform/registry/checks/structural.py:7-10` | a uuid is five groups of 8, 4, 4, 4 and 12 hexadecimal digits |
| `Formats.ApiNameIsWords` | `onto_platform/registry/checks/structural.py:11-11` | an api name is words of letters and digits joined by single underscores, the first starting with a letter |
| `Checks.CheckStructural` | `onto_platform/registry/checks/structural.py:23-61` | exactly the definitions and properties with a malformed rid or api name are reported |
| `Checks.StructuralFindings` | `onto_platform/registry/checks/structural.py:46-61` | silent iff every rid and api name has its kind's format |
| `Checks.DefinitionsByKind` | `onto_platform/registry/checks/structural.py:14-55` | of each of the five kinds exactly the definitions whose rid does not have that kind's prefix, or whose api name is malformed, are reported |
| `Checks.PropertiesReported` | `onto_platform/registry/checks/structural.py:56-61` | the same for properties of object and link types, with the prefix `prop` |
| `Checks.OnePrefix` | `onto_platform/registry/checks/structural.py:38-42` | no rid suits two kinds |
| `Checks.CheckRefs` | `onto_platform/registry/checks/refs.py:32-104` | reports exactly the dangling edges of the declarative reference relation, and exactly the primary keys that name no property of their own entity |
| `Checks.NoReferenceFindings` | `onto_platform/registry/checks/refs.py:6-104` | silent iff no edge dangles and all primary keys are local |
| `Checks.CheckOne` | `onto_platform/registry/checks/property_backing.py:6-34` | one property gets a finding iff it breaks the backing rule: no backing, two backings, or a type mismatch that giving it one backing would not cure |
| `Checks.BackingFindings` | `onto_platform/registry/checks/property_backing.py:37-45` | exactly the properties that break the rule are reported, whatever entity they belong to; silent iff none does |
| `Checks.CheckAssetMapping` | `onto_platform/registry/checks/asset_mapping.py:10-31` | warnings for exactly the empty mappings, errors for exactly the unknown read connections |
| `Checks.MappingFindings` | `onto_platform/registry/checks/asset_mapping.py:11-23` | the early return for empty mappings never hides a missing connection: errors iff some read connection is unknown |
| `Checks.CheckCrossProperty` | `onto_platform/registry/checks/cross_property.py:9-30` | reports exactly the references that are no property name of their entity |
| `Checks.CrossPropertyFindings` | `onto_platform/registry/checks/cross_property.py:9-22` | silent iff every rule of every entity resolves |
| `CycleSearch.ExtendsSearch.Visit` | `onto_platform/registry/checks/interface_category.py:50-70` | terminates; keeps the stack, the colours and genuine findings; an unseen node ends up done; done nodes are ranked but for the closing edges of reported cycles |
| `CycleSearch.ExtendsSearch.ReportCycle` | `onto_platform/registry/checks/interface_category.py:51-59` | whatever was reported before, a walk is added that is closed, genuine, passes through no interface twice and ends with the edge just taken |
| `CycleSearch.ExtendsSearch.VisitParents` | `onto_platform/registry/checks/interface_category.py:64-68` | afterwards every registered parent is done, or the edge to it closes a reported cycle |
| `CycleSearch.ExtendsSearch.Enter` | `onto_platform/registry/checks/interface_category.py:62-63` | an unseen node becomes the top of the stack with colour 1 |
| `CycleSearch.ExtendsSearch.Finish` | `onto_platform/registry/checks/interface_category.py:69-70` | the top of the stack is popped with colour 2 and ranked after its parents, but for reported closing edges |
| `CycleSearch.WalkDescends` | `onto_platform/registry/checks/interface_category.py:47-74` | along any walk through no reported closing edge the finishing rank only falls |
| `CycleSearch.EveryCycleIsReported` | `onto_platform/registry/checks/interface_category.py:47-74` | completeness: every closed walk, of any length, takes the closing edge of some reported cycle |
| `CycleSearch.FinishingOrderIsAcyclic` | `onto_platform/registry/checks/interface_category.py:47-74` | a finishing order of all interfaces excludes cycles of any length |
| `CycleSearch.FindCycles` | `onto_platform/registry/checks/interface_category.py:48-74` | for every iteration order: all interfaces end done; findings are genuine cycles and no cycle goes unreported; a silent run yields a topological rank |
| `Validator.CheckOneInterface` | `onto_platform/registry/checks/interface_category.py:10-45` | for one interface, exactly the category defects of rules 1 and 2 |
| `Validator.CheckInterfaceCategory` | `onto_platform/registry/checks/interface_category.py:7-74` | rules 1 and 2 exactly, rule 3 with genuine cycles only and none unreported |
| `Validator.Validate` | `onto_platform/registry/validator.py:41-51` | an ERROR finding iff the registry breaks one of the declarative rules; the findings are those of all six checkers, none lost to another |
| `Validator.ChainsEndWell` | `onto_platform/registry/checks/interface_category.py:36-74` | in a registry without errors every chain of parents stays registered, keeps a valid category and never returns; only the empty name may be unregistered |
| `RefsScan.ScanObject` | `onto_platform/registry/refs_scan.py:21-31` | every mention of the target inside one object type, each once |
| `RefsScan.ScanLink` | `onto_platform/registry/refs_scan.py:34-47` | every mention inside one link type, each once |
| `RefsScan.ScanEndpoints` | `onto_platform/registry/refs_scan.py:35-40` | exactly the endpoint fields that name the target |
| `RefsScan.ScanInterface` | `onto_platform/registry/refs_scan.py:50-56` | every mention inside one interface |
| `RefsScan.ScanAction` | `onto_platform/registry/refs_scan.py:59-68` | every mention inside one action type, each once |
| `RefsScan.FindReferrers` | `onto_platform/registry/refs_scan.py:17-70` | without duplicates, exactly the edges to the target and the object properties whose rid it is |
| `Crud.ValidateOrRaise` | `onto_platform/registry/crud.py:37-41` | passes a candidate on iff it is valid |
| `Crud.RunEdit` | `onto_platform/registry/crud.py:50-154` | the validator and the scan together compute what each edit is specified to return or raise |
| `Effects.EditDoes` | `onto_platform/registry/crud.py:28-154` | each edit has exactly one candidate, described definition by definition, and returns it or the error of its guard; only a mapping for an unknown key has none |
| `Effects.AcceptedMerge` | `onto_platform/registry/imports.py:20-32` | an accepted merge has the incoming tag unless it is empty, whatever the keys; incoming definitions win and all others stay |
| `Crud.SetMappingChangesOneMapping` | `onto_platform/registry/crud.py:135-154` | only the mapping of one entity changes, an object type before a link type of the same key; it fails iff neither exists |
| `Crud.SubRegistryWellFormed` | `onto_platform/registry/crud.py:60-132` | dropping definitions from a well-formed registry can break nothing but references |
| `Crud.RemovalIsSafeIff` | `onto_platform/registry/crud.py:60-132` | exactly when removing a definition keeps a registry well-formed |
| `Crud.DeleteKeepsValid` | `onto_platform/registry/crud.py:44-47` | the delete guard suffices although delete never validates: no referrers means all rules still hold |
| `Crud.ActionsAreNeverReferenced` | `onto_platform/registry/crud.py:128-132` | removing an action type is always safe, also where the guard refuses |
| `Crud.EditKeepsValid` | `onto_platform/registry/crud.py:50-154` | every successful edit of a valid registry is valid, every successful edit of a well-formed one well-formed |
| `Merging.MergeIsWellFormedIff` | `onto_platform/registry/imports.py:18-32` | the merge of two well-formed registries is well-formed iff what the base adds agrees in categories and inherited types with the incoming one and closes no cycle by the empty name |
| `Merging.MergeImportsIff` | `onto_platform/registry/imports.py:11-32` | a merge import is accepted iff moreover all mapped connections are registered |
| `Merging.MergedReferences` | `onto_platform/registry/imports.py:20-28` | merging never leaves a reference dangling |
| `Merging.MergedCategories` | `onto_platform/registry/imports.py:20-28` | the merged extends graph has one category per chain iff the restored interfaces agree with their parents and new children |
| `Merging.MergedCycles` | `onto_platform/registry/imports.py:20-28` | the merged extends graph is acyclic iff no interface gains as a parent one that descends from it |
| `Merging.MergedBackings` | `onto_platform/registry/imports.py:20-28` | all inherited types match iff those of restored entities match the incoming shared types |
| `Crud.OverlayAbsorbsIff` | `onto_platform/registry/imports.py:20-28` | overlaying gives the incoming registry itself iff it has all base keys and does not drop the version tag |
| `Diff.DiffMaps` | `onto_platform/registry/diff.py:25-35` | added, removed and modified of one kind, exactly |
| `Diff.ComputeDiff` | `onto_platform/registry/diff.py:16-36` | the same for all five kinds |
| `Diff.PatchRoundTrip` | `onto_platform/registry/diff.py:16-36` | applying the diff to production's maps gives staging's |
| `Diff.EmptyIffSame` | `onto_platform/registry/diff.py:16-36` | nothing is reported iff the five maps agree |
| `Diff.SwapDiff` | `onto_platform/registry/diff.py:16-36` | a result is the diff of the swapped registries iff for every kind it swaps added with removed and the two sides of each change |
| `Tools.DispatchObeys` | `onto_platform/ingestion/tools.py:116-202` | each tool by its name: a put stores its definition under its own rid, a delete forgets one key of its kind, a mapping call sets that mapping, an import replaces or merges as its mode says, validate changes nothing; refused or undecodable calls fail and change nothing |
| `Tools.DispatchAgentCall` | `onto_platform/ingestion/tools.py:116-202` | one call does what its tool is for, and a failing call leaves the working registry unchanged |
| `Tools.CallsKeepValid` | `onto_platform/ingestion/working_ops.py:18-63` | no sequence of calls makes a valid working registry invalid |
| `Tools.ReplaceJobAlwaysImports` | `onto_platform/ingestion/workers.py:132-148` | a replace-mode job's final import never fails validation |
| `Tools.WorkingKeysGrow` | `onto_platform/ingestion/working_ops.py:18-63` | if the successful calls only add, keys and tag of the base are kept |
| `Tools.MergeJobImportsWorkingRegistry` | `onto_platform/ingestion/workers.py:203-210` | such a merge-mode job from valid staging imports exactly its working registry |
| `Tools.MergeJobImportsIff` | `onto_platform/ingestion/workers.py:203-257` | exactly when the final import of a merge-mode job passes validation; connections only matter if staging names a deleted one |
| `Tools.MergeJobIsFaithfulIff` | `onto_platform/ingestion/workers.py:203-210` | exactly when a merge-mode job imports the registry its agent left behind |
| `Tools.MergeBringsBackDeleted` | `onto_platform/registry/imports.py:20-28` | a merge-mode import restores whatever the agent deleted, under the base's definition |
| `Examples.MergeJobCanFailValidation` | `onto_platform/ingestion/workers.py:235-257` | concrete job: both calls succeed, the working registry is valid, its merge is refused |
| `Examples.EmptyParentIsAccepted` | `onto_platform/registry/checks/refs.py:16-17` | concrete registry: an empty parent name passes validation |
| `Agent.SummarizeArgs` | `onto_platform/ingestion/agent.py:45-72` | counts the entries of a `registry` argument; raises iff the arguments are no object or something counted has no length |
| `Agent.DispatchOne` | `onto_platform/ingestion/agent.py:128-165` | the call runs first; a decision and an answer follow iff its arguments can be summarized |
| `Agent.RunTurn` | `onto_platform/ingestion/agent.py:125-165` | calls run in order until one is cancelled or cannot be summarized; those before it have one answer and one decision each |
| `Agent.RunAgent` | `onto_platform/ingestion/agent.py:75-167` | at most `max_steps` completions; however the run ends, result, decisions, the whole conversation and the working registry are those of the calls that ran; the token is looked at before each completion and each call, and the run is cancelled exactly when it is found cancelled |
| `Agent.DecisionAt` | `onto_platform/ingestion/agent.py:132-165` | decision i is the tool, summary, outcome and reason of recorded call i, and answer i names the call and its outcome |
| `Agent.AnswersDecideTheEnd` | `onto_platform/ingestion/agent.py:83-167` | without cancellation and client errors: finished iff a reply without calls comes within the cap, raised iff a reply with an unsummarizable call does, each before the other; cap exceeded iff all replies within it are busy |
| `Agent.EndsWellIffSummarizable` | `onto_platform/ingestion/agent.py:83-167` | such a run finishes or reaches the cap iff every call that ran can be summarized; however a run ends, exactly then every call has its decision |
| `Examples.UnknownCallEndsRun` | `onto_platform/ingestion/agent.py:141-151` | concrete call of an unknown tool with a list for arguments: the run ends there, without a decision |
| `Examples.PutGoesUnrecorded` | `onto_platform/ingestion/agent.py:132-162` | concrete put whose arguments hold a registry with null interfaces: the run ends there without a decision, but the action type is in the working registry |
| `Workers.Extract` | `onto_platform/ingestion/workers.py:77-119` | the first upload that fails ends the job with its own status and code |
| `Workers.ImportPhase` | `onto_platform/ingestion/workers.py:196-290` | validation failure before staleness before import; staging and version are written only on import |
| `Workers.AgentAndImport` | `onto_platform/ingestion/workers.py:121-290` | the agent run is one the model's replies allow; it decides status, code, rows and report, against any commits in between; validation fails only in merge mode, iff what comes back does not agree with the working registry |
| `Workers.RunOneJob` | `onto_platform/ingestion/workers.py:50-290` | the status moves strictly forward to a terminal one; staging changes iff the job ends imported, and then by one version; each status, code and progress stands for the failing upload, or for the end of the agent or import, that it is meant for |
| `Workers.JobCarriesProgram` | `onto_platform/ingestion/workers.py:203-218` | the job's commit is the commit of the interleaved program |
| `Store.RegistryStore.Save` | `onto_platform/registry/store.py:45-79` | next version and new payload, or nothing changed and the current version reported |
| `Store.VersionTellsWrites` | `onto_platform/registry/store.py:60-79` | a row's version is unchanged iff nobody wrote the row, and then so is the payload |
| `Store.CommitTwo` | `onto_platform/registry/store.py:56-79` | two saves of one transaction go through iff both expected versions are current |
| `Lifecycle.PromoteStagingToProduction` | `onto_platform/registry/lifecycle.py:8-31` | commits iff staging was valid and the two rows were not written meanwhile; previous_production gets what production held |
| `Lifecycle.RevertStagingToProduction` | `onto_platform/registry/lifecycle.py:34-45` | commits iff staging was not written meanwhile; staging gets production's payload as read |
| `Lifecycle.UndoPromote` | `onto_platform/registry/lifecycle.py:52-69` | refuses iff the tag read is the empty one; commits iff the rows were not written meanwhile; moves the slot into production |
| `Writers.EditTool` | `onto_platform/mcp_tools_editor.py:48-114` | edits the staging loaded first, saves against the caller's version or the second load; reports the edit's own error, or the version it found |
| `Writers.ChatSessions.CreateSession` | `onto_platform/chat/orchestrator.py:70-98` | refuses iff the count is at the limit; stores staging's payload and version as loaded, whatever is committed before the insert; the limit holds afterwards iff there was still room at the insert |
| `Writers.TwoCallsExceedTheLimit` | `onto_platform/chat/orchestrator.py:71-98` | concrete interleaving: limit one, both calls count no session, two sessions are active afterwards |
| `Writers.ChatSessions.CancelSession` | `onto_platform/chat/orchestrator.py:169-209` | restores the pre-session payload iff staging is not written between its own load and save, whatever happened before |
| `Programs.PlanIsWellFormed` | `onto_platform/registry/lifecycle.py:19-69` | from well-formed loads every writer only saves well-formed registries |
| `Programs.UndoRestoresIff` | `onto_platform/registry/lifecycle.py:52-69` | promote then undo restores production iff its tag was not the empty one |
| `History.NothingBlocks` | `onto_platform/registry/store.py:33-43` | in the interleaved runs any client may start any program and load at any time, whatever others are doing |
| `History.CallsAreCommits` | `onto_platform/registry/store.py:45-79` | a call proved to carry out a program is a commit of the interleaved runs, enabled iff the call succeeds, with the same effect |
| `History.CommitLogs` | `onto_platform/registry/store.py:62-79` | a commit appends its payloads to the history of their environments |
| `History.RunInv` | `onto_platform/registry/store.py:33-79` | every snapshot in every reachable state is what its version held |
| `RunLaws.CheckedLoadIsCurrent` | `onto_platform/registry/store.py:60-62` | a passing version check means the payload loaded earlier is still current |
| `RunLaws.StepRaisesByOne` | `onto_platform/registry/store.py:63-78` | no step moves a version by more than one, and a payload changes only with its version |
| `RunLaws.ReachableIsWellFormed` | `onto_platform/registry/lifecycle.py:8-69` | in every reachable state all environments, stored snapshots and loaded snapshots are well-formed |
| `RunLaws.VersionDeterminesPayload` | `onto_platform/registry/store.py:45-79` | over a whole run environment and version determine the payload |
| `RunLaws.JobsLoseNoUpdate` | `onto_platform/ingestion/workers.py:122-218` | just before a job commits, staging is the snapshot it started from; the new payload is the import into it |
| `RunLaws.OneJobPerVersion` | `onto_platform/ingestion/workers.py:211-218` | of the jobs that read one version at most one commits |
| `RunLaws.EditSawWhatItReplacesIff` | `onto_platform/mcp_tools_editor.py:48-114` | a committed editor call has edited the payload it replaces iff the version it names was reached at its first load, or, naming none, its two loads saw one version |
| `RunLaws.CancelLaw` | `onto_platform/chat/orchestrator.py:179-208` | a committed cancel puts back exactly what staging held at the version the session was created on |
| `Origins.LoadWasRead` | `onto_platform/registry/store.py:33-43` | every snapshot a client holds is the row as it was at a load step of that client |
| `Origins.SessionsStay` | `onto_platform/chat/orchestrator.py:84-206` | sessions come and go only by creation, cancel and save, and otherwise stay as they are |
| `Origins.OpenedOnItsLoad` | `onto_platform/chat/orchestrator.py:82-98` | a session is opened on the payload and version staging had when its client loaded it |
| `Origins.SessionWasOpened` | `onto_platform/chat/orchestrator.py:82-98` | every session is as its last opening left it |
| `Origins.CancelRestoresOpening` | `onto_platform/chat/orchestrator.py:179-206` | a committed cancel puts back what staging held when the client that opened the session loaded it |
| `Origins.PromoteInstallsItsRead` | `onto_platform/registry/lifecycle.py:19-31` | a committed promote installs exactly what staging held at its own read |
| `Origins.RevertLaw` | `onto_platform/registry/lifecycle.py:34-45` | a committed revert puts into staging what production held at its own read, and changes nothing else |
| `RunLaws.CancelDiscardsIff` | `onto_platform/chat/orchestrator.py:190-200` | it discards later commits, of anybody, iff staging has moved on from that version, which the call fetches and never compares |
| `RunLaws.OneWritePerVersion` | `onto_platform/registry/store.py:60-79` | over a whole run, the commits of staging after a version are as many as the versions since |
| `RunLaws.CancelDiscardsForeignIff` | `onto_platform/chat/orchestrator.py:179-303` | a committed cancel discards another writer's commit iff staging has moved on by more versions than the session's own turns imported |
| `RunLaws.PromoteLaw` | `onto_platform/registry/lifecycle.py:19-31` | a committed promote saves production's payload and installs an earlier, validated staging payload |
| `RunLaws.UndoLaw` | `onto_platform/registry/lifecycle.py:58-69` | a committed undo moves the slot into production and empties it |
| `RunLaws.PromoteBetweenUndos` | `onto_platform/registry/lifecycle.py:52-69` | between two successful undos something was promoted |
| `RunLaws.UndoGivesBackProduction` | `onto_platform/registry/lifecycle.py:8-69` | an undo after a promote, with other writers in between, restores production's payload |
| `Tags.UndoNeverAvailable` | `onto_platform/registry/lifecycle.py:58-60` | in a run whose imports bring no tag of their own, undo never succeeds, whatever was promoted |
| `Examples.UndoRefusesAFullSlot` | `onto_platform/registry/lifecycle.py:58-60` | concrete run: the slot holds an action type and undo refuses |
| `LostUpdate.UnversionedEditLosesUpdate` | `onto_platform/mcp_tools_editor.py:54-60` | concrete run: an editor call without a version overwrites an edit it never saw |
| `LostUpdate.CancelLosesUpdate` | `onto_platform/chat/orchestrator.py:190-206` | concrete run: an edit committed after a session was created is gone after its cancel |
| `BusModel.ClosedLogIsFinal` | `onto_platform/chat/sse.py:71-84` | in any run that retains a closed turn, no publish, close or subscription reopens it or changes its log |
| `BusModel.RunConsistent` | `onto_platform/chat/sse.py:49-102` | in every run at most one cleanup per turn is outstanding, always for a retained closed turn |
| `BusModel.SeenIsPrefix` | `onto_platform/chat/sse.py:49-79` | whenever it joined, what a subscriber has seen is the log up to its cursor, without loss or duplicates |
| `BusModel.DrainedSawEverything` | `onto_platform/chat/sse.py:49-90` | a subscriber that reaches the end of a closed turn has seen the whole log |
| `BusModel.CleanupDropsIff` | `onto_platform/chat/sse.py:92-102` | a cleanup drops its turn iff nobody is subscribed when it fires |
| `BusModel.StrandedByIff` | `onto_platform/chat/sse.py:81-102` | a turn becomes stranded exactly by the end of its cleanup task, cancelled or finding a subscriber |
| `BusModel.TurnsGetStranded` | `onto_platform/chat/sse.py:92-102` | concrete runs from the empty bus that strand a turn, with a subscriber and without |
| `BusModel.StrandedForEver` | `onto_platform/chat/sse.py:81-102` | a closed turn without a cleanup task is kept, buffer and all, in any continuation |
| `EventBuses.Subscription.Replay` | `onto_platform/chat/sse.py:51-58` | after replay the queue is the buffer, with the sentinel iff the turn is closed |
| `EventBuses.TurnState.Publish` | `onto_platform/chat/sse.py:76-79` | buffer and all queues grow by the event; every subscriber stays in step |
| `EventBuses.TurnState.Close` | `onto_platform/chat/sse.py:85-87` | one sentinel into every queue; every subscriber stays in step |
| `EventBuses.TurnState.Finish` | `onto_platform/chat/sse.py:63-69` | the subscriber that meets the sentinel has yielded the whole buffer and is taken off the list |
| `EventBuses.EventBus.Subscribe` | `onto_platform/chat/sse.py:49-60` | does to the logs and cursors what BusModel.Subscribe does, and adds nothing but a new subscriber and, on first use, a new turn state |
| `EventBuses.EventBus.Publish` | `onto_platform/chat/sse.py:71-79` | does what BusModel.Publish does, for open, closed and unknown turns, and adds at most a new turn state |
| `EventBuses.EventBus.Close` | `onto_platform/chat/sse.py:81-90` | does what BusModel.Close does and schedules one cleanup |
| `EventBuses.EventBus.Receive` | `onto_platform/chat/sse.py:62-69` | yields what the model's cursor points at, or ends after the whole buffer |
| `EventBuses.EventBus.Leave` | `onto_platform/chat/sse.py:67-69` | a generator closed early is taken off its turn |
| `EventBuses.EventBus.WaitsIff` | `onto_platform/chat/sse.py:63-63` | a subscriber waits iff the model has nothing for it |
| `EventBuses.EventBus.CleanupFires` | `onto_platform/chat/sse.py:92-102` | drops the very state it was scheduled for, and only without subscribers |
| `EventBuses.EventBus.CleanupCancelled` | `onto_platform/chat/sse.py:93-96` | a cancelled cleanup keeps the turn |
| `BusRuns.Play` | `onto_platform/chat/sse.py:49-102` | one move of a publisher, subscriber or cleanup task is carried out iff the model allows it, as the model's step, and hands out exactly what the model does |
| `BusRuns.NothingSeen` | `onto_platform/chat/sse.py:49-69` | a subscriber that has not joined has been handed nothing |
| `BusRuns.RunBus` | `onto_platform/chat/sse.py:40-102` | any moves in any order from a new bus: its queues end up as the model's run, and everybody has yielded exactly what the model's subscriber has seen |
| `Masking.BuildPhysicalToPropertyIndex` | `onto_platform/connections/masking.py:30-55` | every bound column is indexed with one of its properties, none more sensitive |
| `Masking.Highest` | `onto_platform/connections/masking.py:58-62` | a most sensitive property of the list, or none iff the list is empty |
| `Masking.HighestIsFirst` | `onto_platform/connections/masking.py:58-62` | of equally sensitive properties the first one wins |
| `Masking.SourcesByLevel` | `onto_platform/connections/masking.py:108-114` | the columns of an expression come level by level |
| `Masking.SourcesAreLeaves` | `onto_platform/connections/masking.py:108-114` | the traversal finds exactly the columns of the expression |
| `Masking.ProjectionIsAsSensitiveAsItsSources` | `onto_platform/connections/masking.py:86-106` | a projection is resolved iff a bound column occurs in it, and is as sensitive as the most sensitive of them |
| `Masking.LevelsRise` | `onto_platform/connections/masking.py:12-18` | unspecified, public, internal, confidential and restricted rise in this order |
| `Masking.NoLevelIsLost` | `onto_platform/connections/masking.py:86-106` | a result has at least the level of every source, restricted if one is; without known sources it has the least level and no mask; its name stays |

## Left out

- Order and multiplicity of findings, their messages and paths: a set of tagged findings decides validity.
- `link_requirements`, `object_constraint` and `edited_object_types` as references: neither scanner follows them.
- Decoding of arguments and payloads (pydantic, JSON, JSONB): a decoded value or its absence is an input, and storing is the identity. Tool names are constructors.
- Python's recursion limit in the nested `visit`, and unexpected exceptions of the database, also where it refuses a report after the import has been committed.
- The MCP error path that commits after an exception (`onto_platform/mcp_server.py:184-196`): no atomicity is claimed for it.
- Connection existence as an invariant of runs: undo and chat cancel can restore payloads that name a connection deleted since.
- `start_turn`, `save_session`'s row update and the row locks on chat sessions: the runs let a job belong to any session, and a session be saved or cancelled at any time, which allows more than the locks do.
- Terminal job statuses under outside writers of the job row: MCP cancel writes it directly.
- `IngestionWorker`'s task table, phase messages and error details; of the summary of tool arguments only what can raise and the entry counts.
- A `rid` argument that is no string: it acts like a string that no definition uses.
- Deadlocks between promote and undo, which lock the two rows in opposite order: the database aborts one of them, which the runs cover as a client that drops out.
- The command `restore-registry` and the scripts, which write registries without validation.
- The SSE heartbeat loop, HTTP and MCP routing, authentication, audit, the UI, extractors, the LLM client and the Neo4j sync.
- SQL parsing and `apply_mask`: a projection is an expression tree with column leaves.
