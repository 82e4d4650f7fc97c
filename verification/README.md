# ProjecTree data pipeline: verified model

A Dafny 4.11 model of the parts of the Python data pipeline that have to stay
right under concurrency, retries and undo, with proofs of what they promise.
`dafny verify dfyconfig.toml` checks everything.

- **Project graph** (`GraphModel`, `GraphResolve`, `GraphMerge`, `GraphDelete`,
  `GraphRelations`, `GraphView`, `GraphRuns`, `GraphSamples`, `UserDelete`). Nodes with a
  structural parent and a merge redirect, merge operations with an undo log,
  relations. `GraphModel.Inv` is the invariant; each transaction is a function
  from graph to result, proved to keep it; `GraphRuns` closes over every run.
- **Automatic application** (`Evidence`, `AutoPlan`, `AutoApply`, `AutoPhases`,
  `AutoTheorems`, `AutoCommit`, `AutoLedger`, `AutoDecisions`, `AutoLinks`,
  `AutoFolds`, `AutoExact`, `AutoAccepts`). Any plan, applied in three phases; the
  committed graph is characterized row by row and relation by relation.
- **Stored graph** (`GraphStore`). The same transactions as methods that change
  rows in place, each proved equal to its function.
- **Command inbox** (`CommandInbox`, `InboxExact`, `Text`). At-least-once commands with one
  effect each, graph versions, snapshots and Result events.
- **Leased work** (`Claiming`, `AnalysisJobs`, `JobsExact`, `Outbox`, `OutboxExact`,
  `MeetingJoin`, `JoinExact`, `AnalysisRuns`, `RunsExact`). Transition systems over arbitrary interleavings and crashes.
- **Algorithms** (`PlanOrder`, `TermRewriting`, `OffsetMap`, `Compaction`,
  `JsonDump`).

A database transaction is one atomic step and a raised error is a rollback.
Claim tokens, new row ids and operation ids are fresh values that the caller
supplies; time is an integer that does not go back; SHA-256 is injective, so a
payload hash is represented by the payload. Answers of ordered queries and the
outcome of foreign calls are parameters, constrained only as the database
guarantees them.

## What the proofs found

- `delete_relation` on a child that was merged away while it had a parent writes
  a merge pointer on an UNATTACHED row, which the table's shape constraint
  refuses: `GraphRelations.DeleteRelationRefusedIff` gives the exact condition, `GraphSamples` a run that
  reaches it.
- The older `user_graph.delete_node` removes one level of merged sources only
  and can leave live rows pointing at deleted ones: `UserDelete` has the exact
  condition, `GraphSamples` a run that reaches it.
- A planned Decision whose action is MERGE without a target stays UNATTACHED;
  otherwise every planned Decision ends ACTIVE or MERGED.
- Once a run has merged something into a Decision, a later merge of the same run
  passes its version gate with any older expected version
  (`AutoDecisions.TurnVersionOk`); Actions and Issues are gated before the first
  fold and have no such gap.
- The preparation gates of a dependent merge do not look at state or category of
  the target's root, so a target that is no longer ACTIVE makes the whole apply
  fail (`AutoAccepts.PlannedMergeAcceptedIff`).
- A coordinator that dies between recording the last outcome and the finish step
  leaves its command PROCESSING for good (`MeetingJoin.StuckForever`).
- The apply order of a plan depends on the order of its commands when two ready
  commands share a sort key, as they do with the schema's default keys.
- A replayed delete answers without the node versions its first answer had.
- `mark_analysis_run_completed` can never complete a run in the worker flow.

## Model

| member | source | states |
|---|---|---|
| GraphResolve.ResolveExactly | data-pipeline/data_pipeline/pipeline/graph.py:82-147 | On every graph with a sound merge forest the walk returns the root exactly when it is at most 127 pointers away; its only errors are an unknown node, a dead or foreign node, a kind the caller did not expect, and the hop limit, so the cycle, stray-pointer, missing-target, cross-project, dangling and unavailable exits are unreachable |
| GraphResolve.ResolveOk | data-pipeline/data_pipeline/pipeline/graph.py:57-147 | A successful resolution yields a live, unmerged ACTIVE or UNATTACHED node of the same project and kind |
| GraphResolve.HintAgreesUpToFive | data-pipeline/data_pipeline/pipeline/parent_hint.py:58-84 | The parent-hint walk returns the same root as the full walk up to five pointers and None beyond |
| GraphResolve.HintExactly | data-pipeline/data_pipeline/pipeline/parent_hint.py:58-84 | On any stored graph the hint of a node is y exactly when at most five redirects, all inside the project and the kind, lead from it to y and y has none |
| GraphStore.Store.ResolveCanonicalNode | data-pipeline/data_pipeline/pipeline/graph.py:82-147 | The hop loop with its visited set computes the walk that ResolveExactly is about, on any stored rows |
| GraphStore.Store.HintCanonicalNode | data-pipeline/data_pipeline/pipeline/parent_hint.py:58-84 | The hint loop computes the walk that HintAgreesUpToFive is about |
| GraphMerge.MergeAcceptedIff | data-pipeline/data_pipeline/pipeline/graph.py:251-317 | The exact inputs on which a logical merge is accepted: no other guard can refuse it |
| GraphMerge.MergeRoots | data-pipeline/data_pipeline/pipeline/graph.py:342-346 | After merging s into root r, the nodes whose root was s have root r and every other root is unchanged |
| GraphMerge.MergeKeepsInv | data-pipeline/data_pipeline/pipeline/graph.py:251-399 | A merge keeps the forest, the operation log, the dependency log, parents and relations sound |
| GraphMerge.AtMostOneDependent | data-pipeline/data_pipeline/pipeline/graph.py:431-446 | At most one APPLIED operation depends on a given operation |
| GraphMerge.NoDependentMeansRoot | data-pipeline/data_pipeline/pipeline/graph.py:319-334 | An APPLIED operation of a live source without an APPLIED dependent points at a current root |
| GraphMerge.UnmergeAcceptedIff | data-pipeline/data_pipeline/pipeline/graph.py:402-487 | The exact inputs on which an undo is accepted |
| GraphMerge.UnmergeRoots | data-pipeline/data_pipeline/pipeline/graph.py:494-503 | An accepted undo gives the source as root to exactly the nodes whose chain passes through it and changes no other root |
| GraphMerge.UnmergeKeepsInv | data-pipeline/data_pipeline/pipeline/graph.py:402-529 | An undo keeps the whole graph invariant |
| GraphMerge.MergeThenUnmerge | data-pipeline/data_pipeline/pipeline/graph.py:251-529 | Undoing a merge that was just applied always succeeds and restores states, pointers and every root |
| GraphMerge.MergeExactly | data-pipeline/data_pipeline/pipeline/graph.py:336-398 | Row by row: an accepted merge redirects the source to the root of the target and keeps its text, parent and flag; one APPLIED operation is logged with requested and resolved target, both versions and the original state, depending on exactly the APPLIED operations merged into the source; nothing else changes |
| GraphMerge.UndoExactly | data-pipeline/data_pipeline/pipeline/graph.py:488-516 | Field by field: an accepted undo gives the source its original state back without redirect, one version on, by the user, flagged exactly if it already was or the target version is not the one the merge saw; only that row and the status of the operation change |
| GraphRuns.UndoAfterRun | data-pipeline/data_pipeline/pipeline/graph.py:402-529 | Merge, any transactions whatever, then undo: if accepted, the source is what it was before the merge, two versions on, and flagged exactly if it already was or the version of the target moved since the merge |
| GraphRuns.RunKeepsLog | data-pipeline/data_pipeline/pipeline/graph.py:402-529 | No transaction loses a logged operation or changes more of it than APPLIED to REVERTED, over every run |
| GraphRuns.StepKeepsMergedRow | data-pipeline/data_pipeline/pipeline/graph.py:251-529 | While its operation stays APPLIED, the row of a merged source is touched by no transaction but a delete |
| GraphStore.Store.ApplyLogicalMerge | data-pipeline/data_pipeline/pipeline/graph.py:251-399 | The in-place merge with its dependency loop equals the merge function, and a refusal leaves every row as it was |
| GraphStore.Store.UnmergeOperation | data-pipeline/data_pipeline/pipeline/graph.py:402-529 | The in-place undo equals the undo function, and a refusal leaves every row as it was |
| GraphView.ListCanonicalRelations | data-pipeline/data_pipeline/pipeline/graph.py:150-196 | The listing fails only past the hop limit; otherwise its keys are the quotient of the open relations, each once, never a self-loop, each entry reading its own row |
| GraphView.MergeView | data-pipeline/data_pipeline/pipeline/graph.py:150-196 | After merging s into t the keys are the old ones with s replaced by the root of t, minus self-loops, RELATED_TO being unordered |
| GraphDelete.Saturate | data-pipeline/data_pipeline/meeting_analysis/node_deletes.py:298-336 | The delete closure is the least set that contains the seeds and is closed under live children and live merge sources, on any stored graph |
| GraphDelete.EffectiveDeleteClosure | data-pipeline/data_pipeline/meeting_analysis/node_deletes.py:298-336 | The frontier loop ends even on cyclic pointers and, with the seeds, gives that least set |
| GraphDelete.DeleteAcceptedIff | data-pipeline/data_pipeline/meeting_analysis/node_deletes.py:339-371 | On every stored graph both dangling-reference checks pass: only a dead, unknown or foreign seed is refused |
| GraphDelete.DeleteExactly | data-pipeline/data_pipeline/meeting_analysis/node_deletes.py:374-462 | From any graph whose live rows refer only to live rows: exactly the closure dies, pointerless, with its text kept, a last revision by the member over the evidence it had and one version more, exactly its open relations close, all else is untouched, and nothing live refers to a deleted node |
| GraphDelete.DeleteKeepsInv | data-pipeline/data_pipeline/meeting_analysis/node_deletes.py:557-596 | A delete keeps the whole graph invariant |
| GraphStore.Store.ExpireRelations | data-pipeline/data_pipeline/meeting_analysis/node_deletes.py:374-387 | The loop closes exactly the open relations of the project that touch the set |
| GraphStore.Store.LogicallyDelete | data-pipeline/data_pipeline/meeting_analysis/node_deletes.py:390-462 | The loop turns exactly the members of the set into pointerless DELETED rows with one more version |
| GraphStore.Store.ProcessNodeDelete | data-pipeline/data_pipeline/meeting_analysis/node_deletes.py:517-596 | The in-place delete equals the delete function and reports the closure |
| UserDelete.DeleteOneDanglesIff | data-pipeline/data_pipeline/pipeline/user_graph.py:639-807 | The older single-node delete leaves no dangling reference exactly when no source merged into the node is itself a target or parent and no live MERGED row has the node as parent |
| UserDelete.DeleteOneKeepsInv | data-pipeline/data_pipeline/pipeline/user_graph.py:639-807 | Where one level is enough, the older delete keeps the whole graph invariant |
| UserDelete.DeleteOneAcceptedIff | data-pipeline/data_pipeline/pipeline/user_graph.py:639-700 | The exact inputs on which the older delete is accepted; a node already deleted is left as it is |
| UserDelete.DeleteOneExactly | data-pipeline/data_pipeline/pipeline/user_graph.py:700-790 | The node and the sources merged directly into it die, the sources without pointers, the node with its parent pointer left behind; the open relations that touch them close, nothing else changes |
| GraphSamples.DeleteOneCanDangle | data-pipeline/data_pipeline/pipeline/user_graph.py:639-807 | A run of three creates and two merges from the empty graph, after which the older delete leaves a live node that no longer resolves |
| GraphRelations.CanonicalParentRank | data-pipeline/data_pipeline/contracts/enums.py:212-255 | A live node's parent, read through merges, is live and ranks strictly lower (Decision < Action < Issue) |
| GraphRelations.ClimbIsShort | data-pipeline/data_pipeline/api/graph_services.py:289-309 | The ancestor walk ends within two steps and its "contains a cycle" exit is unreachable |
| GraphRelations.AttachAcceptedIff | data-pipeline/data_pipeline/api/graph_services.py:253-352 | The exact inputs on which ATTACHED_TO is accepted, the ancestor walk replaced by its closed form: the new parent has no parent, or one within the hop limit and of the child's category; the cycle error is never the reason for refusal |
| GraphRelations.AttachKeepsRelations | data-pipeline/data_pipeline/api/graph_services.py:310-325 | After an attachment the child has exactly one open ATTACHED_TO |
| GraphRelations.CreateRelationKeepsInv | data-pipeline/data_pipeline/api/graph_services.py:379-434 | Creating a relation keeps the graph invariant |
| GraphRelations.ReplaceRelationKeepsInv | data-pipeline/data_pipeline/api/graph_services.py:437-502 | Replacing a relation keeps the graph invariant |
| GraphRelations.DeleteRelationRefusedIff | data-pipeline/data_pipeline/api/graph_services.py:505-575 | Removing an open relation is refused exactly when it attaches a MERGED child that still has a parent |
| GraphSamples.AttachmentCanBeStuck | data-pipeline/data_pipeline/api/graph_services.py:505-575 | A run that attaches an Action, merges it away and then cannot remove the open relation |
| GraphRelations.DeleteRelationKeepsInv | data-pipeline/data_pipeline/api/graph_services.py:505-575 | Removing a relation keeps the graph invariant |
| GraphRelations.PlainAcceptedIff | data-pipeline/data_pipeline/api/graph_services.py:253-288 | A relation other than ATTACHED_TO is accepted exactly from a live unmerged source to another live node within reach |
| GraphRelations.PlainExactly | data-pipeline/data_pipeline/api/graph_services.py:326-376 | It opens exactly its own row, RELATED_TO from the smaller id, and changes nothing else |
| GraphRelations.AttachExactly | data-pipeline/data_pipeline/api/graph_services.py:289-352 | An accepted attachment puts the child ACTIVE and unflagged under the root of the target, one version on, opens the row to the target itself and closes every other attachment of the child |
| GraphRelations.CreateExactly | data-pipeline/data_pipeline/api/graph_services.py:379-434 | Creating is that edit behind a check of both nodes and both versions |
| GraphRelations.ReplaceExactly | data-pipeline/data_pipeline/api/graph_services.py:437-502 | Replacing closes the old row and opens the new one of the same source; no other plain relation is touched |
| GraphRelations.DetachExactly | data-pipeline/data_pipeline/api/graph_services.py:505-575 | An accepted removal closes exactly the given row; an attached child with a parent becomes UNATTACHED, flagged, one version on |
| GraphStore.Store.ClimbAncestors | data-pipeline/data_pipeline/api/graph_services.py:289-309 | The ancestor while-loop computes the climb that ClimbIsShort is about |
| GraphStore.Store.UpsertRelation | data-pipeline/data_pipeline/api/graph_services.py:253-376 | The in-place relation write equals the relation function |
| GraphStore.Store.RemoveRelation | data-pipeline/data_pipeline/api/graph_services.py:505-575 | The in-place removal equals the removal function |
| Evidence.DedupKeys | data-pipeline/data_pipeline/pipeline/automatic_graph.py:1549-1557 | Deduplication loses and invents no evidence key and leaves none twice |
| Evidence.DedupKeepsFirst | data-pipeline/data_pipeline/pipeline/automatic_graph.py:1549-1557 | What survives is exactly the first spec of each key |
| Evidence.DeduplicateEvidenceSpecs | data-pipeline/data_pipeline/pipeline/automatic_graph.py:1549-1557 | The dictionary loop computes that deduplication |
| AutoCommit.ApplyKeepsInv | data-pipeline/data_pipeline/pipeline/automatic_graph.py:1962-2223 | Applying any plan to any sound graph leaves a sound graph; replaying a published run changes nothing |
| AutoCommit.GuardsAreDead | data-pipeline/data_pipeline/pipeline/automatic_graph.py:1570-1593 | On no plan can the "UNATTACHED leaf", "must not have children", partial-merge or merge-chain corruption guards fire |
| AutoCommit.ApplyOutcomes | data-pipeline/data_pipeline/pipeline/automatic_graph.py:2045-2223 | At commit every planned Decision is ACTIVE or MERGED unless it asked to merge without a target, in which case it is UNATTACHED; every planned Action or Issue is ACTIVE under an ACTIVE legal parent of its category, MERGED into an ACTIVE node of its kind and category, or UNATTACHED without a parent |
| AutoCommit.UntargetedDecisionStays | data-pipeline/data_pipeline/pipeline/automatic_graph.py:2100-2117 | A one-item plan that commits with an UNATTACHED Decision |
| AutoCommit.ApplyVersions | data-pipeline/data_pipeline/pipeline/automatic_graph.py:1788-1888 | Every applied Action or Issue merge was planned into a node its retrieval found; into a stored node, it points at the root that node had at transaction start, whose version then was the planned one |
| AutoCommit.ApplyVersionsAll | data-pipeline/data_pipeline/pipeline/automatic_graph.py:1788-1888 | When retrieval found stored nodes only, this covers every applied Action or Issue merge |
| AutoCommit.StoredVersion | data-pipeline/data_pipeline/pipeline/automatic_graph.py:1663-1680 | Before a run publishes, the same-run exception of the version check admits nothing |
| AutoCommit.ApplyConserves | data-pipeline/data_pipeline/pipeline/automatic_graph.py:1891-1959 | After commit the evidence keys of every row are its own and those of all planned nodes merged into it, each once, and a row last written by a USER keeps title and content |
| AutoExact.DecisionsExactly | data-pipeline/data_pipeline/pipeline/automatic_graph.py:1683-1769 | At commit a planned Decision is MERGED, into the root of its target, exactly when it asks to, the version of the target at its turn admits it, the target is stored or an earlier Decision of the plan, and the root is ACTIVE and of its category; otherwise ACTIVE, or UNATTACHED if it named no target |
| AutoExact.DependentsExactlyPlaced | data-pipeline/data_pipeline/pipeline/automatic_graph.py:2119-2210 | At commit a planned Action or Issue is ACTIVE exactly when its ATTACHED_TO link passed the version gate and its target stands for an ACTIVE legal parent of its category, and then under exactly that root; MERGED exactly when its merge passed every gate, and then into the root of its target; otherwise UNATTACHED |
| AutoExact.RelationsExactly | data-pipeline/data_pipeline/pipeline/automatic_graph.py:2160-2210 | At commit exactly these relations are open: those open before, and one per link that passed, to the original target, RELATED_TO from the smaller id |
| AutoExact.StoredRowsExactly | data-pipeline/data_pipeline/pipeline/automatic_graph.py:1594-1660 | A stored row at commit: same place; one version more per planned node merged into it, the first revision of a row without one being free; with none the same row, otherwise authored by the run with the text of the last merge unless a user wrote it last |
| AutoExact.PlannedRowsExactly | data-pipeline/data_pipeline/pipeline/automatic_graph.py:2045-2098 | A planned row at commit: its candidate, version 1 plus one per node merged into it and one if itself merged, authored by the run |
| AutoExact.RowsAreStoredOrPlanned | data-pipeline/data_pipeline/pipeline/automatic_graph.py:2045-2098 | An apply adds exactly the planned rows, all of them new |
| AutoExact.ApplyKeepsLogged | data-pipeline/data_pipeline/pipeline/automatic_graph.py:1962-2223 | An apply changes and loses no operation already in the log |
| AutoFolds.DependentsExactly | data-pipeline/data_pipeline/pipeline/automatic_graph.py:1788-1959 | The dependent phase, against its start: exactly the Actions and Issues whose preparation and Decision-parent gates pass are merged, in group and transcript order, and Decisions and relations do not change |
| AutoAccepts.SoundPlanCommits | data-pipeline/data_pipeline/pipeline/automatic_graph.py:1962-2223 | Every plan that fits the graph commits: new ids, titled and evidenced candidates, live targets within reach, merges that suggestion and retrieval back |
| AutoAccepts.PlannedMergeAcceptedIff | data-pipeline/data_pipeline/pipeline/automatic_graph.py:1560-1660 | The exact inputs on which a planned merge of a waiting item is applied |
| AutoAccepts.InsertAcceptedIff | data-pipeline/data_pipeline/pipeline/automatic_graph.py:2045-2080 | The inserts succeed exactly when every id is new and used once and every candidate has a title and evidence |
| AutoTheorems.DecisionPhaseKeeps | data-pipeline/data_pipeline/pipeline/automatic_graph.py:2100-2117 | After the Decision phase all earlier Decisions are settled, no stored Action or Issue has changed, and no dead guard was the reason of a failure |
| AutoTheorems.LinkPhaseKeeps | data-pipeline/data_pipeline/pipeline/automatic_graph.py:2119-2210 | After the link phase every linked item is placed or downgraded, waiting merges are untouched, and no stored Action or Issue has a new version |
| AutoPlan.MergeOrder | data-pipeline/data_pipeline/pipeline/automatic_graph.py:1799-1808 | Dependent merges are visited in transcript order, each exactly once |
| GraphStore.Store.ApplyGraphMutationPlan | data-pipeline/data_pipeline/pipeline/automatic_graph.py:1962-2223 | The phases in place equal the function the commit theorems are about, and an error brings every row back |
| GraphStore.Store.InsertSources | data-pipeline/data_pipeline/pipeline/automatic_graph.py:2045-2098 | The insert loop writes one row per source, in place, as the insert phase says |
| GraphStore.Store.ApplyPlannedLogicalMerge | data-pipeline/data_pipeline/pipeline/automatic_graph.py:1560-1660 | The guards, the merged revision of the target and the redirect of the source, written in place |
| GraphStore.Store.DecideOne | data-pipeline/data_pipeline/pipeline/automatic_graph.py:1683-1769 | One Decision activated, downgraded in its plan item, or merged, in place |
| GraphStore.Store.DecidePlanned | data-pipeline/data_pipeline/pipeline/automatic_graph.py:2100-2117 | The Decision loop over nodes and plan items gives the Decision phase |
| GraphStore.Store.LinkOne | data-pipeline/data_pipeline/pipeline/automatic_graph.py:2122-2210 | One link attached, related or downgraded in its plan item, in place |
| GraphStore.Store.LinkPlanned | data-pipeline/data_pipeline/pipeline/automatic_graph.py:2119-2210 | The link loop over nodes, relations and plan items gives the link phase |
| GraphStore.Store.PrepareOne | data-pipeline/data_pipeline/pipeline/automatic_graph.py:1809-1888 | One dependent merge kept as a group member or downgraded in its plan item |
| GraphStore.Store.PrepareGroups | data-pipeline/data_pipeline/pipeline/automatic_graph.py:1788-1888 | The preparation loop touches plan items only, before the first fold |
| GraphStore.Store.GateMembers | data-pipeline/data_pipeline/pipeline/automatic_graph.py:1907-1947 | The gate loop keeps the members whose Decision parent matches the target |
| GraphStore.Store.FoldGroup | data-pipeline/data_pipeline/pipeline/automatic_graph.py:1949-1958 | The fold loop merges the accepted members in place |
| GraphStore.Store.FoldDependents | data-pipeline/data_pipeline/pipeline/automatic_graph.py:1891-1959 | Preparing and folding all groups in ascending target order, in place |
| GraphRuns.StepKeepsInv | data-pipeline/data_pipeline/pipeline/user_graph.py:310-386 | Every transaction (create, edit, merge, remerge, undo, closure delete, single delete where one level is enough, relation edits, automatic apply) keeps the graph invariant |
| GraphRuns.RunKeepsInv | data-pipeline/data_pipeline/pipeline/user_graph.py:810-974 | So does every run of them, in any order |
| GraphRuns.ReachableGraphs | data-pipeline/data_pipeline/pipeline/graph.py:82-147 | In every reachable graph each live MERGED node has exactly one APPLIED operation, whose resolved target is its pointer; merge pointers lead to a live unmerged node of the same project and kind; parents rank strictly lower |
| GraphRuns.CreateExactly | data-pipeline/data_pipeline/pipeline/user_graph.py:310-386 | A created node: version 1, by the user, no pointers, a Decision ACTIVE and anything else UNATTACHED, its one evidence the assertion |
| GraphRuns.EditExactly | data-pipeline/data_pipeline/pipeline/user_graph.py:111-307 | A text edit is accepted exactly for a live unmerged node with a revision to carry on; it stores the given text under the name of the member over the evidence the row had |
| GraphRuns.UserMergeAcceptedIff | data-pipeline/data_pipeline/pipeline/user_graph.py:810-891 | The exact inputs on which a user merge is accepted, versions included |
| GraphRuns.RemergeExactly | data-pipeline/data_pipeline/pipeline/user_graph.py:894-974 | Repeating an APPLIED operation changes nothing; repeating a reverted one merges its source into what its requested target stands for now, accepted exactly under the merge conditions |
| CommandInbox.ExactlyOnce | data-pipeline/data_pipeline/meeting_analysis/node_updates.py:330-576 | For every sequence of deliveries with repeats, conflicting payloads, crashes and other writers in between, the final state is that of the first non-crashing delivery of each command id |
| CommandInbox.ReplayRepeatsAnswer | data-pipeline/data_pipeline/meeting_analysis/node_updates.py:123-181 | Redelivering a command at any later time changes nothing and repeats status, failure code, graph version, Result event, deleted nodes and, for an update, node versions; a replayed delete reports no node versions |
| CommandInbox.DeleteReportsVersions | data-pipeline/data_pipeline/meeting_analysis/node_deletes.py:182-192 | An accepted delete always reported node versions, so its replay always says less |
| CommandInbox.RowsAreFinal | data-pipeline/data_pipeline/meeting_analysis/node_updates.py:655-706 | An inbox row, its snapshot artifact and its Result events are written once |
| CommandInbox.RunKeepsInbox | data-pipeline/data_pipeline/pipeline/event_contract.py:197-275 | Over every run graph-change versions of a project are exactly 1..n with the version row absent exactly while n = 0, the graph stays sound, and each finished command has exactly the Result events its row calls for |
| CommandInbox.BatchAllOrNothing | data-pipeline/data_pipeline/meeting_analysis/node_updates.py:844-1081 | A batch is applied exactly when every item passes every check and brings a new title; then every title lands and no content changes |
| CommandInbox.ChangeStepsVersions | data-pipeline/data_pipeline/meeting_analysis/node_updates.py:924-985 | An accepted command steps the version of each node it touches by one and leaves every other node alone |
| CommandInbox.ParsedNeverAborts | data-pipeline/data_pipeline/meeting_analysis/contracts.py:164-402 | On stored titles that are not blank a parsed command is always answered: nothing raises |
| InboxExact.UpdateExactly | data-pipeline/data_pipeline/meeting_analysis/node_updates.py:369-500 | A single update changes its node exactly when it is live, unmerged, of the project, at the expected version, with a revision to carry on, and something given differs; then exactly the given text is stored, the stripped title and the content, an absent one kept, with author and evidence; it does nothing exactly when nothing differs; each rejection code has its condition |
| InboxExact.BatchExactly | data-pipeline/data_pipeline/meeting_analysis/node_updates.py:844-1081 | A batch is applied exactly when every item passes and brings a new title; then every named row has its stripped title under the name of the member and nothing else changes; otherwise the code and node are those of the first item at fault |
| InboxExact.DeleteDecided | data-pipeline/data_pipeline/meeting_analysis/node_deletes.py:517-596 | A delete is refused for a stale graph version, then a dead or unknown seed, then a foreign one; otherwise it is the closure delete |
| InboxExact.AcceptedExactly | data-pipeline/data_pipeline/meeting_analysis/node_updates.py:500-576 | A first delivery that commits a change: row, number, artifact with exactly the live nodes of the project, event and answer with the new versions of exactly the nodes named or deleted |
| InboxExact.RefusedExactly | data-pipeline/data_pipeline/meeting_analysis/node_updates.py:184-207 | A first delivery that is refused stores only its row and the event of its kind; a single update and an oversized delete have none |
| InboxExact.NothingExactly | data-pipeline/data_pipeline/meeting_analysis/node_updates.py:433-452 | An update that brings nothing is COMPLETED without number and event and answers the stored version |
| InboxExact.StripExactly | data-pipeline/data_pipeline/meeting_analysis/node_updates.py:431-432 | Stripping removes white space at both ends and nothing else |
| CommandInbox.ChangeKeepsInv | data-pipeline/data_pipeline/meeting_analysis/node_deletes.py:465-617 | An accepted command keeps the graph invariant and stripped, non-blank titles |
| CommandInbox.Inbox.LockProjectGraphState | data-pipeline/data_pipeline/pipeline/event_contract.py:197-237 | The lock reports the version, absence being 0, and says whether it made the row |
| CommandInbox.Inbox.ReleaseUnmutatedGraphState | data-pipeline/data_pipeline/pipeline/event_contract.py:240-246 | The release drops the row exactly when it is at 0 |
| CommandInbox.Inbox.BumpGraphVersion | data-pipeline/data_pipeline/pipeline/event_contract.py:249-275 | The bump makes the next version |
| CommandInbox.Inbox.StageProjectGraphChanged | data-pipeline/data_pipeline/meeting_analysis/result_events.py:85-149 | One bump, one artifact and one event carry the same version |
| CommandInbox.Inbox.BatchPreflight | data-pipeline/data_pipeline/meeting_analysis/node_updates.py:844-921 | The validation loop reports the first failing item and its code |
| CommandInbox.Inbox.ApplyBatch | data-pipeline/data_pipeline/meeting_analysis/node_updates.py:924-985 | The mutation loop applies the items in order |
| CommandInbox.Inbox.ProcessNodeContentUpdate | data-pipeline/data_pipeline/meeting_analysis/node_updates.py:330-576 | The transaction, with lock, release, rollback and second failure transaction, equals the delivery function |
| CommandInbox.Inbox.ProcessNodeContentBatchUpdate | data-pipeline/data_pipeline/meeting_analysis/node_updates.py:988-1111 | Likewise for a batch |
| CommandInbox.Inbox.ProcessNodeDelete | data-pipeline/data_pipeline/meeting_analysis/node_deletes.py:465-645 | Likewise for a delete |
| Claiming.BackoffBounds | data-pipeline/data_pipeline/jobs/claiming.py:29-35 | Retry delays never shrink with the attempt count, never exceed an hour, and reach it exactly from attempt 12 on |
| AnalysisJobs.SkipIsDead | data-pipeline/data_pipeline/jobs/analysis_jobs.py:129-133 | With a fixed timeout every RUNNING row inside the claim window is already stale |
| AnalysisJobs.ClaimTakesEarliest | data-pipeline/data_pipeline/jobs/analysis_jobs.py:118-157 | A claim takes a row that sorts first among all claimable rows not held by another transaction, and takes nothing only when there is none |
| AnalysisJobs.LeaseHonoured | data-pipeline/data_pipeline/jobs/analysis_jobs.py:118-146 | A second claim of a job that nothing has ended or revived comes no earlier than the timeout |
| AnalysisJobs.OutcomeFollowsItsClaim | data-pipeline/data_pipeline/jobs/analysis_jobs.py:250-259 | An outcome belongs to a claim of the same job and token, with no other event of that job in between |
| AnalysisJobs.OneOutcomePerToken | data-pipeline/data_pipeline/jobs/analysis_jobs.py:165-247 | A claim token records at most one outcome |
| AnalysisJobs.WorkersAreSafe | data-pipeline/data_pipeline/jobs/analysis_jobs.py:42-259 | Over every run of workers: leases are honoured, only the latest token owns a job, and since its last enqueue a job was retried at most max_attempts - 1 times |
| JobsExact.EnqueueExactly | data-pipeline/data_pipeline/jobs/analysis_jobs.py:42-105 | When an enqueue is accepted, and the row it adds or revives field by field |
| JobsExact.ClaimExactly | data-pipeline/data_pipeline/jobs/analysis_jobs.py:108-162 | A claim takes exactly the first due row no other transaction holds: RUNNING under the token from now, one attempt more, not due before the timeout; otherwise nothing changes |
| JobsExact.CompleteExactly | data-pipeline/data_pipeline/jobs/analysis_jobs.py:165-202 | Completion by the owner leaves SUCCEEDED without an owner; by anybody else nothing changes |
| JobsExact.FailExactly | data-pipeline/data_pipeline/jobs/analysis_jobs.py:205-247 | A failure reported by the owner: PENDING after the delay for the attempts made exactly when it is retryable and attempts are left, otherwise FAILED |
| JobsExact.DelayHonoured | data-pipeline/data_pipeline/jobs/analysis_jobs.py:205-247 | Over every run, a job to be retried is not claimed before its delay has passed, unless it is enqueued anew |
| JobsExact.NeverStranded | data-pipeline/data_pipeline/jobs/analysis_jobs.py:118-146 | An unfinished job of any run is due once the timeout and the longest delay have passed |
| AnalysisJobs.Table.EnqueueAnalysisJob | data-pipeline/data_pipeline/jobs/analysis_jobs.py:42-105 | Adding or reviving the one row of a node |
| AnalysisJobs.Table.ClaimNextAnalysisJob | data-pipeline/data_pipeline/jobs/analysis_jobs.py:108-162 | The claim loop settles on the first row it does not skip and leases it |
| AnalysisJobs.Table.CompleteAnalysisJob | data-pipeline/data_pipeline/jobs/analysis_jobs.py:165-202 | Only the owner completes |
| AnalysisJobs.Table.FailAnalysisJob | data-pipeline/data_pipeline/jobs/analysis_jobs.py:205-247 | Only the owner fails; the job waits for its delay or ends FAILED |
| Outbox.RunKeeps | data-pipeline/data_pipeline/jobs/outbox.py:366-523 | The relay invariant holds over every interleaving of publishers, crashes included |
| Outbox.StatusMeaning | data-pipeline/data_pipeline/jobs/outbox.py:447-523 | PUBLISHED implies that the transport accepted the event; waiting and publishing rows have attempts below max_attempts; a row is DEAD exactly when it has max_attempts recorded failures |
| Outbox.SettledForever | data-pipeline/data_pipeline/jobs/outbox.py:447-523 | PUBLISHED and DEAD rows never change again |
| OutboxExact.LeaseHonoured | data-pipeline/data_pipeline/jobs/outbox.py:388-415 | After a claim, whatever all publishers do, the event is not claimed again before the stall time has passed unless an outcome was recorded for it first |
| OutboxExact.LeasesApart | data-pipeline/data_pipeline/jobs/outbox.py:366-444 | In every run two claims of one event with no recorded outcome between them are at least the stall time apart |
| OutboxExact.DelayHonoured | data-pipeline/data_pipeline/jobs/outbox.py:484-523 | After a failure that is to be retried no run claims the event before its delay has passed |
| OutboxExact.NeverStranded | data-pipeline/data_pipeline/jobs/outbox.py:366-444 | However publishers died, an unsettled event of any run is due once the stall time and the longest delay have passed |
| OutboxExact.BatchExactly | data-pipeline/data_pipeline/jobs/outbox.py:388-403 | A batch takes due, unlocked events only, in order of due time and age, and leaves one out only when it is full, and then nothing later |
| OutboxExact.ClaimExactly | data-pipeline/data_pipeline/jobs/outbox.py:404-415 | A batch claim takes exactly its events, each under its own token and not due before the stall time, and leaves all other rows alone |
| OutboxExact.SuccessExactly | data-pipeline/data_pipeline/jobs/outbox.py:447-481 | A success under a held claim publishes the row and counts the attempt; otherwise nothing changes |
| OutboxExact.FailureExactly | data-pipeline/data_pipeline/jobs/outbox.py:484-523 | A failure under a held claim counts the attempt: DEAD exactly when that reaches the limit, otherwise waiting until the delay for that many attempts |
| Outbox.ForeignRunKeepsTally | data-pipeline/data_pipeline/jobs/outbox.py:447-523 | No run of other publishers records an outcome under one call's tokens |
| Outbox.Publisher.MarkSuccess | data-pipeline/data_pipeline/jobs/outbox.py:447-481 | Only the holder of the claim records success |
| Outbox.Publisher.MarkFailure | data-pipeline/data_pipeline/jobs/outbox.py:484-523 | Only the holder records a failure; the last allowed one makes the row DEAD |
| Outbox.Publisher.PublishPendingEvents | data-pipeline/data_pipeline/jobs/outbox.py:366-444 | However others interleave, the counters are exactly the outcomes committed under the call's tokens, and published + failed + dead never exceeds claimed |
| MeetingJoin.ArrivalOrderIrrelevant | data-pipeline/data_pipeline/meeting_analysis/persistence.py:76-248 | Command and recording give the same READY rows in either order, and redelivering either changes nothing |
| MeetingJoin.CoordinatorIsSafe | data-pipeline/data_pipeline/meeting_analysis/coordinator.py:166-375 | Over every interleaving, crash and stale reclaim: COMPLETED implies all tasks terminal; a task is SUCCEEDED or FAILED exactly when it got its one outcome of that sort, and is retried at most twice; the stored failure events name a task at most once, only when it is FAILED, and exactly when that failure asked for emission; an unfinished task of a joined meeting is READY or claimed PROCESSING under a selectable command and recording |
| MeetingJoin.EventCommitsWithFailure | data-pipeline/data_pipeline/meeting_analysis/coordinator.py:286-338 | A failure event commits in exactly the step that turns its task FAILED with emission requested; FAILED is never left |
| MeetingJoin.NeverStranded | data-pipeline/data_pipeline/meeting_analysis/coordinator.py:166-237 | Once the claim timeout has passed, a joined meeting with an unfinished task can be claimed |
| MeetingJoin.ClaimRespectsLease | data-pipeline/data_pipeline/meeting_analysis/coordinator.py:200-222 | A claim takes a PROCESSING task only after its timeout and never a terminal one |
| MeetingJoin.StuckForever | data-pipeline/data_pipeline/meeting_analysis/coordinator.py:340-375 | When the last outcome is recorded and no coordinator reaches the finish step, the command stays PROCESSING over every later run |
| MeetingJoin.StuckIsReachable | data-pipeline/data_pipeline/meeting_analysis/coordinator.py:262-284 | A run of four transactions from empty tables that ends there |
| MeetingJoin.FinishCompletesIff | data-pipeline/data_pipeline/meeting_analysis/coordinator.py:340-375 | The finish step completes exactly when all tasks are terminal |
| JoinExact.FailExactly | data-pipeline/data_pipeline/meeting_analysis/coordinator.py:286-338 | A failure under a held claim: FAILED exactly when it is not retryable or three attempts were made, READY otherwise, token and start time cleared, attempts and the other task kept, an event exactly when final and asked for |
| JoinExact.FailureIsFinalIff | data-pipeline/data_pipeline/meeting_analysis/coordinator.py:286-338 | A failure the holder records as not retryable, or on the third attempt, leaves the task FAILED over every run; any other leaves it READY and the room claimable |
| JoinExact.SucceedExactly | data-pipeline/data_pipeline/meeting_analysis/coordinator.py:262-284 | A success under a held claim ends the task SUCCEEDED without an event; otherwise nothing changes |
| JoinExact.ClaimExactly | data-pipeline/data_pipeline/meeting_analysis/coordinator.py:166-237 | A claim takes exactly the due tasks of a room with work, under one token from now, one attempt more each, and both inputs become PROCESSING |
| JoinExact.FinishExactly | data-pipeline/data_pipeline/meeting_analysis/coordinator.py:340-375 | COMPLETED once every task is terminal, READY while one is READY, otherwise as it was |
| JoinExact.CommandExactly | data-pipeline/data_pipeline/meeting_analysis/persistence.py:178-248 | A new command with a waiting recording makes both READY and its tasks READY, without one all wait; a repeat or conflict changes nothing |
| JoinExact.RecordingExactly | data-pipeline/data_pipeline/meeting_analysis/persistence.py:110-175 | A new recording with a waiting command makes both READY and every waiting task READY, without one it waits; a repeat or conflict changes nothing |
| MeetingJoin.Coordinator.JoinRoom | data-pipeline/data_pipeline/meeting_analysis/persistence.py:76-107 | The join loop readies both inputs and exactly the waiting tasks |
| MeetingJoin.Coordinator.PersistRecordingReady | data-pipeline/data_pipeline/meeting_analysis/persistence.py:110-175 | Storing a recording equals the recording step |
| MeetingJoin.Coordinator.PersistAnalysisCommand | data-pipeline/data_pipeline/meeting_analysis/persistence.py:178-248 | Storing a command with its two tasks equals the command step |
| MeetingJoin.Coordinator.ClaimReady | data-pipeline/data_pipeline/meeting_analysis/coordinator.py:166-237 | The scan claims the first listed command that has work, and claims nothing only when none has |
| MeetingJoin.Coordinator.RecordSuccess | data-pipeline/data_pipeline/meeting_analysis/coordinator.py:262-284 | Only the claim holder records success |
| MeetingJoin.Coordinator.RecordFailure | data-pipeline/data_pipeline/meeting_analysis/coordinator.py:286-338 | Only the claim holder records failure; the event is staged with the FAILED status |
| MeetingJoin.Coordinator.FinishInputsIfTerminal | data-pipeline/data_pipeline/meeting_analysis/coordinator.py:340-375 | The finish transaction equals the finish step |
| AnalysisRuns.RunsAreSafe | data-pipeline/data_pipeline/pipeline/analysis.py:223-392 | In every reachable state two live runs of a node are one run, its current one; the provider was called at most once per run; a COMPLETED run has no retrievals, a skipped model and no candidate, or one result and one candidate; attempts per (node, version, hash) are 1..k, each once |
| AnalysisRuns.ReanalyzeKeeps | data-pipeline/data_pipeline/pipeline/analysis.py:223-392 | A request is refused only for an unknown, attached or changed node: no transition guard ever stops it |
| AnalysisRuns.NodeGuardIsDead | data-pipeline/data_pipeline/pipeline/analysis.py:153-162 | When a current run's own transition is legal, the node's is: that guard never fires |
| AnalysisRuns.CallsOnceIff | data-pipeline/data_pipeline/pipeline/recommendation.py:334-402 | The provider is called exactly when a current RUNNING run with retrieval rows has not called it yet; the retry-after-failure branch is dead |
| AnalysisRuns.MarkCompletedIsIdle | data-pipeline/data_pipeline/pipeline/analysis.py:559-732 | The explicit completion never completes a run: both model endings complete it in their own transaction |
| RunsExact.NodeTableByTarget | data-pipeline/data_pipeline/pipeline/analysis.py:153-162 | From which statuses a node may become each status: analysis starts only from PENDING, ends only from ANALYZING, and STALE is reachable from all |
| RunsExact.RunTableByTarget | data-pipeline/data_pipeline/pipeline/analysis.py:174-185 | From which statuses a run may become each status: FAILED and SUPERSEDED are final, nothing returns to PENDING |
| RunsExact.EditExactly | data-pipeline/data_pipeline/meeting_analysis/node_updates.py:311-327 | A changed text leaves the node STALE without a hash and its live run SUPERSEDED, so none stays live; an unchanged one leaves the analysis alone; the version steps either way |
| RunsExact.RequestExactly | data-pipeline/data_pipeline/pipeline/analysis.py:223-392 | A request is accepted exactly for an unattached node at the expected version; it keeps a keepable current run, and otherwise supersedes it and starts a PENDING one, one attempt after the latest |
| RunsExact.ClaimExactly | data-pipeline/data_pipeline/pipeline/analysis.py:526-556 | Taking up a run: PENDING becomes RUNNING and its node ANALYZING, RUNNING is left, a run that is not current is dropped |
| RunsExact.StoreExactly | data-pipeline/data_pipeline/pipeline/analysis.py:960-1060 | Retrieval rows are stored once, for a current RUNNING run whose text is still the embedded one |
| RunsExact.FailExactly | data-pipeline/data_pipeline/pipeline/analysis.py:599-637 | Giving up: an unfinished current run and its node FAIL, with the retrieval marked failed unless it was stored |
| RunsExact.CallExactly | data-pipeline/data_pipeline/pipeline/recommendation.py:334-402 | The transaction before the provider call, every outcome: skip and complete, record the one call, leave, drop or refuse |
| RunsExact.SaveExactly | data-pipeline/data_pipeline/pipeline/recommendation.py:445-520 | A valid answer to the call that is out completes run and node with one result and one candidate more; anything else is refused or drops the run |
| RunsExact.FailModelExactly | data-pipeline/data_pipeline/pipeline/recommendation.py:261-297 | After a failed call an unfinished current run and its node FAIL with the model stage; one that succeeded meanwhile is left |
| AnalysisRuns.RunAllKeeps | data-pipeline/data_pipeline/pipeline/recommendation.py:249-520 | Every run of requests, workers, failures and edits keeps the run invariant |
| AnalysisRuns.Tables.ReanalyzeUnattachedNode | data-pipeline/data_pipeline/pipeline/analysis.py:223-392 | The in-place request equals the request function and rolls back when it raises |
| AnalysisRuns.Tables.ClaimModel | data-pipeline/data_pipeline/pipeline/recommendation.py:334-402 | The transaction before the provider call |
| AnalysisRuns.Tables.PersistModel | data-pipeline/data_pipeline/pipeline/recommendation.py:445-520 | The transaction that stores result, candidate and completion together |
| AnalysisRuns.Tables.MarkModelFailure | data-pipeline/data_pipeline/pipeline/recommendation.py:261-297 | The failure transaction |
| AnalysisRuns.Tables.EditNodeText | data-pipeline/data_pipeline/meeting_analysis/node_updates.py:311-327 | A text edit supersedes the live current run and marks the node STALE |
| PlanOrder.OrderedForApply | data-pipeline/data_pipeline/pipeline/apply.py:55-78 | The loop computes the schedule the next results are about |
| PlanOrder.OrderExistsIff | data-pipeline/data_pipeline/pipeline/apply.py:55-78 | With unique item ids it fails exactly when in-plan parent references contain a cycle |
| PlanOrder.OrderIsLeast | data-pipeline/data_pipeline/pipeline/apply.py:55-78 | Without cycle and tie the order is a permutation with every in-plan parent first, and sooner by sort key than every other such order |
| PlanOrder.OrderIsLeastIff | data-pipeline/data_pipeline/pipeline/apply.py:55-78 | On an acyclic plan with unique ids, every input order gives the least topological order exactly when the loop meets no two ready commands with the same least key |
| PlanOrder.InputOrderIrrelevantIff | data-pipeline/data_pipeline/contracts/change_plan.py:56-65 | With unique ids, every input order gives the same result exactly when the plan is cyclic or the loop meets no such tie |
| PlanOrder.DistinctKeysTieFree | data-pipeline/data_pipeline/contracts/change_plan.py:56-65 | Distinct sort keys leave no tie to meet |
| PlanOrder.DefaultKeysTie | data-pipeline/data_pipeline/contracts/change_plan.py:56-65 | Two creates with unique ids and the default sort keys come out in input order |
| PlanOrder.ParentIsCreatedFirst | data-pipeline/data_pipeline/pipeline/apply.py:81-96 | The creating command of an in-plan parent has been applied before each child |
| TermRewriting.SelectionIsSound | data-pipeline/data_pipeline/normalization/rules.py:195-237 | Whatever the patterns matched, the selection is ordered, disjoint and inside the text, and every candidate left out starts inside a selected one that sorts no later |
| TermRewriting.SelectionIsTheGreedyOne | data-pipeline/data_pipeline/normalization/rules.py:195-237 | The selection is the one set in which a match is chosen exactly when no chosen match that sorts before it still covers its start |
| TermRewriting.FindRuleMatches | data-pipeline/data_pipeline/normalization/rules.py:195-237 | The collection, sort and selection loops compute that selection |
| TermRewriting.ApplyNormalizationRules | data-pipeline/data_pipeline/normalization/rules.py:240-259 | The plain rewriter gives the rewritten text |
| TermRewriting.ReplaceMatches | data-pipeline/data_pipeline/normalization/service.py:133-163 | The recording rewriter gives the same text, with offsets |
| TermRewriting.RewriteRoundTrip | data-pipeline/data_pipeline/normalization/service.py:133-163 | Every recorded span holds its canonical term, and putting the recorded originals back at the recorded offsets restores the input |
| OffsetMap.ReplacementSpans | data-pipeline/data_pipeline/normalization/service.py:46-64 | Every proportional span is non-empty and inside the range; the first begins and the last ends with it; neighbours leave no gap and share at most one character |
| OffsetMap.BuildOffsetMap | data-pipeline/data_pipeline/normalization/service.py:67-123 | The opcode loop writes every place, so the "failed to build" error cannot occur |
| OffsetMap.SpanInBounds | data-pipeline/data_pipeline/normalization/service.py:67-123 | Every span lies in bounds and is empty exactly when its character was inserted |
| OffsetMap.SpansMonotone | data-pipeline/data_pipeline/normalization/service.py:67-123 | Starts and ends are nondecreasing over the whole map |
| OffsetMap.NothingLost | data-pipeline/data_pipeline/normalization/service.py:46-64 | Every original character that is kept or replaced lies in the span of a character it became |
| OffsetMap.OriginalSpanOfMatch | data-pipeline/data_pipeline/normalization/service.py:36-43 | A match maps to the range from its first character's start to its last one's end, in bounds, covering each of its spans, and not empty unless all its characters were inserted |
| OffsetMap.ExtremesAre | data-pipeline/data_pipeline/normalization/service.py:36-43 | The range of any spans runs from their least start to their greatest end |
| OffsetMap.MatchOrderKept | data-pipeline/data_pipeline/normalization/service.py:36-43 | Matches that follow one another start and end in that order in the original text and share at most one character there |
| Compaction.TruncateItemToJsonSize | data-pipeline/data_pipeline/meeting_summary/callback.py:213-229 | The binary search returns the longest prefix that fits, and fails exactly when not even one character does |
| Compaction.NormalizeSummaryItems | data-pipeline/data_pipeline/meeting_summary/contracts.py:65-91 | The loop returns all stripped items, or fails on the item count, a blank or bulleted item, or the size |
| JsonDump.ArraySize | data-pipeline/data_pipeline/meeting_summary/contracts.py:55-62 | The measured size is the length of the compact JSON array written out byte by byte, escapes and UTF-8 included |
| JsonDump.NormalizeExactly | data-pipeline/data_pipeline/meeting_summary/contracts.py:65-91 | A section passes the contract exactly with at most 500 items, none blank or bulleted once stripped, and at most 60,000 bytes of JSON; it is returned with every item stripped |
| Compaction.CutSection | data-pipeline/data_pipeline/meeting_summary/callback.py:177-184 | The pops and the truncation compute the cut of one section |
| Compaction.CutFacts | data-pipeline/data_pipeline/meeting_summary/callback.py:177-184 | A cut section meets the 50,000-byte target, is a prefix with at most the last item shortened, and is strictly smaller unless it met the target already |
| Compaction.CutStaysValid | data-pipeline/data_pipeline/meeting_summary/callback.py:202-207 | The contract check after a cut cannot fail and keeps the section a shortened prefix |
| Compaction.CompactExactly | data-pipeline/data_pipeline/meeting_summary/callback.py:149-210 | On a body that passes the contract, compaction succeeds exactly when some section has an item; then every section meets the target, is a prefix of its normalized items with at most the last one shortened, and the total size strictly drops |
| Compaction.CompactCallbackBody | data-pipeline/data_pipeline/meeting_summary/callback.py:149-210 | The procedure computes that compaction |

## Left out

- Frontend, HTTP routers, middleware, error mapping, storage and cloud clients, prompts and configuration: plumbing and foreign calls.
- Plan construction and its similarity gates: any plan is accepted as input, with item ids in the order key given as numbers and suggestion titles already stripped.
- Audit rows, warnings, reason codes and analysis traces written beside the graph: they carry no state that the graph reads.
- ARCHIVED and EXCLUDED nodes, changes of node type or category, PROPOSED relations, and manual approval, whose merges write no operation row.
- Node titles in graph transactions are taken as stripped; only the command inbox models the stripping.
- `_apply_planned_merge` for Actions: its parent gate is not modelled, because the apply loop calls it for Decisions only.
- AutoCommit.ApplyVersions: a dependent merge aimed at a node of the same plan has no version at transaction start; ApplyVersionsAll shows that none is applied when retrieval found stored nodes only.
- GraphRuns.RunKeepsInv: a run uses the older single delete only where one level is enough; elsewhere that delete breaks the invariant.
- CommandInbox.ExactlyOnce: other command types in the same inbox table and the "already processing" error, which needs an uncommitted row to be visible.
- AnalysisJobs.WorkersAreSafe: bounds retries, not claims; a stale reclaim raises the attempt count without a cap.
- MeetingJoin.CoordinatorIsSafe: assumes one command and one recording per project and room, and leaves out `available_at`, which no claim reads.
- AnalysisRuns.RunsAreSafe: embedding rows are a flag, retrieval and candidate rows are counts, and runs inserted by the automatic pipeline are outside the worker flow.
- TermRewriting.SelectionIsTheGreedyOne: regular expressions are abstracted to any list of non-empty spans in which no two have the same start, length and rule.
- OffsetMap.BuildOffsetMap: Unicode normalization and the difference algorithm are abstracted to any opcode list that covers both texts.
- Compaction.CompactExactly: values of the wrong type are excluded by typing, and lone surrogates by the character type.
- Retry timing, claim windows and back-off of the callback client and the worker loops.
