# Verified model of the RAGFlow agent service

The repository is a retrieval-augmented agent backend written in Python. This project models its stateful core in
Dafny and proves what that core is for. PostgreSQL rows are the authority and the search index is only a projection, so
most of the statements are about stored rows under every interleaving of the services that write them.

| part | modules |
|---|---|
| Document lifecycle: register, publish, roll back, delete, restore, purge | `Documents`, `LifecycleRows`, `LifecycleProtocol`, `LifecycleFencing`, `LifecycleSafety`, `LifecycleOrder`, `LifecycleEffects`, `LifecycleSubmissions`, `LifecycleGuarantees`, `LifecycleCancellation`, `LifecycleServices`, `KnowledgeQuery` |
| Human approval of tool calls | `Approvals`, `ApprovalServices` |
| Agentic graph, its budget ledger, tools and evidence policy | `Budgets`, `StringOrder`, `Evidence`, `ToolExecution`, `AgentGraph`, `AgentGuarantees`, `AgentNodes` |
| Online retrieval | `Ranking`, `Cleaning`, `Fusion`, `Retrieval`, `RetrievalRuns` |
| Ranking metrics | `Metrics`, `RankingEvaluation` |
| RAPTOR tree and token windows | `Texts`, `Raptor`, `Chunking` |
| Index rebuild and alias switch | `AliasPublication` |
| Transactional outbox | `Outbox` |

Each concurrent protocol is written twice. A *step machine* (`LifecycleProtocol`, `Approvals`, `AliasPublication`) has
one step per transaction or per call of an outside system; whatever a process read stays available to it for ever, so
any number of processes act on stale reads as late and as often as they like. The *services* (`LifecycleServices`,
`ApprovalServices`, the second half of `AliasPublication`) are methods over the stored state in the shape of the
original code; between two blocks the store changes by any steps of others, and each method is proved to take only
steps of the machine. The invariants are proved of the machine for every run, and so hold while the services run.
The agentic graph is split the same way: `AgentGraph` is the state graph with an adversarial planner, tool and
approver, `AgentNodes` are the node methods driving a mutable ledger, and `AgentGuarantees` speaks about every path.

## What the proofs found

* **Cancelling a deletion misleads a restore.** `LifecycleControlService.cancel` accepts a DELETE operation and rewrites
  its `updated_at`, by which `restore` picks the latest deletion.
  `LifecycleCancellation.CancelledDeletionMisleadsRestore` gives a run that ends with an ACTIVE document whose current
  version is a superseded one made READY again while the version current at the deletion stays READY too.
  `LifecycleGuarantees.LiveExactlyUntilMisled` is the exact condition, for every run: documents show only live content
  throughout if and only if no restore takes the branch that turns a SUPERSEDED target READY. Runs in which no DELETE
  operation row is rewritten never do. The fencing theorems hold over all runs.
* **A reported expiry may not be stored.** `_expire_if_needed` ignores the result of its compare-and-set, so
  `get_current` can report EXPIRED for a row that another process has just approved, and `decide` and `resume` go on
  from that copy. `Approvals.ExpiryIsStoredExactlyWhenUncontested` gives the exact condition.
* **One exit of `execute_step` makes no progress.** When the budget is exhausted and the evidence suffices, the node
  sets COMPLETED and leaves `current_step` alone, and `_after_execute` sends the run back to it. The state is reachable
  (`StalledExitIsReachable`); once the iteration or retrieval budget blocks the step it never reaches `finalize`
  (`BlockedForever`), and `LeavesExactlyWhenNotBlocked` says when it can still be left. Every other run ends or waits
  within `8 * max_agent_iterations + 6` steps.
* **A failed approved call is charged nowhere.** `resume` returns the outcome of a call whose attempts all failed;
  `_apply_tool_outcome` then raises for want of a digest, outside any handler, and the attempts started are lost with
  the node's ledger. `AgentGuarantees.ApprovedFailureLosesItsCharge` is such a run from the start, and
  `ChargesAreLostExactly` says on which branches, and by how much, the budget falls short of the handlers started;
  `BudgetIsConserved` accounts for it in every state of every run.
* **Repeated ids break the ranking metrics.** `ndcg_at_k` stays in [0,1] whatever is judged relevant if and only if the
  first k ids differ (`Metrics.BoundedExactlyWhenDistinct`); `evaluate_ranking` fails its own field validation under the
  condition of `RankingEvaluation.MetricsExistExactly`.
* **`rollback_alias` can race with the clean-up of a rebuild.** An alias moved back between the last check and the
  deletion of a failed rebuild names a deleted index (`AliasPublication.RollbackRacesWithCleanup`);
  `RollbackIsSafeExactly` says for which targets a rollback stays harmless however the rebuilds go on, and
  `RollbacksAreHarmlessExactly` for which runs of rebuilds and rollbacks all of them do.
  `build_and_publish` alone never does this.
* **RAPTOR's convergence error is unreachable.** Building fails only for bad arguments, or for a word limit of zero when
  a level above the leaves has to be made (an empty text is refused by the node record).
* **Retry delays.** They lie in `[0, max_seconds]` for every attempt if and only if both durations of the policy are
  non-negative (`Outbox.DelaysAreBoundedExactly`); the policy record does not check this.

## Model

| member | source | states |
|---|---|---|
| `LifecycleProtocol.FollowsIsExecution` | src/ragflow_agent/knowledge/infrastructure/database/repositories.py:60-145 | The worlds that may follow a world are exactly those that some finite sequence of steps of any processes leads to |
| `LifecycleFencing.StepFenced` | src/ragflow_agent/knowledge/infrastructure/database/repositories.py:122-145 | Every step of every process, on any stale read, keeps the fencing invariant: the log of commits of each document is gapless in revision, every entry is the effect of a stored operation of that document, and every read row is the present row or an earlier revision |
| `LifecycleFencing.StepAdvances` | src/ragflow_agent/knowledge/infrastructure/database/repositories.py:122-145 | One step either leaves a document's row and log alone or appends exactly one commit that goes from the row before to the row after, and removes no row, read or identity |
| `LifecycleFencing.RunFenced` | src/ragflow_agent/knowledge/infrastructure/database/repositories.py:122-145 | The fencing invariant holds after every run |
| `LifecycleGuarantees.ChangeTakesFencingToken` | src/ragflow_agent/knowledge/application/lifecycle/publish.py:59-66 | A document row changes only by the commit of one stored operation registered against the revision before, and ends at that operation's fencing token with the effect its kind has |
| `LifecycleGuarantees.RevisionCountsCommits` | src/ragflow_agent/knowledge/application/lifecycle/delete.py:98-110 | After every run, revision minus the revision at first activation is the number of committed operations, and the i-th commit carries the i-th fencing token |
| `LifecycleGuarantees.AtMostOneEffect` | src/ragflow_agent/knowledge/application/lifecycle/update.py:261-263 | No operation takes effect twice, at most one operation registered against a revision ever takes effect, and tokens strictly increase in commit order |
| `LifecycleGuarantees.ReplayHasNoEffect` | src/ragflow_agent/knowledge/application/lifecycle/publish.py:59-66 | Publishing again an operation that took effect, from any read however old, changes nothing at all |
| `LifecycleGuarantees.FollowsGrows` | src/ragflow_agent/knowledge/infrastructure/database/repositories.py:122-145 | In every later world each commit log extends the earlier one, no read is lost, no document disappears and the clock has not gone back |
| `LifecycleGuarantees.DeletedIsFinal` | src/ragflow_agent/knowledge/application/lifecycle/delete.py:306-405 | DELETED is absorbing: no run changes the row, revision included |
| `LifecycleGuarantees.PurgeWaitsForRetention` | src/ragflow_agent/knowledge/application/lifecycle/delete.py:338-342 | Any commit that makes a document DELETED found it DELETE_PENDING and comes no earlier than the `purge_after` of that very deletion, so a clean-up left from an earlier deletion cannot purge early |
| `LifecycleSafety.StepSafe` | src/ragflow_agent/knowledge/domain/document.py:151-232 | Every step of every process, on any stale read, keeps the status invariant, except a restore that takes effect with a target read as SUPERSEDED: a version that was ever current is READY exactly when it is current (or was when the pending deletion was made), otherwise SUPERSEDED, or DELETED after a purge; and the target of a restore that can still commit is READY exactly when the pending deletion hid it |
| `LifecycleSafety.RunSafe` | src/ragflow_agent/knowledge/application/lifecycle/delete.py:106-283 | The same over every run without such a restore |
| `LifecycleGuarantees.SafetyInEveryRun` | src/ragflow_agent/knowledge/application/lifecycle/publish.py:58-140 | In every such run an ACTIVE document's current version belongs to it and is READY, every other version ever current is SUPERSEDED (DELETED after purge), and while DELETE_PENDING the version current at deletion stays READY |
| `LifecycleGuarantees.LiveExactlyUntilMisled` | src/ragflow_agent/knowledge/application/lifecycle/delete.py:224-266 | For every run, DELETE rows rewritten or not: documents show only live content before and after each step if and only if no restore took effect whose target was SUPERSEDED when it was read |
| `LifecycleGuarantees.MisleadingBreaksLiveness` | src/ragflow_agent/knowledge/application/lifecycle/delete.py:224-266 | Such a restore makes another version current and leaves the one that was deleted READY beside it |
| `LifecycleGuarantees.UntouchedDeletionsNeverMislead` | src/ragflow_agent/knowledge/application/lifecycle/delete.py:177-187 | There is none in any run in which no DELETE operation row is rewritten |
| `LifecycleGuarantees.RestoreIsRightExactlyWhenTargetIsReady` | src/ragflow_agent/knowledge/application/lifecycle/delete.py:224-283 | A restore that takes effect makes the version that the pending deletion hid current again, and leaves every document showing only live content, if and only if its target was READY when it was read |
| `LifecycleOrder.StepOrdered` | src/ragflow_agent/knowledge/infrastructure/database/repositories.py:293-306 | Every step that rewrites no DELETE row keeps DELETE operations stamped in the order they took effect, and every restore that can still commit reading the pending one |
| `LifecycleOrder.OrderNeverMisleads` | src/ragflow_agent/knowledge/application/lifecycle/delete.py:177-187 | In that order no restore misleads |
| `LifecycleEffects.SucceededTookEffect` | src/ragflow_agent/knowledge/application/lifecycle/publish.py:113-140 | After every run from the start an operation that is SUCCEEDED has changed its document |
| `LifecycleSubmissions.OneOperationPerKey` | src/ragflow_agent/knowledge/infrastructure/database/models.py:145-150 | An idempotency key never names two operations, not even at different points of a run: all of an operation but its status and timestamp stays what the first use of the key stored |
| `LifecycleSubmissions.CandidatesAreAnnounced` | src/ragflow_agent/knowledge/application/lifecycle/update.py:320-329 | After every run each UPDATE or REPARSE operation has its outbox event, cancellations and dispatcher writes included |
| `LifecycleGuarantees.RetiringNeverRaises` | src/ragflow_agent/knowledge/application/lifecycle/publish.py:108-112 | For any read whose guards passed, retiring the previous version never raises, and that version is the document's current one |
| `LifecycleGuarantees.RestoreBringsBack` | src/ragflow_agent/knowledge/application/lifecycle/delete.py:177-283 | While no DELETE operation row was rewritten, a restore that changes anything reinstates exactly the version current at the latest deletion and cancels that deletion's pending clean-up event |
| `LifecycleGuarantees.EveryRestoreUndoesItsDeletion` | src/ragflow_agent/knowledge/application/lifecycle/delete.py:146-283 | In every run without a misleading restore each restore directly follows a DELETE commit and restores the version that commit took away |
| `LifecycleCancellation.CancelledDeletionMisleadsRestore` | src/ragflow_agent/knowledge/application/lifecycle/control.py:45-66 | A reachable world in which cancelling a DELETE made a restore bring back the wrong version |
| `KnowledgeQuery.CheckAuthority` | src/ragflow_agent/knowledge/application/knowledge_service.py:283-310 | The candidate loop raises exactly when some authoritative candidate's document is not readable, and otherwise returns the visible candidates |
| `KnowledgeQuery.Positions` | src/ragflow_agent/knowledge/application/knowledge_service.py:283-310 | The positions of the authoritative candidates, all of them, in increasing order |
| `KnowledgeQuery.VisibleExactly` | src/ragflow_agent/knowledge/application/knowledge_service.py:283-310 | For arbitrary stale candidates the result is exactly those at these positions, in order |
| `KnowledgeQuery.HiddenUntilRecommitted` | src/ragflow_agent/knowledge/application/lifecycle/publish.py:126-147 | Once a committed delete or replacement takes a version away, no candidate of it is authoritative in any later world unless a later commit made that version current again |
| `KnowledgeQuery.VisibleIsLive` | src/ragflow_agent/knowledge/application/knowledge_service.py:283-310 | Whatever the projection returns, each candidate shown belongs to an ACTIVE document of the same knowledge base, at its READY version |
| `LifecycleServices.UnitOfWork.StageVersion` | src/ragflow_agent/knowledge/infrastructure/database/repositories.py:73-82 | `save` on versions: fails on a missing row and otherwise replaces it in the transaction |
| `LifecycleServices.UnitOfWork.StageDocument` | src/ragflow_agent/knowledge/infrastructure/database/repositories.py:122-145 | The compare-and-set: the row is replaced only at the expected revision, otherwise the transaction is as before |
| `LifecycleServices.UnitOfWork.InsertOperation` | src/ragflow_agent/knowledge/infrastructure/database/repositories.py:60-71 | `add` on operations: refused for a taken id or idempotency key |
| `LifecycleServices.FindByKey` | src/ragflow_agent/knowledge/infrastructure/database/repositories.py:282-291 | Finds an operation with the key if and only if one is stored |
| `LifecycleServices.FindLatestDeletion` | src/ragflow_agent/knowledge/application/lifecycle/delete.py:177-187 | The scan in reverse order of `updated_at` yields a latest DELETE operation of the document, or none if there is none |
| `LifecycleServices.FindPurge` | src/ragflow_agent/knowledge/application/lifecycle/delete.py:326-337 | Finds a PURGE operation of the document if and only if one is stored, and none stored has a later `updated_at` |
| `LifecycleServices.StorePublication` | src/ragflow_agent/knowledge/application/lifecycle/publish.py:126-140 | The closing transaction is one step of the machine in which the operation takes effect, or fails leaving everything as it was |
| `LifecycleServices.Publish` | src/ragflow_agent/knowledge/application/lifecycle/publish.py:67-148 | With others acting between the blocks, success means this operation took effect on this document; every change on the way is a step of the machine |
| `LifecycleServices.CompleteIngestion` | src/ragflow_agent/knowledge/application/lifecycle/publish.py:51-148 | Success means the operation is SUCCEEDED and has changed its document, whether this call or an earlier one did it |
| `LifecycleServices.RollbackTo` | src/ragflow_agent/knowledge/application/lifecycle/publish.py:150-230 | A taken key changes nothing and answers only an equal command; otherwise success means the target was a SUPERSEDED version of this document and this rollback took effect on it |
| `LifecycleServices.RollbackFromRead` | src/ragflow_agent/knowledge/application/lifecycle/publish.py:202-230 | From any earlier read of a SUPERSEDED target, success means this rollback took effect |
| `LifecycleServices.Register` | src/ragflow_agent/knowledge/application/lifecycle/update.py:200-335 | Registration adds exactly one version and one operation, for this command and expecting the revision and current version stored now, touches no document, and adds nothing when it fails |
| `LifecycleServices.Existing` | src/ragflow_agent/knowledge/application/lifecycle/update.py:337-396 | With a used key the answer is the stored operation of the same kind, document and fingerprint; it fails if and only if there is none, so the checks for a missing document or event never fire |
| `LifecycleServices.Submit` | src/ragflow_agent/knowledge/application/lifecycle/update.py:90-198 | A used key changes nothing and gives back the first operation of an equal command, failing for any other; success leaves the operation of this command stored with its event, as a new PENDING one for a new key |
| `LifecycleServices.RequestDelete` | src/ragflow_agent/knowledge/application/lifecycle/delete.py:51-144 | A taken key changes nothing and answers only an equal request, fingerprint included; otherwise success means this deletion took effect and remembers the version it took away |
| `LifecycleServices.StoreRestoration` | src/ragflow_agent/knowledge/application/lifecycle/delete.py:257-282 | The closing transaction of a restore takes effect as one step or changes nothing |
| `LifecycleServices.RestoreFromRead` | src/ragflow_agent/knowledge/application/lifecycle/delete.py:201-283 | From any earlier read, success means the document was DELETE_PENDING and this restore took effect |
| `LifecycleServices.RestoreDocument` | src/ragflow_agent/knowledge/application/lifecycle/delete.py:146-283 | A taken key changes nothing and answers only an equal request; otherwise success means the document was DELETE_PENDING and this restore took effect |
| `LifecycleServices.StageVersions` | src/ragflow_agent/knowledge/application/lifecycle/delete.py:391-395 | The loop saves every deleted version, and succeeds exactly when all of them are stored |
| `LifecycleServices.StorePurge` | src/ragflow_agent/knowledge/application/lifecycle/delete.py:391-404 | The closing transaction of a purge takes effect as one step or changes nothing |
| `LifecycleServices.PurgeDocument` | src/ragflow_agent/knowledge/application/lifecycle/delete.py:306-405 | Returns a PURGE of this document; unless the document was already DELETED, that purge took effect |
| `Approvals.StepConsistent` | src/ragflow_agent/agent/infrastructure/database/repositories.py:61-84 | Every step of any number of processes keeps the approval invariant tying row, history, claimed and running copies, starts and decisions |
| `Approvals.RunConsistent` | src/ragflow_agent/agent/application/hitl.py:89-255 | The invariant holds after every run |
| `Approvals.StartedOnceAndOnlyIfApproved` | src/ragflow_agent/agent/application/hitl.py:143-228 | A tool call starts at most once per approval, only for the exact call stored, and only after an actor of that tenant holding a required role approved it before it expired |
| `Approvals.StoredRowFollowsThePath` | src/ragflow_agent/agent/application/hitl.py:89-228 | The stored row starts at APPROVAL_REQUIRED, follows the allowed edges with revision rising by exactly one and never above 3, and keeps the request fields |
| `Approvals.ClosingNeverFails` | src/ragflow_agent/agent/application/hitl.py:197-228 | While a process holds a claim the stored row is its copy, so its closing compare-and-set succeeds |
| `Approvals.OneClaimant` | src/ragflow_agent/agent/application/hitl.py:179-196 | Two claims of one approval are the same claim |
| `Approvals.ExpiryIsStoredExactlyWhenUncontested` | src/ragflow_agent/agent/application/hitl.py:240-255 | The EXPIRED copy that is reported is the stored row afterwards if and only if the row was still APPROVAL_REQUIRED or already EXPIRED |
| `Approvals.ExpiredReportOfApprovedRow` | src/ragflow_agent/agent/application/hitl.py:249-255 | A run in which EXPIRED is reported while the stored row is APPROVED |
| `ApprovalServices.RunAdvances` | src/ragflow_agent/agent/infrastructure/database/repositories.py:61-84 | In a longer run no start is forgotten, every row keeps its request, revisions never fall, and a row in a terminal status never changes |
| `ApprovalServices.Repository.CompareAndSet` | src/ragflow_agent/agent/infrastructure/database/repositories.py:61-84 | Swaps if and only if the row exists at the expected revision; otherwise nothing changes |
| `ApprovalServices.Request` | src/ragflow_agent/agent/application/hitl.py:49-87 | A new key stores a fresh revision-0 approval of exactly this call; a used key returns a row with that key |
| `ApprovalServices.ExpireIfNeeded` | src/ragflow_agent/agent/application/hitl.py:240-255 | Attempts one expiry step exactly when the read row is due and returns the local copy whatever came of it |
| `ApprovalServices.GetCurrent` | src/ragflow_agent/agent/application/hitl.py:139-141 | Fails exactly for an unknown approval, otherwise reports the row it read, expired if due |
| `ApprovalServices.Rule` | src/ragflow_agent/agent/application/hitl.py:100-129 | A decision is accepted exactly when the actor may take it (owner or role for cancelling, a required role otherwise) |
| `ApprovalServices.Decide` | src/ragflow_agent/agent/application/hitl.py:89-137 | An undecided, unexpired row is decided or refused exactly by the role rule; an accepted decision was put to the compare-and-set, and the answer is the row as it is stored, decided, by this actor with the ruling recorded or by whoever was first; a decided row is returned unchanged |
| `ApprovalServices.StoreDecision` | src/ragflow_agent/agent/application/hitl.py:122-137 | The decision is stored with its ruling exactly when the row still has the revision read; otherwise the answer is the decided row someone else stored |
| `ApprovalServices.Resume` | src/ragflow_agent/agent/application/hitl.py:143-228 | Executing means this approval had not started before and the stored call is this call; a resume after SUCCEEDED returns the stored summary without executing; any other status is refused |
| `ApprovalServices.ClaimAndExecute` | src/ragflow_agent/agent/application/hitl.py:179-228 | Success leaves the row SUCCEEDED with the returned summary, whether this process or another claimed it |
| `ApprovalServices.ExecuteClaimed` | src/ragflow_agent/agent/application/hitl.py:197-228 | Once claimed, the row is closed with the outcome: SUCCEEDED with the summary or FAILED |
| `Budgets.ChargesAreSound` | src/ragflow_agent/agent/application/budgets.py:40-53 | Each pre-checked charge adds exactly what it consumes or nothing, never passes its limit, and never lowers a counter |
| `Budgets.RecordingIsSound` | src/ragflow_agent/agent/application/budgets.py:55-103 | Recording a model call never lowers a counter, and raises unless tokens and cost are within their limits afterwards |
| `Budgets.BudgetLedger.ConsumeIteration` | src/ragflow_agent/agent/application/budgets.py:40-46 | The ledger method updates `usage` to what the charge function says, unchanged if it raises |
| `Budgets.BudgetLedger.BeginModel` | src/ragflow_agent/agent/application/budgets.py:48-53 | Likewise for beginning a model call |
| `Budgets.BudgetLedger.RecordModel` | src/ragflow_agent/agent/application/budgets.py:55-103 | Likewise for recording tokens and merged cost, which stay recorded when it raises |
| `Budgets.BudgetLedger.ConsumeRetrieval` | src/ragflow_agent/agent/application/budgets.py:121-125 | Likewise for a retrieval round |
| `Budgets.BudgetLedger.ConsumeTool` | src/ragflow_agent/agent/application/budgets.py:127-131 | Likewise for a tool attempt |
| `Evidence.Evaluate` | src/ragflow_agent/agent/application/evidence.py:41-101 | Status, covered and missing steps, sorted conflicting keys and eligible ids are those of the declarative policy; SUFFICIENT if and only if something is eligible, every critical step is covered by an eligible same-tenant item, and no fact key has two stances |
| `Evidence.CoverageOnlyGrows` | src/ragflow_agent/agent/application/evidence.py:59-65 | More evidence never uncovers a step |
| `Evidence.GatherStances` | src/ragflow_agent/agent/application/evidence.py:67-70 | The dictionary loop holds a stance for a key exactly when an eligible item takes it |
| `Evidence.StancesShowDisputes` | src/ragflow_agent/agent/application/evidence.py:67-71 | A key has more than one stance in the dictionary if and only if two eligible items disagree on it |
| `Evidence.AmongPartitions` | src/ragflow_agent/agent/application/evidence.py:63-65 | Covered and missing steps together are the critical steps, with multiplicity |
| `StringOrder.Sorted` | src/ragflow_agent/agent/application/evidence.py:71-71 | Sorting a set of keys gives an ascending sequence of exactly these keys |
| `StringOrder.AscendingIsUnique` | src/ragflow_agent/agent/application/evidence.py:71-71 | There is only one such sequence |
| `ToolExecution.EvaluatePolicy` | src/ragflow_agent/agent/application/tool_policy.py:46-75 | DENY exactly when a tenant, role or scope rule is broken, approval required exactly for an allowed dangerous tool |
| `ToolExecution.AttemptsAreCharged` | src/ragflow_agent/agent/application/tool_policy.py:198-221 | In the retry loop every started handler is charged exactly once, never above the limit, only timeouts and crashes are retried, and running out of budget or attempts means exactly that |
| `ToolExecution.SecureToolExecutionService.Attempt` | src/ragflow_agent/agent/application/tool_policy.py:198-221 | The mutable loop against the ledger does what the attempt function says |
| `ToolExecution.SecureToolExecutionService.Execute` | src/ragflow_agent/agent/application/tool_policy.py:133-244 | Handlers started equals tool attempts charged; nothing denied or unapproved runs; a completed call id is answered the same way for ever and never runs again; an equal successful call is reused |
| `AgentGraph.ParsedItems` | src/ragflow_agent/agent/graphs/agentic_rag.py:539-596 | Every structured item carries the run's tenant, the step and the tool call it came from |
| `AgentGraph.ItemsOf` | src/ragflow_agent/agent/graphs/agentic_rag.py:474-536 | The same for the fallback item made when a tool returns no structured evidence |
| `AgentGuarantees.StepKeeps` | src/ragflow_agent/agent/graphs/agentic_rag.py:411-471 | Every step of the graph under every choice of planner, tool and approver keeps the run invariant and lowers no counter |
| `AgentGuarantees.PathIsGood` | src/ragflow_agent/agent/graphs/agentic_rag.py:411-471 | The invariant holds in every state of every path |
| `AgentGuarantees.StepDecreases` | src/ragflow_agent/agent/graphs/agentic_rag.py:182-285 | Every step outside the stalled exit lowers a measure led by remaining iterations |
| `AgentGuarantees.EveryRunEndsOrIsStuck` | src/ragflow_agent/agent/graphs/agentic_rag.py:411-471 | Every path has at most `8 * max_agent_iterations + 6` steps unless it took the stalled exit within as many steps |
| `AgentGuarantees.StuckStays` | src/ragflow_agent/agent/graphs/agentic_rag.py:453-462 | With iterations spent and sufficient evidence, the only next state is `execute_step` again, a fixed point once COMPLETED |
| `AgentGuarantees.StuckForever` | src/ragflow_agent/agent/graphs/agentic_rag.py:453-462 | Such a path never reaches `finalize` |
| `AgentGuarantees.StalledExitIsReachable` | src/ragflow_agent/agent/graphs/agentic_rag.py:182-285 | A path from the start that gets stuck |
| `AgentGuarantees.StalledExitGoesBack` | src/ragflow_agent/agent/graphs/agentic_rag.py:182-285 | Whenever a budget runs out with sufficient evidence, the run is COMPLETED and returns to `execute_step` at the same step |
| `AgentGuarantees.BlockedForever` | src/ragflow_agent/agent/application/budgets.py:40-46 | A state blocked by iterations or retrieval rounds stays blocked and gathers no more evidence |
| `AgentGuarantees.LeavesExactlyWhenNotBlocked` | src/ragflow_agent/agent/graphs/agentic_rag.py:182-285 | With sufficient evidence, `execute_step` can be left if and only if neither budget blocks it |
| `AgentGuarantees.CompletedIsJustified` | src/ragflow_agent/agent/graphs/agentic_rag.py:354-408 | A path that ends COMPLETED went the direct way with a citation, or every critical step has an eligible same-tenant item and no fact key is disputed |
| `AgentGuarantees.BudgetIsConserved` | src/ragflow_agent/agent/graphs/agentic_rag.py:56-352 | In every state of every run the handlers started are `tool_attempts` plus what a last, raising step started; until then they are equal; the pre-checked counters stay within their limits and no counter ever decreases |
| `AgentGuarantees.ChargesAreLostExactly` | src/ragflow_agent/agent/graphs/agentic_rag.py:331-352 | From any state of a run a step aborts if and only if it takes a raising branch (evidence that cannot be built, an approval request without an id, an approved call that comes back as a failure), and the budget then misses exactly what that step started |
| `AgentGuarantees.ApprovedFailureLosesItsCharge` | src/ragflow_agent/agent/graphs/agentic_rag.py:331-352 | A run from the start in which an approved call is started, fails, and is charged nowhere |
| `AgentGuarantees.PathIsSteered` | src/ragflow_agent/agent/graphs/agentic_rag.py:411-450 | Every run is one with a move of the outside behind each step, which these statements speak about |
| `AgentGuarantees.OverspendingIsLast` | src/ragflow_agent/agent/graphs/agentic_rag.py:56-180 | Once tokens exceed a limit the usage never changes again and only `finalize` or the end follows, so that call was the last |
| `AgentNodes.RouteNode` | src/ragflow_agent/agent/graphs/agentic_rag.py:56-92 | The node method refines the graph's step function |
| `AgentNodes.DirectNode` | src/ragflow_agent/agent/graphs/agentic_rag.py:94-180 | Likewise, with each exception branch of the ledger |
| `AgentNodes.StructuredEvidence` | src/ragflow_agent/agent/graphs/agentic_rag.py:539-596 | The appending loop yields the items of the specification |
| `AgentNodes.CallTool` | src/ragflow_agent/agent/graphs/agentic_rag.py:205-240 | A call of the tool service charges the ledger exactly as the graph's view of the result says |
| `AgentNodes.HandleExhaustion` | src/ragflow_agent/agent/graphs/agentic_rag.py:182-285 | The exhausted-budget branch: completed if the evidence suffices, otherwise budget exhausted |
| `AgentNodes.ExecuteNode` | src/ragflow_agent/agent/graphs/agentic_rag.py:182-285 | The node, driving the real ledger and tool service, refines the graph's step and starts exactly the handlers it reports |
| `AgentNodes.AwaitNode` | src/ragflow_agent/agent/graphs/agentic_rag.py:287-352 | Likewise for the approval node; replaying a stored result starts nothing |
| `AgentNodes.EvaluateNode` | src/ragflow_agent/agent/graphs/agentic_rag.py:354-385 | Likewise for the evaluation node |
| `Ranking.SortRanked` | src/ragflow_agent/knowledge/application/query/fusion.py:39-42 | Sorting by descending score, then id, gives exactly the given entries in order |
| `Ranking.OrderIsUnique` | src/ragflow_agent/knowledge/application/query/fusion.py:39-42 | There is only one such order |
| `Fusion.AddChannel` | src/ragflow_agent/knowledge/application/query/fusion.py:28-38 | The in-place dictionary loop over a channel computes the gathered entries |
| `Fusion.GatherAdds` | src/ragflow_agent/knowledge/application/query/fusion.py:28-38 | An id has an entry exactly if it had one or occurs in the channel, and its score grows by that channel's contribution |
| `Fusion.GatherRecords` | src/ragflow_agent/knowledge/application/query/fusion.py:28-38 | The channel's own rank and score are those of the id in that channel and the other channel's are untouched |
| `Fusion.ContributionIsReciprocal` | src/ragflow_agent/knowledge/application/query/fusion.py:28-38 | With distinct ids the contribution of the item at rank r is `1 / (k + r)` |
| `Fusion.Fuse` | src/ragflow_agent/knowledge/application/query/fusion.py:20-58 | Each id of the union exactly once, scored by the sum of its contributions, ordered by score then id, ranked 1..n |
| `Fusion.SwappingChannelsChangesNothing` | src/ragflow_agent/knowledge/application/query/fusion.py:20-58 | Swapping the channels gives the same ids, order and scores |
| `Fusion.DominantComesFirst` | src/ragflow_agent/knowledge/application/query/fusion.py:20-58 | An item ranked no worse in both channels and better in one comes first |
| `Cleaning.CleanCandidates` | src/ragflow_agent/knowledge/application/query/clean.py:16-50 | The greedy loop keeps exactly the taken positions of the scanned prefix, excludes the others with their reason, stops only when full, and keeps as many as the capacity allows |
| `Cleaning.NoFeasibleSelectionIsLarger` | src/ragflow_agent/knowledge/application/query/clean.py:25-50 | No selection of first occurrences within threshold, per-document limit and size is larger than that |
| `Cleaning.NoDistinctSelectionIsLarger` | src/ragflow_agent/knowledge/application/query/clean.py:29-40 | Nor is any selection of different chunks at any of their positions, when a repeated chunk is of the same document and passes the threshold where it first occurs if it does later |
| `Cleaning.GreedyIsMaximal` | src/ragflow_agent/knowledge/application/query/clean.py:29-49 | The number kept is the smaller of `final_top_k` and the sum over documents of the capped eligible first occurrences |
| `Cleaning.KeptIsFeasible` | src/ragflow_agent/knowledge/application/query/clean.py:29-50 | What is kept is itself feasible, and kept and excluded positions partition the scanned prefix in order |
| `Cleaning.TakenAre` | src/ragflow_agent/knowledge/application/query/clean.py:29-49 | The kept positions are exactly the taken ones, increasing |
| `Cleaning.PassedAre` | src/ragflow_agent/knowledge/application/query/clean.py:29-40 | The excluded positions are exactly the rest, increasing |
| `Retrieval.FallbackAttempts` | src/ragflow_agent/knowledge/application/query/fallback.py:19-57 | The loop appends the fixed table of attempts, cut at the configured maximum |
| `Retrieval.AttemptsKeepScope` | src/ragflow_agent/knowledge/application/query/fallback.py:29-57 | Every attempt keeps tenant, knowledge bases, user filters and index versions, and thresholds never rise from attempt to attempt |
| `Retrieval.MergeReply` | src/ragflow_agent/knowledge/application/query/retrieve.py:380-393 | The dictionary holds, for every chunk seen so far, the first among its best-scored candidates |
| `Retrieval.CutIsCollected` | src/ragflow_agent/knowledge/application/query/retrieve.py:394-399 | Sorting and cutting leaves the best of each chunk by descending score and then id, everything dropped coming after everything kept |
| `Retrieval.CollectChannel` | src/ragflow_agent/knowledge/application/query/retrieve.py:372-399 | Fails exactly when a reply fails; otherwise the first `top_k`, by score and then id, of the best candidate of each chunk (the first of equals) in what the port answers to exactly these calls: the attempt's own query once per variant, up to the first failure |
| `Retrieval.CollectedIsUnique` | src/ragflow_agent/knowledge/application/query/retrieve.py:387-399 | The replies and the cut-off determine this answer, ties included |
| `Retrieval.DroppedScoresWorse` | src/ragflow_agent/knowledge/application/query/retrieve.py:394-399 | A chunk that was replied and is missing was cut by a full answer, and no candidate of it scores better than anything kept |
| `Retrieval.CallsAre` | src/ragflow_agent/knowledge/application/query/retrieve.py:380-386 | Every search is for the attempt's own query with only the text of a variant; without a failure there is one for each variant |
| `Retrieval.Rerank` | src/ragflow_agent/knowledge/application/query/rerank.py:20-68 | The result has exactly the ids it was given; a reply that adds, drops or repeats an id, or fails, leaves the candidates as they were |
| `Retrieval.RerankingPermutes` | src/ragflow_agent/knowledge/application/query/rerank.py:35-56 | Distinct ids stay distinct, so an applied reranking is a permutation |
| `RetrievalRuns.RankAndSelect` | src/ragflow_agent/knowledge/application/query/retrieve.py:344-370 | Fusion, the cut to the rerank window, reranking and a maximal selection, in that order: what is selected comes from the channel replies, numbers at most top_n, passes the threshold and has ranks 1..n |
| `RetrievalRuns.RunAttempt` | src/ragflow_agent/knowledge/application/query/retrieve.py:299-370 | Exactly the channels that failed are recorded, the answers of the others go through every stage, and the searches made are those of the channels of the mode |
| `RetrievalRuns.OpeningEvents` | src/ragflow_agent/knowledge/application/query/retrieve.py:137-197 | The opening trace starts with the authorization stage and is numbered from 0 |
| `RetrievalRuns.RunTurn` | src/ragflow_agent/knowledge/application/query/retrieve.py:216-240 | One turn appends the outcome of a fully staged attempt, its five trace events and, for a fallback, its step |
| `RetrievalRuns.RunAttempts` | src/ragflow_agent/knowledge/application/query/retrieve.py:216-297 | The loop runs attempts until one selects something or a channel fails; every earlier attempt was empty and clean, the status follows from the last one, the searches are those of the attempts run, and the trace is the opening events followed by those of every attempt, numbered 0..m-1 |
| `RetrievalRuns.Retrieve` | src/ragflow_agent/knowledge/application/query/retrieve.py:109-297 | The whole run over the planned attempts, refused without a search for another tenant; the searches made are exactly those of the attempts run, all inside the scope of the query |
| `RetrievalRuns.RunCallsKeepScope` | src/ragflow_agent/knowledge/application/query/retrieve.py:198-222 | Every search of every attempt keeps tenant, knowledge bases, filters and index versions of the query |
| `RetrievalRuns.NoEvidenceIsHonest` | src/ragflow_agent/knowledge/application/query/retrieve.py:236-297 | NO_EVIDENCE is returned only when every planned attempt ran, no channel failed in any of them, and none selected anything |
| `Metrics.NdcgAtK` | src/ragflow_agent/evaluation/metrics.py:33-42 | The computed ratio; raises exactly for k below 1 or a negative relevance; in [0,1] when the first k ids differ |
| `Metrics.PrefixesDecide` | src/ragflow_agent/evaluation/metrics.py:36-41 | Summation by parts: if all prefix sums of one gain sequence dominate another's, so does its discounted sum, by at least the final gap |
| `Metrics.BestComeFirst` | src/ragflow_agent/evaluation/metrics.py:39-41 | Any distinct items are worth at most as many of the most relevant ones |
| `Metrics.DescendingIsBest` | src/ragflow_agent/evaluation/metrics.py:36-42 | Rearrangement inequality: DCG of any distinct ranking is at most that of the descending order, for every cut-off and every positive decreasing discount |
| `Metrics.NdcgIsBounded` | src/ragflow_agent/evaluation/metrics.py:33-42 | 0 <= DCG <= ideal DCG and NDCG in [0,1] for every ranking whose first k ids differ, whatever follows them |
| `Metrics.BoundedExactlyWhenDistinct` | src/ragflow_agent/evaluation/metrics.py:33-42 | For every ranking and cut-off: NDCG lies in [0,1] whatever is judged relevant if and only if the first k ids differ |
| `Metrics.PerfectRankingScoresOne` | src/ragflow_agent/evaluation/metrics.py:33-42 | NDCG is 1 when the first k ranks go down in relevance, nothing judged outside them is worth more, and some relevance is positive |
| `Metrics.RepeatsExceedOne` | src/ragflow_agent/evaluation/metrics.py:33-42 | For any ranking that repeats an id within the first k, judging just the ids before the repetition relevant gives more than 1 |
| `RankingEvaluation.FirstRank` | src/ragflow_agent/knowledge/evaluation/retrieval.py:20-49 | The rank of the first relevant item, none exactly when there is none |
| `RankingEvaluation.DcgAtMostIdeal` | src/ragflow_agent/knowledge/evaluation/retrieval.py:20-49 | Binary DCG is at most the ideal DCG when there are no more hits than ideal places |
| `RankingEvaluation.MetricsExistExactly` | src/ragflow_agent/knowledge/evaluation/retrieval.py:12-49 | The metrics pass their own range validation if and only if nothing is relevant or the hits among the first k do not outnumber the relevant ids |
| `RankingEvaluation.DistinctRankingsHaveMetrics` | src/ragflow_agent/knowledge/evaluation/retrieval.py:20-49 | A ranking whose first k ids differ always has metrics, all in range |
| `RankingEvaluation.RepeatedHitsRaise` | src/ragflow_agent/knowledge/evaluation/retrieval.py:20-49 | A repeated relevant id fails the validation |
| `RankingEvaluation.RelevantFirstScoresOne` | src/ragflow_agent/knowledge/evaluation/retrieval.py:20-49 | Binary NDCG is 1 when relevant items fill the first ranks |
| `RankingEvaluation.RecallIsBounded` | src/ragflow_agent/evaluation/metrics.py:13-18 | Recall is in [0,1], and 1 exactly when every relevant id is among the first k |
| `Texts.SplitJoin` | src/ragflow_agent/knowledge/advanced/raptor/service.py:62-67 | Splitting words joined by spaces gives the words back |
| `Texts.SplitAtSpace` | src/ragflow_agent/knowledge/advanced/raptor/service.py:62-62 | Splitting texts joined by a space is splitting each |
| `Texts.SplitJoinedTexts` | src/ragflow_agent/knowledge/advanced/raptor/service.py:62-62 | The words of the joined texts are the words of the texts in order |
| `Raptor.WidthIsCeiling` | src/ragflow_agent/knowledge/advanced/raptor/service.py:55-73 | Repeated rounding halves give the ceiling of n divided by 2^L |
| `Raptor.UniqueOfParts` | src/ragflow_agent/knowledge/advanced/raptor/service.py:59-61 | Removing repeats level by level equals removing them once |
| `Raptor.ChildrenPartition` | src/ragflow_agent/knowledge/advanced/raptor/service.py:57-69 | The child lists of a level, in order, are exactly the ids of the level below |
| `Raptor.BuildParent` | src/ragflow_agent/knowledge/advanced/raptor/service.py:57-71 | A parent covers exactly the chunks of its one or two children and its text is their one-shot summary |
| `Raptor.BuildParents` | src/ragflow_agent/knowledge/advanced/raptor/service.py:56-75 | A level is built, strictly narrower, unless the word limit is zero |
| `Raptor.Build` | src/ragflow_agent/knowledge/advanced/raptor/service.py:36-83 | Succeeds exactly for buildable arguments, giving a tree in which every level is as specified; the convergence error is unreachable |
| `Raptor.NodesSummariseTheirChunks` | src/ragflow_agent/knowledge/advanced/raptor/service.py:47-76 | With distinct ids, node i of level L has sources exactly chunks `i*2^L` up to `min(n,(i+1)*2^L)` and, above the leaves, as text the first `summary_words` words of those chunks joined |
| `Chunking.SplitWindows` | src/ragflow_agent/knowledge/infrastructure/chunking/scenario.py:278-298 | The loop terminates because overlap < limit and yields exactly `1 + ceil(max(0,n-limit)/(limit-overlap))` windows at their stride for n > 0, none for 0 |
| `Chunking.CountNext` | src/ragflow_agent/knowledge/infrastructure/chunking/scenario.py:278-298 | The k-th window is the last exactly when the ceiling formula says so |
| `Chunking.WindowsOverlapExactly` | src/ragflow_agent/knowledge/infrastructure/chunking/scenario.py:278-298 | All windows but the last are full, the last ends the text, consecutive ones share exactly `overlap` tokens |
| `Chunking.LaterWindowsExceedOverlap` | src/ragflow_agent/knowledge/infrastructure/chunking/general.py:73-89 | Every later window has a token of its own |
| `Chunking.WindowsRebuild` | src/ragflow_agent/knowledge/infrastructure/chunking/general.py:73-89 | Dropping each later window's first `overlap` tokens rebuilds the tokens |
| `Chunking.WindowsAreUnique` | src/ragflow_agent/knowledge/infrastructure/chunking/scenario.py:278-298 | There is only one such cut, and none of its windows is empty |
| `Chunking.CutTexts` | src/ragflow_agent/knowledge/infrastructure/chunking/general.py:81-88 | Each window's text runs from its first token to its last, with its number of tokens; the strip-and-drop test never drops one |
| `Chunking.SplitText` | src/ragflow_agent/knowledge/infrastructure/chunking/general.py:73-89 | The texts of exactly these windows, in order |
| `Chunking.PiecesFit` | src/ragflow_agent/knowledge/infrastructure/chunking/general.py:73-89 | None is empty or over the limit, and there is none only for a text without tokens |
| `Chunking.EffectiveOverlap` | src/ragflow_agent/knowledge/infrastructure/chunking/general.py:42-43 | The overlap used is below any requested limit and the configured one when that fits |
| `Chunking.Chunk` | src/ragflow_agent/knowledge/infrastructure/chunking/scenario.py:74-117 | The records are the windows of every group, in order, under the effective limit and overlap |
| `Chunking.RecordsCoverGroups` | src/ragflow_agent/knowledge/infrastructure/chunking/scenario.py:86-116 | They are numbered 0..m-1 in the order of the groups, every group with a token has one, and none is empty or too long |
| `Chunking.HeadingSections` | src/ragflow_agent/knowledge/infrastructure/chunking/scenario.py:247-269 | Grouping is an order-preserving partition into non-empty groups, isolated blocks alone, a heading only at the start of a group and groups broken only there |
| `Chunking.BookSections` | src/ragflow_agent/knowledge/infrastructure/chunking/scenario.py:139-152 | The book grouping is the same partition at headings, whatever its chapter pattern matches |
| `Chunking.SectionsAreUnique` | src/ragflow_agent/knowledge/infrastructure/chunking/scenario.py:247-269 | There is only one such partition |
| `AliasPublication.FollowsIsExecution` | src/ragflow_agent/knowledge/application/lifecycle/rebuild.py:14-51 | The worlds that may follow are those some run of rebuild steps leads to |
| `AliasPublication.StepSafe` | src/ragflow_agent/knowledge/application/lifecycle/rebuild.py:24-51 | Every step of interleaved rebuilds, with switches that raise after taking effect, keeps the alias invariant |
| `AliasPublication.RunSafe` | src/ragflow_agent/knowledge/application/lifecycle/rebuild.py:24-51 | It holds after every run |
| `AliasPublication.AliasNamesOnlyValidated` | src/ragflow_agent/knowledge/application/lifecycle/rebuild.py:27-36 | The alias names only indexes it named at the start or generations that validated healthy with the expected chunk count |
| `AliasPublication.NamedIsNeverDeleted` | src/ragflow_agent/knowledge/application/lifecycle/rebuild.py:47-51 | A deleted index is not named when it is deleted nor ever after |
| `AliasPublication.RollbackIsSafeExactly` | src/ragflow_agent/knowledge/application/lifecycle/rebuild.py:53-65 | However the rebuilds go on after a rollback, the alias names only existing original or validated indexes, if and only if its target is original or validated, not deleted, and not about to be deleted by a clean-up that already looked twice |
| `AliasPublication.RollbacksAreHarmlessExactly` | src/ragflow_agent/knowledge/application/lifecycle/rebuild.py:53-65 | In every run of rebuild steps and rollbacks from the start, no point is one from which rebuilds alone could bring the alias to a deleted or never validated index, if and only if each rollback that took effect was aimed as above |
| `AliasPublication.RollbackRacesWithCleanup` | src/ragflow_agent/knowledge/application/lifecycle/rebuild.py:53-65 | A run in which the rolled-back alias names a deleted index |
| `AliasPublication.SwitchAlias` | src/ragflow_agent/knowledge/infrastructure/search/elasticsearch.py:483-520 | The adapter's switch: normal return means the alias named the expected index and now names the new one |
| `AliasPublication.CleanUp` | src/ragflow_agent/knowledge/application/lifecycle/rebuild.py:47-51 | After a failure the index is deleted only when the alias does not name it |
| `AliasPublication.DeleteGeneration` | src/ragflow_agent/knowledge/infrastructure/search/elasticsearch.py:542-553 | The adapter's deletion looks at the alias once more; what it deletes the alias does not name |
| `AliasPublication.Attempt` | src/ragflow_agent/knowledge/application/lifecycle/rebuild.py:25-46 | Success, or a raised switch that took effect, leaves a healthy generation with the expected chunks published |
| `AliasPublication.BuildAndPublish` | src/ragflow_agent/knowledge/application/lifecycle/rebuild.py:14-51 | Success means a healthy report, published and not deleted; if the alias names this index then its report was healthy; deletion only on failure and never while named |
| `Outbox.Classify` | src/ragflow_agent/knowledge/domain/retry.py:61-82 | Retryable exactly for transient and concurrency failures, and any requested delay is non-negative |
| `Outbox.DelaysAreBoundedExactly` | src/ragflow_agent/knowledge/domain/retry.py:26-40 | All delays of a policy lie in `[0, max_seconds]` if and only if both its durations are non-negative |
| `Outbox.PassSettlesEach` | src/ragflow_agent/worker/outbox.py:47-105 | A pass saves each listed event exactly once with one more attempt, whatever the others did, and touches no other |
| `Outbox.AttemptsAreBounded` | src/ragflow_agent/worker/outbox.py:41-106 | Over any sequence of passes, registrations and cancellations an event is attempted at most `max(max_attempts, concurrency_attempts)` times (once if both are below one) and is PUBLISHED only if its last action returned normally |
| `Outbox.SettledStays` | src/ragflow_agent/worker/outbox.py:41-106 | No pass attempts an event that is PUBLISHED, CANCELLED or dead |
| `Outbox.Dispatcher.ListDue` | src/ragflow_agent/knowledge/infrastructure/database/repositories.py:345-360 | Lists distinct due pending events by availability, at most `limit`, and all of them when fewer |
| `Outbox.Dispatcher.Settle` | src/ragflow_agent/worker/outbox.py:65-100 | One more attempt is counted, the event becomes PUBLISHED exactly on a normal return, and it stays PENDING only below the attempt limit |
| `Outbox.Dispatcher.DispatchDue` | src/ragflow_agent/worker/outbox.py:41-106 | The loop over the listed events is one pass, and the returned count is the number that returned normally |

## Left out

- LifecycleSafety.RunSafe: over runs in which no restore takes effect with a target read as SUPERSEDED; `LifecycleGuarantees.LiveExactlyUntilMisled` shows that every other run violates it at some point.
- Outbox.AttemptsAreBounded: one dispatcher at a time; two overlapping passes would each attempt an event. The lifecycle machine does allow the dispatcher to write back a row over a cancellation it did not see.
- The ingestion pipeline, which writes rows without a revision check: it is one step that moves a version that was never current to any processing state, with one delivery per job at a time and the first activation of each document already done; it writes an operation back as SUCCEEDED only if that operation took effect before.
- The ingestion job and tasks of a submission, and the check of a repeated submission that its job still exists.
- One strictly increasing clock for all processes; the two retention periods are parameters.
- Operation steps and progress, creation times, reasons, names and other fields no rule reads.
- Permission checks and upload size limit of the lifecycle services, and the tenant check of the chunkers; the authority filter takes the readable documents as a parameter.
- What the search index and object storage hold: their calls only pass time or fail. A restore that straddles `purge_after` may find its content gone.
- Digests and fingerprints are the values they are made of.
- The approval and alias services assume others never act on the claim or the physical index of this call; ids made by a process are fresh.
- The `status` field of a replayed tool outcome; `resume` stores SUCCEEDED for any returned outcome, and only the summary is claimed.
- The step limit of the graph library, wall-clock accounting, and crashes between nodes.
- The text of answers, redaction, prompt-injection and token patterns: the injection scan and the chapter pattern are parameters, tokenisation is a list of spans.
- The law, table, question and picture groupings of the scenario chunker, layout metadata and bounding boxes.
- Trace details other than stage and sequence number, elapsed times and fallback reasons; evidence score normalisation.
- A database failure while an outbox row is saved.
- Floating-point rounding: scores, gains, discounts and delays are reals, and NDCG is proved for every positive decreasing discount and every gain with `gain(0) = 0`.
- A negative `summary_words`, which slices from the end.
- Memory, batches, release gates, enrichment, mean reciprocal rank and citation metrics, parsers and the HTTP layer: they would only add easy members.
