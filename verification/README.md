# Verified models of asura

This project models the parts of the repository that carry the most state and branching, and proves what they are for.

**The chat request protocol** (`ChatTypes`, `Messages`, `Transcript`, `Protocol*`, `ClientTray`, `ClientVisibility`, `ChatFixture`). A client submits requests to an owner over a channel that may lose acknowledgements. `Protocol` gives every operation as a total function on one state and runs as sequences of operations in any order. `ProtocolInvariant` to `ProtocolSafety` prove one inductive invariant; `ProtocolEvolution` proves a relation between any two states of a run, `ProtocolMoves` the single steps of a receipt, `ProtocolOperations` when each operation acts and what it then does; the theorems follow from these. `ChatFixture.Fixture` is the object with its fields, loops and early returns; each of its methods is proved to make exactly the transition of `Protocol`, and `Execute` carries any run, so every theorem about runs holds of it. A ghost ledger records what was issued, applied, consumed and discarded, and a ghost stream records every entry ever emitted; no operation reads them.

**Transcript scrolling** (`Viewport`), with every saturating operation written out.

**Policy composition** (`PolicyComposition`) over an abstract engine: a policy has an effect, an action scope and an arbitrary outcome per request; all policies are evaluated, forbids override permits, and erring policies are skipped and reported. **The entity store** (`EntityStore`) and **civil time** (`Calendar`, against section 5.7 and Appendix C of RFC 3339) belong to the same experiment.

**Process supervision** (`ProcessLog`, `ProcessLife`, `ProcessScope`, `ProcessReturn`, `Supervision`). Everything the operating system answers to a question about a process, and how long it takes, is an arbitrary oracle of the time and the question; the proofs hold for every oracle. Collections that the source walks in key order are walked in any order.

**The schema check** (`SchemaCycle`).

Where a property turned out to need a condition, the condition is part of the statement:

- A target that names no task becomes valid again after a turn (`ProtocolTargets.IdleTargetsRevive`); the promise holds for targets that name one.
- While delivery is blocked the catalogue still shows its current revision, which moves exactly with hidden source changes (`ClientVisibility.CatalogueRevisionLeaks`).
- After a reset the catalogue check alone accepts a capture from before it that was made at the initial revisions, because revisions begin again; the target check refuses it (`ProtocolTargets.ResetRenewsTheCatalogue`).
- Withheld delivery gives the immediate transcript exactly when the backlog was never truncated (`ProtocolTheorems.TranscriptIsFaithful`).
- The fallback of `locate` is described in the source as a guard for saturated totals; it is unreachable for them too (`Viewport.TopIsARow`). What saturation does break is the anchor, exactly when its flat row number cannot be represented (`Viewport.AnchorSurvives`).
- A year outside 0 to 9999 is printed, but is not RFC 3339 (`Calendar.FourDigitYears`).
- At most one successful signal per execution generation needs a kernel that never grants a generation again after another (`ProcessLog.SignalsSucceedOnce`). A generation that is granted again is signalled again (`ProcessLog.ReturningGenerationIsSignalledAgain`), as three scans of a concrete system show (`ProcessReturn.SignalledTwice`).
- A process that lives through a scan in the session is found by it, but stays gone if it had been looked up in vain before (`ProcessScope.ProcessScope.Scan`): a lifetime once found gone is never taken up again.
- A successful result of `supervise` is not settled when the delegated receipt is missing or a right release failed (`Supervision.Supervision.Settle`).

## Model

| member | source | states |
|---|---|---|
| `ProtocolSafety.RunKeepsInv` | experiments/tui-chat/src/model.rs:928-1465 | every operation, in any order and any number of times, keeps the one invariant that ties pending, queued, recoverable, task, both receipt projections, targets, catalogue and transcript together |
| `ProtocolSafety.ReachableIsInv` | experiments/tui-chat/src/model.rs:436-488 | the invariant holds at the start of either project and so in every reachable state |
| `ProtocolTheorems.ReceiptsMatchRequests` | experiments/tui-chat/src/model.rs:847-895 | in every reachable state the receipts marked queued are the queue, those marked held are the recoverable texts and a rejected pending one, one receipt runs exactly while a task is active and names it, and receipts show the target, action and text of the pending, queued and recoverable requests |
| `ProtocolTheorems.ReceiptsOnlyMoveForward` | experiments/tui-chat/src/model.rs:847-895 | between any two states of a run within a generation a receipt keeps identity, target, action and text, and its state only moves along the edges, any number of them |
| `ProtocolMoves.ReceiptsMoveByOneEdge` | experiments/tui-chat/src/model.rs:847-895 | one operation, whichever it is, moves a receipt along at most one edge: awaiting to running, acknowledged, queued or held; queued to running or held; running to completed, stopped or failed |
| `ProtocolMoves.EdgesReachWhatMayBecome` | experiments/tui-chat/src/model.rs:195-206 | what a receipt may become over a run is exactly what those edges reach |
| `ProtocolTheorems.PrunedReceiptsNeverReturn` | experiments/tui-chat/src/model.rs:876-897 | a receipt that was pruned or discarded never comes back |
| `ProtocolTheorems.EveryTextIsInOnePlace` | experiments/tui-chat/src/model.rs:982-1034 | in every reachable state each issued request, with text, target, action, draft revision and capture, is in exactly one place: pending undecided or rejected, queued, recoverable, consumed by one effect, or discarded; nothing else is anywhere |
| `ProtocolTheorems.IssuedTextIsNeverLost` | experiments/tui-chat/src/model.rs:685-704 | an issued request keeps having exactly one place for the rest of any run |
| `ProtocolTheorems.PlacedTextStaysPlaced` | experiments/tui-chat/src/model.rs:1426-1442 | a consumed or discarded text never becomes live again, and a consumed one is never discarded |
| `ProtocolTheorems.EffectsAreAppliedOnce` | experiments/tui-chat/src/model.rs:1068-1110 | no request identity is applied twice in any interleaving of acceptance, acknowledgement, loss, disconnection and reconnection, and an undecided or rejected request was never applied |
| `ProtocolTheorems.AcceptanceIsDecisive` | experiments/tui-chat/src/model.rs:1068-1148 | a pending request is accepted if and only if its target and command still hold, its action fits the work, no rejection is armed and an identity is left; otherwise it is rejected with the first reason that applies and has no effect, and an accepted one has the effect of its action |
| `ProtocolOperations.SubmissionIsDecisive` | experiments/tui-chat/src/model.rs:833-1033 | a submission is admitted if and only if nothing is pending, the text has a character that is not white space and at most 65536 bytes, the client is connected, the target is current, the action fits the work, fewer than eight texts are protected and an identity is left; each refusal has its exact condition |
| `ProtocolOperations.SubmissionIsPending` | experiments/tui-chat/src/model.rs:982-1033 | an admitted request becomes the pending one under the next identity, due 250 ms later, with an awaiting receipt and on record as issued, and nothing else moves but the clock; a refused one changes nothing |
| `ProtocolOperations.CommandValidity` | experiments/tui-chat/src/model.rs:661-683 | a capture holds if and only if the catalogue is complete and at the captured revision, its source available at the captured revisions and its mode supported; each refusal has its exact condition |
| `ProtocolOperations.CommandSubmissionIsDecisive` | experiments/tui-chat/src/model.rs:943-980 | a command is admitted if and only if its text fits, its capture holds, the text spells the name and the captured arguments, and the request is admitted; each refusal has its exact condition |
| `ProtocolOperations.CommandIsPending` | experiments/tui-chat/src/model.rs:943-980 | an admitted command becomes the pending request with its capture |
| `ProtocolOperations.AcknowledgementIsExact` | experiments/tui-chat/src/model.rs:1150-1193 | only the pending request is acknowledged, and only while connected; it is decided if it was not, delivery resumes, and rejected text becomes recoverable with its reason |
| `ProtocolOperations.EndedTurnIsMarked` | experiments/tui-chat/src/model.rs:1216-1281 | completing, stopping and failing mark the receipt of the ended turn completed, stopped or failed, with the reason and the execution it names, and the receipt is still listed |
| `ProtocolOperations.NewestStays` | experiments/tui-chat/src/model.rs:876-897 | pruning never drops the receipt that settled last |
| `ProtocolOperations.TogglingIsExact` | experiments/tui-chat/src/model.rs:1310-1348 | a decision is raised or expired if and only if the client is connected with work under way and identities are left; the work moves on by one revision and a raised decision is aimed there |
| `ProtocolOperations.RespondingIsExact` | experiments/tui-chat/src/model.rs:1350-1379 | an answer is accepted if and only if it is for the open decision and its target; continuing closes it and raises the revision, stopping ends the work; each refusal has its exact condition |
| `ProtocolOperations.LossIsExact` | experiments/tui-chat/src/model.rs:1381-1415 | the connection changes if and only if asked to and a revision is left; losing it withholds delivery, leaves the outcome unknown and keeps work, queue and recovery |
| `ProtocolOperations.DiscardingIsExact` | experiments/tui-chat/src/model.rs:1426-1444 | recovered text is discarded if and only if it is held, not pending and delivery is not withheld |
| `ProtocolOperations.ResettingIsExact` | experiments/tui-chat/src/model.rs:1458-1465 | a reset begins the next generation of the project with nothing pending, queued or listed and counters at one, or changes nothing at the last generation |
| `ProtocolOperations.SourceGuards` | experiments/tui-chat/src/model.rs:590-655 | a source change happens if and only if every revision it raises has a next one |
| `ProtocolOperations.ClockIsExact` | experiments/tui-chat/src/model.rs:1036-1064 | without a due acknowledgement, work of twelve seconds without an open decision is completed; otherwise a due report gives the percentage of twelve seconds passed, below a hundred |
| `ProtocolOperations.DueAcknowledgementIsFirst` | experiments/tui-chat/src/model.rs:1036-1064 | a due acknowledgement is delivered first, and then the clock does what it does without one |
| `ProtocolOperations.AcceptanceIsNarrated` | experiments/tui-chat/src/model.rs:1112-1148 | acceptance writes the request as worded and what became of it, or why it was rejected |
| `ProtocolOperations.CompletionIsNarrated` | experiments/tui-chat/src/model.rs:1216-1246 | completion writes that the task completed and the text of the follow-up it starts |
| `ProtocolOperations.EndingIsNarrated` | experiments/tui-chat/src/model.rs:1266-1281 | an end without success writes its reason once |
| `ProtocolOperations.DecisionsAreNarrated` | experiments/tui-chat/src/model.rs:1310-1415 | raising, expiring and answering a decision and losing the connection write one entry each |
| `ProtocolTheorems.ReconnectionReconciles` | experiments/tui-chat/src/model.rs:1381-1415 | a successful reconnection applies and consumes nothing, rejects an undecided request under its own identity, delivers a recorded outcome, and leaves nothing pending, an empty backlog and equal projections |
| `ProtocolTheorems.CapacityHolds` | experiments/tui-chat/src/model.rs:833-906 | in every reachable state at most eight requests are protected, each projection holds at most seventeen distinct receipts, and every live request has its receipt |
| `ProtocolTheorems.VisibleRecoveryCanBeDiscarded` | experiments/tui-chat/src/model.rs:1426-1442 | while delivery is not blocked, discarding any recovered request succeeds, removes exactly it and frees exactly one protected place |
| `ProtocolTheorems.QueueIsFifo` | experiments/tui-chat/src/model.rs:1136-1145 | in every reachable state the queue is strictly increasing in request sequence, and follow-ups were consumed in issue order before everything still waiting |
| `ProtocolTheorems.CompletionStartsTheOldest` | experiments/tui-chat/src/model.rs:1216-1246 | success starts the oldest follow-up and no other; with task identities exhausted every follow-up is held in order instead |
| `ProtocolTheorems.EndingHoldsTheQueue` | experiments/tui-chat/src/model.rs:1266-1289 | stopping or failing moves the whole queue to recovery in order, contents intact |
| `ProtocolTheorems.TranscriptIsFaithful` | experiments/tui-chat/src/model.rs:1484-1531 | in every reachable state the transcript is the longest fitting suffix of what was published, identities are positions in that stream, the backlog size is exact; delivered display equals immediate appends if and only if no withheld entry was discarded |
| `ProtocolTheorems.IdentitiesAreNeverReused` | experiments/tui-chat/src/model.rs:1513-1531 | an entry identity names the same entry for the rest of the generation, or nothing once evicted |
| `ProtocolEvolution.RunEvolves` | experiments/tui-chat/src/model.rs:1036-1465 | between any two states of a run the records of issued, applied, consumed and discarded requests only grow, and within a generation receipts, positions, catalogue revision and published stream only move forward |
| `ProtocolTargets.TargetsNeverRevive` | experiments/tui-chat/src/model.rs:750-760 | a captured target that names a task and stopped being valid is never valid again |
| `ProtocolTargets.WorkChangesInvalidateTargets` | experiments/tui-chat/src/model.rs:1291-1308 | an applied steer, a decision raised, expired or answered, the end of the task, a lost connection and a reset each invalidate the captured target |
| `ProtocolTargets.IdleTargetsRevive` | experiments/tui-chat/src/model.rs:750-760 | the exception: the target of an idle conversation is invalid while a turn runs and valid again after it |
| `ProtocolTargets.DecisionsNeverRevive` | experiments/tui-chat/src/model.rs:1350-1379 | a decision that was answered, expired or replaced can never be answered again |
| `ProtocolTargets.AnswersCloseDecisions` | experiments/tui-chat/src/model.rs:1350-1379 | an accepted answer closes the decision |
| `ProtocolTargets.OpenDecisionsAreCurrent` | experiments/tui-chat/src/model.rs:1301-1308 | in every reachable state an open decision names the current target |
| `ProtocolTargets.DecisionsHoldTheWork` | experiments/tui-chat/src/model.rs:1036-1066 | while a decision is open, time alone neither ends the task nor closes the decision; with no acknowledgement due it changes neither target, queue nor records, and a due one moves the task only by applying a steer, one revision on, with the decision carried along |
| `ProtocolTargets.QueuedCommandsAreBacked` | experiments/tui-chat/src/model.rs:685-706 | in every reachable state the source of every queued command is available |
| `ProtocolTargets.SourceChangesAreAtomic` | experiments/tui-chat/src/model.rs:590-655 | a source change moves all the states it should by one revision or, when a revision is exhausted, changes nothing; a withdrawal holds exactly the queued commands of the withdrawn sources, in order, and leaves the rest queued in order |
| `ProtocolSteps.HoldFromIsExact` | experiments/tui-chat/src/model.rs:685-706 | for every filter, holding keeps exactly the unselected requests in order and appends exactly the selected ones, in order and with the reason, to the recoverable texts |
| `ProtocolTargets.CapturesNeverRevive` | experiments/tui-chat/src/model.rs:661-683 | a capture made before a source change or reset is refused ever after, at submission and by the owner, also when the source is restored |
| `ProtocolTargets.ResetRenewsTheCatalogue` | experiments/tui-chat/src/model.rs:1458-1465 | of every capture accepted before a reset: the catalogue check alone accepts it afterwards exactly when it was made at the initial revisions, and then the stale target is what refuses it; otherwise the command is stale |
| `ClientVisibility.HiddenEffectsDoNotLeak` | experiments/tui-chat/src/model.rs:708-827 | while delivery is blocked any sequence of completions, failures, stops, progress, decisions and source changes leaves tray, transcript, identities, task, queue count, recovered texts and project status as shown |
| `ClientVisibility.CatalogueRevisionLeaks` | experiments/tui-chat/src/model.rs:496-505 | the one number that leaks: the catalogue revision shown while blocked changes exactly when a hidden source change happens |
| `ClientVisibility.TrayIsBounded` | experiments/tui-chat/src/model.rs:786-827 | the tray lists exactly the delivered receipts, the pending one without outcome or assignment and the others marked stale while delivery is withheld, each once and at most seventeen |
| `ClientVisibility.TrayRanks` | experiments/tui-chat/src/model.rs:786-825 | what awaits its outcome comes first, then held, queued in issue order, acknowledged, running and ended |
| `ClientVisibility.ReadersAreExact` | experiments/tui-chat/src/model.rs:708-784 | while delivery is withheld the client reads no task, queue, recovered text, status or catalogue entry, and otherwise what there is |
| `ClientVisibility.QueuedRowsAreTheQueue` | experiments/tui-chat/src/model.rs:811-824 | while delivery is not blocked the queued rows of the sorted tray list exactly the executable queue in its order |
| `ClientTray.SortIsStable` | experiments/tui-chat/src/model.rs:811-824 | the tray sort orders by key, loses and invents no row and keeps the order of equal keys |
| `ClientTray.TrayOrder` | experiments/tui-chat/src/model.rs:786-827 | rows of equal rank appear newest transition first |
| `Transcript.TrimIsLongestFittingSuffix` | experiments/tui-chat/src/model.rs:1513-1531 | trimming from the front leaves the longest suffix within both limits |
| `Transcript.LongestFittingSuffixIsUnique` | experiments/tui-chat/src/model.rs:1513-1531 | that suffix is the only one, so any other way of trimming agrees |
| `Transcript.TrimAbsorbs` | experiments/tui-chat/src/model.rs:1513-1531 | trimming before an append does not change the trimmed result |
| `Transcript.PublishAllIsOneTrim` | experiments/tui-chat/src/model.rs:1499-1511 | publishing a backlog entry by entry gives one trim of the whole, with one identity per entry |
| `Transcript.WithholdFaithful` | experiments/tui-chat/src/model.rs:1484-1497 | withholding keeps the backlog the longest fitting suffix of what is withheld, with its exact size |
| `Transcript.FlushFaithful` | experiments/tui-chat/src/model.rs:1499-1511 | delivering the backlog keeps the display a function of the stream and empties the backlog |
| `Messages.ChangeLookups` | experiments/tui-chat/src/model.rs:847-862 | changing a receipt changes that identity and no other, and keeps identities distinct |
| `Messages.PruneLookups` | experiments/tui-chat/src/model.rs:876-897 | pruning removes only settled receipts of other requests and leaves eight of them, or all when there are fewer |
| `ChatFixture.Fixture.constructor` | experiments/tui-chat/src/model.rs:436-488 | a new fixture is the initial state and satisfies the invariant |
| `ChatFixture.Fixture.AppendDelivered` | experiments/tui-chat/src/model.rs:1513-1531 | the trimming loop on the transcript computes the longest fitting suffix and counts evictions in the base identity |
| `ChatFixture.Fixture.WithholdEntry` | experiments/tui-chat/src/model.rs:1484-1497 | the trimming loop on the backlog computes the longest fitting suffix with an exact byte count |
| `ChatFixture.Fixture.AppendEntry` | experiments/tui-chat/src/model.rs:1484-1497 | an entry goes to the transcript or, while delivery is blocked, to the backlog |
| `ChatFixture.Fixture.PublishBacklog` | experiments/tui-chat/src/model.rs:1499-1511 | the draining loop publishes the backlog in order |
| `ChatFixture.Fixture.DeliverBacklog` | experiments/tui-chat/src/model.rs:1499-1511 | delivery resumes only when connected and nothing is pending |
| `ChatFixture.Fixture.ChangeMessage` | experiments/tui-chat/src/model.rs:847-862 | the receipt moves to the end with its new state; an unknown identity changes nothing |
| `ChatFixture.Fixture.PruneReceipts` | experiments/tui-chat/src/model.rs:876-891 | the pruning loop drops the receipts that settled first until at most eight settled ones are left, and marks the history as trimmed exactly when it dropped one |
| `ChatFixture.Fixture.RefreshMessages` | experiments/tui-chat/src/model.rs:876-897 | pruning, and the delivered projection follows unless delivery is blocked |
| `ChatFixture.Fixture.ProtectedCount` | experiments/tui-chat/src/model.rs:899-906 | the count of protected texts, at most eight |
| `ChatFixture.Fixture.Tray` | experiments/tui-chat/src/model.rs:786-827 | the merged, masked and sorted rows |
| `ChatFixture.Fixture.AdmissionRefusal` | experiments/tui-chat/src/model.rs:991-1004 | admission and its first refusal; none if and only if the request is admissible over the fields |
| `ChatFixture.Fixture.SubmitRequest` | experiments/tui-chat/src/model.rs:982-1034 | succeeds if and only if the request is admissible, and then it is what becomes pending |
| `ChatFixture.Fixture.SubmitCommandRequest` | experiments/tui-chat/src/model.rs:943-980 | a command is refused for size, stale capture, unsupported mode or changed arguments before it is submitted |
| `ChatFixture.Fixture.Apply` | experiments/tui-chat/src/model.rs:1112-1148 | the effect of an accepted request, or the refusal that leaves the state as it was |
| `ChatFixture.Fixture.BeginTurn` | experiments/tui-chat/src/model.rs:1116-1124 | a new turn starts the next task and consumes the request |
| `ChatFixture.Fixture.SteerTask` | experiments/tui-chat/src/model.rs:1125-1135 | a steer raises the task revision and retargets an open decision |
| `ChatFixture.Fixture.Enqueue` | experiments/tui-chat/src/model.rs:1136-1145 | a follow-up is queued last |
| `ChatFixture.Fixture.NewTask` | experiments/tui-chat/src/model.rs:1195-1214 | the next task identity is allocated once |
| `ChatFixture.Fixture.Settle` | experiments/tui-chat/src/model.rs:1068-1105 | a pending request is decided once: refused, rejected by the armed fixture, or applied |
| `ChatFixture.Fixture.AcceptPending` | experiments/tui-chat/src/model.rs:1068-1110 | acceptance is recorded apart from delivery and keeps the invariant |
| `ChatFixture.Fixture.Acknowledge` | experiments/tui-chat/src/model.rs:1173-1193 | the recorded outcome is delivered to the matching identity only |
| `ChatFixture.Fixture.LoseAcknowledgement` | experiments/tui-chat/src/model.rs:1159-1171 | the outcome is decided and the connection lost before it is delivered |
| `ChatFixture.Fixture.FinishReceipt` | experiments/tui-chat/src/model.rs:864-874 | the running receipt of the ended task gets its final state |
| `ChatFixture.Fixture.HoldQueue` | experiments/tui-chat/src/model.rs:1283-1289 | the popping loop empties the queue into the recoverable texts, in order and with the reason |
| `ChatFixture.Fixture.HoldRevokedCommands` | experiments/tui-chat/src/model.rs:685-706 | the filtering loop leaves exactly the unselected requests queued, in order, and appends exactly the selected ones to the recoverable texts |
| `ChatFixture.Fixture.Complete` | experiments/tui-chat/src/model.rs:1216-1246 | completion, the follow-up or the held queue |
| `ChatFixture.Fixture.EndUnsuccessfully` | experiments/tui-chat/src/model.rs:1266-1281 | the task ends, the queue is held |
| `ChatFixture.Fixture.Stop` | experiments/tui-chat/src/model.rs:1248-1257 | stopping needs a connection |
| `ChatFixture.Fixture.Fail` | experiments/tui-chat/src/model.rs:1259-1264 | failing does not |
| `ChatFixture.Fixture.ToggleDecision` | experiments/tui-chat/src/model.rs:1310-1348 | a decision is raised or expires, with a raised task revision |
| `ChatFixture.Fixture.RespondDecision` | experiments/tui-chat/src/model.rs:1350-1379 | an answer is accepted only for the open decision and its target |
| `ChatFixture.Fixture.SetConnected` | experiments/tui-chat/src/model.rs:1381-1415 | disconnection withholds delivery; reconnection reconciles and delivers |
| `ChatFixture.Fixture.RejectNext` | experiments/tui-chat/src/model.rs:1417-1419 | the fixture is armed or disarmed |
| `ChatFixture.Fixture.DiscardRecovered` | experiments/tui-chat/src/model.rs:1426-1442 | a visible recovered text and its receipt are removed |
| `ChatFixture.Fixture.Reset` | experiments/tui-chat/src/model.rs:1458-1465 | a new generation with everything else as at the start, or nothing at all when generations are exhausted |
| `ChatFixture.Fixture.ChangeCommandSources` | experiments/tui-chat/src/model.rs:590-624 | all sources move together; revoking holds queued commands |
| `ChatFixture.Fixture.ReplaceCommandSource` | experiments/tui-chat/src/model.rs:626-655 | one source moves; revoking it holds its queued commands |
| `ChatFixture.Fixture.SetCatalogueComplete` | experiments/tui-chat/src/model.rs:657-659 | only the completeness flag changes |
| `ChatFixture.Fixture.Advance` | experiments/tui-chat/src/model.rs:1036-1066 | due acknowledgement, due completion or progress, in that order, and whether any of them changed something |
| `ProtocolTheorems.AdvanceReportsChanges` | experiments/tui-chat/src/model.rs:1036-1064 | advancing the clock reports a change exactly when more than the clock and the time of the next report changed |
| `ChatFixture.Fixture.Perform` | experiments/tui-chat/src/model.rs:435-1532 | every operation of the object, one by one, is the step of the protocol |
| `ChatFixture.Fixture.Execute` | experiments/tui-chat/src/model.rs:435-1532 | any sequence of operations takes the object where the protocol run goes, so what is proved of runs holds of it |
| `Viewport.Locate` | experiments/tui-chat/src/viewport.rs:200-214 | the loop finds the entry and row that hold a flat row; past the end it gives the last row |
| `Viewport.TopIsARow` | experiments/tui-chat/src/viewport.rs:120-165 | for measured entries the chosen top row is always below the total, also when sums saturate, so the fallback is never taken |
| `Viewport.AddressIsUnique` | experiments/tui-chat/src/viewport.rs:200-214 | a flat row has one address |
| `Viewport.PlanIsUnique` | experiments/tui-chat/src/viewport.rs:104-186 | what planning promises determines the plan and the next reading position |
| `Viewport.AnchorSurvives` | experiments/tui-chat/src/viewport.rs:133-173 | an anchor whose entry survives keeps its entry and clamped row under any new layout if and only if its flat row number can be represented |
| `Viewport.AppendAndEvictionKeepTheView` | experiments/tui-chat/src/viewport.rs:133-186 | appending entries and evicting a passed prefix keep the same line and row of the same entry on top |
| `Viewport.EvictionIsReportedOnce` | experiments/tui-chat/src/viewport.rs:136-153 | an anchor outside the retained entries falls back to the first retained row and is reported once |
| `Viewport.ScrollingNeverTurnsBack` | experiments/tui-chat/src/viewport.rs:133-173 | for one reading position and layout, scrolling toward newer output plans a start at or after the plan without scrolling, by entry, line and row, moved by exactly the rows asked for or to the last page, and toward earlier output the mirror down to the first row; the retained anchors are ordered alike |
| `Viewport.ScrollingIsRelativeToTheAnchor` | experiments/tui-chat/src/viewport.rs:133-173 | against the entry and clamped row of a surviving anchor: scrolling toward earlier output is never after it, and toward newer output never before it if and only if its flat row number can be represented |
| `Viewport.FollowingShowsTheEnd` | experiments/tui-chat/src/viewport.rs:128-135 | without a reading position the last page is shown, or everything when it is shorter |
| `Viewport.LayoutIsMeasured` | experiments/tui-chat/src/viewport.rs:32-57 | an entry as constructed has a line and every line a row |
| `Viewport.LayoutRows` | experiments/tui-chat/src/viewport.rs:32-57 | an entry takes the rows of its text, one before and after when padded and one more when separated, never none, with the text in place |
| `Viewport.TranscriptViewport.constructor` | experiments/tui-chat/src/viewport.rs:82-84 | a new viewport follows the latest output |
| `Viewport.TranscriptViewport.ScrollRows` | experiments/tui-chat/src/viewport.rs:88-90 | what is queued is as near to the exact total as a signed 64-bit number can be, and the reading position is left alone |
| `Viewport.QueuedScrollsAddUp` | experiments/tui-chat/src/viewport.rs:88-90 | several scrolls between two layouts queue their exact total, whatever their signs, up to 4294967295 of them from rest |
| `Viewport.TranscriptViewport.FollowLatest` | experiments/tui-chat/src/viewport.rs:99-102 | the reading position and queued movement are dropped |
| `Viewport.TranscriptViewport.Plan` | experiments/tui-chat/src/viewport.rs:104-186 | the plan addresses exactly the flat top row at both levels, spends the movement and retains the anchor |
| `PolicyComposition.ParseSources` | experiments/policy-engine-spike/src/cedar_engine.rs:119-144 | policies are accepted only when every source parses and every policy has an identity and the scope of its source; their order is kept |
| `PolicyComposition.ScopeActions` | experiments/policy-engine-spike/src/cedar_engine.rs:156-179 | the actions a scope names, with the command group expanded; none for an unconstrained policy |
| `PolicyComposition.SetOf` | experiments/policy-engine-spike/src/cedar_engine.rs:211-217 | the selected policies by identity; it fails exactly on a repeated identity |
| `PolicyComposition.Lower` | experiments/policy-engine-spike/src/cedar_engine.rs:249-255 | a lower scope with its baseline permit; it fails exactly on a repeated identity or one that takes the baseline identity |
| `PolicyComposition.Slice` | experiments/policy-engine-spike/src/cedar_engine.rs:260-274 | the slice for an action holds exactly the policies that constrain no action or this one |
| `PolicyComposition.Load` | experiments/policy-engine-spike/src/cedar_engine.rs:230-302 | a bundle loads if and only if schema, sources, lint, identities, validation and entities are all in order, and then holds the merged, authority, lower and sliced sets |
| `PolicyComposition.ConjunctionIsMerged` | experiments/policy-engine-spike/src/cedar_engine.rs:417-453 | for every request the conjunction of the three sets gives the same allow, rules, reasons and error as the merged set |
| `PolicyComposition.SliceAgrees` | experiments/policy-engine-spike/src/cedar_engine.rs:260-274 | the action slice errs, permits and forbids as the merged set does |
| `PolicyComposition.PatternsAgree` | experiments/policy-engine-spike/src/cedar_engine.rs:310-363 | all three patterns give equal decision records for every request |
| `PolicyComposition.SlicingIsExactIffExpanded` | experiments/policy-engine-spike/src/cedar_engine.rs:156-179 | slicing is exact for every bundle and request if and only if the action groups of the schema are the ones it expands |
| `PolicyComposition.SchemaIsExpanded` | experiments/policy-engine-spike/corpus/asura.cedarschema:51-52 | the action groups of the schema are the ones the slicing step expands |
| `PolicyComposition.LowerScopesNeverWiden` | experiments/policy-engine-spike/src/cedar_engine.rs:181-188 | what a bundle allows its authority part allows with the same record |
| `PolicyComposition.AddingLowerScopesNeverWidens` | experiments/policy-engine-spike/src/cedar_engine.rs:181-188 | adding lower-scope policies to a bundle, anywhere in it and in any order, never turns a denial into a permission, under any pattern |
| `PolicyComposition.RecordIsExact` | experiments/policy-engine-spike/src/cedar_engine.rs:307-414 | for every request and pattern: an oversized or malformed request is denied as such; policies that cannot be evaluated deny and are named; otherwise it is allowed if and only if a permit and no forbid fires, and the record names exactly the permits or forbids that fired, baselines left out, with exactly the reasons those policies give, or no_permit |
| `PolicyComposition.UnlintedPermitWidens` | experiments/policy-engine-spike/src/cedar_engine.rs:181-188 | without the lint a repository permit makes the merged set allow what the conjunction denies |
| `EntityStore.PathParents` | experiments/policy-engine-spike/src/store.rs:37-46 | the parent of a path is what stands before its last name, or the root; only the root and a path without a slash have none |
| `EntityStore.DomainParents` | experiments/policy-engine-spike/src/store.rs:68-78 | the parent of a domain is what follows its first label; only a single label has none |
| `EntityStore.PathLineage` | experiments/policy-engine-spike/src/store.rs:51-66 | a path and everything above it are itself, its prefixes that end before a slash and, if it is absolute, the root |
| `EntityStore.DomainLineage` | experiments/policy-engine-spike/src/store.rs:68-78 | a domain and everything above it are itself and what follows each of its dots |
| `EntityStore.EarlyExitIsComplete` | experiments/policy-engine-spike/src/store.rs:51-78 | stopping a climb at the first name that was stored gives what the walk to the root gives |
| `EntityStore.BuiltIsValid` | experiments/policy-engine-spike/src/store.rs:51-78 | the store built by any sequence of insertions is ancestor-closed and stores the true parents |
| `EntityStore.BuiltContents` | experiments/policy-engine-spike/src/store.rs:51-78 | it holds exactly the inserted names and everything above them, each path with the class last given to it, or ordinary |
| `EntityStore.InsertionsCommute` | experiments/policy-engine-spike/src/store.rs:51-78 | two insertions commute if and only if they do not give one path two classes |
| `EntityStore.EncodersAgree` | experiments/policy-engine-spike/src/store.rs:162-183 | the ancestor list contains exactly the nodes reachable by one or more parent edges, each once, nearest first, all stored |
| `EntityStore.Store.constructor` | experiments/policy-engine-spike/src/store.rs:17-35 | a new store is empty |
| `EntityStore.Store.AddPath` | experiments/policy-engine-spike/src/store.rs:51-66 | the loop with its early exit fills in the whole lineage |
| `EntityStore.Store.AddDomain` | experiments/policy-engine-spike/src/store.rs:68-78 | the same for domains |
| `EntityStore.Store.AncestorList` | experiments/policy-engine-spike/src/store.rs:162-171 | the loop over stored parents computes the ancestors |
| `Calendar.CivilIsValid` | experiments/policy-engine-spike/src/model.rs:291-299 | month and day are valid for the computed year |
| `Calendar.DaysInvertCivil` | experiments/policy-engine-spike/src/model.rs:291-299 | the inverse formula returns the day number of every computed date |
| `Calendar.CivilInvertsDays` | experiments/policy-engine-spike/src/model.rs:291-299 | every valid Gregorian date is computed from its day number |
| `Calendar.CivilFollowsTheCalendar` | experiments/policy-engine-spike/src/model.rs:284-299 | day zero is 1 January 1970 and each next day is the next date by the Gregorian rules |
| `Calendar.DatesAreChronological` | experiments/policy-engine-spike/src/model.rs:284-299 | later days are later dates |
| `Calendar.FieldsAreExact` | experiments/policy-engine-spike/src/model.rs:284-305 | every instant has valid fields, from which its milliseconds are recovered |
| `Calendar.InstantsAreChronological` | experiments/policy-engine-spike/src/model.rs:284-305 | later instants have later, and so distinct, fields |
| `Calendar.FourDigitYears` | experiments/policy-engine-spike/src/model.rs:300-305 | the year has the four digits RFC 3339 asks for if and only if the instant lies between the years 0 and 9999 |
| `Calendar.CivilDate` | experiments/policy-engine-spike/src/model.rs:290-299 | the date computation stays within signed 64-bit integers |
| `Calendar.Rfc3339` | experiments/policy-engine-spike/src/model.rs:284-305 | no intermediate overflows for any 64-bit input |
| `ProcessScope.World.Acquire` | rust/check-i0-driver.rs:3980-4018 | a token belongs to the lifetime it was asked for |
| `ProcessScope.World.FactsOf` | rust/check-i0-driver.rs:3871-3895 | facts come from a lookup of the process asked about, with its session |
| `ProcessScope.ProcessScope.constructor` | rust/check-i0-driver.rs:4108-4115 | a new scope retains nothing and doubts nothing |
| `ProcessScope.ProcessScope.Uncertain` | rust/check-i0-driver.rs:4116-4120 | the first reason for doubt stays |
| `ProcessScope.World.Certify` | rust/check-i0-driver.rs:4135-4165 | a certified token is of the same lifetime and session, on two grants to that process of one generation around a look at that process |
| `ProcessScope.World.OldIdentityGone` | rust/check-i0-driver.rs:4121-4134 | a lifetime is gone only on a failed lookup of its process and a later census without it |
| `ProcessScope.ProcessScope.Certify` | rust/check-i0-driver.rs:4135-4165 | the certification is recorded with the answers about that process that bear it out |
| `ProcessScope.ProcessScope.Depart` | rust/check-i0-driver.rs:4195-4203 | a lifetime is marked gone with its departure on record: the failed lookup of its own process and the census without it |
| `ProcessScope.ProcessScope.Recheck` | rust/check-i0-driver.rs:4179-4213 | a retained lifetime is kept, marked pending, or gone on the evidence of a departure, never lost; one whose process is absent, from the census too, is gone, and one whose process lives is its own and nothing is pending of it |
| `ProcessScope.ProcessScope.Observe` | rust/check-i0-driver.rs:4250-4297 | a candidate is observed, ends the scan, or is left only when it is pending, gone or unknown; one that lives is observed as it is |
| `ProcessScope.ProcessScope.Admit` | rust/check-i0-driver.rs:4308-4366 | a lifetime is retained under its own key, within the bound, only while nobody holds its process identifier and only if it is the anchor or was seen in its session; one that lives there is retained or the scan ends |
| `ProcessScope.ProcessScope.Recertify` | rust/check-i0-driver.rs:4375-4427 | a retained token is replaced by one certified in this scan, or the lifetime is pending, a zombie or gone |
| `ProcessScope.ProcessScope.Adopt` | rust/check-i0-driver.rs:4388-4403 | the certification is recorded; the token is taken, and the last signal forgotten exactly when the generation changed, unless that generation already missed a signal |
| `ProcessScope.ProcessScope.Send` | rust/check-i0-driver.rs:4428-4440 | the signal goes out with the token certified just before, is recorded with what the kernel answered to that token and signal, and is not repeated to a generation it last reached |
| `ProcessScope.ProcessScope.Engage` | rust/check-i0-driver.rs:4375-4440 | a held lifetime ends with a token certified in this scan and the signal of this phase on record as delivered to its generation, or pending, gone or a zombie |
| `ProcessScope.ProcessScope.Serve` | rust/check-i0-driver.rs:4366-4440 | the same, and a lifetime outside the session is a reason for doubt unless the scope is delegated |
| `ProcessScope.ProcessScope.Handle` | rust/check-i0-driver.rs:4298-4441 | every lifetime of an observed candidate is served; a replaced lifetime ends the scan |
| `ProcessScope.ProcessScope.Inspect` | rust/check-i0-driver.rs:4223-4441 | one candidate: only its lifetimes change, and each is served unless it is the exited anchor; a process that lives through the scan in the session, or was held before, is retained as live, and doubted if it left the session |
| `ProcessScope.ProcessScope.Candidates` | rust/check-i0-driver.rs:4214-4222 | the census, the anchor and every retained process |
| `ProcessScope.OneMoreServed` | rust/check-i0-driver.rs:4223-4441 | serving one candidate leaves those before it served |
| `ProcessScope.ProcessScope.Verdict` | rust/check-i0-driver.rs:4442-4454 | clear exactly when the anchor exited and nothing else retained is left; residual exactly when something else is live |
| `ProcessScope.ProcessScope.Scan` | rust/check-i0-driver.rs:4167-4455 | over any answers: at most one member per process identifier not gone, gone and the first fault permanent, members bounded and keyed by lifetime, nothing but the anchor and what was seen in its session retained or signalled, nothing gone without a departure seen in this scan, only this phase signalled, every signal on a token certified just before, a signal remembered as sent on record as delivered. A finished scan served every lifetime it retains; every process of the census it read that lives through it in the session, and whatever was held before, is retained, served and not gone unless it had been looked up in vain before the scan, is left for later only when its signal missed, and keeps the verdict from being clear; a held process outside the session is a reason for doubt; what is absent throughout is gone. On a quiet system that keeps the generation of the anchor the scan finishes |
| `ProcessScope.AttendedIsFound` | rust/check-i0-driver.rs:4214-4454 | what lives through a scan is found, and the verdict counts it |
| `ProcessScope.WatchedStep` | rust/check-i0-driver.rs:4223-4441 | inspecting one candidate keeps what holds of the processes inspected before and of those still to come |
| `ProcessLife.LivingIsNotGone` | rust/check-i0-driver.rs:4179-4213 | a lifetime is not found gone in a scan through which its process lives |
| `ProcessLife.GoneWasAbsent` | rust/check-i0-driver.rs:4121-4134 | a lifetime marked gone was once looked up in vain |
| `ProcessLog.CertificationKeepsSound` | rust/check-i0-driver.rs:4388-4403 | taking a new token keeps the record sound and forgets the last signal exactly when the generation changed |
| `ProcessLog.SignalKeepsSound` | rust/check-i0-driver.rs:4428-4440 | a signal other than the last one sent, on the certification just recorded, keeps the record sound: ordered in time, vouched for, and in step with what members remember |
| `ProcessLog.DepartureKeepsSound` | rust/check-i0-driver.rs:4195-4203 | marking a lifetime gone with its departure on record keeps the record sound |
| `ProcessLog.AdmissionKeepsSound` | rust/check-i0-driver.rs:4308-4366 | retaining a new lifetime keeps the record sound |
| `ProcessLog.SignalsSucceedOnce` | rust/check-i0-driver.rs:4388-4440 | each signal succeeds at most once per execution generation of a lifetime, if the kernel never grants a generation again after another and killing follows terminating |
| `ProcessLog.ReturningGenerationIsSignalledAgain` | rust/check-i0-driver.rs:4393-4403 | conversely, a live lifetime served in a phase at a generation that was signalled before another one was certified has been signalled again |
| `ProcessLog.RepetitionNeedsAReturn` | rust/check-i0-driver.rs:4388-4440 | a signal that succeeded twice on one generation has the certification of another generation between |
| `ProcessLog.ReturnsAreGranted` | rust/check-i0-driver.rs:4135-4165 | such a return in the record is a return in the grants of the kernel |
| `ProcessReturn.SignalledTwice` | rust/check-i0-driver.rs:4167-4455 | on a concrete system that grants generations 7, 8 and 7, three scans of the terminate phase signal generation 7 twice |
| `ProcessReturn.TerminateAt` | rust/check-i0-driver.rs:4167-4455 | on that system each of those scans finishes, certifies the generation of its time and delivers the signal to it |
| `Supervision.Supervision.constructor` | rust/check-i0-driver.rs:436-446 | supervision starts without observations |
| `Supervision.Supervision.Watch` | rust/check-i0-driver.rs:461-496 | the child runs unsignalled until exit, deadline, interruption or doubt; the loop ends, without failure only at the exit, and a failure is the first one of its last round |
| `Supervision.Supervision.WatchOnce` | rust/check-i0-driver.rs:462-495 | one round reports exactly the first failure in the order interruption, deadline, failed read, doubt, or none, and makes a scan that is due |
| `Supervision.Supervision.Scan` | rust/check-i0-driver.rs:540-565 | a scan without a verdict leaves a fault, and its record says when, in which phase and by which deadline it was made and what it left; the counter counts clear scans at least 100 ms apart |
| `Supervision.CountedTwice` | rust/check-i0-driver.rs:540-565 | the counter reaches two if and only if there were two clear scans at least 100 ms apart with none between that was not clear |
| `Supervision.Supervision.Cleanup` | rust/check-i0-driver.rs:497-579 | a scan of cleanup belongs to the kill phase, with its deadline, if and only if it started after the grace period, and to the terminate phase otherwise; the first round scans, and by every reading of the clock after the grace period the kill phase has scanned; at most 64 scans per phase; it ends with two clear scans or with a fault, and without them only after the whole time or all scans of a phase |
| `Supervision.Supervision.CleanupRound` | rust/check-i0-driver.rs:509-575 | one round reads the pipes, looks for the exit, moves on to killing after the grace period and scans when due |
| `Supervision.Supervision.CleanupScan` | rust/check-i0-driver.rs:528-572 | a scan completes the evidence if and only if two clear scans are far enough apart and the pipes are read or given up; a live descendant of a successful child becomes the failure unless there is one |
| `Supervision.KillIsDelivered` | rust/check-i0-driver.rs:524-565 | a lifetime that a finished scan of the kill phase leaves live has a delivered kill on record |
| `Supervision.WhatLivesIsKilled` | rust/check-i0-driver.rs:524-565 | an owned process that lives through a finished scan of the kill phase was killed, unless its signal missed or it had once been looked up in vain |
| `Supervision.ClearIsEmpty` | rust/check-i0-driver.rs:540-565 | through a clear scan no owned process but the anchor lived, unless it had once been looked up in vain |
| `Supervision.Supervision.Settle` | rust/check-i0-driver.rs:581-617 | exactly when a run is settled and when its result is a success, which error it gives otherwise, and when reaping is a reason for doubt |
| `Supervision.ClearRunSettles` | rust/check-i0-driver.rs:540-565 | two counted clear scans mean that no scan went without a verdict and every lifetime ever retained, but the anchor, is gone |
| `Supervision.Supervise` | rust/check-i0-driver.rs:397-626 | every run: nothing but the anchor and what was seen in its session is retained or signalled, watching signals nothing, cleanup terminates and then kills. A started child reported settled: no scan without verdict, exit observed and reaped as observed, two clear scans at least 100 ms apart with all lifetimes gone, each on the evidence of its departure, and nothing owned living through them, and a valid receipt on a failure-free run when delegated; a successful result means no scan saw a live descendant after the exit |
| `Supervision.RunSignalsOnce` | rust/check-i0-driver.rs:497-579 | over a whole run, if the kernel never grants a generation again after another, two successful signals to one execution generation are terminate and then kill |
| `SchemaCycle.ClearStep` | rust/crates/asura-control/build.rs:184-198 | a node is clear of the stack exactly when it is off the stack and its children are clear below it |
| `SchemaCycle.AcyclicIsSimple` | rust/crates/asura-control/build.rs:199-201 | no path repeats a message exactly when no path is a cycle |
| `SchemaCycle.Visitor.Visit` | rust/crates/asura-control/build.rs:184-198 | the visit ends on every finite graph, succeeds exactly when no path from the node meets the stack or itself, and restores the stack |
| `SchemaCycle.CheckSchema` | rust/crates/asura-control/build.rs:199-201 | visiting every message succeeds if and only if no message can contain itself |

## Left out

- Event sequence, `last_event` and `FixtureEvent`: bookkeeping without influence on any other field.
- User-facing strings: transcript lines are modelled by kind and exact byte length, reasons by cause.
- Identities of transcript entries are unbounded naturals, where the source has 128 bits and increments without a check.
- Command definitions are four extension sources and their argument rule; their labels, descriptions and completion lists would only add data.
- Rendering, key handling, the editor, pacing, terminal modes and scripted demos.
- Line wrapping: a line has between 1 and 65536 wrapped rows, whatever its text.
- Cedar, Rego and solver internals, request bounds and JSON encoding: an oversized or malformed request is a flag on the request.
- Entity kinds of the store without a hierarchy.
- The text `rfc3339` formats: the fields are modelled, not their padding.
- Preparation, publication and worktree bookkeeping of the check driver, and everything about files, pipes, Mach ports and sockets.
- Error messages of process supervision: a fault is known by its presence and its first cause.
- Table generation of the schema build step other than the cycle check; unresolved names end the build before it.
