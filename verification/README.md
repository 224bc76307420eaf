# Persistent state machines of the LINE delivery backend

The backend keeps its promises in database rows that many requests, workers and operators change at
the same time. This project describes each repository method as one atomic step on those rows and
proves what every interleaving of the steps keeps.

## Layout

- `Wrappers`, `BinaryData`: optional values; bytes.
- `RichMenuModel`, `RichMenuSteps`: the rich-menu tables, the two transition relations, and every
  mutating repository method as a function from a store to a store and an answer.
- `RichMenuInvariant`, `RichMenuHistory`, `RichMenuReplacement`: three facts every step keeps: how the
  slots, operations and resources fit together; that the transition table replays to the state; that
  replacements never form a cycle.
- `RichMenuRuns`, `RichMenuStages`, `RichMenuRecovery`: what holds in every reachable store, what a
  single row may go through over a run, and the outcomes of the nested apply recovery.
- `RichMenuPaths`, `RichMenuRequests`, `RichMenuAnswers`, `RichMenuFinalization`: the way of an operation
  along the stages of its kind, where rows come from, and exactly when each method does something.
- `RichMenuRepository`: the repository as a class whose methods fetch, change and save rows, each tied
  to its step. `RichMenuHistoryPages`: the paged history.
- `CleanupRepair`, `CleanupStateRepair`, `CleanupDrain`: the repair of replacements that were recorded
  as successes too early: its selection, its loop, and repeated repair and cleanup. `CleanupAnswers`:
  exactly when it gives a plan. `ChannelFrame`,
  `CleanupAmongOthers`: calls on other channels, and repair and cleanup among them.
- `Deactivation`, `DeactivationRepository`, `DeactivationProtocol`, `DeactivationRuns`: the intent to
  disable a channel, the fence inside acceptance, and coordinators that read, decide and commit in
  separate transactions. `DeactivationAnswers`: exactly when each answer is given and
  each write taken. `DeactivationOwners`: runs in which a channel has one owner. `DeactivationAlone`: how
  far an undisturbed coordinator gets.
  `DeactivationCoordinator`: one coordinator as an object.
- `Accounts`, `AccountRepository`, `AccountUnlink`, `AccountHistory`, `AccountUnlinkService`,
  `Friendship`: the owner account, the unlink saga and what its runs leave, the service as an object, and
  the follow/unfollow projection.
- `Delivery`, `DeliveryRuns`, `DeliveryRepository`, `DeliveryAnswers`, `DeliveryService`: push attempts
  statement by statement, what each answer means, and the repository and the push pipeline as objects.
- `Credentials`, `Rotation`: re-encryption of stored credentials.
- `Cmap`, `CmapLookup`, `Canonical`: the character map reader, the lookups it has to agree with, and the
  byte strings behind fingerprints.

## How the steps are read

- A method that runs in one transaction is one step. Where the code uses several transactions or
  single statements (coordinators, the unlink saga, delivery attempts, rotation), each of those is a
  step of its own and anything may happen in between, a crash included.
- Answers of fences, gateways, clocks, random sources and the database are arguments, so every
  theorem ranges over all of them. `Raised` stands for an exception that rolled the transaction back.
- Hashes are taken to be injective, a ciphertext opens only under its own key, and random ids are
  fresh where a theorem says so.
- Times are natural numbers. A write of a channel row gives it a later revision; this is an assumption
  of the deactivation theorems (`Deactivation.Timely`, `DeactivationRuns.Admissible`).

## What the code does that its names do not say

- `complete_apply` turns a refused finalization into a conflict whose reason its own type rejects
  (`backend/linerichmenus/repository.py:1107`, 1215): the call raises and rolls back.
- A completed deactivation intent can be reserved again under the same operation id, and noting a
  revision conflict checks no revision, so a coordinator left over from the first round can move the
  second one to confirmation, exactly when the operation id and the owner are the same again. It can
  never disable the channel.
- The unlink that disabling runs itself marks its menu for cleanup, and the assessment after it asks for
  cleanup before anything else; so a coordinator that had to unlink never completes by itself, and does
  exactly if the menu is deleted before it looks again.
- A disable assessment sees only the asking owner's operations: another owner's blocker is not seen.
- The acceptance fence lets an ordinary operation of the intent's owner through exactly when its id is
  the bound recovery id and the intent names no subject.
- The duplicate check of friendship events drops a newer event that reuses the id held, so the order of
  events matters exactly when a reused id can drop the greatest newer one.

## Model

| member | source | states |
|---|---|---|
| RichMenuRuns.ActiveExactlyWhileLive | backend/linerichmenus/repository.py:390-842 | In every reachable store an operation is accepted, processing or recovering if and only if it is its channel's active operation, no other channel names it, and a stage start time appears only on processing or recovering operations. |
| RichMenuRuns.BlockerExcludesOrdinaryWork | backend/linerichmenus/repository.py:1335-1787 | In every reachable store a blocker is an unknown or cleanup-required operation, and the only operation that can be active beside it is a recovery of that very blocker; so ordinary work has no blocker beside it. |
| RichMenuRuns.AppliedExactlyWhileCurrent | backend/linerichmenus/repository.py:1201-1333 | In every reachable store a resource is applied if and only if it is its channel's current resource; there is at most one. |
| RichMenuRuns.ConstraintsNeverFire | backend/linerichmenus/models.py:155-336 | The check constraints on operations and resources and the uniqueness of (operation, sequence) hold in every reachable store, so no step of the model is ever stopped by them. |
| RichMenuRuns.LogReplaysToState | backend/linerichmenus/repository.py:595-619 | In every reachable store, repairs and purges included, replaying an operation's transition rows with their numbering and from-statuses checked gives exactly its stored status, stage and result, and an operation that is gone has no rows. |
| RichMenuRuns.ReplacementsNeverCycle | backend/linerichmenus/repository.py:1789-1881 | In every reachable store no chain of replacements comes back to a resource it has passed. |
| RichMenuRuns.RunKeepsSound | backend/linerichmenus/repository.py:390-1881 | Any sequence of repository, purge and repair calls, in any order and with any fence answers and clocks, keeps the invariant, the faithful history and the order of replacements together. |
| RichMenuRuns.NextKeepsInv | backend/linerichmenus/repository.py:390-1881 | Each single call keeps the invariant. |
| RichMenuRuns.NextKeepsHistory | backend/linerichmenus/repository.py:595-619 | Each single call keeps every operation's transition rows faithful to its stored state. |
| RichMenuRuns.NextKeepsOrder | backend/linerichmenus/repository.py:1789-1881 | Each single call keeps the replacement relation free of cycles. |
| RichMenuInvariant.CompleteStageKeeps | backend/linerichmenus/repository.py:459-530 | Completing a stage, with a matching or a stale fence, keeps the invariant. |
| RichMenuInvariant.ClaimKeeps | backend/linerichmenus/repository.py:390-457 | Claiming a stage, including the expiry of one that was started too long ago, keeps the invariant. |
| RichMenuInvariant.HandoffKeeps | backend/linerichmenus/repository.py:1613-1787 | A recovery handoff keeps the invariant whether it hands the channel back, moves the blocker to itself, or is rejected as stale. |
| RichMenuInvariant.AcceptKeeps | backend/linerichmenus/repository.py:621-727 | Acceptance keeps the invariant, with and without a candidate resource. |
| RichMenuInvariant.AcceptRecoveryKeeps | backend/linerichmenus/repository.py:1488-1611 | Recovery acceptance keeps the invariant. |
| RichMenuInvariant.CompleteApplyRecoveryKeeps | backend/linerichmenus/repository.py:1138-1199 | The nested apply recovery keeps the invariant on every path, rolled back or not. |
| RichMenuInvariant.ReplacementKeeps | backend/linerichmenus/repository.py:1789-1881 | Recording a replacement moves two resources and the current slot and keeps the invariant. |
| RichMenuInvariant.CleanupCompletionKeeps | backend/linerichmenus/repository.py:1389-1486 | Completing a cleanup recovery ends both operations and keeps the invariant. |
| RichMenuInvariant.PurgeKeeps | backend/linerichmenus/headless.py:474-548 | Purging a finished channel removes its rows without leaving a dangling reference. |
| RichMenuHistory.NumberedByLength | backend/linerichmenus/repository.py:604-613 | The next number computed from the highest stored one equals the length of the operation's history plus one, so numbering has no gaps. |
| RichMenuHistory.NumbersAreUnique | backend/linerichmenus/models.py:312-314 | Of two rows of one operation the later one in the table has the larger number. |
| RichMenuHistory.HandoffKeepsHistory | backend/linerichmenus/repository.py:1700-1745 | A handoff writes one row for the recovery and one for its subject, and both histories stay faithful. |
| RichMenuHistory.CorrectionKeepsHistory | backend/linerichmenus/cleanup_repair.py:190-209 | The correction a repair appends after a recorded success keeps the history faithful. |
| RichMenuReplacement.SuccessionIsInjective | backend/linerichmenus/repository.py:1825-1881 | A replaced resource has one successor, and a resource succeeds at most one other. |
| RichMenuReplacement.NoCycle | backend/linerichmenus/repository.py:1789-1881 | A ranking of resources that grows along replacements rules out every cycle. |
| RichMenuReplacement.CausallyFirst | backend/linerichmenus/cleanup_repair.py:128-136 | Any non-empty set of resources has one that succeeds none of the others. |
| RichMenuReplacement.DeletionSparesSuccessors | backend/linerichmenus/repository.py:1311-1333 | Deleting an old resource leaves another resource's successor present if and only if the deleted one was not that successor. |
| RichMenuReplacement.ReplacementKeepsOrder | backend/linerichmenus/repository.py:1860-1881 | A recorded replacement adds an edge and no cycle. |
| RichMenuStages.StageHandedOutOnce | backend/linerichmenus/repository.py:390-457 | Between two hand-outs of the same stage of the same operation some call reopened it: a purge, or a recovery that put the operation back, and the latter only for the verifying and cleaning stages. |
| RichMenuStages.ExpiredRefusesCompletion | backend/linerichmenus/repository.py:414-436 | After a stage expired every later completion is refused as stale and changes nothing, until a recovery puts the operation back to processing. |
| RichMenuStages.CallMovesRow | backend/linerichmenus/state_machine.py:71-141 | What any call may do to any operation row: identity columns never change, stages never go back, nothing returns to accepted, and only a recovery returns an operation to processing. |
| RichMenuStages.CallMovesResource | backend/linerichmenus/state_machine.py:57-69 | What any call may do to any resource row: it follows the lifecycle edges, and a bound LINE id and a recorded replacement are never rewritten. |
| RichMenuStages.ResourcesEndureRuns | backend/linerichmenus/repository.py:972-995 | Over any run without a purge of it, a resource keeps its channel, origin, LINE id and replacement, and deleted and released are final. |
| RichMenuPaths.SuccessorsFollowThePath | backend/linerichmenus/state_machine.py:19-33 | Each kind has a path of stages; an operation starts at its first and goes on exactly to the next one. |
| RichMenuPaths.OutcomesAlongThePath | backend/linerichmenus/state_machine.py:34-56 | An operation succeeds exactly at the end of its path; an apply fails only before LINE holds anything and is left to clean from then on; only a release never ends unknown. |
| RichMenuPaths.CallGoes | backend/linerichmenus/repository.py:390-1881 | Every call takes every operation one step on its path at most, and a start time comes only from a hand-out. |
| RichMenuPaths.StagesArePassedInOrder | backend/linerichmenus/state_machine.py:28-33 | Over any run, an operation is at a stage of its path only after it was at the stage before it; nothing reaches the setting of a default menu but an apply whose upload was under way. |
| RichMenuPaths.PutBackExactly | backend/linerichmenus/repository.py:2189-2198 | A confirmed ordinary subject resumes exactly at the stage its completion would have led to, or repeats its verification or cleanup. |
| RichMenuPaths.ConfirmedEndsExactly | backend/linerichmenus/repository.py:2174-2188 | Any other confirmed subject ends where it is, and only an apply whose menu was never the default is left to clean. |
| RichMenuPaths.ClaimsExactly | backend/linerichmenus/repository.py:410-457 | A claim waits exactly while the stage is out for less than the timeout, expires it exactly once it is out that long, and otherwise hands out exactly the stage the operation is at; a refusal changes nothing. |
| RichMenuPaths.ExpiredBlocks | backend/linerichmenus/repository.py:532-593 | An expired stage leaves its operation unknown and in the way of the channel; an expired recheck has failed and leaves its subject in the way. |
| RichMenuPaths.ClaimedWorks | backend/linerichmenus/repository.py:424-457 | A claimed stage is processing from now and its operation the active one. |
| RichMenuPaths.StartsAreHandOuts | backend/linerichmenus/repository.py:445-450 | Over any run, a stage that is out was handed out at the time it says and has been out ever since. |
| RichMenuPaths.OnlyOverdueStagesExpire | backend/linerichmenus/repository.py:410-422 | Over any run, a claim expires only a stage that was handed out at least the timeout ago and never came back. |
| RichMenuRequests.RowsAreAsked | backend/linerichmenus/repository.py:621-727 | Every new operation row carries the channel, owner and provider of the acceptance or reservation that asked for it. |
| RichMenuAnswers.AcceptsExactly | backend/linerichmenus/repository.py:621-727 | An ordinary operation is accepted exactly in a free channel, on the current menu it names, under a new id and with a confirmation never used. |
| RichMenuAnswers.AcceptedWaits | backend/linerichmenus/repository.py:621-727 | It is then the active operation, waiting for its first claim, and an apply has a candidate of its own. |
| RichMenuAnswers.AcceptanceIsIdempotent | backend/linerichmenus/repository.py:640-660 | The same command again is answered with its stored row, another one under its id is refused, and what is not accepted leaves operations, resources and slots alone. |
| RichMenuAnswers.ConfirmationsAreUsedOnce | backend/linerichmenus/repository.py:621-727 | Over any run no two operations were accepted on one confirmation. |
| RichMenuAnswers.RecoversExactly | backend/linerichmenus/repository.py:1488-1611 | A recovery is accepted exactly for the blocker of an idle channel by the blocker's own owner: a recheck of an unknown operation, a cleanup of what a cleanup-required one left over. |
| RichMenuAnswers.RecoveryStarts | backend/linerichmenus/repository.py:1488-1611 | It is handed out at once and active beside its blocker. |
| RichMenuAnswers.HandsOffExactly | backend/linerichmenus/repository.py:1613-1700 | A handoff goes through exactly for the active recovery of its subject, with a stale fence always and otherwise with an outcome the subject can take. |
| RichMenuAnswers.HandoffOutcomes | backend/linerichmenus/repository.py:1700-1787 | Three ends: the recovery failed and its subject stays in the way; the cleanup took its subject's place; or the recovery succeeded and its subject is where it was found to be, active again only if it goes on. |
| RichMenuAnswers.RecoveryEndsExactly | backend/linerichmenus/repository.py:1335-1387 | A recovery that learned nothing becomes the blocker, one that failed leaves its subject in the way. |
| RichMenuAnswers.CleanupEndsExactly | backend/linerichmenus/repository.py:1389-1486 | A cleanup ends exactly when the resource it was accepted for is deleted and still ties to its subject at its cleaning stage; both operations then succeed and the channel is free. |
| RichMenuAnswers.CompletesExactly | backend/linerichmenus/repository.py:459-530 | A completion is heard exactly while its stage is out, with an outcome its path allows or a stale fence. |
| RichMenuAnswers.CompletionOutcomes | backend/linerichmenus/repository.py:459-530 | The row after it, and who is active and who is in the way. |
| RichMenuAnswers.ReservesExactly | backend/linerichmenus/repository.py:729-842 | Disabling reserves an unlink exactly of the current managed menu of a free channel with nothing left to clean, as its own owner saw it when the proof was made. |
| RichMenuAnswers.ReservedWaits | backend/linerichmenus/repository.py:729-842 | The reserved unlink waits for its first claim, on the current menu. |
| RichMenuFinalization.FinalizesExactly | backend/linerichmenus/repository.py:1201-1256 | A menu becomes current exactly at its apply's verification once it is bound to LINE; displacing another one takes a matching fence and leaves that one old and tied to the apply. |
| RichMenuFinalization.ReplacesExactly | backend/linerichmenus/repository.py:1789-1881 | A replacement is recorded exactly for the current menu and a verified apply's candidate. |
| RichMenuFinalization.AppliesExactly | backend/linerichmenus/repository.py:1099-1136 | An apply is completed as a whole exactly when its stage is out and both fences allow it, and succeeded exactly if nothing was displaced; otherwise nothing changes. |
| RichMenuFinalization.GivesUpExactly | backend/linerichmenus/repository.py:1045-1333 | Each way to give up a resource, exactly from where: the current menu is unlinked or released, anything still at LINE is marked for cleanup, what is no longer current is deleted, an unbound candidate is discarded. |
| RichMenuFinalization.BindsExactly | backend/linerichmenus/repository.py:972-995 | A LINE id is bound to one resource, once; binding it again is answered, anything else refused. |
| RichMenuFinalization.ObservesExactly | backend/linerichmenus/repository.py:892-932 | An observation is recorded unless it names a menu that is not the caller's, and changes nothing else. |
| RichMenuFinalization.ForgetsExactly | backend/linerichmenus/headless.py:474-548 | A channel's history is forgotten exactly when everything in it has come to its end, and then altogether. |
| RichMenuRecovery.HoldsExactly | backend/linerichmenus/repository.py:1138-1165 | An apply recovery is under way exactly for an active recheck of an unknown apply whose menu may already be the default, with that apply's own bound candidate. |
| RichMenuRecovery.ApplyRecoveryOutcomes | backend/linerichmenus/repository.py:1138-1199 | Apply recovery has exactly three outcomes and exactly when each occurs: nothing changed; the recovery failed with its subject still blocking; or the candidate is current and the subject succeeded, or needs cleanup and blocks when a resource was displaced. |
| RichMenuRepository.DjangoRichMenuRepository.constructor | backend/linerichmenus/repository.py:371-388 | An empty repository with a positive in-flight timeout. |
| RichMenuRepository.DjangoRichMenuRepository.AppendTransition | backend/linerichmenus/repository.py:595-619 | Appends one row numbered one above the operation's highest. |
| RichMenuRepository.DjangoRichMenuRepository.ClaimStage | backend/linerichmenus/repository.py:390-457 | Reads the rows, changes them field by field and leaves the store and the answer the claiming step defines, including the two expiry paths. |
| RichMenuRepository.DjangoRichMenuRepository.CompleteStage | backend/linerichmenus/repository.py:459-530 | Leaves the store and the answer of the completing step. |
| RichMenuRepository.DjangoRichMenuRepository.MakeUnknown | backend/linerichmenus/repository.py:532-555 | The operation becomes unknown and the channel's blocker; the answer carries the new row. |
| RichMenuRepository.DjangoRichMenuRepository.ExpireRecovery | backend/linerichmenus/repository.py:557-593 | A recheck fails and leaves the blocker; a cleanup becomes unknown and the blocker itself. |
| RichMenuRepository.DjangoRichMenuRepository.Accept | backend/linerichmenus/repository.py:621-727 | Leaves the store and the answer of the accepting step; a candidate id that collides rolls back to the store before the call. |
| RichMenuRepository.DjangoRichMenuRepository.ReserveDisableUnlink | backend/linerichmenus/repository.py:729-842 | Leaves the store and the answer of the reservation for disabling. |
| RichMenuRepository.DjangoRichMenuRepository.RecordObservation | backend/linerichmenus/repository.py:892-932 | Records the observation, and creates the channel row even when the observed resource is not the owner's. |
| RichMenuRepository.DjangoRichMenuRepository.BindLineId | backend/linerichmenus/repository.py:972-995 | Binds a LINE id once; a second binding only compares. |
| RichMenuRepository.DjangoRichMenuRepository.MarkResourceCleanupRequired | backend/linerichmenus/repository.py:1045-1075 | Moves the resource along an allowed edge and frees the current slot. |
| RichMenuRepository.DjangoRichMenuRepository.DiscardCandidate | backend/linerichmenus/repository.py:1077-1097 | Deletes a candidate that has no LINE id. |
| RichMenuRepository.DjangoRichMenuRepository.CompleteApply | backend/linerichmenus/repository.py:1099-1136 | Finalizes and completes in one transaction; a refusal of either restores the store. |
| RichMenuRepository.DjangoRichMenuRepository.CompleteApplyRecovery | backend/linerichmenus/repository.py:1138-1199 | Hands off, claims and completes in one transaction; a refusal of a later part restores the store before the handoff. |
| RichMenuRepository.DjangoRichMenuRepository.FinalizeApply | backend/linerichmenus/repository.py:1201-1256 | Makes the candidate current, or replaces the current resource. |
| RichMenuRepository.DjangoRichMenuRepository.FinalizeUnlink | backend/linerichmenus/repository.py:1258-1281 | Leaves the store and the answer of the unlinking step. |
| RichMenuRepository.DjangoRichMenuRepository.FinalizeRelease | backend/linerichmenus/repository.py:1283-1309 | Leaves the store and the answer of the releasing step. |
| RichMenuRepository.DjangoRichMenuRepository.FinalizeDeleted | backend/linerichmenus/repository.py:1311-1333 | Leaves the store and the answer of the deleting step. |
| RichMenuRepository.DjangoRichMenuRepository.CompleteRecovery | backend/linerichmenus/repository.py:1335-1387 | Leaves the store and the answer of the recovery completion. |
| RichMenuRepository.DjangoRichMenuRepository.CompleteCleanupRecovery | backend/linerichmenus/repository.py:1389-1486 | Ends subject and recovery together and frees both slots. |
| RichMenuRepository.DjangoRichMenuRepository.AcceptRecovery | backend/linerichmenus/repository.py:1488-1611 | Leaves the store and the answer of the recovery acceptance. |
| RichMenuRepository.DjangoRichMenuRepository.HandoffRecovery | backend/linerichmenus/repository.py:1613-1747 | Leaves the store and the answer of the handoff. |
| RichMenuRepository.DjangoRichMenuRepository.RejectStaleRecovery | backend/linerichmenus/repository.py:1749-1787 | The recovery fails, the channel has no active operation and keeps its blocker. |
| RichMenuRepository.DjangoRichMenuRepository.RecordReplacement | backend/linerichmenus/repository.py:1789-1881 | Leaves the store and the answer of the replacing step. |
| RichMenuRepository.DjangoRichMenuRepository.PurgeHistory | backend/linerichmenus/headless.py:474-548 | Removes a finished channel with all its rows, or restores everything when the database refuses a delete. |
| RichMenuHistoryPages.PagesCoverTheHistory | backend/linerichmenus/repository.py:1970-2002 | Following the cursors from the first page lists every operation of the owner and channel once, newest first, whatever the page size from 1 to 50. |
| RichMenuHistoryPages.NextCursorLeavesTheRest | backend/linerichmenus/repository.py:1991-2002 | A page with a next cursor is full, and what is left below the cursor is exactly the rest of the listing and smaller, so following ends. |
| RichMenuHistoryPages.ArrivalsDoNotShowUp | backend/linerichmenus/repository.py:1991-1996 | Operations accepted while a reader pages do not change any later page. |
| CleanupRepair.RepairKeeps | backend/linerichmenus/cleanup_repair.py:38-210 | A repair keeps the invariant and touches no resource. |
| CleanupRepair.LeastIsUnique | backend/linerichmenus/cleanup_repair.py:180-182 | Two candidates that are both least by acceptance time and operation are one, so the choice does not depend on the order of the scan. |
| CleanupRepair.RepairEnablesCleanup | backend/linerichmenus/repository.py:1535-1575 | After a written or confirmed repair, acceptance of the cleanup for the returned pair has nothing left to refuse. |
| CleanupRepair.RepairIsIdempotent | backend/linerichmenus/cleanup_repair.py:183-188 | Repairing again with the same confirmation reports the same pair as already repaired and writes nothing. |
| CleanupAnswers.ProvenExactly | backend/linerichmenus/cleanup_repair.py:128-170 | In a sound store the evidence asked of an old resource comes down to this: LINE still holds it, this owner applied it, and this owner's apply of a menu that went on to be shown displaced it. |
| CleanupAnswers.PlansExactly | backend/linerichmenus/cleanup_repair.py:85-210 | A plan is given exactly if the request is allowed and the earliest eligible resource is not behind another blocker; it names that resource and the apply that displaced it and says whether that is repaired already. |
| CleanupAnswers.RepairWrites | backend/linerichmenus/cleanup_repair.py:190-209 | A written repair corrects the named apply to the blocker at its cleanup and touches nothing else. |
| CleanupStateRepair.Repairer.Collect | backend/linerichmenus/cleanup_repair.py:127-178 | One pass collects exactly the old resources that carry every piece of evidence, and counts the old resources. |
| CleanupStateRepair.Repairer.Earliest | backend/linerichmenus/cleanup_repair.py:180-182 | Picks a candidate whose replacing operation was accepted first. |
| CleanupStateRepair.Repairer.Correct | backend/linerichmenus/cleanup_repair.py:189-209 | Appends the correction and makes the subject the blocker at the cleaning stage. |
| CleanupStateRepair.Repairer.Run | backend/linerichmenus/cleanup_repair.py:38-210 | The whole call leaves the store and gives the answer of the repair, refusals in their order included. |
| CleanupDrain.PlanExists | backend/linerichmenus/cleanup_repair.py:128-178 | While old resources with their evidence are left, a causally first one is always found and planned. |
| CleanupDrain.ConfirmedRepair | backend/linerichmenus/cleanup_repair.py:53-54 | Confirming a plan, new or already written, names the same pair and leaves its subject waiting at the cleaning stage. |
| CleanupDrain.CycleCleans | backend/linerichmenus/cleanup_repair.py:85-210 | Whatever plan the repair gives (new, confirmed or already written) and whatever else the channel holds, confirmation, recovery acceptance, deletion and completion delete the planned resource, settle its subject, free both slots and touch no other row. |
| CleanupDrain.CycleShrinks | backend/linerichmenus/cleanup_repair.py:85-210 | Each cycle on a plan leaves exactly the planned old resource less, and so lowers their count by one. |
| CleanupDrain.CycleStaysDrainable | backend/linerichmenus/cleanup_repair.py:128-178 | Where every old resource has its evidence, the ones left after a cycle keep theirs, so the next cycle finds a plan. |
| ChannelFrame.ElsewhereKeepsChannel | backend/linerichmenus/repository.py:390-1881 | A call on one channel leaves the slots, operations and resources of every other channel as they were. |
| ChannelFrame.RunElsewhere | backend/linerichmenus/repository.py:390-1881 | So does any run of calls that each work elsewhere at their turn. |
| CleanupAmongOthers.SameRepair | backend/linerichmenus/cleanup_repair.py:85-210 | The repair reads its channel only: in two stores that agree on the channel it gives the same plan and the same correction. |
| CleanupAmongOthers.OthersDoNotMatter | backend/linerichmenus/cleanup_repair.py:85-210 | With any runs on other channels before each of its transactions, a cycle leaves its channel as if it had run alone. |
| CleanupAmongOthers.CycleShrinksAmongOthers | backend/linerichmenus/cleanup_repair.py:85-210 | And so it still leaves exactly the planned old resource less, with nothing active and no blocker. |
| CleanupDrain.DrainEmpties | backend/linerichmenus/cleanup_repair.py:85-210 | As many cycles as there are old resources leave none: each of them is deleted and no other resource is touched. |
| Deactivation.TableStaysOk | backend/linechannels/models.py:113-157 | Every step keeps the row variants, one operation per intent, and a completed intent behind its channel's revision. |
| Deactivation.RecoveryIsBoundOnce | backend/linechannels/admin_lifecycle_repositories.py:120-214 | From reservation to completion an intent keeps its first recovery id and its ready mark, and only a completing call ends it. |
| Deactivation.CompletionEndsOnlyByReservation | backend/linechannels/admin_lifecycle_repositories.py:53-118 | A completed intent changes if and only if its channel is reserved again while active, under the same provider, at its current revision and with an operation id no other intent has; it then is a fresh pending intent at a later revision. |
| Deactivation.ConflictIsNotedExactly | backend/linechannels/admin_lifecycle_repositories.py:161-179 | A revision conflict is noted if and only if the channel is active under the provider and the caller's intent is pending, at whatever revision. |
| Deactivation.LeftoverNotesExactly | backend/linechannels/admin_lifecycle_repositories.py:161-179 | After a completed intent was reopened, a coordinator of the earlier round can note a conflict on the new one if and only if that was reserved with the same operation id, owner and provider. |
| Deactivation.CompletionNeedsTheCurrentRevision | backend/linechannels/admin_lifecycle_repositories.py:216-250 | Completion commits if and only if the pending intent is the caller's and its expected revision, the caller's and the channel's are the same. |
| Deactivation.StaleCompletionNeverCommits | backend/linechannels/admin_lifecycle_repositories.py:216-250 | Once the channel row was written again, a completion for the earlier revision is refused after any further sequence of writes. |
| Deactivation.SameOperationMayReopen | backend/linechannels/admin_lifecycle_repositories.py:64-97 | A concrete table in which a completed intent is reopened under the operation id it already had, and a coordinator of the first round then pushes the second one to confirmation. |
| DeactivationAnswers.AssessesExactly | backend/linerichmenus/headless.py:257-319 | Each of the six answers, exactly: waiting cleanup first, then what is in the way or under way; then nothing shown is clear, the own current menu is to be unlinked if it can be proved to be the one assessed, an unknown or unprovable state cannot be assessed, anything else is somebody else's. |
| DeactivationAnswers.ViewsExactly | backend/linerichmenus/repository.py:1883-1968 | What an owner is shown of a channel, and that it is shown nothing before its first operation there. |
| DeactivationAnswers.ReservesExactly | backend/linechannels/admin_lifecycle_repositories.py:53-118 | A reservation is new exactly at the current revision of a channel with no intent pending, and is answered again exactly for the intent and revision it was made with. |
| DeactivationAnswers.SavesExactly | backend/linechannels/admin_lifecycle_repositories.py:120-159 | A result is saved exactly on the pending intent at the revision both it and the channel carry, in the shape its status asks for, and the row then says exactly that. |
| DeactivationAnswers.AdvancesExactly | backend/linechannels/admin_lifecycle_repositories.py:181-214 | A recheck goes ahead exactly at the presented current revision under the one bound recovery id, or for an intent waiting for confirmation; a result that is already there is left as it is. |
| DeactivationAnswers.CompletionLeaves | backend/linechannels/admin_lifecycle_repositories.py:216-250 | A committed completion leaves the channel inactive under a new revision and the intent done with. |
| DeactivationAnswers.FenceExactly | backend/linechannels/admin_lifecycle_repositories.py:310-343 | Behind a pending intent its owner may do exactly what it waits for: cleanups once cleanup is asked for, and the operation under the bound recovery id on the subject it was bound with. |
| DeactivationAnswers.CleanupPassesOnceAskedFor | backend/linechannels/admin_lifecycle_repositories.py:330-337 | Once a result that asks for cleanup is saved, the owner's cleanups pass the fence. |
| DeactivationProtocol.ClearMeansVacantExactly | backend/linerichmenus/headless.py:257-319 | A clear assessment means no active operation, no blocker and no current resource if and only if whatever occupies those slots belongs to the owner who asked. |
| DeactivationProtocol.ForeignIsReachable | backend/linerichmenus/repository.py:390-593 | Three calls on the empty store, an apply accepted, claimed and left unanswered, lead to a sound store whose blocker belongs to another owner. |
| DeactivationProtocol.ForeignBlockerIsNotSeen | backend/linerichmenus/repository.py:1915-1922 | In that reachable store the blocker is invisible to a second owner and the blocked channel is assessed as clear. |
| DeactivationProtocol.VacantStaysVacant | backend/linerichmenus/repository.py:621-727 | With the three slots empty, no call fills any of them except an admitted ordinary acceptance. |
| DeactivationRuns.FencePassesExactly | backend/linechannels/admin_lifecycle_repositories.py:310-343 | A pending intent lets a well-formed ordinary operation pass if and only if it comes from the intent's owner and provider and carries a recovery id that was bound without a subject. |
| DeactivationRuns.FenceKeepsOut | backend/linechannels/admin_lifecycle_repositories.py:310-343 | So with that one case excluded a pending intent keeps every ordinary operation out of its channel. |
| DeactivationRuns.BoundRecoveryIdPassesTheFence | backend/linechannels/admin_lifecycle_repositories.py:338-343 | A concrete intent whose bound recovery id, used for an ordinary apply, passes the fence and occupies the channel. |
| DeactivationRuns.WorldStaysOk | backend/linechannels/admin_lifecycle_services.py:63-260 | Every step of every coordinator and of everyone else keeps this: while the channel has the revision a coordinator expects, its intent is pending, and a clear decision taken on its owner's slots still stands over empty ones. |
| DeactivationRuns.CommitFindsVacancy | backend/linechannels/admin_lifecycle_repositories.py:216-250 | The step that completes an intent is that of a coordinator that decided to disable; it finds the channel active and leaves it inactive and the store alone, and unless the deciding read passed over another owner's occupant all three slots are empty. |
| DeactivationRuns.DisablesOnlyVacantChannels | backend/linechannels/admin_lifecycle_services.py:177-195 | Over any interleaving of any number of coordinators with rich-menu, repair and channel writes, a channel is disabled only by a coordinator that decided so, and only while it has no active operation, no blocker and no current resource, unless the deciding read passed over another owner's occupant. |
| DeactivationOwners.OwnedOccupants | backend/linerichmenus/repository.py:1915-1922 | If all operations of a channel belong to the asking owner, so does whatever occupies its slots. |
| DeactivationOwners.OneOwnerDisablesOnlyVacant | backend/linechannels/admin_lifecycle_services.py:177-195 | Over any such interleaving in which all requests to a channel come from one owner, the channel is disabled only while it has no active operation, no blocker and no current resource; no assumption is made on what the reads find. |
| DeactivationAlone.UndisturbedCompletesExactly | backend/linechannels/admin_lifecycle_services.py:63-86 | An undisturbed coordinator completes its intent if and only if LINE shows no default menu and nothing the owner is shown stands against it. |
| DeactivationAlone.AssessmentGoesOn | backend/linerichmenus/headless.py:257-266 | LINE is asked only while the channel is active at the expected revision, on both looks; an inactive channel is judged by what is stored; anything else ends the assessment with its reason. |
| DeactivationAlone.RecordingGoesOn | backend/linerichmenus/repository.py:892-932 | A record that is refused ends the assessment, and one that is made leads to the second look. |
| DeactivationAlone.StoredObservation | backend/linerichmenus/repository.py:2048-2063 | What is stored of LINE is shown as it was seen, a menu of ours as the current one; without a current menu it says nothing. |
| DeactivationAlone.JobsStart | backend/linechannels/admin_lifecycle_services.py:63-146 | A new intent may unlink and starts at the assessment; a recheck may not, and reconciles its subject first if it has one. |
| DeactivationAlone.StaleIsNoted | backend/linechannels/admin_lifecycle_services.py:301-312 | A decision that comes after the channel was written again is not stored; the conflict is noted instead. |
| DeactivationAlone.DecisionsAreSaved | backend/linechannels/admin_lifecycle_services.py:250-260 | Any other decision is left to be confirmed with its reason and, for a recheck, its subject; a bound recovery's result is then ready. |
| DeactivationAlone.UnlinkEndsAreSaved | backend/linechannels/admin_lifecycle_services.py:197-249 | An unlink still running leaves the intent unlinking, one that ended otherwise leaves it to be confirmed. |
| DeactivationAlone.UnlinkIsReserved | backend/linerichmenus/repository.py:729-842 | With its current menu shown by LINE and nothing else in the channel, an undisturbed coordinator finds in seven steps that an unlink is due and reserves it. |
| DeactivationAlone.UnlinkSucceeds | backend/linerichmenus/services.py:1542-1638 | The unlink's own calls then succeed and take the menu off, but leave it to be cleaned up. |
| DeactivationAlone.AfterUnlinkCompletesExactly | backend/linechannels/admin_lifecycle_services.py:197-222 | After a finished unlink the coordinator completes its intent if and only if LINE shows no default menu and nothing is left in the channel. |
| DeactivationAlone.OwnUnlinkLeavesCleanup | backend/linerichmenus/repository.py:1258-1281 | So after its own finished unlink it never completes: the unlinked menu still waits for cleanup. |
| DeactivationAlone.DeletedMenuCompletes | backend/linerichmenus/repository.py:1311-1333 | It completes if that menu is deleted before it looks again. |
| DeactivationRepository.DjangoChannelDeactivationRepository.Reserve | backend/linechannels/admin_lifecycle_repositories.py:53-118 | Leaves the table and the answer of the reservation, replay and reuse of a completed row included. |
| DeactivationRepository.DjangoChannelDeactivationRepository.SaveResult | backend/linechannels/admin_lifecycle_repositories.py:120-159 | Leaves the table and the answer of saving a result; an invalid row changes nothing. |
| DeactivationRepository.DjangoChannelDeactivationRepository.RecordRevisionConflict | backend/linechannels/admin_lifecycle_repositories.py:161-179 | Leaves the table and the answer of noting a revision conflict. |
| DeactivationRepository.DjangoChannelDeactivationRepository.AdvanceRecheckRevision | backend/linechannels/admin_lifecycle_repositories.py:181-214 | Leaves the table and the answer of binding a recovery and advancing the revision. |
| DeactivationRepository.DjangoChannelDeactivationRepository.CompleteInactive | backend/linechannels/admin_lifecycle_repositories.py:216-250 | Deactivates the channel and completes the intent, or restores the channel row. |
| DeactivationCoordinator.DefaultChannelDeactivationCoordinator.Start | backend/linechannels/admin_lifecycle_services.py:63-86 | Reserves, assesses and applies, each transaction being one step of the protocol; an intent it completes leaves the channel inactive, with empty slots if and only if no occupant is another owner's, and a channel that was its owner's alone stays so. |
| DeactivationCoordinator.DefaultChannelDeactivationCoordinator.Recheck | backend/linechannels/admin_lifecycle_services.py:88-146 | Binds the recovery, reconciles or assesses, and applies, as steps of the protocol and with the same guarantee; a finished or ready intent is only answered. |
| DeactivationCoordinator.DefaultChannelDeactivationCoordinator.AssessDisable | backend/linerichmenus/headless.py:257-319 | Resolves, reads, observes, records and reads again; the decision is the protocol's, nothing but the recorded observation changes, and a clear decision means empty slots if and only if no occupant is another owner's. |
| DeactivationCoordinator.DefaultChannelDeactivationCoordinator.ApplyAssessment | backend/linechannels/admin_lifecycle_services.py:167-260 | Writes what the decision leads to and ends the call; what it completes, it completes with empty slots if and only if no occupant is another owner's. |
| DeactivationCoordinator.DefaultChannelDeactivationCoordinator.UnlinkAndApply | backend/linechannels/admin_lifecycle_services.py:197-249 | Reserves and runs the unlink, and assesses once more only after a finished one, with the same guarantee. |
| DeactivationCoordinator.DefaultChannelDeactivationCoordinator.Complete | backend/linechannels/admin_lifecycle_services.py:180-195 | Commits the completion, or notes that the revision has moved on. |
| DeactivationCoordinator.DefaultChannelDeactivationCoordinator.Save | backend/linechannels/admin_lifecycle_services.py:272-299 | Saves a result, or notes that the revision has moved on; it completes nothing. |
| DeactivationCoordinator.DefaultChannelDeactivationCoordinator.RecordStale | backend/linechannels/admin_lifecycle_services.py:301-312 | Notes the conflict and ends the call; it completes nothing. |
| Accounts.TablesStayOk | backend/lineaccounts/models.py:64-92 | Every repository step keeps the four owner variants, the references and the unique columns. |
| Accounts.PendingFreezesRecipients | backend/lineaccounts/repositories.py:616-624 | While the owner is not active, nothing but the finalization adds, removes or changes a recipient or removes an identity. |
| AccountUnlink.StepKeeps | backend/lineaccounts/unlink_services.py:131-296 | Every step of every attempt and of everyone else keeps this: a pending owner still has exactly the identity and recipients that were confirmed, and awaits local deletion only once LINE agreed. |
| AccountUnlink.DeletionWasConfirmed | backend/lineaccounts/repositories.py:581-611 | The step that deletes an identity finds it pending deletion in a generation for which LINE confirmed its deauthorization, and removes exactly it and the recipients confirmed when that generation began. |
| AccountUnlink.IdentitiesAreDeletedAsConfirmed | backend/lineaccounts/unlink_services.py:187-296 | The same over every run of attempts, crashes, logins and recipient changes. |
| AccountUnlink.OwnerStaysConsistent | backend/lineaccounts/models.py:64-92 | The owner row has one of its four variants in every reachable state. |
| AccountUnlink.DeauthorizationIsExclusive | backend/lineaccounts/unlink_execution_lock.py:21-53 | At most one attempt at a time is between deciding to call LINE and marking the result. |
| AccountUnlink.StaleFinalizersDoNothing | backend/lineaccounts/unlink_services.py:285-296 | Once a generation is over, no finalizer left from it changes anything in any continuation, so an identity bound since is safe. |
| AccountUnlink.FinalizationRetires | backend/lineaccounts/repositories.py:581-611 | A finalizer either retires its generation and leaves the owner vacant, or changes nothing; exactly when is stated. |
| AccountHistory.UpsertNamesThePerson | backend/lineaccounts/repositories.py:243-274 | A login leaves exactly one row for the person, with the verified name, and every other row as it was. |
| AccountHistory.BindsOnce | backend/lineaccounts/repositories.py:276-296 | The owner is bound to the first known identity and to no other until it is vacant again. |
| AccountHistory.RecipientsChangeAsAsked | backend/lineaccounts/repositories.py:382-512 | Recipients appear, change and disappear only by the call that asks for it, with what it asks for, and by none while the owner is not active for the identity that asks, but for the finalization. |
| AccountHistory.RequestsAreServed | backend/lineaccounts/repositories.py:382-512 | What is asked for while the owner is active is done. |
| AccountHistory.SessionsChangeAsAsked | backend/lineaccounts/repositories.py:298-370 | A session is opened for a bound owner and ended alone, but for the end of the owner's identity. |
| AccountHistory.MarkingAndFinalizing | backend/lineaccounts/repositories.py:551-611 | Deletion is open exactly to the generation whose deauthorization was recorded, and the first record of it stays. |
| AccountHistory.RequestsAreRouted | backend/lineaccounts/unlink_services.py:131-159 | A request goes on exactly in the shape its owner state asks for, for the bound identity only and with a fresh ticket. |
| AccountHistory.AttemptsGoOn | backend/lineaccounts/unlink_services.py:187-296 | How every attempt goes on, phase by phase: a proof of the principal, the free lock, the owner still in this generation, LINE's agreement and the database each stand between it and the finalization. |
| AccountHistory.ConfirmsExactly | backend/lineaccounts/unlink_services.py:187-213 | A confirmed unlink begins exactly if the ticket is fresh and shows what there is, for the active owner. |
| AccountHistory.PendingWasShown | backend/lineaccounts/unlink_services.py:187-213 | Over every run, a pending unlink was begun for a principal LINE had proved, whose fresh ticket showed exactly the name, recipients and channels there were. |
| AccountHistory.SessionsAreOfThisOwner | backend/lineaccounts/repositories.py:595-614 | Over every run, a session was opened for a bound owner and no identity has been deleted since. |
| AccountHistory.VacantOwnersHaveNoSessions | backend/lineaccounts/repositories.py:595-614 | In every reachable state a vacant owner has no session. |
| AccountRepository.DjangoAccountRepository.UpsertIdentity | backend/lineaccounts/repositories.py:243-274 | Renames a known identity or creates it, and keeps the tables consistent. |
| AccountRepository.DjangoAccountRepository.BindOwnerIdentity | backend/lineaccounts/repositories.py:276-296 | Binds a vacant owner, accepts the bound identity again and refuses any other. |
| AccountRepository.DjangoAccountRepository.CreateOwnerSession | backend/lineaccounts/repositories.py:298-312 | Opens a session for a bound owner. |
| AccountRepository.DjangoAccountRepository.DeleteOwnerSession | backend/lineaccounts/repositories.py:366-370 | Ends one session. |
| AccountRepository.DjangoAccountRepository.CreateRecipient | backend/lineaccounts/repositories.py:382-421 | Returns the existing link or creates it, for an active owner only. |
| AccountRepository.DjangoAccountRepository.SetRecipientEnabled | backend/lineaccounts/repositories.py:465-496 | Toggles one recipient of the active owner. |
| AccountRepository.DjangoAccountRepository.DeleteRecipient | backend/lineaccounts/repositories.py:498-512 | Deletes one recipient of the active owner. |
| AccountRepository.DjangoAccountRepository.HandleFriendship | backend/linefriendships/services.py:93-118 | Locks the target, decides and applies; the recipient ends in the projection the event defines. |
| AccountRepository.DjangoAccountRepository.BeginUnlink | backend/lineaccounts/repositories.py:533-554 | Starts a generation for an active owner. |
| AccountRepository.DjangoAccountRepository.MarkLineDeauthorized | backend/lineaccounts/repositories.py:556-579 | Moves the matching generation on, once. |
| AccountRepository.DjangoAccountRepository.FinalizeUnlink | backend/lineaccounts/repositories.py:581-611 | Deletes the recipients, the sessions and the identity of the matching generation and leaves the owner vacant. |
| AccountUnlinkService.DefaultAccountUnlinkService.Execute | backend/lineaccounts/unlink_services.py:131-159 | One request, each transaction and call being one step of the saga: completed means the owner is vacant, rejected means no identity and no recipient was touched, and the execution lock is as it was. |
| AccountUnlinkService.DefaultAccountUnlinkService.Start | backend/lineaccounts/unlink_services.py:187-213 | Verifies, compares the confirmed snapshot and begins a generation, as steps of the saga. |
| AccountUnlinkService.DefaultAccountUnlinkService.ResumeDeauthorization | backend/lineaccounts/unlink_services.py:215-226 | Verifies again and goes on with the pending generation. |
| AccountUnlinkService.DefaultAccountUnlinkService.Deauthorize | backend/lineaccounts/unlink_services.py:249-283 | Takes the execution lock, checks the generation again, calls LINE, marks and finalizes, and gives the lock back on every path. |
| AccountUnlinkService.DefaultAccountUnlinkService.Finalize | backend/lineaccounts/unlink_services.py:285-296 | Finalizes the generation; a rejected finalization changes nothing. |
| Friendship.HandleTakesTheNewer | backend/linefriendships/services.py:28-54 | An event replaces the projection exactly when it is after the registration and after the event held, if and only if it is not a newer event that reuses the id held: that is the one case the duplicate check drops. |
| Friendship.DecidesExactly | backend/linefriendships/services.py:28-54 | Each of the four decisions, exactly. |
| Friendship.EndsAtTheGreatest | backend/linefriendships/services.py:28-54 | If the greatest newer event by time and id shares its id with no other newer event and not with the event held, any sequence with it, in any order and with any repeats, ends there. |
| Friendship.ConvergesExactly | backend/linefriendships/services.py:28-54 | All deliveries of the same set of events, in any order and with any repeats, end in one projection if and only if every newer event reuses the id held or the greatest newer one shares its id with nothing. |
| Friendship.SameEventsConverge | backend/linefriendships/services.py:28-54 | In particular two deliveries of the same set of events end alike where an event id determines its event. |
| Friendship.CoherentEndsAtTheGreatest | backend/linefriendships/services.py:28-54 | There they end at the greatest newer event, or where they started if there is none. |
| Friendship.ReusedIdsDiverge | backend/linefriendships/services.py:36-37 | Two concrete events that share an id end differently in the two orders. |
| Friendship.EarlierIsTotal | backend/linefriendships/services.py:39-49 | Comparing time first and id bytes second is a strict total order. |
| Friendship.EarlierIsTransitive | backend/linefriendships/services.py:39-49 | That order is transitive. |
| DeliveryRuns.ProcessingRequestsDiffer | backend/delivery/models.py:42-46 | In any interleaving two attempts being processed are never for the same request. |
| DeliveryRuns.FirstEndingStays | backend/delivery/repositories.py:248-252 | The first ending of an attempt is its only one in every continuation of every run. |
| DeliveryRuns.EndingsSayWhatHappened | backend/delivery/repositories.py:228-247 | Over every run, an attempt is succeeded only if its operation was pushed and accepted, with LINE's request id; failed only if rejected or held back, with that failure; unknown only after an unknown answer or once its time was over. |
| DeliveryRuns.EachOperationIsPushedOnce | backend/delivery/services.py:152-197 | An operation reaches the push gateway at most once, and only when it has an attempt. |
| DeliveryRuns.EachReceiptIsRecordedOnceInTime | backend/delivery/repositories.py:319-337 | A receipt is recorded at most once per attempt, for a requested receipt and before it expires. |
| DeliveryRuns.LostReceiptUpdateFindsItsReason | backend/delivery/repositories.py:349-355 | The final answer "invalid" after a lost update is unreachable: the row read again always gives a reason or the receipt was recorded. |
| DeliveryRuns.StepKeeps | backend/delivery/repositories.py:122-355 | Every statement of every worker keeps the constraints, the one holder of each unpushed attempt, and what every other worker relies on. |
| Delivery.ReceiptAnswerSticks | backend/delivery/repositories.py:371-401 | A receipt that has an answer keeps having one, whatever statements follow. |
| Delivery.ReceiptAppliesOrIsAnswered | backend/delivery/repositories.py:319-334 | The conditional update applies if and only if the classification found nothing to answer. |
| Delivery.InsertKeeps | backend/delivery/repositories.py:165-187 | An insert that passes the unique columns keeps all constraints. |
| Delivery.FinishKeeps | backend/delivery/repositories.py:206-260 | Ending an attempt keeps the constraints and rewrites nothing that was settled. |
| Delivery.EndingsFollowAnswers | backend/delivery/repositories.py:228-247 | Each answer has its ending: succeeded exactly for an accepted push, unknown exactly for an unknown one, failed exactly for a rejected or prevented one. |
| DeliveryAnswers.KnownOperations | backend/delivery/repositories.py:143-146 | A known operation is answered with its attempt if the request is the same and refused otherwise; nothing changes. |
| DeliveryAnswers.NewOperations | backend/delivery/repositories.py:148-214 | A new operation gets an attempt exactly when nothing collides with it, and is otherwise referred to the attempt being processed for the same request and to no other. |
| DeliveryAnswers.CollisionsAreExplained | backend/delivery/repositories.py:183-204 | A submission whose insert collides is answered with what it collides with: its own operation first, then the attempt being processed for its request. |
| DeliveryAnswers.AttemptsGetTheirTime | backend/delivery/repositories.py:181-182 | Over every run, every attempt has its half minute before a status check may end it. |
| DeliveryAnswers.StatusExactly | backend/delivery/repositories.py:262-300 | An owner sees the attempts of its own slot only; one still processing after its time is unknown from then on. |
| DeliveryAnswers.ReceiptsExactly | backend/delivery/repositories.py:302-402 | A receipt is recorded exactly for the target of a delivery that asked for one, has none yet, has not failed, and before it expires; every other answer says which of these is missing. |
| Delivery.ExpireKeeps | backend/delivery/repositories.py:279-299 | Expiring an attempt keeps the constraints and rewrites nothing that was settled. |
| Delivery.ConfirmKeeps | backend/delivery/repositories.py:319-337 | Recording a receipt keeps the constraints and rewrites nothing that was settled. |
| DeliveryRepository.DjangoAttemptRepository.Accept | backend/delivery/repositories.py:122-204 | Does what a submitting worker does when no other comes in between, collisions and replays included. |
| DeliveryRepository.DjangoAttemptRepository.Finalize | backend/delivery/repositories.py:206-260 | Does what an ending worker does, and answers with the stored row whoever ended it. |
| DeliveryRepository.DjangoAttemptRepository.GetForOwner | backend/delivery/repositories.py:262-300 | Does what a status check does, expiry included. |
| DeliveryRepository.DjangoAttemptRepository.ConfirmReceipt | backend/delivery/repositories.py:302-355 | Does what a receipt worker does; it answers "invalid" only for an event id that is too long. |
| DeliveryService.LinkedDeliveryService.AcceptConfirmed | backend/delivery/services.py:87-150 | Each statement is one step of a submitting worker; only a new attempt is handed on to be pushed, and any other answer leaves the attempts as they were. |
| DeliveryService.LinkedDeliveryService.PushAccepted | backend/delivery/services.py:152-197 | Pushes an operation that was not pushed before, once, or ends its attempt without a push when its credential or target changed. |
| DeliveryService.LinkedDeliveryService.FinalizeLinkedPush | backend/delivery/services.py:199-213 | Stores the result, or answers with the ending that came first. |
| Rotation.RemovableMeansPrimary | backend/linechannels/rotation.py:83-98 | If the call reports old keys removable, every stored pair opens under the primary key alone, to exactly what its writers last stored, with faults and other writers anywhere in between. |
| Rotation.BothPassesKeepReadings | backend/linechannels/rotation.py:71-86 | On every outcome the rotation is invisible to whoever reads with the whole keyring: the table reads as the other writers alone would have left it. |
| Rotation.RotationCounts | backend/linechannels/rotation.py:71-81 | Verified, rotated and failed rows of the first pass add up to the rows listed. |
| Rotation.NothingLeftToRotate | backend/linechannels/rotation.py:71-81 | Where every pair already opens under the primary key the first pass rotates nothing. |
| Rotation.UndisturbedRotation | backend/linechannels/rotation.py:100-121 | Without faults and other writers the first pass rotates exactly the rows that need it and fails exactly those that cannot be read. |
| Rotation.ProcessOutcomes | backend/linechannels/rotation_item.py:84-111 | A row is verified, rotated or failed exactly by what could be read before; a rotated row reads the same, and "verification_failed" never occurs. |
| Rotation.VerdictsExactly | backend/linechannels/rotation.py:100-136 | Why a row fails in either pass, exactly: its transaction failed, it is gone, or it cannot be read under the keys in question. |
| Credentials.RotateKeepsThePlaintext | backend/linechannels/crypto.py:74-80 | Rotating succeeds if and only if the ciphertext can be read, and the result reads the same under the primary key and under the keyring. |
| Credentials.CiphertextsAreBound | backend/linechannels/crypto.py:119-147 | A ciphertext reads back in its own channel and kind and is unreadable in any other. |
| Credentials.DecryptsExactly | backend/linechannels/crypto.py:60-147 | A value is read exactly where it was sealed for, under a key of the ring, in the form every writer uses. |
| Rotation.CredentialRotationService.RotatePass | backend/linechannels/rotation.py:71-81 | The first loop over the listed rows leaves the table, the counts and the failures the pass defines. |
| Rotation.CredentialRotationService.VerifyPass | backend/linechannels/rotation.py:83-86 | The second loop adds a failure only for a row that has none. |
| Rotation.CredentialRotationService.RotateAll | backend/linechannels/rotation.py:62-98 | The whole call: the early answers change nothing, removable is reported if and only if both passes found no failure, and then every row opens under the primary key. |
| Rotation.CredentialRotationService.ListIds | backend/linechannels/rotation_repository.py:33-45 | Lists every stored id once. |
| Rotation.CredentialRotationService.ProcessOne | backend/linechannels/rotation.py:100-121 | One row in its own transaction; only a rotated row is written. |
| Cmap.ReadFormat4 | backend/linerichmenus/renderer.py:232-263 | Accepts a format 4 subtable if and only if every read is in bounds, and returns exactly the code points other than 0xFFFF that some segment gives a non-zero glyph. |
| Cmap.ReadSegment | backend/linerichmenus/renderer.py:243-262 | One segment: all delta arithmetic is modulo 65536, and a glyph index outside the subtable rejects it. |
| CmapLookup.ShownIsLookup4 | backend/linerichmenus/renderer.py:232-263 | Over sorted disjoint segments, a code point is collected if and only if the segment lookup of the OpenType specification, told by the addresses of its four arrays and with deltas modulo 65536, gives it a non-zero glyph. |
| CmapLookup.GlyphsInsideExactly | backend/linerichmenus/renderer.py:251-256 | A subtable is rejected for its glyph indices exactly if one that is looked up lies beyond the subtable's own end. |
| Cmap.ReadFormat12 | backend/linerichmenus/renderer.py:266-282 | Accepts a format 12 or 13 subtable if and only if all its groups lie inside it, and returns exactly the code points a group gives a non-zero glyph. |
| Cmap.ReadGroup | backend/linerichmenus/renderer.py:277-281 | One group, with consecutive glyphs or one glyph for all. |
| CmapLookup.CollectedIsLookup12 | backend/linerichmenus/renderer.py:266-282 | Over sorted disjoint groups, a code point is collected if and only if the OpenType group lookup gives it a non-zero glyph. |
| Cmap.LocateCmap | backend/linerichmenus/renderer.py:195-205 | Finds the first cmap table, cut short at the end of the file, provided every record before it can be read. |
| CmapLookup.FindsTheFirst | backend/linerichmenus/renderer.py:195-205 | The table found is that of the first record tagged 'cmap', cut short at the end of the file. |
| CmapLookup.ReadsBigEndian | backend/linerichmenus/renderer.py:233-246 | Numbers are read with the highest byte first, negative ones from their complement. |
| Cmap.FontCodePoints | backend/linerichmenus/renderer.py:191-229 | Accepts a font if and only if its cmap is found, all its subtables can be read and some code point is shown, and returns exactly the code points some subtable shows. |
| Canonical.FramingRoundTrip | backend/delivery/repositories.py:477-479 | Reading length-prefixed parts back gives the parts. |
| Canonical.DeliveryRoundTrip | backend/delivery/repositories.py:96-109 | A decoder undoes the canonical form of a delivery request. |
| Canonical.MomentRoundTrip | backend/lineaccounts/delivery_repositories.py:251-254 | A time is read back from its canonical text, whichever way the zone is written. |
| Canonical.TargetRoundTrip | backend/lineaccounts/delivery_repositories.py:231-248 | A decoder undoes the canonical form of a target revision, its two times and its friendship state included. |
| Canonical.UnlinkRoundTrip | backend/lineaccounts/confirmation.py:46-61 | A decoder undoes the unlink form, splitting its two id lists by the trailing recipient count. |
| Canonical.TheCountIsNeeded | backend/lineaccounts/confirmation.py:55 | Without that count two different snapshots have the same parts. |
| Canonical.PreviewRoundTrip | backend/linerichmenus/confirmation.py:87-107 | A decoder undoes the preview form with its counted pairs and its time. |
| Canonical.DigestInput | backend/linerichmenus/confirmation.py:90-107 | Feeding the digest component by component gives the canonical form, and overflows exactly when a component is too long for its prefix. |
| Canonical.FormsAreInjective | backend/linerichmenus/confirmation.py:87-107 | No two different inputs of one kind have the same byte string. |
| Canonical.BigEndianRoundTrip | backend/delivery/repositories.py:477-479 | A number that fits its width is read back from its big-endian bytes. |
| Canonical.DecimalRoundTrip | backend/linerichmenus/confirmation.py:97-98 | A number is read back from its decimal text. |

## Left out

- Interference inside one call of the coordinator, unlink and delivery objects: they run a call alone, step by step of their protocol; what other requests may do in between is the subject of `DeactivationRuns`, `AccountUnlink` and `DeliveryRuns`.
- Database locking, isolation below a statement, error-code translation and retries: a transaction is atomic or fails and changes nothing.
- Signing, SHA-256, Fernet, JSON and base64: tokens and cursors are the values they carry; the parser of the keyring text is left out with them.
- The cursor text of the history: a cursor is its key, and a forged cursor is rejected before the query.
- Configuration snapshots, ownership markers and observation times of rich-menu rows: they are stored and shown but steer no transition here; a disable proof is taken to cover channel, revision, resource and observation.
- The rich-menu service around the repository (rendering, gateway calls, readiness, time budgets): each repository call it makes is a step with arbitrary arguments.
- Deletion of channels, and edits of a channel beyond its activity and revision.
- DeactivationRuns.DisablesOnlyVacantChannels: assumes that no ordinary operation carries a recovery id bound without a subject, which is the one case the fence lets pass; `BoundRecoveryIdPassesTheFence` shows it. For a deciding read that passed over another owner's occupant it does not claim empty slots; `DeactivationProtocol.ForeignBlockerIsNotSeen` shows one.
- The reconciliation of a subject at LINE during a recheck happens as free steps of the engine; only its failure reaches the coordinator.
- AccountUnlink.DeauthorizationIsExclusive: relies on the execution lock being exclusive; that LINE is called once is not claimed, and it is not true after a crash.
- Canonical.UnlinkRoundTrip: takes the two id lists as already sorted, which is how a snapshot is built.
- The stored assessments of a recovery: `recover_disable` may answer from a recovery store (`backend/linerichmenus/headless.py:339-361`); the one the coordinator is built with stores nothing (`backend/linechannels/container.py:127-138`), and only that one is modelled.
- Counts of pending unlinks, sessions that expire while they are read, and previews.
- Cmap.FontCodePoints: caching of the result per font file.
- Rotation.CredentialRotationService.RotateAll: the order in which rows are listed is arbitrary; other writers encrypt under the same primary key.
- The audit rows written beside friendship events, and parsing of the events.
- HTTP views, serializers, templates and the frontend.
