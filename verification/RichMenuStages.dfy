/** How a single operation or resource row may move, and what that says about whole runs. */
module RichMenuStages {
  import opened Wrappers
  import opened RichMenuModel
  import opened RichMenuSteps
  import opened RichMenuInvariant
  import opened RichMenuRuns
  import CleanupRepair

  /** Stages in the order an operation passes them; the numbers of unrelated stages are arbitrary. */
  function StageRank(stage: Stage): nat {
    match stage
    case Creating => 0
    case Uploading => 1
    case SettingDefault => 2
    case ClearingDefault => 3
    case Verifying => 4
    case Cleaning => 5
    case LocalRelease => 6
  }

  /** A recovery that succeeded by putting its subject back to processing. */
  ghost predicate PutsBack(s: Store, call: Call, id: Id) {
    && call.Handoff? && call.recovery.subject == id && call.recovery.next == Status.Processing
    && Next(s, call).reply.HandedOff? && Next(s, call).reply.recovery.status == Status.Succeeded
  }

  ghost predicate Purges(s: Store, call: Call, id: Id) {
    call.Purge? && id in s.operations && s.operations[id].channel == call.channel && Next(s, call).reply == Answer(true)
  }

  /** The possible moves of one operation row in one call. */
  predicate RowMoves(before: Operation, after: Operation, putBack: bool) {
    && SameIdentity(before, after)
    && (before.stage.Some? ==> after.stage.Some? && StageRank(before.stage.value) <= StageRank(after.stage.value))
    && (before.status != Status.Accepted ==> after.status != Status.Accepted)
    && (after.status == Status.Processing && before.status != Status.Processing && before.status != Status.Accepted ==>
          putBack)
    && (after.status == Status.Processing && after.stage == before.stage && after.startedAt.None? && !putBack ==>
          before.status == Status.Processing && before.startedAt.None?)
    && (putBack && before.stage.Some? ==> after.stage == RecheckSuccessor(before.stage.value))
  }

  lemma ClaimMovesRows(s: Store, call: Call, id: Id)
    requires Inv(s) && id in s.operations && call.Claim?
    ensures id in Next(s, call).store.operations
    ensures RowMoves(s.operations[id], Next(s, call).store.operations[id], false)
  {
    hide Inv, OperationOk, LastSequence, SlotsOf, MayMove, RowMoves, ExpireRecovery, MakeUnknown;
    RowFacts(s, id);
    SameRow(s.operations[id]);
    var op := s.operations[id];
    if call.id == id && Next(s, call).store != s {
      if op.startedAt.Some? {
        ExpiryMovesRows(s, id, call.now);
      } else {
        HandOutMovesRows(op, call.stage, call.now);
      }
    }
    if call.id != id && call.id in s.operations {
      ExpiryLeavesOthers(s, call.id, call.now, id);
    }
  }

  /** What the invariant says of one row, without its neighbours. */
  lemma RowFacts(s: Store, id: Id)
    requires Inv(s) && id in s.operations
    ensures var op := s.operations[id];
            && (op.startedAt.Some? ==> op.status == Status.Processing || op.status == Status.RecoveryActive)
            && (op.status == Status.Accepted <==> op.stage.None?)
            && (op.status == Status.RecoveryActive ==> op.startedAt.Some?)
  {
    assert OperationOk(s, id);
  }

  lemma HandOutMovesRows(op: Operation, stage: Stage, now: Time)
    requires op.startedAt.None? && (op.status == Status.Accepted <==> op.stage.None?)
    ensures op.status == Status.Accepted ==>
              RowMoves(op, op.(status := Status.Processing, stage := Some(stage), startedAt := Some(now)), false)
    ensures op.status == Status.Processing ==> RowMoves(op, op.(startedAt := Some(now)), false)
  {
  }

  lemma ExpiryMovesRows(s: Store, id: Id, now: Time)
    requires id in s.operations
    requires s.operations[id].status == Status.Processing || s.operations[id].status == Status.RecoveryActive
    ensures id in ExpireRecovery(s, id, now).store.operations && id in MakeUnknown(s, id).store.operations
    ensures RowMoves(s.operations[id], ExpireRecovery(s, id, now).store.operations[id], false)
    ensures RowMoves(s.operations[id], MakeUnknown(s, id).store.operations[id], false)
  {
    hide LastSequence;
  }

  lemma ExpiryLeavesOthers(s: Store, id: Id, now: Time, other: Id)
    requires id in s.operations && other in s.operations && other != id
    ensures other in ExpireRecovery(s, id, now).store.operations && other in MakeUnknown(s, id).store.operations
    ensures ExpireRecovery(s, id, now).store.operations[other] == s.operations[other]
    ensures MakeUnknown(s, id).store.operations[other] == s.operations[other]
  {
    hide LastSequence;
  }

  lemma CompleteMovesRows(s: Store, call: Call, id: Id)
    requires id in s.operations && call.Complete?
    ensures id in Next(s, call).store.operations
    ensures RowMoves(s.operations[id], Next(s, call).store.operations[id], false)
  {
    hide LastSequence;
  }

  lemma FinishMovesRows(s: Store, call: Call, id: Id)
    requires id in s.operations && (call.FinishRecovery? || call.FinishCleanup?)
    ensures id in Next(s, call).store.operations
    ensures RowMoves(s.operations[id], Next(s, call).store.operations[id], false)
  {
    hide LastSequence;
  }

  lemma RejectionMovesRows(s: Store, recovery: Id, subject: Operation, fence: Fence, now: Time, id: Id)
    requires id in s.operations && recovery in s.operations
    ensures id in RejectStaleRecovery(s, recovery, subject, fence, now).store.operations
    ensures RowMoves(s.operations[id], RejectStaleRecovery(s, recovery, subject, fence, now).store.operations[id], false)
  {
    hide LastSequence;
  }

  lemma BlockerMovesRows(s: Store, out: RecoveryOutcome, id: Id)
    requires id in s.operations && out.recovery in s.operations && out.subject in s.operations
    requires s.operations[out.recovery].stage.Some? && s.operations[out.recovery].status != Status.Accepted
    requires BlockerMayMove(s.operations[out.recovery], s.operations[out.subject], out)
    ensures id in MoveBlocker(s, out).store.operations
    ensures RowMoves(s.operations[id], MoveBlocker(s, out).store.operations[id], false)
  {
    hide LastSequence;
  }

  lemma HandBackMovesRows(s: Store, out: RecoveryOutcome, now: Time, id: Id)
    requires id in s.operations && out.recovery in s.operations && out.subject in s.operations
    requires s.operations[out.recovery].stage.Some? && s.operations[out.recovery].status != Status.Accepted
    requires HandoffAllowed(s.operations[out.subject], out)
    ensures id in HandBack(s, out, now).store.operations
    ensures RowMoves(s.operations[id], HandBack(s, out, now).store.operations[id],
                     out.subject == id && out.next == Status.Processing)
  {
    hide LastSequence;
  }

  lemma HandoffMovesRows(s: Store, call: Call, id: Id)
    requires Inv(s) && id in s.operations && call.Handoff?
    ensures id in Next(s, call).store.operations
    ensures RowMoves(s.operations[id], Next(s, call).store.operations[id], PutsBack(s, call, id))
  {
    SameRow(s.operations[id]);
    var out := call.recovery;
    if Next(s, call).store != s {
      assert OperationOk(s, out.recovery);
      if call.fence != Matched {
        RejectionMovesRows(s, out.recovery, s.operations[out.subject], call.fence, call.now, id);
      } else if out.blockerMoves {
        BlockerMovesRows(s, out, id);
      } else {
        HandBackMovesRows(s, out, call.now, id);
      }
    }
  }

  lemma AcceptanceLeavesRows(s: Store, call: Call, id: Id)
    requires id in s.operations
    requires call.AcceptOperation? || call.AcceptRecoveryOf? || call.ReserveDisable?
    ensures id in Next(s, call).store.operations && Next(s, call).store.operations[id] == s.operations[id]
  {
    hide LastSequence;
  }

  predicate ResourceCall(call: Call) {
    || call.Replace? || call.Finalize? || call.MarkCleanup? || call.Discard? || call.Unlinked?
    || call.ReleasedAway? || call.DeletedAway? || call.Bind? || call.Observe?
  }

  lemma ResourceCallsLeaveOperations(s: Store, call: Call)
    requires ResourceCall(call)
    ensures Next(s, call).store.operations == s.operations
    ensures Next(s, call).store.transitions == s.transitions
  {
  }

  lemma FinishApplyMovesRows(s: Store, call: Call, id: Id)
    requires id in s.operations && call.FinishApply?
    ensures id in Next(s, call).store.operations
    ensures RowMoves(s.operations[id], Next(s, call).store.operations[id], false)
  {
    SameRow(s.operations[id]);
    var finalized := FinalizeApply(s, call.id, call.resource, call.replaceFence).store;
    ResourceCallsLeaveOperations(s, Finalize(call.id, call.resource, call.replaceFence));
    var hasOld := ReplacedOld(finalized, call.id);
    var out := StageOutcome(call.id, Verifying,
                            if hasOld then Status.CleanupRequired else Status.Succeeded,
                            if hasOld then Cleaning else Verifying,
                            if hasOld then Code.CleanupRequired else Code.Succeeded);
    CompleteMovesRows(finalized, Complete(out, call.stageFence, call.now), id);
    hide FinalizeApply, CompleteStage, RowMoves;
  }

  lemma FinishedApplyIsOver(s: Store, call: Call)
    requires call.FinishApply? && Next(s, call).reply.Moved?
    ensures call.id in Next(s, call).store.operations
    ensures Next(s, call).store.operations[call.id].status in {Status.Succeeded, Status.CleanupRequired}
  {
    hide FinalizeApply, LastSequence, MayMove, SlotsOf;
  }

  lemma RowMovesCompose(a: Operation, b: Operation, c: Operation, putBack: bool)
    requires RowMoves(a, b, putBack) && RowMoves(b, c, false)
    requires putBack ==> c.status != Status.Processing
    ensures RowMoves(a, c, false)
  {
  }

  /** The three parts of a finished apply recovery, as calls of their own. */
  ghost function RecoveryHandoff(s: Store, call: Call): Call
    requires call.FinishApplyRecovery? && ApplyRecoverable(s, call.id, call.resource)
  {
    Handoff(RecoveryOutcome(call.id, s.operations[call.id].subject.value, Status.Processing, Verifying, Code.Accepted, false),
            call.handoffFence, call.now)
  }

  ghost function RecoveryClaim(s: Store, call: Call): Call
    requires call.FinishApplyRecovery? && ApplyRecoverable(s, call.id, call.resource)
  {
    Claim(s.operations[call.id].subject.value, Verifying, call.now, call.timeout)
  }

  ghost function RecoveryFinish(s: Store, call: Call): Call
    requires call.FinishApplyRecovery? && ApplyRecoverable(s, call.id, call.resource)
  {
    FinishApply(s.operations[call.id].subject.value, call.resource, call.replaceFence, call.stageFence, call.now)
  }

  /** Either nothing happened, or only the handoff refused the recovery, or all three parts ran. */
  lemma ApplyRecoveryParts(s: Store, call: Call)
    requires call.FinishApplyRecovery? && ApplyRecoverable(s, call.id, call.resource)
    ensures var handed := Next(s, RecoveryHandoff(s, call));
            var claimed := Next(handed.store, RecoveryClaim(s, call));
            var finished := Next(claimed.store, RecoveryFinish(s, call));
            || Next(s, call).store == s
            || (Next(s, call).store == handed.store && handed.reply.HandedOff?
                && handed.reply.recovery.status != Status.Succeeded)
            || (Next(s, call).store == finished.store && handed.reply.HandedOff?
                && handed.reply.recovery.status == Status.Succeeded && claimed.reply.Claimed? && finished.reply.Moved?)
  {
    hide HandoffRecovery, ClaimStage, CompleteApply;
    if !Next(s, RecoveryHandoff(s, call)).reply.HandedOff? {
      RefusedHandoffChangesNothing(s, RecoveryHandoff(s, call));
    }
  }

  lemma RefusedHandoffChangesNothing(s: Store, call: Call)
    requires call.Handoff? && !Next(s, call).reply.HandedOff?
    ensures Next(s, call).store == s
  {
    hide LastSequence;
  }

  lemma FinishApplyRecoveryMovesRows(s: Store, call: Call, id: Id)
    requires Inv(s) && id in s.operations && call.FinishApplyRecovery?
    ensures id in Next(s, call).store.operations
    ensures RowMoves(s.operations[id], Next(s, call).store.operations[id], false)
  {
    SameRow(s.operations[id]);
    if !ApplyRecoverable(s, call.id, call.resource) {
      assert Next(s, call).store == s;
    } else {
      var handoff, claim, finish := RecoveryHandoff(s, call), RecoveryClaim(s, call), RecoveryFinish(s, call);
      ApplyRecoveryParts(s, call);
      HandoffMovesRows(s, handoff, id);
      NextKeepsInv(s, handoff);
      var handed := Next(s, handoff).store;
      ClaimMovesRows(handed, claim, id);
      var claimed := Next(handed, claim).store;
      FinishApplyMovesRows(claimed, finish, id);
      if Next(claimed, finish).reply.Moved? {
        FinishedApplyIsOver(claimed, finish);
        var finished := Next(claimed, finish).store;
        PutBackIsTheSubject(s, handoff, id);
        RowMovesCompose(handed.operations[id], claimed.operations[id], finished.operations[id], false);
        RowMovesCompose(s.operations[id], handed.operations[id], finished.operations[id], PutsBack(s, handoff, id));
      }
    }
  }

  lemma PutBackIsTheSubject(s: Store, call: Call, id: Id)
    ensures PutsBack(s, call, id) ==> call.Handoff? && call.recovery.subject == id
  {
  }

  lemma RejectedRepairWritesNothing(s: Store, q: CleanupRepair.Request)
    requires CleanupRepair.Repair(s, q).reply.Rejected?
    ensures CleanupRepair.Repair(s, q).store == s
  {
  }

  lemma RepairWrites(s: Store, q: CleanupRepair.Request, r: Id)
    requires CleanupRepair.Refusal(s, q).None? && CleanupRepair.IsCandidate(s, q, r)
    ensures var subject := s.resources[r].replacement.value;
            && subject in s.operations
            && var done := CleanupRepair.RepairWith(s, q, r).store;
            done == s || (s.operations[subject].status == Status.Succeeded && s.operations[subject].stage == Some(Verifying)
                          && done == CorrectSubject(s, subject))
  {
    hide LastSequence;
  }

  lemma CorrectionMovesRow(op: Operation)
    ensures op.status == Status.Succeeded && op.stage == Some(Verifying) ==>
              RowMoves(op, op.(status := Status.CleanupRequired, stage := Some(Cleaning), result := Code.CleanupRequired,
                               startedAt := None), false)
  {
  }

  lemma RepairMovesRows(s: Store, call: Call, id: Id)
    requires id in s.operations && call.Repair?
    ensures id in Next(s, call).store.operations
    ensures RowMoves(s.operations[id], Next(s, call).store.operations[id], false)
  {
    hide CleanupRepair.Repair, CleanupRepair.RepairWith, CleanupRepair.Refusal, CleanupRepair.Least, LastSequence, SlotsOf, RowMoves;
    SameRow(s.operations[id]);
    if CleanupRepair.Repair(s, call.request).reply.Plan? {
      var r := CleanupRepair.PlanNames(s, call.request);
      RepairWrites(s, call.request, r);
      var subject := s.resources[r].replacement.value;
      CorrectionMovesRow(s.operations[subject]);
    } else {
      RejectedRepairWritesNothing(s, call.request);
    }
  }

  /** Every call, every row. */
  lemma CallMovesRow(s: Store, call: Call, id: Id)
    requires Inv(s) && id in s.operations && !Purges(s, call, id)
    ensures id in Next(s, call).store.operations
    ensures RowMoves(s.operations[id], Next(s, call).store.operations[id], PutsBack(s, call, id))
  {
    if call.Purge? {
      assert Next(s, call).store.operations[id] == s.operations[id];
    } else {
      SameRow(s.operations[id]);
      match call
      case Claim(_, _, _, _) => ClaimMovesRows(s, call, id);
      case Complete(_, _, _) => CompleteMovesRows(s, call, id);
      case FinishRecovery(_, _, _, _) => FinishMovesRows(s, call, id);
      case FinishCleanup(_, _, _) => FinishMovesRows(s, call, id);
      case Handoff(_, _, _) => HandoffMovesRows(s, call, id);
      case AcceptOperation(_, _, _, _, _) => AcceptanceLeavesRows(s, call, id);
      case AcceptRecoveryOf(_, _, _, _, _) => AcceptanceLeavesRows(s, call, id);
      case ReserveDisable(_, _, _, _) => AcceptanceLeavesRows(s, call, id);
      case FinishApply(_, _, _, _, _) => FinishApplyMovesRows(s, call, id);
      case FinishApplyRecovery(_, _, _, _, _, _, _) => FinishApplyRecoveryMovesRows(s, call, id);
      case Repair(_) => RepairMovesRows(s, call, id);
      case _ => ResourceCallsLeaveOperations(s, call);
    }
  }

  lemma SameRow(op: Operation)
    ensures RowMoves(op, op, false)
  {
  }

  // ---- A stage is handed out once ----

  /** The call gave the stage to a worker. */
  ghost predicate HandsOut(s: Store, call: Call, id: Id, stage: Stage) {
    call.Claim? && call.id == id && call.stage == stage && Next(s, call).reply.Claimed?
  }

  /** The operation has passed the stage, or is at it with the work handed out or over. */
  ghost predicate Spent(s: Store, id: Id, stage: Stage) {
    && id in s.operations
    && var op := s.operations[id];
    && op.status != Status.Accepted
    && op.stage.Some?
    && StageRank(stage) <= StageRank(op.stage.value)
    && !(op.status == Status.Processing && op.stage == Some(stage) && op.startedAt.None?)
  }

  ghost predicate Repeatable(stage: Stage) {
    stage == Verifying || stage == Cleaning
  }

  /** What would let the stage be handed out again. */
  ghost predicate Reopens(s: Store, call: Call, id: Id, stage: Stage) {
    Purges(s, call, id) || (Repeatable(stage) && PutsBack(s, call, id))
  }

  lemma HandingOutSpends(s: Store, call: Call, id: Id, stage: Stage)
    requires HandsOut(s, call, id, stage)
    ensures Spent(Next(s, call).store, id, stage)
  {
    hide LastSequence;
  }

  lemma SpentIsNotHandedOut(s: Store, call: Call, id: Id, stage: Stage)
    requires Spent(s, id, stage)
    ensures !HandsOut(s, call, id, stage)
  {
    hide LastSequence;
  }

  lemma SpentStays(s: Store, call: Call, id: Id, stage: Stage)
    requires Inv(s) && Spent(s, id, stage) && !Reopens(s, call, id, stage)
    ensures Spent(Next(s, call).store, id, stage)
  {
    hide Next, Inv, PutsBack, Purges;
    CallMovesRow(s, call, id);
  }

  /** Between two hand-outs of one stage of one operation, something reopened it. */
  lemma {:induction false} StageHandedOutOnce(s: Store, calls: seq<Call>, id: Id, stage: Stage)
    requires Sound(s) && |calls| >= 2
    requires HandsOut(s, calls[0], id, stage)
    requires HandsOut(Run(s, calls[..|calls| - 1]), calls[|calls| - 1], id, stage)
    ensures exists k :: 0 < k < |calls| - 1 && Reopens(Run(s, calls[..k]), calls[k], id, stage)
  {
    hide Next, Sound, HandsOut, Reopens;
    if forall k :: 0 < k < |calls| - 1 ==> !Reopens(Run(s, calls[..k]), calls[k], id, stage) {
      SpentThroughout(s, calls, id, stage, |calls| - 1);
      SpentIsNotHandedOut(Run(s, calls[..|calls| - 1]), calls[|calls| - 1], id, stage);
    }
  }

  lemma {:induction false} SpentThroughout(s: Store, calls: seq<Call>, id: Id, stage: Stage, n: nat)
    requires Sound(s) && 0 < n < |calls| && HandsOut(s, calls[0], id, stage)
    requires forall k :: 0 < k < n ==> !Reopens(Run(s, calls[..k]), calls[k], id, stage)
    ensures Spent(Run(s, calls[..n]), id, stage)
  {
    hide Next, HandsOut, Reopens, Spent, Inv;
    assert calls[..n][..n - 1] == calls[..n - 1];
    if n == 1 {
      HandingOutSpends(s, calls[0], id, stage);
    } else {
      SpentThroughout(s, calls, id, stage, n - 1);
      RunKeepsSound(s, calls[..n - 1]);
      SpentStays(Run(s, calls[..n - 1]), calls[n - 1], id, stage);
    }
  }

  // ---- An expired stage refuses late completions ----

  ghost predicate Parked(s: Store, id: Id) {
    && id in s.operations
    && s.operations[id].status != Status.Processing
    && s.operations[id].status != Status.Accepted
  }

  lemma ParkedStays(s: Store, call: Call, id: Id)
    requires Inv(s) && Parked(s, id) && !Purges(s, call, id) && !PutsBack(s, call, id)
    ensures Parked(Next(s, call).store, id)
  {
    hide Next, Inv, PutsBack, Purges;
    CallMovesRow(s, call, id);
  }

  lemma ExpiryParks(s: Store, call: Call)
    requires call.Claim? && Next(s, call).reply.Expired?
    ensures Parked(Next(s, call).store, call.id)
  {
    hide LastSequence;
  }

  /** After an expiry every completion is refused until a recovery puts the operation back. */
  lemma {:induction false} ExpiredRefusesCompletion(s: Store, calls: seq<Call>, id: Id)
    requires Sound(s) && |calls| >= 2
    requires calls[0].Claim? && calls[0].id == id && Next(s, calls[0]).reply.Expired?
    requires forall k :: 0 < k < |calls| - 1 ==>
               !Purges(Run(s, calls[..k]), calls[k], id) && !PutsBack(Run(s, calls[..k]), calls[k], id)
    requires calls[|calls| - 1].Complete? && calls[|calls| - 1].out.operation == id
    ensures var before := Run(s, calls[..|calls| - 1]);
            Next(before, calls[|calls| - 1]) == Outcome(before, StageRefused(StaleStage))
  {
    hide Sound, Purges, PutsBack, Next;
    ParkedThroughout(s, calls, id, |calls| - 1);
    ParkedRefuses(Run(s, calls[..|calls| - 1]), calls[|calls| - 1]);
  }

  lemma ParkedRefuses(s: Store, call: Call)
    requires call.Complete? && Parked(s, call.out.operation)
    ensures Next(s, call) == Outcome(s, StageRefused(StaleStage))
  {
  }

  lemma {:induction false} ParkedThroughout(s: Store, calls: seq<Call>, id: Id, n: nat)
    requires Sound(s) && 0 < n < |calls|
    requires calls[0].Claim? && calls[0].id == id && Next(s, calls[0]).reply.Expired?
    requires forall k :: 0 < k < n ==>
               !Purges(Run(s, calls[..k]), calls[k], id) && !PutsBack(Run(s, calls[..k]), calls[k], id)
    ensures Parked(Run(s, calls[..n]), id)
  {
    hide Next, Purges, PutsBack, Inv, Parked;
    assert calls[..n][..n - 1] == calls[..n - 1];
    if n == 1 {
      ExpiryParks(s, calls[0]);
    } else {
      ParkedThroughout(s, calls, id, n - 1);
      RunKeepsSound(s, calls[..n - 1]);
      ParkedStays(Run(s, calls[..n - 1]), calls[n - 1], id);
    }
  }

  // ---- Resources only move forward ----

  predicate LifecycleMoves(before: Lifecycle, after: Lifecycle) {
    before == after || (before, after) in RESOURCE_EDGES || (before == Candidate && after == Deleted)
  }

  /** A LINE id once bound and a replacement once recorded are never rewritten. */
  predicate ResourceForward(before: Resource, after: Resource) {
    && after.channel == before.channel && after.origin == before.origin && after.image == before.image
    && LifecycleMoves(before.lifecycle, after.lifecycle)
    && (before.lineId.Some? ==> after.lineId == before.lineId)
    && (before.replacement.Some? ==> after.replacement == before.replacement)
  }

  ghost predicate PurgesResource(s: Store, call: Call, r: Id) {
    call.Purge? && r in s.resources && s.resources[r].channel == call.channel && Next(s, call).reply == Answer(true)
  }

  lemma StagesLeaveResources(s: Store, call: Call)
    requires call.Claim? || call.Complete? || call.Handoff? || call.FinishRecovery? || call.FinishCleanup?
             || call.AcceptRecoveryOf? || call.ReserveDisable?
    ensures Next(s, call).store.resources == s.resources
  {
    hide LastSequence;
  }

  lemma FinalizationMovesResource(s: Store, call: Call, r: Id)
    requires Inv(s) && r in s.resources
    requires call.Replace? || call.Finalize?
    ensures r in Next(s, call).store.resources
    ensures ResourceForward(s.resources[r], Next(s, call).store.resources[r])
  {
    hide Inv;
  }

  lemma SimpleCallsMoveResource(s: Store, call: Call, r: Id)
    requires r in s.resources
    requires call.AcceptOperation? || call.MarkCleanup? || call.Discard? || call.Unlinked? || call.ReleasedAway?
             || call.DeletedAway? || call.Bind? || call.Observe?
    ensures r in Next(s, call).store.resources
    ensures ResourceForward(s.resources[r], Next(s, call).store.resources[r])
  {
    hide UsageTaken, LineIdTaken, RelationValid;
  }

  lemma ResourceStays(r: Resource)
    ensures ResourceForward(r, r)
  {
  }

  lemma FinishApplyMovesResource(s: Store, call: Call, r: Id)
    requires Inv(s) && r in s.resources && call.FinishApply?
    ensures r in Next(s, call).store.resources
    ensures ResourceForward(s.resources[r], Next(s, call).store.resources[r])
  {
    hide Inv, FinalizeApply, CompleteStage, ReplacedOld, ResourceForward;
    ResourceStays(s.resources[r]);
    var finalized := FinalizeApply(s, call.id, call.resource, call.replaceFence).store;
    FinalizationMovesResource(s, Finalize(call.id, call.resource, call.replaceFence), r);
    var hasOld := ReplacedOld(finalized, call.id);
    var out := StageOutcome(call.id, Verifying,
                            if hasOld then Status.CleanupRequired else Status.Succeeded,
                            if hasOld then Cleaning else Verifying,
                            if hasOld then Code.CleanupRequired else Code.Succeeded);
    StagesLeaveResources(finalized, Complete(out, call.stageFence, call.now));
  }

  lemma FinishApplyRecoveryMovesResource(s: Store, call: Call, r: Id)
    requires Inv(s) && r in s.resources && call.FinishApplyRecovery?
    ensures r in Next(s, call).store.resources
    ensures ResourceForward(s.resources[r], Next(s, call).store.resources[r])
  {
    if !ApplyRecoverable(s, call.id, call.resource) {
      assert Next(s, call).store == s;
    } else {
      var handoff, claim, finish := RecoveryHandoff(s, call), RecoveryClaim(s, call), RecoveryFinish(s, call);
      ApplyRecoveryParts(s, call);
      StagesLeaveResources(s, handoff);
      NextKeepsInv(s, handoff);
      var handed := Next(s, handoff).store;
      StagesLeaveResources(handed, claim);
      NextKeepsInv(handed, claim);
      FinishApplyMovesResource(Next(handed, claim).store, finish, r);
    }
  }

  /** Every call, every resource row. */
  lemma CallMovesResource(s: Store, call: Call, r: Id)
    requires Inv(s) && r in s.resources && !PurgesResource(s, call, r)
    ensures r in Next(s, call).store.resources
    ensures ResourceForward(s.resources[r], Next(s, call).store.resources[r])
  {
    if call.Purge? {
    } else {
      match call
      case Replace(_, _, _, _) => FinalizationMovesResource(s, call, r);
      case Finalize(_, _, _) => FinalizationMovesResource(s, call, r);
      case FinishApply(_, _, _, _, _) => FinishApplyMovesResource(s, call, r);
      case FinishApplyRecovery(_, _, _, _, _, _, _) => FinishApplyRecoveryMovesResource(s, call, r);
      case Repair(q) => RepairLeavesResources(s, q);
      case Claim(_, _, _, _) => StagesLeaveResources(s, call);
      case Complete(_, _, _) => StagesLeaveResources(s, call);
      case Handoff(_, _, _) => StagesLeaveResources(s, call);
      case FinishRecovery(_, _, _, _) => StagesLeaveResources(s, call);
      case FinishCleanup(_, _, _) => StagesLeaveResources(s, call);
      case AcceptRecoveryOf(_, _, _, _, _) => StagesLeaveResources(s, call);
      case ReserveDisable(_, _, _, _) => StagesLeaveResources(s, call);
      case _ => SimpleCallsMoveResource(s, call, r);
    }
  }

  lemma RepairLeavesResources(s: Store, q: CleanupRepair.Request)
    requires Inv(s)
    ensures Next(s, Repair(q)).store.resources == s.resources
  {
    CleanupRepair.RepairKeeps(s, q);
  }

  /** What a whole run may do to a resource row: the two final lifecycles absorb, bindings are permanent. */
  predicate ResourceEndures(before: Resource, after: Resource) {
    && after.channel == before.channel && after.origin == before.origin
    && (before.lifecycle == Deleted ==> after.lifecycle == Deleted)
    && (before.lifecycle == Released ==> after.lifecycle == Released)
    && (before.lifecycle != Candidate ==> after.lifecycle != Candidate)
    && (before.lineId.Some? ==> after.lineId == before.lineId)
    && (before.replacement.Some? ==> after.replacement == before.replacement)
  }

  lemma {:induction false} ResourcesEndureRuns(s: Store, calls: seq<Call>, r: Id)
    requires Sound(s) && r in s.resources
    requires forall k :: 0 <= k < |calls| ==> !PurgesResource(Run(s, calls[..k]), calls[k], r)
    ensures r in Run(s, calls).resources
    ensures ResourceEndures(s.resources[r], Run(s, calls).resources[r])
  {
    hide Next, PurgesResource, Inv;
    if |calls| > 0 {
      var before := calls[..|calls| - 1];
      forall k | 0 <= k < |before|
        ensures !PurgesResource(Run(s, before[..k]), before[k], r)
      {
        assert before[..k] == calls[..k];
      }
      ResourcesEndureRuns(s, before, r);
      RunKeepsSound(s, before);
      CallMovesResource(Run(s, before), calls[|calls| - 1], r);
    }
  }
}
