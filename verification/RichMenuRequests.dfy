/** Where operation rows come from: every one was asked for by an acceptance or a reservation. */
module RichMenuRequests {
  import opened Wrappers
  import opened RichMenuModel
  import opened RichMenuSteps
  import opened RichMenuInvariant
  import opened RichMenuRuns
  import opened RichMenuStages
  import CleanupRepair

  /** The call asks for an operation with this row's channel, owner and provider. */
  predicate Asks(call: Call, row: Operation) {
    match call
    case AcceptOperation(c, _, _, _, _) => row.channel == c.channel && row.owner == c.owner && row.provider == c.provider
    case AcceptRecoveryOf(c, _, _, _, _) => row.channel == c.channel && row.owner == c.owner && row.provider == c.provider
    case ReserveDisable(c, _, _, _) => row.channel == c.channel && row.owner == c.owner && row.provider == c.provider
    case _ => false
  }

  lemma AcceptedRowsAreAsked(s: Store, call: Call, id: Id)
    requires call.AcceptOperation? || call.AcceptRecoveryOf? || call.ReserveDisable?
    requires id in Next(s, call).store.operations && id !in s.operations
    ensures Asks(call, Next(s, call).store.operations[id])
  {
    hide LastSequence;
  }

  lemma StagesAddNoRows(s: Store, call: Call)
    requires call.Claim? || call.Complete? || call.FinishRecovery? || call.FinishCleanup?
    ensures Next(s, call).store.operations.Keys == s.operations.Keys
  {
    hide LastSequence, MayMove, SlotsOf;
  }

  lemma HandoffAddsNoRows(s: Store, call: Call)
    requires call.Handoff?
    ensures Next(s, call).store.operations.Keys == s.operations.Keys
  {
    hide LastSequence, MayMove, SlotsOf;
  }

  lemma FinishApplyAddsNoRows(s: Store, call: Call)
    requires call.FinishApply?
    ensures Next(s, call).store.operations.Keys == s.operations.Keys
  {
    hide FinalizeApply, CompleteStage;
    var finalized := FinalizeApply(s, call.id, call.resource, call.replaceFence).store;
    ResourceCallsLeaveOperations(s, Finalize(call.id, call.resource, call.replaceFence));
    var hasOld := ReplacedOld(finalized, call.id);
    var out := StageOutcome(call.id, Verifying,
                            if hasOld then Status.CleanupRequired else Status.Succeeded,
                            if hasOld then Cleaning else Verifying,
                            if hasOld then Code.CleanupRequired else Code.Succeeded);
    StagesAddNoRows(finalized, Complete(out, call.stageFence, call.now));
  }

  lemma ApplyRecoveryAddsNoRows(s: Store, call: Call)
    requires call.FinishApplyRecovery?
    ensures Next(s, call).store.operations.Keys == s.operations.Keys
  {
    if !ApplyRecoverable(s, call.id, call.resource) {
      assert Next(s, call).store == s;
    } else {
      hide HandoffRecovery, ClaimStage, CompleteApply, CompleteApplyRecovery;
      var handoff, claim, finish := RecoveryHandoff(s, call), RecoveryClaim(s, call), RecoveryFinish(s, call);
      ApplyRecoveryParts(s, call);
      HandoffAddsNoRows(s, handoff);
      StagesAddNoRows(Next(s, handoff).store, claim);
      FinishApplyAddsNoRows(Next(Next(s, handoff).store, claim).store, finish);
    }
  }

  lemma RepairAddsNoRows(s: Store, q: CleanupRepair.Request)
    ensures CleanupRepair.Repair(s, q).store.operations.Keys == s.operations.Keys
  {
    hide CleanupRepair.Repair, CleanupRepair.RepairWith, CleanupRepair.Refusal, CleanupRepair.Least, LastSequence, SlotsOf;
    if CleanupRepair.Repair(s, q).reply.Plan? {
      var r := CleanupRepair.PlanNames(s, q);
      RepairWrites(s, q, r);
    } else {
      RejectedRepairWritesNothing(s, q);
    }
  }

  lemma RepairCallAddsNoRows(s: Store, call: Call)
    requires call.Repair?
    ensures Next(s, call).store.operations.Keys == s.operations.Keys
  {
    hide CleanupRepair.Repair;
    RepairAddsNoRows(s, call.request);
  }

  lemma PurgeAddsNoRows(s: Store, call: Call)
    requires call.Purge?
    ensures Next(s, call).store.operations.Keys <= s.operations.Keys
  {
  }

  /** A new operation row is one the call asked for. */
  lemma RowsAreAsked(s: Store, call: Call, id: Id)
    requires id in Next(s, call).store.operations && id !in s.operations
    ensures Asks(call, Next(s, call).store.operations[id])
  {
    hide Next;
    match call
    case AcceptOperation(_, _, _, _, _) => AcceptedRowsAreAsked(s, call, id);
    case AcceptRecoveryOf(_, _, _, _, _) => AcceptedRowsAreAsked(s, call, id);
    case ReserveDisable(_, _, _, _) => AcceptedRowsAreAsked(s, call, id);
    case Claim(_, _, _, _) => StagesAddNoRows(s, call);
    case Complete(_, _, _) => StagesAddNoRows(s, call);
    case Handoff(_, _, _) => HandoffAddsNoRows(s, call);
    case FinishRecovery(_, _, _, _) => StagesAddNoRows(s, call);
    case FinishCleanup(_, _, _) => StagesAddNoRows(s, call);
    case FinishApply(_, _, _, _, _) => FinishApplyAddsNoRows(s, call);
    case FinishApplyRecovery(_, _, _, _, _, _, _) => ApplyRecoveryAddsNoRows(s, call);
    case Purge(_, _, _) => PurgeAddsNoRows(s, call);
    case Repair(_) => RepairCallAddsNoRows(s, call);
    case _ => ResourceCallsLeaveOperations(s, call);
  }

  lemma PurgedRowsAreGone(s: Store, call: Call, id: Id)
    requires id in s.operations && id in Next(s, call).store.operations
    ensures !Purges(s, call, id)
  {
  }
}
