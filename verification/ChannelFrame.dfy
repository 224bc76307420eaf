/** Calls that work on one channel leave every other channel's rows alone. */
module ChannelFrame {
  import opened Wrappers
  import opened RichMenuModel
  import opened RichMenuSteps
  import opened RichMenuInvariant
  import opened RichMenuRuns
  import opened RichMenuStages
  import CleanupRepair

  predicate Within(s: Store, channel: Id, id: Id) {
    id in s.operations && s.operations[id].channel == channel
  }

  predicate Holds(s: Store, channel: Id, r: Id) {
    r in s.resources && s.resources[r].channel == channel
  }

  /** The slots, operations and resources of the channel are what they were. */
  ghost predicate ChannelKept(s: Store, s': Store, channel: Id) {
    && (channel in s.channels <==> channel in s'.channels)
    && SlotsOf(s, channel) == SlotsOf(s', channel)
    && (forall id :: Within(s, channel, id) ==> id in s'.operations && s'.operations[id] == s.operations[id])
    && (forall id :: Within(s', channel, id) ==> id in s.operations && s'.operations[id] == s.operations[id])
    && (forall r :: Holds(s, channel, r) ==> r in s'.resources && s'.resources[r] == s.resources[r])
    && (forall r :: Holds(s', channel, r) ==> r in s.resources && s'.resources[r] == s.resources[r])
  }

  predicate Elsewhere(s: Store, call: Call, channel: Id) {
    match call
    case Claim(id, _, _, _) => !Within(s, channel, id)
    case Complete(out, _, _) => !Within(s, channel, out.operation)
    case AcceptOperation(c, _, _, _, _) => c.channel != channel
    case AcceptRecoveryOf(c, _, _, _, _) => c.channel != channel
    case ReserveDisable(c, _, _, _) => c.channel != channel
    case Handoff(out, _, _) => !Within(s, channel, out.recovery)
    case FinishRecovery(id, _, _, _) => !Within(s, channel, id)
    case FinishCleanup(id, _, _) => !Within(s, channel, id)
    case Replace(id, _, _, _) => !Within(s, channel, id)
    case Finalize(id, _, _) => !Within(s, channel, id)
    case FinishApply(id, _, _, _, _) => !Within(s, channel, id)
    case FinishApplyRecovery(id, _, _, _, _, _, _) => !Within(s, channel, id)
    case MarkCleanup(r) => !Holds(s, channel, r)
    case Discard(r, _) => !Holds(s, channel, r)
    case Unlinked(r) => !Holds(s, channel, r)
    case ReleasedAway(r, _) => !Holds(s, channel, r)
    case DeletedAway(r, _) => !Holds(s, channel, r)
    case Bind(r, _) => !Holds(s, channel, r)
    case Observe(c, _, _, _, _) => c != channel
    case Purge(c, _, _) => c != channel
    case Repair(q) => q.channel != channel
  }

  lemma KeptTwice(a: Store, b: Store, c: Store, channel: Id)
    requires ChannelKept(a, b, channel) && ChannelKept(b, c, channel)
    ensures ChannelKept(a, c, channel)
  {
    forall id | Within(a, channel, id)
      ensures id in c.operations && c.operations[id] == a.operations[id]
    {
      assert Within(b, channel, id);
    }
    forall id | Within(c, channel, id)
      ensures id in a.operations && c.operations[id] == a.operations[id]
    {
      assert Within(b, channel, id);
    }
    forall r | Holds(a, channel, r)
      ensures r in c.resources && c.resources[r] == a.resources[r]
    {
      assert Holds(b, channel, r);
    }
    forall r | Holds(c, channel, r)
      ensures r in a.resources && c.resources[r] == a.resources[r]
    {
      assert Holds(b, channel, r);
    }
  }

  lemma NothingKept(s: Store, channel: Id)
    ensures ChannelKept(s, s, channel)
  {
  }

  // ---- Single writes ----

  lemma SlotsElsewhere(s: Store, a: Store, c: Id, slots: Slots, channel: Id)
    requires ChannelKept(s, a, channel) && c != channel
    ensures ChannelKept(s, SetSlots(a, c, slots), channel)
  {
  }

  lemma RowElsewhere(s: Store, a: Store, id: Id, op: Operation, channel: Id)
    requires ChannelKept(s, a, channel) && !Within(s, channel, id) && op.channel != channel
    ensures ChannelKept(s, SetOperation(a, id, op), channel)
  {
  }

  lemma LoggedElsewhere(s: Store, a: Store, id: Id, from: Status, op: Operation, reason: Code, channel: Id)
    requires ChannelKept(s, a, channel) && !Within(s, channel, id) && op.channel != channel && op.stage.Some?
    ensures ChannelKept(s, Logged(a, id, from, op, reason), channel)
  {
    hide LastSequence;
  }

  lemma ResourceElsewhere(s: Store, a: Store, r: Id, resource: Resource, channel: Id)
    requires ChannelKept(s, a, channel) && !Holds(s, channel, r) && resource.channel != channel
    ensures ChannelKept(s, SetResource(a, r, resource), channel)
  {
  }

  /** The single writes, for whatever store they are made on. */
  lemma Writes(s: Store, channel: Id)
    ensures ChannelKept(s, s, channel)
    ensures forall a, c, slots {:trigger SetSlots(a, c, slots)} ::
              ChannelKept(s, a, channel) && c != channel ==> ChannelKept(s, SetSlots(a, c, slots), channel)
    ensures forall a, id, op: Operation {:trigger SetOperation(a, id, op)} ::
              ChannelKept(s, a, channel) && !Within(s, channel, id) && op.channel != channel ==>
                ChannelKept(s, SetOperation(a, id, op), channel)
    ensures forall a, id, from, op: Operation, reason {:trigger Logged(a, id, from, op, reason)} ::
              op.stage.Some? && ChannelKept(s, a, channel) && !Within(s, channel, id) && op.channel != channel ==>
                ChannelKept(s, Logged(a, id, from, op, reason), channel)
    ensures forall a, r, resource: Resource {:trigger SetResource(a, r, resource)} ::
              ChannelKept(s, a, channel) && !Holds(s, channel, r) && resource.channel != channel ==>
                ChannelKept(s, SetResource(a, r, resource), channel)
  {
    hide ChannelKept, Within, Holds, SetSlots, SetOperation, Logged, SetResource;
    NothingKept(s, channel);
    forall a, c, slots | ChannelKept(s, a, channel) && c != channel
      ensures ChannelKept(s, SetSlots(a, c, slots), channel)
    {
      SlotsElsewhere(s, a, c, slots, channel);
    }
    forall a, id, op: Operation | ChannelKept(s, a, channel) && !Within(s, channel, id) && op.channel != channel
      ensures ChannelKept(s, SetOperation(a, id, op), channel)
    {
      RowElsewhere(s, a, id, op, channel);
    }
    forall a, id, from, op: Operation, reason |
      op.stage.Some? && ChannelKept(s, a, channel) && !Within(s, channel, id) && op.channel != channel
      ensures ChannelKept(s, Logged(a, id, from, op, reason), channel)
    {
      LoggedElsewhere(s, a, id, from, op, reason, channel);
    }
    forall a, r, resource: Resource | ChannelKept(s, a, channel) && !Holds(s, channel, r) && resource.channel != channel
      ensures ChannelKept(s, SetResource(a, r, resource), channel)
    {
      ResourceElsewhere(s, a, r, resource, channel);
    }
  }

  // ---- Calls ----

  lemma ClaimElsewhere(s: Store, call: Call, channel: Id)
    requires call.Claim?
    requires Elsewhere(s, call, channel)
    ensures ChannelKept(s, Next(s, call).store, channel)
  {
    hide ChannelKept, SetSlots, SetOperation, Logged, SetResource, SlotsOf, MayMove;
    Writes(s, channel);
  }

  lemma CompleteElsewhere(s: Store, call: Call, channel: Id)
    requires call.Complete? || call.FinishRecovery?
    requires Elsewhere(s, call, channel)
    ensures ChannelKept(s, Next(s, call).store, channel)
  {
    hide ChannelKept, SetSlots, SetOperation, Logged, SetResource, SlotsOf, MayMove;
    Writes(s, channel);
  }

  lemma CleanupElsewhere(s: Store, call: Call, channel: Id)
    requires call.FinishCleanup?
    requires Elsewhere(s, call, channel)
    ensures ChannelKept(s, Next(s, call).store, channel)
  {
    hide ChannelKept, SetSlots, SetOperation, Logged, SetResource, SlotsOf;
    Writes(s, channel);
  }

  lemma HandoffElsewhere(s: Store, call: Call, channel: Id)
    requires call.Handoff?
    requires Elsewhere(s, call, channel)
    ensures ChannelKept(s, Next(s, call).store, channel)
  {
    hide ChannelKept, SetSlots, SetOperation, Logged, SetResource, SlotsOf, HandoffAllowed, BlockerMayMove;
    Writes(s, channel);
  }

  lemma AcceptanceElsewhere(s: Store, call: Call, channel: Id)
    requires call.AcceptOperation? || call.AcceptRecoveryOf? || call.ReserveDisable?
    requires Elsewhere(s, call, channel)
    ensures ChannelKept(s, Next(s, call).store, channel)
  {
    hide ChannelKept, SetSlots, SetOperation, Logged, SetResource, SlotsOf, RecoveryAdmissible, DisableTarget, HasLifecycle, UsageTaken;
    Writes(s, channel);
  }

  lemma ResourcesElsewhere(s: Store, call: Call, channel: Id)
    requires ResourceCall(call)
    requires Elsewhere(s, call, channel)
    ensures ChannelKept(s, Next(s, call).store, channel)
  {
    hide ChannelKept, SetSlots, SetOperation, Logged, SetResource, SlotsOf, Replaces, LineIdTaken;
    Writes(s, channel);
  }

  lemma PurgeElsewhere(s: Store, call: Call, channel: Id)
    requires call.Purge? && Elsewhere(s, call, channel)
    ensures ChannelKept(s, Next(s, call).store, channel)
  {
    hide ChannelReferenced, WithoutOperations;
  }

  lemma PlannedSubject(s: Store, q: CleanupRepair.Request, r: Id)
    requires CleanupRepair.Refusal(s, q).None? && CleanupRepair.Least(s, q, r)
    ensures CleanupRepair.IsCandidate(s, q, r)
    ensures r in s.resources && s.resources[r].replacement.Some? && Within(s, q.channel, s.resources[r].replacement.value)
  {
  }

  lemma CorrectionElsewhere(s: Store, subject: Id, channel: Id)
    requires subject in s.operations
    ensures s.operations[subject].channel != channel ==> ChannelKept(s, CorrectSubject(s, subject), channel)
  {
    hide ChannelKept, SetSlots, Logged, SlotsOf;
    Writes(s, channel);
  }

  lemma RepairElsewhere(s: Store, call: Call, channel: Id)
    requires call.Repair? && Elsewhere(s, call, channel)
    ensures ChannelKept(s, Next(s, call).store, channel)
  {
    hide CleanupRepair.Repair, CleanupRepair.RepairWith, CleanupRepair.Refusal, CleanupRepair.Least,
      CleanupRepair.IsCandidate, CorrectSubject, ChannelKept;
    if CleanupRepair.Repair(s, call.request).reply.Plan? {
      var r := CleanupRepair.PlanNames(s, call.request);
      RepairWrites(s, call.request, r);
      PlannedSubject(s, call.request, r);
      CorrectionElsewhere(s, s.resources[r].replacement.value, channel);
    } else {
      RejectedRepairWritesNothing(s, call.request);
    }
    NothingKept(s, channel);
  }

  lemma FinishApplyElsewhere(s: Store, call: Call, channel: Id)
    requires call.FinishApply? && Elsewhere(s, call, channel)
    ensures ChannelKept(s, Next(s, call).store, channel)
  {
    hide FinalizeApply, CompleteStage, ChannelKept;
    var finalize := Finalize(call.id, call.resource, call.replaceFence);
    var finalized := Next(s, finalize).store;
    ResourcesElsewhere(s, finalize, channel);
    ResourceCallsLeaveOperations(s, finalize);
    var hasOld := ReplacedOld(finalized, call.id);
    var out := StageOutcome(call.id, Verifying,
                            if hasOld then Status.CleanupRequired else Status.Succeeded,
                            if hasOld then Cleaning else Verifying,
                            if hasOld then Code.CleanupRequired else Code.Succeeded);
    CompleteElsewhere(finalized, Complete(out, call.stageFence, call.now), channel);
    KeptTwice(s, finalized, Next(finalized, Complete(out, call.stageFence, call.now)).store, channel);
    NothingKept(s, channel);
  }

  lemma SubjectIsWithin(s: Store, id: Id)
    requires Inv(s) && id in s.operations && s.operations[id].subject.Some?
    ensures Within(s, s.operations[id].channel, s.operations[id].subject.value)
  {
    assert OperationOk(s, id);
  }

  lemma ChannelsStay(s: Store, call: Call, id: Id)
    requires Inv(s) && id in s.operations && !call.Purge?
    ensures id in Next(s, call).store.operations
    ensures Next(s, call).store.operations[id].channel == s.operations[id].channel
  {
    hide Inv, Next;
    CallMovesRow(s, call, id);
  }

  lemma UnrecoverableIsRefused(s: Store, call: Call)
    requires call.FinishApplyRecovery? && !ApplyRecoverable(s, call.id, call.resource)
    ensures Next(s, call).store == s
  {
    hide HandoffRecovery, ClaimStage, CompleteApply, ApplyRecoverable;
  }

  lemma RecoverableRows(s: Store, call: Call)
    requires call.FinishApplyRecovery? && ApplyRecoverable(s, call.id, call.resource)
    ensures call.id in s.operations && s.operations[call.id].subject.Some?
    ensures s.operations[call.id].subject.value in s.operations
    ensures RecoveryHandoff(s, call).recovery.recovery == call.id
    ensures RecoveryClaim(s, call).id == s.operations[call.id].subject.value == RecoveryFinish(s, call).id
  {
  }

  lemma ApplyRecoveryElsewhere(s: Store, call: Call, channel: Id)
    requires Inv(s) && call.FinishApplyRecovery? && Elsewhere(s, call, channel)
    ensures ChannelKept(s, Next(s, call).store, channel)
  {
    hide Next, Inv, ChannelKept, ApplyRecoverable;
    NothingKept(s, channel);
    if !ApplyRecoverable(s, call.id, call.resource) {
      UnrecoverableIsRefused(s, call);
    } else {
      RecoverableRows(s, call);
      var handoff, claim, finish := RecoveryHandoff(s, call), RecoveryClaim(s, call), RecoveryFinish(s, call);
      ApplyRecoveryParts(s, call);
      SubjectIsWithin(s, call.id);
      var handed := Next(s, handoff).store;
      HandoffElsewhere(s, handoff, channel);
      NextKeepsInv(s, handoff);
      ChannelsStay(s, handoff, claim.id);
      var claimed := Next(handed, claim).store;
      ClaimElsewhere(handed, claim, channel);
      ChannelsStay(handed, claim, claim.id);
      KeptTwice(s, handed, claimed, channel);
      FinishApplyElsewhere(claimed, finish, channel);
      KeptTwice(s, claimed, Next(claimed, finish).store, channel);
    }
  }

  /** Every call. */
  lemma ElsewhereKeepsChannel(s: Store, call: Call, channel: Id)
    requires Inv(s) && Elsewhere(s, call, channel)
    ensures ChannelKept(s, Next(s, call).store, channel)
  {
    hide Inv, Next, ChannelKept;
    match call
    case Claim(_, _, _, _) => ClaimElsewhere(s, call, channel);
    case Complete(_, _, _) => CompleteElsewhere(s, call, channel);
    case FinishRecovery(_, _, _, _) => CompleteElsewhere(s, call, channel);
    case FinishCleanup(_, _, _) => CleanupElsewhere(s, call, channel);
    case Handoff(_, _, _) => HandoffElsewhere(s, call, channel);
    case AcceptOperation(_, _, _, _, _) => AcceptanceElsewhere(s, call, channel);
    case AcceptRecoveryOf(_, _, _, _, _) => AcceptanceElsewhere(s, call, channel);
    case ReserveDisable(_, _, _, _) => AcceptanceElsewhere(s, call, channel);
    case FinishApply(_, _, _, _, _) => FinishApplyElsewhere(s, call, channel);
    case FinishApplyRecovery(_, _, _, _, _, _, _) => ApplyRecoveryElsewhere(s, call, channel);
    case Purge(_, _, _) => PurgeElsewhere(s, call, channel);
    case Repair(_) => RepairElsewhere(s, call, channel);
    case _ => ResourcesElsewhere(s, call, channel);
  }

  /** Calls that each work elsewhere at their turn. */
  ghost predicate AllElsewhere(s: Store, calls: seq<Call>, channel: Id) {
    forall k :: 0 <= k < |calls| ==> Elsewhere(Run(s, calls[..k]), calls[k], channel)
  }

  lemma {:induction false} RunElsewhere(s: Store, calls: seq<Call>, channel: Id)
    requires Inv(s) && AllElsewhere(s, calls, channel)
    ensures Inv(Run(s, calls)) && ChannelKept(s, Run(s, calls), channel)
  {
    hide Inv, Next, ChannelKept, Elsewhere;
    NothingKept(s, channel);
    if |calls| > 0 {
      var before := calls[..|calls| - 1];
      forall k | 0 <= k < |before|
        ensures Elsewhere(Run(s, before[..k]), before[k], channel)
      {
        assert before[..k] == calls[..k];
      }
      RunElsewhere(s, before, channel);
      assert Elsewhere(Run(s, calls[..|before|]), calls[|before|], channel);
      ElsewhereKeepsChannel(Run(s, before), calls[|before|], channel);
      NextKeepsInv(Run(s, before), calls[|before|]);
      KeptTwice(s, Run(s, before), Run(s, calls), channel);
    }
  }
}
