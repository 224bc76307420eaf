/** Runs: any sequence of repository, purge and repair calls, in any order and with any arguments. */
module RichMenuRuns {
  import opened Wrappers
  import opened RichMenuModel
  import opened RichMenuSteps
  import opened RichMenuInvariant
  import opened RichMenuHistory
  import opened RichMenuReplacement
  import CleanupRepair

  datatype Call =
    | Claim(id: Id, stage: Stage, now: Time, timeout: nat)
    | Complete(out: StageOutcome, fence: Fence, now: Time)
    | AcceptOperation(command: Command, reference: ReferenceFence, allowed: bool, now: Time, candidate: Id)
    | AcceptRecoveryOf(command: Command, reference: ReferenceFence, allowed: bool, fence: Fence, now: Time)
    | ReserveDisable(disable: DisableCommand, reference: ReferenceFence, fence: Fence, now: Time)
    | Handoff(recovery: RecoveryOutcome, fence: Fence, now: Time)
    | FinishRecovery(id: Id, next: Status, result: Code, now: Time)
    | FinishCleanup(id: Id, resource: Id, now: Time)
    | Replace(id: Id, newId: Id, oldId: Id, fence: Fence)
    | Finalize(id: Id, resource: Id, fence: Fence)
    | FinishApply(id: Id, resource: Id, replaceFence: Fence, stageFence: Fence, now: Time)
    | FinishApplyRecovery(id: Id, resource: Id, handoffFence: Fence, replaceFence: Fence, stageFence: Fence,
                          now: Time, timeout: nat)
    | MarkCleanup(resource: Id)
    | Discard(resource: Id, now: Time)
    | Unlinked(resource: Id)
    | ReleasedAway(resource: Id, now: Time)
    | DeletedAway(resource: Id, now: Time)
    | Bind(resource: Id, lineId: string)
    | Observe(channel: Id, owner: Id, provider: string, observation: Observation, managed: Option<Id>)
    | Purge(channel: Id, reference: ReferenceFence, stored: bool)
    | Repair(request: CleanupRepair.Request)

  ghost function Next(s: Store, call: Call): Outcome {
    match call
    case Claim(id, stage, now, timeout) => ClaimStage(s, id, stage, now, timeout)
    case Complete(out, fence, now) => CompleteStage(s, out, fence, now)
    case AcceptOperation(c, reference, allowed, now, candidate) => Accept(s, c, reference, allowed, now, candidate)
    case AcceptRecoveryOf(c, reference, allowed, fence, now) => AcceptRecovery(s, c, reference, allowed, fence, now)
    case ReserveDisable(c, reference, fence, now) => ReserveDisableUnlink(s, c, reference, fence, now)
    case Handoff(out, fence, now) => HandoffRecovery(s, out, fence, now)
    case FinishRecovery(id, next, result, now) => CompleteRecovery(s, id, next, result, now)
    case FinishCleanup(id, resource, now) => CompleteCleanupRecovery(s, id, resource, now)
    case Replace(id, newId, oldId, fence) => RecordReplacement(s, id, newId, oldId, fence)
    case Finalize(id, resource, fence) => FinalizeApply(s, id, resource, fence)
    case FinishApply(id, resource, f1, f2, now) => CompleteApply(s, id, resource, f1, f2, now)
    case FinishApplyRecovery(id, resource, f1, f2, f3, now, timeout) =>
      CompleteApplyRecovery(s, id, resource, f1, f2, f3, now, timeout)
    case MarkCleanup(r) => MarkCleanupRequired(s, r)
    case Discard(r, now) => DiscardCandidate(s, r, now)
    case Unlinked(r) => FinalizeUnlink(s, r)
    case ReleasedAway(r, now) => FinalizeRelease(s, r, now)
    case DeletedAway(r, now) => FinalizeDeleted(s, r, now)
    case Bind(r, lineId) => BindLineId(s, r, lineId)
    case Observe(c, owner, provider, observation, managed) =>
      RecordObservation(s, c, owner, provider, observation, managed)
    case Purge(c, reference, stored) => PurgeHistory(s, c, reference, stored)
    case Repair(q) => Outcome(CleanupRepair.Repair(s, q).store, Answer(CleanupRepair.Repair(s, q).reply.Plan?))
  }

  const EMPTY := Store(map[], map[], map[], [])

  /** The store after a sequence of calls. */
  ghost function Run(s: Store, calls: seq<Call>): Store {
    if |calls| == 0 then s else Next(Run(s, calls[..|calls| - 1]), calls[|calls| - 1]).store
  }

  ghost predicate Sound(s: Store) {
    Inv(s) && History(s) && Ordered(s)
  }

  lemma NextKeepsInv(s: Store, call: Call)
    requires Inv(s)
    ensures Inv(Next(s, call).store)
  {
    hide Inv, ClaimStage, CompleteStage, Accept, AcceptRecovery, ReserveDisableUnlink, HandoffRecovery, CompleteRecovery,
      CompleteCleanupRecovery, RecordReplacement, FinalizeApply, CompleteApply, CompleteApplyRecovery,
      MarkCleanupRequired, DiscardCandidate, FinalizeUnlink, FinalizeRelease, FinalizeDeleted, BindLineId,
      RecordObservation, PurgeHistory, CleanupRepair.Repair;
    match call
    case Claim(id, stage, now, timeout) => ClaimKeeps(s, id, stage, now, timeout);
    case Complete(out, fence, now) => CompleteStageKeeps(s, out, fence, now);
    case AcceptOperation(c, reference, allowed, now, candidate) => AcceptKeeps(s, c, reference, allowed, now, candidate);
    case AcceptRecoveryOf(c, reference, allowed, fence, now) => AcceptRecoveryKeeps(s, c, reference, allowed, fence, now);
    case ReserveDisable(c, reference, fence, now) => ReserveDisableKeeps(s, c, reference, fence, now);
    case Handoff(out, fence, now) => HandoffKeeps(s, out, fence, now);
    case FinishRecovery(id, next, result, now) => CompleteRecoveryKeeps(s, id, next, result, now);
    case FinishCleanup(id, resource, now) => CleanupCompletionKeeps(s, id, resource, now);
    case Replace(id, newId, oldId, fence) => ReplacementKeeps(s, id, newId, oldId, fence);
    case Finalize(id, resource, fence) => FinalizeApplyKeeps(s, id, resource, fence);
    case FinishApply(id, resource, f1, f2, now) => CompleteApplyKeeps(s, id, resource, f1, f2, now);
    case FinishApplyRecovery(id, resource, f1, f2, f3, now, timeout) =>
      CompleteApplyRecoveryKeeps(s, id, resource, f1, f2, f3, now, timeout);
    case MarkCleanup(r) => MarkCleanupKeeps(s, r);
    case Discard(r, now) => DeleteKeeps(s, r, now);
    case Unlinked(r) => MarkCleanupKeeps(s, r);
    case ReleasedAway(r, now) => FinalizeReleaseKeeps(s, r, now);
    case DeletedAway(r, now) => DeleteKeeps(s, r, now);
    case Bind(r, lineId) => BindKeeps(s, r, lineId);
    case Observe(c, owner, provider, observation, managed) => ObservationKeeps(s, c, owner, provider, observation, managed);
    case Purge(c, reference, stored) => PurgeKeeps(s, c, reference, stored);
    case Repair(q) => CleanupRepair.RepairKeeps(s, q);
  }

  /** Calls that write no transition row and start no operation but an accepted one. */
  predicate Quiet(call: Call) {
    || call.AcceptOperation? || call.ReserveDisable? || call.Replace? || call.Finalize? || call.MarkCleanup?
    || call.Discard? || call.Unlinked? || call.ReleasedAway? || call.DeletedAway? || call.Bind? || call.Observe?
  }

  /** Old rows keep their progress, and a new one is accepted. */
  ghost predicate ProgressKept(s: Store, s': Store) {
    && s'.transitions == s.transitions && s.operations.Keys <= s'.operations.Keys
    && forall id :: id in s'.operations ==>
         ProgressOf(s'.operations[id]) == if id in s.operations then ProgressOf(s.operations[id]) else RichMenuHistory.START
  }

  lemma AcceptanceKeepsProgress(s: Store, call: Call)
    requires call.AcceptOperation?
    ensures ProgressKept(s, Next(s, call).store)
  {
    hide UsageTaken, RelationValid;
  }

  lemma ReservationKeepsProgress(s: Store, call: Call)
    requires call.ReserveDisable?
    ensures ProgressKept(s, Next(s, call).store)
  {
    hide DisableTarget, HasLifecycle;
  }

  lemma ResourceCallsKeepProgress(s: Store, call: Call)
    requires Quiet(call) && !call.AcceptOperation? && !call.ReserveDisable?
    ensures Next(s, call).store.transitions == s.transitions && Next(s, call).store.operations == s.operations
  {
    hide VerifyingApply, Replaces, LineIdTaken;
  }

  lemma QuietCallsKeepHistory(s: Store, call: Call)
    requires History(s) && Quiet(call)
    ensures History(Next(s, call).store)
  {
    hide History, Next;
    if call.AcceptOperation? {
      AcceptanceKeepsProgress(s, call);
    } else if call.ReserveDisable? {
      ReservationKeepsProgress(s, call);
    } else {
      ResourceCallsKeepProgress(s, call);
    }
    SameProgressKeepsHistory(s, Next(s, call).store);
  }

  lemma RepairKeepsHistory(s: Store, q: CleanupRepair.Request)
    requires History(s)
    ensures History(CleanupRepair.Repair(s, q).store)
  {
    hide History, LastSequence;
    if CleanupRepair.Repair(s, q).reply.Plan? {
      var r := CleanupRepair.PlanNames(s, q);
      var subject := CleanupRepair.Repair(s, q).reply.subject;
      if s.operations[subject].status == Status.Succeeded {
        CorrectionKeepsHistory(s, subject);
      }
    }
  }

  lemma NextKeepsHistory(s: Store, call: Call)
    requires Inv(s) && History(s)
    ensures History(Next(s, call).store)
  {
    hide Inv, History, ClaimStage, CompleteStage, Accept, AcceptRecovery, ReserveDisableUnlink, HandoffRecovery, CompleteRecovery,
      CompleteCleanupRecovery, RecordReplacement, FinalizeApply, CompleteApply, CompleteApplyRecovery,
      MarkCleanupRequired, DiscardCandidate, FinalizeUnlink, FinalizeRelease, FinalizeDeleted, BindLineId,
      RecordObservation, PurgeHistory, CleanupRepair.Repair;
    match call
    case Claim(id, stage, now, timeout) => ClaimKeepsHistory(s, id, stage, now, timeout);
    case Complete(out, fence, now) => CompleteStageKeepsHistory(s, out, fence, now);
    case AcceptRecoveryOf(c, reference, allowed, fence, now) => AcceptRecoveryKeepsHistory(s, c, reference, allowed, fence, now);
    case Handoff(out, fence, now) => HandoffKeepsHistory(s, out, fence, now);
    case FinishRecovery(id, next, result, now) => CompleteRecoveryKeepsHistory(s, id, next, result, now);
    case FinishCleanup(id, resource, now) => CleanupCompletionKeepsHistory(s, id, resource, now);
    case FinishApply(id, resource, f1, f2, now) => CompleteApplyKeepsHistory(s, id, resource, f1, f2, now);
    case FinishApplyRecovery(id, resource, f1, f2, f3, now, timeout) =>
      CompleteApplyRecoveryKeepsHistory(s, id, resource, f1, f2, f3, now, timeout);
    case Purge(c, reference, stored) => PurgeKeepsHistory(s, c, reference, stored);
    case Repair(q) => RepairKeepsHistory(s, q);
    case _ => QuietCallsKeepHistory(s, call);
  }

  /** Calls that can add no edge to the replacement relation. */
  lemma OtherCallsKeepOrder(s: Store, call: Call)
    requires Inv(s) && Ordered(s)
    requires !call.AcceptOperation? && !call.Replace? && !call.Finalize? && !call.FinishApply? && !call.FinishApplyRecovery?
    ensures Ordered(Next(s, call).store)
  {
    hide Inv, Ordered, LastSequence, MayMove, CleanupRepair.Repair, RecoveryAdmissible, HandoffAllowed, BlockerMayMove,
      WithoutOperations, ChannelReferenced, DisableTarget, LineIdTaken;
    if call.Repair? {
      CleanupRepair.RepairKeeps(s, call.request);
    }
    FewerEdges(s, Next(s, call).store);
  }

  lemma NextKeepsOrder(s: Store, call: Call)
    requires Inv(s) && Ordered(s)
    ensures Ordered(Next(s, call).store)
  {
    hide Inv, Ordered, ClaimStage, CompleteStage, Accept, AcceptRecovery, ReserveDisableUnlink, HandoffRecovery, CompleteRecovery,
      CompleteCleanupRecovery, RecordReplacement, FinalizeApply, CompleteApply, CompleteApplyRecovery,
      MarkCleanupRequired, DiscardCandidate, FinalizeUnlink, FinalizeRelease, FinalizeDeleted, BindLineId,
      RecordObservation, PurgeHistory, CleanupRepair.Repair;
    match call
    case AcceptOperation(c, reference, allowed, now, candidate) =>
      AcceptKeepsOrder(s, c, reference, allowed, now, candidate);
    case Replace(id, newId, oldId, fence) => ReplacementKeepsOrder(s, id, newId, oldId, fence);
    case Finalize(id, resource, fence) => FinalizeApplyKeepsOrder(s, id, resource, fence);
    case FinishApply(id, resource, f1, f2, now) => CompleteApplyKeepsOrder(s, id, resource, f1, f2, now);
    case FinishApplyRecovery(id, resource, f1, f2, f3, now, timeout) =>
      CompleteApplyRecoveryKeepsOrder(s, id, resource, f1, f2, f3, now, timeout);
    case _ => OtherCallsKeepOrder(s, call);
  }

  lemma EmptyIsSound()
    ensures Sound(EMPTY)
  {
    assert Ranks(EMPTY, map[]);
  }

  lemma {:induction false} RunKeepsSound(s: Store, calls: seq<Call>)
    requires Sound(s)
    ensures Sound(Run(s, calls))
  {
    hide Next, Inv, History, Ordered;
    if |calls| > 0 {
      var before := Run(s, calls[..|calls| - 1]);
      RunKeepsSound(s, calls[..|calls| - 1]);
      NextKeepsInv(before, calls[|calls| - 1]);
      NextKeepsHistory(before, calls[|calls| - 1]);
      NextKeepsOrder(before, calls[|calls| - 1]);
    }
  }

  // ---- What every reachable store satisfies ----

  /** An operation is accepted, processing or recovering exactly while it is its channel's active one. */
  lemma ActiveExactlyWhileLive(calls: seq<Call>, id: Id)
    requires id in Run(EMPTY, calls).operations
    ensures var s := Run(EMPTY, calls); var op := s.operations[id];
            && op.channel in s.channels
            && (Live(op.status) <==> s.channels[op.channel].active == Some(id))
            && (op.startedAt.Some? ==> op.status == Status.Processing || op.status == Status.RecoveryActive)
            && (forall c :: c in s.channels && c != op.channel ==> s.channels[c].active != Some(id))
  {
    EmptyIsSound();
    RunKeepsSound(EMPTY, calls);
    var s := Run(EMPTY, calls);
    assert OperationOk(s, id) && SlotsOk(s, s.operations[id].channel);
    forall c | c in s.channels && c != s.operations[id].channel
      ensures s.channels[c].active != Some(id)
    {
      assert SlotsOk(s, c);
    }
  }

  /** A blocker is unresolved; beside it only a recovery of that very operation can be active. */
  lemma BlockerExcludesOrdinaryWork(calls: seq<Call>, channel: Id)
    requires channel in Run(EMPTY, calls).channels && Run(EMPTY, calls).channels[channel].blocking.Some?
    ensures var s := Run(EMPTY, calls); var slots := s.channels[channel];
            && slots.blocking.value in s.operations
            && s.operations[slots.blocking.value].status in {Status.Unknown, Status.CleanupRequired}
            && (slots.active.Some? ==>
                  && slots.active.value in s.operations
                  && s.operations[slots.active.value].status == Status.RecoveryActive
                  && s.operations[slots.active.value].subject == slots.blocking)
  {
    EmptyIsSound();
    RunKeepsSound(EMPTY, calls);
    assert SlotsOk(Run(EMPTY, calls), channel);
  }

  /** The applied resources of a channel are exactly its current one. */
  lemma AppliedExactlyWhileCurrent(calls: seq<Call>, r: Id)
    requires r in Run(EMPTY, calls).resources
    ensures var s := Run(EMPTY, calls); var channel := s.resources[r].channel;
            s.resources[r].lifecycle == Applied <==> SlotsOf(s, channel).current == Some(r)
  {
    EmptyIsSound();
    RunKeepsSound(EMPTY, calls);
    var s := Run(EMPTY, calls);
    assert ResourceOk(s, r) && SlotsOk(s, s.resources[r].channel);
  }

  /** Replaying an operation's rows gives its stored status, stage and result. */
  lemma LogReplaysToState(calls: seq<Call>, id: Id)
    ensures var s := Run(EMPTY, calls);
            if id in s.operations
            then Replay(Rows(s.transitions, id)) == Some(ProgressOf(s.operations[id]))
            else Rows(s.transitions, id) == []
  {
    EmptyIsSound();
    RunKeepsSound(EMPTY, calls);
    assert Faithful(Run(EMPTY, calls), id);
  }

  /** The check constraints of the tables hold in every reachable store, so none of them ever stops a step. */
  lemma ConstraintsNeverFire(calls: seq<Call>)
    ensures var s := Run(EMPTY, calls);
            && (forall id :: id in s.operations ==>
                  && RelationValid(s.operations[id].kind, s.operations[id].subject, s.operations[id].target)
                  && (s.operations[id].status == Status.Accepted <==> s.operations[id].stage.None?))
            && (forall r :: r in s.resources ==>
                  && (s.resources[r].lifecycle in {Candidate, Applied, Released} ==> s.resources[r].replacement.None?)
                  && (s.resources[r].deletedAt.Some? <==> s.resources[r].lifecycle == Deleted)
                  && (s.resources[r].releasedAt.Some? <==> s.resources[r].lifecycle == Released))
            && (forall i, j :: 0 <= i < j < |s.transitions| && s.transitions[i].operation == s.transitions[j].operation ==>
                  s.transitions[i].sequence < s.transitions[j].sequence)
  {
    EmptyIsSound();
    RunKeepsSound(EMPTY, calls);
    var s := Run(EMPTY, calls);
    forall id | id in s.operations
      ensures RelationValid(s.operations[id].kind, s.operations[id].subject, s.operations[id].target)
      ensures s.operations[id].status == Status.Accepted <==> s.operations[id].stage.None?
    {
      assert OperationOk(s, id);
    }
    forall r | r in s.resources
      ensures s.resources[r].lifecycle in {Candidate, Applied, Released} ==> s.resources[r].replacement.None?
      ensures s.resources[r].deletedAt.Some? <==> s.resources[r].lifecycle == Deleted
      ensures s.resources[r].releasedAt.Some? <==> s.resources[r].lifecycle == Released
    {
      assert ResourceOk(s, r);
    }
    forall i, j | 0 <= i < j < |s.transitions| && s.transitions[i].operation == s.transitions[j].operation
      ensures s.transitions[i].sequence < s.transitions[j].sequence
    {
      NumbersAreUnique(s, i, j);
    }
  }

  /** Following replacements from any resource never comes back. */
  lemma ReplacementsNeverCycle(calls: seq<Call>, path: seq<Id>, i: nat, j: nat)
    requires Chain(Run(EMPTY, calls), path) && i < j < |path|
    ensures path[i] != path[j]
  {
    EmptyIsSound();
    RunKeepsSound(EMPTY, calls);
    NoCycle(Run(EMPTY, calls), path, i, j);
  }
}
