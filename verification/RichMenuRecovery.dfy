/** The atomic apply recovery: handoff, claim and completion in one transaction. */
module RichMenuRecovery {
  import opened Wrappers
  import opened RichMenuModel
  import opened RichMenuSteps
  import opened RichMenuInvariant

  /** The recovery is the active one and its subject the blocker. */
  predicate RecoveryHolds(s: Store, recovery: Id, candidate: Id) {
    && ApplyRecoverable(s, recovery, candidate)
    && var op := s.operations[recovery];
    && op.status == Status.RecoveryActive
    && SlotsOf(s, op.channel).active == Some(recovery)
    && SlotsOf(s, op.channel).blocking == op.subject
  }

  /** An apply recovery is under way exactly for an active recheck of an unknown apply whose menu may already be the
      default, with that apply's own bound candidate. */
  lemma HoldsExactly(s: Store, recovery: Id, candidate: Id)
    requires Inv(s)
    ensures RecoveryHolds(s, recovery, candidate) <==>
              && recovery in s.operations
              && s.operations[recovery].kind == Recheck && s.operations[recovery].status == Status.RecoveryActive
              && s.operations[recovery].subject.Some? && s.operations[recovery].subject.value in s.operations
              && var subject := s.operations[s.operations[recovery].subject.value];
              && subject.kind == Apply && subject.status == Status.Unknown
              && (subject.stage == Some(SettingDefault) || subject.stage == Some(Verifying))
              && candidate in s.resources
              && s.resources[candidate].origin == s.operations[recovery].subject.value
              && s.resources[candidate].lifecycle == Candidate && s.resources[candidate].lineId.Some?
  {
    if recovery in s.operations {
      assert OperationOk(s, recovery) && SlotsOk(s, s.operations[recovery].channel);
    }
    if candidate in s.resources {
      assert ResourceOk(s, candidate);
    }
  }

  /** Everything but the two operations, and the two slots that name them, is as before. */
  ghost predicate OnlyMoves(s: Store, s': Store, recovery: Id, subject: Id) {
    && recovery in s.operations
    && var channel := s.operations[recovery].channel;
    && s'.operations.Keys == s.operations.Keys
    && (forall x :: x in s.operations && x != recovery && x != subject ==> s'.operations[x] == s.operations[x])
    && channel in s'.channels
    && s'.channels == s.channels[channel := s'.channels[channel]]
    && s'.channels[channel].observation == SlotsOf(s, channel).observation
  }

  /** The recovery failed; its subject still blocks the channel. */
  ghost predicate RecoveryRejected(s: Store, s': Store, recovery: Id, subject: Id) {
    && OnlyMoves(s, s', recovery, subject)
    && s'.resources == s.resources
    && s'.operations[recovery].status == Status.Failed
    && subject in s.operations && s'.operations[subject] == s.operations[subject]
    && var slots := s'.channels[s.operations[recovery].channel];
    && slots.active.None? && slots.blocking == Some(subject)
    && slots.current == SlotsOf(s, s.operations[recovery].channel).current
  }

  /** The candidate is current, and the subject's end says whether something was displaced. */
  ghost predicate RecoveryApplied(s: Store, s': Store, recovery: Id, subject: Id, candidate: Id) {
    && OnlyMoves(s, s', recovery, subject)
    && s'.operations[recovery].status == Status.Succeeded
    && subject in s.operations
    && candidate in s.resources
    && var was := SlotsOf(s, s.operations[recovery].channel);
    && var slots := s'.channels[s.operations[recovery].channel];
    && var applied := s.resources[candidate].(lifecycle := Applied);
    && slots.active.None? && slots.current == Some(candidate)
    && (if was.current.None? then
          && s'.resources == s.resources[candidate := applied]
          && s'.operations[subject].status == Status.Succeeded
          && slots.blocking.None?
        else
          && was.current.value in s.resources && was.current.value != candidate
          && s'.resources == s.resources[candidate := applied][was.current.value :=
               s.resources[was.current.value].(lifecycle := Old, replacement := Some(subject))]
          && s'.operations[subject].status == Status.CleanupRequired
          && s'.operations[subject].stage == Some(Cleaning)
          && slots.blocking == Some(subject))
  }

  /** The subject is back at verification with its stage handed out. */
  ghost predicate Resumed(s: Store, s': Store, recovery: Id, subject: Id) {
    && OnlyMoves(s, s', recovery, subject)
    && s'.resources == s.resources
    && s'.operations[recovery].status == Status.Succeeded
    && subject in s'.operations && subject != recovery
    && var op := s'.operations[subject];
    && op.channel == s.operations[recovery].channel && op.kind == Apply
    && op.status == Status.Processing && op.stage == Some(Verifying) && op.startedAt.Some?
    && var slots := s'.channels[op.channel];
    && slots.active == Some(subject) && slots.blocking.None?
    && slots.current == SlotsOf(s, op.channel).current
  }

  function ResumeOutcome(recovery: Id, subject: Id): RecoveryOutcome {
    RecoveryOutcome(recovery, subject, Status.Processing, Verifying, Code.Accepted, false)
  }

  lemma HandoffThenClaim(s: Store, recovery: Id, candidate: Id, now: Time, timeout: nat)
    requires Inv(s) && RecoveryHolds(s, recovery, candidate)
    ensures var subject := s.operations[recovery].subject.value;
            var handed := HandoffRecovery(s, ResumeOutcome(recovery, subject), Matched, now);
            var claimed := ClaimStage(handed.store, subject, Verifying, now, timeout);
            && handed.reply.HandedOff? && handed.reply.recovery.status == Status.Succeeded
            && claimed.reply.Claimed?
            && Resumed(s, claimed.store, recovery, subject)
  {
    assert OperationOk(s, recovery);
    hide Inv, LastSequence, RelationValid, MayMove;
  }

  lemma FinalizationOf(s: Store, s2: Store, recovery: Id, candidate: Id, replaceFence: Fence)
    requires Inv(s) && RecoveryHolds(s, recovery, candidate)
    requires Resumed(s, s2, recovery, s.operations[recovery].subject.value)
    ensures var subject := s.operations[recovery].subject.value;
            var finalized := FinalizeApply(s2, subject, candidate, replaceFence);
            var was := SlotsOf(s, s.operations[recovery].channel).current;
            && (finalized.reply == Answer(true) <==> (was.None? || replaceFence == Matched))
            && (finalized.reply == Answer(true) ==>
                  && finalized.store.operations == s2.operations
                  && finalized.store.channels ==
                     s2.channels[s.operations[recovery].channel :=
                                 s2.channels[s.operations[recovery].channel].(current := Some(candidate))]
                  && var applied := s.resources[candidate].(lifecycle := Applied);
                  if was.None? then finalized.store.resources == s.resources[candidate := applied]
                  else was.value in s.resources && was.value != candidate
                       && finalized.store.resources == s.resources[candidate := applied][was.value :=
                            s.resources[was.value].(lifecycle := Old, replacement := Some(subject))])
            && (finalized.reply == Answer(true) ==> (ReplacedOld(finalized.store, subject) <==> was.Some?))
  {
    var subject := s.operations[recovery].subject.value;
    var was := SlotsOf(s, s.operations[recovery].channel).current;
    assert OperationOk(s, recovery) && SlotsOk(s, s.operations[recovery].channel) && ResourceOk(s, candidate);
    if was.Some? {
      assert ResourceOk(s, was.value);
    }
    forall r | r in s.resources
      ensures s.resources[r].replacement != Some(subject)
    {
      assert PairOk(s, r, candidate);
    }
    hide Inv, PairOk;
    if was.Some? && replaceFence == Matched {
      assert FinalizeApply(s2, subject, candidate, replaceFence).store.resources[was.value].replacement == Some(subject);
    }
  }

  lemma CompletionOf(s3: Store, subject: Id, next: Status, fence: Fence, now: Time)
    requires subject in s3.operations && s3.operations[subject].channel in s3.channels
    requires next == Status.Succeeded || next == Status.CleanupRequired
    requires var op := s3.operations[subject];
             op.kind == Apply && op.status == Status.Processing && op.stage == Some(Verifying) && op.startedAt.Some?
    ensures var nextStage := if next == Status.CleanupRequired then Cleaning else Verifying;
            var code := if next == Status.CleanupRequired then Code.CleanupRequired else Code.Succeeded;
            var done := CompleteStage(s3, StageOutcome(subject, Verifying, next, nextStage, code), fence, now);
            var channel := s3.operations[subject].channel;
            && done.reply.Moved?
            && (done.reply.view.status == next <==> fence == Matched)
            && (fence == Matched ==>
                  && done.store.resources == s3.resources
                  && done.store.operations == s3.operations[subject := done.reply.view]
                  && done.reply.view.stage == Some(nextStage)
                  && done.store.channels == s3.channels[channel :=
                       if next == Status.Succeeded then s3.channels[channel].(active := None)
                       else s3.channels[channel].(active := None, blocking := Some(subject))])
  {
    hide LastSequence;
  }

  /** Exactly three outcomes, and exactly when each occurs. */
  lemma ApplyRecoveryOutcomes(s: Store, recovery: Id, candidate: Id, handoffFence: Fence,
                              replaceFence: Fence, stageFence: Fence, now: Time, timeout: nat)
    requires Inv(s)
    ensures var s' := CompleteApplyRecovery(s, recovery, candidate, handoffFence, replaceFence, stageFence, now, timeout).store;
            if !RecoveryHolds(s, recovery, candidate) then s' == s
            else
              var subject := s.operations[recovery].subject.value;
              if handoffFence != Matched then RecoveryRejected(s, s', recovery, subject)
              else if CompletionAdmitted(s, recovery, replaceFence, stageFence)
              then RecoveryApplied(s, s', recovery, subject, candidate)
              else s' == s
  {
    hide CompleteApplyRecovery, RecoveryHolds, RecoveryRejected, RecoveryApplied, CompletionAdmitted, Inv;
    if RecoveryHolds(s, recovery, candidate) {
      if handoffFence != Matched {
        RejectionOf(s, recovery, candidate, handoffFence, replaceFence, stageFence, now, timeout);
      } else {
        ResumptionOf(s, recovery, candidate, replaceFence, stageFence, now, timeout);
      }
    } else {
      NoHandoff(s, recovery, candidate, handoffFence, replaceFence, stageFence, now, timeout);
    }
  }

  lemma NoHandoff(s: Store, recovery: Id, candidate: Id, handoffFence: Fence,
                  replaceFence: Fence, stageFence: Fence, now: Time, timeout: nat)
    requires Inv(s) && !RecoveryHolds(s, recovery, candidate)
    ensures CompleteApplyRecovery(s, recovery, candidate, handoffFence, replaceFence, stageFence, now, timeout).store == s
  {
    hide Inv, RejectStaleRecovery, HandBack, MoveBlocker, ClaimStage, CompleteApply;
  }

  lemma RejectionOf(s: Store, recovery: Id, candidate: Id, handoffFence: Fence,
                    replaceFence: Fence, stageFence: Fence, now: Time, timeout: nat)
    requires Inv(s) && RecoveryHolds(s, recovery, candidate) && handoffFence != Matched
    ensures RecoveryRejected(
              s, CompleteApplyRecovery(s, recovery, candidate, handoffFence, replaceFence, stageFence, now, timeout).store,
              recovery, s.operations[recovery].subject.value)
  {
    assert OperationOk(s, recovery);
  }

  predicate CompletionAdmitted(s: Store, recovery: Id, replaceFence: Fence, stageFence: Fence)
    requires recovery in s.operations
  {
    stageFence == Matched && (SlotsOf(s, s.operations[recovery].channel).current.Some? ==> replaceFence == Matched)
  }

  lemma CompletionAfterResumption(s: Store, s2: Store, recovery: Id, candidate: Id,
                                  replaceFence: Fence, stageFence: Fence, now: Time)
    requires Inv(s) && RecoveryHolds(s, recovery, candidate)
    requires Resumed(s, s2, recovery, s.operations[recovery].subject.value)
    ensures var subject := s.operations[recovery].subject.value;
            var done := CompleteApply(s2, subject, candidate, replaceFence, stageFence, now);
            && (done.reply.Moved? <==> CompletionAdmitted(s, recovery, replaceFence, stageFence))
            && (done.reply.Moved? ==> RecoveryApplied(s, done.store, recovery, subject, candidate))
  {
    hide Inv, FinalizeApply, CompleteStage, ReplacedOld;
    var subject := s.operations[recovery].subject.value;
    FinalizationOf(s, s2, recovery, candidate, replaceFence);
    var finalized := FinalizeApply(s2, subject, candidate, replaceFence);
    if finalized.reply == Answer(true) {
      var next := if ReplacedOld(finalized.store, subject) then Status.CleanupRequired else Status.Succeeded;
      CompletionOf(finalized.store, subject, next, stageFence, now);
    }
  }

  lemma ResumptionOf(s: Store, recovery: Id, candidate: Id, replaceFence: Fence, stageFence: Fence, now: Time, timeout: nat)
    requires Inv(s) && RecoveryHolds(s, recovery, candidate)
    ensures var s' := CompleteApplyRecovery(s, recovery, candidate, Matched, replaceFence, stageFence, now, timeout).store;
            if CompletionAdmitted(s, recovery, replaceFence, stageFence)
            then RecoveryApplied(s, s', recovery, s.operations[recovery].subject.value, candidate)
            else s' == s
  {
    hide Inv, HandoffRecovery, ClaimStage, CompleteApply, Resumed, RecoveryApplied, CompletionAdmitted;
    var subject := s.operations[recovery].subject.value;
    HandoffThenClaim(s, recovery, candidate, now, timeout);
    var handed := HandoffRecovery(s, ResumeOutcome(recovery, subject), Matched, now).store;
    var s2 := ClaimStage(handed, subject, Verifying, now, timeout).store;
    CompletionAfterResumption(s, s2, recovery, candidate, replaceFence, stageFence, now);
  }
}
