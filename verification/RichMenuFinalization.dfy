/** What the repository does to resources: how a menu becomes current, is replaced, given up, deleted and forgotten. */
module RichMenuFinalization {
  import opened Wrappers
  import opened RichMenuModel
  import opened RichMenuSteps
  import opened RichMenuInvariant
  import opened RichMenuAnswers

  /** An apply at its verification, with its own bound candidate. */
  predicate Verified(s: Store, operation: Id, candidate: Id) {
    && operation in s.operations && candidate in s.resources
    && s.operations[operation].kind == Apply && s.operations[operation].status == Status.Processing
    && s.operations[operation].stage == Some(Verifying)
    && s.resources[candidate].origin == operation && s.resources[candidate].lifecycle == Candidate
  }

  /** The candidate is current; the menu it displaced, if any, is old and tied to the operation. */
  ghost predicate Displaces(s: Store, s': Store, operation: Id, candidate: Id) {
    && operation in s.operations && candidate in s.resources
    && var channel := s.operations[operation].channel;
    && var was := SlotsOf(s, channel).current;
    && var applied := s.resources[candidate].(lifecycle := Applied);
    && s'.operations == s.operations && s'.transitions == s.transitions
    && s'.channels == s.channels[channel := SlotsOf(s, channel).(current := Some(candidate))]
    && (if was.None? then s'.resources == s.resources[candidate := applied]
        else
          && was.value in s.resources && was.value != candidate
          && s'.resources == s.resources[candidate := applied][was.value :=
               s.resources[was.value].(lifecycle := Old, replacement := Some(operation))])
  }

  /** A verified apply has replaced nothing yet. */
  lemma NothingReplacedYet(s: Store, operation: Id, candidate: Id)
    requires Inv(s) && Verified(s, operation, candidate)
    ensures forall r :: r in s.resources ==> s.resources[r].replacement != Some(operation)
    ensures s.operations[operation].channel in s.channels
    ensures s.channels[s.operations[operation].channel].active == Some(operation)
    ensures s.resources[candidate].channel == s.operations[operation].channel
    ensures var was := s.channels[s.operations[operation].channel].current;
            was.Some? ==>
              && was.value in s.resources && was.value != candidate
              && s.resources[was.value].channel == s.operations[operation].channel
              && s.resources[was.value].lifecycle == Applied && s.resources[was.value].replacement.None?
  {
    assert OperationOk(s, operation) && ResourceOk(s, candidate) && SlotsOk(s, s.operations[operation].channel);
    var was := s.channels[s.operations[operation].channel].current;
    if was.Some? {
      assert ResourceOk(s, was.value);
    }
    forall r | r in s.resources
      ensures s.resources[r].replacement != Some(operation)
    {
      assert PairOk(s, r, candidate);
    }
  }

  lemma NotVerified(s: Store, operation: Id, candidate: Id, fence: Fence)
    requires !Verified(s, operation, candidate)
    ensures FinalizeApply(s, operation, candidate, fence).reply != Answer(true)
    ensures FinalizeApply(s, operation, candidate, fence).store == s
  {
    hide Replaces;
  }

  /** A menu becomes current exactly at its apply's verification, once it is bound to LINE; displacing another one
      takes a matching fence. */
  lemma FinalizesExactly(s: Store, operation: Id, candidate: Id, fence: Fence)
    requires Inv(s)
    ensures var done := FinalizeApply(s, operation, candidate, fence);
            && (done.reply == Answer(true) <==>
                  && Verified(s, operation, candidate) && s.resources[candidate].lineId.Some?
                  && (SlotsOf(s, s.operations[operation].channel).current.Some? ==> fence == Matched))
            && (if done.reply == Answer(true) then Displaces(s, done.store, operation, candidate) else done.store == s)
  {
    if Verified(s, operation, candidate) {
      NothingReplacedYet(s, operation, candidate);
    } else {
      NotVerified(s, operation, candidate, fence);
    }
    hide Inv;
  }

  /** A replacement is recorded exactly for the current menu and a verified apply's candidate. */
  lemma ReplacesExactly(s: Store, operation: Id, newId: Id, oldId: Id, fence: Fence)
    requires Inv(s)
    ensures var done := RecordReplacement(s, operation, newId, oldId, fence);
            && (done.reply == Answer(true) <==>
                  && Verified(s, operation, newId)
                  && SlotsOf(s, s.operations[operation].channel).current == Some(oldId) && fence == Matched)
            && (if done.reply == Answer(true) then Displaces(s, done.store, operation, newId) else done.store == s)
  {
    if Verified(s, operation, newId) {
      NothingReplacedYet(s, operation, newId);
    }
    hide Inv;
  }

  /** An apply that made its menu current has succeeded if nothing was displaced, and else has to clean it up. */
  ghost predicate Applies(s: Store, s': Store, operation: Id, candidate: Id, now: Time) {
    && operation in s.operations && operation in s'.operations
    && exists f: Store :: Displaces(s, f, operation, candidate)
         && var op := s.operations[operation];
         && var displaced := SlotsOf(s, op.channel).current.Some?;
         && s'.resources == f.resources
         && s'.operations == f.operations[operation := op.(
              status := if displaced then Status.CleanupRequired else Status.Succeeded,
              stage := Some(if displaced then Cleaning else Verifying),
              startedAt := None,
              result := if displaced then Code.CleanupRequired else Code.Succeeded,
              completedAt := if displaced then op.completedAt else Some(now))]
         && s'.channels == f.channels[op.channel := SlotsOf(f, op.channel).(
              active := None, blocking := if displaced then Some(operation) else None)]
  }

  lemma DisplacedIsOld(s: Store, f: Store, operation: Id, candidate: Id)
    requires Inv(s) && Verified(s, operation, candidate) && Displaces(s, f, operation, candidate)
    ensures ReplacedOld(f, operation) <==> SlotsOf(s, s.operations[operation].channel).current.Some?
  {
    NothingReplacedYet(s, operation, candidate);
    hide Inv;
    var was := SlotsOf(s, s.operations[operation].channel).current;
    if was.Some? {
      assert f.resources[was.value].replacement == Some(operation);
    }
  }

  /** The completion after a finalization. */
  lemma CompletionOf(s: Store, f: Store, operation: Id, candidate: Id, displaced: bool, stageFence: Fence, now: Time)
    requires Inv(s) && Verified(s, operation, candidate) && Displaces(s, f, operation, candidate)
    requires displaced == SlotsOf(s, s.operations[operation].channel).current.Some?
    ensures var next := if displaced then Status.CleanupRequired else Status.Succeeded;
            var done := CompleteStage(f, StageOutcome(operation, Verifying, next, if displaced then Cleaning else Verifying,
                                                      if displaced then Code.CleanupRequired else Code.Succeeded), stageFence, now);
            && (done.reply.Moved? && done.reply.view.status == next <==>
                  s.operations[operation].startedAt.Some? && stageFence == Matched)
            && (done.reply.Moved? && done.reply.view.status == next ==> Applies(s, done.store, operation, candidate, now))
  {
    hide LastSequence, Displaces;
    NothingReplacedYet(s, operation, candidate);
    SlotsAreClear(s, operation);
    DisplacedSlots(s, f, operation, candidate);
  }

  lemma DisplacedSlots(s: Store, f: Store, operation: Id, candidate: Id)
    requires Displaces(s, f, operation, candidate)
    ensures f.operations == s.operations
    ensures SlotsOf(f, s.operations[operation].channel) ==
            SlotsOf(s, s.operations[operation].channel).(current := Some(candidate))
  {
  }

  /** Beside a processing operation nothing is in the way. */
  lemma SlotsAreClear(s: Store, operation: Id)
    requires Inv(s) && operation in s.operations && s.operations[operation].status == Status.Processing
    ensures SlotsOf(s, s.operations[operation].channel).blocking.None?
  {
    assert OperationOk(s, operation) && SlotsOk(s, s.operations[operation].channel);
  }

  /** The apply is done as a whole exactly when its stage is out and both fences allow it, or not at all. */
  lemma AppliesExactly(s: Store, operation: Id, candidate: Id, replaceFence: Fence, stageFence: Fence, now: Time)
    requires Inv(s)
    ensures var done := CompleteApply(s, operation, candidate, replaceFence, stageFence, now);
            && (done.reply.Moved? <==>
                  && Verified(s, operation, candidate) && s.resources[candidate].lineId.Some?
                  && (SlotsOf(s, s.operations[operation].channel).current.Some? ==> replaceFence == Matched)
                  && s.operations[operation].startedAt.Some? && stageFence == Matched)
            && (if done.reply.Moved? then Applies(s, done.store, operation, candidate, now) else done.store == s)
  {
    hide Inv, FinalizeApply, CompleteStage, ReplacedOld, Displaces, Verified, Applies;
    FinalizesExactly(s, operation, candidate, replaceFence);
    var finalized := FinalizeApply(s, operation, candidate, replaceFence);
    if finalized.reply == Answer(true) {
      DisplacedIsOld(s, finalized.store, operation, candidate);
      CompletionOf(s, finalized.store, operation, candidate, ReplacedOld(finalized.store, operation), stageFence, now);
    }
  }

  // ---- Single resources ----

  /** A resource moves to a new lifecycle, and leaves the current slot if it was there. */
  ghost predicate GivenUp(s: Store, s': Store, id: Id, resource: Resource) {
    && id in s.resources
    && s'.resources == s.resources[id := resource]
    && s'.operations == s.operations && s'.transitions == s.transitions
    && var channel := s.resources[id].channel;
    && (forall c :: c in s.channels && c != channel ==> c in s'.channels && s'.channels[c] == s.channels[c])
    && s'.channels.Keys == s.channels.Keys
    && SlotsOf(s', channel) == (if SlotsOf(s, channel).current == Some(id) then SlotsOf(s, channel).(current := None) else SlotsOf(s, channel))
  }

  /** Each way to give up a resource, and exactly from where: the current menu is unlinked or released, a candidate or
      any menu still at LINE is marked for cleanup, and what is no longer current is deleted. */
  lemma GivesUpExactly(s: Store, id: Id, now: Time)
    requires Inv(s) && id in s.resources
    ensures var r, was := s.resources[id], s.resources[id].lifecycle;
            && (MarkCleanupRequired(s, id).reply == Answer(true) <==> was != Deleted && was != Released)
            && (if was in {Candidate, Applied, Old}
                then GivenUp(s, MarkCleanupRequired(s, id).store, id, r.(lifecycle := CleanupDue))
                else MarkCleanupRequired(s, id).store == s)
            && (FinalizeUnlink(s, id).reply == Answer(true) <==> was == Applied)
            && (if was == Applied then GivenUp(s, FinalizeUnlink(s, id).store, id, r.(lifecycle := CleanupDue))
                else FinalizeUnlink(s, id).store == s)
            && (FinalizeRelease(s, id, now).reply == Answer(true) <==> was == Applied)
            && (if was == Applied
                then GivenUp(s, FinalizeRelease(s, id, now).store, id, r.(lifecycle := Released, releasedAt := Some(now)))
                else FinalizeRelease(s, id, now).store == s)
            && (FinalizeDeleted(s, id, now).reply == Answer(true) <==> was in {Candidate, Old, CleanupDue})
            && (if was in {Candidate, Old, CleanupDue}
                then GivenUp(s, FinalizeDeleted(s, id, now).store, id, r.(lifecycle := Deleted, deletedAt := Some(now)))
                else FinalizeDeleted(s, id, now).store == s)
            && (DiscardCandidate(s, id, now).reply == Answer(true) <==> was == Candidate && r.lineId.None?)
            && (if was == Candidate && r.lineId.None?
                then GivenUp(s, DiscardCandidate(s, id, now).store, id, r.(lifecycle := Deleted, deletedAt := Some(now)))
                else DiscardCandidate(s, id, now).store == s)
  {
    assert ResourceOk(s, id) && SlotsOk(s, s.resources[id].channel);
  }

  /** A LINE id is bound to one resource, once; binding it again is answered, anything else refused. */
  lemma BindsExactly(s: Store, id: Id, lineId: string)
    requires Inv(s)
    ensures var done := BindLineId(s, id, lineId);
            && (done.reply == Raised <==> lineId == "")
            && (done.reply == Answer(true) <==>
                  && lineId != "" && id in s.resources
                  && (|| s.resources[id].lineId == Some(lineId)
                      || (s.resources[id].lineId.None? && forall r :: r in s.resources ==> s.resources[r].lineId != Some(lineId))))
            && done.store == (if done.reply == Answer(true)
                              then s.(resources := s.resources[id := s.resources[id].(lineId := Some(lineId))]) else s)
  {
  }

  /** An observation is recorded unless it names a menu that is not the caller's, and changes nothing else. */
  lemma ObservesExactly(s: Store, channel: Id, owner: Id, provider: string, observation: Observation, managed: Option<Id>)
    requires Inv(s)
    ensures var done := RecordObservation(s, channel, owner, provider, observation, managed);
            && (done.reply == Answer(true) <==>
                  managed.Some? ==>
                    && managed.value in s.resources && s.resources[managed.value].channel == channel
                    && s.resources[managed.value].origin in s.operations
                    && s.operations[s.resources[managed.value].origin].owner == owner
                    && s.operations[s.resources[managed.value].origin].provider == provider)
            && SlotsOf(done.store, channel) ==
                 (if done.reply == Answer(true) then SlotsOf(s, channel).(observation := Some(observation)) else SlotsOf(s, channel))
            && (forall c :: c != channel ==> SlotsOf(done.store, c) == SlotsOf(s, c))
            && done.store.operations == s.operations && done.store.resources == s.resources
            && done.store.transitions == s.transitions
  {
  }

  /** A channel's history is forgotten exactly when everything in it has come to its end, and then altogether. */
  lemma ForgetsExactly(s: Store, channel: Id, reference: ReferenceFence, stored: bool)
    requires Inv(s)
    ensures var done := PurgeHistory(s, channel, reference, stored);
            && (done.reply == Answer(true) <==>
                  && reference == Locked && stored && channel in s.channels && Free(s, channel)
                  && (forall id :: id in s.operations && s.operations[id].channel == channel ==>
                        s.operations[id].status == Status.Succeeded || s.operations[id].status == Status.Failed)
                  && (forall r :: r in s.resources && s.resources[r].channel == channel ==>
                        s.resources[r].lifecycle == Deleted || s.resources[r].lifecycle == Released))
            && (done.reply == Answer(true) ==>
                  && channel !in done.store.channels
                  && (forall id :: id in done.store.operations <==> id in s.operations && s.operations[id].channel != channel)
                  && (forall r :: r in done.store.resources <==> r in s.resources && s.resources[r].channel != channel)
                  && forall k :: 0 <= k < |done.store.transitions| ==> done.store.transitions[k] in s.transitions)
            && (done.reply != Answer(true) ==> done.store == s)
  {
    hide Inv;
    if PurgeHistory(s, channel, reference, stored).reply == Answer(true) {
      KeptRowsAreOld(s.transitions, set id | id in s.operations && s.operations[id].channel == channel);
    }
  }

  lemma {:induction false} KeptRowsAreOld(log: seq<Transition>, gone: set<Id>)
    ensures forall k :: 0 <= k < |WithoutOperations(log, gone)| ==> WithoutOperations(log, gone)[k] in log
  {
    if |log| > 0 {
      KeptRowsAreOld(log[..|log| - 1], gone);
    }
  }
}
