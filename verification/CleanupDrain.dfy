/**
 Repair followed by cleanup, as the operator runs it: plan, confirmed repair, recovery acceptance,
 deletion, completion. Each cycle removes one old resource, and the cycles never get stuck.
 */
module CleanupDrain {
  import opened Wrappers
  import opened RichMenuModel
  import opened RichMenuSteps
  import opened RichMenuInvariant
  import opened RichMenuReplacement
  import opened CleanupRepair

  function CleanupFor(q: Request, plan: RepairReply, id: Id): Command
    requires plan.Plan? && q.owner.Some?
  {
    Command(id, q.channel, q.owner.value.identity, q.owner.value.provider, 0, Cleanup,
            Some(plan.subject), Some(plan.target), Given(0), None, false, None)
  }

  /** One cycle; `id` is the new cleanup operation. */
  ghost function Cycle(s: Store, q: Request, id: Id, now: Time): Store {
    var plan := Repair(s, q).reply;
    if plan.Rejected? || q.owner.None? then s
    else
      var s1 := Repair(s, Confirmed(q, plan)).store;
      var s2 := AcceptRecovery(s1, CleanupFor(q, plan, id), Locked, true, Matched, now).store;
      var s3 := FinalizeDeleted(s2, plan.target, now).store;
      CompleteCleanupRecovery(s3, id, plan.target, now).store
  }

  /** Confirming a plan names the same pair; the subject waits for its cleanup, corrected unless it already did. */
  lemma ConfirmedRepair(s: Store, q: Request)
    requires Inv(s) && Repair(s, q).reply.Plan?
    ensures var plan, done := Repair(s, q).reply, Repair(s, Confirmed(q, Repair(s, q).reply));
            && done.reply.Plan? && done.reply.status != DryRun
            && done.reply.subject == plan.subject && done.reply.target == plan.target
            && plan.subject in s.operations && s.operations[plan.subject].channel == q.channel
            && (done.store == s || done.store == CorrectSubject(s, plan.subject))
            && plan.subject in done.store.operations && done.store.operations[plan.subject].stage == Some(Cleaning)
  {
    hide LastSequence;
    var r := PlanNames(s, q);
    var q' := Confirmed(q, Repair(s, q).reply);
    assert IsCandidate(s, q', r);
    assert Least(s, q', r);
    RepairPicks(s, q', r);
  }

  /** What one cycle leaves behind. */
  ghost predicate Cleaned(s: Store, s': Store, channel: Id, id: Id, subject: Id, target: Id, now: Time) {
    && target in s.resources && subject in s.operations
    && s'.resources == s.resources[target := s.resources[target].(lifecycle := Deleted, deletedAt := Some(now))]
    && s'.operations.Keys == s.operations.Keys + {id}
    && (forall x :: x in s.operations && x != subject ==> s'.operations[x] == s.operations[x])
    && SameIdentity(s.operations[subject], s'.operations[subject])
    && s'.operations[subject].status == Status.Succeeded
    && s'.operations[id].kind == Cleanup
    && channel in s'.channels
    && s'.channels[channel] == SlotsOf(s, channel).(active := None, blocking := None)
  }

  /** The store in which an accepted cleanup runs: a new active operation, and nothing else. */
  lemma AcceptanceAddsTheCleanup(s: Store, c: Command, now: Time)
    requires c.kind == Cleanup && AcceptRecovery(s, c, Locked, true, Matched, now).reply.RecoveryAccepted?
    ensures var s2 := AcceptRecovery(s, c, Locked, true, Matched, now).store;
            && c.channel in s.channels && s.channels[c.channel].blocking == c.subject
            && s2.resources == s.resources
            && s2.channels == s.channels[c.channel := s.channels[c.channel].(active := Some(c.operation))]
            && s2.operations == s.operations[c.operation :=
                 AcceptedRow(c, Status.RecoveryActive, Some(Cleaning), Some(now), c.subject, c.target, None, now)]
            && c.WellFormed() && RecoveryAdmissible(s, c) && c.operation !in s.operations
  {
    hide LastSequence;
  }

  lemma TargetIsNotCurrent(s: Store, c: Command, now: Time)
    requires Inv(s) && c.kind == Cleanup && AcceptRecovery(s, c, Locked, true, Matched, now).reply.RecoveryAccepted?
    ensures c.WellFormed() && RecoveryAdmissible(s, c) && SlotsOf(s, c.channel).current != c.target
  {
    assert SlotsOk(s, c.channel);
  }

  /** Acceptance, deletion and completion of a cleanup whose subject is at the cleaning stage. */
  lemma RecoveryCleans(s: Store, c: Command, now: Time)
    requires Inv(s) && c.kind == Cleanup && AcceptRecovery(s, c, Locked, true, Matched, now).reply.RecoveryAccepted?
    requires s.operations[c.subject.value].stage == Some(Cleaning)
    ensures var s2 := AcceptRecovery(s, c, Locked, true, Matched, now).store;
            var s3 := FinalizeDeleted(s2, c.target.value, now).store;
            Cleaned(s, CompleteCleanupRecovery(s3, c.operation, c.target.value, now).store,
                    c.channel, c.operation, c.subject.value, c.target.value, now)
  {
    hide Inv, LastSequence, AcceptRecovery;
    TargetIsNotCurrent(s, c, now);
    AcceptanceAddsTheCleanup(s, c, now);
    var s2 := AcceptRecovery(s, c, Locked, true, Matched, now).store;
    var s3 := FinalizeDeleted(s2, c.target.value, now).store;
    assert CleanupCompletes(s3, s3.operations[c.operation], c.operation, c.target.value);
  }

  /** A correction only touches its subject, so what is cleaned after it is cleaned from the start. */
  lemma CleanedFromCorrection(s: Store, s': Store, id: Id, subject: Id, target: Id, now: Time)
    requires subject in s.operations && id !in s.operations
    requires Cleaned(CorrectSubject(s, subject), s', s.operations[subject].channel, id, subject, target, now)
    ensures Cleaned(s, s', s.operations[subject].channel, id, subject, target, now)
  {
    hide LastSequence;
  }

  /** Whatever the channel holds besides, a cycle on a plan deletes the planned resource and settles its subject. */
  lemma CycleCleans(s: Store, q: Request, id: Id, now: Time)
    requires Inv(s) && Repair(s, q).reply.Plan? && id !in s.operations
    requires q.owner.Some? && q.owner.value.provider != ""
    ensures var plan := Repair(s, q).reply;
            Cleaned(s, Cycle(s, q, id, now), q.channel, id, plan.subject, plan.target, now)
  {
    hide Inv, Repair, AcceptRecovery, FinalizeDeleted, CompleteCleanupRecovery, LastSequence, Cleaned, Least, Refusal, RepairWith;
    ConfirmedRepair(s, q);
    var plan := Repair(s, q).reply;
    var q' := Confirmed(q, plan);
    var c := CleanupFor(q, plan, id);
    RepairEnablesCleanup(s, q', c, now);
    RepairKeeps(s, q');
    RecoveryCleans(Repair(s, q').store, c, now);
    if Repair(s, q').store != s {
      CleanedFromCorrection(s, Cycle(s, q, id, now), id, plan.subject, plan.target, now);
    }
  }

  /** Each cycle on a plan leaves exactly the planned old resource less. */
  lemma CycleShrinks(s: Store, q: Request, id: Id, now: Time)
    requires Inv(s) && Repair(s, q).reply.Plan? && id !in s.operations
    requires q.owner.Some? && q.owner.value.provider != ""
    ensures Repair(s, q).reply.target in OldResources(s, q.channel)
    ensures OldResources(Cycle(s, q, id, now), q.channel) == OldResources(s, q.channel) - {Repair(s, q).reply.target}
    ensures |OldResources(Cycle(s, q, id, now), q.channel)| == |OldResources(s, q.channel)| - 1
  {
    hide Cycle, Repair, Inv;
    CycleCleans(s, q, id, now);
    var r := PlanNames(s, q);
  }

  lemma CycleKeeps(s: Store, q: Request, id: Id, now: Time)
    requires Inv(s)
    ensures Inv(Cycle(s, q, id, now))
  {
    hide Inv, Repair, AcceptRecovery, FinalizeDeleted, CompleteCleanupRecovery;
    var plan := Repair(s, q).reply;
    if plan.Plan? && q.owner.Some? {
      var q' := Confirmed(q, plan);
      var s1 := Repair(s, q').store;
      RepairKeeps(s, q');
      var c := CleanupFor(q, plan, id);
      var s2 := AcceptRecovery(s1, c, Locked, true, Matched, now).store;
      AcceptRecoveryKeeps(s1, c, Locked, true, Matched, now);
      var s3 := FinalizeDeleted(s2, plan.target, now).store;
      DeleteKeeps(s2, plan.target, now);
      CleanupCompletionKeeps(s3, id, plan.target, now);
    }
  }

  // ---- Repeated cycles ----

  /** A plan request against a channel whose old resources all still carry their evidence. */
  ghost predicate Drainable(s: Store, q: Request) {
    && Refusal(s, q).None? && !q.write && q.subject.None? && q.target.None?
    && q.owner.value.provider != ""
    && SlotsOf(s, q.channel).blocking.None?
    && (forall r {:trigger Waiting(s, q, r)} :: IsOld(s, q.channel, r) ==> Waiting(s, q, r))
  }

  ghost predicate Waiting(s: Store, q: Request, r: Id)
    requires q.owner.Some? && CurrentMapped(s, q.channel, q.owner.value)
  {
    Proven(s, q.channel, q.owner.value, r) && RecordedSuccess(s.operations[s.resources[r].replacement.value])
  }

  /** A causally first old resource is always there to be picked. */
  lemma PlanExists(s: Store, q: Request)
    requires Ordered(s) && Drainable(s, q) && OldResources(s, q.channel) != {}
    ensures Repair(s, q).reply.Plan? && Repair(s, q).reply.status == DryRun
  {
    var first := CausallyFirst(s, OldResources(s, q.channel));
    assert Waiting(s, q, first);
    forall x | x in OldResources(s, q.channel)
      ensures s.resources[x].replacement != Some(s.resources[first].origin)
    {
      assert !Succeeds(s, x, first);
    }
    assert first in Candidates(s, q);
    LeastExists(s, q);
    forall r | Least(s, q, r)
      ensures RepairWith(s, q, r).reply.Plan? && RepairWith(s, q, r).reply.status == DryRun
    {
      assert Waiting(s, q, r);
    }
  }

  /** The remaining old resources keep their evidence: the one removed was nobody's successor. */
  lemma CycleSparesTheRest(s: Store, s': Store, q: Request, id: Id, r: Id, x: Id, now: Time)
    requires Inv(s) && Drainable(s, q) && id !in s.operations && IsCandidate(s, q, r)
    requires Cleaned(s, s', q.channel, id, s.resources[r].replacement.value, r, now)
    requires IsOld(s, q.channel, x) && x != r
    requires CurrentMapped(s', q.channel, q.owner.value)
    ensures Waiting(s', q, x)
  {
    hide Refusal, HasSuccessor, Preceded;
    WaitingNow(s, q, x);
    assert PairOk(s, x, r);
    NotPreceded(s, q.channel, r, x);
    SuccessorSurvives(s, s', q.channel, s.resources[x].replacement.value, r);
  }

  lemma WaitingNow(s: Store, q: Request, x: Id)
    requires Drainable(s, q) && IsOld(s, q.channel, x)
    ensures q.owner.Some? && CurrentMapped(s, q.channel, q.owner.value) && Waiting(s, q, x)
  {
  }

  lemma NotPreceded(s: Store, channel: Id, r: Id, x: Id)
    requires r in s.resources && !Preceded(s, channel, r) && IsOld(s, channel, x) && x != r
    ensures s.resources[x].replacement != Some(s.resources[r].origin)
  {
    assert x in OldResources(s, channel);
  }

  lemma SuccessorSurvives(s: Store, s': Store, channel: Id, subject: Id, r: Id)
    requires HasSuccessor(s, channel, subject) && r in s.resources && s.resources[r].origin != subject
    requires forall v :: v in s.resources && v != r ==> v in s'.resources && s'.resources[v] == s.resources[v]
    ensures HasSuccessor(s', channel, subject)
  {
    var v :| v in s.resources && s.resources[v].channel == channel && s.resources[v].origin == subject
             && s.resources[v].lifecycle in {Applied, Old};
    assert s'.resources[v] == s.resources[v];
  }

  /** The rest of the channel is drainable again, with one old resource less. */
  lemma CleanedStaysDrainable(s: Store, s': Store, q: Request, id: Id, r: Id, now: Time)
    requires Inv(s) && Ordered(s) && Drainable(s, q) && id !in s.operations && IsCandidate(s, q, r)
    requires Cleaned(s, s', q.channel, id, s.resources[r].replacement.value, r, now)
    ensures Drainable(s', q)
    ensures Ordered(s')
  {
    assert ResourceOk(s, SlotsOf(s, q.channel).current.value);
    assert CurrentMapped(s', q.channel, q.owner.value);
    FewerEdges(s, s');
    forall x | IsOld(s', q.channel, x)
      ensures Waiting(s', q, x)
    {
      CycleSparesTheRest(s, s', q, id, r, x, now);
    }
  }

  lemma CycleStaysDrainable(s: Store, q: Request, id: Id, now: Time)
    requires Inv(s) && Ordered(s) && Drainable(s, q) && OldResources(s, q.channel) != {} && id !in s.operations
    ensures Repair(s, q).reply.Plan?
    ensures Drainable(Cycle(s, q, id, now), q) && Ordered(Cycle(s, q, id, now))
  {
    hide Cycle, Repair, Inv, Ordered, Cleaned;
    PlanExists(s, q);
    CycleCleans(s, q, id, now);
    var r := PlanNames(s, q);
    CleanedStaysDrainable(s, Cycle(s, q, id, now), q, id, r, now);
  }

  /** Cycles with the given new operation ids, for as long as any old resource is left. */
  ghost function Drain(s: Store, q: Request, ids: seq<Id>, now: Time): Store
    decreases |ids|
  {
    if |ids| == 0 || OldResources(s, q.channel) == {} then s
    else Drain(Cycle(s, q, ids[0], now), q, ids[1..], now)
  }

  lemma DrainableAsks(s: Store, q: Request)
    requires Drainable(s, q)
    ensures q.owner.Some? && q.owner.value.provider != ""
  {
  }

  /** As many cycles as there are old resources leave none, and every one of them is deleted. */
  lemma {:induction false} DrainEmpties(s: Store, q: Request, ids: seq<Id>, now: Time)
    requires Inv(s) && Ordered(s) && Drainable(s, q)
    requires |ids| == |OldResources(s, q.channel)|
    requires forall i :: 0 <= i < |ids| ==> ids[i] !in s.operations
    requires forall i, j :: 0 <= i < j < |ids| ==> ids[i] != ids[j]
    ensures Inv(Drain(s, q, ids, now))
    ensures OldResources(Drain(s, q, ids, now), q.channel) == {}
    ensures Drain(s, q, ids, now).resources.Keys == s.resources.Keys
    ensures forall r :: r in s.resources ==>
              if r in OldResources(s, q.channel) then Drain(s, q, ids, now).resources[r].lifecycle == Deleted
              else Drain(s, q, ids, now).resources[r] == s.resources[r]
    decreases |ids|
  {
    hide Cycle, Repair, Inv, Ordered, Drainable;
    if |ids| > 0 {
      var s' := Cycle(s, q, ids[0], now);
      CycleStaysDrainable(s, q, ids[0], now);
      DrainableAsks(s, q);
      CycleCleans(s, q, ids[0], now);
      CycleShrinks(s, q, ids[0], now);
      CycleKeeps(s, q, ids[0], now);
      DrainEmpties(s', q, ids[1..], now);
    }
  }
}
