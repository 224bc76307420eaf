/**
 The repair of replacements that were recorded as successes before their old resource was
 cleaned up: which old resource it picks, what it writes, and what a recovery may then do.
 */
module CleanupRepair {
  import opened Wrappers
  import opened RichMenuModel
  import opened RichMenuSteps
  import opened RichMenuInvariant

  datatype Owner = Owner(identity: Id, provider: string)

  /** What the other aggregates answered, and what the operator asked for. */
  datatype Request = Request(
    channel: Id,
    owner: Option<Owner>,
    revisionLocked: bool,
    channelActive: bool,
    deactivationClear: bool,
    write: bool,
    subject: Option<Id>,
    target: Option<Id>)

  datatype Rejection =
    | ConfirmationRequired | OwnerUnavailable | StaleOrUnavailableChannel | InactiveChannel
    | DeactivationPending | OperationInProgress | CurrentMappingUnavailable | NoProvenReplacement

  datatype PlanStatus = AlreadyRepaired | DryRun | Repaired

  datatype RepairReply =
    | Plan(status: PlanStatus, subject: Id, target: Id, remaining: nat)
    | Rejected(reason: Rejection)

  datatype RepairOutcome = RepairOutcome(store: Store, reply: RepairReply)

  predicate Owned(s: Store, channel: Id, owner: Owner, id: Id) {
    && id in s.operations
    && var op := s.operations[id];
    && op.channel == channel && op.owner == owner.identity && op.provider == owner.provider && op.kind == Apply
  }

  predicate Settled(status: Status) {
    status == Status.Succeeded || status == Status.CleanupRequired
  }

  predicate CurrentMapped(s: Store, channel: Id, owner: Owner) {
    var current := SlotsOf(s, channel).current;
    && current.Some?
    && current.value in s.resources
    && var r := s.resources[current.value];
    && r.channel == channel
    && r.lifecycle == Applied
    && Owned(s, channel, owner, r.origin)
    && Settled(s.operations[r.origin].status)
  }

  predicate IsOld(s: Store, channel: Id, r: Id) {
    r in s.resources && s.resources[r].channel == channel && s.resources[r].lifecycle == Old
  }

  function OldResources(s: Store, channel: Id): set<Id> {
    set r | r in s.resources && IsOld(s, channel, r)
  }

  /** An older replaced resource still waits, so this one would lose its proof. */
  predicate Preceded(s: Store, channel: Id, r: Id)
    requires r in s.resources
  {
    exists q :: q in OldResources(s, channel) && q != r && s.resources[q].replacement == Some(s.resources[r].origin)
  }

  predicate HasSuccessor(s: Store, channel: Id, subject: Id) {
    exists v :: v in s.resources && s.resources[v].channel == channel && s.resources[v].origin == subject
                && s.resources[v].lifecycle in {Applied, Old}
  }

  /** The ownership evidence for one old resource. */
  predicate Proven(s: Store, channel: Id, owner: Owner, r: Id)
    requires CurrentMapped(s, channel, owner)
  {
    && IsOld(s, channel, r)
    && var old_r := s.resources[r];
    var current := SlotsOf(s, channel).current.value;
    && old_r.replacement.Some?
    && Owned(s, channel, owner, old_r.replacement.value)
    && Owned(s, channel, owner, old_r.origin)
    && HasSuccessor(s, channel, old_r.replacement.value)
    && Settled(s.operations[old_r.origin].status)
    && old_r.replacement.value != old_r.origin
    && r != current
    && old_r.lineId.Some?
    && old_r.lineId != s.resources[current].lineId
    && old_r.deletedAt.None? && old_r.releasedAt.None?
  }

  predicate Already(s: Store, channel: Id, subject: Id)
    requires subject in s.operations
  {
    && SlotsOf(s, channel).blocking == Some(subject)
    && s.operations[subject].status == Status.CleanupRequired
    && s.operations[subject].stage == Some(Cleaning)
  }

  predicate RecordedSuccess(op: Operation) {
    op.status == Status.Succeeded && op.stage == Some(Verifying) && op.result == Code.Succeeded
  }

  predicate IsCandidate(s: Store, q: Request, r: Id)
    requires q.owner.Some? && CurrentMapped(s, q.channel, q.owner.value)
  {
    && Proven(s, q.channel, q.owner.value, r)
    && !Preceded(s, q.channel, r)
    && var subject := s.resources[r].replacement.value;
    && (q.subject.Some? ==> q.subject.value == subject)
    && (q.target.Some? ==> q.target.value == r)
    && (Already(s, q.channel, subject) || RecordedSuccess(s.operations[subject]))
  }

  predicate Before(s: Store, a: Id, b: Id)
    requires a in s.resources && s.resources[a].replacement.Some? && s.resources[a].replacement.value in s.operations
    requires b in s.resources && s.resources[b].replacement.Some? && s.resources[b].replacement.value in s.operations
  {
    var x, y := s.resources[a].replacement.value, s.resources[b].replacement.value;
    s.operations[x].acceptedAt < s.operations[y].acceptedAt
    || (s.operations[x].acceptedAt == s.operations[y].acceptedAt && x <= y)
  }

  ghost predicate Least(s: Store, q: Request, r: Id)
    requires q.owner.Some? && CurrentMapped(s, q.channel, q.owner.value)
  {
    IsCandidate(s, q, r) && forall x :: IsCandidate(s, q, x) ==> Before(s, r, x)
  }

  function Refusal(s: Store, q: Request): Option<Rejection> {
    if q.write && (q.subject.None? || q.target.None?) then Some(ConfirmationRequired)
    else if q.owner.None? then Some(OwnerUnavailable)
    else if !q.revisionLocked then Some(StaleOrUnavailableChannel)
    else if !q.channelActive then Some(InactiveChannel)
    else if !q.deactivationClear then Some(DeactivationPending)
    else if q.channel !in s.channels || s.channels[q.channel].active.Some? then Some(Rejection.OperationInProgress)
    else if !CurrentMapped(s, q.channel, q.owner.value) then Some(CurrentMappingUnavailable)
    else None
  }

  /** The writing half, for the resource the selection picked. */
  function RepairWith(s: Store, q: Request, r: Id): RepairOutcome
    requires Refusal(s, q).None? && IsCandidate(s, q, r)
  {
    var subject := s.resources[r].replacement.value;
    var remaining := |OldResources(s, q.channel)|;
    if SlotsOf(s, q.channel).blocking.Some? && !Already(s, q.channel, subject)
    then RepairOutcome(s, Rejected(Rejection.OperationInProgress))
    else if Already(s, q.channel, subject) then RepairOutcome(s, Plan(AlreadyRepaired, subject, r, remaining))
    else if !q.write then RepairOutcome(s, Plan(DryRun, subject, r, remaining))
    else RepairOutcome(CorrectSubject(s, subject), Plan(Repaired, subject, r, remaining))
  }

  ghost function Candidates(s: Store, q: Request): set<Id>
    requires q.owner.Some? && CurrentMapped(s, q.channel, q.owner.value)
  {
    set r | r in s.resources && IsCandidate(s, q, r)
  }

  lemma {:induction false} LeastAmong(s: Store, q: Request, among: set<Id>) returns (least: Id)
    requires q.owner.Some? && CurrentMapped(s, q.channel, q.owner.value)
    requires among != {} && among <= Candidates(s, q)
    ensures least in among && forall r :: r in among ==> Before(s, least, r)
  {
    least :| least in among;
    var others := among - {least};
    if others == {} {
      assert among == {least};
    } else {
      var first := least;
      var other := LeastAmong(s, q, others);
      if !Before(s, first, other) {
        least := other;
      }
      forall r | r in among
        ensures Before(s, least, r)
      {
        assert r == first || (r in others && Before(s, other, r));
      }
    }
  }

  lemma LeastExists(s: Store, q: Request)
    requires q.owner.Some? && CurrentMapped(s, q.channel, q.owner.value)
    requires Candidates(s, q) != {}
    ensures exists r :: Least(s, q, r)
  {
    var least := LeastAmong(s, q, Candidates(s, q));
    assert Least(s, q, least);
  }

  ghost function Repair(s: Store, q: Request): RepairOutcome {
    if Refusal(s, q).Some? then RepairOutcome(s, Rejected(Refusal(s, q).value))
    else if Candidates(s, q) == {} then RepairOutcome(s, Rejected(NoProvenReplacement))
    else
      LeastExists(s, q);
      var r :| Least(s, q, r);
      RepairWith(s, q, r)
  }

  /** Two least candidates share their replacing operation, so they are one. */
  lemma LeastIsUnique(s: Store, q: Request, a: Id, b: Id)
    requires Inv(s) && q.owner.Some? && CurrentMapped(s, q.channel, q.owner.value)
    requires Least(s, q, a) && Least(s, q, b)
    ensures a == b
  {
    assert PairOk(s, a, b);
  }

  /** A least candidate is the one the repair chooses. */
  lemma RepairPicks(s: Store, q: Request, r: Id)
    requires Inv(s) && Refusal(s, q).None? && Least(s, q, r)
    ensures Repair(s, q) == RepairWith(s, q, r)
  {
    assert r in Candidates(s, q);
    LeastExists(s, q);
    forall x | Least(s, q, x)
      ensures x == r
    {
      LeastIsUnique(s, q, x, r);
    }
  }

  /** Whatever the selection, a plan names one old resource and the operation that replaced it. */
  lemma PlanNames(s: Store, q: Request) returns (r: Id)
    requires Repair(s, q).reply.Plan?
    ensures Refusal(s, q).None? && Least(s, q, r) && Repair(s, q) == RepairWith(s, q, r)
    ensures Repair(s, q).reply.target == r && s.resources[r].replacement == Some(Repair(s, q).reply.subject)
  {
    LeastExists(s, q);
    r :| Least(s, q, r) && Repair(s, q) == RepairWith(s, q, r);
  }

  lemma RepairKeeps(s: Store, q: Request)
    requires Inv(s)
    ensures Inv(Repair(s, q).store)
    ensures Repair(s, q).store.resources == s.resources
  {
    if Repair(s, q).reply.Plan? {
      var r := PlanNames(s, q);
      if Repair(s, q).store != s {
        CorrectionKeeps(s, Repair(s, q).reply.subject);
      }
    }
  }

  /** The cleanup command an operator sends for a plan. */
  predicate CleansUp(c: Command, q: Request, subject: Id, target: Id) {
    && c.WellFormed() && c.kind == Cleanup && c.channel == q.channel
    && q.owner.Some? && c.owner == q.owner.value.identity && c.provider == q.owner.value.provider
    && c.subject == Some(subject) && c.target == Some(target)
  }

  /** After a written or confirmed repair, recovery acceptance has nothing left to refuse. */
  lemma RepairEnablesCleanup(s: Store, q: Request, c: Command, now: Time)
    requires Inv(s) && Repair(s, q).reply.Plan? && Repair(s, q).reply.status != DryRun
    requires CleansUp(c, q, Repair(s, q).reply.subject, Repair(s, q).reply.target)
    requires c.operation !in s.operations
    ensures AcceptRecovery(Repair(s, q).store, c, Locked, true, Matched, now).reply.RecoveryAccepted?
  {
    var r := PlanNames(s, q);
  }

  /** The confirmed request for a plan. */
  function Confirmed(q: Request, plan: RepairReply): Request
    requires plan.Plan?
  {
    q.(write := true, subject := Some(plan.subject), target := Some(plan.target))
  }

  /** Repairing again with the same confirmation finds the same pair and writes nothing. */
  lemma RepairIsIdempotent(s: Store, q: Request)
    requires Inv(s) && Repair(s, q).reply.Plan? && q.write
    ensures var s' := Repair(s, q).store;
            Repair(s', q) == RepairOutcome(s', Repair(s, q).reply.(status := AlreadyRepaired))
  {
    var s' := Repair(s, q).store;
    var r := PlanNames(s, q);
    var subject := s.resources[r].replacement.value;
    RepairKeeps(s, q);
    assert OldResources(s', q.channel) == OldResources(s, q.channel);
    assert IsCandidate(s', q, r);
    assert r in Candidates(s', q);
    assert Least(s', q, r);
    var r' := PlanNames(s', q);
    LeastIsUnique(s', q, r, r');
  }
}
