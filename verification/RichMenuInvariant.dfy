/**
 The invariant of the rich-menu store. The repository never states it; every step keeps it.
 */
module RichMenuInvariant {
  import opened Wrappers
  import opened RichMenuModel
  import opened RichMenuSteps

  // ---- Operations and slots ----

  ghost predicate OperationOk(s: Store, id: Id)
    requires id in s.operations
  {
    var op := s.operations[id];
    && op.channel in s.channels
    && (Live(op.status) ==> s.channels[op.channel].active == Some(id))
    && (op.startedAt.Some? ==> op.status == Status.Processing || op.status == Status.RecoveryActive)
    && (op.status == Status.Accepted <==> op.stage.None?)
    && (op.status == Status.Accepted ==> RecoveryStage(op.kind).None? && op.result == Code.Accepted)
    && (op.status == Status.RecoveryActive ==> op.startedAt.Some? && op.stage.Some? && op.stage == RecoveryStage(op.kind))
    && RelationValid(op.kind, op.subject, op.target)
    && (op.subject.Some? ==>
          && op.subject.value in s.operations
          && s.operations[op.subject.value].channel == op.channel
          && op.subject.value != id)
    && (op.target.Some? ==>
          && op.target.value in s.resources
          && s.resources[op.target.value].channel == op.channel)
  }

  ghost predicate SlotsOk(s: Store, channel: Id)
    requires channel in s.channels
  {
    var slots := s.channels[channel];
    && (slots.active.Some? ==>
          && slots.active.value in s.operations
          && var op := s.operations[slots.active.value];
          && op.channel == channel
          && Live(op.status)
          && (if op.status == Status.RecoveryActive then slots.blocking == op.subject else slots.blocking.None?))
    && (slots.blocking.Some? ==>
          && slots.blocking.value in s.operations
          && var op := s.operations[slots.blocking.value];
          && op.channel == channel
          && (op.status == Status.Unknown || op.status == Status.CleanupRequired))
    && (slots.current.Some? ==>
          && slots.current.value in s.resources
          && s.resources[slots.current.value].channel == channel
          && s.resources[slots.current.value].lifecycle == Applied)
  }

  // ---- Resources ----

  ghost predicate Originates(s: Store, operation: Id, resource: Id) {
    resource in s.resources && s.resources[resource].origin == operation
  }

  ghost predicate HasOrigin(s: Store, operation: Id) {
    exists r :: Originates(s, operation, r)
  }

  ghost predicate ResourceOk(s: Store, id: Id)
    requires id in s.resources
  {
    var r := s.resources[id];
    && r.channel in s.channels
    && (r.lifecycle == Applied ==> s.channels[r.channel].current == Some(id))
    && r.origin in s.operations
    && s.operations[r.origin].channel == r.channel
    && s.operations[r.origin].kind == Apply
    && (r.lifecycle in {Candidate, Applied, Released} ==> r.replacement.None?)
    && (r.lifecycle == Old ==> r.replacement.Some?)
    && (r.deletedAt.Some? <==> r.lifecycle == Deleted)
    && (r.releasedAt.Some? <==> r.lifecycle == Released)
    && (r.replacement.Some? ==>
          && r.replacement.value in s.operations
          && s.operations[r.replacement.value].channel == r.channel
          && s.operations[r.replacement.value].kind == Apply
          && r.replacement.value != r.origin
          && HasOrigin(s, r.replacement.value))
  }

  /** An apply originates at most one resource, and a replacing operation's resource has left candidacy. */
  ghost predicate PairOk(s: Store, a: Id, b: Id)
    requires a in s.resources && b in s.resources
  {
    var ra, rb := s.resources[a], s.resources[b];
    && (ra.origin == rb.origin ==> a == b)
    && (ra.replacement.Some? && ra.replacement == rb.replacement ==> a == b)
    && (ra.replacement == Some(rb.origin) ==> rb.lifecycle != Candidate)
    && (ra.lineId.Some? && ra.lineId == rb.lineId ==> a == b)
  }

  ghost predicate OperationsOk(s: Store) {
    forall id {:trigger OperationOk(s, id)} :: id in s.operations ==> OperationOk(s, id)
  }

  ghost predicate AllSlotsOk(s: Store) {
    forall c {:trigger SlotsOk(s, c)} :: c in s.channels ==> SlotsOk(s, c)
  }

  ghost predicate ResourcesOk(s: Store) {
    && (forall r {:trigger ResourceOk(s, r)} :: r in s.resources ==> ResourceOk(s, r))
    && (forall a, b {:trigger PairOk(s, a, b)} :: a in s.resources && b in s.resources ==> PairOk(s, a, b))
  }

  ghost predicate Inv(s: Store) {
    OperationsOk(s) && AllSlotsOk(s) && ResourcesOk(s)
  }

  // ---- Every step keeps it ----

  /** The columns no step rewrites. */
  predicate SameIdentity(a: Operation, b: Operation) {
    && a.channel == b.channel && a.kind == b.kind && a.subject == b.subject && a.target == b.target
    && a.owner == b.owner && a.provider == b.provider && a.fingerprint == b.fingerprint
    && a.revision == b.revision && a.acceptedAt == b.acceptedAt && a.usage == b.usage
  }

  /** One channel's slots and some of that channel's operations changed, and nothing else. */
  ghost predicate MovesWithin(s: Store, s': Store, channel: Id, touched: set<Id>) {
    && s'.resources == s.resources
    && s'.channels.Keys == s.channels.Keys + {channel}
    && (forall c :: c in s.channels && c != channel ==> s'.channels[c] == s.channels[c])
    && s'.operations.Keys == s.operations.Keys + touched
    && (forall id :: id in s.operations && id !in touched ==> s'.operations[id] == s.operations[id])
    && (forall id :: id in touched ==> s'.operations[id].channel == channel)
    && (forall id :: id in touched && id in s.operations ==> SameIdentity(s.operations[id], s'.operations[id]))
    && SlotsOf(s', channel).current == SlotsOf(s, channel).current
    && (SlotsOf(s, channel).active.Some? && SlotsOf(s, channel).active.value !in touched ==>
          SlotsOf(s', channel).active == SlotsOf(s, channel).active)
  }

  ghost predicate TouchedOk(s: Store, s': Store, channel: Id, touched: set<Id>) {
    && MovesWithin(s, s', channel, touched)
    && SlotsOk(s', channel)
    && (forall id :: id in touched ==> OperationOk(s', id))
  }

  /** Resources only ever gain rows outside a purge, so a replacement keeps its successor. */
  lemma OriginStays(s: Store, s': Store, r: Id)
    requires r in s.resources && ResourceOk(s, r)
    requires forall x :: x in s.resources ==> x in s'.resources && s'.resources[x].origin == s.resources[x].origin
    ensures s.resources[r].replacement.Some? ==> HasOrigin(s', s.resources[r].replacement.value)
  {
    if s.resources[r].replacement.Some? {
      var x :| Originates(s, s.resources[r].replacement.value, x);
      assert Originates(s', s.resources[r].replacement.value, x);
    }
  }

  lemma MoveKeepsOperations(s: Store, s': Store, channel: Id, touched: set<Id>)
    requires Inv(s) && TouchedOk(s, s', channel, touched)
    ensures OperationsOk(s') && AllSlotsOk(s')
  {
    forall id | id in s'.operations
      ensures OperationOk(s', id)
    {
      if id !in touched {
        assert OperationOk(s, id);
      }
    }
    forall c | c in s'.channels
      ensures SlotsOk(s', c)
    {
      if c != channel {
        assert SlotsOk(s, c);
      }
    }
  }

  lemma MoveKeepsResources(s: Store, s': Store, channel: Id, touched: set<Id>)
    requires Inv(s) && TouchedOk(s, s', channel, touched)
    ensures ResourcesOk(s')
  {
    forall r | r in s'.resources
      ensures ResourceOk(s', r)
    {
      assert ResourceOk(s, r);
      OriginStays(s, s', r);
    }
    forall a, b | a in s'.resources && b in s'.resources
      ensures PairOk(s', a, b)
    {
      assert PairOk(s, a, b);
    }
  }

  lemma MoveKeeps(s: Store, s': Store, channel: Id, touched: set<Id>)
    requires Inv(s) && TouchedOk(s, s', channel, touched)
    ensures Inv(s')
  {
    MoveKeepsOperations(s, s', channel, touched);
    MoveKeepsResources(s, s', channel, touched);
  }

  lemma MakeUnknownKeeps(s: Store, id: Id)
    requires Inv(s) && id in s.operations && s.operations[id].status == Status.Processing
    ensures Inv(MakeUnknown(s, id).store)
  {
    var s' := MakeUnknown(s, id).store;
    var channel := s.operations[id].channel;
    assert OperationOk(s, id) && SlotsOk(s, channel);
    MoveKeeps(s, s', channel, {id});
  }

  lemma ExpireKeeps(s: Store, id: Id, now: Time)
    requires Inv(s) && id in s.operations && s.operations[id].status == Status.RecoveryActive
    ensures Inv(ExpireRecovery(s, id, now).store)
  {
    var s' := ExpireRecovery(s, id, now).store;
    var channel := s.operations[id].channel;
    assert OperationOk(s, id) && SlotsOk(s, channel);
    MoveKeeps(s, s', channel, {id});
  }

  lemma ClaimKeeps(s: Store, id: Id, expected: Stage, now: Time, timeout: nat)
    requires Inv(s)
    ensures Inv(ClaimStage(s, id, expected, now, timeout).store)
  {
    var claimed := ClaimStage(s, id, expected, now, timeout);
    if claimed.store != s {
      var op := s.operations[id];
      assert OperationOk(s, id) && SlotsOk(s, op.channel);
      if op.startedAt.None? {
        MoveKeeps(s, claimed.store, op.channel, {id});
      } else if op.status == Status.RecoveryActive {
        ExpireKeeps(s, id, now);
      } else {
        MakeUnknownKeeps(s, id);
      }
    }
  }

  /** A completion that moved its operation on. */
  ghost predicate Completes(s: Store, out: StageOutcome, now: Time) {
    && Inv(s)
    && CompleteStage(s, out, Matched, now).reply.Moved?
    && out.operation in s.operations
    && OperationOk(s, out.operation) && SlotsOk(s, s.operations[out.operation].channel)
  }

  lemma CompletionOperation(s: Store, out: StageOutcome, now: Time)
    requires Completes(s, out, now)
    ensures OperationOk(CompleteStage(s, out, Matched, now).store, out.operation)
  {
    hide Inv, SlotsOk, LastSequence;
  }

  lemma CompletionSlots(s: Store, out: StageOutcome, now: Time)
    requires Completes(s, out, now)
    ensures SlotsOk(CompleteStage(s, out, Matched, now).store, s.operations[out.operation].channel)
  {
    hide Inv, LastSequence;
  }

  lemma CompletionWithin(s: Store, out: StageOutcome, now: Time)
    requires Completes(s, out, now)
    ensures MovesWithin(s, CompleteStage(s, out, Matched, now).store, s.operations[out.operation].channel, {out.operation})
  {
    hide Inv, SlotsOk, MayMove, LastSequence;
  }

  lemma CompleteStageKeeps(s: Store, out: StageOutcome, fence: Fence, now: Time)
    requires Inv(s)
    ensures Inv(CompleteStage(s, out, fence, now).store)
  {
    var done := CompleteStage(s, out, fence, now);
    if done.store != s {
      if fence != Matched {
        MakeUnknownKeeps(s, out.operation);
      } else {
        assert OperationOk(s, out.operation) && SlotsOk(s, s.operations[out.operation].channel);
        CompletionOperation(s, out, now);
        CompletionSlots(s, out, now);
        CompletionWithin(s, out, now);
        MoveKeeps(s, done.store, s.operations[out.operation].channel, {out.operation});
      }
    }
  }

  lemma RejectStaleKeeps(s: Store, id: Id, subject: Operation, fence: Fence, now: Time)
    requires Inv(s) && id in s.operations && s.operations[id].status == Status.RecoveryActive
    ensures Inv(RejectStaleRecovery(s, id, subject, fence, now).store)
  {
    var s' := RejectStaleRecovery(s, id, subject, fence, now).store;
    var channel := s.operations[id].channel;
    assert OperationOk(s, id) && SlotsOk(s, channel);
    MoveKeeps(s, s', channel, {id});
  }

  /** A handoff that happened: the recovery and its subject, one active, one blocking. */
  ghost predicate HandsOff(s: Store, out: RecoveryOutcome, now: Time) {
    && Inv(s)
    && HandoffRecovery(s, out, Matched, now).reply.HandedOff?
    && OperationOk(s, out.recovery) && OperationOk(s, out.subject) && SlotsOk(s, s.operations[out.recovery].channel)
  }

  lemma HandoffOperations(s: Store, out: RecoveryOutcome, now: Time)
    requires HandsOff(s, out, now)
    ensures OperationOk(HandoffRecovery(s, out, Matched, now).store, out.recovery)
    ensures OperationOk(HandoffRecovery(s, out, Matched, now).store, out.subject)
  {
    hide Inv, LastSequence, MovesWithin;
  }

  lemma HandoffSlots(s: Store, out: RecoveryOutcome, now: Time)
    requires HandsOff(s, out, now)
    ensures SlotsOk(HandoffRecovery(s, out, Matched, now).store, s.operations[out.recovery].channel)
  {
  }

  lemma HandoffWithin(s: Store, out: RecoveryOutcome, now: Time)
    requires HandsOff(s, out, now)
    ensures MovesWithin(s, HandoffRecovery(s, out, Matched, now).store,
                        s.operations[out.recovery].channel, {out.recovery, out.subject})
  {
    hide Inv, OperationOk, SlotsOk, LastSequence, HandoffAllowed, BlockerMayMove;
  }

  lemma HandoffKeeps(s: Store, out: RecoveryOutcome, fence: Fence, now: Time)
    requires Inv(s)
    ensures Inv(HandoffRecovery(s, out, fence, now).store)
  {
    var s' := HandoffRecovery(s, out, fence, now).store;
    if s' != s {
      var channel := s.operations[out.recovery].channel;
      assert OperationOk(s, out.recovery) && OperationOk(s, out.subject) && SlotsOk(s, channel);
      if fence != Matched {
        RejectStaleKeeps(s, out.recovery, s.operations[out.subject], fence, now);
      } else {
        HandoffOperations(s, out, now);
        HandoffSlots(s, out, now);
        HandoffWithin(s, out, now);
        MoveKeeps(s, s', channel, {out.recovery, out.subject});
      }
    }
  }

  lemma CompleteRecoveryKeeps(s: Store, id: Id, next: Status, result: Code, now: Time)
    requires Inv(s)
    ensures Inv(CompleteRecovery(s, id, next, result, now).store)
  {
    var s' := CompleteRecovery(s, id, next, result, now).store;
    if s' != s {
      var channel := s.operations[id].channel;
      assert OperationOk(s, id) && SlotsOk(s, channel);
      MoveKeeps(s, s', channel, {id});
    }
  }

  lemma CleanupCompletionKeeps(s: Store, id: Id, resource: Id, now: Time)
    requires Inv(s)
    ensures Inv(CompleteCleanupRecovery(s, id, resource, now).store)
  {
    var s' := CompleteCleanupRecovery(s, id, resource, now).store;
    if s' != s {
      var op := s.operations[id];
      assert OperationOk(s, id) && OperationOk(s, op.subject.value) && SlotsOk(s, op.channel);
      MoveKeeps(s, s', op.channel, {id, op.subject.value});
    }
  }

  lemma AcceptRecoveryKeeps(s: Store, c: Command, reference: ReferenceFence, allowed: bool, fence: Fence, now: Time)
    requires Inv(s)
    ensures Inv(AcceptRecovery(s, c, reference, allowed, fence, now).store)
  {
    var s' := AcceptRecovery(s, c, reference, allowed, fence, now).store;
    if s' != s {
      assert SlotsOk(s, c.channel);
      MoveKeeps(s, s', c.channel, {c.operation});
    }
  }

  lemma ReserveDisableKeeps(s: Store, c: DisableCommand, reference: ReferenceFence, fence: Fence, now: Time)
    requires Inv(s)
    ensures Inv(ReserveDisableUnlink(s, c, reference, fence, now).store)
  {
    var s' := ReserveDisableUnlink(s, c, reference, fence, now).store;
    if s' != s {
      assert SlotsOk(s, c.channel);
      MoveKeeps(s, s', c.channel, {c.operation});
    }
  }

  lemma CandidateKeeps(s: Store, id: Id, r: Resource)
    requires Inv(s) && id !in s.resources && r.channel in s.channels && r.origin in s.operations
    requires s.operations[r.origin].kind == Apply && s.operations[r.origin].channel == r.channel
    requires r.lifecycle == Candidate && r.replacement.None? && r.lineId.None? && r.deletedAt.None? && r.releasedAt.None?
    requires forall x :: x in s.resources ==> s.resources[x].origin != r.origin && s.resources[x].replacement != Some(r.origin)
    ensures Inv(SetResource(s, id, r))
  {
    var s' := SetResource(s, id, r);
    forall o | o in s'.operations ensures OperationOk(s', o) { assert OperationOk(s, o); }
    forall c | c in s'.channels ensures SlotsOk(s', c) { assert SlotsOk(s, c); }
    forall x | x in s'.resources
      ensures ResourceOk(s', x)
    {
      if x != id {
        assert ResourceOk(s, x);
        OriginStays(s, s', x);
      }
    }
    forall a, b | a in s'.resources && b in s'.resources
      ensures PairOk(s', a, b)
    {
      if a != id && b != id {
        assert PairOk(s, a, b);
      }
    }
  }

  lemma OpenChannelKeeps(s: Store, channel: Id)
    requires Inv(s)
    ensures Inv(SetSlots(s, channel, SlotsOf(s, channel)))
  {
    if channel in s.channels {
      assert SlotsOk(s, channel);
    }
    MoveKeeps(s, SetSlots(s, channel, SlotsOf(s, channel)), channel, {});
  }

  /** The accepted operation's row and slot, before any candidate is added. */
  lemma AcceptRowKeeps(s: Store, c: Command, now: Time, candidateId: Id)
    requires Inv(s) && Accept(s, c, Locked, true, now, candidateId).reply.OperationAccepted?
    ensures Inv(Accept(s, c, Locked, true, now, candidateId).store.(resources := s.resources))
  {
    if c.channel in s.channels {
      assert SlotsOk(s, c.channel);
    }
    var s' := Accept(s, c, Locked, true, now, candidateId).store.(resources := s.resources);
    MoveKeeps(s, s', c.channel, {c.operation});
  }

  lemma AcceptKeeps(s: Store, c: Command, fence: ReferenceFence, allowed: bool, now: Time, candidateId: Id)
    requires Inv(s)
    ensures Inv(Accept(s, c, fence, allowed, now, candidateId).store)
  {
    var done := Accept(s, c, fence, allowed, now, candidateId);
    if done.reply.OperationAccepted? {
      AcceptRowKeeps(s, c, now, candidateId);
      if c.kind == Apply {
        var s2 := done.store.(resources := s.resources);
        forall x | x in s.resources
          ensures s.resources[x].origin != c.operation && s.resources[x].replacement != Some(c.operation)
        {
          assert ResourceOk(s, x);
        }
        CandidateKeeps(s2, candidateId, done.store.resources[candidateId]);
        assert done.store == SetResource(s2, candidateId, done.store.resources[candidateId]);
      } else {
        assert done.store == done.store.(resources := s.resources);
      }
    } else {
      OpenChannelKeeps(s, c.channel);
      assert done.store == s || done.store == SetSlots(s, c.channel, SlotsOf(s, c.channel));
    }
  }

  lemma ObservationKeeps(s: Store, channel: Id, owner: Id, provider: string, observation: Observation, managed: Option<Id>)
    requires Inv(s)
    ensures Inv(RecordObservation(s, channel, owner, provider, observation, managed).store)
  {
    if channel in s.channels {
      assert SlotsOk(s, channel);
    }
    MoveKeeps(s, RecordObservation(s, channel, owner, provider, observation, managed).store, channel, {});
  }

  lemma CorrectionKeeps(s: Store, id: Id)
    requires Inv(s) && id in s.operations && s.operations[id].status == Status.Succeeded
    requires SlotsOf(s, s.operations[id].channel).active.None? && SlotsOf(s, s.operations[id].channel).blocking.None?
    ensures Inv(CorrectSubject(s, id))
  {
    var channel := s.operations[id].channel;
    assert OperationOk(s, id) && SlotsOk(s, channel);
    MoveKeeps(s, CorrectSubject(s, id), channel, {id});
  }

  // ---- Resource steps ----

  /** One resource moved in its lifecycle, and its channel's current slot with it. */
  ghost predicate ResourceMoves(s: Store, s': Store, id: Id) {
    && id in s.resources && id in s'.resources
    && var r, r' := s.resources[id], s'.resources[id];
    && s'.operations == s.operations
    && s'.resources == s.resources[id := r']
    && r'.channel == r.channel && r'.origin == r.origin && r'.replacement == r.replacement
    && (r'.lifecycle == Candidate ==> r.lifecycle == Candidate)
    && (r'.lineId == r.lineId || (r.lineId.None? && r'.lineId.Some? && !LineIdTaken(s, r'.lineId.value)))
    && s'.channels.Keys == s.channels.Keys
    && (forall c :: c in s.channels && c != r.channel ==> s'.channels[c] == s.channels[c])
    && SlotsOf(s', r.channel).active == SlotsOf(s, r.channel).active
    && SlotsOf(s', r.channel).blocking == SlotsOf(s, r.channel).blocking
    && (SlotsOf(s, r.channel).current != Some(id) && SlotsOf(s, r.channel).current.Some? ==>
          SlotsOf(s', r.channel).current == SlotsOf(s, r.channel).current)
  }

  lemma ResourceMoveKeepsPairs(s: Store, s': Store, id: Id)
    requires Inv(s) && ResourceMoves(s, s', id)
    ensures forall a, b {:trigger PairOk(s', a, b)} :: a in s'.resources && b in s'.resources ==> PairOk(s', a, b)
  {
    forall a, b | a in s'.resources && b in s'.resources
      ensures PairOk(s', a, b)
    {
      assert PairOk(s, a, b);
    }
  }

  lemma ResourceMoveKeeps(s: Store, s': Store, id: Id)
    requires Inv(s) && ResourceMoves(s, s', id)
    requires ResourceOk(s, id) && ResourceOk(s', id) && SlotsOk(s', s.resources[id].channel)
    ensures Inv(s')
  {
    forall o | o in s'.operations ensures OperationOk(s', o) { assert OperationOk(s, o); }
    forall c | c in s'.channels
      ensures SlotsOk(s', c)
    {
      if c != s.resources[id].channel {
        assert SlotsOk(s, c);
      }
    }
    forall x | x in s'.resources
      ensures ResourceOk(s', x)
    {
      if x != id {
        assert ResourceOk(s, x);
        OriginStays(s, s', x);
      }
    }
    ResourceMoveKeepsPairs(s, s', id);
  }

  lemma MarkCleanupKeeps(s: Store, id: Id)
    requires Inv(s)
    ensures Inv(MarkCleanupRequired(s, id).store)
    ensures Inv(FinalizeUnlink(s, id).store)
  {
    if id in s.resources {
      assert ResourceOk(s, id) && SlotsOk(s, s.resources[id].channel);
      OriginStays(s, MarkCleanupRequired(s, id).store, id);
      OriginStays(s, FinalizeUnlink(s, id).store, id);
      if MarkCleanupRequired(s, id).store != s {
        ResourceMoveKeeps(s, MarkCleanupRequired(s, id).store, id);
      }
      if FinalizeUnlink(s, id).store != s {
        ResourceMoveKeeps(s, FinalizeUnlink(s, id).store, id);
      }
    }
  }

  lemma FinalizeReleaseKeeps(s: Store, id: Id, now: Time)
    requires Inv(s)
    ensures Inv(FinalizeRelease(s, id, now).store)
  {
    if id in s.resources && FinalizeRelease(s, id, now).store != s {
      assert ResourceOk(s, id) && SlotsOk(s, s.resources[id].channel);
      ResourceMoveKeeps(s, FinalizeRelease(s, id, now).store, id);
    }
  }

  lemma DeleteKeeps(s: Store, id: Id, now: Time)
    requires Inv(s)
    ensures Inv(FinalizeDeleted(s, id, now).store)
    ensures Inv(DiscardCandidate(s, id, now).store)
  {
    if id in s.resources {
      assert ResourceOk(s, id) && SlotsOk(s, s.resources[id].channel);
      OriginStays(s, FinalizeDeleted(s, id, now).store, id);
      OriginStays(s, DiscardCandidate(s, id, now).store, id);
      if FinalizeDeleted(s, id, now).store != s {
        ResourceMoveKeeps(s, FinalizeDeleted(s, id, now).store, id);
      }
      if DiscardCandidate(s, id, now).store != s {
        ResourceMoveKeeps(s, DiscardCandidate(s, id, now).store, id);
      }
    }
  }

  lemma BindKeeps(s: Store, id: Id, lineId: string)
    requires Inv(s)
    ensures Inv(BindLineId(s, id, lineId).store)
  {
    if BindLineId(s, id, lineId).store != s {
      assert ResourceOk(s, id) && SlotsOk(s, s.resources[id].channel);
      OriginStays(s, BindLineId(s, id, lineId).store, id);
      ResourceMoveKeeps(s, BindLineId(s, id, lineId).store, id);
    }
  }

  lemma ReplacementKeepsPairs(s: Store, operation: Id, newId: Id, oldId: Id, fence: Fence)
    requires Inv(s)
    ensures var s' := RecordReplacement(s, operation, newId, oldId, fence).store;
            forall a, b {:trigger PairOk(s', a, b)} :: a in s'.resources && b in s'.resources ==> PairOk(s', a, b)
  {
    var s' := RecordReplacement(s, operation, newId, oldId, fence).store;
    forall a, b | a in s'.resources && b in s'.resources
      ensures PairOk(s', a, b)
    {
      assert PairOk(s, a, b);
      if s' != s {
        assert PairOk(s, newId, b);
      }
    }
  }

  /** Two resources and the current slot move together. */
  lemma ReplacementKeeps(s: Store, operation: Id, newId: Id, oldId: Id, fence: Fence)
    requires Inv(s)
    ensures Inv(RecordReplacement(s, operation, newId, oldId, fence).store)
  {
    var s' := RecordReplacement(s, operation, newId, oldId, fence).store;
    if s' != s {
      var channel := s.operations[operation].channel;
      assert ResourceOk(s, newId) && ResourceOk(s, oldId) && SlotsOk(s, channel);
      assert Originates(s', operation, newId);
      assert PairOk(s, newId, oldId);
      forall o | o in s'.operations ensures OperationOk(s', o) { assert OperationOk(s, o); }
      forall c | c in s'.channels ensures SlotsOk(s', c) { assert SlotsOk(s, c); }
      forall x | x in s'.resources
        ensures ResourceOk(s', x)
      {
        assert ResourceOk(s, x);
        OriginStays(s, s', x);
      }
      ReplacementKeepsPairs(s, operation, newId, oldId, fence);
    }
  }

  lemma FinalizeApplyKeeps(s: Store, operation: Id, candidate: Id, fence: Fence)
    requires Inv(s)
    ensures Inv(FinalizeApply(s, operation, candidate, fence).store)
  {
    var s' := FinalizeApply(s, operation, candidate, fence).store;
    if s' != s {
      var channel := s.operations[operation].channel;
      assert ResourceOk(s, candidate) && SlotsOk(s, channel);
      if SlotsOf(s, channel).current.None? {
        ResourceMoveKeeps(s, s', candidate);
      } else {
        ReplacementKeeps(s, operation, candidate, SlotsOf(s, channel).current.value, fence);
      }
    }
  }

  lemma CompleteApplyKeeps(s: Store, operation: Id, candidate: Id, replaceFence: Fence, stageFence: Fence, now: Time)
    requires Inv(s)
    ensures Inv(CompleteApply(s, operation, candidate, replaceFence, stageFence, now).store)
  {
    var finalized := FinalizeApply(s, operation, candidate, replaceFence).store;
    FinalizeApplyKeeps(s, operation, candidate, replaceFence);
    var hasOld := ReplacedOld(finalized, operation);
    CompleteStageKeeps(
      finalized,
      StageOutcome(operation, Verifying,
                   if hasOld then Status.CleanupRequired else Status.Succeeded,
                   if hasOld then Cleaning else Verifying,
                   if hasOld then Code.CleanupRequired else Code.Succeeded),
      stageFence, now);
  }

  lemma CompleteApplyRecoveryKeeps(s: Store, recovery: Id, candidate: Id, handoffFence: Fence,
                                   replaceFence: Fence, stageFence: Fence, now: Time, timeout: nat)
    requires Inv(s)
    ensures Inv(CompleteApplyRecovery(s, recovery, candidate, handoffFence, replaceFence, stageFence, now, timeout).store)
  {
    if ApplyRecoverable(s, recovery, candidate) {
      var subject := s.operations[recovery].subject.value;
      var out := RecoveryOutcome(recovery, subject, Status.Processing, Verifying, Code.Accepted, false);
      HandoffKeeps(s, out, handoffFence, now);
      var handed := HandoffRecovery(s, out, handoffFence, now).store;
      ClaimKeeps(handed, subject, Verifying, now, timeout);
      var claimed := ClaimStage(handed, subject, Verifying, now, timeout).store;
      CompleteApplyKeeps(claimed, subject, candidate, replaceFence, stageFence, now);
    }
  }

  lemma PurgeKeeps(s: Store, channel: Id, reference: ReferenceFence, stored: bool)
    requires Inv(s)
    ensures Inv(PurgeHistory(s, channel, reference, stored).store)
  {
    var s' := PurgeHistory(s, channel, reference, stored).store;
    if s' != s {
      forall o | o in s'.operations ensures OperationOk(s', o) { assert OperationOk(s, o); }
      forall c | c in s'.channels ensures SlotsOk(s', c) { assert SlotsOk(s, c); }
      forall x | x in s'.resources
        ensures ResourceOk(s', x)
      {
        assert ResourceOk(s, x);
        if s.resources[x].replacement.Some? {
          var y :| Originates(s, s.resources[x].replacement.value, y);
          assert ResourceOk(s, y);
          assert Originates(s', s.resources[x].replacement.value, y);
        }
      }
      forall a, b | a in s'.resources && b in s'.resources
        ensures PairOk(s', a, b)
      {
        assert PairOk(s, a, b);
      }
    }
  }
}
