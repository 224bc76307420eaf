/**
 One call of the deactivation coordinator, as it runs when no other request comes in between: each of
 its transactions is one step of the protocol, so what holds of every run of the protocol holds of it.
 */
module DeactivationCoordinator {
  import opened Wrappers
  import opened RichMenuModel
  import opened RichMenuSteps
  import opened RichMenuInvariant
  import opened RichMenuRuns
  import opened RichMenuStages
  import opened Deactivation
  import opened DeactivationProtocol
  import opened DeactivationRuns
  import opened RichMenuRepository
  import opened DeactivationRepository

  /** What the outside answers during one assessment and the write that follows it. */
  datatype Answers = Answers(resolve: Chance, first: Chance, observe: Chance, second: Chance, decide: Chance)

  /** How the unlink of the current menu went: its reservation, its stages, its end, and the second assessment. */
  datatype UnlinkRun = UnlinkRun(reserve: Chance, work: seq<Call>, end: Chance, again: Answers)

  datatype CoordinatorReply = Answered(view: Intent) | Declined(code: Conflict) | NotFound | Aborted

  lemma RunAppends(w: World, steps: seq<Step>, step: Step)
    ensures RunWorld(w, steps + [step]) == NextWorld(RunWorld(w, steps), step)
  {
    assert (steps + [step])[..|steps|] == steps;
  }

  /** A later stamp than the channel row carries. */
  predicate Later(t: Table, q: Target, x: Chance) {
    q.channel in t.channels ==> x.now > t.channels[q.channel].revision
  }

  /** The calls an unlink makes on its way through its stages. */
  predicate UnlinkWork(call: Call, operation: Id, timeout: nat) {
    || (call.Claim? && call.id == operation && call.timeout == timeout)
    || (call.Complete? && call.out.operation == operation)
    || call.Unlinked?
  }

  // ---- Whose operations occupy the channel ----

  /** If the channel was its owner's alone, it still is. */
  ghost predicate ScopeKept(before: Store, after: Store, q: Target) {
    OccupantsInScope(before, q) ==> OccupantsInScope(after, q)
  }

  lemma SameRowsSameScope(s: Store, s': Store, q: Target, id: Id)
    requires InScope(s, q, id) && id in s'.operations && SameIdentity(s.operations[id], s'.operations[id])
    ensures InScope(s', q, id)
  {
  }

  lemma UnlinkWorkKeepsScope(s: Store, call: Call, q: Target, operation: Id, timeout: nat)
    requires Inv(s) && UnlinkWork(call, operation, timeout)
    ensures ScopeKept(s, Next(s, call).store, q)
  {
    hide Inv, Next, RowMoves, InScope;
    var s' := Next(s, call).store;
    UnlinkWorkSlots(s, call, q.channel, operation, timeout);
    forall id | InScope(s, q, id)
      ensures InScope(s', q, id)
    {
      ScopeIsRow(s, q, id);
      CallMovesRow(s, call, id);
      RowKeepsIdentity(s.operations[id], s'.operations[id], PutsBack(s, call, id));
      SameRowsSameScope(s, s', q, id);
    }
  }

  lemma ScopeIsRow(s: Store, q: Target, id: Id)
    requires InScope(s, q, id)
    ensures id in s.operations
  {
  }

  lemma RowKeepsIdentity(a: Operation, b: Operation, putBack: bool)
    requires RowMoves(a, b, putBack)
    ensures SameIdentity(a, b)
  {
  }

  /** An unlink's own calls put nothing but what was active into a slot. */
  lemma UnlinkWorkSlots(s: Store, call: Call, channel: Id, operation: Id, timeout: nat)
    requires Inv(s) && UnlinkWork(call, operation, timeout)
    ensures var a, b := SlotsOf(s, channel), SlotsOf(Next(s, call).store, channel); var s' := Next(s, call).store;
            && (b.active.Some? ==> b.active == a.active)
            && (b.blocking.Some? ==> b.blocking == a.blocking || b.blocking == a.active)
            && (b.current.Some? ==> b.current == a.current)
            && (a.current.Some? && a.current.value in s.resources ==>
                  a.current.value in s'.resources && s'.resources[a.current.value].origin == s.resources[a.current.value].origin)
  {
    hide Inv, LastSequence, MayMove, RelationValid, RecoveryStage;
    if !call.Unlinked? && operation in s.operations {
      ActiveIfLive(s, operation);
    }
  }

  lemma ActiveIfLive(s: Store, id: Id)
    requires Inv(s) && id in s.operations
    ensures s.operations[id].channel in s.channels
    ensures Live(s.operations[id].status) ==> s.channels[s.operations[id].channel].active == Some(id)
    ensures s.operations[id].startedAt.Some? ==> Live(s.operations[id].status)
  {
    assert OperationOk(s, id);
  }

  lemma ReservationKeepsScope(s: Store, call: Call, q: Target)
    requires call.ReserveDisable?
    requires call.disable.channel == q.channel && call.disable.owner == q.owner && call.disable.provider == q.provider
    ensures ScopeKept(s, Next(s, call).store, q)
  {
  }

  lemma ObservationKeepsScope(s: Store, call: Call, q: Target)
    requires call.Observe?
    ensures ScopeKept(s, Next(s, call).store, q)
  {
  }

  /** The slots are empty exactly when whatever occupies them belongs to the owner who asks. */
  ghost predicate VacantIfOwn(s: Store, q: Target) {
    Vacant(s, q.channel) <==> OccupantsInScope(s, q)
  }

  /** An intent that this call completed was completed over empty slots, but for another owner's occupants,
      and its channel is inactive. */
  ghost predicate CommitOk(before: World, after: World, q: Target) {
    !IsCompleted(before, q.channel) && IsCompleted(after, q.channel) ==>
      && VacantIfOwn(after.store, q)
      && q.channel in after.table.channels && !after.table.channels[q.channel].active
  }

  lemma ClearReadsVacant(w: World, q: Target, first: Option<StateView>, seen: Option<Seen>, expected: Revision, provable: bool)
    requires WorldOk(w)
    ensures Assess(Chosen(first, ViewOf(w.store, q), seen), q, expected, provable) == ClearToDisable ==> VacantIfOwn(w.store, q)
  {
    hide Inv, TableOk, JobOk, ViewOf, Chosen, Assess, Vacant, OccupantsInScope;
    if Assess(Chosen(first, ViewOf(w.store, q), seen), q, expected, provable) == ClearToDisable {
      ClearMeansVacantExactly(w.store, q, first, seen, expected, provable);
    }
  }

  /** Results and notes leave no intent completed that was not. */
  lemma WritesCompleteNothing(w: World, call: TableCall, channel: Id)
    requires call.ConflictCall? || (call.SaveCall? && call.status != Completed)
    ensures IsCompleted(w.(table := NextTable(w.table, call).table), channel) ==> IsCompleted(w, channel)
  {
  }

  lemma SettleCompletesNothing(w: World, id: Id, call: TableCall, channel: Id)
    requires id in w.jobs && call.SaveCall? && call.status != Completed
    ensures IsCompleted(Settle(w, id, call), channel) ==> IsCompleted(w, channel)
  {
    hide NextTable;
    WritesCompleteNothing(w, call, channel);
  }

  // ---- The coordinator ----

  class DefaultChannelDeactivationCoordinator {
    const menus: DjangoRichMenuRepository
    const intents: DjangoChannelDeactivationRepository
    ghost const start: World
    ghost var steps: seq<Step>
    ghost var world: World

    ghost predicate Valid()
      reads this, menus, intents
    {
      && WorldOk(world) && world == RunWorld(start, steps)
      && menus.Contents() == world.store && intents.Contents() == world.table
    }

    constructor (menus: DjangoRichMenuRepository, intents: DjangoChannelDeactivationRepository, ghost start: World)
      requires WorldOk(start) && menus.Contents() == start.store && intents.Contents() == start.table
      ensures Valid() && this.menus == menus && this.intents == intents && this.start == start && steps == []
    {
      this.menus, this.intents, this.start := menus, intents, start;
      steps, world := [], start;
    }

    ghost method Take(step: Step)
      requires WorldOk(world) && world == RunWorld(start, steps) && Admissible(world, step)
      modifies `steps, `world
      ensures WorldOk(world) && world == RunWorld(start, steps)
      ensures world == NextWorld(old(world), step) && steps == old(steps) + [step]
    {
      WorldStaysOk(world, step);
      RunAppends(start, steps, step);
      world := NextWorld(world, step);
      steps := steps + [step];
    }

    // ---- Assessing ----

    method AssessDisable(id: Id, q: Target, expected: Revision, x: Answers) returns (a: Assessment, ghost scoped: bool)
      requires Valid()
      requires id in world.jobs && world.jobs[id].phase == Resolving
      requires world.jobs[id].target == q && world.jobs[id].expected == expected
      modifies this, menus
      ensures Valid() && old(steps) <= steps && ScopeKept(old(menus.Contents()), menus.Contents(), q)
      ensures world.table == old(world).table && world.jobs == old(world).jobs[id := old(world).jobs[id].(phase := Decided(a, scoped))]
      ensures a == ClearToDisable ==> VacantIfOwn(menus.Contents(), q)
    {
      hide WorldOk, RunWorld, OccupantsInScope;
      Take(Act(id, x.resolve));
      if x.resolve.failure.Some? {
        return Unassessable(x.resolve.failure.value), true;
      }
      var problem := ChannelProblem(intents.Contents(), q, expected);
      if problem.Some? && problem != Some("channel_inactive") {
        return Unassessable(problem.value), true;
      }
      a, scoped := ReadState(id, q, expected, problem.None?, x);
    }

    /** The first read; for an inactive channel it is the only one. */
    method ReadState(id: Id, q: Target, expected: Revision, live: bool, x: Answers) returns (a: Assessment, ghost scoped: bool)
      requires Valid()
      requires id in world.jobs && world.jobs[id].phase == Reading(live)
      requires world.jobs[id].target == q && world.jobs[id].expected == expected
      modifies this, menus
      ensures Valid() && old(steps) <= steps && ScopeKept(old(menus.Contents()), menus.Contents(), q)
      ensures world.table == old(world).table && world.jobs == old(world).jobs[id := old(world).jobs[id].(phase := Decided(a, scoped))]
      ensures a == ClearToDisable ==> VacantIfOwn(menus.Contents(), q)
    {
      hide WorldOk, RunWorld, OccupantsInScope, ViewOf, Assess, Chosen;
      var first := ViewOf(menus.Contents(), q);
      Take(Act(id, x.first));
      if x.first.failure.Some? {
        return Unassessable(x.first.failure.value), true;
      }
      if !live {
        a, scoped := Assess(Chosen(None, first, None), q, expected, x.first.provable), OccupantsInScope(menus.Contents(), q);
        ClearReadsVacant(world, q, None, None, expected, x.first.provable);
        return;
      }
      a, scoped := ObserveAndReread(id, q, expected, first, x);
    }

    /** The gateway is observed, the scope checked again, the observation recorded, and the state read again. */
    method ObserveAndReread(id: Id, q: Target, expected: Revision, first: Option<StateView>, x: Answers) returns (a: Assessment, ghost scoped: bool)
      requires Valid()
      requires id in world.jobs && world.jobs[id].phase == Observing(first)
      requires world.jobs[id].target == q && world.jobs[id].expected == expected
      modifies this, menus
      ensures Valid() && old(steps) <= steps && ScopeKept(old(menus.Contents()), menus.Contents(), q)
      ensures world.table == old(world).table && world.jobs == old(world).jobs[id := old(world).jobs[id].(phase := Decided(a, scoped))]
      ensures a == ClearToDisable ==> VacantIfOwn(menus.Contents(), q)
    {
      hide WorldOk, RunWorld, OccupantsInScope, ViewOf, Assess, Chosen;
      Take(Act(id, x.observe));
      if x.observe.failure.Some? {
        return Unassessable(x.observe.failure.value), true;
      }
      var problem := ChannelProblem(intents.Contents(), q, expected);
      if problem.Some? {
        return Unassessable(problem.value), true;
      }
      a, scoped := RecordAndReread(id, q, expected, first, x.observe.seen, x);
    }

    method RecordAndReread(id: Id, q: Target, expected: Revision, first: Option<StateView>, seen: Seen, x: Answers)
      returns (a: Assessment, ghost scoped: bool)
      requires Valid()
      requires id in world.jobs && world.jobs[id].phase == Recording(first, seen)
      requires world.jobs[id].target == q && world.jobs[id].expected == expected
      modifies this, menus
      ensures Valid() && old(steps) <= steps && ScopeKept(old(menus.Contents()), menus.Contents(), q)
      ensures world.table == old(world).table && world.jobs == old(world).jobs[id := old(world).jobs[id].(phase := Decided(a, scoped))]
      ensures a == ClearToDisable ==> VacantIfOwn(menus.Contents(), q)
    {
      hide WorldOk, RunWorld, OccupantsInScope, ViewOf, Assess, Chosen, RichMenuSteps.RecordObservation;
      ghost var observe := Observe(q.channel, q.owner, q.provider, Observation(seen.kind, seen.fingerprint), seen.managed);
      ObservationKeepsScope(menus.Contents(), observe, q);
      Take(Act(id, x.observe));
      var recorded := menus.RecordObservation(q.channel, q.owner, q.provider, Observation(seen.kind, seen.fingerprint), seen.managed);
      if recorded != Answer(true) {
        return Unassessable("storage_unavailable"), true;
      }
      var second := ViewOf(menus.Contents(), q);
      Take(Act(id, x.second));
      a, scoped := Assess(Chosen(first, second, Some(seen)), q, expected, x.second.provable), OccupantsInScope(menus.Contents(), q);
      ClearReadsVacant(world, q, first, Some(seen), expected, x.second.provable);
    }

    // ---- Writing ----

    method RecordStale(id: Id, q: Target, x: Chance) returns (reply: CoordinatorReply)
      requires Valid() && id in world.jobs && world.jobs[id].phase == NotingStale && world.jobs[id].target == q
      modifies this, intents
      ensures Valid() && old(steps) <= steps && world.jobs == old(world).jobs - {id} && world.store == old(world).store
      ensures IsCompleted(world, q.channel) ==> IsCompleted(old(world), q.channel)
    {
      hide WorldOk, RunWorld, Deactivation.RecordRevisionConflict;
      WritesCompleteNothing(world, ConflictCall(q), q.channel);
      Take(Act(id, x));
      var recorded := intents.RecordRevisionConflict(q);
      reply := ReplyTo(recorded);
    }

    /** A saved result, or the note that the revision has moved on. */
    method Save(id: Id, q: Target, expected: Revision, status: IntentStatus, reason: Option<string>, subject: Option<Id>,
                recovery: Option<Id>, x: Chance) returns (reply: CoordinatorReply)
      requires Valid() && id in world.jobs && world.jobs[id].target == q && Admissible(world, Act(id, x))
      requires NextAct(world, id, x) == Settle(world, id, SaveCall(q, expected, status, reason, subject, recovery))
      requires status != Completed
      modifies this, intents
      ensures Valid() && old(steps) <= steps && world.jobs == old(world).jobs - {id} && world.store == old(world).store
      ensures IsCompleted(world, q.channel) ==> IsCompleted(old(world), q.channel)
    {
      hide WorldOk, RunWorld, NextAct, Deactivation.SaveResult, Admissible, IsCompleted;
      SettleCompletesNothing(world, id, SaveCall(q, expected, status, reason, subject, recovery), q.channel);
      Take(Act(id, x));
      var saved := intents.SaveResult(q, expected, status, reason, subject, recovery);
      if saved == Conflicted(Conflict.StaleChannel) {
        reply := RecordStale(id, q, x);
      } else {
        reply := ReplyTo(saved);
      }
    }

    /** The channel is disabled, or the revision has moved on. */
    method Complete(id: Id, q: Target, expected: Revision, x: Chance) returns (reply: CoordinatorReply)
      requires Valid() && id in world.jobs && world.jobs[id].phase.Decided? && world.jobs[id].phase.assessment == ClearToDisable
      requires VacantIfOwn(world.store, q)
      requires world.jobs[id].target == q && world.jobs[id].expected == expected && Later(intents.Contents(), q, x)
      modifies this, intents
      ensures Valid() && old(steps) <= steps && world.jobs == old(world).jobs - {id} && world.store == old(world).store
      ensures CommitOk(old(world), world, q)
    {
      hide WorldOk, RunWorld, Deactivation.CompleteInactive, Vacant, IsCompleted;
      ghost var before := world;
      Take(Act(id, x));
      if IsCompleted(world, q.channel) && !IsCompleted(before, q.channel) {
        CommitFindsVacancy(before, Act(id, x), q.channel);
      }
      var completed := intents.CompleteInactive(q, expected, x.now);
      if completed == Conflicted(Conflict.StaleChannel) {
        StaleChangesNothing(before.table, q, expected, x.now);
        reply := RecordStale(id, q, x);
      } else {
        reply := ReplyTo(completed);
      }
    }

    /** Writes what an assessment leads to. */
    method ApplyAssessment(id: Id, q: Target, expected: Revision, recovery: Option<Id>, a: Assessment, x: Chance)
      returns (reply: CoordinatorReply)
      requires Valid() && Later(intents.Contents(), q, x)
      requires id in world.jobs && world.jobs[id].phase.Decided? && world.jobs[id].phase.assessment == a && world.jobs[id].target == q
      requires a == ClearToDisable ==> VacantIfOwn(world.store, q)
      requires world.jobs[id].expected == expected && world.jobs[id].recovery == recovery
      requires !(a.UnlinkRequired? && world.jobs[id].allowUnlink)
      modifies this, intents
      ensures Valid() && old(steps) <= steps && world.jobs == old(world).jobs - {id} && world.store == old(world).store
      ensures CommitOk(old(world), world, q)
    {
      hide WorldOk, RunWorld, Settle, NextTable, IsCompleted, Vacant;
      if a == ClearToDisable {
        reply := Complete(id, q, expected, x);
      } else {
        var subject := if a.RecheckRequired? then Some(a.subject) else None;
        reply := Save(id, q, expected, ConfirmationRequired, Some(Reason(a)), subject, recovery, x);
      }
    }

    /** The unlink's own calls, one engine step each. */
    method RunUnlink(q: Target, work: seq<Call>)
      requires Valid()
      requires forall k :: 0 <= k < |work| ==> UnlinkWork(work[k], q.operation, menus.inFlightTimeout)
      modifies this, menus
      ensures Valid() && old(steps) <= steps && ScopeKept(old(menus.Contents()), menus.Contents(), q)
      ensures world.table == old(world).table && world.jobs == old(world).jobs
    {
      hide WorldOk, RunWorld, OccupantsInScope;
      for k := 0 to |work|
        invariant Valid() && old(steps) <= steps && ScopeKept(old(menus.Contents()), menus.Contents(), q)
        invariant world.table == old(world).table && world.jobs == old(world).jobs
      {
        Perform(q, work[k]);
      }
    }

    method Perform(q: Target, call: Call)
      requires Valid() && UnlinkWork(call, q.operation, menus.inFlightTimeout)
      modifies this, menus
      ensures Valid() && old(steps) <= steps && ScopeKept(old(menus.Contents()), menus.Contents(), q)
      ensures world.table == old(world).table && world.jobs == old(world).jobs
    {
      hide WorldOk, RunWorld, OccupantsInScope, Inv, RichMenuSteps.ClaimStage, RichMenuSteps.CompleteStage, RichMenuSteps.FinalizeUnlink;
      WorldStoreOk(world);
      UnlinkWorkKeepsScope(menus.Contents(), call, q, q.operation, menus.inFlightTimeout);
      Take(Engine(call));
      if call.Claim? {
        var reply := menus.ClaimStage(call.id, call.stage, call.now);
      } else if call.Complete? {
        var reply := menus.CompleteStage(call.out, call.fence, call.now);
      } else {
        var reply := menus.FinalizeUnlink(call.resource);
      }
    }

    /** The managed menu is unlinked; only a finished unlink is assessed again, and then not unlinked a second time. */
    method UnlinkAndApply(id: Id, q: Target, expected: Revision, recovery: Option<Id>, proof: Proof, u: UnlinkRun)
      returns (reply: CoordinatorReply)
      requires Valid()
      requires Later(intents.Contents(), q, u.again.decide)
      requires forall k :: 0 <= k < |u.work| ==> UnlinkWork(u.work[k], q.operation, menus.inFlightTimeout)
      requires id in world.jobs && world.jobs[id] == Job(q, expected, recovery, true, ReservingUnlink(proof))
      modifies this, menus, intents
      ensures Valid() && old(steps) <= steps && world.jobs == old(world).jobs - {id}
      ensures ScopeKept(old(menus.Contents()), menus.Contents(), q)
      ensures CommitOk(old(world), world, q)
    {
      hide WorldOk, RunWorld, OccupantsInScope, RichMenuSteps.ReserveDisableUnlink, Settle, Vacant;
      var command := DisableCommand(q.operation, q.channel, q.owner, q.provider, expected, proof);
      ReservationKeepsScope(menus.Contents(), ReserveDisable(command, u.reserve.reference, u.reserve.fence, u.reserve.now), q);
      Take(Act(id, u.reserve));
      var reserved := menus.ReserveDisableUnlink(command, u.reserve.reference, u.reserve.fence, u.reserve.now);
      RunUnlink(q, u.work);
      reply := AfterUnlink(id, q, expected, recovery, u.end, u.again);
    }

    method AfterUnlink(id: Id, q: Target, expected: Revision, recovery: Option<Id>, end: Chance, again: Answers)
      returns (reply: CoordinatorReply)
      requires Valid() && Later(intents.Contents(), q, again.decide)
      requires id in world.jobs && world.jobs[id] == Job(q, expected, recovery, true, AwaitingUnlink)
      modifies this, menus, intents
      ensures Valid() && old(steps) <= steps && world.jobs == old(world).jobs - {id}
      ensures ScopeKept(old(menus.Contents()), menus.Contents(), q)
      ensures CommitOk(old(world), world, q)
    {
      hide WorldOk, RunWorld, OccupantsInScope, Settle, Vacant;
      match end.unlink {
        case UnlinkDone =>
          Take(Act(id, end));
          var a, _ := AssessDisable(id, q, expected, again);
          reply := ApplyAssessment(id, q, expected, recovery, a, again.decide);
        case UnlinkRunning =>
          reply := Save(id, q, expected, Unlinking, None, Some(q.operation), recovery, end);
        case UnlinkEnded(reason, known) =>
          reply := Save(id, q, expected, ConfirmationRequired, Some(reason), if known then Some(q.operation) else None, recovery, end);
      }
    }

    // ---- Requests ----

    method Start(id: Id, q: Target, expected: Revision, x: Answers, u: UnlinkRun) returns (reply: CoordinatorReply)
      requires Valid() && id !in world.jobs
      requires Later(intents.Contents(), q, x.decide) && Later(intents.Contents(), q, u.again.decide)
      requires forall k :: 0 <= k < |u.work| ==> UnlinkWork(u.work[k], q.operation, menus.inFlightTimeout)
      modifies this, menus, intents
      ensures Valid() && old(steps) <= steps && world.jobs == old(world).jobs
      ensures ScopeKept(old(menus.Contents()), menus.Contents(), q)
      ensures CommitOk(old(world), world, q)
    {
      hide WorldOk, RunWorld, OccupantsInScope, Settle, Vacant;
      ghost var before := world;
      var reserved := intents.Reserve(q, expected);
      Take(Begin(id, q, expected));
      ReservationCompletesNothing(before.table, q, expected);
      match reserved {
        case Conflicted(code) => return Declined(code);
        case Reserved(view, replayed) =>
          if replayed {
            return Answered(view);
          }
        case _ => return Aborted;
      }
      reply := AssessAndApply(id, q, expected, x, u);
    }

    /** The first assessment of a new intent, which may unlink the current menu. */
    method AssessAndApply(id: Id, q: Target, expected: Revision, x: Answers, u: UnlinkRun) returns (reply: CoordinatorReply)
      requires Valid()
      requires id in world.jobs && world.jobs[id] == Job(q, expected, None, true, Resolving)
      requires Later(intents.Contents(), q, x.decide) && Later(intents.Contents(), q, u.again.decide)
      requires forall k :: 0 <= k < |u.work| ==> UnlinkWork(u.work[k], q.operation, menus.inFlightTimeout)
      modifies this, menus, intents
      ensures Valid() && old(steps) <= steps && world.jobs == old(world).jobs - {id}
      ensures ScopeKept(old(menus.Contents()), menus.Contents(), q)
      ensures CommitOk(old(world), world, q)
    {
      hide WorldOk, RunWorld, OccupantsInScope, Settle, Vacant;
      var a, _ := AssessDisable(id, q, expected, x);
      if a.UnlinkRequired? {
        Take(Act(id, x.decide));
        reply := UnlinkAndApply(id, q, expected, None, a.proof, u);
      } else {
        reply := ApplyAssessment(id, q, expected, None, a, x.decide);
      }
    }

    /** The second half of a recheck; a subject is reconciled before the state is assessed. */
    method RecoverAndApply(id: Id, q: Target, expected: Revision, recovery: Id, reconciles: bool, recover: Chance, x: Answers)
      returns (reply: CoordinatorReply)
      requires Valid() && Later(intents.Contents(), q, x.decide)
      requires id in world.jobs
      requires world.jobs[id] == Job(q, expected, Some(recovery), false, if reconciles then Recovering else Resolving)
      modifies this, menus, intents
      ensures Valid() && old(steps) <= steps && world.jobs == old(world).jobs - {id}
      ensures ScopeKept(old(menus.Contents()), menus.Contents(), q)
      ensures CommitOk(old(world), world, q)
    {
      hide WorldOk, RunWorld, OccupantsInScope, Settle, Vacant;
      var a;
      ghost var scoped;
      if reconciles {
        Take(Act(id, recover));
      }
      if reconciles && recover.failure.Some? {
        a := Unassessable(recover.failure.value);
      } else {
        a, scoped := AssessDisable(id, q, expected, x);
      }
      reply := ApplyAssessment(id, q, expected, Some(recovery), a, x.decide);
    }

    /** The result of a recheck; `recover` is how the reconciliation of the subject went. */
    method Recheck(id: Id, q: Target, recovery: Id, presented: Revision, recover: Chance, x: Answers)
      returns (reply: CoordinatorReply)
      requires Valid() && id !in world.jobs && Later(intents.Contents(), q, x.decide)
      modifies this, menus, intents
      ensures Valid() && old(steps) <= steps && world.jobs == old(world).jobs
      ensures ScopeKept(old(menus.Contents()), menus.Contents(), q)
      ensures CommitOk(old(world), world, q)
    {
      hide WorldOk, RunWorld, OccupantsInScope, Settle, Vacant;
      if q.channel !in intents.intents || !SameIntent(intents.intents[q.channel], q) {
        return NotFound;
      }
      var current := intents.intents[q.channel];
      if current.status == Completed || (current.recovery == Some(recovery) && current.ready) {
        return Answered(current);
      }
      ghost var before := world;
      var advanced := intents.AdvanceRecheckRevision(q, recovery, presented);
      Take(Resume(id, q, recovery, presented));
      AdvanceCompletesNothing(before.table, q, recovery, presented);
      match advanced {
        case Conflicted(code) => return Declined(code);
        case Locked(view) =>
          reply := RecoverAndApply(id, q, view.expected, recovery, view.subject.Some?, recover, x);
        case _ => return Aborted;
      }
    }
  }

  lemma WorldStoreOk(w: World)
    requires WorldOk(w)
    ensures Inv(w.store)
  {
  }

  lemma StaleChangesNothing(t: Table, q: Target, expected: Revision, now: Time)
    requires CompleteInactive(t, q, expected, now).reply == Conflicted(Conflict.StaleChannel)
    ensures CompleteInactive(t, q, expected, now).table == t
  {
  }

  lemma ReservationCompletesNothing(t: Table, q: Target, expected: Revision)
    ensures var t' := Reserve(t, q, expected).table;
            && t'.channels == t.channels
            && (q.channel in t'.intents && t'.intents[q.channel].status == Completed ==>
                  q.channel in t.intents && t.intents[q.channel].status == Completed)
  {
  }

  lemma AdvanceCompletesNothing(t: Table, q: Target, recovery: Id, presented: Revision)
    ensures var t' := AdvanceRecheckRevision(t, q, recovery, presented).table;
            && t'.channels == t.channels
            && (q.channel in t'.intents && t'.intents[q.channel].status == Completed ==>
                  q.channel in t.intents && t.intents[q.channel].status == Completed)
  {
  }

  function ReplyTo(r: TableReply): CoordinatorReply {
    match r
    case Saved(view) => Answered(view)
    case Done(view, _) => Answered(view)
    case Conflicted(code) => Declined(code)
    case _ => Aborted
  }
}
