/**
 What every repository method asks of a sound store before it does something, and what it then leaves,
 said about the rows and slots a caller can see.
 */
module RichMenuAnswers {
  import opened Wrappers
  import opened RichMenuModel
  import opened RichMenuSteps
  import opened RichMenuInvariant
  import opened RichMenuRuns
  import opened RichMenuStages
  import opened RichMenuRequests
  import opened RichMenuPaths

  // ---- Acceptance ----

  /** An ordinary command in the shape its kind asks for. */
  predicate Orderly(c: Command) {
    && c.provider != "" && Ordinary(c.kind) && c.subject.None?
    && (c.kind == Apply <==> c.target.None?)
    && (c.kind == Apply <==> c.image.Some?)
    && (c.kind == Apply ==> c.usage.Some? && c.configured)
  }

  /** Nothing is under way or in the way in the channel. */
  predicate Free(s: Store, channel: Id) {
    SlotsOf(s, channel).active.None? && SlotsOf(s, channel).blocking.None?
  }

  /** An ordinary operation is accepted exactly in a free channel, on the current menu it names, under a new id and
      with a confirmation never used. */
  lemma AcceptsExactly(s: Store, c: Command, fence: ReferenceFence, allowed: bool, now: Time, candidate: Id)
    requires Inv(s)
    ensures Accept(s, c, fence, allowed, now, candidate).reply.OperationAccepted? <==>
              && Orderly(c) && fence == Locked && allowed
              && c.operation !in s.operations
              && Free(s, c.channel)
              && (c.kind != Apply ==> SlotsOf(s, c.channel).current == c.target)
              && (c.usage.Some? ==> forall id :: id in s.operations ==> s.operations[id].usage != c.usage)
              && (c.kind == Apply ==> candidate !in s.resources)
  {
    if c.channel in s.channels {
      assert SlotsOk(s, c.channel);
    }
  }

  /** It is then the active operation, waiting for its first claim, and an apply has a candidate of its own. */
  lemma AcceptedWaits(s: Store, c: Command, now: Time, candidate: Id)
    requires Accept(s, c, Locked, true, now, candidate).reply.OperationAccepted?
    ensures var s' := Accept(s, c, Locked, true, now, candidate).store;
            && s'.operations.Keys == s.operations.Keys + {c.operation}
            && (forall id :: id in s.operations ==> s'.operations[id] == s.operations[id])
            && var row := s'.operations[c.operation];
            && row.channel == c.channel && row.owner == c.owner && row.provider == c.provider && row.kind == c.kind
            && row.fingerprint == c.fingerprint && row.usage == c.usage && row.revision == c.revision
            && row.subject.None? && row.target == c.target
            && row.status == Status.Accepted && row.stage.None? && row.startedAt.None? && row.completedAt.None?
            && row.result == Code.Accepted && row.acceptedAt == now
            && s'.channels == s.channels[c.channel := SlotsOf(s, c.channel).(active := Some(c.operation))]
            && s'.transitions == s.transitions
            && (if c.kind == Apply
                then s'.resources == s.resources[candidate :=
                       Resource(c.channel, c.operation, None, None, Candidate, c.image.value, None, None)]
                else s'.resources == s.resources)
  {
  }

  /** The same command again is answered with its stored row, another one under its id is refused, and whatever is not
      accepted leaves operations, resources and slots alone. */
  lemma AcceptanceIsIdempotent(s: Store, c: Command, fence: ReferenceFence, allowed: bool, now: Time, candidate: Id)
    ensures var done := Accept(s, c, fence, allowed, now, candidate);
            && (c.WellFormed() && fence == Locked && allowed && c.operation in s.operations ==>
                  done == Outcome(s, if s.operations[c.operation].fingerprint == c.fingerprint
                                     then Replayed(s.operations[c.operation]) else Refused(Conflicting)))
            && (done.reply.Replayed? ==>
                  c.operation in s.operations && s.operations[c.operation].fingerprint == c.fingerprint)
            && (!done.reply.OperationAccepted? ==>
                  && done.store.operations == s.operations && done.store.resources == s.resources
                  && done.store.transitions == s.transitions
                  && forall channel :: SlotsOf(done.store, channel) == SlotsOf(s, channel))
  {
  }

  // ---- A confirmation is used once ----

  ghost predicate UsagesDiffer(s: Store) {
    forall a, b ::
      a in s.operations && b in s.operations && s.operations[a].usage.Some? && s.operations[a].usage == s.operations[b].usage
      ==> a == b
  }

  lemma NewUsageIsNew(s: Store, call: Call, id: Id)
    requires id in Next(s, call).store.operations && id !in s.operations
    requires call.AcceptOperation? || call.AcceptRecoveryOf? || call.ReserveDisable?
    ensures var usage := Next(s, call).store.operations[id].usage;
            usage.Some? ==> forall x :: x in s.operations ==> s.operations[x].usage != usage
    ensures forall x :: x in Next(s, call).store.operations ==> x in s.operations || x == id
  {
    hide LastSequence, RecoveryAdmissible, DisableTarget, HasLifecycle;
  }

  lemma UsageStays(s: Store, call: Call, id: Id)
    requires Inv(s) && id in s.operations && id in Next(s, call).store.operations
    ensures Next(s, call).store.operations[id].usage == s.operations[id].usage
  {
    hide Inv, Next, Purges;
    PurgedRowsAreGone(s, call, id);
    CallMovesRow(s, call, id);
  }

  lemma NextKeepsUsages(s: Store, call: Call)
    requires Inv(s) && UsagesDiffer(s)
    ensures UsagesDiffer(Next(s, call).store)
  {
    hide Inv, Next;
    var s' := Next(s, call).store;
    forall a, b | a in s'.operations && b in s'.operations && s'.operations[a].usage.Some?
                  && s'.operations[a].usage == s'.operations[b].usage
      ensures a == b
    {
      if a in s.operations {
        UsageStays(s, call, a);
      } else {
        RowsAreAsked(s, call, a);
        NewUsageIsNew(s, call, a);
      }
      if b in s.operations {
        UsageStays(s, call, b);
      } else {
        RowsAreAsked(s, call, b);
        NewUsageIsNew(s, call, b);
      }
    }
  }

  /** Over any run, no two operations were accepted on one confirmation. */
  lemma {:induction false} ConfirmationsAreUsedOnce(calls: seq<Call>)
    ensures UsagesDiffer(Run(EMPTY, calls))
  {
    hide Next, Sound, UsagesDiffer;
    if |calls| > 0 {
      ConfirmationsAreUsedOnce(calls[..|calls| - 1]);
      RunKeepsFitting(calls[..|calls| - 1]);
      SoundIsInv(Run(EMPTY, calls[..|calls| - 1]));
      NextKeepsUsages(Run(EMPTY, calls[..|calls| - 1]), calls[|calls| - 1]);
    } else {
      NoUsages();
    }
  }

  lemma NoUsages()
    ensures UsagesDiffer(EMPTY)
  {
  }

  // ---- Recoveries ----

  /** The resource was left over by the subject: its own candidate, or the menu its replacement displaced. */
  predicate LeftOverBy(r: Resource, subject: Id) {
    || (r.lifecycle == Old && r.replacement == Some(subject))
    || ((r.lifecycle == Candidate || r.lifecycle == CleanupDue) && (r.origin == subject || r.replacement == Some(subject)))
  }

  /** A recovery is accepted exactly for the blocker of an idle channel, by the blocker's own owner: a recheck of an
      unknown operation, a cleanup of what a cleanup-required one left over. */
  lemma RecoversExactly(s: Store, c: Command, reference: ReferenceFence, allowed: bool, fence: Fence, now: Time)
    requires Inv(s)
    ensures AcceptRecovery(s, c, reference, allowed, fence, now).reply.RecoveryAccepted? <==>
              && c.provider != "" && (c.kind == Recheck || c.kind == Cleanup) && c.image.None?
              && reference == Locked && allowed && fence == Matched
              && c.operation !in s.operations
              && SlotsOf(s, c.channel).active.None?
              && c.subject.Some? && SlotsOf(s, c.channel).blocking == c.subject && c.subject.value in s.operations
              && s.operations[c.subject.value].owner == c.owner && s.operations[c.subject.value].provider == c.provider
              && (c.kind == Recheck ==>
                    c.target.None? && s.operations[c.subject.value].status == Status.Unknown)
              && (c.kind == Cleanup ==>
                    && s.operations[c.subject.value].status == Status.CleanupRequired
                    && s.operations[c.subject.value].kind != Cleanup
                    && c.target.Some? && c.target.value in s.resources
                    && s.resources[c.target.value].channel == c.channel
                    && LeftOverBy(s.resources[c.target.value], c.subject.value))
  {
    hide LastSequence;
    if c.channel in s.channels {
      assert SlotsOk(s, c.channel);
    }
  }

  /** It is handed out at once and active beside its blocker. */
  lemma RecoveryStarts(s: Store, c: Command, now: Time)
    requires AcceptRecovery(s, c, Locked, true, Matched, now).reply.RecoveryAccepted?
    ensures var s' := AcceptRecovery(s, c, Locked, true, Matched, now).store;
            && s'.operations.Keys == s.operations.Keys + {c.operation}
            && (forall id :: id in s.operations ==> s'.operations[id] == s.operations[id])
            && var row := s'.operations[c.operation];
            && row.channel == c.channel && row.owner == c.owner && row.provider == c.provider && row.kind == c.kind
            && row.fingerprint == c.fingerprint && row.subject == c.subject && row.target == c.target
            && row.status == Status.RecoveryActive && row.stage == Some(Path(c.kind)[0]) && row.startedAt == Some(now)
            && row.acceptedAt == now && row.completedAt.None? && row.usage.None?
            && s'.channels == s.channels[c.channel := SlotsOf(s, c.channel).(active := Some(c.operation))]
            && s'.resources == s.resources
  {
    hide LastSequence;
  }

  lemma RecoveryIsIdempotent(s: Store, c: Command, reference: ReferenceFence, allowed: bool, fence: Fence, now: Time)
    ensures var done := AcceptRecovery(s, c, reference, allowed, fence, now);
            && (c.WellFormed() && RecoveryStage(c.kind).Some? && reference == Locked && allowed && c.operation in s.operations ==>
                  done == Outcome(s, if s.operations[c.operation].fingerprint == c.fingerprint
                                     then Replayed(s.operations[c.operation]) else Refused(Conflicting)))
            && (!done.reply.RecoveryAccepted? ==> done.store == s)
  {
    hide LastSequence;
  }

  /** What a handoff needs: the active recovery of that subject. */
  predicate Hands(s: Store, out: RecoveryOutcome) {
    && Within(s, out.recovery) && s.operations[out.recovery].status == Status.RecoveryActive
    && s.operations[out.recovery].subject == Some(out.subject) && Within(s, out.subject)
  }

  predicate Within(s: Store, id: Id) {
    id in s.operations
  }

  /** The blocker may pass to the cleanup itself, when the menu it was to delete may or may not be gone. */
  predicate BlockerPasses(s: Store, out: RecoveryOutcome)
    requires out.recovery in s.operations && out.subject in s.operations
  {
    && s.operations[out.recovery].kind == Cleanup
    && s.operations[out.subject].status == Status.CleanupRequired && s.operations[out.subject].stage == Some(Cleaning)
    && out.next == Status.CleanupRequired && out.nextStage == Cleaning && out.result == Code.CleanupRequired
  }

  /** A handoff goes through exactly for the active recovery of its subject, with a stale fence always, and otherwise
      with an outcome the subject can take. */
  lemma HandsOffExactly(s: Store, out: RecoveryOutcome, fence: Fence, now: Time)
    requires Inv(s)
    ensures var done := HandoffRecovery(s, out, fence, now);
            && (done.reply.HandedOff? <==>
                  && Hands(s, out)
                  && (fence == Matched ==>
                        if out.blockerMoves then BlockerPasses(s, out) else HandoffAllowed(s.operations[out.subject], out)))
            && (!done.reply.HandedOff? ==> done.store == s)
  {
    hide LastSequence, HandoffAllowed;
    if out.recovery in s.operations {
      assert OperationOk(s, out.recovery) && SlotsOk(s, s.operations[out.recovery].channel);
    }
  }

  /** Only the two operations and the two slots that name them have changed. */
  ghost predicate OnlyHands(s: Store, s': Store, out: RecoveryOutcome) {
    && Hands(s, out) && out.subject in s.operations
    && s'.resources == s.resources && s'.operations.Keys == s.operations.Keys
    && (forall id :: id in s.operations && id != out.recovery && id != out.subject ==> s'.operations[id] == s.operations[id])
    && var channel := s.operations[out.recovery].channel;
    && channel in s'.channels
    && s'.channels == s.channels[channel := SlotsOf(s, channel)
         .(active := s'.channels[channel].active, blocking := s'.channels[channel].blocking)]
  }

  /** Three ends of a handoff: the recovery failed and nothing else moved; the cleanup took its subject's place; or the
      recovery succeeded and its subject is where the recovery found it to be, active again only if it goes on. */
  lemma HandoffOutcomes(s: Store, out: RecoveryOutcome, fence: Fence, now: Time)
    requires Inv(s) && HandoffRecovery(s, out, fence, now).reply.HandedOff?
    ensures var s' := HandoffRecovery(s, out, fence, now).store;
            && OnlyHands(s, s', out)
            && var slots := s'.channels[s.operations[out.recovery].channel];
            && var recovery, subject := s'.operations[out.recovery], s'.operations[out.subject];
            && recovery.startedAt.None?
            && (if fence != Matched then
                  && recovery.status == Status.Failed && recovery.completedAt == Some(now)
                  && recovery.result == (if fence == Stale then Code.StaleChannel else Code.StorageUnavailable)
                  && subject == s.operations[out.subject]
                  && slots.active.None? && slots.blocking == Some(out.subject)
                else if out.blockerMoves then
                  && recovery.status == Status.Unknown
                  && subject.status == Status.CleanupRequired && subject.stage == Some(Cleaning)
                  && slots.active.None? && slots.blocking == Some(out.recovery)
                else
                  && recovery.status == Status.Succeeded && recovery.completedAt == Some(now)
                  && subject.status == out.next && subject.stage == Some(out.nextStage) && subject.result == out.result
                  && subject.startedAt.None?
                  && subject.completedAt == (if out.next == Status.Succeeded || out.next == Status.Failed then Some(now)
                                             else s.operations[out.subject].completedAt)
                  && slots.active == (if out.next == Status.Processing then Some(out.subject) else None)
                  && slots.blocking == (if out.next == Status.CleanupRequired then Some(out.subject) else None))
  {
    hide LastSequence;
    assert OperationOk(s, out.recovery) && SlotsOk(s, s.operations[out.recovery].channel);
  }

  /** A recovery that learned nothing, or failed: it becomes the blocker itself, or leaves its subject in the way. */
  lemma RecoveryEndsExactly(s: Store, id: Id, next: Status, result: Code, now: Time)
    requires Inv(s)
    ensures var done := CompleteRecovery(s, id, next, result, now);
            && (done.reply.Moved? <==>
                  && Within(s, id) && s.operations[id].status == Status.RecoveryActive
                  && (next == Status.Unknown || next == Status.Failed))
            && (!done.reply.Moved? ==> done.store == s)
            && (done.reply.Moved? ==>
                  && id in done.store.operations && s.operations[id].channel in done.store.channels
                  && done.store.operations[id] == s.operations[id].(status := next, startedAt := None, result := result,
                       completedAt := if next == Status.Failed then Some(now) else s.operations[id].completedAt)
                  && done.store.operations == s.operations[id := done.store.operations[id]]
                  && done.store.resources == s.resources
                  && done.store.channels == s.channels[s.operations[id].channel :=
                       SlotsOf(s, s.operations[id].channel).(active := None,
                         blocking := if next == Status.Unknown then Some(id) else s.operations[id].subject)])
  {
    hide LastSequence;
    if id in s.operations {
      assert OperationOk(s, id);
    }
  }

  /** A cleanup ends exactly when the resource it was accepted for is deleted and still ties to its subject, which is
      at its cleaning stage; both are then done with and the channel is free. */
  lemma CleanupEndsExactly(s: Store, id: Id, resource: Id, now: Time)
    requires Inv(s)
    ensures var done := CompleteCleanupRecovery(s, id, resource, now);
            && (done.reply.Moved? <==>
                  && Within(s, id) && s.operations[id].kind == Cleanup && s.operations[id].status == Status.RecoveryActive
                  && s.operations[id].target == Some(resource) && resource in s.resources
                  && s.resources[resource].lifecycle == Deleted
                  && s.operations[id].subject.Some? && Within(s, s.operations[id].subject.value)
                  && var subject := s.operations[id].subject.value;
                  && s.operations[subject].status == Status.CleanupRequired && s.operations[subject].stage == Some(Cleaning)
                  && (s.resources[resource].origin == subject || s.resources[resource].replacement == Some(subject)))
            && (!done.reply.Moved? ==> done.store == s)
            && (done.reply.Moved? ==>
                  && done.store.resources == s.resources
                  && Free(done.store, s.operations[id].channel)
                  && done.store.channels == s.channels[s.operations[id].channel :=
                       SlotsOf(s, s.operations[id].channel).(active := None, blocking := None)]
                  && s.operations[id].subject.Some? && Within(s, s.operations[id].subject.value)
                  && var subject := s.operations[id].subject.value;
                  && done.store.operations == s.operations
                       [subject := s.operations[subject].(status := Status.Succeeded, result := Code.Succeeded, completedAt := Some(now))]
                       [id := s.operations[id].(status := Status.Succeeded, result := Code.Succeeded, completedAt := Some(now), startedAt := None)])
  {
    hide LastSequence;
    if id in s.operations {
      assert OperationOk(s, id) && SlotsOk(s, s.operations[id].channel);
    }
  }

  // ---- Completions ----

  /** The outcome takes the operation on along its path, or ends it as its path allows. */
  predicate Ends(kind: Kind, stage: Stage, next: Status, nextStage: Stage) {
    match next
    case Processing => Follows(kind, stage, nextStage)
    case Succeeded => nextStage == stage && stage == Path(kind)[|Path(kind)| - 1]
    case Failed => nextStage == stage && (kind == Apply ==> stage == Path(kind)[0])
    case Unknown => nextStage == stage && kind != Release
    case CleanupRequired => nextStage == Cleaning && kind == Apply && stage != Path(kind)[0]
    case _ => false
  }

  lemma MovesExactly(kind: Kind, stage: Stage, next: Status, nextStage: Stage)
    requires Ordinary(kind) && stage in Path(kind)
    ensures MayMove(kind, Status.Processing, Some(stage), next, nextStage) <==> Ends(kind, stage, next, nextStage)
  {
    SuccessorsFollowThePath(kind, stage, nextStage);
    OutcomesAlongThePath(kind, stage, next);
  }

  /** A completion is heard exactly while its stage is out: a stale fence makes the operation unknown, a valid outcome
      takes it on, and anything else changes nothing. */
  lemma CompletesExactly(s: Store, out: StageOutcome, fence: Fence, now: Time)
    requires Inv(s) && Within(s, out.operation)
    requires Ordinary(s.operations[out.operation].kind) && out.expected in Path(s.operations[out.operation].kind)
    ensures var op, done := s.operations[out.operation], CompleteStage(s, out, fence, now);
            && (done.reply.Moved? <==>
                  && op.status == Status.Processing && op.stage == Some(out.expected) && op.startedAt.Some?
                  && (fence == Matched ==> Ends(op.kind, out.expected, out.next, out.nextStage)))
            && (!done.reply.Moved? ==> done.store == s)
  {
    hide LastSequence, MayMove, Ends;
    MovesExactly(s.operations[out.operation].kind, out.expected, out.next, out.nextStage);
    assert OperationOk(s, out.operation);
  }

  /** The row after a completion, and who is active and who is in the way. */
  lemma CompletionOutcomes(s: Store, out: StageOutcome, fence: Fence, now: Time)
    requires Inv(s) && CompleteStage(s, out, fence, now).reply.Moved?
    ensures var s' := CompleteStage(s, out, fence, now).store;
            && Within(s, out.operation) && s'.resources == s.resources
            && var op := s.operations[out.operation];
            && var next := if fence == Matched then out.next else Status.Unknown;
            && s'.operations == s.operations[out.operation := op.(
                 status := next,
                 stage := if fence == Matched then Some(out.nextStage) else op.stage,
                 startedAt := None,
                 result := if fence == Matched then out.result else ResponseUnknown,
                 completedAt := if next == Status.Succeeded || next == Status.Failed then Some(now) else op.completedAt)]
            && s'.channels == s.channels[op.channel := SlotsOf(s, op.channel).(
                 active := if next == Status.Processing then Some(out.operation) else None,
                 blocking := if next == Status.Unknown || next == Status.CleanupRequired then Some(out.operation) else None)]
  {
    hide LastSequence;
    assert OperationOk(s, out.operation) && SlotsOk(s, s.operations[out.operation].channel);
  }

  // ---- Disabling ----

  /** Disabling reserves an unlink exactly of the current managed menu of a free channel with nothing left to clean,
      as its own owner saw it when the proof was made. */
  lemma ReservesExactly(s: Store, c: DisableCommand, reference: ReferenceFence, fence: Fence, now: Time)
    requires Inv(s)
    ensures var slots, done := SlotsOf(s, c.channel), ReserveDisableUnlink(s, c, reference, fence, now);
            && (done.reply.DisableReserved? <==>
                  && c.provider != "" && reference == Locked && fence == Matched
                  && c.operation !in s.operations
                  && Free(s, c.channel)
                  && (forall r :: r in s.resources && s.resources[r].channel == c.channel ==> s.resources[r].lifecycle != CleanupDue)
                  && slots.observation.Some? && slots.observation.value.kind == ManagedDefault
                  && slots.current.Some? && slots.current.value in s.resources
                  && s.resources[slots.current.value].origin in s.operations
                  && var origin := s.operations[s.resources[slots.current.value].origin];
                  && origin.owner == c.owner && origin.provider == c.provider
                  && c.proof == Proof(c.channel, c.revision, slots.current.value, slots.observation.value.fingerprint))
            && (done.reply.DisableReplayed? <==>
                  && c.provider != "" && reference == Locked && fence == Matched
                  && c.operation in s.operations && s.operations[c.operation].target.Some?
                  && s.operations[c.operation].fingerprint == DisableUnlink(c.operation, c.proof, c.owner, c.provider))
            && (!done.reply.DisableReserved? ==> done.store == s)
  {
    if c.channel in s.channels {
      assert SlotsOk(s, c.channel);
      var current := s.channels[c.channel].current;
      if current.Some? {
        assert ResourceOk(s, current.value);
      }
    }
  }

  /** The reserved unlink waits for its first claim, on the current menu. */
  lemma ReservedWaits(s: Store, c: DisableCommand, reference: ReferenceFence, fence: Fence, now: Time)
    requires ReserveDisableUnlink(s, c, reference, fence, now).reply.DisableReserved?
    ensures var s' := ReserveDisableUnlink(s, c, reference, fence, now).store;
            && s'.resources == s.resources && s'.transitions == s.transitions
            && s'.operations.Keys == s.operations.Keys + {c.operation}
            && (forall id :: id in s.operations ==> s'.operations[id] == s.operations[id])
            && var row := s'.operations[c.operation];
            && row.channel == c.channel && row.owner == c.owner && row.provider == c.provider && row.kind == Unlink
            && row.target == SlotsOf(s, c.channel).current && row.subject.None? && row.usage.None?
            && row.status == Status.Accepted && row.stage.None? && row.startedAt.None? && row.acceptedAt == now
            && s'.channels == s.channels[c.channel := SlotsOf(s, c.channel).(active := Some(c.operation))]
  {
  }
}
