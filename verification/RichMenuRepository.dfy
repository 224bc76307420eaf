/**
 The repository as the program runs it: rows are fetched, changed field by field and saved. Every
 method is tied to the step function the other modules reason about, so what they prove of the
 steps holds of these methods. The answers of the fences and of the clock are arguments.
 */
module RichMenuRepository {
  import opened Wrappers
  import opened RichMenuModel
  import opened RichMenuSteps

  class DjangoRichMenuRepository {
    var channels: map<Id, Slots>
    var operations: map<Id, Operation>
    var resources: map<Id, Resource>
    var transitions: seq<Transition>
    const inFlightTimeout: nat

    function Contents(): Store
      reads this
    {
      Store(channels, operations, resources, transitions)
    }

    constructor (timeout: nat)
      requires timeout > 0
      ensures Contents() == Store(map[], map[], map[], []) && inFlightTimeout == timeout
    {
      channels, operations, resources, transitions := map[], map[], map[], [];
      inFlightTimeout := timeout;
    }

    /** What a transaction does when it rolls back to where it began. */
    method RollBack(saved: Store)
      modifies this
      ensures Contents() == saved
    {
      channels, operations, resources, transitions :=
        saved.channels, saved.operations, saved.resources, saved.transitions;
    }

    method AppendTransition(id: Id, from: Status, to: Status, stage: Stage, reason: Code)
      modifies `transitions
      ensures transitions ==
              old(transitions) + [Transition(id, LastSequence(old(transitions), id) + 1, from, to, stage, reason)]
    {
      var last := LastSequence(transitions, id);
      transitions := transitions + [Transition(id, last + 1, from, to, stage, reason)];
    }

    // ---- Stages ----

    method MakeUnknown(id: Id) returns (reply: Reply)
      requires id in operations
      modifies this
      ensures RichMenuSteps.MakeUnknown(old(Contents()), id) == Outcome(Contents(), reply)
    {
      var operation := operations[id];
      var state := SlotsOf(Contents(), operation.channel);
      if operation.stage.None? {
        return Raised;
      }
      AppendTransition(id, Status.Processing, Status.Unknown, operation.stage.value, ResponseUnknown);
      operation := operation.(status := Status.Unknown);
      operation := operation.(startedAt := None);
      operation := operation.(result := ResponseUnknown);
      operations := operations[id := operation];
      state := state.(blocking := Some(id));
      state := state.(active := None);
      channels := channels[operation.channel := state];
      reply := Moved(operation);
    }

    method ExpireRecovery(id: Id, now: Time) returns (reply: Reply)
      requires id in operations
      modifies this
      ensures RichMenuSteps.ExpireRecovery(old(Contents()), id, now) == Outcome(Contents(), reply)
    {
      var operation := operations[id];
      var state := SlotsOf(Contents(), operation.channel);
      if operation.stage.None? {
        return Raised;
      }
      var nextStatus := if operation.kind == Recheck then Status.Failed else Status.Unknown;
      AppendTransition(id, Status.RecoveryActive, nextStatus, operation.stage.value, ResponseUnknown);
      operation := operation.(status := nextStatus);
      operation := operation.(startedAt := None);
      operation := operation.(result := ResponseUnknown);
      if nextStatus == Status.Failed {
        operation := operation.(completedAt := Some(now));
      }
      operations := operations[id := operation];
      state := state.(active := None);
      if operation.kind == Cleanup {
        state := state.(blocking := Some(id));
      }
      channels := channels[operation.channel := state];
      reply := Moved(operation);
    }

    method ClaimStage(id: Id, expected: Stage, now: Time) returns (reply: Reply)
      modifies this
      ensures RichMenuSteps.ClaimStage(old(Contents()), id, expected, now, inFlightTimeout) == Outcome(Contents(), reply)
    {
      if id !in operations {
        return StageRefused(OperationNotFound);
      }
      var operation := operations[id];
      var state := SlotsOf(Contents(), operation.channel);
      if operation.startedAt.Some? {
        if now - operation.startedAt.value >= inFlightTimeout {
          if operation.status == Status.RecoveryActive {
            if || operation.stage != Some(expected)
               || operation.subject.None?
               || state.active != Some(id)
               || state.blocking != operation.subject
            {
              return StageRefused(StaleStage);
            }
            reply := ExpireRecovery(id, now);
          } else {
            reply := MakeUnknown(id);
          }
          if reply.Moved? {
            reply := Expired(reply.view);
          }
          return;
        }
        return StageRefused(StageInFlight);
      }
      if operation.status == Status.Accepted {
        if !MayMove(operation.kind, operation.status, operation.stage, Status.Processing, expected) {
          return StageRefused(InvalidTransition);
        }
        AppendTransition(id, operation.status, Status.Processing, expected, Code.Accepted);
        operation := operation.(status := Status.Processing);
        operation := operation.(stage := Some(expected));
      } else if operation.status != Status.Processing || operation.stage != Some(expected) {
        return StageRefused(StaleStage);
      }
      operation := operation.(startedAt := Some(now));
      operations := operations[id := operation];
      if state.active != Some(id) {
        state := state.(active := Some(id));
        channels := channels[operation.channel := state];
      }
      reply := Claimed(operation);
    }

    method CompleteStage(outcome: StageOutcome, fence: Fence, now: Time) returns (reply: Reply)
      modifies this
      ensures RichMenuSteps.CompleteStage(old(Contents()), outcome, fence, now) == Outcome(Contents(), reply)
    {
      var id := outcome.operation;
      if id !in operations {
        return StageRefused(OperationNotFound);
      }
      var operation := operations[id];
      var state := SlotsOf(Contents(), operation.channel);
      if operation.status != Status.Processing || operation.stage != Some(outcome.expected) || operation.startedAt.None? {
        return StageRefused(StaleStage);
      }
      if fence != Matched {
        reply := MakeUnknown(id);
        return;
      }
      if !MayMove(operation.kind, operation.status, operation.stage, outcome.next, outcome.nextStage) {
        return StageRefused(InvalidTransition);
      }
      AppendTransition(id, operation.status, outcome.next, outcome.nextStage, outcome.result);
      operation := operation.(status := outcome.next);
      operation := operation.(stage := Some(outcome.nextStage));
      operation := operation.(startedAt := None);
      operation := operation.(result := outcome.result);
      if outcome.next == Status.Failed || outcome.next == Status.Succeeded {
        operation := operation.(completedAt := Some(now));
        state := state.(active := None);
      } else if outcome.next == Status.Unknown || outcome.next == Status.CleanupRequired {
        state := state.(blocking := Some(id));
        state := state.(active := None);
      }
      operations := operations[id := operation];
      channels := channels[operation.channel := state];
      reply := Moved(operation);
    }

    // ---- Acceptance ----

    method Accept(command: Command, fence: ReferenceFence, allowed: bool, now: Time, candidateId: Id) returns (reply: Reply)
      modifies this
      ensures RichMenuSteps.Accept(old(Contents()), command, fence, allowed, now, candidateId) == Outcome(Contents(), reply)
    {
      if !command.WellFormed() {
        return Raised;
      }
      if fence != Locked {
        return Refused(FenceConflict(fence));
      }
      if !allowed {
        return Refused(InProgress);
      }
      if command.operation in operations {
        var existing := operations[command.operation];
        return if existing.fingerprint != command.fingerprint then Refused(Conflicting) else Replayed(existing);
      }
      var began := Contents();
      var state := SlotsOf(Contents(), command.channel);
      channels := channels[command.channel := state];
      var target := None;
      if command.kind == Unlink || command.kind == Release {
        target := command.target;
        if || target.value !in resources
           || resources[target.value].channel != command.channel
           || resources[target.value].lifecycle != Applied
           || state.current != target
        {
          return Refused(InvalidRelation);
        }
      }
      if command.usage.Some? && UsageTaken(Contents(), command.usage.value) {
        return Refused(ConfirmationUsed);
      }
      if state.active.Some? || state.blocking.Some? {
        return Refused(InProgress);
      }
      if !RelationValid(command.kind, None, target) {
        return Refused(if command.usage.Some? then ConfirmationUsed else Conflicting);
      }
      var operation := AcceptedRow(command, Status.Accepted, None, None, None, target, command.usage, now);
      operations := operations[command.operation := operation];
      var candidate := None;
      if command.kind == Apply {
        if candidateId in resources {
          RollBack(began);
          return Raised;
        }
        resources := resources[candidateId :=
          Resource(command.channel, command.operation, None, None, Candidate, command.image.value, None, None)];
        candidate := Some(candidateId);
      }
      state := state.(active := Some(command.operation));
      channels := channels[command.channel := state];
      reply := OperationAccepted(operation, candidate);
    }

    method AcceptRecovery(command: Command, reference: ReferenceFence, allowed: bool, fence: Fence, now: Time) returns (reply: Reply)
      modifies this
      ensures RichMenuSteps.AcceptRecovery(old(Contents()), command, reference, allowed, fence, now) == Outcome(Contents(), reply)
    {
      if !command.WellFormed() || (command.kind != Recheck && command.kind != Cleanup) {
        return Raised;
      }
      if reference != Locked {
        return Refused(FenceConflict(reference));
      }
      if !allowed {
        return Refused(InProgress);
      }
      if command.operation in operations {
        var existing := operations[command.operation];
        return if existing.fingerprint != command.fingerprint then Refused(Conflicting) else Replayed(existing);
      }
      if command.channel !in channels || channels[command.channel].blocking != command.subject {
        return Refused(InvalidRelation);
      }
      var state := channels[command.channel];
      if state.active.Some? {
        return Refused(InProgress);
      }
      var id := command.subject.value;
      if id !in operations || operations[id].channel != command.channel {
        return Refused(InvalidRelation);
      }
      var subject := operations[id];
      if (subject.status != Status.Unknown && subject.status != Status.CleanupRequired) || id == command.operation {
        return Refused(InvalidRelation);
      }
      if subject.owner != command.owner || subject.provider != command.provider {
        return Refused(InvalidRelation);
      }
      if command.kind == Recheck {
        if subject.status != Status.Unknown {
          return Refused(InvalidRelation);
        }
      } else {
        if subject.status != Status.CleanupRequired || subject.kind == Cleanup {
          return Refused(InvalidRelation);
        }
        if || command.target.value !in resources
           || resources[command.target.value].channel != command.channel
           || !CleanupTargetMatches(resources[command.target.value], id, subject)
        {
          return Refused(InvalidRelation);
        }
      }
      if fence != Matched {
        return Refused(if fence == Stale then StaleRevision else NoStorage);
      }
      var stage := if command.kind == Recheck then Verifying else Cleaning;
      var operation := AcceptedRow(command, Status.RecoveryActive, Some(stage), Some(now), command.subject, command.target, None, now);
      operations := operations[command.operation := operation];
      AppendTransition(command.operation, Status.Accepted, Status.RecoveryActive, stage, Code.Accepted);
      state := state.(active := Some(command.operation));
      channels := channels[command.channel := state];
      reply := RecoveryAccepted(operation);
    }

    method ReserveDisableUnlink(command: DisableCommand, reference: ReferenceFence, fence: Fence, now: Time) returns (reply: Reply)
      modifies this
      ensures RichMenuSteps.ReserveDisableUnlink(old(Contents()), command, reference, fence, now) == Outcome(Contents(), reply)
    {
      if command.provider == "" {
        return Raised;
      }
      if reference != Locked {
        return DisableRefused(DisableUnavailable);
      }
      if fence != Matched {
        return DisableRefused(if fence == Stale then StaleAssessment else DisableUnavailable);
      }
      var fingerprint := DisableUnlink(command.operation, command.proof, command.owner, command.provider);
      if command.operation in operations {
        var existing := operations[command.operation];
        if existing.fingerprint == fingerprint && existing.target.Some? {
          return DisableReplayed(existing, existing.target.value);
        }
        return DisableRefused(StaleAssessment);
      }
      if command.channel !in channels {
        return DisableRefused(DisableUnavailable);
      }
      var state := channels[command.channel];
      if state.active.Some? || state.blocking.Some? {
        return DisableRefused(RecheckFirst);
      }
      if HasLifecycle(Contents(), command.channel, CleanupDue) {
        return DisableRefused(CleanupFirst);
      }
      if state.observation.None? || state.observation.value.kind == ObservationKind.ObservationUnknown {
        return DisableRefused(RecheckFirst);
      }
      if state.observation.value.kind != ManagedDefault || !DisableTarget(Contents(), command, state) {
        return DisableRefused(ForeignDefault);
      }
      var target := state.current.value;
      var proof := Proof(command.channel, command.revision, target, state.observation.value.fingerprint);
      if proof != command.proof {
        return DisableRefused(StaleAssessment);
      }
      var operation := Operation(command.channel, command.owner, command.provider, Unlink, None, Some(target), fingerprint,
                                 None, command.revision, Status.Accepted, None, None, Code.Accepted, now, None);
      operations := operations[command.operation := operation];
      state := state.(active := Some(command.operation));
      channels := channels[command.channel := state];
      reply := DisableReserved(operation, target);
    }

    // ---- Recovery ----

    method RejectStaleRecovery(id: Id, subject: Operation, fence: Fence, now: Time) returns (reply: Reply)
      requires id in operations
      modifies this
      ensures RichMenuSteps.RejectStaleRecovery(old(Contents()), id, subject, fence, now) == Outcome(Contents(), reply)
    {
      var recovery := operations[id];
      var state := SlotsOf(Contents(), recovery.channel);
      var reason := if fence == Stale then Code.StaleChannel else Code.StorageUnavailable;
      if recovery.stage.None? {
        return Raised;
      }
      AppendTransition(id, Status.RecoveryActive, Status.Failed, recovery.stage.value, reason);
      recovery := recovery.(status := Status.Failed);
      recovery := recovery.(result := reason);
      recovery := recovery.(startedAt := None);
      recovery := recovery.(completedAt := Some(now));
      operations := operations[id := recovery];
      state := state.(active := None);
      channels := channels[recovery.channel := state];
      reply := HandedOff(recovery, subject);
    }

    /** The saves that end a handoff, recovery first. */
    method SaveHandoff(out: RecoveryOutcome, recovery: Operation, subject: Operation, state: Slots, from: Status, reason: Code)
      returns (reply: Reply)
      requires recovery.stage.Some?
      modifies this
      ensures var s1 := Logged(old(Contents()), out.recovery, Status.RecoveryActive, recovery, reason);
              subject.stage == Some(out.nextStage) && subject.status == out.next ==>
                && Contents() == SetSlots(Logged(s1, out.subject, from, subject, out.result), recovery.channel, state)
                && reply == HandedOff(recovery, subject)
    {
      AppendTransition(out.recovery, Status.RecoveryActive, recovery.status, recovery.stage.value, reason);
      AppendTransition(out.subject, from, out.next, out.nextStage, out.result);
      operations := operations[out.recovery := recovery];
      operations := operations[out.subject := subject];
      channels := channels[recovery.channel := state];
      reply := HandedOff(recovery, subject);
    }

    method HandoffRecovery(out: RecoveryOutcome, fence: Fence, now: Time) returns (reply: Reply)
      modifies this
      ensures RichMenuSteps.HandoffRecovery(old(Contents()), out, fence, now) == Outcome(Contents(), reply)
    {
      if out.recovery !in operations {
        return StageRefused(OperationNotFound);
      }
      var recovery := operations[out.recovery];
      var state := SlotsOf(Contents(), recovery.channel);
      if || out.subject !in operations
         || operations[out.subject].channel != recovery.channel
         || recovery.subject != Some(out.subject)
         || state.active != Some(out.recovery)
         || state.blocking != Some(out.subject)
         || recovery.status != Status.RecoveryActive
      {
        return StageRefused(StaleStage);
      }
      var subject := operations[out.subject];
      if fence != Matched {
        reply := RejectStaleRecovery(out.recovery, subject, fence, now);
        return;
      }
      if recovery.stage.None? {
        return Raised;
      }
      var from := subject.status;
      if out.blockerMoves {
        if !BlockerMayMove(recovery, subject, out) {
          return StageRefused(InvalidTransition);
        }
        recovery := recovery.(status := Status.Unknown);
        recovery := recovery.(result := ResponseUnknown);
        recovery := recovery.(startedAt := None);
        subject := subject.(status := out.next);
        subject := subject.(stage := Some(out.nextStage));
        subject := subject.(result := out.result);
        state := state.(blocking := Some(out.recovery));
        state := state.(active := None);
        reply := SaveHandoff(out, recovery, subject, state, from, ResponseUnknown);
      } else {
        if !HandoffAllowed(subject, out) {
          return StageRefused(InvalidTransition);
        }
        recovery := recovery.(status := Status.Succeeded);
        recovery := recovery.(result := Code.Succeeded);
        recovery := recovery.(startedAt := None);
        recovery := recovery.(completedAt := Some(now));
        subject := subject.(status := out.next);
        subject := subject.(stage := Some(out.nextStage));
        subject := subject.(startedAt := None);
        subject := subject.(result := out.result);
        if out.next == Status.Succeeded || out.next == Status.Failed {
          subject := subject.(completedAt := Some(now));
          state := state.(active := None);
          state := state.(blocking := None);
        } else if out.next == Status.CleanupRequired {
          state := state.(active := None);
          state := state.(blocking := Some(out.subject));
        } else {
          state := state.(active := Some(out.subject));
          state := state.(blocking := None);
        }
        reply := SaveHandoff(out, recovery, subject, state, from, Code.Succeeded);
      }
    }

    method CompleteRecovery(id: Id, next: Status, result: Code, now: Time) returns (reply: Reply)
      modifies this
      ensures RichMenuSteps.CompleteRecovery(old(Contents()), id, next, result, now) == Outcome(Contents(), reply)
    {
      if id !in operations || operations[id].status != Status.RecoveryActive {
        return StageRefused(StaleStage);
      }
      var operation := operations[id];
      var state := SlotsOf(Contents(), operation.channel);
      if next != Status.Unknown && next != Status.Failed {
        return StageRefused(InvalidTransition);
      }
      if operation.stage.None? {
        return Raised;
      }
      AppendTransition(id, Status.RecoveryActive, next, operation.stage.value, result);
      operation := operation.(status := next);
      operation := operation.(startedAt := None);
      operation := operation.(result := result);
      if next == Status.Failed {
        operation := operation.(completedAt := Some(now));
      }
      state := state.(active := None);
      state := state.(blocking := if next == Status.Unknown then Some(id) else operation.subject);
      operations := operations[id := operation];
      channels := channels[operation.channel := state];
      reply := Moved(operation);
    }

    method CompleteCleanupRecovery(id: Id, resource: Id, now: Time) returns (reply: Reply)
      modifies this
      ensures RichMenuSteps.CompleteCleanupRecovery(old(Contents()), id, resource, now) == Outcome(Contents(), reply)
    {
      hide LastSequence, RelationValid;
      if id !in operations || operations[id].kind != Cleanup || operations[id].status != Status.RecoveryActive {
        return StageRefused(StaleStage);
      }
      var operation := operations[id];
      if || resource !in resources
         || resources[resource].channel != operation.channel
         || resources[resource].lifecycle != Deleted
         || !CleanupCompletes(Contents(), operation, id, resource)
      {
        return StageRefused(InvalidTransition);
      }
      var state := SlotsOf(Contents(), operation.channel);
      var subjectId := operation.subject.value;
      var subject := operations[subjectId];
      AppendTransition(subjectId, Status.CleanupRequired, Status.Succeeded, Cleaning, Code.Succeeded);
      subject := subject.(status := Status.Succeeded);
      subject := subject.(result := Code.Succeeded);
      subject := subject.(completedAt := Some(now));
      operations := operations[subjectId := subject];
      AppendTransition(id, Status.RecoveryActive, Status.Succeeded, Cleaning, Code.Succeeded);
      operation := operation.(status := Status.Succeeded);
      operation := operation.(startedAt := None);
      operation := operation.(result := Code.Succeeded);
      operation := operation.(completedAt := Some(now));
      operations := operations[id := operation];
      if state.active == Some(id) {
        state := state.(active := None);
      }
      if state.blocking == Some(id) || state.blocking == operation.subject {
        state := state.(blocking := None);
      }
      channels := channels[operation.channel := state];
      reply := Moved(operation);
    }

    // ---- Resources ----

    method RecordReplacement(operation: Id, newId: Id, oldId: Id, fence: Fence) returns (reply: Reply)
      modifies this
      ensures RichMenuSteps.RecordReplacement(old(Contents()), operation, newId, oldId, fence) == Outcome(Contents(), reply)
    {
      if newId == oldId || operation !in operations {
        return Refused(InvalidRelation);
      }
      var channel := operations[operation].channel;
      var state := SlotsOf(Contents(), channel);
      if || !VerifyingApply(Contents(), operation)
         || state.current != Some(oldId)
         || newId !in resources || resources[newId].channel != channel
         || oldId !in resources || resources[oldId].channel != channel
         || resources[newId].origin != operation
         || resources[newId].lifecycle != Candidate
         || resources[oldId].lifecycle != Applied
         || resources[oldId].replacement.Some?
      {
        return Refused(InvalidRelation);
      }
      if fence != Matched {
        return Refused(if fence == Stale then StaleRevision else NoStorage);
      }
      if Replaces(Contents(), operation) {
        return Refused(InvalidRelation);
      }
      var newResource, oldResource := resources[newId], resources[oldId];
      newResource := newResource.(lifecycle := Applied);
      resources := resources[newId := newResource];
      oldResource := oldResource.(lifecycle := Old);
      oldResource := oldResource.(replacement := Some(operation));
      resources := resources[oldId := oldResource];
      state := state.(current := Some(newId));
      channels := channels[channel := state];
      reply := Answer(true);
    }

    method FinalizeApply(operation: Id, candidate: Id, fence: Fence) returns (reply: Reply)
      modifies this
      ensures RichMenuSteps.FinalizeApply(old(Contents()), operation, candidate, fence) == Outcome(Contents(), reply)
    {
      if operation !in operations {
        return Raised;
      }
      var channel := operations[operation].channel;
      var state := SlotsOf(Contents(), channel);
      if || !VerifyingApply(Contents(), operation)
         || candidate !in resources
         || resources[candidate].channel != channel
         || resources[candidate].origin != operation
         || resources[candidate].lifecycle != Candidate
         || resources[candidate].lineId.None?
      {
        return Refused(InvalidRelation);
      }
      if state.current.None? {
        var resource := resources[candidate];
        resource := resource.(lifecycle := Applied);
        resources := resources[candidate := resource];
        state := state.(current := Some(candidate));
        channels := channels[channel := state];
        return Answer(true);
      }
      var current := state.current.value;
      if current == candidate || (current in resources && resources[current].lifecycle != Applied) {
        return Refused(InvalidRelation);
      }
      reply := RecordReplacement(operation, candidate, current, fence);
    }

    method CompleteApply(operation: Id, candidate: Id, replaceFence: Fence, stageFence: Fence, now: Time) returns (reply: Reply)
      modifies this
      ensures RichMenuSteps.CompleteApply(old(Contents()), operation, candidate, replaceFence, stageFence, now)
              == Outcome(Contents(), reply)
    {
      var began := Contents();
      var finalized := FinalizeApply(operation, candidate, replaceFence);
      if finalized != Answer(true) {
        RollBack(began);
        return Raised;
      }
      var hasOld := ReplacedOld(Contents(), operation);
      var next := if hasOld then Status.CleanupRequired else Status.Succeeded;
      reply := CompleteStage(
        StageOutcome(operation, Verifying, next,
                     if hasOld then Cleaning else Verifying,
                     if hasOld then Code.CleanupRequired else Code.Succeeded),
        stageFence, now);
      if !reply.Moved? || reply.view.status != next {
        RollBack(began);
        reply := StageRefused(StaleStage);
      }
    }

    method CompleteApplyRecovery(recovery: Id, candidate: Id, handoffFence: Fence, replaceFence: Fence, stageFence: Fence,
                                 now: Time) returns (reply: Reply)
      modifies this
      ensures RichMenuSteps.CompleteApplyRecovery(old(Contents()), recovery, candidate, handoffFence, replaceFence,
                                                  stageFence, now, inFlightTimeout) == Outcome(Contents(), reply)
    {
      var began := Contents();
      if !ApplyRecoverable(Contents(), recovery, candidate) {
        return StageRefused(InvalidTransition);
      }
      var subject := operations[recovery].subject.value;
      var handoff := HandoffRecovery(
        RecoveryOutcome(recovery, subject, Status.Processing, Verifying, Code.Accepted, false), handoffFence, now);
      if !handoff.HandedOff? {
        return handoff;
      }
      if handoff.recovery.status != Status.Succeeded {
        return Moved(handoff.recovery);
      }
      var claim := ClaimStage(subject, Verifying, now);
      if !claim.Claimed? {
        RollBack(began);
        return StageRefused(StaleStage);
      }
      var completed := CompleteApply(subject, candidate, replaceFence, stageFence, now);
      if !completed.Moved? {
        RollBack(began);
        return completed;
      }
      reply := Moved(handoff.recovery);
    }

    /** Frees the current slot when it points at the resource. */
    method ClearCurrent(channel: Id, resource: Id)
      modifies `channels
      ensures Contents() == RichMenuSteps.ClearCurrent(old(Contents()), channel, resource)
    {
      var state := SlotsOf(Contents(), channel);
      if state.current == Some(resource) {
        state := state.(current := None);
        channels := channels[channel := state];
      }
    }

    method MarkResourceCleanupRequired(id: Id) returns (reply: Reply)
      modifies this
      ensures RichMenuSteps.MarkCleanupRequired(old(Contents()), id) == Outcome(Contents(), reply)
    {
      if id !in resources {
        return Refused(InvalidRelation);
      }
      var resource := resources[id];
      if resource.lifecycle == CleanupDue {
        return Answer(true);
      }
      if (resource.lifecycle, CleanupDue) !in RESOURCE_EDGES {
        return Refused(InvalidRelation);
      }
      resource := resource.(lifecycle := CleanupDue);
      resources := resources[id := resource];
      ClearCurrent(resource.channel, id);
      reply := Answer(true);
    }

    method DiscardCandidate(id: Id, now: Time) returns (reply: Reply)
      modifies this
      ensures RichMenuSteps.DiscardCandidate(old(Contents()), id, now) == Outcome(Contents(), reply)
    {
      if id !in resources || resources[id].lifecycle != Candidate || resources[id].lineId.Some? {
        return Refused(InvalidRelation);
      }
      var resource := resources[id];
      resource := resource.(lifecycle := Deleted);
      resource := resource.(deletedAt := Some(now));
      resources := resources[id := resource];
      reply := Answer(true);
    }

    method FinalizeUnlink(id: Id) returns (reply: Reply)
      modifies this
      ensures RichMenuSteps.FinalizeUnlink(old(Contents()), id) == Outcome(Contents(), reply)
    {
      if id !in resources || resources[id].lifecycle != Applied {
        return Refused(InvalidRelation);
      }
      var resource := resources[id];
      resource := resource.(lifecycle := CleanupDue);
      resources := resources[id := resource];
      ClearCurrent(resource.channel, id);
      reply := Answer(true);
    }

    method FinalizeRelease(id: Id, now: Time) returns (reply: Reply)
      modifies this
      ensures RichMenuSteps.FinalizeRelease(old(Contents()), id, now) == Outcome(Contents(), reply)
    {
      if id !in resources || resources[id].lifecycle != Applied {
        return Refused(InvalidRelation);
      }
      var resource := resources[id];
      resource := resource.(lifecycle := Released);
      resource := resource.(releasedAt := Some(now));
      resources := resources[id := resource];
      ClearCurrent(resource.channel, id);
      reply := Answer(true);
    }

    method FinalizeDeleted(id: Id, now: Time) returns (reply: Reply)
      modifies this
      ensures RichMenuSteps.FinalizeDeleted(old(Contents()), id, now) == Outcome(Contents(), reply)
    {
      if id !in resources || SlotsOf(Contents(), resources[id].channel).current == Some(id) {
        return Refused(InvalidRelation);
      }
      var resource := resources[id];
      if resource.lifecycle !in {Candidate, Old, CleanupDue} {
        return Refused(InvalidRelation);
      }
      resource := resource.(lifecycle := Deleted);
      resource := resource.(deletedAt := Some(now));
      resources := resources[id := resource];
      reply := Answer(true);
    }

    method BindLineId(id: Id, lineId: string) returns (reply: Reply)
      modifies this
      ensures RichMenuSteps.BindLineId(old(Contents()), id, lineId) == Outcome(Contents(), reply)
    {
      if lineId == "" {
        return Raised;
      }
      if id !in resources {
        return Answer(false);
      }
      var resource := resources[id];
      if resource.lineId.Some? {
        return Answer(resource.lineId == Some(lineId));
      }
      if LineIdTaken(Contents(), lineId) {
        return Answer(false);
      }
      resource := resource.(lineId := Some(lineId));
      resources := resources[id := resource];
      reply := Answer(true);
    }

    method RecordObservation(channel: Id, owner: Id, provider: string, observation: Observation, managed: Option<Id>)
      returns (reply: Reply)
      modifies this
      ensures RichMenuSteps.RecordObservation(old(Contents()), channel, owner, provider, observation, managed)
              == Outcome(Contents(), reply)
    {
      var state := SlotsOf(Contents(), channel);
      channels := channels[channel := state];
      if managed.Some? {
        var id := managed.value;
        if || id !in resources
           || resources[id].channel != channel
           || resources[id].origin !in operations
           || operations[resources[id].origin].owner != owner
           || operations[resources[id].origin].provider != provider
        {
          return Answer(false);
        }
      }
      state := state.(observation := Some(observation));
      channels := channels[channel := state];
      reply := Answer(true);
    }

    /** Removes a finished channel with its operations, resources and transitions. */
    method PurgeHistory(channel: Id, reference: ReferenceFence, stored: bool) returns (reply: Reply)
      modifies this
      ensures RichMenuSteps.PurgeHistory(old(Contents()), channel, reference, stored) == Outcome(Contents(), reply)
    {
      if reference != Locked || channel !in channels || ChannelReferenced(Contents(), channel) {
        return Answer(false);
      }
      var began := Contents();
      var gone := set id | id in operations && operations[id].channel == channel;
      var state := channels[channel];
      state := state.(blocking := None);
      state := state.(active := None);
      state := state.(current := None);
      channels := channels[channel := state];
      resources := map r | r in resources && resources[r].channel != channel :: resources[r];
      transitions := WithoutOperations(transitions, gone);
      operations := operations - gone;
      if !stored {
        RollBack(began);
        return Answer(false);
      }
      channels := channels - {channel};
      reply := Answer(true);
    }
  }
}
