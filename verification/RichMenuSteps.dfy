/** Every mutating repository method as one atomic step: old store to new store and reply. */
module RichMenuSteps {
  import opened Wrappers
  import opened RichMenuModel

  datatype Fence = Matched | Stale | Unavailable
  datatype ReferenceFence = Locked | ChannelNotFound | LockRetryable | LockUnavailable

  datatype StageReason = OperationNotFound | StageInFlight | StaleStage | InvalidTransition

  datatype ConflictReason =
    | Conflicting | InProgress | ConfirmationUsed | NoChannel | Retryable | NoStorage
    | InvalidRelation | StaleRevision

  datatype DisableReason =
    | StaleAssessment | ForeignDefault | RecheckFirst | CleanupFirst | DisableUnavailable

  datatype StageOutcome = StageOutcome(
    operation: Id, expected: Stage, next: Status, nextStage: Stage, result: Code)

  datatype RecoveryOutcome = RecoveryOutcome(
    recovery: Id,
    subject: Id,
    next: Status,
    nextStage: Stage,
    result: Code,
    blockerMoves: bool)

  datatype Command = Command(
    operation: Id,
    channel: Id,
    owner: Id,
    provider: string,
    revision: Revision,
    kind: Kind,
    subject: Option<Id>,
    target: Option<Id>,
    fingerprint: Fingerprint,
    usage: Option<Digest>,
    configured: bool,
    image: Option<Digest>)
  {
    /** The checks made while the command object is built. */
    predicate WellFormed() {
      && provider != ""
      && RelationValid(kind, subject, target)
      && (if kind == Apply then usage.Some? && configured && image.Some? else image.None?)
    }
  }

  datatype DisableCommand = DisableCommand(
    operation: Id, channel: Id, owner: Id, provider: string, revision: Revision, proof: Proof)

  /** A reply carries the views the caller receives; `Raised` is an exception that rolled back. */
  datatype Reply =
    | Claimed(view: Operation)
    | Expired(view: Operation)
    | StageRefused(stageReason: StageReason)
    | Moved(view: Operation)
    | HandedOff(recovery: Operation, subject: Operation)
    | OperationAccepted(view: Operation, candidate: Option<Id>)
    | RecoveryAccepted(view: Operation)
    | Replayed(view: Operation)
    | Refused(reason: ConflictReason)
    | DisableReserved(view: Operation, target: Id)
    | DisableReplayed(view: Operation, target: Id)
    | DisableRefused(disableReason: DisableReason)
    | Answer(ok: bool)
    | Raised

  datatype Outcome = Outcome(store: Store, reply: Reply)

  /** The relation columns a kind may carry; also a database check constraint. */
  predicate RelationValid(kind: Kind, subject: Option<Id>, target: Option<Id>) {
    match kind
    case Apply => subject.None? && target.None?
    case Unlink => subject.None? && target.Some?
    case Release => subject.None? && target.Some?
    case Recheck => subject.Some? && target.None?
    case Cleanup => subject.Some? && target.Some?
  }

  function SetSlots(s: Store, channel: Id, slots: Slots): Store {
    s.(channels := s.channels[channel := slots])
  }

  function SetOperation(s: Store, id: Id, operation: Operation): Store {
    s.(operations := s.operations[id := operation])
  }

  function SetResource(s: Store, id: Id, resource: Resource): Store {
    s.(resources := s.resources[id := resource])
  }

  /** Saves the operation and appends its transition row. */
  function Logged(s: Store, id: Id, from: Status, operation: Operation, reason: Code): Store
    requires operation.stage.Some?
  {
    var row := Transition(id, LastSequence(s.transitions, id) + 1, from,
                          operation.status, operation.stage.value, reason);
    SetOperation(s, id, operation).(transitions := s.transitions + [row])
  }

  // ---- Stages ----

  function MakeUnknown(s: Store, id: Id): Outcome
    requires id in s.operations
  {
    var op := s.operations[id];
    if op.stage.None? then Outcome(s, Raised)
    else
      var op' := op.(status := Status.Unknown, startedAt := None, result := ResponseUnknown);
      var slots := SlotsOf(s, op.channel).(blocking := Some(id), active := None);
      Outcome(SetSlots(Logged(s, id, Status.Processing, op', ResponseUnknown), op.channel, slots), Moved(op'))
  }

  function ExpireRecovery(s: Store, id: Id, now: Time): Outcome
    requires id in s.operations
  {
    var op := s.operations[id];
    if op.stage.None? then Outcome(s, Raised)
    else
      var op' := op.(
        status := if op.kind == Recheck then Status.Failed else Status.Unknown,
        startedAt := None,
        result := ResponseUnknown,
        completedAt := if op.kind == Recheck then Some(now) else op.completedAt);
      var slots := SlotsOf(s, op.channel);
      var slots' := slots.(
        active := None,
        blocking := if op.kind == Cleanup then Some(id) else slots.blocking);
      Outcome(SetSlots(Logged(s, id, Status.RecoveryActive, op', ResponseUnknown), op.channel, slots'), Moved(op'))
  }

  function AsExpired(o: Outcome): Outcome {
    if o.reply.Moved? then Outcome(o.store, Expired(o.reply.view)) else o
  }

  function Activate(s: Store, channel: Id, id: Id): Store {
    var slots := SlotsOf(s, channel);
    if slots.active == Some(id) then s else SetSlots(s, channel, slots.(active := Some(id)))
  }

  function ClaimStage(s: Store, id: Id, expected: Stage, now: Time, timeout: nat): Outcome {
    if id !in s.operations then Outcome(s, StageRefused(OperationNotFound)) else
    var op := s.operations[id];
    var slots := SlotsOf(s, op.channel);
    if op.startedAt.Some? then
      if now - op.startedAt.value < timeout then Outcome(s, StageRefused(StageInFlight))
      else if op.status == Status.RecoveryActive then
        if op.stage != Some(expected) || op.subject.None? || slots.active != Some(id) || slots.blocking != op.subject
        then Outcome(s, StageRefused(StaleStage))
        else AsExpired(ExpireRecovery(s, id, now))
      else AsExpired(MakeUnknown(s, id))
    else if op.status == Status.Accepted then
      if !MayMove(op.kind, op.status, op.stage, Status.Processing, expected)
      then Outcome(s, StageRefused(InvalidTransition))
      else
        var op' := op.(status := Status.Processing, stage := Some(expected), startedAt := Some(now));
        Outcome(Activate(Logged(s, id, op.status, op', Code.Accepted), op.channel, id), Claimed(op'))
    else if op.status == Status.Processing && op.stage == Some(expected) then
      var op' := op.(startedAt := Some(now));
      Outcome(Activate(SetOperation(s, id, op'), op.channel, id), Claimed(op'))
    else Outcome(s, StageRefused(StaleStage))
  }

  function CompleteStage(s: Store, out: StageOutcome, fence: Fence, now: Time): Outcome {
    if out.operation !in s.operations then Outcome(s, StageRefused(OperationNotFound)) else
    var op := s.operations[out.operation];
    if op.status != Status.Processing || op.stage != Some(out.expected) || op.startedAt.None?
    then Outcome(s, StageRefused(StaleStage))
    else if fence != Matched then MakeUnknown(s, out.operation)
    else if !MayMove(op.kind, op.status, op.stage, out.next, out.nextStage)
    then Outcome(s, StageRefused(InvalidTransition))
    else
      var op' := op.(
        status := out.next,
        stage := Some(out.nextStage),
        startedAt := None,
        result := out.result,
        completedAt := if Terminal(out.next) then Some(now) else op.completedAt);
      var slots := SlotsOf(s, op.channel);
      var slots' :=
        if Terminal(out.next) then slots.(active := None)
        else if out.next == Status.Unknown || out.next == Status.CleanupRequired
        then slots.(blocking := Some(out.operation), active := None)
        else slots;
      Outcome(SetSlots(Logged(s, out.operation, op.status, op', out.result), op.channel, slots'), Moved(op'))
  }

  // ---- Acceptance ----

  function FenceConflict(fence: ReferenceFence): ConflictReason
    requires fence != Locked
  {
    match fence
    case ChannelNotFound => NoChannel
    case LockRetryable => Retryable
    case LockUnavailable => NoStorage
  }

  predicate UsageTaken(s: Store, usage: Digest) {
    exists id :: id in s.operations && s.operations[id].usage == Some(usage)
  }

  /** The row an accepted command becomes. */
  function AcceptedRow(c: Command, status: Status, stage: Option<Stage>, startedAt: Option<Time>,
                       subject: Option<Id>, target: Option<Id>, usage: Option<Digest>, now: Time): Operation {
    Operation(c.channel, c.owner, c.provider, c.kind, subject, target, c.fingerprint, usage, c.revision,
              status, stage, startedAt, Code.Accepted, now, None)
  }

  /** `candidateId` is the new candidate's id; a collision breaks the primary key and raises. */
  function Accept(s: Store, c: Command, fence: ReferenceFence, allowed: bool, now: Time, candidateId: Id): Outcome {
    if !c.WellFormed() then Outcome(s, Raised)
    else if fence != Locked then Outcome(s, Refused(FenceConflict(fence)))
    else if !allowed then Outcome(s, Refused(InProgress))
    else if c.operation in s.operations then
      if s.operations[c.operation].fingerprint != c.fingerprint then Outcome(s, Refused(Conflicting))
      else Outcome(s, Replayed(s.operations[c.operation]))
    else
      var slots := SlotsOf(s, c.channel);
      var s0 := SetSlots(s, c.channel, slots);
      var targeted := c.kind == Unlink || c.kind == Release;
      if targeted && !(c.target.value in s.resources
                       && s.resources[c.target.value].channel == c.channel
                       && s.resources[c.target.value].lifecycle == Applied
                       && slots.current == c.target)
      then Outcome(s0, Refused(InvalidRelation))
      else if c.usage.Some? && UsageTaken(s, c.usage.value) then Outcome(s0, Refused(ConfirmationUsed))
      else if slots.active.Some? || slots.blocking.Some? then Outcome(s0, Refused(InProgress))
      else
        // Only the ordinary relations are saved here, so a recovery kind breaks the check constraint.
        var target := if targeted then c.target else None;
        if !RelationValid(c.kind, None, target)
        then Outcome(s0, Refused(if c.usage.Some? then ConfirmationUsed else Conflicting))
        else
          var op := AcceptedRow(c, Status.Accepted, None, None, None, target, c.usage, now);
          var s1 := SetOperation(s0, c.operation, op);
          var s2 := SetSlots(s1, c.channel, slots.(active := Some(c.operation)));
          if c.kind != Apply then Outcome(s2, OperationAccepted(op, None))
          else if candidateId in s.resources then Outcome(s, Raised)
          else
            var candidate := Resource(c.channel, c.operation, None, None, Candidate, c.image.value, None, None);
            Outcome(SetResource(s2, candidateId, candidate), OperationAccepted(op, Some(candidateId)))
  }

  function CleanupTargetMatches(target: Resource, subjectId: Id, subject: Operation): bool {
    && target.channel == subject.channel
    && target.lifecycle in {Candidate, Old, CleanupDue}
    && (target.origin == subjectId || target.replacement == Some(subjectId))
    && (target.lifecycle == Old ==> target.replacement == Some(subjectId))
  }

  /** The subject, blocker and target conditions of recovery acceptance. */
  predicate RecoveryAdmissible(s: Store, c: Command)
    requires c.WellFormed() && RecoveryStage(c.kind).Some?
  {
    var id := c.subject.value;
    && id in s.operations
    && var subject := s.operations[id];
    && subject.channel == c.channel
    && id != c.operation
    && subject.owner == c.owner
    && subject.provider == c.provider
    && (if c.kind == Recheck then subject.status == Status.Unknown
        else
          && subject.status == Status.CleanupRequired
          && subject.kind != Cleanup
          && c.target.value in s.resources
          && s.resources[c.target.value].channel == c.channel
          && CleanupTargetMatches(s.resources[c.target.value], id, subject))
  }

  function AcceptRecovery(s: Store, c: Command, reference: ReferenceFence, allowed: bool, fence: Fence, now: Time): Outcome {
    if !c.WellFormed() || RecoveryStage(c.kind).None? then Outcome(s, Raised)
    else if reference != Locked then Outcome(s, Refused(FenceConflict(reference)))
    else if !allowed then Outcome(s, Refused(InProgress))
    else if c.operation in s.operations then
      if s.operations[c.operation].fingerprint != c.fingerprint then Outcome(s, Refused(Conflicting))
      else Outcome(s, Replayed(s.operations[c.operation]))
    else
      var slots := SlotsOf(s, c.channel);
      if c.channel !in s.channels || slots.blocking != c.subject then Outcome(s, Refused(InvalidRelation))
      else if slots.active.Some? then Outcome(s, Refused(InProgress))
      else if !RecoveryAdmissible(s, c) then Outcome(s, Refused(InvalidRelation))
      else if fence != Matched then Outcome(s, Refused(if fence == Stale then StaleRevision else NoStorage))
      else
        var op := AcceptedRow(c, Status.RecoveryActive, RecoveryStage(c.kind), Some(now), c.subject, c.target, None, now);
        var s1 := Logged(s, c.operation, Status.Accepted, op, Code.Accepted);
        Outcome(SetSlots(s1, c.channel, slots.(active := Some(c.operation))), RecoveryAccepted(op))
  }

  /** The managed current resource a disable unlink may target. */
  predicate DisableTarget(s: Store, c: DisableCommand, slots: Slots) {
    && slots.current.Some?
    && slots.current.value in s.resources
    && var r := s.resources[slots.current.value];
    && r.channel == c.channel
    && r.lifecycle == Applied
    && r.origin in s.operations
    && s.operations[r.origin].owner == c.owner
    && s.operations[r.origin].provider == c.provider
  }

  predicate HasLifecycle(s: Store, channel: Id, lifecycle: Lifecycle) {
    exists r :: r in s.resources && s.resources[r].channel == channel && s.resources[r].lifecycle == lifecycle
  }

  function ReserveDisableUnlink(s: Store, c: DisableCommand, reference: ReferenceFence, fence: Fence, now: Time): Outcome {
    if c.provider == "" then Outcome(s, Raised)
    else if reference != Locked then Outcome(s, DisableRefused(DisableUnavailable))
    else if fence != Matched
    then Outcome(s, DisableRefused(if fence == Stale then StaleAssessment else DisableUnavailable))
    else
      var fingerprint := DisableUnlink(c.operation, c.proof, c.owner, c.provider);
      if c.operation in s.operations then
        var existing := s.operations[c.operation];
        if existing.fingerprint == fingerprint && existing.target.Some?
        then Outcome(s, DisableReplayed(existing, existing.target.value))
        else Outcome(s, DisableRefused(StaleAssessment))
      else if c.channel !in s.channels then Outcome(s, DisableRefused(DisableUnavailable))
      else
        var slots := s.channels[c.channel];
        if slots.active.Some? || slots.blocking.Some? then Outcome(s, DisableRefused(RecheckFirst))
        else if HasLifecycle(s, c.channel, CleanupDue) then Outcome(s, DisableRefused(CleanupFirst))
        else if slots.observation.None? || slots.observation.value.kind == ObservationKind.ObservationUnknown
        then Outcome(s, DisableRefused(RecheckFirst))
        else if slots.observation.value.kind != ManagedDefault || !DisableTarget(s, c, slots)
        then Outcome(s, DisableRefused(ForeignDefault))
        else if Proof(c.channel, c.revision, slots.current.value, slots.observation.value.fingerprint) != c.proof
        then Outcome(s, DisableRefused(StaleAssessment))
        else
          var op := Operation(c.channel, c.owner, c.provider, Unlink, None, slots.current, fingerprint, None,
                              c.revision, Status.Accepted, None, None, Code.Accepted, now, None);
          Outcome(SetSlots(SetOperation(s, c.operation, op), c.channel, slots.(active := Some(c.operation))),
                  DisableReserved(op, slots.current.value))
  }

  // ---- Recovery ----

  predicate HandoffAllowed(subject: Operation, out: RecoveryOutcome) {
    && (subject.status == Status.Unknown || subject.status == Status.CleanupRequired)
    && subject.stage.Some?
    && var stage := subject.stage.value;
    match out.next
    case Succeeded => out.nextStage == stage
    case Failed => out.nextStage == stage
    case CleanupRequired =>
      && subject.kind == Apply
      && stage in {Creating, Uploading}
      && out.nextStage == Cleaning
      && out.result == Code.CleanupRequired
    case Processing => RecheckSuccessor(stage) == Some(out.nextStage)
    case _ => false
  }

  function RecheckSuccessor(stage: Stage): Option<Stage> {
    match stage
    case Creating => Some(Uploading)
    case Uploading => Some(SettingDefault)
    case SettingDefault => Some(Verifying)
    case ClearingDefault => Some(Verifying)
    case Cleaning => Some(Cleaning)
    case Verifying => Some(Verifying)
    case LocalRelease => None
  }

  predicate BlockerMayMove(recovery: Operation, subject: Operation, out: RecoveryOutcome) {
    && recovery.kind == Cleanup
    && subject.status == Status.CleanupRequired
    && subject.stage == Some(Cleaning)
    && out.next == Status.CleanupRequired
    && out.nextStage == Cleaning
    && out.result == Code.CleanupRequired
  }

  function RejectStaleRecovery(s: Store, id: Id, subject: Operation, fence: Fence, now: Time): Outcome
    requires id in s.operations
  {
    var recovery := s.operations[id];
    if recovery.stage.None? then Outcome(s, Raised)
    else
      var reason := if fence == Stale then Code.StaleChannel else Code.StorageUnavailable;
      var recovery' := recovery.(
        status := Status.Failed, result := reason, startedAt := None, completedAt := Some(now));
      var slots := SlotsOf(s, recovery.channel).(active := None);
      Outcome(SetSlots(Logged(s, id, Status.RecoveryActive, recovery', reason), recovery.channel, slots),
              HandedOff(recovery', subject))
  }

  /** The recovery itself becomes the blocker and leaves its subject behind. */
  function MoveBlocker(s: Store, out: RecoveryOutcome): Outcome
    requires out.recovery in s.operations && out.subject in s.operations
    requires s.operations[out.recovery].stage.Some?
  {
    var recovery, subject := s.operations[out.recovery], s.operations[out.subject];
    var recovery' := recovery.(status := Status.Unknown, result := ResponseUnknown, startedAt := None);
    var subject' := subject.(status := out.next, stage := Some(out.nextStage), result := out.result);
    var s1 := Logged(s, out.recovery, Status.RecoveryActive, recovery', ResponseUnknown);
    var s2 := Logged(s1, out.subject, subject.status, subject', out.result);
    var slots := SlotsOf(s, recovery.channel).(blocking := Some(out.recovery), active := None);
    Outcome(SetSlots(s2, recovery.channel, slots), HandedOff(recovery', subject'))
  }

  /** The recovery succeeds and its subject moves to the confirmed state. */
  function HandBack(s: Store, out: RecoveryOutcome, now: Time): Outcome
    requires out.recovery in s.operations && out.subject in s.operations
    requires s.operations[out.recovery].stage.Some?
  {
    var recovery, subject := s.operations[out.recovery], s.operations[out.subject];
    var recovery' := recovery.(
      status := Status.Succeeded, result := Code.Succeeded, startedAt := None, completedAt := Some(now));
    var subject' := subject.(
      status := out.next,
      stage := Some(out.nextStage),
      startedAt := None,
      result := out.result,
      completedAt := if Terminal(out.next) then Some(now) else subject.completedAt);
    var slots := SlotsOf(s, recovery.channel);
    var slots' :=
      if Terminal(out.next) then slots.(active := None, blocking := None)
      else if out.next == Status.CleanupRequired then slots.(active := None, blocking := Some(out.subject))
      else slots.(active := Some(out.subject), blocking := None);
    var s1 := Logged(s, out.recovery, Status.RecoveryActive, recovery', Code.Succeeded);
    var s2 := Logged(s1, out.subject, subject.status, subject', out.result);
    Outcome(SetSlots(s2, recovery.channel, slots'), HandedOff(recovery', subject'))
  }

  function HandoffRecovery(s: Store, out: RecoveryOutcome, fence: Fence, now: Time): Outcome {
    if out.recovery !in s.operations then Outcome(s, StageRefused(OperationNotFound)) else
    var recovery := s.operations[out.recovery];
    var slots := SlotsOf(s, recovery.channel);
    if || out.subject !in s.operations
       || s.operations[out.subject].channel != recovery.channel
       || recovery.subject != Some(out.subject)
       || slots.active != Some(out.recovery)
       || slots.blocking != Some(out.subject)
       || recovery.status != Status.RecoveryActive
    then Outcome(s, StageRefused(StaleStage))
    else
      var subject := s.operations[out.subject];
      if fence != Matched then RejectStaleRecovery(s, out.recovery, subject, fence, now)
      else if recovery.stage.None? then Outcome(s, Raised)
      else if out.blockerMoves then
        if BlockerMayMove(recovery, subject, out) then MoveBlocker(s, out)
        else Outcome(s, StageRefused(InvalidTransition))
      else if HandoffAllowed(subject, out) then HandBack(s, out, now)
      else Outcome(s, StageRefused(InvalidTransition))
  }

  function CompleteRecovery(s: Store, id: Id, next: Status, result: Code, now: Time): Outcome {
    if id !in s.operations || s.operations[id].status != Status.RecoveryActive
    then Outcome(s, StageRefused(StaleStage))
    else if next != Status.Unknown && next != Status.Failed then Outcome(s, StageRefused(InvalidTransition))
    else
      var op := s.operations[id];
      if op.stage.None? then Outcome(s, Raised)
      else
        var op' := op.(
          status := next,
          startedAt := None,
          result := result,
          completedAt := if next == Status.Failed then Some(now) else op.completedAt);
        var slots := SlotsOf(s, op.channel).(
          active := None,
          blocking := if next == Status.Unknown then Some(id) else op.subject);
        Outcome(SetSlots(Logged(s, id, Status.RecoveryActive, op', result), op.channel, slots), Moved(op'))
  }

  predicate CleanupCompletes(s: Store, op: Operation, id: Id, resource: Id)
    requires resource in s.resources
  {
    var target := s.resources[resource];
    var slots := SlotsOf(s, op.channel);
    && op.subject.Some?
    && op.subject.value in s.operations
    && var subject := s.operations[op.subject.value];
    && subject.channel == op.channel
    && subject.status == Status.CleanupRequired
    && subject.stage == Some(Cleaning)
    && op.target == Some(resource)
    && (target.origin == op.subject.value || target.replacement == op.subject)
    && slots.active == Some(id)
    && slots.blocking == op.subject
  }

  function CompleteCleanupRecovery(s: Store, id: Id, resource: Id, now: Time): Outcome {
    if id !in s.operations || s.operations[id].kind != Cleanup || s.operations[id].status != Status.RecoveryActive
    then Outcome(s, StageRefused(StaleStage))
    else
      var op := s.operations[id];
      if || resource !in s.resources
         || s.resources[resource].channel != op.channel
         || s.resources[resource].lifecycle != Deleted
         || !CleanupCompletes(s, op, id, resource)
      then Outcome(s, StageRefused(InvalidTransition))
      else
        var subject := s.operations[op.subject.value];
        var subject' := subject.(status := Status.Succeeded, result := Code.Succeeded, completedAt := Some(now));
        var s1 := Logged(s, op.subject.value, Status.CleanupRequired, subject', Code.Succeeded);
        // The row's stage is the literal cleaning stage; the operation's own stage is not rewritten.
        var op' := op.(
          status := Status.Succeeded, startedAt := None, result := Code.Succeeded, completedAt := Some(now));
        var s2 := Logged(s1, id, Status.RecoveryActive, op'.(stage := Some(Cleaning)), Code.Succeeded);
        var s3 := SetOperation(s2, id, op');
        var slots := SlotsOf(s, op.channel).(active := None, blocking := None);
        Outcome(SetSlots(s3, op.channel, slots), Moved(op'))
  }

  // ---- Resources ----

  predicate Replaces(s: Store, operation: Id) {
    exists r :: r in s.resources && s.resources[r].replacement == Some(operation)
  }

  predicate VerifyingApply(s: Store, operation: Id) {
    && operation in s.operations
    && var op := s.operations[operation];
    && op.kind == Apply
    && op.status == Status.Processing
    && op.stage == Some(Verifying)
    && SlotsOf(s, op.channel).active == Some(operation)
  }

  function RecordReplacement(s: Store, operation: Id, newId: Id, oldId: Id, fence: Fence): Outcome {
    if newId == oldId || operation !in s.operations then Outcome(s, Refused(InvalidRelation)) else
    var channel := s.operations[operation].channel;
    var slots := SlotsOf(s, channel);
    if || !VerifyingApply(s, operation)
       || slots.current != Some(oldId)
       || newId !in s.resources || s.resources[newId].channel != channel
       || oldId !in s.resources || s.resources[oldId].channel != channel
       || s.resources[newId].origin != operation
       || s.resources[newId].lifecycle != Candidate
       || s.resources[oldId].lifecycle != Applied
       || s.resources[oldId].replacement.Some?
    then Outcome(s, Refused(InvalidRelation))
    else if fence != Matched then Outcome(s, Refused(if fence == Stale then StaleRevision else NoStorage))
    else if Replaces(s, operation) then Outcome(s, Refused(InvalidRelation))
    else
      var s1 := SetResource(s, newId, s.resources[newId].(lifecycle := Applied));
      var s2 := SetResource(s1, oldId, s.resources[oldId].(lifecycle := Old, replacement := Some(operation)));
      Outcome(SetSlots(s2, channel, slots.(current := Some(newId))), Answer(true))
  }

  function FinalizeApply(s: Store, operation: Id, candidate: Id, fence: Fence): Outcome {
    // An unknown operation builds a conflict with a reason its type refuses.
    if operation !in s.operations then Outcome(s, Raised) else
    var channel := s.operations[operation].channel;
    var slots := SlotsOf(s, channel);
    if || !VerifyingApply(s, operation)
       || candidate !in s.resources
       || s.resources[candidate].channel != channel
       || s.resources[candidate].origin != operation
       || s.resources[candidate].lifecycle != Candidate
       || s.resources[candidate].lineId.None?
    then Outcome(s, Refused(InvalidRelation))
    else if slots.current.None? then
      Outcome(SetSlots(SetResource(s, candidate, s.resources[candidate].(lifecycle := Applied)),
                       channel, slots.(current := Some(candidate))), Answer(true))
    else if slots.current == Some(candidate) then Outcome(s, Refused(InvalidRelation))
    else if slots.current.value in s.resources && s.resources[slots.current.value].lifecycle != Applied
    then Outcome(s, Refused(InvalidRelation))
    else RecordReplacement(s, operation, candidate, slots.current.value, fence)
  }

  predicate ReplacedOld(s: Store, operation: Id) {
    exists r :: r in s.resources && s.resources[r].replacement == Some(operation) && s.resources[r].lifecycle == Old
  }

  /** A refused finalization has no valid stage reason, so the whole transaction raises. */
  function CompleteApply(s: Store, operation: Id, candidate: Id, replaceFence: Fence, stageFence: Fence, now: Time): Outcome {
    var finalized := FinalizeApply(s, operation, candidate, replaceFence);
    if finalized.reply != Answer(true) then Outcome(s, Raised)
    else
      var hasOld := ReplacedOld(finalized.store, operation);
      var next := if hasOld then Status.CleanupRequired else Status.Succeeded;
      var done := CompleteStage(
        finalized.store,
        StageOutcome(operation, Verifying, next,
                     if hasOld then Cleaning else Verifying,
                     if hasOld then Code.CleanupRequired else Code.Succeeded),
        stageFence, now);
      if done.reply.Moved? && done.reply.view.status == next then done
      else Outcome(s, StageRefused(StaleStage))
  }

  predicate ApplyRecoverable(s: Store, recovery: Id, candidate: Id) {
    && recovery in s.operations
    && s.operations[recovery].kind == Recheck
    && s.operations[recovery].subject.Some?
    && s.operations[recovery].subject.value in s.operations
    && var subject := s.operations[s.operations[recovery].subject.value];
    && subject.kind == Apply
    && subject.status == Status.Unknown
    && subject.stage in {Some(SettingDefault), Some(Verifying)}
    && candidate in s.resources
    && var r := s.resources[candidate];
    && r.origin == s.operations[recovery].subject.value
    && r.channel == subject.channel
    && r.lifecycle == Candidate
    && r.lineId.Some?
  }

  /** Handoff, claim and completion in one transaction; a later refusal rolls the earlier ones back. */
  function CompleteApplyRecovery(s: Store, recovery: Id, candidate: Id, handoffFence: Fence,
                                       replaceFence: Fence, stageFence: Fence, now: Time, timeout: nat): Outcome {
    if !ApplyRecoverable(s, recovery, candidate) then Outcome(s, StageRefused(InvalidTransition)) else
    var subject := s.operations[recovery].subject.value;
    var handoff := HandoffRecovery(
      s, RecoveryOutcome(recovery, subject, Status.Processing, Verifying, Code.Accepted, false), handoffFence, now);
    if !handoff.reply.HandedOff? || handoff.reply.recovery.status != Status.Succeeded then
      Outcome(handoff.store, if handoff.reply.HandedOff? then Moved(handoff.reply.recovery) else handoff.reply)
    else
      var claim := ClaimStage(handoff.store, subject, Verifying, now, timeout);
      if !claim.reply.Claimed? then Outcome(s, StageRefused(StaleStage))
      else
        var completed := CompleteApply(claim.store, subject, candidate, replaceFence, stageFence, now);
        if completed.reply.Moved? then Outcome(completed.store, Moved(handoff.reply.recovery))
        else Outcome(s, completed.reply)
  }

  /** Frees the current slot when it points at the resource. */
  function ClearCurrent(s: Store, channel: Id, resource: Id): Store {
    var slots := SlotsOf(s, channel);
    if slots.current == Some(resource) then SetSlots(s, channel, slots.(current := None)) else s
  }

  function MarkCleanupRequired(s: Store, id: Id): Outcome {
    if id !in s.resources then Outcome(s, Refused(InvalidRelation)) else
    var r := s.resources[id];
    if r.lifecycle == CleanupDue then Outcome(s, Answer(true))
    else if (r.lifecycle, CleanupDue) !in RESOURCE_EDGES then Outcome(s, Refused(InvalidRelation))
    else Outcome(ClearCurrent(SetResource(s, id, r.(lifecycle := CleanupDue)), r.channel, id), Answer(true))
  }

  function DiscardCandidate(s: Store, id: Id, now: Time): Outcome {
    if id !in s.resources || s.resources[id].lifecycle != Candidate || s.resources[id].lineId.Some?
    then Outcome(s, Refused(InvalidRelation))
    else Outcome(SetResource(s, id, s.resources[id].(lifecycle := Deleted, deletedAt := Some(now))), Answer(true))
  }

  function FinalizeUnlink(s: Store, id: Id): Outcome {
    if id !in s.resources || s.resources[id].lifecycle != Applied then Outcome(s, Refused(InvalidRelation)) else
    var r := s.resources[id];
    Outcome(ClearCurrent(SetResource(s, id, r.(lifecycle := CleanupDue)), r.channel, id), Answer(true))
  }

  function FinalizeRelease(s: Store, id: Id, now: Time): Outcome {
    if id !in s.resources || s.resources[id].lifecycle != Applied then Outcome(s, Refused(InvalidRelation)) else
    var r := s.resources[id];
    Outcome(ClearCurrent(SetResource(s, id, r.(lifecycle := Released, releasedAt := Some(now))), r.channel, id),
            Answer(true))
  }

  function FinalizeDeleted(s: Store, id: Id, now: Time): Outcome {
    if id !in s.resources then Outcome(s, Refused(InvalidRelation)) else
    var r := s.resources[id];
    if SlotsOf(s, r.channel).current == Some(id) || r.lifecycle !in {Candidate, Old, CleanupDue}
    then Outcome(s, Refused(InvalidRelation))
    else Outcome(SetResource(s, id, r.(lifecycle := Deleted, deletedAt := Some(now))), Answer(true))
  }

  predicate LineIdTaken(s: Store, lineId: string) {
    exists r :: r in s.resources && s.resources[r].lineId == Some(lineId)
  }

  function BindLineId(s: Store, id: Id, lineId: string): Outcome {
    if lineId == "" then Outcome(s, Raised)
    else if id !in s.resources then Outcome(s, Answer(false))
    else if s.resources[id].lineId.Some? then Outcome(s, Answer(s.resources[id].lineId == Some(lineId)))
    else if LineIdTaken(s, lineId) then Outcome(s, Answer(false))
    else Outcome(SetResource(s, id, s.resources[id].(lineId := Some(lineId))), Answer(true))
  }

  /** The channel row is created even when the observed resource turns out not to be owned. */
  function RecordObservation(s: Store, channel: Id, owner: Id, provider: string,
                             observation: Observation, managed: Option<Id>): Outcome {
    var slots := SlotsOf(s, channel);
    if && managed.Some?
       && !(&& managed.value in s.resources
            && s.resources[managed.value].channel == channel
            && s.resources[managed.value].origin in s.operations
            && s.operations[s.resources[managed.value].origin].owner == owner
            && s.operations[s.resources[managed.value].origin].provider == provider)
    then Outcome(SetSlots(s, channel, slots), Answer(false))
    else Outcome(SetSlots(s, channel, slots.(observation := Some(observation))), Answer(true))
  }

  // ---- History purge ----

  predicate ChannelReferenced(s: Store, channel: Id) {
    || SlotsOf(s, channel).blocking.Some?
    || SlotsOf(s, channel).active.Some?
    || (exists id :: id in s.operations && s.operations[id].channel == channel && !Terminal(s.operations[id].status))
    || (exists r :: r in s.resources && s.resources[r].channel == channel
                    && s.resources[r].lifecycle != Deleted && s.resources[r].lifecycle != Released)
  }

  function WithoutOperations(log: seq<Transition>, gone: set<Id>): seq<Transition> {
    if |log| == 0 then []
    else
      var rest := WithoutOperations(log[..|log| - 1], gone);
      if log[|log| - 1].operation in gone then rest else rest + [log[|log| - 1]]
  }

  /** `stored` is false when the database refuses a delete; the transaction is then rolled back. */
  function PurgeHistory(s: Store, channel: Id, reference: ReferenceFence, stored: bool): Outcome {
    if reference != Locked || !stored || channel !in s.channels || ChannelReferenced(s, channel)
    then Outcome(s, Answer(false))
    else
      var gone := set id | id in s.operations && s.operations[id].channel == channel;
      Outcome(
        Store(s.channels - {channel},
              s.operations - gone,
              map r | r in s.resources && s.resources[r].channel != channel :: s.resources[r],
              WithoutOperations(s.transitions, gone)),
        Answer(true))
  }

  /** The correction a repair appends after a recorded success. */
  function CorrectSubject(s: Store, subject: Id): Store
    requires subject in s.operations
  {
    var op := s.operations[subject];
    var op' := op.(
      status := Status.CleanupRequired, stage := Some(Cleaning), result := Code.CleanupRequired, startedAt := None);
    SetSlots(Logged(s, subject, Status.Succeeded, op', Code.CleanupRequired),
             op.channel, SlotsOf(s, op.channel).(blocking := Some(subject)))
  }
}
