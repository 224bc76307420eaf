/** Rows of the rich-menu tables and the two pure transition relations. */
module RichMenuModel {
  import opened Wrappers

  type Id = nat
  type Time = nat
  type Revision = nat
  type Digest = nat

  datatype Kind = Apply | Unlink | Release | Recheck | Cleanup

  datatype Status =
    | Accepted | Processing | Failed | Unknown | CleanupRequired | RecoveryActive | Succeeded

  datatype Stage =
    | Creating | Uploading | SettingDefault | Verifying | ClearingDefault | Cleaning | LocalRelease

  datatype Lifecycle = Candidate | Applied | Old | CleanupDue | Deleted | Released

  datatype ObservationKind =
    | DefaultNone | ManagedDefault | OtherManagedDefault | ExternalDefault | ObservationUnknown

  /** The safe result codes stored on operations and in the transition log. */
  datatype Code =
    | Accepted | Succeeded | NoChange | CleanupRequired | InvalidInput | TemplateChanged
    | ImageInvalid | AuthenticationRequired | OwnerOperationBlocked | ChannelUnavailable
    | ChannelInactive | StaleChannel | CurrentChanged | OperationConflict | OperationInProgress
    | PreviewExpired | IntegrationNotReady | LineRejected | TimeoutUnknown | ResponseUnknown
    | ObservationUnknown | RateLimited | StorageRetryable | StorageUnavailable | Unexpected

  /** What a disable assessment hashes; the hash is taken to be injective. */
  datatype Proof = Proof(channel: Id, revision: Revision, resource: Id, observation: Digest)

  /** A request fingerprint: given by the caller, or derived for a disable unlink. */
  datatype Fingerprint =
    | Given(digest: Digest)
    | DisableUnlink(operation: Id, proof: Proof, owner: Id, provider: string)

  datatype Operation = Operation(
    channel: Id,
    owner: Id,
    provider: string,
    kind: Kind,
    subject: Option<Id>,
    target: Option<Id>,
    fingerprint: Fingerprint,
    usage: Option<Digest>,
    revision: Revision,
    status: Status,
    stage: Option<Stage>,
    startedAt: Option<Time>,
    result: Code,
    acceptedAt: Time,
    completedAt: Option<Time>)

  datatype Resource = Resource(
    channel: Id,
    origin: Id,
    replacement: Option<Id>,
    lineId: Option<string>,
    lifecycle: Lifecycle,
    image: Digest,
    deletedAt: Option<Time>,
    releasedAt: Option<Time>)

  datatype Observation = Observation(kind: ObservationKind, fingerprint: Digest)

  /** One row of the channel-state table. */
  datatype Slots = Slots(
    active: Option<Id>,
    blocking: Option<Id>,
    current: Option<Id>,
    observation: Option<Observation>)

  const EMPTY_SLOTS := Slots(None, None, None, None)

  /** One row of the append-only transition table. */
  datatype Transition = Transition(
    operation: Id,
    sequence: nat,
    from: Status,
    to: Status,
    stage: Stage,
    reason: Code)

  datatype Store = Store(
    channels: map<Id, Slots>,
    operations: map<Id, Operation>,
    resources: map<Id, Resource>,
    transitions: seq<Transition>)

  /** An operation that still owns its channel's active slot. */
  predicate Live(status: Status) {
    status == Status.Accepted || status == Status.Processing || status == Status.RecoveryActive
  }

  predicate Terminal(status: Status) {
    status == Status.Failed || status == Status.Succeeded
  }

  function InitialStage(kind: Kind): Option<Stage> {
    match kind
    case Apply => Some(Creating)
    case Unlink => Some(ClearingDefault)
    case Release => Some(LocalRelease)
    case _ => None
  }

  function RecoveryStage(kind: Kind): Option<Stage> {
    match kind
    case Recheck => Some(Verifying)
    case Cleanup => Some(Cleaning)
    case _ => None
  }

  function ProcessingSuccessor(kind: Kind, stage: Stage): Option<Stage> {
    match (kind, stage)
    case (Apply, Creating) => Some(Uploading)
    case (Apply, Uploading) => Some(SettingDefault)
    case (Apply, SettingDefault) => Some(Verifying)
    case (Unlink, ClearingDefault) => Some(Verifying)
    case _ => None
  }

  function ProcessingOutcomes(kind: Kind, stage: Stage): set<Status> {
    match (kind, stage)
    case (Apply, Creating) => {Status.Failed, Status.Unknown}
    case (Apply, Uploading) => {Status.Unknown, Status.CleanupRequired}
    case (Apply, SettingDefault) => {Status.Unknown, Status.CleanupRequired}
    case (Apply, Verifying) => {Status.Succeeded, Status.Unknown, Status.CleanupRequired}
    case (Unlink, ClearingDefault) => {Status.Failed, Status.Unknown}
    case (Unlink, Verifying) => {Status.Succeeded, Status.Failed, Status.Unknown}
    case (Release, LocalRelease) => {Status.Succeeded, Status.Failed}
    case _ => {}
  }

  /** True where the transition function returns, false where it raises. */
  predicate MayMove(kind: Kind, status: Status, stage: Option<Stage>, next: Status, nextStage: Stage) {
    match status
    case Failed => false
    case Succeeded => false
    case Accepted =>
      && stage == None
      && (if RecoveryStage(kind).Some?
          then next == Status.RecoveryActive && RecoveryStage(kind) == Some(nextStage)
          else next == Status.Processing && InitialStage(kind) == Some(nextStage))
    case Processing =>
      && InitialStage(kind).Some?
      && stage.Some?
      && (if next == Status.Processing
          then ProcessingSuccessor(kind, stage.value) == Some(nextStage)
          else
            && next in ProcessingOutcomes(kind, stage.value)
            && nextStage == (if next == Status.CleanupRequired then Cleaning else stage.value))
    case RecoveryActive =>
      && RecoveryStage(kind).Some?
      && stage == RecoveryStage(kind)
      && Some(nextStage) == stage
      && next in {Status.Succeeded, Status.Failed, Status.Unknown, Status.CleanupRequired}
    case _ =>
      next in {Status.Unknown, Status.Failed} && stage == Some(nextStage)
  }

  const RESOURCE_EDGES: set<(Lifecycle, Lifecycle)> := {
    (Candidate, Applied), (Candidate, CleanupDue), (Applied, Old), (Applied, CleanupDue),
    (Applied, Released), (Old, CleanupDue), (Old, Deleted), (CleanupDue, Deleted)
  }

  function SlotsOf(s: Store, channel: Id): Slots {
    if channel in s.channels then s.channels[channel] else EMPTY_SLOTS
  }

  /** The highest sequence number recorded for an operation, 0 when there is none. */
  function LastSequence(log: seq<Transition>, operation: Id): nat {
    if |log| == 0 then 0
    else
      var row := log[|log| - 1];
      var rest := LastSequence(log[..|log| - 1], operation);
      if row.operation == operation && row.sequence > rest then row.sequence else rest
  }
}
