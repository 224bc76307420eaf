/** The owner account, its identity, recipients and sessions, and every repository step on them. */
module Accounts {
  import opened Wrappers
  import opened Friendship

  type Id = nat
  type Time = nat
  /** The random mark of one unlink attempt. */
  type Generation = nat

  datatype OwnerState = Vacant | Active | DeauthorizationPending | LocalDeletionPending

  datatype Owner = Owner(
    state: OwnerState,
    identity: Option<Id>,
    generation: Option<Generation>,
    deauthorizedAt: Option<Time>)

  datatype Identity = Identity(provider: string, subject: string, name: string)

  datatype Recipient = Recipient(identity: Id, channel: Id, enabled: bool, projection: Projection)

  datatype Tables = Tables(
    owner: Owner,
    identities: map<Id, Identity>,
    recipients: map<Id, Recipient>,
    sessions: map<Id, Time>)

  datatype StateError =
    | OwnerNotActive | IdentityMismatch | IdentityNotFound | ChannelNotFound | RecipientNotFound
    | InvalidUnlinkStage | AttemptStale

  datatype ReferenceFence = Locked | NoChannel | Unlockable

  datatype Reply =
    | Done
    | Found(id: Id)
    | Deleted(count: bool)
    | Snapped(snapshot: Snapshot)
    | Refused(error: StateError)
    | StorageFailed

  /** What an unlink shows the owner and later deletes. */
  datatype Snapshot = Snapshot(identity: Id, name: string, recipients: set<Id>, channels: set<Id>)

  datatype Outcome = Outcome(tables: Tables, reply: Reply)

  // ---- Identities and sessions ----

  predicate Holds(t: Tables, id: Id, provider: string, subject: string) {
    id in t.identities && t.identities[id].provider == provider && t.identities[id].subject == subject
  }

  predicate Known(t: Tables, provider: string, subject: string) {
    exists id :: id in t.identities && Holds(t, id, provider, subject)
  }

  ghost function KnownId(t: Tables, provider: string, subject: string): Id
    requires Known(t, provider, subject)
  {
    var id :| id in t.identities && Holds(t, id, provider, subject);
    id
  }

  /** A known identity is renamed, an unknown one created under `freshId`. */
  ghost function Upsert(t: Tables, v: Identity, freshId: Id): Outcome {
    if Known(t, v.provider, v.subject) then
      var id := KnownId(t, v.provider, v.subject);
      Outcome(t.(identities := t.identities[id := t.identities[id].(name := v.name)]), Found(id))
    else if freshId in t.identities then Outcome(t, StorageFailed)
    else Outcome(t.(identities := t.identities[freshId := v]), Found(freshId))
  }

  function Bind(t: Tables, identity: Id): Outcome {
    if identity !in t.identities then Outcome(t, Refused(IdentityNotFound))
    else if t.owner.state == Vacant
    then Outcome(t.(owner := t.owner.(identity := Some(identity), state := Active)), Done)
    else if t.owner.identity != Some(identity) then Outcome(t, Refused(IdentityMismatch))
    else Outcome(t, Done)
  }

  function CreateSession(t: Tables, id: Id, expires: Time): Outcome {
    if t.owner.identity.None? then Outcome(t, Refused(IdentityNotFound))
    else if id in t.sessions then Outcome(t, StorageFailed)
    else Outcome(t.(sessions := t.sessions[id := expires]), Done)
  }

  function EndSession(t: Tables, id: Id): Outcome {
    Outcome(t.(sessions := t.sessions - {id}), Deleted(id in t.sessions))
  }

  // ---- Recipients ----

  function NotActiveFor(t: Tables, identity: Id): Option<StateError> {
    if t.owner.state != Active then Some(OwnerNotActive)
    else if t.owner.identity != Some(identity) then Some(IdentityMismatch)
    else None
  }

  predicate Links(t: Tables, id: Id, identity: Id, channel: Id) {
    id in t.recipients && t.recipients[id].identity == identity && t.recipients[id].channel == channel
  }

  predicate Linked(t: Tables, identity: Id, channel: Id) {
    exists r :: r in t.recipients && Links(t, r, identity, channel)
  }

  ghost function LinkedId(t: Tables, identity: Id, channel: Id): Id
    requires Linked(t, identity, channel)
  {
    var r :| r in t.recipients && Links(t, r, identity, channel);
    r
  }

  /** An existing link is returned as it is; `freshId` and `now` are for a new one. */
  ghost function CreateRecipient(t: Tables, identity: Id, channel: Id, friendship: State, fence: ReferenceFence,
                                 freshId: Id, now: Millis): Outcome {
    if fence == NoChannel then Outcome(t, Refused(ChannelNotFound))
    else if fence != Locked then Outcome(t, StorageFailed)
    else if NotActiveFor(t, identity).Some? then Outcome(t, Refused(NotActiveFor(t, identity).value))
    else if Linked(t, identity, channel) then Outcome(t, Found(LinkedId(t, identity, channel)))
    else if freshId in t.recipients then Outcome(t, StorageFailed)
    else
      var row := Recipient(identity, channel, true, Projection(now, friendship, None));
      Outcome(t.(recipients := t.recipients[freshId := row]), Found(freshId))
  }

  predicate OwnRecipient(t: Tables, identity: Id, id: Id) {
    id in t.recipients && t.recipients[id].identity == identity
  }

  function SetEnabled(t: Tables, identity: Id, id: Id, enabled: bool): Outcome {
    if NotActiveFor(t, identity).Some? then Outcome(t, Refused(NotActiveFor(t, identity).value))
    else if !OwnRecipient(t, identity, id) then Outcome(t, Refused(RecipientNotFound))
    else Outcome(t.(recipients := t.recipients[id := t.recipients[id].(enabled := enabled)]), Done)
  }

  function DeleteRecipient(t: Tables, identity: Id, id: Id): Outcome {
    if NotActiveFor(t, identity).Some? then Outcome(t, Refused(NotActiveFor(t, identity).value))
    else if !OwnRecipient(t, identity, id) then Outcome(t, Deleted(false))
    else Outcome(t.(recipients := t.recipients - {id}), Deleted(true))
  }

  /** A follow or unfollow event reaches a recipient only while the owner is active. */
  ghost function ProjectFriendship(t: Tables, provider: string, subject: string, channel: Id, e: Event): Outcome {
    if || t.owner.state != Active
       || t.owner.identity.None?
       || !Holds(t, t.owner.identity.value, provider, subject)
       || !Linked(t, t.owner.identity.value, channel)
    then Outcome(t, Done)
    else
      var id := LinkedId(t, t.owner.identity.value, channel);
      var r := t.recipients[id];
      Outcome(t.(recipients := t.recipients[id := r.(projection := Handle(r.projection, e))]), Done)
  }

  // ---- Unlinking ----

  function RecipientsOf(t: Tables, identity: Id): set<Id> {
    set r | r in t.recipients && t.recipients[r].identity == identity
  }

  function ChannelsOf(t: Tables, identity: Id): set<Id> {
    set r | r in t.recipients && t.recipients[r].identity == identity :: t.recipients[r].channel
  }

  function SnapshotOf(t: Tables): Outcome {
    if t.owner.state != Active || t.owner.identity.None? then Outcome(t, Refused(OwnerNotActive))
    else if t.owner.identity.value !in t.identities then Outcome(t, StorageFailed)
    else
      var id := t.owner.identity.value;
      Outcome(t, Snapped(Snapshot(id, t.identities[id].name, RecipientsOf(t, id), ChannelsOf(t, id))))
  }

  function BeginUnlink(t: Tables, g: Generation): Outcome {
    if t.owner.state != Active || t.owner.identity.None? then Outcome(t, Refused(InvalidUnlinkStage))
    else
      var owner := t.owner.(state := DeauthorizationPending, generation := Some(g), deauthorizedAt := None);
      Outcome(t.(owner := owner), Done)
  }

  function MarkDeauthorized(t: Tables, g: Generation, now: Time): Outcome {
    if t.owner.generation != Some(g) then Outcome(t, Refused(AttemptStale))
    else if t.owner.state == LocalDeletionPending then Outcome(t, Done)
    else if t.owner.state != DeauthorizationPending then Outcome(t, Refused(InvalidUnlinkStage))
    else Outcome(t.(owner := t.owner.(state := LocalDeletionPending, deauthorizedAt := Some(now))), Done)
  }

  function FinalizeUnlink(t: Tables, g: Generation): Outcome {
    if t.owner.generation != Some(g) then Outcome(t, Refused(AttemptStale))
    else if t.owner.state != LocalDeletionPending || t.owner.deauthorizedAt.None? || t.owner.identity.None?
    then Outcome(t, Refused(InvalidUnlinkStage))
    else
      var id := t.owner.identity.value;
      Outcome(Tables(Owner(Vacant, None, None, None), t.identities - {id}, t.recipients - RecipientsOf(t, id), map[]), Done)
  }

  // ---- What every step keeps ----

  /** The four variants the database admits. */
  predicate Consistent(o: Owner) {
    match o.state
    case Vacant => o.identity.None? && o.generation.None? && o.deauthorizedAt.None?
    case Active => o.identity.Some? && o.generation.None? && o.deauthorizedAt.None?
    case DeauthorizationPending => o.identity.Some? && o.generation.Some? && o.deauthorizedAt.None?
    case LocalDeletionPending => o.identity.Some? && o.generation.Some? && o.deauthorizedAt.Some?
  }

  ghost predicate TablesOk(t: Tables) {
    && Consistent(t.owner)
    && (t.owner.identity.Some? ==> t.owner.identity.value in t.identities)
    && (t.owner.identity.None? ==> t.sessions == map[])
    && (forall r :: r in t.recipients ==> t.recipients[r].identity in t.identities)
    && (forall a, b :: a in t.recipients && b in t.recipients && SameLink(t.recipients[a], t.recipients[b]) ==> a == b)
    && (forall a, b :: a in t.identities && b in t.identities && SamePerson(t.identities[a], t.identities[b]) ==> a == b)
  }

  predicate SameLink(a: Recipient, b: Recipient) {
    a.identity == b.identity && a.channel == b.channel
  }

  predicate SamePerson(a: Identity, b: Identity) {
    a.provider == b.provider && a.subject == b.subject
  }

  datatype Call =
    | UpsertCall(verified: Identity, freshId: Id)
    | BindCall(identity: Id)
    | SessionCall(session: Id, expires: Time)
    | EndSessionCall(session: Id)
    | CreateCall(identity: Id, channel: Id, friendship: State, fence: ReferenceFence, freshId: Id, at: Millis)
    | EnableCall(identity: Id, recipient: Id, enabled: bool)
    | DeleteCall(identity: Id, recipient: Id)
    | FriendshipCall(provider: string, subject: string, channel: Id, event: Event)
    | SnapshotCall
    | BeginCall(generation: Generation)
    | MarkCall(generation: Generation, now: Time)
    | FinalizeCall(generation: Generation)

  ghost function Next(t: Tables, call: Call): Outcome {
    match call
    case UpsertCall(v, freshId) => Upsert(t, v, freshId)
    case BindCall(id) => Bind(t, id)
    case SessionCall(id, expires) => CreateSession(t, id, expires)
    case EndSessionCall(id) => EndSession(t, id)
    case CreateCall(i, c, f, fence, freshId, at) => CreateRecipient(t, i, c, f, fence, freshId, at)
    case EnableCall(i, r, enabled) => SetEnabled(t, i, r, enabled)
    case DeleteCall(i, r) => DeleteRecipient(t, i, r)
    case FriendshipCall(p, s, c, e) => ProjectFriendship(t, p, s, c, e)
    case SnapshotCall => SnapshotOf(t)
    case BeginCall(g) => BeginUnlink(t, g)
    case MarkCall(g, now) => MarkDeauthorized(t, g, now)
    case FinalizeCall(g) => FinalizeUnlink(t, g)
  }

  lemma CreationStaysOk(t: Tables, call: Call)
    requires TablesOk(t) && call.CreateCall?
    ensures TablesOk(Next(t, call).tables)
  {
    if Next(t, call).tables != t {
      assert forall r :: r in t.recipients ==> !Links(t, r, call.identity, call.channel);
    }
  }

  lemma UpsertStaysOk(t: Tables, call: Call)
    requires TablesOk(t) && call.UpsertCall?
    ensures TablesOk(Next(t, call).tables)
  {
    if !Known(t, call.verified.provider, call.verified.subject) {
      assert forall x :: x in t.identities ==> !Holds(t, x, call.verified.provider, call.verified.subject);
    }
  }

  lemma TablesStayOk(t: Tables, call: Call)
    requires TablesOk(t)
    ensures TablesOk(Next(t, call).tables)
  {
    hide Handle;
    if call.CreateCall? {
      CreationStaysOk(t, call);
    } else if call.UpsertCall? {
      UpsertStaysOk(t, call);
    }
  }

  /** While the owner is not active, nothing but the finalization touches a recipient or removes an identity. */
  lemma PendingFreezesRecipients(t: Tables, call: Call)
    requires t.owner.state != Active && !call.FinalizeCall?
    ensures Next(t, call).tables.recipients == t.recipients
    ensures t.identities.Keys <= Next(t, call).tables.identities.Keys
  {
  }
}
