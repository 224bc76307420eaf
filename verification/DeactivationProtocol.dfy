/**
 Disabling a channel while rich-menu work goes on. A coordinator reserves the intent, reads the
 rich-menu state in several transactions, decides, and commits in a later one; every other step may
 come in between.
 */
module DeactivationProtocol {
  import opened Wrappers
  import opened RichMenuModel
  import opened RichMenuSteps
  import opened RichMenuInvariant
  import opened RichMenuRuns
  import opened RichMenuStages
  import opened Deactivation

  // ---- The state an assessment sees ----

  /** What the gateway reports as the live default menu. */
  datatype Seen = Seen(kind: ObservationKind, managed: Option<Id>, fingerprint: Digest)

  /** The owner's view of a channel; operations of other owners do not appear in it. */
  datatype StateView = StateView(
    current: Option<Id>,
    blocking: Option<Id>,
    active: Option<Id>,
    cleanupWaits: bool,
    observation: Option<Seen>)

  const EMPTY_VIEW := StateView(None, None, None, false, None)

  datatype Assessment =
    | ClearToDisable
    | UnlinkRequired(proof: Proof)
    | ExternalBlocked
    | RecheckRequired(subject: Id)
    | CleanupNeeded
    | Unassessable(reason: string)

  predicate InScope(s: Store, q: Target, id: Id) {
    && id in s.operations
    && s.operations[id].channel == q.channel
    && s.operations[id].owner == q.owner
    && s.operations[id].provider == q.provider
  }

  function Scoped(s: Store, q: Target, id: Option<Id>): Option<Id> {
    if id.Some? && InScope(s, q, id.value) then id else None
  }

  /** A stored managed observation without a current resource reads as unknown. */
  function StoredSeen(slots: Slots): Option<Seen> {
    if slots.observation.None? then None
    else
      var o := slots.observation.value;
      if o.kind != ManagedDefault && o.kind != OtherManagedDefault then Some(Seen(o.kind, None, o.fingerprint))
      else if slots.current.None? then Some(Seen(ObservationKind.ObservationUnknown, None, o.fingerprint))
      else Some(Seen(o.kind, slots.current, o.fingerprint))
  }

  predicate Owns(s: Store, q: Target) {
    exists id :: id in s.operations && InScope(s, q, id)
  }

  /** None when the channel has no row or the owner no operation in it. */
  function ViewOf(s: Store, q: Target): Option<StateView> {
    if q.channel !in s.channels || !Owns(s, q) then None
    else
      var slots := s.channels[q.channel];
      Some(StateView(
        slots.current,
        Scoped(s, q, slots.blocking),
        Scoped(s, q, slots.active),
        HasLifecycle(s, q.channel, Old) || HasLifecycle(s, q.channel, CleanupDue),
        StoredSeen(slots)))
  }

  function Assess(v: StateView, q: Target, expected: Revision, provable: bool): Assessment {
    if v.cleanupWaits then CleanupNeeded
    else if v.blocking.Some? then RecheckRequired(v.blocking.value)
    else if v.active.Some? then RecheckRequired(v.active.value)
    else if v.observation.None? || v.observation.value.kind == ObservationKind.ObservationUnknown
    then Unassessable("observation_unknown")
    else
      var seen := v.observation.value;
      if seen.kind == DefaultNone && v.current.None? then ClearToDisable
      else if seen.kind == ManagedDefault && v.current.Some? && seen.managed == v.current then
        if provable then UnlinkRequired(Proof(q.channel, expected, v.current.value, seen.fingerprint))
        else Unassessable("ownership_unavailable")
      else ExternalBlocked
  }

  /** The second read decides; the first is the fallback and the empty view the last resort. */
  function Chosen(first: Option<StateView>, second: Option<StateView>, seen: Option<Seen>): StateView {
    var v := if second.Some? then second.value else if first.Some? then first.value else EMPTY_VIEW;
    if seen.Some? then v.(observation := seen) else v
  }

  predicate Vacant(s: Store, channel: Id) {
    var slots := SlotsOf(s, channel);
    slots.active.None? && slots.blocking.None? && slots.current.None?
  }

  /** Whatever occupies a slot of the channel belongs to the owner who asks. */
  predicate OccupantsInScope(s: Store, q: Target) {
    var slots := SlotsOf(s, q.channel);
    && (slots.active.Some? ==> InScope(s, q, slots.active.value))
    && (slots.blocking.Some? ==> InScope(s, q, slots.blocking.value))
    && (slots.current.Some? ==> slots.current.value in s.resources && InScope(s, q, s.resources[slots.current.value].origin))
  }

  /** A clear answer means empty slots exactly when no other owner occupies one. */
  lemma ClearMeansVacantExactly(s: Store, q: Target, first: Option<StateView>, seen: Option<Seen>,
                                expected: Revision, provable: bool)
    requires Inv(s) && Assess(Chosen(first, ViewOf(s, q), seen), q, expected, provable) == ClearToDisable
    ensures Vacant(s, q.channel) <==> OccupantsInScope(s, q)
  {
    var slots := SlotsOf(s, q.channel);
    if q.channel in s.channels {
      assert SlotsOk(s, q.channel);
    }
  }

  // An apply of owner 4 whose creation ends without an answer.
  const APPLY := Command(5, 1, 4, "p", 0, Apply, None, None, Given(0), Some(0), true, Some(0))
  const UNANSWERED := StageOutcome(5, Creating, Status.Unknown, Creating, ResponseUnknown)
  const FOREIGN_CALLS := [
    AcceptOperation(APPLY, ReferenceFence.Locked, true, 0, 8),
    Claim(5, Creating, 1, 10),
    Complete(UNANSWERED, Matched, 2)]

  const APPLYING := AcceptedRow(APPLY, Status.Accepted, None, None, None, None, Some(0), 0)
  const CANDIDATE := Resource(1, 5, None, None, Candidate, 0, None, None)
  const CLAIMED_ROW := Transition(5, 1, Status.Accepted, Status.Processing, Creating, Code.Accepted)
  const ENDED_ROW := Transition(5, 2, Status.Processing, Status.Unknown, Creating, ResponseUnknown)

  const FOREIGN := Store(
    map[1 := Slots(None, Some(5), None, None)],
    map[5 := APPLYING.(status := Status.Unknown, stage := Some(Creating), result := ResponseUnknown)],
    map[8 := CANDIDATE],
    [CLAIMED_ROW, ENDED_ROW])

  lemma ForeignApplyIsAccepted()
    ensures Accept(EMPTY, APPLY, ReferenceFence.Locked, true, 0, 8).store ==
            Store(map[1 := Slots(Some(5), None, None, None)], map[5 := APPLYING], map[8 := CANDIDATE], [])
  {
  }

  lemma ForeignApplyIsClaimed()
    ensures ClaimStage(Store(map[1 := Slots(Some(5), None, None, None)], map[5 := APPLYING], map[8 := CANDIDATE], []),
                       5, Creating, 1, 10).store ==
            Store(map[1 := Slots(Some(5), None, None, None)],
                  map[5 := APPLYING.(status := Status.Processing, stage := Some(Creating), startedAt := Some(1))],
                  map[8 := CANDIDATE], [CLAIMED_ROW])
  {
  }

  lemma ForeignApplyIsUnanswered()
    ensures CompleteStage(Store(map[1 := Slots(Some(5), None, None, None)],
                                map[5 := APPLYING.(status := Status.Processing, stage := Some(Creating), startedAt := Some(1))],
                                map[8 := CANDIDATE], [CLAIMED_ROW]),
                          UNANSWERED, Matched, 2).store == FOREIGN
  {
    assert [CLAIMED_ROW][..0] == [];
    assert LastSequence([CLAIMED_ROW], 5) == 1;
    assert [CLAIMED_ROW] + [ENDED_ROW] == [CLAIMED_ROW, ENDED_ROW];
  }

  lemma RunOfThree(s: Store, a: Call, b: Call, c: Call)
    ensures Run(s, [a, b, c]) == Next(Next(Next(s, a).store, b).store, c).store
  {
    hide Next;
    assert [a, b, c][..2] == [a, b] && [a, b][..1] == [a] && [a][..0] == [];
    assert Run(s, [a]) == Next(s, a).store;
    assert Run(s, [a, b]) == Next(Run(s, [a]), b).store;
  }

  lemma ForeignIsReachable()
    ensures Run(EMPTY, FOREIGN_CALLS) == FOREIGN && Sound(FOREIGN)
  {
    hide Accept, ClaimStage, CompleteStage, Run, Sound, Inv;
    ForeignApplyIsAccepted();
    ForeignApplyIsClaimed();
    ForeignApplyIsUnanswered();
    RunOfThree(EMPTY, FOREIGN_CALLS[0], FOREIGN_CALLS[1], FOREIGN_CALLS[2]);
    EmptyIsSound();
    RunKeepsSound(EMPTY, FOREIGN_CALLS);
  }

  /** Another owner's blocker is not seen: a reachable channel reads as clear while it is blocked. */
  lemma ForeignBlockerIsNotSeen()
    ensures var q := Target(1, 7, 3, "p"); var s := Run(EMPTY, FOREIGN_CALLS);
            && Assess(Chosen(ViewOf(s, q), ViewOf(s, q), Some(Seen(DefaultNone, None, 0))), q, 0, true) == ClearToDisable
            && !Vacant(s, 1)
            && !OccupantsInScope(s, q)
  {
    hide Run, Sound;
    ForeignIsReachable();
    assert forall id :: id in FOREIGN.operations ==> id == 5;
  }

  // ---- Empty slots stay empty behind the fence ----

  predicate Enters(call: Call, channel: Id) {
    && call.AcceptOperation? && call.command.channel == channel && call.allowed
    && call.command.WellFormed() && RecoveryStage(call.command.kind).None?
  }

  lemma StagesStayVacant(s: Store, call: Call, channel: Id)
    requires Inv(s) && Vacant(s, channel)
    requires call.Claim? || call.Complete? || call.FinishRecovery? || call.FinishCleanup?
    ensures Vacant(Next(s, call).store, channel)
  {
    hide LastSequence, MayMove;
    var id := if call.Complete? then call.out.operation else call.id;
    if id in s.operations {
      assert OperationOk(s, id);
    }
  }

  lemma HandoffStaysVacant(s: Store, call: Call, channel: Id)
    requires Vacant(s, channel) && call.Handoff?
    ensures Vacant(Next(s, call).store, channel)
  {
    hide LastSequence, HandoffAllowed, BlockerMayMove;
  }

  lemma AcceptanceStaysVacant(s: Store, call: Call, channel: Id)
    requires Inv(s) && Vacant(s, channel) && !Enters(call, channel)
    requires call.AcceptOperation? || call.AcceptRecoveryOf? || call.ReserveDisable?
    ensures Vacant(Next(s, call).store, channel)
  {
    hide Inv, LastSequence;
  }

  lemma ResourcesStayVacant(s: Store, call: Call, channel: Id)
    requires Inv(s) && Vacant(s, channel)
    requires ResourceCall(call)
    ensures Vacant(Next(s, call).store, channel)
  {
    hide Inv, LastSequence, VerifyingApply, Replaces, LineIdTaken, FinalizeApply, RecordReplacement;
    FinalizationStaysVacant(s, call, channel);
  }

  /** Only an active apply makes a resource current. */
  lemma FinalizationStaysVacant(s: Store, call: Call, channel: Id)
    requires Vacant(s, channel)
    ensures call.Replace? || call.Finalize? ==> Vacant(Next(s, call).store, channel)
  {
    hide LastSequence, Replaces;
  }

  lemma PurgeAndRepairStayVacant(s: Store, call: Call, channel: Id)
    requires Vacant(s, channel) && (call.Purge? || call.Repair?)
    ensures Vacant(Next(s, call).store, channel)
  {
    hide LastSequence, ChannelReferenced, WithoutOperations;
  }

  lemma FinishApplyStaysVacant(s: Store, call: Call, channel: Id)
    requires Inv(s) && Vacant(s, channel) && call.FinishApply?
    ensures Vacant(Next(s, call).store, channel)
  {
    var finalize := Finalize(call.id, call.resource, call.replaceFence);
    var finalized := Next(s, finalize).store;
    NextKeepsInv(s, finalize);
    ResourcesStayVacant(s, finalize, channel);
    var hasOld := ReplacedOld(finalized, call.id);
    var out := StageOutcome(call.id, Verifying,
                            if hasOld then Status.CleanupRequired else Status.Succeeded,
                            if hasOld then Cleaning else Verifying,
                            if hasOld then Code.CleanupRequired else Code.Succeeded);
    StagesStayVacant(finalized, Complete(out, call.stageFence, call.now), channel);
  }

  lemma ApplyRecoveryStaysVacant(s: Store, call: Call, channel: Id)
    requires Inv(s) && Vacant(s, channel) && call.FinishApplyRecovery?
    ensures Vacant(Next(s, call).store, channel)
  {
    if !ApplyRecoverable(s, call.id, call.resource) {
      assert Next(s, call).store == s;
    } else {
      var handoff, claim, finish := RecoveryHandoff(s, call), RecoveryClaim(s, call), RecoveryFinish(s, call);
      ApplyRecoveryParts(s, call);
      HandoffStaysVacant(s, handoff, channel);
      NextKeepsInv(s, handoff);
      var handed := Next(s, handoff).store;
      StagesStayVacant(handed, claim, channel);
      NextKeepsInv(handed, claim);
      FinishApplyStaysVacant(Next(handed, claim).store, finish, channel);
    }
  }

  /** With nothing active, blocking or current, only an admitted ordinary operation enters a channel. */
  lemma VacantStaysVacant(s: Store, call: Call, channel: Id)
    requires Inv(s) && Vacant(s, channel) && !Enters(call, channel)
    ensures Vacant(Next(s, call).store, channel)
  {
    hide Inv, Next, Vacant, Enters;
    match call
    case Claim(_, _, _, _) => StagesStayVacant(s, call, channel);
    case Complete(_, _, _) => StagesStayVacant(s, call, channel);
    case Handoff(_, _, _) => HandoffStaysVacant(s, call, channel);
    case FinishRecovery(_, _, _, _) => StagesStayVacant(s, call, channel);
    case FinishCleanup(_, _, _) => StagesStayVacant(s, call, channel);
    case AcceptOperation(_, _, _, _, _) => AcceptanceStaysVacant(s, call, channel);
    case AcceptRecoveryOf(_, _, _, _, _) => AcceptanceStaysVacant(s, call, channel);
    case ReserveDisable(_, _, _, _) => AcceptanceStaysVacant(s, call, channel);
    case FinishApply(_, _, _, _, _) => FinishApplyStaysVacant(s, call, channel);
    case FinishApplyRecovery(_, _, _, _, _, _, _) => ApplyRecoveryStaysVacant(s, call, channel);
    case Purge(_, _, _) => PurgeAndRepairStayVacant(s, call, channel);
    case Repair(_) => PurgeAndRepairStayVacant(s, call, channel);
    case _ => ResourcesStayVacant(s, call, channel);
  }
}
