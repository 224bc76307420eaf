/** What each answer of an assessment means, and when each write of an intent is taken and what it leaves. */
module DeactivationAnswers {
  import opened Wrappers
  import opened RichMenuModel
  import opened RichMenuSteps
  import opened RichMenuInvariant
  import opened Deactivation
  import opened DeactivationProtocol

  // ---- Assessments ----

  /** Nothing is to be cleaned up, in the way or under way. */
  predicate Idle(v: StateView) {
    !v.cleanupWaits && v.blocking.None? && v.active.None?
  }

  /** LINE shows exactly the menu the channel holds as current. */
  predicate ShowsCurrent(v: StateView) {
    && v.observation.Some? && v.observation.value.kind == ManagedDefault
    && v.current.Some? && v.observation.value.managed == v.current
  }

  predicate Known(v: StateView) {
    v.observation.Some? && v.observation.value.kind != ObservationKind.ObservationUnknown
  }

  predicate ShowsNothing(v: StateView) {
    v.observation.Some? && v.observation.value.kind == DefaultNone && v.current.None?
  }

  /** Exactly when each answer is given. What waits for cleanup comes first, then what is in the way, then what is under
      way; after that LINE decides: nothing shown is clear, the own menu is to be unlinked if that can be proved to be
      the one assessed, anything else is somebody else's. */
  lemma AssessesExactly(v: StateView, q: Target, expected: Revision, provable: bool)
    ensures var a := Assess(v, q, expected, provable);
            && (a == CleanupNeeded <==> v.cleanupWaits)
            && (a.RecheckRequired? <==> !v.cleanupWaits && (v.blocking.Some? || v.active.Some?))
            && (a.RecheckRequired? ==> Some(a.subject) == if v.blocking.Some? then v.blocking else v.active)
            && (a == ClearToDisable <==> Idle(v) && ShowsNothing(v))
            && (a.UnlinkRequired? <==> Idle(v) && ShowsCurrent(v) && provable)
            && (a.UnlinkRequired? ==> a.proof == Proof(q.channel, expected, v.current.value, v.observation.value.fingerprint))
            && (a == ExternalBlocked <==> Idle(v) && Known(v) && !ShowsNothing(v) && !ShowsCurrent(v))
            && (a.Unassessable? <==> Idle(v) && (!Known(v) || (ShowsCurrent(v) && !provable)))
            && (a.Unassessable? ==> a.reason == if Known(v) then "ownership_unavailable" else "observation_unknown")
  {
  }

  /** What an owner is shown: the current menu, its own blocker and active operation, and whether anything waits for
      cleanup; nothing at all before its first operation in the channel. */
  lemma ViewsExactly(s: Store, q: Target)
    requires Inv(s)
    ensures var v := ViewOf(s, q); var slots := SlotsOf(s, q.channel);
            && (v.Some? <==> exists id :: InScope(s, q, id))
            && (v.Some? ==>
                  && v.value.current == slots.current
                  && (v.value.blocking.Some? <==> slots.blocking.Some? && InScope(s, q, slots.blocking.value))
                  && (v.value.blocking.Some? ==> v.value.blocking == slots.blocking)
                  && (v.value.active.Some? <==> slots.active.Some? && InScope(s, q, slots.active.value))
                  && (v.value.active.Some? ==> v.value.active == slots.active)
                  && (v.value.cleanupWaits <==>
                        exists r :: r in s.resources && s.resources[r].channel == q.channel
                                    && (s.resources[r].lifecycle == Old || s.resources[r].lifecycle == CleanupDue)))
  {
    if exists id :: InScope(s, q, id) {
      var id :| InScope(s, q, id);
      assert OperationOk(s, id);
    }
  }

  // ---- Writes ----

  /** The channel is there for the provider, and active. */
  predicate Live(t: Table, q: Target) {
    q.channel in t.channels && t.channels[q.channel].provider == q.provider && t.channels[q.channel].active
  }

  predicate Pending(t: Table, q: Target) {
    q.channel in t.intents && SameIntent(t.intents[q.channel], q) && t.intents[q.channel].status != Completed
  }

  /** A reservation is new exactly at the current revision of a channel with no intent pending, and is answered again
      exactly for the intent and revision it was made with. */
  lemma ReservesExactly(t: Table, q: Target, expected: Revision)
    requires TableOk(t)
    ensures var done := Reserve(t, q, expected);
            && (done.reply.Reserved? && !done.reply.replayed <==>
                  && Live(t, q) && q.provider != "" && t.channels[q.channel].revision == expected
                  && !OperationTaken(t, q.channel, q.operation)
                  && (q.channel in t.intents ==> t.intents[q.channel].status == Completed))
            && (done.reply.Reserved? && done.reply.replayed <==>
                  && Live(t, q) && q.channel in t.intents && SameIntent(t.intents[q.channel], q)
                  && t.intents[q.channel].expected == expected)
            && (done.reply.Reserved? ==> q.channel in done.table.intents && done.reply.view == done.table.intents[q.channel])
            && (if done.reply.Reserved? && !done.reply.replayed
                then done.table == t.(intents := t.intents[q.channel :=
                       Intent(q.operation, q.owner, q.provider, expected, Checking, None, None, None, false, None)])
                else done.table == t)
  {
    hide OperationTaken;
    if q.channel in t.intents {
      assert IntentOk(t, q.channel);
    }
  }

  /** The result has the shape its status asks for. */
  predicate ResultFits(status: IntentStatus, reason: Option<string>, subject: Option<Id>, recovery: Option<Id>, i: Intent) {
    match status
    case Unlinking => reason.None? && subject.Some? && recovery.None? && i.recovery.None?
    case ConfirmationRequired => reason.Some? && reason.value != "" && (recovery.Some? && i.recovery.Some? ==> recovery == i.recovery)
    case _ => false
  }

  /** A result is saved exactly on the pending intent at the revision both it and the channel carry. */
  lemma SavesExactly(t: Table, q: Target, expected: Revision, status: IntentStatus, reason: Option<string>,
                     subject: Option<Id>, recovery: Option<Id>)
    requires TableOk(t) && (status == Unlinking || status == ConfirmationRequired)
    ensures var done := SaveResult(t, q, expected, status, reason, subject, recovery);
            && (done.reply.Saved? <==>
                  && Live(t, q) && Pending(t, q)
                  && t.intents[q.channel].expected == expected == t.channels[q.channel].revision
                  && ResultFits(status, reason, subject, recovery, t.intents[q.channel]))
            && (done.reply.Saved? ==>
                  && q.channel in t.intents && q.channel in done.table.intents
                  && var i, i' := t.intents[q.channel], done.table.intents[q.channel];
                  && i'.status == status && i'.reason == reason && i'.subject == subject
                  && i'.recovery == (if recovery.Some? then recovery else i.recovery)
                  && i'.ready == (i.ready || recovery.Some?)
                  && i'.operation == i.operation && i'.owner == i.owner && i'.provider == i.provider
                  && i'.expected == i.expected && i'.completedAt == i.completedAt
                  && done.table == t.(intents := t.intents[q.channel := i']))
            && (!done.reply.Saved? ==> done.table == t)
  {
    hide OperationTaken;
    if q.channel in t.intents {
      assert IntentOk(t, q.channel);
    }
  }

  /** A recheck goes ahead exactly at the presented current revision, under the one recovery id the intent is bound to,
      and not while an unlink runs; a result that is already there is left as it is. */
  lemma AdvancesExactly(t: Table, q: Target, recovery: Id, presented: Revision)
    requires TableOk(t)
    ensures var done := AdvanceRecheckRevision(t, q, recovery, presented);
            && (done.reply.Locked? <==>
                  && Live(t, q) && Pending(t, q) && t.channels[q.channel].revision == presented
                  && var i := t.intents[q.channel];
                     if i.recovery.Some? then i.recovery == Some(recovery) else i.status == ConfirmationRequired)
            && (done.reply.Locked? ==>
                  && q.channel in t.intents && q.channel in done.table.intents
                  && var i, i' := t.intents[q.channel], done.table.intents[q.channel];
                  && i' == (if i.recovery.Some? && i.ready then i else i.(expected := presented, recovery := Some(recovery)))
                  && done.reply.view == i'
                  && done.table == t.(intents := t.intents[q.channel := i']))
            && (!done.reply.Locked? ==> done.table == t)
  {
    hide OperationTaken;
    if q.channel in t.intents {
      assert IntentOk(t, q.channel);
    }
  }

  /** A committed completion leaves the channel inactive under a new revision and the intent done with. */
  lemma CompletionLeaves(t: Table, q: Target, expected: Revision, now: Time)
    ensures var done := CompleteInactive(t, q, expected, now);
            && (done.reply.Done? ==>
                  && q.channel in t.channels && q.channel in t.intents
                  && q.channel in done.table.channels && q.channel in done.table.intents
                  && done.table.channels == t.channels[q.channel := t.channels[q.channel].(active := false, revision := now)]
                  && var i' := done.table.intents[q.channel];
                  && i'.status == Completed && i'.completedAt == Some(now)
                  && i'.reason.None? && i'.subject.None? && i'.recovery.None? && !i'.ready
                  && i'.operation == t.intents[q.channel].operation && i'.owner == t.intents[q.channel].owner
                  && i'.expected == t.intents[q.channel].expected
                  && done.table.intents == t.intents[q.channel := i'])
            && (!done.reply.Done? ==> done.table == t)
  {
  }

  /** A noted conflict asks for confirmation and makes a bound recovery's result ready. */
  lemma ConflictLeaves(t: Table, q: Target)
    ensures var done := RecordRevisionConflict(t, q);
            && (done.reply.Saved? ==>
                  && q.channel in t.intents
                  && done.table == t.(intents := t.intents[q.channel := t.intents[q.channel].(
                       status := ConfirmationRequired, reason := Some(STALE_REASON),
                       ready := t.intents[q.channel].ready || t.intents[q.channel].recovery.Some?)]))
            && (!done.reply.Saved? ==> done.table == t)
  {
  }

  // ---- The fence and the work a result asks for ----

  /** Behind a pending intent its owner may do exactly what the intent waits for: the cleanup once cleanup is asked for,
      and the operation under the bound recovery id on the subject it was bound with. */
  lemma FenceExactly(t: Table, c: Command)
    requires TableOk(t)
    ensures Allows(t, c) <==>
              c.channel in t.intents && t.intents[c.channel].status != Completed ==>
                && var i := t.intents[c.channel];
                && c.owner == i.owner && c.provider == i.provider
                && (|| (c.kind == Cleanup && i.reason == Some("cleanup_required"))
                    || (i.recovery.Some? && c.operation == i.recovery.value && c.subject == i.subject))
  {
  }

  /** Once a result that asks for cleanup is saved, the owner's cleanups pass and its ordinary work does not, unless it
      carries a recovery id bound without a subject. */
  lemma CleanupPassesOnceAskedFor(t: Table, q: Target, expected: Revision, recovery: Option<Id>, c: Command)
    requires TableOk(t) && c.channel == q.channel && c.owner == q.owner && c.provider == q.provider
    requires SaveResult(t, q, expected, ConfirmationRequired, Some(CLEANUP_REASON), None, recovery).reply.Saved?
    ensures c.kind == Cleanup ==>
              Allows(SaveResult(t, q, expected, ConfirmationRequired, Some(CLEANUP_REASON), None, recovery).table, c)
  {
    SavesExactly(t, q, expected, ConfirmationRequired, Some(CLEANUP_REASON), None, recovery);
  }
}
