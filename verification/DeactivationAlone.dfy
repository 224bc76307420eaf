/** How far a coordinator gets when nobody else touches the channel, with and without a menu to unlink first. */
module DeactivationAlone {
  import opened Wrappers
  import opened RichMenuModel
  import opened RichMenuSteps
  import opened RichMenuInvariant
  import opened RichMenuRuns
  import opened RichMenuPaths
  import opened RichMenuAnswers
  import opened RichMenuFinalization
  import opened Deactivation
  import opened DeactivationProtocol
  import opened DeactivationAnswers
  import opened DeactivationRuns

  /** The steps of one coordinator, one after the other. */
  ghost function Steps(w: World, id: Id, x: Chance, n: nat): World {
    if n == 0 then w
    else
      var before := Steps(w, id, x, n - 1);
      if id in before.jobs then NextAct(before, id, x) else before
  }

  lemma {:induction false} StepsGoOn(w: World, id: Id, x: Chance, m: nat, n: nat)
    ensures Steps(w, id, x, m + n) == Steps(Steps(w, id, x, m), id, x, n)
  {
    hide NextAct;
    if n > 0 {
      StepsGoOn(w, id, x, m, n - 1);
    }
  }

  /** The channel is as the coordinator expects it. */
  ghost predicate Stands(t: Table, q: Target, expected: Revision) {
    TableOk(t) && Holds(t, q, expected) && ChannelProblem(t, q, expected).None?
  }

  // ---- One assessment ----

  ghost function Observed(s: Store, q: Target, seen: Seen): Store {
    RecordObservation(s, q.channel, q.owner, q.provider, Observation(seen.kind, seen.fingerprint), seen.managed).store
  }

  /** What LINE shows, if a menu of ours, is this owner's. */
  predicate Recordable(s: Store, q: Target, seen: Seen) {
    seen.managed.Some? ==>
      && seen.managed.value in s.resources && s.resources[seen.managed.value].channel == q.channel
      && InScope(s, q, s.resources[seen.managed.value].origin)
  }

  lemma RecordableExactly(s: Store, q: Target, seen: Seen)
    requires Inv(s)
    ensures Recordable(s, q, seen) <==>
              seen.managed.Some? ==>
                && seen.managed.value in s.resources && s.resources[seen.managed.value].channel == q.channel
                && s.resources[seen.managed.value].origin in s.operations
                && s.operations[s.resources[seen.managed.value].origin].owner == q.owner
                && s.operations[s.resources[seen.managed.value].origin].provider == q.provider
  {
    if seen.managed.Some? && seen.managed.value in s.resources {
      assert ResourceOk(s, seen.managed.value);
    }
  }

  lemma ObservedKeeps(s: Store, q: Target, seen: Seen)
    requires Inv(s) && Recordable(s, q, seen)
    ensures var done := RecordObservation(s, q.channel, q.owner, q.provider, Observation(seen.kind, seen.fingerprint), seen.managed);
            && done.reply == Answer(true) && Inv(done.store)
            && done.store.operations == s.operations && done.store.resources == s.resources
            && SlotsOf(done.store, q.channel) ==
                 SlotsOf(s, q.channel).(observation := Some(Observation(seen.kind, seen.fingerprint)))
            && q.channel in done.store.channels
  {
    ObservationKeeps(s, q.channel, q.owner, q.provider, Observation(seen.kind, seen.fingerprint), seen.managed);
    ObservesExactly(s, q.channel, q.owner, q.provider, Observation(seen.kind, seen.fingerprint), seen.managed);
  }

  /** Nothing the owner is shown stands against disabling the channel. */
  predicate NothingStands(s: Store, q: Target) {
    Owns(s, q) ==>
      && var slots := SlotsOf(s, q.channel);
      && slots.current.None?
      && !HasLifecycle(s, q.channel, Old) && !HasLifecycle(s, q.channel, CleanupDue)
      && (slots.blocking.Some? ==> !InScope(s, q, slots.blocking.value))
      && (slots.active.Some? ==> !InScope(s, q, slots.active.value))
  }

  ghost function SeenView(s: Store, q: Target, seen: Seen): StateView {
    Chosen(ViewOf(s, q), ViewOf(Observed(s, q, seen), q), Some(seen))
  }

  /** The view that decides is the owner's view of the store, with what LINE shows. */
  lemma SeenViewExactly(s: Store, q: Target, seen: Seen)
    requires Inv(s) && Recordable(s, q, seen)
    ensures var v, slots := SeenView(s, q, seen), SlotsOf(s, q.channel);
            && v.observation == Some(seen)
            && (Idle(v) && v.current.None? <==> NothingStands(s, q))
            && (Owns(s, q) ==>
                  && v.current == slots.current
                  && (Free(s, q.channel) && !HasLifecycle(s, q.channel, Old) && !HasLifecycle(s, q.channel, CleanupDue) ==> Idle(v))
                  && (HasLifecycle(s, q.channel, Old) || HasLifecycle(s, q.channel, CleanupDue) ==> v.cleanupWaits))
  {
    ObservedKeeps(s, q, seen);
    var s' := Observed(s, q, seen);
    SameOwns(s, s', q);
    if Owns(s, q) {
      var id :| id in s.operations && InScope(s, q, id);
      assert OperationOk(s, id);
    }
    hide Inv;
    assert HasLifecycle(s', q.channel, Old) == HasLifecycle(s, q.channel, Old);
    assert HasLifecycle(s', q.channel, CleanupDue) == HasLifecycle(s, q.channel, CleanupDue);
  }

  lemma SameOwns(s: Store, s': Store, q: Target)
    requires s'.operations == s.operations
    ensures Owns(s', q) <==> Owns(s, q)
  {
    forall id
      ensures InScope(s', q, id) <==> InScope(s, q, id)
    {
    }
  }

  /** Five undisturbed steps read the channel twice, record what LINE shows in between, and decide. */
  lemma AssessesInFive(w: World, id: Id, x: Chance)
    requires id in w.jobs && w.jobs[id].phase == Resolving && x.failure.None? && Inv(w.store)
    requires Stands(w.table, w.jobs[id].target, w.jobs[id].expected) && Recordable(w.store, w.jobs[id].target, x.seen)
    ensures var job := w.jobs[id]; var q := job.target; var s' := Observed(w.store, q, x.seen);
            Steps(w, id, x, 5) ==
              At(w.(store := s'), id, Decided(Assess(SeenView(w.store, q, x.seen), q, job.expected, x.provable), OccupantsInScope(s', q)))
  {
    hide NextAct, Inv, Stands, ViewOf, DecidedBy, Observed, Recordable, RecordObservation;
    var q := w.jobs[id].target;
    ObservedKeeps(w.store, q, x.seen);
    StandingProblem(w.table, q, w.jobs[id].expected);
    var first := ViewOf(w.store, q);
    ResolvingActs(w, id, x);
    var w1 := At(w, id, Reading(true));
    ReadingActs(w1, id, x);
    var w2 := At(w, id, Observing(first));
    ObservingActs(w2, id, x, first);
    var w3 := At(w, id, Recording(first, x.seen));
    RecordingActs(w3, id, x, first, x.seen);
    var w4 := At(w.(store := Observed(w.store, q, x.seen)), id, Rereading(first, x.seen));
    RereadingActs(w4, id, x, first, x.seen);
    StepsGoOn(w, id, x, 4, 1);
    assert Steps(w, id, x, 0) == w && Steps(w, id, x, 1) == w1 && Steps(w, id, x, 2) == w2;
    assert Steps(w, id, x, 3) == w3 && Steps(w, id, x, 4) == w4;
    assert Steps(w4, id, x, 0) == w4;
  }

  lemma StandingProblem(t: Table, q: Target, expected: Revision)
    requires Stands(t, q, expected)
    ensures ChannelProblem(t, q, expected).None?
  {
  }

  lemma ResolvingActs(w: World, id: Id, x: Chance)
    requires id in w.jobs && w.jobs[id].phase == Resolving && x.failure.None?
    requires ChannelProblem(w.table, w.jobs[id].target, w.jobs[id].expected).None?
    ensures NextAct(w, id, x) == At(w, id, Reading(true))
  {
  }

  lemma ReadingActs(w: World, id: Id, x: Chance)
    requires id in w.jobs && w.jobs[id].phase == Reading(true) && x.failure.None?
    ensures NextAct(w, id, x) == At(w, id, Observing(ViewOf(w.store, w.jobs[id].target)))
  {
  }

  lemma ObservingActs(w: World, id: Id, x: Chance, first: Option<StateView>)
    requires id in w.jobs && w.jobs[id].phase == Observing(first) && x.failure.None?
    requires ChannelProblem(w.table, w.jobs[id].target, w.jobs[id].expected).None?
    ensures NextAct(w, id, x) == At(w, id, Recording(first, x.seen))
  {
  }

  lemma RecordingActs(w: World, id: Id, x: Chance, first: Option<StateView>, seen: Seen)
    requires id in w.jobs && w.jobs[id].phase == Recording(first, seen)
    requires var q := w.jobs[id].target;
             RecordObservation(w.store, q.channel, q.owner, q.provider, Observation(seen.kind, seen.fingerprint), seen.managed).reply == Answer(true)
    ensures NextAct(w, id, x) == At(w.(store := Observed(w.store, w.jobs[id].target, seen)), id, Rereading(first, seen))
  {
  }

  lemma RereadingActs(w: World, id: Id, x: Chance, first: Option<StateView>, seen: Seen)
    requires id in w.jobs && w.jobs[id].phase == Rereading(first, seen)
    ensures var job := w.jobs[id];
            NextAct(w, id, x) ==
              At(w, id, Decided(Assess(Chosen(first, ViewOf(w.store, job.target), Some(seen)), job.target, job.expected, x.provable),
                                OccupantsInScope(w.store, job.target)))
  {
  }

  // ---- What an assessment asks, and when it stops ----

  /** LINE is asked only while the channel is active at the expected revision, on both looks; an inactive channel is
      judged by what is stored, in one read; anything else ends the assessment with the reason. */
  lemma AssessmentGoesOn(w: World, id: Id, x: Chance)
    requires id in w.jobs && (w.jobs[id].phase == Resolving || w.jobs[id].phase.Observing?)
    ensures var job, q := w.jobs[id], w.jobs[id].target; var w' := NextAct(w, id, x);
            var found := q.channel in w.table.channels && w.table.channels[q.channel].provider == q.provider;
            var active := found && w.table.channels[q.channel].active;
            var expected := active && w.table.channels[q.channel].revision == job.expected;
            && w'.store == w.store && w'.table == w.table && id in w'.jobs && w'.jobs[id] == job.(phase := w'.jobs[id].phase)
            && (w'.jobs[id].phase == Reading(true) <==> job.phase == Resolving && x.failure.None? && expected)
            && (w'.jobs[id].phase == Reading(false) <==> job.phase == Resolving && x.failure.None? && found && !active)
            && (w'.jobs[id].phase.Recording? <==> job.phase.Observing? && x.failure.None? && expected)
            && (w'.jobs[id].phase.Recording? ==> w'.jobs[id].phase == Recording(job.phase.first, x.seen))
            && (!w'.jobs[id].phase.Reading? && !w'.jobs[id].phase.Recording? ==>
                  w'.jobs[id].phase == Decided(Unassessable(
                    if x.failure.Some? then x.failure.value
                    else if !found then "channel_unavailable" else if !active then "channel_inactive" else "stale_channel"), true))
  {
    hide Next, NextTable, ViewOf, Assess;
  }

  /** An inactive channel is judged by its stored state. */
  lemma InactiveReadsOnce(w: World, id: Id, x: Chance)
    requires id in w.jobs && w.jobs[id].phase == Reading(false) && x.failure.None?
    ensures var job := w.jobs[id]; var v := ViewOf(w.store, job.target);
            NextAct(w, id, x) ==
              At(w, id, Decided(Assess(if v.Some? then v.value else EMPTY_VIEW, job.target, job.expected, x.provable),
                                OccupantsInScope(w.store, job.target)))
  {
    hide Next, NextTable, ViewOf, Assess, OccupantsInScope;
  }

  /** What is stored of LINE is shown as it was seen, a menu of ours as the current one; without a current menu it says
      nothing. */
  lemma StoredObservation(slots: Slots)
    ensures var v := StoredSeen(slots);
            && (v.Some? <==> slots.observation.Some?)
            && (v.Some? ==>
                  && v.value.fingerprint == slots.observation.value.fingerprint
                  && var ours := slots.observation.value.kind == ManagedDefault || slots.observation.value.kind == OtherManagedDefault;
                  && v.value.kind == (if ours && slots.current.None? then ObservationKind.ObservationUnknown else slots.observation.value.kind)
                  && v.value.managed == (if ours then slots.current else None))
  {
  }

  /** A record that is refused ends the assessment, and one that is made leads to the second look. */
  lemma RecordingGoesOn(w: World, id: Id, x: Chance)
    requires id in w.jobs && w.jobs[id].phase.Recording? && Inv(w.store)
    ensures var job, w' := w.jobs[id], NextAct(w, id, x); var first, seen := job.phase.first, job.phase.seen;
            && w'.table == w.table && id in w'.jobs
            && w'.jobs[id] == job.(phase := if Recordable(w.store, job.target, seen) then Rereading(first, seen)
                                            else Decided(Unassessable("storage_unavailable"), true))
            && w'.store == Observed(w.store, job.target, seen)
  {
    hide Inv, NextTable, ViewOf, Assess, RecordObservation;
    var q, seen := w.jobs[id].target, w.jobs[id].phase.seen;
    RecordableExactly(w.store, q, seen);
    ObservesExactly(w.store, q.channel, q.owner, q.provider, Observation(seen.kind, seen.fingerprint), seen.managed);
  }

  /** A new intent may unlink and starts at the assessment; a recheck may not, and reconciles its subject first if it
      has one. */
  lemma JobsStart(w: World, step: Step)
    requires (step.Begin? || step.Resume?) && step.job !in w.jobs && step.job in NextWorld(w, step).jobs
    ensures var job := NextWorld(w, step).jobs[step.job];
            && job.target == step.target && job.allowUnlink == step.Begin?
            && step.target.channel in NextWorld(w, step).table.intents
            && var i := NextWorld(w, step).table.intents[step.target.channel];
            && job.expected == i.expected
            && (step.Begin? ==> job.phase == Resolving && job.recovery.None?)
            && (step.Resume? ==> job.recovery == Some(step.recovery)
                                 && job.phase == if i.subject.Some? then Recovering else Resolving)
  {
    hide Next, NextAct, OperationTaken, RowValid;
  }

  /** After a finished unlink the channel is assessed again, and then not unlinked a second time. */
  lemma UnlinksOnce(w: World, id: Id, x: Chance)
    requires id in w.jobs && w.jobs[id].phase == AwaitingUnlink && x.unlink == UnlinkDone
    ensures NextAct(w, id, x) == w.(jobs := w.jobs[id := w.jobs[id].(phase := Resolving, allowUnlink := false)])
  {
    hide Next, NextTable;
  }

  lemma NeverUnlinksAgain(w: World, id: Id, x: Chance)
    requires id in w.jobs && w.jobs[id].phase.Decided? && !w.jobs[id].allowUnlink
    ensures id in NextAct(w, id, x).jobs ==> NextAct(w, id, x).jobs[id].phase == NotingStale
    ensures NextAct(w, id, x).store == w.store
  {
    hide Next, NextTable;
  }

  // ---- Settling ----

  lemma StandingIntent(t: Table, q: Target, expected: Revision)
    requires Stands(t, q, expected)
    ensures q.channel in t.channels && q.channel in t.intents && t.channels[q.channel].active
    ensures t.channels[q.channel].provider == q.provider && t.channels[q.channel].revision == expected
    ensures SameIntent(t.intents[q.channel], q) && t.intents[q.channel].expected == expected
    ensures t.intents[q.channel].status != Completed
  {
  }

  /** A clear decision completes the intent, and any other leaves it pending. */
  lemma SettlesExactly(w: World, id: Id, x: Chance)
    requires id in w.jobs && w.jobs[id].phase.Decided? && Stands(w.table, w.jobs[id].target, w.jobs[id].expected)
    ensures IsCompleted(NextAct(w, id, x), w.jobs[id].target.channel) <==> w.jobs[id].phase.assessment == ClearToDisable
  {
    hide Stands, TableOk, OperationTaken;
    var q, expected := w.jobs[id].target, w.jobs[id].expected;
    StandingIntent(w.table, q, expected);
    StandingTable(w.table, q, expected);
    CompletionNeedsTheCurrentRevision(w.table, q, expected, x.now);
  }

  predicate Bindable(t: Table, job: Job) {
    && job.target.channel in t.intents
    && (job.recovery.Some? && t.intents[job.target.channel].recovery.Some? ==> job.recovery == t.intents[job.target.channel].recovery)
  }

  /** A decision that comes after the channel was written again is not stored; the conflict is noted instead. */
  lemma StaleIsNoted(w: World, id: Id, x: Chance)
    requires id in w.jobs && w.jobs[id].phase.Decided? && TableOk(w.table)
    requires !(w.jobs[id].phase.assessment.UnlinkRequired? && w.jobs[id].allowUnlink)
    requires DeactivationAnswers.Live(w.table, w.jobs[id].target) && Pending(w.table, w.jobs[id].target)
    requires w.table.channels[w.jobs[id].target.channel].revision != w.jobs[id].expected
    ensures var q := w.jobs[id].target; var w1 := NextAct(w, id, x);
            && w1 == w.(jobs := w.jobs[id := w.jobs[id].(phase := NotingStale)])
            && var w2 := NextAct(w1, id, x);
            && id !in w2.jobs && w2.store == w.store && w2.table.channels == w.table.channels
            && q.channel in w2.table.intents
            && w2.table.intents[q.channel].status == ConfirmationRequired
            && w2.table.intents[q.channel].reason == Some("stale_channel")
  {
    hide OperationTaken, TableOk;
    ConflictIsNotedExactly(w.table, w.jobs[id].target);
    ConflictLeaves(w.table, w.jobs[id].target);
  }

  /** Any other decision is left to be confirmed, with its reason and, for a recheck, its subject. */
  lemma DecisionsAreSaved(w: World, id: Id, x: Chance)
    requires id in w.jobs && w.jobs[id].phase.Decided? && w.jobs[id].phase.assessment != ClearToDisable
    requires !(w.jobs[id].phase.assessment.UnlinkRequired? && w.jobs[id].allowUnlink)
    requires Stands(w.table, w.jobs[id].target, w.jobs[id].expected) && Bindable(w.table, w.jobs[id])
    ensures var job, a := w.jobs[id], w.jobs[id].phase.assessment; var w' := NextAct(w, id, x);
            && w'.table.channels == w.table.channels && w'.store == w.store && id !in w'.jobs
            && job.target.channel in w'.table.intents
            && var i := w'.table.intents[job.target.channel];
            && i.status == ConfirmationRequired
            && i.reason == Some(
                 match a
                 case CleanupNeeded => "cleanup_required"
                 case ExternalBlocked => "external_default"
                 case Unassessable(reason) => if reason == "" then "storage_unavailable" else reason
                 case _ => "recheck_required")
            && i.subject == (if a.RecheckRequired? then Some(a.subject) else None)
            && i.recovery == (if job.recovery.Some? then job.recovery else w.table.intents[job.target.channel].recovery)
            && (job.recovery.Some? ==> i.ready)
  {
    hide Stands, TableOk, SaveResult;
    var job := w.jobs[id];
    StandingIntent(w.table, job.target, job.expected);
    StandingTable(w.table, job.target, job.expected);
    var a := job.phase.assessment;
    SavesExactly(w.table, job.target, job.expected, ConfirmationRequired, Some(Reason(a)),
                 if a.RecheckRequired? then Some(a.subject) else None, job.recovery);
  }

  /** An unlink still running leaves the intent unlinking, one that ended otherwise leaves it to be confirmed. */
  lemma UnlinkEndsAreSaved(w: World, id: Id, x: Chance)
    requires id in w.jobs && w.jobs[id].phase == AwaitingUnlink && x.unlink != UnlinkDone
    requires x.unlink.UnlinkEnded? ==> x.unlink.reason != ""
    requires Stands(w.table, w.jobs[id].target, w.jobs[id].expected) && Bindable(w.table, w.jobs[id])
    requires x.unlink == UnlinkRunning ==>
               w.jobs[id].recovery.None? && w.table.intents[w.jobs[id].target.channel].recovery.None?
    ensures var q := w.jobs[id].target; var w' := NextAct(w, id, x);
            && w'.table.channels == w.table.channels && w'.store == w.store && id !in w'.jobs
            && q.channel in w'.table.intents
            && var i := w'.table.intents[q.channel];
            && i.status == (if x.unlink == UnlinkRunning then IntentStatus.Unlinking else ConfirmationRequired)
            && i.reason == (if x.unlink == UnlinkRunning then None else Some(x.unlink.reason))
            && i.subject == (if x.unlink == UnlinkRunning || x.unlink.known then Some(q.operation) else None)
  {
    hide Stands, TableOk, SaveResult;
    var job := w.jobs[id];
    StandingIntent(w.table, job.target, job.expected);
    StandingTable(w.table, job.target, job.expected);
    if x.unlink == UnlinkRunning {
      SavesExactly(w.table, job.target, job.expected, IntentStatus.Unlinking, None, Some(job.target.operation), job.recovery);
    } else {
      SavesExactly(w.table, job.target, job.expected, ConfirmationRequired, Some(x.unlink.reason),
                   if x.unlink.known then Some(job.target.operation) else None, job.recovery);
    }
  }

  lemma StandingTable(t: Table, q: Target, expected: Revision)
    requires Stands(t, q, expected)
    ensures TableOk(t)
  {
  }

  /** An undisturbed coordinator completes its intent exactly when LINE shows no default menu and nothing the owner
      is shown stands against it. */
  lemma UndisturbedCompletesExactly(w: World, id: Id, x: Chance)
    requires id in w.jobs && w.jobs[id].phase == Resolving && x.failure.None? && Inv(w.store)
    requires Stands(w.table, w.jobs[id].target, w.jobs[id].expected) && Recordable(w.store, w.jobs[id].target, x.seen)
    ensures IsCompleted(Steps(w, id, x, 6), w.jobs[id].target.channel) <==>
              x.seen.kind == DefaultNone && NothingStands(w.store, w.jobs[id].target)
  {
    hide Inv, Stands, NextAct, Assess, SeenView, NothingStands, Recordable;
    var q := w.jobs[id].target;
    AssessesInFive(w, id, x);
    SeenViewExactly(w.store, q, x.seen);
    AssessesExactly(SeenView(w.store, q, x.seen), q, w.jobs[id].expected, x.provable);
    assert Steps(w, id, x, 6) == NextAct(Steps(w, id, x, 5), id, x);
    SettlesExactly(Steps(w, id, x, 5), id, x);
  }

  // ---- With a menu to unlink first ----

  /** The current menu is this owner's, LINE shows it, and nothing else is in the channel. */
  predicate UnlinkDue(w: World, id: Id, x: Chance, r: Id) {
    && id in w.jobs && w.jobs[id].phase == Resolving && w.jobs[id].allowUnlink
    && var q := w.jobs[id].target;
    && q.provider != "" && q.operation !in w.store.operations
    && Free(w.store, q.channel) && SlotsOf(w.store, q.channel).current == Some(r)
    && !HasLifecycle(w.store, q.channel, Old) && !HasLifecycle(w.store, q.channel, CleanupDue)
    && x.failure.None? && x.provable && x.reference == ReferenceFence.Locked && x.fence == Matched
    && x.seen.kind == ManagedDefault && x.seen.managed == Some(r)
    && r in w.store.resources && InScope(w.store, q, w.store.resources[r].origin)
  }

  /** The unlink is accepted and waits for its first claim. */
  predicate Unlinking(s: Store, q: Target, r: Id) {
    && q.operation in s.operations
    && var op := s.operations[q.operation];
    && op.channel == q.channel && op.owner == q.owner && op.provider == q.provider
    && op.kind == Unlink && op.status == Status.Accepted && op.startedAt.None? && op.target == Some(r)
    && q.channel in s.channels
    && s.channels[q.channel].active == Some(q.operation) && s.channels[q.channel].current == Some(r)
    && r in s.resources && s.resources[r].channel == q.channel && s.resources[r].lifecycle == Applied
    && !HasLifecycle(s, q.channel, Old) && !HasLifecycle(s, q.channel, CleanupDue)
  }

  /** Seven undisturbed steps find that an unlink is due, and reserve it. */
  lemma UnlinkIsReserved(w: World, id: Id, x: Chance, r: Id)
    requires UnlinkDue(w, id, x, r) && Inv(w.store) && Stands(w.table, w.jobs[id].target, w.jobs[id].expected)
    ensures var w' := Steps(w, id, x, 7);
            && w'.table == w.table && id in w'.jobs && w'.jobs[id] == w.jobs[id].(phase := AwaitingUnlink)
            && Unlinking(w'.store, w.jobs[id].target, r) && Inv(w'.store)
  {
    hide Stands, HasLifecycle, NextAct;
    var job := w.jobs[id];
    var q := job.target;
    ChannelOf(w.store, r, q);
    AssessesInFive(w, id, x);
    ObservedKeeps(w.store, q, x.seen);
    OwnerIsThere(w.store, q, r);
    SeenViewExactly(w.store, q, x.seen);
    AssessesExactly(SeenView(w.store, q, x.seen), q, job.expected, x.provable);
    var s' := Observed(w.store, q, x.seen);
    var proof := Proof(q.channel, job.expected, r, x.seen.fingerprint);
    var w5, w6 := Steps(w, id, x, 5), At(w.(store := s'), id, ReservingUnlink(proof));
    assert w5.jobs[id].phase.Decided? && w5.jobs[id].phase.assessment == UnlinkRequired(proof);
    DecisionReserves(w5, id, x);
    assert Steps(w, id, x, 6) == w6;
    ReservationIsMade(w.store, s', q, job.expected, r, x);
    ReservingActs(w6, id, x, proof);
    assert Steps(w, id, x, 7) == NextAct(w6, id, x);
  }

  lemma ChannelOf(s: Store, r: Id, q: Target)
    requires Inv(s) && r in s.resources && SlotsOf(s, q.channel).current == Some(r)
    ensures s.resources[r].channel == q.channel && s.resources[r].lifecycle == Applied && q.channel in s.channels
  {
    assert SlotsOk(s, q.channel);
  }

  lemma OwnerIsThere(s: Store, q: Target, r: Id)
    requires r in s.resources && InScope(s, q, s.resources[r].origin)
    ensures Owns(s, q)
  {
  }

  lemma DecisionReserves(w: World, id: Id, x: Chance)
    requires id in w.jobs && w.jobs[id].phase.Decided? && w.jobs[id].phase.assessment.UnlinkRequired? && w.jobs[id].allowUnlink
    ensures NextAct(w, id, x) == At(w, id, ReservingUnlink(w.jobs[id].phase.assessment.proof))
  {
  }

  lemma ReservingActs(w: World, id: Id, x: Chance, proof: Proof)
    requires id in w.jobs && w.jobs[id].phase == ReservingUnlink(proof)
    ensures var q := w.jobs[id].target;
            var c := DisableCommand(q.operation, q.channel, q.owner, q.provider, w.jobs[id].expected, proof);
            NextAct(w, id, x) == At(w.(store := ReserveDisableUnlink(w.store, c, x.reference, x.fence, x.now).store), id, AwaitingUnlink)
  {
  }

  lemma ReservationIsMade(s: Store, s': Store, q: Target, expected: Revision, r: Id, x: Chance)
    requires Inv(s') && s'.operations == s.operations && s'.resources == s.resources && q.channel in s'.channels
    requires SlotsOf(s', q.channel) == SlotsOf(s, q.channel).(observation := Some(Observation(ManagedDefault, x.seen.fingerprint)))
    requires q.provider != "" && q.operation !in s.operations && Free(s, q.channel)
    requires SlotsOf(s, q.channel).current == Some(r) && r in s.resources && s.resources[r].channel == q.channel
    requires s.resources[r].lifecycle == Applied && InScope(s, q, s.resources[r].origin)
    requires !HasLifecycle(s, q.channel, Old) && !HasLifecycle(s, q.channel, CleanupDue)
    requires x.reference == ReferenceFence.Locked && x.fence == Matched
    ensures var c := DisableCommand(q.operation, q.channel, q.owner, q.provider, expected,
                                    Proof(q.channel, expected, r, x.seen.fingerprint));
            var done := ReserveDisableUnlink(s', c, x.reference, x.fence, x.now);
            done.reply.DisableReserved? && Unlinking(done.store, q, r) && Inv(done.store)
  {
    hide Inv, ReserveDisableUnlink;
    var c := DisableCommand(q.operation, q.channel, q.owner, q.provider, expected,
                            Proof(q.channel, expected, r, x.seen.fingerprint));
    RichMenuAnswers.ReservesExactly(s', c, x.reference, x.fence, x.now);
    assert ReserveDisableUnlink(s', c, x.reference, x.fence, x.now).reply.DisableReserved?;
    ReservedWaits(s', c, x.reference, x.fence, x.now);
    ReserveDisableKeeps(s', c, x.reference, x.fence, x.now);
  }

  // ---- The unlink itself ----

  /** The unlink's calls when LINE clears the default menu and confirms it. */
  ghost function UnlinkCalls(operation: Id, r: Id, at: Time, timeout: nat): seq<Call> {
    [Claim(operation, ClearingDefault, at, timeout),
     Complete(StageOutcome(operation, ClearingDefault, Status.Processing, Verifying, Code.Accepted), Matched, at),
     Claim(operation, Verifying, at, timeout),
     Unlinked(r),
     Complete(StageOutcome(operation, Verifying, Status.Succeeded, Verifying, Code.Succeeded), Matched, at)]
  }

  /** The menu is off LINE's default, and the unlink is over. */
  predicate UnlinkedMenu(s: Store, s': Store, q: Target, r: Id) {
    && q.operation in s'.operations && r in s.resources
    && InScope(s', q, q.operation) && s'.operations[q.operation].status == Status.Succeeded
    && s'.resources == s.resources[r := s.resources[r].(lifecycle := CleanupDue)]
    && Free(s', q.channel) && SlotsOf(s', q.channel).current.None?
  }

  /** An unlink under way at the stage, claimed or not. */
  predicate UnlinkAt(s: Store, s0: Store, q: Target, r: Id, stage: Stage, started: Option<Time>) {
    && q.operation in s.operations && InScope(s, q, q.operation)
    && var op := s.operations[q.operation];
    && op.kind == Unlink && op.status == Status.Processing && op.stage == Some(stage) && op.startedAt == started
    && s.resources == s0.resources
    && q.channel in s.channels && s.channels[q.channel].active == Some(q.operation) && s.channels[q.channel].current == Some(r)
  }

  lemma UnlinkClaims(s: Store, q: Target, r: Id, at: Time, timeout: nat)
    requires Inv(s) && Unlinking(s, q, r)
    ensures var s' := Next(s, Claim(q.operation, ClearingDefault, at, timeout)).store;
            UnlinkAt(s', s, q, r, ClearingDefault, Some(at)) && Inv(s')
  {
    hide Inv, ClaimStage, HasLifecycle;
    NextKeepsInv(s, Claim(q.operation, ClearingDefault, at, timeout));
    ClaimsExactly(s, q.operation, ClearingDefault, at, timeout);
    ClaimedWorks(s, q.operation, ClearingDefault, at, timeout);
  }

  lemma UnlinkClears(s: Store, s0: Store, q: Target, r: Id, at: Time)
    requires Inv(s) && UnlinkAt(s, s0, q, r, ClearingDefault, Some(at))
    ensures var call := Complete(StageOutcome(q.operation, ClearingDefault, Status.Processing, Verifying, Code.Accepted), Matched, at);
            UnlinkAt(Next(s, call).store, s0, q, r, Verifying, None) && Inv(Next(s, call).store)
  {
    hide Inv, CompleteStage;
    var out := StageOutcome(q.operation, ClearingDefault, Status.Processing, Verifying, Code.Accepted);
    NextKeepsInv(s, Complete(out, Matched, at));
    FollowsIsNext(Unlink, 0);
    CompletesExactly(s, out, Matched, at);
    CompletionOutcomes(s, out, Matched, at);
  }

  lemma UnlinkClaimsAgain(s: Store, s0: Store, q: Target, r: Id, at: Time, timeout: nat)
    requires Inv(s) && UnlinkAt(s, s0, q, r, Verifying, None)
    ensures var s' := Next(s, Claim(q.operation, Verifying, at, timeout)).store;
            UnlinkAt(s', s0, q, r, Verifying, Some(at)) && Inv(s')
  {
    hide Inv, ClaimStage;
    NextKeepsInv(s, Claim(q.operation, Verifying, at, timeout));
    ClaimsExactly(s, q.operation, Verifying, at, timeout);
    ClaimedWorks(s, q.operation, Verifying, at, timeout);
  }

  lemma UnlinkGivesUp(s: Store, s0: Store, q: Target, r: Id, at: Time)
    requires Inv(s) && UnlinkAt(s, s0, q, r, Verifying, Some(at))
    requires r in s0.resources && s0.resources[r].channel == q.channel && s0.resources[r].lifecycle == Applied
    ensures var s1 := RichMenuSteps.FinalizeUnlink(s, r).store;
            && Inv(s1) && s1.operations == s.operations
            && s1.resources == s0.resources[r := s0.resources[r].(lifecycle := CleanupDue)]
            && SlotsOf(s1, q.channel).active == Some(q.operation) && SlotsOf(s1, q.channel).current.None?
  {
    hide Inv, RichMenuSteps.FinalizeUnlink;
    MarkCleanupKeeps(s, r);
    GivesUpExactly(s, r, at);
  }

  lemma UnlinkEnds(s1: Store, s: Store, s0: Store, q: Target, r: Id, at: Time)
    requires UnlinkAt(s, s0, q, r, Verifying, Some(at)) && r in s0.resources
    requires Inv(s1) && s1.operations == s.operations
    requires s1.resources == s0.resources[r := s0.resources[r].(lifecycle := CleanupDue)]
    requires SlotsOf(s1, q.channel).active == Some(q.operation) && SlotsOf(s1, q.channel).current.None?
    ensures var out := StageOutcome(q.operation, Verifying, Status.Succeeded, Verifying, Code.Succeeded);
            var s' := CompleteStage(s1, out, Matched, at).store;
            UnlinkedMenu(s0, s', q, r) && Inv(s')
  {
    hide Inv, CompleteStage;
    var out := StageOutcome(q.operation, Verifying, Status.Succeeded, Verifying, Code.Succeeded);
    CompleteStageKeeps(s1, out, Matched, at);
    CompletesExactly(s1, out, Matched, at);
    CompletionOutcomes(s1, out, Matched, at);
  }

  lemma RunOfFive(s: Store, calls: seq<Call>)
    requires |calls| == 5
    ensures Run(s, calls) ==
            Next(Next(Next(Next(Next(s, calls[0]).store, calls[1]).store, calls[2]).store, calls[3]).store, calls[4]).store
  {
    hide Next;
    assert calls[..4][..3] == calls[..3] && calls[..3][..2] == calls[..2] && calls[..2][..1] == calls[..1] && calls[..1][..0] == [];
    assert Run(s, calls[..1]) == Next(s, calls[0]).store;
    assert Run(s, calls[..2]) == Next(Run(s, calls[..1]), calls[1]).store;
    assert Run(s, calls[..3]) == Next(Run(s, calls[..2]), calls[2]).store;
    assert Run(s, calls[..4]) == Next(Run(s, calls[..3]), calls[3]).store;
  }

  /** The unlink succeeds and takes the menu off LINE's default, but leaves it to be cleaned up. */
  lemma UnlinkSucceeds(s: Store, q: Target, r: Id, at: Time, timeout: nat)
    requires Inv(s) && Unlinking(s, q, r)
    ensures var s' := Run(s, UnlinkCalls(q.operation, r, at, timeout));
            UnlinkedMenu(s, s', q, r) && Inv(s')
  {
    hide Inv, Next, UnlinkAt, UnlinkedMenu;
    var calls := UnlinkCalls(q.operation, r, at, timeout);
    RunOfFive(s, calls);
    UnlinkClaims(s, q, r, at, timeout);
    var s1 := Next(s, calls[0]).store;
    UnlinkClears(s1, s, q, r, at);
    var s2 := Next(s1, calls[1]).store;
    UnlinkClaimsAgain(s2, s, q, r, at, timeout);
    var s3 := Next(s2, calls[2]).store;
    UnlinkGivesUp(s3, s, q, r, at);
    UnlinkEnds(RichMenuSteps.FinalizeUnlink(s3, r).store, s3, s, q, r, at);
    LastTwo(s3, q.operation, r, at);
  }

  lemma LastTwo(s: Store, operation: Id, r: Id, at: Time)
    ensures var out := StageOutcome(operation, Verifying, Status.Succeeded, Verifying, Code.Succeeded);
            Next(Next(s, Unlinked(r)).store, Complete(out, Matched, at)).store ==
              CompleteStage(RichMenuSteps.FinalizeUnlink(s, r).store, out, Matched, at).store
  {
  }

  // ---- The second assessment ----

  /** After a finished unlink the coordinator completes its intent exactly when nothing is left in the channel. */
  lemma AfterUnlinkCompletesExactly(w: World, id: Id, x: Chance)
    requires id in w.jobs && w.jobs[id].phase == AwaitingUnlink && x.unlink == UnlinkDone && x.failure.None? && Inv(w.store)
    requires Stands(w.table, w.jobs[id].target, w.jobs[id].expected) && Recordable(w.store, w.jobs[id].target, x.seen)
    ensures IsCompleted(Steps(w, id, x, 7), w.jobs[id].target.channel) <==>
              x.seen.kind == DefaultNone && NothingStands(w.store, w.jobs[id].target)
  {
    hide Inv, Stands, NothingStands, Recordable;
    var w1 := w.(jobs := w.jobs[id := w.jobs[id].(phase := Resolving, allowUnlink := false)]);
    assert Steps(w, id, x, 0) == w;
    assert Steps(w, id, x, 1) == w1;
    StepsGoOn(w, id, x, 1, 6);
    UndisturbedCompletesExactly(w1, id, x);
  }

  ghost function AfterEngine(w: World, calls: seq<Call>): World {
    w.(store := Run(w.store, calls))
  }

  /** What the second chance shows once the default menu is gone. */
  predicate ShowsItGone(x: Chance) {
    x.unlink == UnlinkDone && x.failure.None? && x.seen.kind == DefaultNone && x.seen.managed.None?
  }

  /** The unlink a coordinator runs itself leaves its menu to be cleaned up, so by itself it never gets to disabling
      the channel: the intent is left waiting for confirmation. */
  lemma OwnUnlinkLeavesCleanup(w: World, id: Id, x: Chance, r: Id, at: Time, timeout: nat, x2: Chance)
    requires UnlinkDue(w, id, x, r) && Inv(w.store) && Stands(w.table, w.jobs[id].target, w.jobs[id].expected) && ShowsItGone(x2)
    ensures var q := w.jobs[id].target;
            var unlinked := AfterEngine(Steps(w, id, x, 7), UnlinkCalls(q.operation, r, at, timeout));
            && q.operation in unlinked.store.operations && unlinked.store.operations[q.operation].status == Status.Succeeded
            && SlotsOf(unlinked.store, q.channel).current.None?
            && !IsCompleted(Steps(unlinked, id, x2, 7), q.channel)
  {
    hide Inv, Stands, UnlinkDue, Run, UnlinkCalls, Unlinking, NothingStands;
    var q := UnlinkTarget(w, id, x, r);
    UnlinkIsReserved(w, id, x, r);
    var w7 := Steps(w, id, x, 7);
    UnlinkSucceeds(w7.store, q, r, at, timeout);
    var unlinked := AfterEngine(w7, UnlinkCalls(q.operation, r, at, timeout));
    MenuStands(w7.store, unlinked.store, q, r);
    AfterUnlinkCompletesExactly(unlinked, id, x2);
  }

  lemma UnlinkTarget(w: World, id: Id, x: Chance, r: Id) returns (q: Target)
    requires UnlinkDue(w, id, x, r)
    ensures id in w.jobs && q == w.jobs[id].target
  {
    q := w.jobs[id].target;
  }

  lemma MenuStands(s: Store, s': Store, q: Target, r: Id)
    requires Unlinking(s, q, r) && UnlinkedMenu(s, s', q, r)
    ensures !NothingStands(s', q) && q.operation in s'.operations && s'.operations[q.operation].status == Status.Succeeded
    ensures SlotsOf(s', q.channel).current.None?
  {
    assert s'.resources[r].lifecycle == CleanupDue && s'.resources[r].channel == q.channel;
    assert InScope(s', q, q.operation);
  }

  /** It gets there exactly if the menu is deleted before it looks again. */
  lemma DeletedMenuCompletes(w: World, id: Id, x: Chance, r: Id, at: Time, timeout: nat, x2: Chance)
    requires UnlinkDue(w, id, x, r) && Inv(w.store) && Stands(w.table, w.jobs[id].target, w.jobs[id].expected) && ShowsItGone(x2)
    ensures var q := w.jobs[id].target;
            var unlinked := AfterEngine(Steps(w, id, x, 7), UnlinkCalls(q.operation, r, at, timeout));
            var deleted := unlinked.(store := Next(unlinked.store, DeletedAway(r, at)).store);
            IsCompleted(Steps(deleted, id, x2, 7), q.channel)
  {
    hide Inv, Stands, UnlinkDue, Run, UnlinkCalls, Unlinking, NothingStands, Next;
    var q := UnlinkTarget(w, id, x, r);
    UnlinkIsReserved(w, id, x, r);
    var w7 := Steps(w, id, x, 7);
    UnlinkSucceeds(w7.store, q, r, at, timeout);
    var unlinked := AfterEngine(w7, UnlinkCalls(q.operation, r, at, timeout));
    var deleted := unlinked.(store := Next(unlinked.store, DeletedAway(r, at)).store);
    NextKeepsInv(unlinked.store, DeletedAway(r, at));
    NothingIsLeft(w7.store, unlinked.store, q, r, at);
    AfterUnlinkCompletesExactly(deleted, id, x2);
  }

  lemma NothingIsLeft(s: Store, s': Store, q: Target, r: Id, at: Time)
    requires Unlinking(s, q, r) && UnlinkedMenu(s, s', q, r) && Inv(s')
    ensures NothingStands(Next(s', DeletedAway(r, at)).store, q)
  {
    GivesUpExactly(s', r, at);
    hide Inv, RichMenuSteps.FinalizeDeleted;
  }
}
