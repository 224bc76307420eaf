/** Runs of any number of coordinators among all rich-menu, repair and channel writes. */
module DeactivationRuns {
  import opened Wrappers
  import opened RichMenuModel
  import opened RichMenuSteps
  import opened RichMenuInvariant
  import opened RichMenuRuns
  import opened Deactivation
  import opened DeactivationProtocol

  /** Where a coordinator stands between two of its transactions. */
  datatype Phase =
    | Recovering
    | Resolving
    | Reading(live: bool)
    | Observing(first: Option<StateView>)
    | Recording(first: Option<StateView>, seen: Seen)
    | Rereading(first: Option<StateView>, seen: Seen)
    // `scoped`: at the deciding read, whatever occupied the channel belonged to the asking owner.
    | Decided(assessment: Assessment, scoped: bool)
    | ReservingUnlink(proof: Proof)
    | AwaitingUnlink
    | NotingStale

  datatype Job = Job(target: Target, expected: Revision, recovery: Option<Id>, allowUnlink: bool, phase: Phase)

  datatype UnlinkEnd = UnlinkDone | UnlinkRunning | UnlinkEnded(reason: string, known: bool)

  /** What the outside answers while a coordinator takes its next step. */
  datatype Chance = Chance(
    failure: Option<string>,
    seen: Seen,
    provable: bool,
    unlink: UnlinkEnd,
    reference: ReferenceFence,
    fence: Fence,
    now: Time)

  datatype World = World(store: Store, table: Table, jobs: map<Id, Job>)

  datatype Step =
    | Engine(call: Call)
    | TableStep(write: TableCall)
    | Begin(job: Id, target: Target, expected: Revision)
    | Resume(job: Id, target: Target, recovery: Id, presented: Revision)
    | Act(job: Id, chance: Chance)
    | Crash(job: Id)

  function At(w: World, id: Id, phase: Phase): World
    requires id in w.jobs
  {
    w.(jobs := w.jobs[id := w.jobs[id].(phase := phase)])
  }

  function Gone(w: World, id: Id): World {
    w.(jobs := w.jobs - {id})
  }

  function Reason(a: Assessment): string {
    match a
    case ClearToDisable => ""
    case UnlinkRequired(_) => "recheck_required"
    case ExternalBlocked => "external_default"
    case RecheckRequired(_) => "recheck_required"
    case CleanupNeeded => CLEANUP_REASON
    case Unassessable(reason) => if reason == "" then "storage_unavailable" else reason
  }

  function Confirmation(job: Job, reason: string, subject: Option<Id>): TableCall {
    SaveCall(job.target, job.expected, ConfirmationRequired, Some(reason), subject, job.recovery)
  }

  /** The write a decision leads to. */
  function Settlement(job: Job, a: Assessment, now: Time): TableCall {
    match a
    case ClearToDisable => CompleteCall(job.target, job.expected, now)
    case RecheckRequired(subject) => Confirmation(job, Reason(a), Some(subject))
    case _ => Confirmation(job, Reason(a), None)
  }

  /** A write refused as stale is followed by a note of the conflict; anything else ends the coordinator. */
  function Settle(w: World, id: Id, call: TableCall): World
    requires id in w.jobs
  {
    var done := NextTable(w.table, call);
    var w' := w.(table := done.table);
    if done.reply == Conflicted(Conflict.StaleChannel) then At(w', id, NotingStale) else Gone(w', id)
  }

  function Failed(w: World, id: Id, reason: string): World
    requires id in w.jobs
  {
    At(w, id, Decided(Unassessable(reason), true))
  }

  function ChannelProblem(t: Table, q: Target, expected: Revision): Option<string> {
    if q.channel !in t.channels || t.channels[q.channel].provider != q.provider then Some("channel_unavailable")
    else if !t.channels[q.channel].active then Some("channel_inactive")
    else if t.channels[q.channel].revision != expected then Some("stale_channel")
    else None
  }

  /** A decision is taken on what one read of the store shows. */
  ghost function DecidedBy(w: World, id: Id, first: Option<StateView>, seen: Option<Seen>, provable: bool): World
    requires id in w.jobs
  {
    var job := w.jobs[id];
    var a := Assess(Chosen(first, ViewOf(w.store, job.target), seen), job.target, job.expected, provable);
    At(w, id, Decided(a, OccupantsInScope(w.store, job.target)))
  }

  ghost function NextAct(w: World, id: Id, x: Chance): World
    requires id in w.jobs
  {
    var job := w.jobs[id];
    var q := job.target;
    match job.phase
    case Recovering => if x.failure.Some? then Failed(w, id, x.failure.value) else At(w, id, Resolving)
    case Resolving =>
      if x.failure.Some? then Failed(w, id, x.failure.value)
      else
        var problem := ChannelProblem(w.table, q, job.expected);
        if problem == Some("channel_inactive") then At(w, id, Reading(false))
        else if problem.Some? then Failed(w, id, problem.value)
        else At(w, id, Reading(true))
    case Reading(live) =>
      if x.failure.Some? then Failed(w, id, x.failure.value)
      else if live then At(w, id, Observing(ViewOf(w.store, q)))
      else DecidedBy(w, id, None, None, x.provable)
    case Observing(first) =>
      if x.failure.Some? then Failed(w, id, x.failure.value)
      else if ChannelProblem(w.table, q, job.expected).Some?
      then Failed(w, id, ChannelProblem(w.table, q, job.expected).value)
      else At(w, id, Recording(first, x.seen))
    case Recording(first, seen) =>
      var recorded := Next(w.store, Observe(q.channel, q.owner, q.provider, Observation(seen.kind, seen.fingerprint), seen.managed));
      var w' := w.(store := recorded.store);
      if recorded.reply == Answer(true) then At(w', id, Rereading(first, seen)) else Failed(w', id, "storage_unavailable")
    case Rereading(first, seen) =>
      DecidedBy(w, id, first, Some(seen), x.provable)
    case Decided(a, _) =>
      if a.UnlinkRequired? && job.allowUnlink then At(w, id, ReservingUnlink(a.proof))
      else Settle(w, id, Settlement(job, a, x.now))
    case ReservingUnlink(proof) =>
      var c := DisableCommand(q.operation, q.channel, q.owner, q.provider, job.expected, proof);
      At(w.(store := Next(w.store, ReserveDisable(c, x.reference, x.fence, x.now)).store), id, AwaitingUnlink)
    case AwaitingUnlink =>
      (match x.unlink
       case UnlinkDone => w.(jobs := w.jobs[id := job.(phase := Resolving, allowUnlink := false)])
       case UnlinkRunning =>
         Settle(w, id, SaveCall(q, job.expected, Unlinking, None, Some(q.operation), job.recovery))
       case UnlinkEnded(reason, known) =>
         Settle(w, id, Confirmation(job, reason, if known then Some(q.operation) else None)))
    case NotingStale => Gone(w.(table := NextTable(w.table, ConflictCall(q)).table), id)
  }

  ghost function NextWorld(w: World, step: Step): World {
    match step
    case Engine(call) => w.(store := Next(w.store, call).store)
    case TableStep(call) => w.(table := NextTable(w.table, call).table)
    case Begin(id, q, expected) =>
      var reserved := Reserve(w.table, q, expected);
      var w' := w.(table := reserved.table);
      if reserved.reply.Reserved? && !reserved.reply.replayed
      then w'.(jobs := w.jobs[id := Job(q, expected, None, true, Resolving)])
      else w'
    case Resume(id, q, recovery, presented) =>
      var advanced := AdvanceRecheckRevision(w.table, q, recovery, presented);
      var w' := w.(table := advanced.table);
      if advanced.reply.Locked?
      then
        var view := advanced.reply.view;
        w'.(jobs := w.jobs[id := Job(q, view.expected, Some(recovery), false, if view.subject.Some? then Recovering else Resolving)])
      else w'
    case Act(id, chance) => if id in w.jobs then NextAct(w, id, chance) else w
    case Crash(id) => Gone(w, id)
  }

  /** Acceptance consults the table, and no ordinary operation carries a recovery id bound without a subject. */
  predicate Fenced(t: Table, call: Call) {
    match call
    case AcceptOperation(c, _, allowed, _, _) =>
      && allowed == Allows(t, c)
      && (c.channel in t.intents && t.intents[c.channel].recovery == Some(c.operation) ==>
            t.intents[c.channel].subject.Some?)
    case AcceptRecoveryOf(c, _, allowed, _, _) => allowed == Allows(t, c)
    case _ => true
  }

  /**
   What the environment is held to: the fence, later stamps on channel writes, and one coordinator
   per id. Only coordinators complete an intent.
   */
  predicate Admissible(w: World, step: Step) {
    match step
    case Engine(call) => Fenced(w.table, call)
    case TableStep(call) => !call.CompleteCall? && Timely(w.table, call)
    case Begin(id, _, _) => id !in w.jobs
    case Resume(id, _, _, _) => id !in w.jobs
    case Act(id, chance) =>
      id in w.jobs && w.jobs[id].phase.Decided? && w.jobs[id].target.channel in w.table.channels ==>
        chance.now > w.table.channels[w.jobs[id].target.channel].revision
    case Crash(_) => true
  }

  // ---- What every step keeps ----

  /** While the channel keeps the revision a coordinator expects, that coordinator's intent is pending. */
  predicate Holds(t: Table, q: Target, expected: Revision) {
    && q.channel in t.channels
    && expected <= t.channels[q.channel].revision
    && (t.channels[q.channel].revision == expected ==>
          && t.channels[q.channel].active
          && q.channel in t.intents
          && SameIntent(t.intents[q.channel], q)
          && t.intents[q.channel].expected == expected
          && t.intents[q.channel].status != Completed)
  }

  predicate JobOk(w: World, id: Id)
    requires id in w.jobs
  {
    var job := w.jobs[id];
    && Holds(w.table, job.target, job.expected)
    && (job.phase == Decided(ClearToDisable, true) && w.table.channels[job.target.channel].revision == job.expected ==>
          Vacant(w.store, job.target.channel))
  }

  ghost predicate WorldOk(w: World) {
    Inv(w.store) && TableOk(w.table) && forall id {:trigger JobOk(w, id)} :: id in w.jobs ==> JobOk(w, id)
  }

  lemma IntentStands(t: Table, call: TableCall, q: Target, expected: Revision)
    requires TableOk(t) && Timely(t, call) && Holds(t, q, expected)
    ensures Holds(NextTable(t, call).table, q, expected)
    ensures NextTable(t, call).table.channels[q.channel].revision == expected ==> t.channels[q.channel].revision == expected
  {
    hide OperationTaken;
  }

  lemma ReservationHolds(t: Table, q: Target, expected: Revision)
    requires TableOk(t) && Reserve(t, q, expected).reply.Reserved? && !Reserve(t, q, expected).reply.replayed
    ensures Holds(Reserve(t, q, expected).table, q, expected)
  {
  }

  lemma AdvanceHolds(t: Table, q: Target, recovery: Id, presented: Revision)
    requires TableOk(t) && AdvanceRecheckRevision(t, q, recovery, presented).reply.Locked?
    ensures var done := AdvanceRecheckRevision(t, q, recovery, presented);
            Holds(done.table, q, done.reply.view.expected)
  {
    assert IntentOk(t, q.channel);
  }

  /** A pending intent lets an ordinary operation pass exactly when its own owner gives it the recovery id
      that was bound without a subject. */
  lemma FencePassesExactly(t: Table, c: Command)
    requires c.WellFormed() && RecoveryStage(c.kind).None?
    requires c.channel in t.intents && t.intents[c.channel].status != Completed
    ensures var i := t.intents[c.channel];
            Allows(t, c) <==>
              i.owner == c.owner && i.provider == c.provider && i.recovery == Some(c.operation) && i.subject.None?
  {
  }

  /** So with that one case excluded a pending intent keeps ordinary work out of its channel. */
  lemma FenceKeepsOut(t: Table, call: Call, channel: Id)
    requires Fenced(t, call) && channel in t.intents && t.intents[channel].status != Completed
    ensures !Enters(call, channel)
  {
    if Enters(call, channel) {
      FencePassesExactly(t, call.command);
    }
  }

  lemma TableStepKeepsJobs(w: World, call: TableCall)
    requires WorldOk(w) && Timely(w.table, call)
    ensures WorldOk(w.(table := NextTable(w.table, call).table))
  {
    hide Inv, Timely, NextTable, Vacant, Holds, TableOk;
    var w' := w.(table := NextTable(w.table, call).table);
    TableStaysOk(w.table, call);
    forall id | id in w'.jobs
      ensures JobOk(w', id)
    {
      assert JobOk(w, id);
      IntentStands(w.table, call, w.jobs[id].target, w.jobs[id].expected);
    }
  }

  lemma EngineKeepsJobs(w: World, call: Call)
    requires WorldOk(w) && Fenced(w.table, call)
    ensures WorldOk(w.(store := Next(w.store, call).store))
  {
    hide Inv, TableOk, Fenced, Next, Vacant, Enters;
    var w' := w.(store := Next(w.store, call).store);
    NextKeepsInv(w.store, call);
    forall id | id in w'.jobs
      ensures JobOk(w', id)
    {
      var job := w.jobs[id];
      assert JobOk(w, id);
      if job.phase == Decided(ClearToDisable, true) && w.table.channels[job.target.channel].revision == job.expected {
        FenceKeepsOut(w.table, call, job.target.channel);
        VacantStaysVacant(w.store, call, job.target.channel);
      }
    }
  }

  /** A coordinator may move to any phase but the one that commits, and there only over empty slots. */
  lemma PhaseKeepsJobs(w: World, id: Id, phase: Phase)
    requires WorldOk(w) && id in w.jobs
    requires phase == Decided(ClearToDisable, true) ==> Vacant(w.store, w.jobs[id].target.channel)
    ensures WorldOk(At(w, id, phase))
  {
    hide Inv, TableOk, Vacant, Holds;
    assert JobOk(w, id);
    forall x | x in At(w, id, phase).jobs
      ensures JobOk(At(w, id, phase), x)
    {
      assert JobOk(w, x);
    }
  }

  lemma EndKeepsJobs(w: World, id: Id)
    requires WorldOk(w)
    ensures WorldOk(Gone(w, id))
  {
    hide Inv, TableOk, Vacant, Holds;
    forall x | x in Gone(w, id).jobs
      ensures JobOk(Gone(w, id), x)
    {
      assert JobOk(w, x);
    }
  }

  lemma SettleKeepsJobs(w: World, id: Id, call: TableCall)
    requires WorldOk(w) && id in w.jobs && Timely(w.table, call)
    ensures WorldOk(Settle(w, id, call))
  {
    hide WorldOk, Timely, NextTable, At, Gone;
    TableStepKeepsJobs(w, call);
    var w' := w.(table := NextTable(w.table, call).table);
    PhaseKeepsJobs(w', id, NotingStale);
    EndKeepsJobs(w', id);
  }

  /** A clear decision over one owner's slots is taken over empty ones. */
  lemma DecisionKeepsJobs(w: World, id: Id, first: Option<StateView>, seen: Option<Seen>, provable: bool)
    requires WorldOk(w) && id in w.jobs
    ensures WorldOk(DecidedBy(w, id, first, seen, provable))
  {
    hide WorldOk, At, Assess, Chosen, ViewOf, Vacant, OccupantsInScope, Inv;
    var job := w.jobs[id];
    var a := Assess(Chosen(first, ViewOf(w.store, job.target), seen), job.target, job.expected, provable);
    if a == ClearToDisable {
      StoreOk(w);
      ClearMeansVacantExactly(w.store, job.target, first, seen, job.expected, provable);
    }
    PhaseKeepsJobs(w, id, Decided(a, OccupantsInScope(w.store, job.target)));
  }

  lemma ReadingKeepsJobs(w: World, id: Id, x: Chance)
    requires WorldOk(w) && id in w.jobs && w.jobs[id].phase.Reading?
    ensures WorldOk(NextAct(w, id, x))
  {
    hide WorldOk, At, DecidedBy, ViewOf, OccupantsInScope, Inv;
    DecisionKeepsJobs(w, id, None, None, x.provable);
    PhaseKeepsJobs(w, id, Observing(ViewOf(w.store, w.jobs[id].target)));
    if x.failure.Some? {
      PhaseKeepsJobs(w, id, Decided(Unassessable(x.failure.value), true));
    }
  }

  lemma StoreOk(w: World)
    requires WorldOk(w)
    ensures Inv(w.store)
  {
  }

  lemma ActKeepsJobs(w: World, id: Id, x: Chance)
    requires WorldOk(w) && Admissible(w, Act(id, x)) && id in w.jobs
    ensures WorldOk(NextAct(w, id, x))
  {
    hide WorldOk, Next, NextTable, DecidedBy, ViewOf, Vacant, OccupantsInScope, Inv, Gone, Settle;
    var job := w.jobs[id];
    var q := job.target;
    match job.phase
    case Reading(_) => ReadingKeepsJobs(w, id, x);
    case Rereading(first, seen) => DecisionKeepsJobs(w, id, first, Some(seen), x.provable);
    case Recording(first, seen) =>
      var observe := Observe(q.channel, q.owner, q.provider, Observation(seen.kind, seen.fingerprint), seen.managed);
      EngineKeepsJobs(w, observe);
      var w' := w.(store := Next(w.store, observe).store);
      PhaseKeepsJobs(w', id, Rereading(first, seen));
      PhaseKeepsJobs(w', id, Decided(Unassessable("storage_unavailable"), true));
    case ReservingUnlink(proof) =>
      var reserve := ReserveDisable(DisableCommand(q.operation, q.channel, q.owner, q.provider, job.expected, proof),
                                    x.reference, x.fence, x.now);
      EngineKeepsJobs(w, reserve);
      PhaseKeepsJobs(w.(store := Next(w.store, reserve).store), id, AwaitingUnlink);
    case AwaitingUnlink =>
      var retry := w.(jobs := w.jobs[id := job.(phase := Resolving, allowUnlink := false)]);
      RetryKeepsJobs(w, id);
      SettleKeepsJobs(w, id, SaveCall(q, job.expected, Unlinking, None, Some(q.operation), job.recovery));
      if x.unlink.UnlinkEnded? {
        SettleKeepsJobs(w, id, Confirmation(job, x.unlink.reason, if x.unlink.known then Some(q.operation) else None));
      }
    case NotingStale =>
      TableStepKeepsJobs(w, ConflictCall(q));
      EndKeepsJobs(w.(table := NextTable(w.table, ConflictCall(q)).table), id);
    case Decided(a, _) =>
      if a.UnlinkRequired? && job.allowUnlink {
        PhaseKeepsJobs(w, id, ReservingUnlink(a.proof));
      } else {
        SettleKeepsJobs(w, id, Settlement(job, a, x.now));
      }
    case _ =>
      var w' := NextAct(w, id, x);
      assert w' == At(w, id, w'.jobs[id].phase);
      PhaseKeepsJobs(w, id, w'.jobs[id].phase);
  }

  lemma RetryKeepsJobs(w: World, id: Id)
    requires WorldOk(w) && id in w.jobs
    ensures WorldOk(w.(jobs := w.jobs[id := w.jobs[id].(phase := Resolving, allowUnlink := false)]))
  {
    hide Inv, TableOk, Vacant, Holds;
    var w' := w.(jobs := w.jobs[id := w.jobs[id].(phase := Resolving, allowUnlink := false)]);
    forall x | x in w'.jobs
      ensures JobOk(w', x)
    {
      assert JobOk(w, x);
    }
  }

  lemma BeginKeepsJobs(w: World, id: Id, job: Job)
    requires WorldOk(w) && Holds(w.table, job.target, job.expected) && !job.phase.Decided?
    ensures WorldOk(w.(jobs := w.jobs[id := job]))
  {
    hide Inv, TableOk, Vacant, Holds;
    var w' := w.(jobs := w.jobs[id := job]);
    forall x | x in w'.jobs
      ensures JobOk(w', x)
    {
      if x != id {
        assert JobOk(w, x);
      }
    }
  }

  lemma TableIsOk(w: World)
    requires WorldOk(w)
    ensures TableOk(w.table)
  {
  }

  lemma WorldStaysOk(w: World, step: Step)
    requires WorldOk(w) && Admissible(w, step)
    ensures WorldOk(NextWorld(w, step))
  {
    hide WorldOk, Next, NextAct, Gone, Reserve, AdvanceRecheckRevision, Holds, TableOk;
    TableIsOk(w);
    match step
    case Engine(call) => EngineKeepsJobs(w, call);
    case TableStep(call) => TableStepKeepsJobs(w, call);
    case Begin(id, q, expected) =>
      var reserved := Reserve(w.table, q, expected);
      TableStepKeepsJobs(w, ReserveCall(q, expected));
      if reserved.reply.Reserved? && !reserved.reply.replayed {
        ReservationHolds(w.table, q, expected);
        BeginKeepsJobs(w.(table := reserved.table), id, Job(q, expected, None, true, Resolving));
      }
    case Resume(id, q, recovery, presented) =>
      var advanced := AdvanceRecheckRevision(w.table, q, recovery, presented);
      TableStepKeepsJobs(w, AdvanceCall(q, recovery, presented));
      if advanced.reply.Locked? {
        AdvanceHolds(w.table, q, recovery, presented);
        var view := advanced.reply.view;
        BeginKeepsJobs(w.(table := advanced.table), id,
                       Job(q, view.expected, Some(recovery), false, if view.subject.Some? then Recovering else Resolving));
      }
    case Act(id, chance) =>
      if id in w.jobs {
        ActKeepsJobs(w, id, chance);
      }
    case Crash(id) => EndKeepsJobs(w, id);
  }

  // ---- Runs ----

  const START := World(EMPTY, Table(map[], map[]), map[])

  ghost function RunWorld(w: World, steps: seq<Step>): World {
    if |steps| == 0 then w else NextWorld(RunWorld(w, steps[..|steps| - 1]), steps[|steps| - 1])
  }

  ghost predicate AdmissibleRun(w: World, steps: seq<Step>) {
    forall k :: 0 <= k < |steps| ==> Admissible(RunWorld(w, steps[..k]), steps[k])
  }

  lemma AdmissibleBefore(w: World, steps: seq<Step>)
    requires |steps| > 0 && AdmissibleRun(w, steps)
    ensures AdmissibleRun(w, steps[..|steps| - 1])
    ensures Admissible(RunWorld(w, steps[..|steps| - 1]), steps[|steps| - 1])
  {
    hide Admissible, RunWorld;
    var before := steps[..|steps| - 1];
    forall k | 0 <= k < |before|
      ensures Admissible(RunWorld(w, before[..k]), before[k])
    {
      assert before[..k] == steps[..k];
    }
  }

  lemma {:induction false} RunsStayOk(w: World, steps: seq<Step>)
    requires WorldOk(w) && AdmissibleRun(w, steps)
    ensures WorldOk(RunWorld(w, steps))
  {
    hide WorldOk, NextWorld, Admissible;
    if |steps| > 0 {
      AdmissibleBefore(w, steps);
      RunsStayOk(w, steps[..|steps| - 1]);
      WorldStaysOk(RunWorld(w, steps[..|steps| - 1]), steps[|steps| - 1]);
    }
  }

  lemma StartIsOk()
    ensures WorldOk(START)
  {
  }

  ghost predicate IsCompleted(w: World, channel: Id) {
    channel in w.table.intents && w.table.intents[channel].status == Completed
  }

  /** The coordinator at this step decided to disable, on a read in which `scoped` slots were its owner's. */
  predicate DecidedClear(w: World, step: Step, scoped: bool) {
    step.Act? && step.job in w.jobs && w.jobs[step.job].phase == Decided(ClearToDisable, scoped)
  }

  /** The step that completes an intent is that of a coordinator that decided to disable its active channel. If
      its read saw no other owner's occupant, it finds the channel empty; in any case it leaves the store alone. */
  lemma CommitFindsVacancy(w: World, step: Step, channel: Id)
    requires WorldOk(w) && Admissible(w, step)
    requires !IsCompleted(w, channel) && IsCompleted(NextWorld(w, step), channel)
    ensures DecidedClear(w, step, true) || DecidedClear(w, step, false)
    ensures w.jobs[step.job].target.channel == channel
    ensures DecidedClear(w, step, true) ==> Vacant(w.store, channel)
    ensures NextWorld(w, step).store == w.store
    ensures channel in w.table.channels && w.table.channels[channel].active
    ensures channel in NextWorld(w, step).table.channels && !NextWorld(w, step).table.channels[channel].active
  {
    hide Inv, TableOk, Next, Vacant, OperationTaken, RowValid, Allows, Assess, ViewOf, OccupantsInScope;
    assert step.Act? && step.job in w.jobs;
    assert JobOk(w, step.job);
  }

  /** Over any run of any number of coordinators, a channel is disabled only by one that decided so, and only
      while nothing occupies it, unless the deciding read passed over another owner's occupant. */
  lemma DisablesOnlyVacantChannels(steps: seq<Step>, channel: Id)
    requires |steps| > 0 && AdmissibleRun(START, steps)
    requires !IsCompleted(RunWorld(START, steps[..|steps| - 1]), channel) && IsCompleted(RunWorld(START, steps), channel)
    ensures var before, last := RunWorld(START, steps[..|steps| - 1]), steps[|steps| - 1];
            && (DecidedClear(before, last, true) || DecidedClear(before, last, false))
            && before.jobs[last.job].target.channel == channel
            && (DecidedClear(before, last, true) ==> Vacant(RunWorld(START, steps).store, channel))
    ensures channel in RunWorld(START, steps).table.channels && !RunWorld(START, steps).table.channels[channel].active
  {
    hide WorldOk, NextWorld, Vacant, IsCompleted, Admissible, DecidedClear;
    StartIsOk();
    AdmissibleBefore(START, steps);
    RunsStayOk(START, steps[..|steps| - 1]);
    CommitFindsVacancy(RunWorld(START, steps[..|steps| - 1]), steps[|steps| - 1], channel);
  }

  // ---- The assumption on recovery ids ----

  const PENDING := Table(
    map[1 := Channel("p", true, 10)],
    map[1 := Intent(7, 3, "p", 10, ConfirmationRequired, Some("external_default"), None, Some(9), false, None)])

  /** An ordinary operation that carries the bound recovery id passes the fence and occupies the channel. */
  lemma BoundRecoveryIdPassesTheFence()
    ensures var c := Command(9, 1, 3, "p", 10, Apply, None, None, Given(0), Some(0), true, Some(0));
            && TableOk(PENDING) && Allows(PENDING, c)
            && Accept(EMPTY, c, ReferenceFence.Locked, Allows(PENDING, c), 0, 4).reply.OperationAccepted?
            && !Vacant(Accept(EMPTY, c, ReferenceFence.Locked, Allows(PENDING, c), 0, 4).store, 1)
            && !Fenced(PENDING, AcceptOperation(c, ReferenceFence.Locked, true, 0, 4))
  {
    assert IntentOk(PENDING, 1);
  }
}
