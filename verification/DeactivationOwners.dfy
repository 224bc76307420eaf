/**
 Runs in which all requests to one channel come from one owner. Its operations then all belong to that
 owner, so no coordinator passes over an occupant.
 */
module DeactivationOwners {
  import opened Wrappers
  import opened RichMenuModel
  import opened RichMenuSteps
  import opened RichMenuInvariant
  import opened RichMenuRuns
  import opened RichMenuStages
  import opened RichMenuRequests
  import opened Deactivation
  import opened DeactivationProtocol
  import opened DeactivationRuns

  // ---- One owner ----

  datatype ChannelOwner = ChannelOwner(channel: Id, owner: Id, provider: string)

  predicate Theirs(o: ChannelOwner, row: Operation) {
    row.channel == o.channel ==> row.owner == o.owner && row.provider == o.provider
  }

  predicate Owned(s: Store, o: ChannelOwner) {
    forall id :: id in s.operations ==> Theirs(o, s.operations[id])
  }

  /** What a call asks for in the channel, it asks for its owner. */
  predicate Sends(o: ChannelOwner, channel: Id, owner: Id, provider: string) {
    channel == o.channel ==> owner == o.owner && provider == o.provider
  }

  predicate KeepsTo(o: ChannelOwner, step: Step) {
    match step
    case Engine(AcceptOperation(c, _, _, _, _)) => Sends(o, c.channel, c.owner, c.provider)
    case Engine(AcceptRecoveryOf(c, _, _, _, _)) => Sends(o, c.channel, c.owner, c.provider)
    case Engine(ReserveDisable(c, _, _, _)) => Sends(o, c.channel, c.owner, c.provider)
    case Begin(_, q, _) => Sends(o, q.channel, q.owner, q.provider)
    case Resume(_, q, _, _) => Sends(o, q.channel, q.owner, q.provider)
    case _ => true
  }

  lemma OwnedStays(s: Store, call: Call, o: ChannelOwner)
    requires Inv(s) && Owned(s, o) && KeepsTo(o, Engine(call))
    ensures Owned(Next(s, call).store, o)
  {
    hide Inv, Next;
    var s' := Next(s, call).store;
    forall id | id in s'.operations
      ensures Theirs(o, s'.operations[id])
    {
      if id !in s.operations {
        RowsAreAsked(s, call, id);
      } else {
        PurgedRowsAreGone(s, call, id);
        CallMovesRow(s, call, id);
      }
    }
  }

  /** With one owner, every occupant belongs to whoever may ask. */
  lemma OwnedOccupants(s: Store, o: ChannelOwner, q: Target)
    requires Inv(s) && Owned(s, o) && q.channel == o.channel && q.owner == o.owner && q.provider == o.provider
    ensures OccupantsInScope(s, q)
  {
    if q.channel in s.channels {
      assert SlotsOk(s, q.channel);
      var current := s.channels[q.channel].current;
      if current.Some? {
        assert ResourceOk(s, current.value);
      }
    }
  }

  predicate JobKeepsTo(o: ChannelOwner, job: Job) {
    && Sends(o, job.target.channel, job.target.owner, job.target.provider)
    && (job.target.channel == o.channel && job.phase.Decided? ==> job.phase.scoped)
  }

  predicate WorldKeepsTo(w: World, o: ChannelOwner) {
    Owned(w.store, o) && forall id :: id in w.jobs ==> JobKeepsTo(o, w.jobs[id])
  }

  /** A write ends its coordinator or leaves it to note the conflict. */
  lemma SettlesPlainly(w: World, id: Id)
    requires id in w.jobs
    ensures forall call {:trigger Settle(w, id, call)} ::
              && Settle(w, id, call).store == w.store
              && Settle(w, id, call).jobs in {w.jobs - {id}, w.jobs[id := w.jobs[id].(phase := NotingStale)]}
  {
    hide NextTable;
  }

  /** No target is changed, and a decision tells whose slots it was taken on. */
  ghost predicate JobsMoved(w: World, id: Id, jobs: map<Id, Job>)
    requires id in w.jobs
  {
    && (forall j :: j in jobs ==> j in w.jobs && (j != id ==> jobs[j] == w.jobs[j]))
    && (id in jobs ==>
          && jobs[id].target == w.jobs[id].target
          && (jobs[id].phase.Decided? && !jobs[id].phase.scoped ==> !OccupantsInScope(w.store, w.jobs[id].target)))
  }

  predicate Assessing(phase: Phase) {
    phase.Recovering? || phase.Resolving? || phase.Reading? || phase.Observing? || phase.Recording? || phase.Rereading?
  }

  lemma AssessingMovesJobs(w: World, id: Id, x: Chance)
    requires id in w.jobs && Assessing(w.jobs[id].phase)
    ensures JobsMoved(w, id, NextAct(w, id, x).jobs)
  {
    hide Next, ViewOf, Assess, Chosen, OccupantsInScope, ChannelProblem;
  }

  lemma SettlingMovesJobs(w: World, id: Id, x: Chance)
    requires id in w.jobs && !Assessing(w.jobs[id].phase)
    ensures JobsMoved(w, id, NextAct(w, id, x).jobs)
  {
    hide Next, NextTable, OccupantsInScope, Settlement, Reason, Settle, Confirmation;
    SettlesPlainly(w, id);
  }

  lemma ActMovesJobs(w: World, id: Id, x: Chance)
    requires id in w.jobs
    ensures JobsMoved(w, id, NextAct(w, id, x).jobs)
  {
    hide NextAct, JobsMoved;
    if Assessing(w.jobs[id].phase) {
      AssessingMovesJobs(w, id, x);
    } else {
      SettlingMovesJobs(w, id, x);
    }
  }

  /** The engine call a coordinator makes in its step, if any. */
  function CallOf(w: World, id: Id, x: Chance): Option<Call>
    requires id in w.jobs
  {
    var job := w.jobs[id];
    var q := job.target;
    match job.phase
    case Recording(_, seen) =>
      Some(Observe(q.channel, q.owner, q.provider, Observation(seen.kind, seen.fingerprint), seen.managed))
    case ReservingUnlink(proof) =>
      Some(ReserveDisable(DisableCommand(q.operation, q.channel, q.owner, q.provider, job.expected, proof),
                          x.reference, x.fence, x.now))
    case _ => None
  }

  lemma ActMovesStore(w: World, id: Id, x: Chance)
    requires id in w.jobs
    ensures var call := CallOf(w, id, x);
            NextAct(w, id, x).store == if call.Some? then Next(w.store, call.value).store else w.store
  {
    hide Next, NextTable, ViewOf, Assess, Chosen, OccupantsInScope, Settlement, Reason, ChannelProblem;
  }

  lemma ActKeepsTo(w: World, id: Id, x: Chance, o: ChannelOwner)
    requires Inv(w.store) && WorldKeepsTo(w, o) && id in w.jobs
    ensures WorldKeepsTo(NextAct(w, id, x), o)
  {
    hide Inv, NextAct, Next, Owned, OccupantsInScope;
    ActMovesJobs(w, id, x);
    ActMovesStore(w, id, x);
    assert JobKeepsTo(o, w.jobs[id]);
    if CallOf(w, id, x).Some? {
      OwnedStays(w.store, CallOf(w, id, x).value, o);
    }
    if w.jobs[id].target.channel == o.channel {
      OwnedOccupants(w.store, o, w.jobs[id].target);
    }
  }

  lemma OneOwnerStays(w: World, step: Step, o: ChannelOwner)
    requires Inv(w.store) && WorldKeepsTo(w, o) && KeepsTo(o, step)
    ensures WorldKeepsTo(NextWorld(w, step), o)
  {
    hide Inv, NextAct, Next, NextTable, Reserve, AdvanceRecheckRevision, Owned;
    match step
    case Engine(call) => OwnedStays(w.store, call, o);
    case Act(id, x) =>
      if id in w.jobs {
        ActKeepsTo(w, id, x, o);
      }
    case _ =>
  }

  predicate OneOwner(steps: seq<Step>, o: ChannelOwner) {
    forall k :: 0 <= k < |steps| ==> KeepsTo(o, steps[k])
  }

  lemma {:induction false} RunKeepsTo(steps: seq<Step>, o: ChannelOwner)
    requires AdmissibleRun(START, steps) && OneOwner(steps, o)
    ensures WorldOk(RunWorld(START, steps)) && WorldKeepsTo(RunWorld(START, steps), o)
  {
    hide WorldOk, NextWorld, Admissible, KeepsTo;
    StartIsOk();
    if |steps| > 0 {
      AdmissibleBefore(START, steps);
      RunKeepsTo(steps[..|steps| - 1], o);
      StoreOk(RunWorld(START, steps[..|steps| - 1]));
      OneOwnerStays(RunWorld(START, steps[..|steps| - 1]), steps[|steps| - 1], o);
      RunsStayOk(START, steps);
    }
  }

  /** Over any run of any number of coordinators in which a channel is asked for by one owner only, the channel
      is disabled only while it has no active operation, no blocker and no current resource. */
  lemma OneOwnerDisablesOnlyVacant(steps: seq<Step>, o: ChannelOwner)
    requires |steps| > 0 && AdmissibleRun(START, steps) && OneOwner(steps, o)
    requires !IsCompleted(RunWorld(START, steps[..|steps| - 1]), o.channel) && IsCompleted(RunWorld(START, steps), o.channel)
    ensures Vacant(RunWorld(START, steps).store, o.channel)
    ensures o.channel in RunWorld(START, steps).table.channels && !RunWorld(START, steps).table.channels[o.channel].active
  {
    hide WorldOk, RunWorld, Vacant, IsCompleted, Admissible, Owned;
    var before, last := RunWorld(START, steps[..|steps| - 1]), steps[|steps| - 1];
    DisablesOnlyVacantChannels(steps, o.channel);
    AdmissibleBefore(START, steps);
    RunKeepsTo(steps[..|steps| - 1], o);
    assert JobKeepsTo(o, before.jobs[last.job]);
  }
}
