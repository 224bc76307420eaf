/** A cycle of repair and cleanup while any calls run on other channels between its transactions. */
module CleanupAmongOthers {
  import opened Wrappers
  import opened RichMenuModel
  import opened RichMenuSteps
  import opened RichMenuInvariant
  import RichMenuRuns
  import opened ChannelFrame
  import opened CleanupRepair
  import opened CleanupDrain

  // ---- A step on the channel reads nothing else ----

  lemma SameSlots(x: Store, y: Store, channel: Id, slots: Slots)
    requires ChannelKept(x, y, channel)
    ensures ChannelKept(SetSlots(x, channel, slots), SetSlots(y, channel, slots), channel)
  {
  }

  lemma SameRow(x: Store, y: Store, channel: Id, id: Id, op: Operation)
    requires ChannelKept(x, y, channel) && op.channel == channel
    ensures ChannelKept(SetOperation(x, id, op), SetOperation(y, id, op), channel)
  {
  }

  lemma SameLogged(x: Store, y: Store, channel: Id, id: Id, from: Status, op: Operation, reason: Code)
    requires ChannelKept(x, y, channel) && op.channel == channel && op.stage.Some?
    ensures ChannelKept(Logged(x, id, from, op, reason), Logged(y, id, from, op, reason), channel)
  {
    hide LastSequence;
  }

  lemma SameResource(x: Store, y: Store, channel: Id, r: Id, resource: Resource)
    requires ChannelKept(x, y, channel) && resource.channel == channel
    ensures ChannelKept(SetResource(x, r, resource), SetResource(y, r, resource), channel)
  {
  }

  lemma SameDeletion(x: Store, y: Store, channel: Id, r: Id, now: Time)
    requires ChannelKept(x, y, channel) && Holds(x, channel, r)
    ensures ChannelKept(FinalizeDeleted(x, r, now).store, FinalizeDeleted(y, r, now).store, channel)
    ensures Holds(FinalizeDeleted(x, r, now).store, channel, r)
  {
    SameResource(x, y, channel, r, x.resources[r].(lifecycle := Deleted, deletedAt := Some(now)));
  }

  lemma SameAcceptance(x: Store, y: Store, c: Command, now: Time)
    requires ChannelKept(x, y, c.channel) && c.operation !in x.operations && c.operation !in y.operations
    ensures ChannelKept(AcceptRecovery(x, c, Locked, true, Matched, now).store,
                        AcceptRecovery(y, c, Locked, true, Matched, now).store, c.channel)
  {
    hide Logged, SetSlots, ChannelKept;
    if c.WellFormed() && RecoveryStage(c.kind).Some? {
      SameAdmission(x, y, c);
      var op := AcceptedRow(c, Status.RecoveryActive, RecoveryStage(c.kind), Some(now), c.subject, c.target, None, now);
      SameLogged(x, y, c.channel, c.operation, Status.Accepted, op, Code.Accepted);
      SameSlots(Logged(x, c.operation, Status.Accepted, op, Code.Accepted),
                Logged(y, c.operation, Status.Accepted, op, Code.Accepted),
                c.channel, SlotsOf(x, c.channel).(active := Some(c.operation)));
    }
  }

  lemma SameAdmission(x: Store, y: Store, c: Command)
    requires ChannelKept(x, y, c.channel) && c.WellFormed() && RecoveryStage(c.kind).Some?
    ensures RecoveryAdmissible(x, c) <==> RecoveryAdmissible(y, c)
    ensures SlotsOf(x, c.channel) == SlotsOf(y, c.channel) && (c.channel in x.channels <==> c.channel in y.channels)
  {
    var id := c.subject.value;
    assert Within(x, c.channel, id) <==> Within(y, c.channel, id);
    if c.kind == Cleanup {
      assert Holds(x, c.channel, c.target.value) <==> Holds(y, c.channel, c.target.value);
    }
  }

  lemma SameCompletion(x: Store, y: Store, channel: Id, id: Id, r: Id, now: Time)
    requires ChannelKept(x, y, channel) && Within(x, channel, id)
    ensures ChannelKept(CompleteCleanupRecovery(x, id, r, now).store, CompleteCleanupRecovery(y, id, r, now).store, channel)
  {
    hide Logged, SetSlots, SetOperation, ChannelKept;
    SameCleanup(x, y, channel, id, r);
    var op := x.operations[id];
    if op.kind == Cleanup && op.status == Status.RecoveryActive && Holds(x, channel, r)
       && x.resources[r].lifecycle == Deleted && CleanupCompletes(x, op, id, r) {
      var subject := op.subject.value;
      var subject' := x.operations[subject].(status := Status.Succeeded, result := Code.Succeeded, completedAt := Some(now));
      var op' := op.(status := Status.Succeeded, startedAt := None, result := Code.Succeeded, completedAt := Some(now));
      var x1, y1 := Logged(x, subject, Status.CleanupRequired, subject', Code.Succeeded),
                    Logged(y, subject, Status.CleanupRequired, subject', Code.Succeeded);
      SameLogged(x, y, channel, subject, Status.CleanupRequired, subject', Code.Succeeded);
      var cleaning := op'.(stage := Some(Cleaning));
      SameLogged(x1, y1, channel, id, Status.RecoveryActive, cleaning, Code.Succeeded);
      var x2, y2 := Logged(x1, id, Status.RecoveryActive, cleaning, Code.Succeeded),
                    Logged(y1, id, Status.RecoveryActive, cleaning, Code.Succeeded);
      SameRow(x2, y2, channel, id, op');
      SameSlots(SetOperation(x2, id, op'), SetOperation(y2, id, op'), channel,
                SlotsOf(x, channel).(active := None, blocking := None));
    }
  }

  lemma SameCleanup(x: Store, y: Store, channel: Id, id: Id, r: Id)
    requires ChannelKept(x, y, channel) && Within(x, channel, id)
    ensures id in y.operations && y.operations[id] == x.operations[id]
    ensures Holds(x, channel, r) <==> Holds(y, channel, r)
    ensures SlotsOf(x, channel) == SlotsOf(y, channel)
    ensures Holds(x, channel, r) ==>
              && y.resources[r] == x.resources[r]
              && (CleanupCompletes(x, x.operations[id], id, r) <==> CleanupCompletes(y, y.operations[id], id, r))
              && (CleanupCompletes(x, x.operations[id], id, r) ==>
                    y.operations[x.operations[id].subject.value] == x.operations[x.operations[id].subject.value])
  {
    if x.operations[id].subject.Some? {
      assert Within(x, channel, x.operations[id].subject.value) <==> Within(y, channel, x.operations[id].subject.value);
    }
  }

  // ---- The repair reads its channel only ----

  lemma SameOwned(x: Store, y: Store, channel: Id, owner: Owner, id: Id)
    requires ChannelKept(x, y, channel)
    ensures Owned(x, channel, owner, id) <==> Owned(y, channel, owner, id)
    ensures Owned(x, channel, owner, id) ==> y.operations[id] == x.operations[id]
  {
    assert Within(x, channel, id) <==> Within(y, channel, id);
  }

  lemma SameOldResources(x: Store, y: Store, channel: Id)
    requires ChannelKept(x, y, channel)
    ensures OldResources(x, channel) == OldResources(y, channel)
  {
    forall r
      ensures IsOld(x, channel, r) <==> IsOld(y, channel, r)
    {
      assert Holds(x, channel, r) <==> Holds(y, channel, r);
    }
  }

  lemma SameMapping(x: Store, y: Store, channel: Id, owner: Owner)
    requires ChannelKept(x, y, channel)
    ensures CurrentMapped(x, channel, owner) <==> CurrentMapped(y, channel, owner)
    ensures CurrentMapped(x, channel, owner) ==>
              var current := SlotsOf(x, channel).current.value;
              SlotsOf(y, channel).current == Some(current) && y.resources[current] == x.resources[current]
  {
    var current := SlotsOf(x, channel).current;
    if current.Some? {
      assert Holds(x, channel, current.value) <==> Holds(y, channel, current.value);
      if Holds(x, channel, current.value) {
        SameOwned(x, y, channel, owner, x.resources[current.value].origin);
      }
    }
  }

  lemma SameSuccessor(x: Store, y: Store, channel: Id, subject: Id)
    requires ChannelKept(x, y, channel) && HasSuccessor(x, channel, subject)
    ensures HasSuccessor(y, channel, subject)
  {
    var v :| v in x.resources && x.resources[v].channel == channel && x.resources[v].origin == subject
             && x.resources[v].lifecycle in {Applied, Old};
    assert Holds(x, channel, v);
  }

  lemma KeptBack(x: Store, y: Store, channel: Id)
    requires ChannelKept(x, y, channel)
    ensures ChannelKept(y, x, channel)
  {
  }

  lemma CandidateStays(x: Store, y: Store, q: Request, r: Id)
    requires ChannelKept(x, y, q.channel) && q.owner.Some?
    requires CurrentMapped(x, q.channel, q.owner.value) && CurrentMapped(y, q.channel, q.owner.value)
    requires IsCandidate(x, q, r)
    ensures IsCandidate(y, q, r)
    ensures y.resources[r] == x.resources[r]
    ensures y.operations[x.resources[r].replacement.value] == x.operations[x.resources[r].replacement.value]
  {
    hide ChannelKept, HasSuccessor, CurrentMapped, Owned;
    var owner := q.owner.value;
    SameMapping(x, y, q.channel, owner);
    SameResourceRow(x, y, q.channel, r);
    SameOwned(x, y, q.channel, owner, x.resources[r].origin);
    SameOwned(x, y, q.channel, owner, x.resources[r].replacement.value);
    SameSuccessor(x, y, q.channel, x.resources[r].replacement.value);
    SameOldResources(x, y, q.channel);
    OwnedIsWithin(x, q.channel, owner, x.resources[r].origin);
    OwnedIsWithin(x, q.channel, owner, x.resources[r].replacement.value);
    forall p | p in OldResources(y, q.channel)
      ensures p in x.resources && y.resources[p] == x.resources[p]
    {
      SameResourceRow(x, y, q.channel, p);
    }
    SameBlocking(x, y, q.channel);
  }

  lemma SameBlocking(x: Store, y: Store, channel: Id)
    requires ChannelKept(x, y, channel)
    ensures SlotsOf(x, channel) == SlotsOf(y, channel) && (channel in x.channels <==> channel in y.channels)
  {
  }

  lemma OwnedIsWithin(s: Store, channel: Id, owner: Owner, id: Id)
    requires Owned(s, channel, owner, id)
    ensures id in s.operations
  {
  }

  lemma SameResourceRow(x: Store, y: Store, channel: Id, r: Id)
    requires ChannelKept(x, y, channel) && Holds(x, channel, r)
    ensures r in y.resources && y.resources[r] == x.resources[r]
  {
  }

  lemma SameRefusal(x: Store, y: Store, q: Request)
    requires ChannelKept(x, y, q.channel)
    ensures Refusal(x, q) == Refusal(y, q)
  {
    hide CurrentMapped;
    if q.owner.Some? {
      SameMapping(x, y, q.channel, q.owner.value);
    }
  }

  lemma LeastStays(x: Store, y: Store, q: Request, r: Id)
    requires ChannelKept(x, y, q.channel) && q.owner.Some?
    requires CurrentMapped(x, q.channel, q.owner.value) && CurrentMapped(y, q.channel, q.owner.value)
    requires Least(x, q, r)
    ensures Least(y, q, r)
  {
    hide ChannelKept, CurrentMapped, IsCandidate;
    CandidateStays(x, y, q, r);
    KeptBack(x, y, q.channel);
    CandidateRows(y, q);
    forall p | IsCandidate(y, q, p)
      ensures Before(y, r, p)
    {
      CandidateStays(y, x, q, p);
      CandidateRows(x, q);
    }
  }

  lemma CandidateRows(s: Store, q: Request)
    requires q.owner.Some? && CurrentMapped(s, q.channel, q.owner.value)
    ensures forall r :: IsCandidate(s, q, r) ==>
              && r in s.resources && s.resources[r].replacement.Some?
              && s.resources[r].replacement.value in s.operations
  {
  }

  lemma CandidateRow(s: Store, q: Request, r: Id)
    requires q.owner.Some? && CurrentMapped(s, q.channel, q.owner.value) && IsCandidate(s, q, r)
    ensures r in s.resources && s.resources[r].replacement.Some? && s.resources[r].replacement.value in s.operations
    ensures s.operations[s.resources[r].replacement.value].channel == q.channel
  {
  }

  lemma RefusalIsMapped(s: Store, q: Request)
    requires Refusal(s, q).None?
    ensures q.owner.Some? && CurrentMapped(s, q.channel, q.owner.value)
  {
  }

  /** The same plan, and the same correction. */
  lemma SameRepair(x: Store, y: Store, q: Request)
    requires Inv(x) && Inv(y) && ChannelKept(x, y, q.channel) && Repair(x, q).reply.Plan?
    ensures Repair(y, q).reply == Repair(x, q).reply
    ensures ChannelKept(Repair(x, q).store, Repair(y, q).store, q.channel)
  {
    hide Inv, ChannelKept, Repair, Least, Refusal, RepairWith;
    var r := PlanNames(x, q);
    SameRefusal(x, y, q);
    RefusalIsMapped(x, q);
    RefusalIsMapped(y, q);
    LeastStays(x, y, q, r);
    RepairPicks(y, q, r);
    SameRepairWith(x, y, q, r);
  }

  lemma SameRepairWith(x: Store, y: Store, q: Request, r: Id)
    requires ChannelKept(x, y, q.channel)
    requires Refusal(x, q).None? && Refusal(y, q).None? && Least(x, q, r) && Least(y, q, r)
    ensures RepairWith(x, q, r).reply == RepairWith(y, q, r).reply
    ensures ChannelKept(RepairWith(x, q, r).store, RepairWith(y, q, r).store, q.channel)
  {
    hide ChannelKept, IsCandidate, Refusal, OldResources, Logged, SetSlots;
    RefusalIsMapped(x, q);
    RefusalIsMapped(y, q);
    CandidateStays(x, y, q, r);
    CandidateRow(x, q, r);
    CandidateRow(y, q, r);
    SameOldResources(x, y, q.channel);
    SameBlocking(x, y, q.channel);
    var subject := x.resources[r].replacement.value;
    var op' := x.operations[subject].(
      status := Status.CleanupRequired, stage := Some(Cleaning), result := Code.CleanupRequired, startedAt := None);
    SameLogged(x, y, q.channel, subject, Status.Succeeded, op', Code.CleanupRequired);
    SameSlots(Logged(x, subject, Status.Succeeded, op', Code.CleanupRequired),
              Logged(y, subject, Status.Succeeded, op', Code.CleanupRequired),
              q.channel, SlotsOf(x, q.channel).(blocking := Some(subject)));
  }

  // ---- The cycle ----

  /** What runs before each of the four transactions that follow a plan. */
  datatype Meanwhile = Meanwhile(repair: seq<RichMenuRuns.Call>, accept: seq<RichMenuRuns.Call>, delete: seq<RichMenuRuns.Call>, complete: seq<RichMenuRuns.Call>)

  ghost function RepairedAmong(s: Store, q: Request, m: Meanwhile): Store
    requires Repair(s, q).reply.Plan?
  {
    Repair(RichMenuRuns.Run(s, m.repair), Confirmed(q, Repair(s, q).reply)).store
  }

  ghost function AcceptedAmong(s: Store, q: Request, id: Id, now: Time, m: Meanwhile): Store
    requires Repair(s, q).reply.Plan? && q.owner.Some?
  {
    AcceptRecovery(RichMenuRuns.Run(RepairedAmong(s, q, m), m.accept), CleanupFor(q, Repair(s, q).reply, id), Locked, true, Matched, now).store
  }

  ghost function DeletedAmong(s: Store, q: Request, id: Id, now: Time, m: Meanwhile): Store
    requires Repair(s, q).reply.Plan? && q.owner.Some?
  {
    FinalizeDeleted(RichMenuRuns.Run(AcceptedAmong(s, q, id, now, m), m.delete), Repair(s, q).reply.target, now).store
  }

  /** The cycle of a plan, with other work before each of its transactions. */
  ghost function CycleAmong(s: Store, q: Request, id: Id, now: Time, m: Meanwhile): Store
    requires Repair(s, q).reply.Plan? && q.owner.Some?
  {
    CompleteCleanupRecovery(RichMenuRuns.Run(DeletedAmong(s, q, id, now, m), m.complete), id, Repair(s, q).reply.target, now).store
  }

  /** The other work is on other channels, and the cleanup's id is still free when it is accepted. */
  ghost predicate OthersOnly(s: Store, q: Request, id: Id, now: Time, m: Meanwhile)
    requires Repair(s, q).reply.Plan? && q.owner.Some?
  {
    && AllElsewhere(s, m.repair, q.channel)
    && AllElsewhere(RepairedAmong(s, q, m), m.accept, q.channel)
    && id !in s.operations && id !in RichMenuRuns.Run(RepairedAmong(s, q, m), m.accept).operations
    && AllElsewhere(AcceptedAmong(s, q, id, now, m), m.delete, q.channel)
    && AllElsewhere(DeletedAmong(s, q, id, now, m), m.complete, q.channel)
  }

  /** The channel ends as if the cycle had run alone. */
  lemma OthersDoNotMatter(s: Store, q: Request, id: Id, now: Time, m: Meanwhile)
    requires Inv(s) && Repair(s, q).reply.Plan? && q.owner.Some? && q.owner.value.provider != ""
    requires OthersOnly(s, q, id, now, m)
    ensures ChannelKept(Cycle(s, q, id, now), CycleAmong(s, q, id, now, m), q.channel)
    ensures Inv(CycleAmong(s, q, id, now, m))
  {
    hide Inv, Repair, RichMenuRuns.Run, AllElsewhere, ChannelKept, AcceptRecovery, FinalizeDeleted, CompleteCleanupRecovery, Within, Holds;
    var plan, channel := Repair(s, q).reply, q.channel;
    var q', c := Confirmed(q, plan), CleanupFor(q, plan, id);
    PlannedRows(s, q, id);
    // Repair.
    var a1 := RichMenuRuns.Run(s, m.repair);
    RunElsewhere(s, m.repair, channel);
    SameRepair(s, a1, q');
    var x1, y1 := Repair(s, q').store, Repair(a1, q').store;
    RepairKeeps(s, q');
    RepairKeeps(a1, q');
    // Acceptance.
    RunElsewhere(y1, m.accept, channel);
    KeptTwice(x1, y1, RichMenuRuns.Run(y1, m.accept), channel);
    SameAcceptance(x1, RichMenuRuns.Run(y1, m.accept), c, now);
    var x2, y2 := AcceptRecovery(x1, c, Locked, true, Matched, now).store,
                  AcceptRecovery(RichMenuRuns.Run(y1, m.accept), c, Locked, true, Matched, now).store;
    AcceptRecoveryKeeps(RichMenuRuns.Run(y1, m.accept), c, Locked, true, Matched, now);
    AcceptedRows(x1, c, now);
    // Deletion.
    RunElsewhere(y2, m.delete, channel);
    KeptTwice(x2, y2, RichMenuRuns.Run(y2, m.delete), channel);
    SameDeletion(x2, RichMenuRuns.Run(y2, m.delete), channel, plan.target, now);
    var x3, y3 := FinalizeDeleted(x2, plan.target, now).store, FinalizeDeleted(RichMenuRuns.Run(y2, m.delete), plan.target, now).store;
    DeleteKeeps(RichMenuRuns.Run(y2, m.delete), plan.target, now);
    DeletionLeavesRows(x2, plan.target, now, channel, id);
    // Completion.
    RunElsewhere(y3, m.complete, channel);
    KeptTwice(x3, y3, RichMenuRuns.Run(y3, m.complete), channel);
    SameCompletion(x3, RichMenuRuns.Run(y3, m.complete), channel, id, plan.target, now);
    CleanupCompletionKeeps(RichMenuRuns.Run(y3, m.complete), id, plan.target, now);
  }

  /** What the plan names is there, and confirming it still leaves acceptance nothing to refuse. */
  lemma PlannedRows(s: Store, q: Request, id: Id)
    requires Inv(s) && Repair(s, q).reply.Plan? && id !in s.operations && q.owner.Some? && q.owner.value.provider != ""
    ensures var plan := Repair(s, q).reply;
            && var done := Repair(s, Confirmed(q, plan));
            && done.reply.Plan?
            && Holds(done.store, q.channel, plan.target)
            && id !in done.store.operations
            && forall now :: AcceptRecovery(done.store, CleanupFor(q, plan, id), Locked, true, Matched, now).reply.RecoveryAccepted?
  {
    hide Inv, Repair, AcceptRecovery;
    ConfirmedRepair(s, q);
    var plan := Repair(s, q).reply;
    RepairKeeps(s, Confirmed(q, plan));
    var r := PlanNames(s, q);
    CandidateRow(s, q, r);
    forall now
      ensures AcceptRecovery(Repair(s, Confirmed(q, plan)).store, CleanupFor(q, plan, id), Locked, true, Matched, now).reply.RecoveryAccepted?
    {
      RepairEnablesCleanup(s, Confirmed(q, plan), CleanupFor(q, plan, id), now);
    }
  }

  lemma AcceptedRows(s: Store, c: Command, now: Time)
    requires c.kind == Cleanup && AcceptRecovery(s, c, Locked, true, Matched, now).reply.RecoveryAccepted?
    requires Holds(s, c.channel, c.target.value)
    ensures Within(AcceptRecovery(s, c, Locked, true, Matched, now).store, c.channel, c.operation)
    ensures Holds(AcceptRecovery(s, c, Locked, true, Matched, now).store, c.channel, c.target.value)
  {
    hide LastSequence;
  }

  lemma DeletionLeavesRows(s: Store, r: Id, now: Time, channel: Id, id: Id)
    requires Within(s, channel, id)
    ensures Within(FinalizeDeleted(s, r, now).store, channel, id)
  {
  }

  /** Whatever runs on other channels meanwhile, a cycle on a plan leaves exactly the planned old resource less. */
  lemma CycleShrinksAmongOthers(s: Store, q: Request, id: Id, now: Time, m: Meanwhile)
    requires Inv(s) && Repair(s, q).reply.Plan? && q.owner.Some? && q.owner.value.provider != ""
    requires OthersOnly(s, q, id, now, m)
    ensures OldResources(CycleAmong(s, q, id, now, m), q.channel) == OldResources(s, q.channel) - {Repair(s, q).reply.target}
    ensures var slots := SlotsOf(CycleAmong(s, q, id, now, m), q.channel); slots.active.None? && slots.blocking.None?
  {
    hide Inv, Repair, ChannelKept, CycleAmong, Cycle;
    OthersDoNotMatter(s, q, id, now, m);
    CycleShrinks(s, q, id, now);
    CycleCleans(s, q, id, now);
    SameOldResources(Cycle(s, q, id, now), CycleAmong(s, q, id, now, m), q.channel);
    SameBlocking(Cycle(s, q, id, now), CycleAmong(s, q, id, now, m), q.channel);
  }
}
