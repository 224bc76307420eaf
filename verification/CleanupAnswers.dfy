/** When the repair gives a plan, for which old resource, and what the plan proves. */
module CleanupAnswers {
  import opened Wrappers
  import opened RichMenuModel
  import opened RichMenuSteps
  import opened RichMenuInvariant
  import opened CleanupRepair

  predicate AppliedBy(s: Store, channel: Id, owner: Owner, id: Id) {
    && id in s.operations && s.operations[id].channel == channel && s.operations[id].kind == Apply
    && s.operations[id].owner == owner.identity && s.operations[id].provider == owner.provider
  }

  /** An old menu LINE still holds, applied by this owner and displaced by this owner's apply of a menu that went on
      to be shown. */
  predicate Displaced(s: Store, channel: Id, owner: Owner, r: Id) {
    && r in s.resources && s.resources[r].channel == channel && s.resources[r].lifecycle == Old
    && s.resources[r].lineId.Some?
    && AppliedBy(s, channel, owner, s.resources[r].origin)
    && (s.operations[s.resources[r].origin].status == Status.Succeeded
        || s.operations[s.resources[r].origin].status == Status.CleanupRequired)
    && s.resources[r].replacement.Some? && AppliedBy(s, channel, owner, s.resources[r].replacement.value)
    && exists v :: v in s.resources && s.resources[v].origin == s.resources[r].replacement.value
                   && (s.resources[v].lifecycle == Applied || s.resources[v].lifecycle == Old)
  }

  lemma ReplacementIsInChannel(s: Store, r: Id, v: Id)
    requires Inv(s) && r in s.resources && v in s.resources && s.resources[r].replacement == Some(s.resources[v].origin)
    ensures s.resources[v].channel == s.resources[r].channel
  {
    assert ResourceOk(s, r) && ResourceOk(s, v);
  }

  /** In a sound store the evidence asked of an old resource comes down to this. */
  lemma ProvenExactly(s: Store, channel: Id, owner: Owner, r: Id)
    requires Inv(s) && CurrentMapped(s, channel, owner)
    ensures Proven(s, channel, owner, r) <==> Displaced(s, channel, owner, r)
  {
    if IsOld(s, channel, r) {
      var current := SlotsOf(s, channel).current.value;
      assert ResourceOk(s, r) && PairOk(s, r, current);
      forall v | v in s.resources && s.resources[r].replacement == Some(s.resources[v].origin)
        ensures s.resources[v].channel == channel
      {
        ReplacementIsInChannel(s, r, v);
      }
    }
    hide Inv;
  }

  /** Its replacing apply is on record as a plain success, or is the blocker at its cleanup already. */
  predicate Repairable(s: Store, channel: Id, subject: Id)
    requires subject in s.operations
  {
    var op := s.operations[subject];
    || (op.status == Status.Succeeded && op.stage == Some(Verifying) && op.result == Code.Succeeded)
    || (op.status == Status.CleanupRequired && op.stage == Some(Cleaning) && SlotsOf(s, channel).blocking == Some(subject))
  }

  predicate Eligible(s: Store, q: Request, owner: Owner, r: Id) {
    && Displaced(s, q.channel, owner, r)
    && (forall x :: x in s.resources && s.resources[x].channel == q.channel && s.resources[x].lifecycle == Old && x != r ==>
          s.resources[x].replacement != Some(s.resources[r].origin))
    && (q.subject.Some? ==> q.subject == s.resources[r].replacement)
    && (q.target.Some? ==> q.target == Some(r))
    && Repairable(s, q.channel, s.resources[r].replacement.value)
  }

  lemma CandidatesExactly(s: Store, q: Request, r: Id)
    requires Inv(s) && q.owner.Some? && CurrentMapped(s, q.channel, q.owner.value)
    ensures IsCandidate(s, q, r) <==> Eligible(s, q, q.owner.value, r)
  {
    hide Inv, CurrentMapped, Displaced, Proven;
    ProvenExactly(s, q.channel, q.owner.value, r);
    ProvenRows(s, q.channel, q.owner.value, r);
    forall x
      ensures x in OldResources(s, q.channel) <==>
                x in s.resources && s.resources[x].channel == q.channel && s.resources[x].lifecycle == Old
    {
    }
  }

  lemma ProvenRows(s: Store, channel: Id, owner: Owner, r: Id)
    requires CurrentMapped(s, channel, owner)
    ensures Proven(s, channel, owner, r) ==>
              && r in s.resources && s.resources[r].replacement.Some? && s.resources[r].replacement.value in s.operations
  {
  }

  /** Of all eligible resources, the one whose replacing apply was accepted first, by id if at one time. */
  ghost predicate Earliest(s: Store, q: Request, owner: Owner, r: Id) {
    && Eligible(s, q, owner, r)
    && forall x :: Eligible(s, q, owner, x) ==>
         var a, b := s.resources[r].replacement.value, s.resources[x].replacement.value;
         s.operations[a].acceptedAt < s.operations[b].acceptedAt || (s.operations[a].acceptedAt == s.operations[b].acceptedAt && a <= b)
  }

  lemma LeastExactly(s: Store, q: Request, r: Id)
    requires Inv(s) && q.owner.Some? && CurrentMapped(s, q.channel, q.owner.value)
    ensures Least(s, q, r) <==> Earliest(s, q, q.owner.value, r)
  {
    hide Inv, CurrentMapped, Eligible, IsCandidate;
    CandidatesExactly(s, q, r);
    forall x
      ensures IsCandidate(s, q, x) <==> Eligible(s, q, q.owner.value, x)
    {
      CandidatesExactly(s, q, x);
    }
    EligibleRows(s, q, q.owner.value);
  }

  lemma EligibleRows(s: Store, q: Request, owner: Owner)
    ensures forall r :: Eligible(s, q, owner, r) ==>
              && r in s.resources && s.resources[r].replacement.Some?
              && s.resources[r].replacement.value in s.operations
  {
  }

  /** The operator names both rows before anything is written, owns the channel, and finds it active, idle, under no
      pending deactivation and with its current menu on record. */
  predicate Allowed(s: Store, q: Request) {
    && (q.write ==> q.subject.Some? && q.target.Some?)
    && q.owner.Some? && q.revisionLocked && q.channelActive && q.deactivationClear
    && q.channel in s.channels && s.channels[q.channel].active.None?
    && CurrentMapped(s, q.channel, q.owner.value)
  }

  /** A plan is given exactly if the request is allowed and the earliest eligible resource is not behind another blocker;
      it names that resource and the apply that displaced it, and says whether that is repaired already. */
  lemma PlansExactly(s: Store, q: Request)
    requires Inv(s)
    ensures var done := Repair(s, q);
            && (done.reply.Plan? <==>
                  && Allowed(s, q)
                  && exists r :: Earliest(s, q, q.owner.value, r)
                       && (SlotsOf(s, q.channel).blocking.Some? ==> SlotsOf(s, q.channel).blocking == s.resources[r].replacement))
            && (done.reply.Plan? ==>
                  && Earliest(s, q, q.owner.value, done.reply.target)
                  && s.resources[done.reply.target].replacement == Some(done.reply.subject)
                  && done.reply.remaining == |OldResources(s, q.channel)|
                  && done.reply.status == (if SlotsOf(s, q.channel).blocking.Some? then AlreadyRepaired
                                           else if q.write then Repaired else DryRun)
                  && (done.reply.status != Repaired ==> done.store == s))
            && (!done.reply.Plan? ==> done.store == s)
  {
    hide Inv, Least, Earliest, RepairWith, CurrentMapped;
    RefusalIsOrder(s, q);
    if Refusal(s, q).None? {
      forall r
        ensures Least(s, q, r) <==> Earliest(s, q, q.owner.value, r)
      {
        LeastExactly(s, q, r);
      }
      if Repair(s, q).reply.Plan? {
        var r := PlanNames(s, q);
        RepairWithExactly(s, q, r);
      } else {
        LeastRows(s, q);
        forall r | Least(s, q, r)
          ensures SlotsOf(s, q.channel).blocking.Some? && SlotsOf(s, q.channel).blocking != s.resources[r].replacement
          ensures Repair(s, q).store == s
        {
          RepairPicks(s, q, r);
          RepairWithExactly(s, q, r);
        }
        NoLeastNoChange(s, q);
      }
    }
  }

  lemma LeastRows(s: Store, q: Request)
    requires q.owner.Some? && CurrentMapped(s, q.channel, q.owner.value)
    ensures forall r :: Least(s, q, r) ==> r in s.resources
  {
  }

  lemma NoLeastNoChange(s: Store, q: Request)
    requires Repair(s, q).reply.Rejected?
    ensures Repair(s, q).store == s
  {
  }

  lemma RefusalIsOrder(s: Store, q: Request)
    ensures Refusal(s, q).None? <==> Allowed(s, q)
    ensures Refusal(s, q) == Some(Rejection.ConfirmationRequired) <==> q.write && (q.subject.None? || q.target.None?)
    ensures Refusal(s, q) == Some(InactiveChannel) ==> !q.channelActive
    ensures Refusal(s, q) == Some(Rejection.DeactivationPending) ==> !q.deactivationClear && q.channelActive
    ensures Refusal(s, q) == Some(Rejection.OperationInProgress) ==> SlotsOf(s, q.channel).active.Some? || q.channel !in s.channels
  {
  }

  lemma RepairWithExactly(s: Store, q: Request, r: Id)
    requires Inv(s) && Refusal(s, q).None? && Least(s, q, r)
    ensures IsCandidate(s, q, r) && s.resources[r].replacement.Some?
    ensures var done := RepairWith(s, q, r); var blocking := SlotsOf(s, q.channel).blocking;
            && (done.reply.Plan? <==> blocking.None? || blocking == s.resources[r].replacement)
            && (done.reply.Plan? ==>
                  && done.reply.remaining == |OldResources(s, q.channel)|
                  && done.reply.status == (if blocking.Some? then AlreadyRepaired else if q.write then Repaired else DryRun)
                  && (done.reply.status != Repaired ==> done.store == s))
            && (!done.reply.Plan? ==> done.store == s)
  {
    if q.channel in s.channels {
      assert SlotsOk(s, q.channel);
    }
  }

  /** A written repair corrects the named apply to the blocker at its cleanup, and touches nothing else. */
  lemma RepairWrites(s: Store, q: Request)
    requires Inv(s) && Repair(s, q).reply.Plan? && Repair(s, q).reply.status == Repaired
    ensures var subject, s' := Repair(s, q).reply.subject, Repair(s, q).store;
            && subject in s.operations
            && s'.resources == s.resources
            && s'.operations == s.operations[subject := s.operations[subject].(
                 status := Status.CleanupRequired, stage := Some(Cleaning), result := Code.CleanupRequired, startedAt := None)]
            && s'.channels == s.channels[q.channel := SlotsOf(s, q.channel).(blocking := Some(subject))]
  {
    hide LastSequence;
    var r := PlanNames(s, q);
  }
}
