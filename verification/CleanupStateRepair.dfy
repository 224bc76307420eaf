/** The repair as the program runs it: one pass collects the candidates, the least one is corrected. */
module CleanupStateRepair {
  import opened Wrappers
  import opened RichMenuModel
  import opened RichMenuSteps
  import opened RichMenuInvariant
  import opened RichMenuRepository
  import opened CleanupRepair

  datatype Found = Found(resource: Id, subject: Id, already: bool)

  /** Exactly the candidates among the resources looked at so far, each with its evidence. */
  ghost predicate Collected(s: Store, q: Request, looked: set<Id>, candidates: seq<Found>)
    requires q.owner.Some? && CurrentMapped(s, q.channel, q.owner.value)
  {
    && (forall i :: 0 <= i < |candidates| ==>
          && candidates[i].resource in looked
          && IsCandidate(s, q, candidates[i].resource)
          && s.resources[candidates[i].resource].replacement == Some(candidates[i].subject)
          && candidates[i].already == Already(s, q.channel, candidates[i].subject))
    && (forall r :: r in looked && IsCandidate(s, q, r) ==> exists i :: 0 <= i < |candidates| && candidates[i].resource == r)
  }

  lemma NothingCollected(s: Store, q: Request)
    requires q.owner.Some? && CurrentMapped(s, q.channel, q.owner.value)
    ensures Collected(s, q, {}, [])
  {
  }

  lemma PassOver(s: Store, q: Request, looked: set<Id>, r: Id, candidates: seq<Found>)
    requires q.owner.Some? && CurrentMapped(s, q.channel, q.owner.value)
    requires Collected(s, q, looked, candidates) && !IsCandidate(s, q, r)
    ensures Collected(s, q, looked + {r}, candidates)
  {
  }

  lemma TakeUp(s: Store, q: Request, looked: set<Id>, r: Id, candidates: seq<Found>, c: Found)
    requires q.owner.Some? && CurrentMapped(s, q.channel, q.owner.value)
    requires Collected(s, q, looked, candidates) && IsCandidate(s, q, r)
    requires c.resource == r && s.resources[r].replacement == Some(c.subject)
    requires c.already == Already(s, q.channel, c.subject)
    ensures Collected(s, q, looked + {r}, candidates + [c])
  {
    var more := candidates + [c];
    forall x | x in looked + {r} && IsCandidate(s, q, x)
      ensures exists i :: 0 <= i < |more| && more[i].resource == x
    {
      if x == r {
        assert more[|candidates|].resource == x;
      } else {
        var i :| 0 <= i < |candidates| && candidates[i].resource == x;
        assert more[i].resource == x;
      }
    }
  }

  class Repairer {
    const recorder: DjangoRichMenuRepository

    constructor (recorder: DjangoRichMenuRepository)
      ensures this.recorder == recorder
    {
      this.recorder := recorder;
    }

    /** One pass over the old resources; a resource that lacks any evidence is passed over. */
    method Collect(q: Request) returns (candidates: seq<Found>, count: nat)
      requires q.owner.Some? && CurrentMapped(recorder.Contents(), q.channel, q.owner.value)
      ensures count == |OldResources(recorder.Contents(), q.channel)|
      ensures Collected(recorder.Contents(), q, OldResources(recorder.Contents(), q.channel), candidates)
    {
      hide Collected;
      var s := recorder.Contents();
      NothingCollected(s, q);
      var owner := q.owner.value;
      var current := SlotsOf(s, q.channel).current.value;
      var pending := OldResources(s, q.channel);
      ghost var looked: set<Id> := {};
      candidates, count := [], 0;
      while pending != {}
        invariant pending !! looked && pending + looked == OldResources(s, q.channel)
        invariant count == |looked|
        invariant Collected(s, q, looked, candidates)
        decreases |pending|
      {
        var r :| r in pending;
        PassIfRejected(s, q, looked, r, candidates);
        var resource := s.resources[r];
        ghost var before := looked;
        pending, looked, count := pending - {r}, looked + {r}, count + 1;
        if Preceded(s, q.channel, r) {
          continue;
        }
        if || resource.replacement.None?
           || !Owned(s, q.channel, owner, resource.replacement.value)
           || !Owned(s, q.channel, owner, resource.origin)
           || !HasSuccessor(s, q.channel, resource.replacement.value)
        {
          continue;
        }
        var subject := resource.replacement.value;
        if !Settled(s.operations[resource.origin].status) {
          continue;
        }
        if subject == resource.origin || r == current || resource.lineId.None? {
          continue;
        }
        if resource.lineId == s.resources[current].lineId {
          continue;
        }
        if resource.deletedAt.Some? || resource.releasedAt.Some? {
          continue;
        }
        if q.subject.Some? && q.subject.value != subject {
          continue;
        }
        if q.target.Some? && q.target.value != r {
          continue;
        }
        var already := Already(s, q.channel, subject);
        if !already && !RecordedSuccess(s.operations[subject]) {
          continue;
        }
        TakeUp(s, q, before, r, candidates, Found(r, subject, already));
        candidates := candidates + [Found(r, subject, already)];
      }
      assert looked == OldResources(s, q.channel);
    }

    /** The candidate whose replacing operation was accepted first. */
    method Earliest(q: Request, candidates: seq<Found>) returns (chosen: Found)
      requires q.owner.Some? && CurrentMapped(recorder.Contents(), q.channel, q.owner.value)
      requires Collected(recorder.Contents(), q, OldResources(recorder.Contents(), q.channel), candidates) && candidates != []
      ensures chosen in candidates && Least(recorder.Contents(), q, chosen.resource)
    {
      var s := recorder.Contents();
      chosen := candidates[0];
      var i := 1;
      while i < |candidates|
        invariant 1 <= i <= |candidates| && chosen in candidates
        invariant forall k :: 0 <= k < i ==> Before(s, chosen.resource, candidates[k].resource)
      {
        if !Before(s, chosen.resource, candidates[i].resource) {
          chosen := candidates[i];
        }
        i := i + 1;
      }
    }

    /** The correction is appended after the recorded success; the ordinary transitions stay as they are. */
    method Correct(id: Id)
      requires id in recorder.operations
      modifies recorder
      ensures recorder.Contents() == CorrectSubject(old(recorder.Contents()), id)
    {
      var subject := recorder.operations[id];
      var state := SlotsOf(recorder.Contents(), subject.channel);
      recorder.AppendTransition(id, Status.Succeeded, Status.CleanupRequired, Cleaning, Code.CleanupRequired);
      subject := subject.(status := Status.CleanupRequired);
      subject := subject.(stage := Some(Cleaning));
      subject := subject.(result := Code.CleanupRequired);
      subject := subject.(startedAt := None);
      recorder.operations := recorder.operations[id := subject];
      state := state.(blocking := Some(id));
      recorder.channels := recorder.channels[subject.channel := state];
    }

    method Run(q: Request) returns (reply: RepairReply)
      requires Inv(recorder.Contents())
      modifies recorder
      ensures Repair(old(recorder.Contents()), q) == RepairOutcome(recorder.Contents(), reply)
    {
      var s := recorder.Contents();
      if q.write && (q.subject.None? || q.target.None?) {
        return Rejected(ConfirmationRequired);
      }
      if q.owner.None? {
        return Rejected(OwnerUnavailable);
      }
      if !q.revisionLocked {
        return Rejected(StaleOrUnavailableChannel);
      }
      if !q.channelActive {
        return Rejected(InactiveChannel);
      }
      if !q.deactivationClear {
        return Rejected(DeactivationPending);
      }
      if q.channel !in s.channels || s.channels[q.channel].active.Some? {
        return Rejected(Rejection.OperationInProgress);
      }
      if !CurrentMapped(s, q.channel, q.owner.value) {
        return Rejected(CurrentMappingUnavailable);
      }
      var candidates, remaining := Collect(q);
      if candidates == [] {
        NoneCollected(s, q);
        return Rejected(NoProvenReplacement);
      }
      var chosen := Earliest(q, candidates);
      RepairPicks(s, q, chosen.resource);
      var state := s.channels[q.channel];
      if state.blocking.Some? && !chosen.already {
        return Rejected(Rejection.OperationInProgress);
      }
      if chosen.already {
        return Plan(AlreadyRepaired, chosen.subject, chosen.resource, remaining);
      }
      if !q.write {
        return Plan(DryRun, chosen.subject, chosen.resource, remaining);
      }
      Correct(chosen.subject);
      reply := Plan(Repaired, chosen.subject, chosen.resource, remaining);
    }
  }

  lemma PassIfRejected(s: Store, q: Request, looked: set<Id>, r: Id, candidates: seq<Found>)
    requires q.owner.Some? && CurrentMapped(s, q.channel, q.owner.value) && Collected(s, q, looked, candidates)
    ensures !IsCandidate(s, q, r) ==> Collected(s, q, looked + {r}, candidates)
  {
    if !IsCandidate(s, q, r) {
      PassOver(s, q, looked, r, candidates);
    }
  }

  lemma NoneCollected(s: Store, q: Request)
    requires q.owner.Some? && CurrentMapped(s, q.channel, q.owner.value)
    requires Collected(s, q, OldResources(s, q.channel), [])
    ensures Candidates(s, q) == {}
  {
    assert forall r :: IsCandidate(s, q, r) ==> r in OldResources(s, q.channel);
  }
}
