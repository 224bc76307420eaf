/** The relation from a replaced resource to the resource its replacing operation originated. */
module RichMenuReplacement {
  import opened Wrappers
  import opened RichMenuModel
  import opened RichMenuSteps
  import opened RichMenuInvariant

  ghost predicate Succeeds(s: Store, a: Id, b: Id) {
    a in s.resources && b in s.resources && s.resources[a].replacement == Some(s.resources[b].origin)
  }

  ghost predicate Ranks(s: Store, rank: map<Id, nat>) {
    && s.resources.Keys <= rank.Keys
    && (forall a, b :: Succeeds(s, a, b) ==> rank[a] < rank[b])
  }

  /** A rank that grows along every replacement rules out cycles. */
  ghost predicate Ordered(s: Store) {
    exists rank :: Ranks(s, rank)
  }

  /** Each resource has one successor and one predecessor at most. */
  lemma SuccessionIsInjective(s: Store, a: Id, b: Id, c: Id)
    requires Inv(s)
    ensures Succeeds(s, a, b) && Succeeds(s, a, c) ==> b == c
    ensures Succeeds(s, b, a) && Succeeds(s, c, a) ==> b == c
  {
    if b in s.resources && c in s.resources {
      assert PairOk(s, b, c);
    }
  }

  ghost predicate Chain(s: Store, path: seq<Id>) {
    forall i {:trigger path[i]} :: 0 < i < |path| ==> Succeeds(s, path[i - 1], path[i])
  }

  /** No chain of replacements returns to a resource it has passed. */
  lemma {:induction false} NoCycle(s: Store, path: seq<Id>, i: nat, j: nat)
    requires Ordered(s) && Chain(s, path) && i < j < |path|
    ensures path[i] != path[j]
  {
    var rank :| Ranks(s, rank);
    ChainRises(s, rank, path, i, j);
  }

  lemma {:induction false} ChainRises(s: Store, rank: map<Id, nat>, path: seq<Id>, i: nat, j: nat)
    requires Ranks(s, rank) && Chain(s, path) && i < j < |path|
    ensures path[i] in rank && path[j] in rank && rank[path[i]] < rank[path[j]]
  {
    assert Succeeds(s, path[j - 1], path[j]);
    if i < j - 1 {
      ChainRises(s, rank, path, i, j - 1);
    }
  }

  /** Any non-empty set of resources has one that replaces none of the others. */
  lemma {:induction false} CausallyFirst(s: Store, among: set<Id>) returns (first: Id)
    requires Ordered(s) && among != {} && among <= s.resources.Keys
    ensures first in among && forall q :: q in among ==> !Succeeds(s, q, first)
  {
    var rank :| Ranks(s, rank);
    first := LeastRank(s, rank, among);
  }

  lemma {:induction false} LeastRank(s: Store, rank: map<Id, nat>, among: set<Id>) returns (first: Id)
    requires Ranks(s, rank) && among != {} && among <= s.resources.Keys
    ensures first in among && forall q :: q in among ==> rank[first] <= rank[q]
  {
    first :| first in among;
    var others := among - {first};
    if others == {} {
      assert among == {first};
    } else {
      var least := LeastRank(s, rank, others);
      assert forall q :: q in among ==> q == first || q in others;
      if rank[least] < rank[first] {
        first := least;
      }
    }
  }

  ghost predicate SuccessorPresent(s: Store, r: Id) {
    exists v :: Succeeds(s, r, v) && s.resources[v].channel == s.resources[r].channel
                && s.resources[v].lifecycle in {Applied, Old}
  }

  /** Deleting an old resource leaves another's successor present exactly when it was not that successor. */
  lemma DeletionSparesSuccessors(s: Store, r: Id, q: Id, now: Time)
    requires Inv(s) && r in s.resources && s.resources[r].lifecycle == Old
    requires SuccessorPresent(s, q)
    ensures FinalizeDeleted(s, r, now).reply == Answer(true)
    ensures SuccessorPresent(FinalizeDeleted(s, r, now).store, q) <==> !Succeeds(s, q, r)
  {
    var s' := FinalizeDeleted(s, r, now).store;
    var channel := s.resources[r].channel;
    assert ResourceOk(s, r) && SlotsOk(s, channel);
    var v :| Succeeds(s, q, v) && s.resources[v].channel == s.resources[q].channel && s.resources[v].lifecycle in {Applied, Old};
    if Succeeds(s, q, r) {
      forall w | Succeeds(s', q, w) ensures w == r {
        SuccessionIsInjective(s, q, w, r);
      }
    } else {
      assert Succeeds(s', q, v);
    }
  }

  // ---- Every step keeps the order ----

  lemma FewerEdges(s: Store, s': Store)
    requires Ordered(s)
    requires forall a, b :: Succeeds(s', a, b) ==> Succeeds(s, a, b)
    ensures Ordered(s')
  {
    var rank :| Ranks(s, rank);
    var rank' := map r | r in s'.resources :: if r in rank then rank[r] else 0;
    forall a, b | Succeeds(s', a, b)
      ensures rank'[a] < rank'[b]
    {
      assert Succeeds(s, a, b);
    }
    assert Ranks(s', rank');
  }

  lemma AcceptKeepsOrder(s: Store, c: Command, fence: ReferenceFence, allowed: bool, now: Time, candidateId: Id)
    requires Inv(s) && Ordered(s)
    ensures Ordered(Accept(s, c, fence, allowed, now, candidateId).store)
  {
    var s' := Accept(s, c, fence, allowed, now, candidateId).store;
    forall a, b | Succeeds(s', a, b)
      ensures Succeeds(s, a, b)
    {
      if a in s.resources {
        assert ResourceOk(s, a);
      }
    }
    FewerEdges(s, s');
  }

  lemma ReplacementKeepsOrder(s: Store, operation: Id, newId: Id, oldId: Id, fence: Fence)
    requires Inv(s) && Ordered(s)
    ensures Ordered(RecordReplacement(s, operation, newId, oldId, fence).store)
  {
    var s' := RecordReplacement(s, operation, newId, oldId, fence).store;
    if s' != s {
      var rank :| Ranks(s, rank);
      var rank' := rank[newId := rank[oldId] + 1];
      assert ResourceOk(s, newId);
      forall a, b | Succeeds(s', a, b)
        ensures rank'[a] < rank'[b]
      {
        if a == oldId {
          assert PairOk(s, b, newId);
        } else {
          assert Succeeds(s, a, b);
          assert PairOk(s, a, newId);
        }
      }
      assert Ranks(s', rank');
    }
  }

  lemma FinalizeApplyKeepsOrder(s: Store, operation: Id, candidate: Id, fence: Fence)
    requires Inv(s) && Ordered(s)
    ensures Ordered(FinalizeApply(s, operation, candidate, fence).store)
  {
    var s' := FinalizeApply(s, operation, candidate, fence).store;
    if s' != s {
      var current := SlotsOf(s, s.operations[operation].channel).current;
      if current.None? {
        FewerEdges(s, s');
      } else {
        ReplacementKeepsOrder(s, operation, candidate, current.value, fence);
      }
    }
  }

  /** Steps that only move operations and slots leave the resources alone. */
  lemma StagesKeepResources(s: Store)
    ensures forall id, stage, now, timeout :: ClaimStage(s, id, stage, now, timeout).store.resources == s.resources
    ensures forall out, fence, now :: CompleteStage(s, out, fence, now).store.resources == s.resources
    ensures forall out, fence, now :: HandoffRecovery(s, out, fence, now).store.resources == s.resources
  {
  }

  lemma CompleteApplyKeepsOrder(s: Store, operation: Id, candidate: Id, replaceFence: Fence, stageFence: Fence, now: Time)
    requires Inv(s) && Ordered(s)
    ensures Ordered(CompleteApply(s, operation, candidate, replaceFence, stageFence, now).store)
  {
    var finalized := FinalizeApply(s, operation, candidate, replaceFence).store;
    FinalizeApplyKeepsOrder(s, operation, candidate, replaceFence);
    StagesKeepResources(finalized);
    var s' := CompleteApply(s, operation, candidate, replaceFence, stageFence, now).store;
    if s' != s {
      FewerEdges(finalized, s');
    }
  }

  lemma CompleteApplyRecoveryKeepsOrder(s: Store, recovery: Id, candidate: Id, handoffFence: Fence,
                                        replaceFence: Fence, stageFence: Fence, now: Time, timeout: nat)
    requires Inv(s) && Ordered(s)
    ensures Ordered(CompleteApplyRecovery(s, recovery, candidate, handoffFence, replaceFence, stageFence, now, timeout).store)
  {
    if ApplyRecoverable(s, recovery, candidate) {
      var subject := s.operations[recovery].subject.value;
      var out := RecoveryOutcome(recovery, subject, Status.Processing, Verifying, Code.Accepted, false);
      var handed := HandoffRecovery(s, out, handoffFence, now).store;
      HandoffKeeps(s, out, handoffFence, now);
      StagesKeepResources(s);
      FewerEdges(s, handed);
      ClaimKeeps(handed, subject, Verifying, now, timeout);
      StagesKeepResources(handed);
      var claimed := ClaimStage(handed, subject, Verifying, now, timeout).store;
      FewerEdges(handed, claimed);
      CompleteApplyKeepsOrder(claimed, subject, candidate, replaceFence, stageFence, now);
    }
  }
}
