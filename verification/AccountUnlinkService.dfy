/**
 One request to unlink, as the service runs it when no other request comes in between: each of its
 transactions and calls is one step of the saga, so what holds of every run of the saga holds of it.
 */
module AccountUnlinkService {
  import opened Wrappers
  import opened Accounts
  import opened AccountUnlink
  import opened AccountRepository

  datatype ExecutionResult =
    | UnlinkCompleted
    | PendingReauthentication
    | PendingLocalRetry
    | UnlinkRejected(code: string)

  lemma RunAppends(w: World, steps: seq<Step>, step: Step)
    ensures Run(w, steps + [step]) == AccountUnlink.Next(Run(w, steps), step)
  {
    assert (steps + [step])[..|steps|] == steps;
  }

  /** Before an attempt takes the execution lock, the lock is not its own. */
  lemma LockIsElsewhere(w: World, id: Id)
    requires SagaOk(w) && (id in w.attempts ==> !HoldsLock(w.attempts[id]))
    ensures w.lock != Some(id)
  {
  }

  /** What the next step of an attempt is, phase by phase. */
  lemma NextByPhase(w: World, id: Id, x: Chance)
    requires id in w.attempts
    ensures var p := w.attempts[id]; var owner := w.tables.owner; var next := NextAct(w, id, x);
            match p
            case Opened(_, _, _) => next == Route(w, id, p, x.now)
            case Starting(principal, ticket) =>
              next == if principal in w.tables.identities && x.verified
                      then Move(Verified(w, id, x), id, Confirming(principal, ticket)) else End(Verified(w, id, x), id)
            case Confirming(_, _) => next == Begin(w, id, p, x)
            case Resuming(principal, g) =>
              next == if principal in w.tables.identities && x.verified
                      then Move(Verified(w, id, x), id, Deauthorizing(principal, g)) else End(Verified(w, id, x), id)
            case Deauthorizing(principal, g) =>
              next == if w.lock.Some? then End(w, id) else Move(w, id, Checking(principal, g)).(lock := Some(id))
            case _ => true
  {
  }

  /** The finalizing step ends its attempt, and either leaves the tables or is the repository's finalization. */
  lemma FinalizingEnds(w: World, id: Id, g: Generation, locked: bool, x: Chance)
    requires id in w.attempts && w.attempts[id] == Finalizing(g, locked)
    ensures var next := NextAct(w, id, x);
            && next.attempts == w.attempts - {id}
            && next.lock == (if w.lock == Some(id) then None else w.lock)
            && next.tables == (if !x.stored || w.tables.owner.state == Vacant then w.tables
                               else Accounts.FinalizeUnlink(w.tables, g).tables)
  {
    hide Accounts.FinalizeUnlink;
  }

  /** The marking step is the repository's, and goes on to finalize only if that one succeeded. */
  lemma MarkingMoves(w: World, id: Id, principal: Id, g: Generation, x: Chance)
    requires id in w.attempts && w.attempts[id] == Marking(principal, g)
    ensures var next := NextAct(w, id, x); var marked := MarkDeauthorized(w.tables, g, x.now);
            next == if !x.stored || marked.reply != Done then End(w, id)
                    else Move(w, id, Finalizing(g, true)).(tables := marked.tables)
  {
    hide MarkDeauthorized;
  }

  /** Marking changes the owner only, and nothing at all unless it succeeds. */
  lemma MarkingOutcome(t: Tables, g: Generation, now: Time)
    ensures var done := MarkDeauthorized(t, g, now);
            && done.tables == t.(owner := done.tables.owner)
            && (done.reply != Done ==> done.tables == t)
  {
  }

  /** A vacant owner has nothing left, and a finalization that does not refuse leaves it vacant. */
  lemma FinalizationOutcome(t: Tables, g: Generation)
    requires TablesOk(t)
    ensures t.owner.state == Vacant ==> t.owner == Owner(Vacant, None, None, None)
    ensures var done := Accounts.FinalizeUnlink(t, g);
            if done.reply == Done then done.tables.owner == Owner(Vacant, None, None, None) else done.tables == t
  {
    assert Consistent(t.owner);
  }

  lemma OwnerIsConsistent(w: World)
    requires SagaOk(w)
    ensures TablesOk(w.tables) && Consistent(w.tables.owner)
  {
  }

  class DefaultAccountUnlinkService {
    const accounts: DjangoAccountRepository
    /** The holder of the execution lock. */
    var lock: Option<Id>
    ghost const start: World
    ghost var steps: seq<Step>
    ghost var world: World

    ghost predicate Valid()
      reads this, accounts
    {
      && SagaOk(world) && world == Run(start, steps)
      && accounts.Contents() == world.tables && lock == world.lock
    }

    constructor (accounts: DjangoAccountRepository, ghost start: World)
      requires SagaOk(start) && accounts.Contents() == start.tables && start.lock.None?
      ensures Valid() && this.accounts == accounts && this.start == start && steps == []
    {
      this.accounts, this.lock, this.start := accounts, None, start;
      steps, world := [], start;
    }

    ghost method Take(step: Step)
      requires SagaOk(world) && world == Run(start, steps) && Admissible(world, step)
      modifies `steps, `world
      ensures SagaOk(world) && world == Run(start, steps)
      ensures world == AccountUnlink.Next(old(world), step) && steps == old(steps) + [step]
    {
      StepKeeps(world, step);
      RunAppends(start, steps, step);
      world := AccountUnlink.Next(world, step);
      steps := steps + [step];
    }

    /** The request is registered and routed by the owner state it finds. */
    ghost method Enter(id: Id, principal: Id, ticket: Option<Ticket>, access: bool, begin: Chance)
      requires SagaOk(world) && world == Run(start, steps) && id !in world.attempts
      modifies `steps, `world
      ensures SagaOk(world) && world == Run(start, steps) && old(steps) <= steps
      ensures var asked := Opened(principal, ticket, access);
              world == Route(Move(old(world), id, asked).(verified := old(world).verified - {id}), id, asked, begin.now)
    {
      hide SagaOk, Run, NextAct, Route;
      Take(Open(id, principal, ticket, access));
      NextByPhase(world, id, begin);
      Take(Act(id, begin));
    }

    method Execute(id: Id, principal: Id, ticket: Option<Ticket>, access: bool, begin: Chance, call: Chance, mark: Chance,
                   finish: Chance) returns (result: ExecutionResult)
      requires Valid() && id !in world.attempts && begin.freshGeneration !in world.confirmed
      modifies this, accounts
      ensures Valid() && old(steps) <= steps && world.attempts == old(world).attempts - {id}
      ensures lock == old(lock)
      ensures result.UnlinkCompleted? ==> accounts.Contents().owner == Owner(Vacant, None, None, None)
      ensures result.UnlinkRejected? ==> accounts.identities == old(accounts.identities) && accounts.recipients == old(accounts.recipients)
    {
      hide SagaOk, Run, TablesOk;
      OwnerIsConsistent(world);
      LockIsElsewhere(world, id);
      var owner := accounts.owner;
      Enter(id, principal, ticket, access, begin);
      if owner.identity != Some(principal) {
        return UnlinkRejected("owner_not_allowed");
      }
      if owner.state == LocalDeletionPending {
        if ticket.Some? || access {
          return UnlinkRejected("validation_error");
        }
        result := Finalize(id, owner.generation.value, false, finish);
      } else if owner.state == Active {
        if ticket.None? || !access {
          return UnlinkRejected("validation_error");
        }
        if !FreshTicket(ticket.value, begin.now) {
          return UnlinkRejected("stale_confirmation");
        }
        result := Start(id, principal, ticket.value, begin, call, mark, finish);
      } else {
        if ticket.Some? || !access {
          return UnlinkRejected("validation_error");
        }
        result := ResumeDeauthorization(id, principal, owner.generation.value, begin, call, mark, finish);
      }
    }

    method Start(id: Id, principal: Id, ticket: Ticket, begin: Chance, call: Chance, mark: Chance, finish: Chance)
      returns (result: ExecutionResult)
      requires Valid() && begin.freshGeneration !in world.confirmed
      requires id in world.attempts && world.attempts[id] == Starting(principal, ticket)
      modifies this, accounts
      ensures Valid() && old(steps) <= steps && world.attempts == old(world).attempts - {id}
      ensures lock == old(lock)
      ensures result.UnlinkCompleted? ==> accounts.Contents().owner == Owner(Vacant, None, None, None)
      ensures result.UnlinkRejected? ==> accounts.identities == old(accounts.identities) && accounts.recipients == old(accounts.recipients)
    {
      hide SagaOk, Run, TablesOk, NextAct;
      OwnerIsConsistent(world);
      LockIsElsewhere(world, id);
      NextByPhase(world, id, begin);
      Take(Act(id, begin));
      if principal !in accounts.identities {
        return UnlinkRejected("owner_not_allowed");
      }
      if !begin.verified {
        return UnlinkRejected("invalid_line_proof");
      }
      result := Confirm(id, principal, ticket, begin, call, mark, finish);
    }

    /** The snapshot is compared and the unlink begun in one transaction. */
    method Confirm(id: Id, principal: Id, ticket: Ticket, begin: Chance, call: Chance, mark: Chance, finish: Chance)
      returns (result: ExecutionResult)
      requires Valid() && begin.freshGeneration !in world.confirmed
      requires id in world.attempts && world.attempts[id] == Confirming(principal, ticket)
      modifies this, accounts
      ensures Valid() && old(steps) <= steps && world.attempts == old(world).attempts - {id}
      ensures lock == old(lock)
      ensures result.UnlinkCompleted? ==> accounts.Contents().owner == Owner(Vacant, None, None, None)
      ensures result.UnlinkRejected? ==> accounts.identities == old(accounts.identities) && accounts.recipients == old(accounts.recipients)
    {
      hide SagaOk, Run, TablesOk, NextAct, Consistent, Accounts.SnapshotOf;
      OwnerIsConsistent(world);
      LockIsElsewhere(world, id);
      NextByPhase(world, id, begin);
      var snapped := SnapshotOf(accounts.Contents()).reply;
      Take(Act(id, begin));
      if accounts.owner.identity != Some(principal) {
        return UnlinkRejected("owner_not_allowed");
      }
      if accounts.owner.state != Active {
        return UnlinkRejected("unlink_in_progress");
      }
      if !snapped.Snapped? || !FreshTicket(ticket, begin.now) || ticket.snapshot != snapped.snapshot {
        return UnlinkRejected("stale_confirmation");
      }
      if !begin.stored {
        return UnlinkRejected("storage_unavailable");
      }
      var begun := accounts.BeginUnlink(begin.freshGeneration);
      assert accounts.Contents() == world.tables;
      assert world.attempts[id] == Deauthorizing(principal, begin.freshGeneration);
      result := Deauthorize(id, principal, begin.freshGeneration, call, mark, finish);
    }

    method ResumeDeauthorization(id: Id, principal: Id, g: Generation, verify: Chance, call: Chance, mark: Chance, finish: Chance)
      returns (result: ExecutionResult)
      requires Valid() && id in world.attempts && world.attempts[id] == Resuming(principal, g)
      modifies this, accounts
      ensures Valid() && old(steps) <= steps && world.attempts == old(world).attempts - {id}
      ensures lock == old(lock)
      ensures result.UnlinkCompleted? ==> accounts.Contents().owner == Owner(Vacant, None, None, None)
      ensures result.UnlinkRejected? ==> accounts.identities == old(accounts.identities) && accounts.recipients == old(accounts.recipients)
    {
      hide SagaOk, Run, TablesOk, NextAct, Consistent;
      OwnerIsConsistent(world);
      LockIsElsewhere(world, id);
      NextByPhase(world, id, verify);
      Take(Act(id, verify));
      if principal !in accounts.identities {
        return UnlinkRejected("owner_not_allowed");
      }
      if !verify.verified {
        return UnlinkRejected("invalid_line_proof");
      }
      result := Deauthorize(id, principal, g, call, mark, finish);
    }

    method Deauthorize(id: Id, principal: Id, g: Generation, call: Chance, mark: Chance, finish: Chance)
      returns (result: ExecutionResult)
      requires Valid() && id in world.attempts && world.attempts[id] == Deauthorizing(principal, g)
      modifies this, accounts
      ensures Valid() && old(steps) <= steps && world.attempts == old(world).attempts - {id}
      ensures lock == old(lock)
      ensures result.UnlinkCompleted? ==> accounts.Contents().owner == Owner(Vacant, None, None, None)
      ensures result.UnlinkRejected? ==> accounts.identities == old(accounts.identities) && accounts.recipients == old(accounts.recipients)
    {
      hide SagaOk, Run, TablesOk, NextAct, Consistent;
      OwnerIsConsistent(world);
      LockIsElsewhere(world, id);
      NextByPhase(world, id, call);
      Take(Act(id, call));
      if lock.Some? {
        return UnlinkRejected("unlink_in_progress");
      }
      lock := Some(id);
      result := DeauthorizeLocked(id, principal, g, call, mark, finish);
    }

    /** With the execution lock held, the owner is read again before LINE is called. */
    method DeauthorizeLocked(id: Id, principal: Id, g: Generation, call: Chance, mark: Chance, finish: Chance)
      returns (result: ExecutionResult)
      requires Valid() && id in world.attempts && world.attempts[id] == Checking(principal, g) && lock == Some(id)
      modifies this, accounts
      ensures Valid() && old(steps) <= steps && world.attempts == old(world).attempts - {id}
      ensures lock.None?
      ensures result.UnlinkCompleted? ==> accounts.Contents().owner == Owner(Vacant, None, None, None)
      ensures result.UnlinkRejected? ==> accounts.identities == old(accounts.identities) && accounts.recipients == old(accounts.recipients)
    {
      hide SagaOk, Run, TablesOk;
      OwnerIsConsistent(world);
      var owner := accounts.owner;
      Take(Act(id, call));
      if owner.generation != Some(g) || (owner.state != LocalDeletionPending && owner.state != DeauthorizationPending) {
        lock := None;
        return UnlinkRejected("unlink_attempt_stale");
      }
      if owner.state == LocalDeletionPending {
        result := Finalize(id, g, true, finish);
      } else {
        result := CallLine(id, principal, g, call, mark, finish);
      }
    }

    method CallLine(id: Id, principal: Id, g: Generation, call: Chance, mark: Chance, finish: Chance)
      returns (result: ExecutionResult)
      requires Valid() && id in world.attempts && world.attempts[id] == Calling(principal, g) && lock == Some(id)
      modifies this, accounts
      ensures Valid() && old(steps) <= steps && world.attempts == old(world).attempts - {id}
      ensures lock.None?
      ensures result.UnlinkCompleted? ==> accounts.Contents().owner == Owner(Vacant, None, None, None)
      ensures result.UnlinkRejected? ==> accounts.identities == old(accounts.identities) && accounts.recipients == old(accounts.recipients)
    {
      hide SagaOk, Run, TablesOk;
      Take(Act(id, call));
      if call.line == Unreachable {
        lock := None;
        return UnlinkRejected("line_unavailable");
      }
      if call.line != Deauthorized {
        lock := None;
        return PendingReauthentication;
      }
      result := MarkAndFinalize(id, principal, g, mark, finish);
    }

    method MarkAndFinalize(id: Id, principal: Id, g: Generation, mark: Chance, finish: Chance) returns (result: ExecutionResult)
      requires Valid() && id in world.attempts && world.attempts[id] == Marking(principal, g) && lock == Some(id)
      modifies this, accounts
      ensures Valid() && old(steps) <= steps && world.attempts == old(world).attempts - {id}
      ensures lock.None?
      ensures result.UnlinkCompleted? ==> accounts.Contents().owner == Owner(Vacant, None, None, None)
      ensures result.UnlinkRejected? ==> accounts.identities == old(accounts.identities) && accounts.recipients == old(accounts.recipients)
    {
      hide SagaOk, Run, TablesOk, NextAct, MarkDeauthorized, Consistent;
      OwnerIsConsistent(world);
      MarkingMoves(world, id, principal, g, mark);
      MarkingOutcome(world.tables, g, mark.now);
      Take(Act(id, mark));
      var marked := StorageFailed;
      if mark.stored {
        marked := accounts.MarkLineDeauthorized(g, mark.now);
      }
      if marked != Done {
        lock := None;
        return PendingReauthentication;
      }
      result := Finalize(id, g, true, finish);
    }

    method Finalize(id: Id, g: Generation, locked: bool, finish: Chance) returns (result: ExecutionResult)
      requires Valid() && id in world.attempts && world.attempts[id] == Finalizing(g, locked)
      modifies this, accounts
      ensures Valid() && old(steps) <= steps && world.attempts == old(world).attempts - {id}
      ensures lock == if old(lock) == Some(id) then None else old(lock)
      ensures result.UnlinkCompleted? ==> accounts.Contents().owner == Owner(Vacant, None, None, None)
      ensures result.UnlinkRejected? ==> accounts.Contents() == old(accounts.Contents())
    {
      hide SagaOk, Run, TablesOk, NextAct, Accounts.FinalizeUnlink, Consistent;
      OwnerIsConsistent(world);
      FinalizingEnds(world, id, g, locked, finish);
      FinalizationOutcome(world.tables, g);
      Take(Act(id, finish));
      if lock == Some(id) {
        lock := None;
      }
      if !finish.stored {
        return PendingLocalRetry;
      }
      if accounts.owner.state == Vacant {
        return UnlinkCompleted;
      }
      var finalized := accounts.FinalizeUnlink(g);
      result := if finalized == Done then UnlinkCompleted else UnlinkRejected("unlink_attempt_stale");
    }
  }
}
