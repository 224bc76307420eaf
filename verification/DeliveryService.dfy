/**
 The push pipeline of one request, as the service runs it when no other request comes in between:
 accept, push at most once, store the result. Each statement and call is one step of its worker.
 */
module DeliveryService {
  import opened Wrappers
  import opened Delivery
  import opened DeliveryRuns
  import opened DeliveryRepository

  lemma RunAppends(w: World, steps: seq<Step>, step: Step)
    ensures Run(w, steps + [step]) == Next(Run(w, steps), step)
  {
    assert (steps + [step])[..|steps|] == steps;
  }

  datatype Pushed =
    | Executed(result: PushResult)
    | Prevented(attempt: Attempt)
    | StoredAlready(attempt: Attempt)

  class LinkedDeliveryService {
    const attempts: DjangoAttemptRepository
    /** The operations handed to the push gateway. */
    var pushed: seq<Id>
    ghost const start: World
    ghost var steps: seq<Step>
    ghost var world: World

    ghost predicate Valid()
      reads this, attempts
    {
      && WorldOk(world) && world == Run(start, steps)
      && attempts.attempts == world.table && pushed == world.pushed
    }

    constructor (attempts: DjangoAttemptRepository, ghost start: World)
      requires WorldOk(start) && attempts.attempts == start.table && start.pushed == []
      ensures Valid() && this.attempts == attempts && this.start == start && steps == []
    {
      this.attempts, this.pushed, this.start := attempts, [], start;
      steps, world := [], start;
    }

    ghost method Take(step: Step)
      requires WorldOk(world) && world == Run(start, steps)
      modifies `steps, `world
      ensures WorldOk(world) && world == Run(start, steps)
      ensures world == Next(old(world), step) && steps == old(steps) + [step]
    {
      StepKeeps(world, step);
      RunAppends(start, steps, step);
      world := Next(world, step);
      steps := steps + [step];
    }

    /** The statements of a submission, one step each. */
    ghost method Submit(worker: Id, command: Command, x: Chance)
      requires WorldOk(world) && world == Run(start, steps) && worker !in world.workers
      modifies `steps, `world
      ensures WorldOk(world) && world == Run(start, steps) && old(steps) <= steps
      ensures world == SubmitRun(Move(old(world), worker, Submitting(command)), worker, x)
    {
      hide WorldOk, Run, SubmitNext;
      Take(DeliveryRuns.Submit(worker, command));
      assert world == Move(old(world), worker, Submitting(command));
      Take(Act(worker, x));
      SubmitStays(old(world), worker, command, x);
      if world.workers[worker].Inserting? {
        SubmittingWorkerStays(world, worker, x);
        Take(Act(worker, x));
        if world.workers[worker].Colliding? {
          SubmittingWorkerStays(world, worker, x);
          Take(Act(worker, x));
          if world.workers[worker].Deferring? {
            Take(Act(worker, x));
          }
        }
      }
    }

    /** Accepts a confirmed request; only a new attempt is handed on to be pushed. */
    method AcceptConfirmed(worker: Id, command: Command, x: Chance) returns (reply: Reply)
      requires Valid() && worker !in world.workers
      modifies this, attempts
      ensures Valid() && old(steps) <= steps && pushed == old(pushed)
      ensures worker in world.workers
      ensures if reply.Accepted? then world.workers[worker] == Preparing(reply.id, command) && reply.id !in old(attempts.attempts)
              else world.workers[worker] == Done(reply) && attempts.attempts == old(attempts.attempts)
    {
      hide WorldOk, Run, SubmitRun, TableOk, HasOperation, HasActive, NewAttempt;
      WorldTable(world);
      Submit(worker, command, x);
      SubmitInOnePiece(Move(old(world), worker, Submitting(command)), worker, x);
      SubmitInOnePiece(Alone(attempts.attempts, Submitting(command)), 0, x);
      reply := attempts.Accept(command, x);
    }

    /** Pushes an accepted attempt once, unless its credential or target is no longer what it was. */
    method PushAccepted(worker: Id, attempt: Id, command: Command, x: Chance) returns (result: Pushed)
      requires Valid() && worker in world.workers && world.workers[worker] == Preparing(attempt, command)
      requires attempt in attempts.attempts
      modifies this, attempts
      ensures Valid() && old(steps) <= steps && worker in world.workers
      ensures command.operation !in old(pushed)
      ensures result.Executed? ==>
                && x.usable && pushed == old(pushed) + [command.operation]
                && attempts.attempts == old(attempts.attempts)
                && world.workers[worker] == Ending(attempt, result.result)
                && result.result == x.line && world.answers == old(world).answers[command.operation := x.line]
      ensures !result.Executed? ==> !x.usable && pushed == old(pushed) && world.workers[worker] == Done(Stored(result.attempt))
      ensures result.Prevented? ==> result.attempt.status == Failed && result.attempt.failure == Some(x.prevented)
    {
      hide WorldOk, Run, TableOk, DeliveryRuns.Next;
      PreparingMoves(world, worker, x);
      Take(Act(worker, x));
      if !x.usable {
        var reply := FinalizeLinkedPush(worker, attempt, PrePushFailure(x.prevented), x);
        if reply.status == Failed && reply.failure == Some(x.prevented) {
          return Prevented(reply);
        }
        return StoredAlready(reply);
      }
      PushingMoves(world, worker, x);
      Take(Act(worker, x));
      pushed := pushed + [command.operation];
      result := Executed(x.line);
    }

    /** The two statements that end an attempt. */
    ghost method Settle(worker: Id, attempt: Id, result: PushResult, x: Chance)
      requires WorldOk(world) && world == Run(start, steps)
      requires worker in world.workers && world.workers[worker] == Ending(attempt, result) && attempt in world.table
      modifies `steps, `world
      ensures WorldOk(world) && world == Run(start, steps) && old(steps) <= steps
      ensures world.table == Finish(old(world).table, attempt, result, x.now) && world.pushed == old(world).pushed
      ensures worker in world.workers && attempt in world.table && world.workers[worker] == Done(Stored(world.table[attempt]))
    {
      hide WorldOk, Run, Ended;
      Take(Act(worker, x));
      Take(Act(worker, x));
    }

    /** Stores a result; if the attempt ended before, the earlier ending is the answer. */
    method FinalizeLinkedPush(worker: Id, attempt: Id, result: PushResult, x: Chance) returns (stored: Attempt)
      requires Valid() && worker in world.workers && world.workers[worker] == Ending(attempt, result)
      requires attempt in attempts.attempts
      modifies this, attempts
      ensures Valid() && old(steps) <= steps && pushed == old(pushed)
      ensures worker in world.workers && world.workers[worker] == Done(Stored(stored))
      ensures attempt in attempts.attempts && stored == attempts.attempts[attempt]
      ensures old(attempts.attempts)[attempt].status != Processing ==> stored == old(attempts.attempts)[attempt]
      ensures old(attempts.attempts)[attempt].status == Processing ==>
                stored == Ended(old(attempts.attempts)[attempt], result, x.now) && EndedBy(stored, result)
    {
      hide WorldOk, Run, TableOk, Ended, EndedBy;
      WorldTable(world);
      AnyEnding(attempts.attempts, attempt, result, x.now);
      Settle(worker, attempt, result, x);
      var reply := attempts.Finalize(attempt, result, x);
      stored := reply.attempt;
    }
  }

  /** A prepared push has not reached the gateway, and is pushed next or ends without a push. */
  lemma PreparingMoves(w: World, id: Id, x: Chance)
    requires WorldOk(w) && id in w.workers && w.workers[id].Preparing?
    ensures var attempt, command := w.workers[id].id, w.workers[id].command;
            && attempt in w.table && command.operation !in w.pushed
            && Next(w, Act(id, x)) ==
                 if x.usable then Move(w, id, Pushing(attempt, command))
                 else Move(w, id, Ending(attempt, PrePushFailure(x.prevented)))
                        .(prevented := w.prevented[command.operation := x.prevented])
  {
    assert WorkerOk(w, id);
  }

  lemma PushingMoves(w: World, id: Id, x: Chance)
    requires id in w.workers && w.workers[id].Pushing?
    ensures var attempt, command := w.workers[id].id, w.workers[id].command;
            Next(w, Act(id, x)) ==
              Move(w, id, Ending(attempt, x.line))
                .(pushed := w.pushed + [command.operation], answers := w.answers[command.operation := x.line])
  {
  }

  lemma AnyEnding(t: Table, id: Id, result: PushResult, now: Time)
    requires TableOk(t) && id in t
    ensures t[id].status == Processing ==> EndedBy(Ended(t[id], result, now), result)
  {
  }

  lemma WorldTable(w: World)
    requires WorldOk(w)
    ensures TableOk(w.table)
  {
  }

  lemma SubmittingWorkerStays(w: World, id: Id, x: Chance)
    requires id in w.workers && (w.workers[id].Inserting? || w.workers[id].Colliding?)
    ensures id in SubmitNext(w, id, x).workers
  {
  }

  lemma SubmitStays(w: World, id: Id, command: Command, x: Chance)
    ensures var w1 := SubmitNext(Move(w, id, Submitting(command)), id, x);
            id in w1.workers && (w1.workers[id].Inserting? || w1.workers[id].Done?)
  {
  }
}
