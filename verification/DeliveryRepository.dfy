/**
 The attempt repository and the push pipeline as the program runs them. Each method does what its
 worker does when no other worker comes in between.
 */
module DeliveryRepository {
  import opened Wrappers
  import opened Delivery
  import opened DeliveryRuns

  ghost function Alone(t: Table, worker: Worker): World {
    World(t, map[0 := worker], [], [], map[], map[])
  }

  /** A submission up to its end, or up to an accepted attempt that waits to be pushed. */
  ghost function SubmitRun(w: World, id: Id, x: Chance): World
    requires id in w.workers && w.workers[id].Submitting?
  {
    var w1 := SubmitNext(w, id, x);
    if !w1.workers[id].Inserting? then w1
    else
      var w2 := SubmitNext(w1, id, x);
      if !w2.workers[id].Colliding? then w2
      else
        var w3 := SubmitNext(w2, id, x);
        if !w3.workers[id].Deferring? then w3 else SubmitNext(w3, id, x)
  }

  ghost function AcceptAlone(t: Table, c: Command, x: Chance): World {
    SubmitRun(Alone(t, Submitting(c)), 0, x)
  }

  ghost function FinalizeAlone(t: Table, id: Id, result: PushResult, x: Chance): World {
    PushNext(PushNext(Alone(t, Ending(id, result)), 0, x), 0, x)
  }

  ghost function StatusAlone(t: Table, slot: nat, operation: Id, x: Chance): World {
    var w1 := StatusNext(Alone(t, CheckingStatus(slot, operation)), 0, x);
    if w1.workers[0].Done? then w1 else PushNext(StatusNext(w1, 0, x), 0, x)
  }

  ghost function ReceiptAlone(t: Table, c: ReceiptCommand): World {
    var w1 := ReceiptNext(Alone(t, ReadingReceipt(c)), 0);
    if w1.workers[0].Done? then w1 else ReceiptNext(ReceiptNext(w1, 0), 0)
  }

  /** The reply of a worker that stopped; a prepared push is an accepted attempt. */
  function ReplyOf(worker: Worker): Reply {
    match worker
    case Done(reply) => reply
    case Preparing(id, _) => Accepted(id)
    case _ => Raised
  }

  // ---- What the lone workers do, in one piece ----

  lemma SubmitInOnePiece(w: World, id: Id, x: Chance)
    requires id in w.workers && w.workers[id].Submitting?
    ensures var c := w.workers[id].command; var t := w.table; var a := NewAttempt(c, x.now); var w' := SubmitRun(w, id, x);
            && w'.workers.Keys == w.workers.Keys && w' == w.(table := w'.table, workers := w.workers[id := w'.workers[id]])
            && if c.fingerprint != c.Request() then w'.table == t && w'.workers[id] == Done(Raised)
               else if HasOperation(t, c.operation)
               then w'.table == t && w'.workers[id] == Done(Classify(t, OperationRow(t, c.operation), c))
               else if x.fence != Locked
               then w'.table == t && w'.workers[id] == Done(if x.fence == NoChannel then TargetGone else StorageFailed)
               else if InsertFails(t, x.freshId, a)
               then && w'.table == t
                    && w'.workers[id] == Done(if HasActive(t, c.fingerprint) then Existing(ActiveRow(t, c.fingerprint)) else Raised)
               else w'.table == t[x.freshId := a] && w'.workers[id] == Preparing(x.freshId, c)
  {
    hide HasOperation, HasActive, InsertFails;
  }

  /** What the repository's finalization does is what an ending worker does. */
  lemma FinalizeInOnePiece(t: Table, id: Id, result: PushResult, x: Chance)
    requires id in t
    ensures var w := FinalizeAlone(t, id, result, x);
            w.table == Finish(t, id, result, x.now) && ReplyOf(w.workers[0]) == Stored(Finish(t, id, result, x.now)[id])
  {
    hide Ended;
  }

  lemma StatusInOnePiece(t: Table, slot: nat, operation: Id, x: Chance)
    ensures var w := StatusAlone(t, slot, operation, x);
            if !HasOperation(t, operation) || t[OperationRow(t, operation)].request.slot != slot
            then w.table == t && ReplyOf(w.workers[0]) == Missing
            else
              var t' := Expire(t, OperationRow(t, operation), slot, operation, x.now);
              w.table == t' && ReplyOf(w.workers[0]) == Stored(t'[OperationRow(t, operation)])
  {
    hide HasOperation, Ended;
  }

  lemma ReceiptInOnePiece(t: Table, c: ReceiptCommand)
    requires TableOk(t) && |c.event| <= MAX_EVENT_ID
    ensures var w := ReceiptAlone(t, c);
            if !HasDigest(t, c.digest) then w.table == t && ReplyOf(w.workers[0]) == Rejected(Unmatched)
            else
              var id := DigestRow(t, c.digest);
              if ClassifyReceipt(t[id], c).Some?
              then w.table == t && ReplyOf(w.workers[0]) == ClassifyReceipt(t[id], c).value
              else w.table == Confirm(t, id, c) && ReplyOf(w.workers[0]) == Recorded && ReceiptApplies(t[id], c)
  {
    if HasDigest(t, c.digest) {
      ReceiptAppliesOrIsAnswered(t[DigestRow(t, c.digest)], c);
    }
  }

  class DjangoAttemptRepository {
    var attempts: Table

    ghost predicate Valid()
      reads this
    {
      TableOk(attempts)
    }

    constructor ()
      ensures Valid() && attempts == map[]
    {
      attempts := map[];
    }

    method Accept(c: Command, x: Chance) returns (reply: Reply)
      requires Valid()
      modifies this
      ensures Valid()
      ensures attempts == AcceptAlone(old(attempts), c, x).table
      ensures reply == ReplyOf(AcceptAlone(old(attempts), c, x).workers[0])
    {
      hide SubmitRun, Classify, NewAttempt, StateValid, ReceiptValid;
      SubmitInOnePiece(Alone(attempts, Submitting(c)), 0, x);
      if c.fingerprint != c.Request() {
        return Raised;
      }
      if HasOperation(attempts, c.operation) {
        var existing :| existing in attempts && attempts[existing].operation == c.operation;
        SameRow(attempts, existing, OperationRow(attempts, c.operation));
        return Classify(attempts, existing, c);
      }
      if x.fence == NoChannel {
        return TargetGone;
      }
      if x.fence != Locked {
        return StorageFailed;
      }
      var attempt := NewAttempt(c, x.now);
      if InsertFails(attempts, x.freshId, attempt) {
        if HasActive(attempts, c.fingerprint) {
          var canonical :| canonical in attempts && attempts[canonical].activeRequest == Some(c.fingerprint);
          SameRow(attempts, canonical, ActiveRow(attempts, c.fingerprint));
          return Existing(canonical);
        }
        return Raised;
      }
      InsertKeeps(attempts, x.freshId, c, x.now);
      attempts := attempts[x.freshId := attempt];
      reply := Accepted(x.freshId);
    }

    method Finalize(id: Id, result: PushResult, x: Chance) returns (reply: Reply)
      requires Valid() && id in attempts
      modifies this
      ensures Valid()
      ensures attempts == Finish(old(attempts), id, result, x.now) && reply == Stored(attempts[id])
      ensures old(attempts)[id].status == Processing ==> EndedBy(attempts[id], result)
    {
      FinishKeeps(attempts, id, result, x.now);
      var attempt := attempts[id];
      if attempt.status == Processing {
        attempt := attempt.(activeRequest := None);
        attempt := attempt.(completedAt := Some(x.now));
        match result {
          case PushAccepted(requestId) =>
            attempt := attempt.(status := Succeeded, sentAt := Some(x.now), lineRequest := Some(requestId));
          case PushUnknown(failure) =>
            attempt := attempt.(status := Unknown, failure := Some(failure), failedAt := Some(x.now));
          case _ =>
            attempt := attempt.(status := Failed, failure := Some(result.failure), failedAt := Some(x.now));
        }
        attempts := attempts[id := attempt];
      }
      reply := Stored(attempts[id]);
    }

    method GetForOwner(slot: nat, operation: Id, x: Chance) returns (reply: Reply)
      requires Valid()
      modifies this
      ensures Valid()
      ensures attempts == StatusAlone(old(attempts), slot, operation, x).table
      ensures reply == ReplyOf(StatusAlone(old(attempts), slot, operation, x).workers[0])
    {
      StatusInOnePiece(attempts, slot, operation, x);
      hide StatusAlone;
      if !HasOperation(attempts, operation) {
        return Missing;
      }
      var id :| id in attempts && attempts[id].operation == operation;
      SameRow(attempts, id, OperationRow(attempts, operation));
      var attempt := attempts[id];
      if attempt.request.slot != slot {
        return Missing;
      }
      if attempt.status == Processing && attempt.processingExpiresAt <= x.now {
        ExpireKeeps(attempts, id, slot, operation, x.now);
        attempt := attempt.(status := Unknown);
        attempt := attempt.(failure := Some("processing_expired"));
        attempt := attempt.(activeRequest := None);
        attempt := attempt.(failedAt := Some(x.now));
        attempt := attempt.(completedAt := Some(x.now));
        attempts := attempts[id := attempt];
      }
      reply := Stored(attempts[id]);
    }

    method ConfirmReceipt(c: ReceiptCommand) returns (reply: Reply)
      requires Valid()
      modifies this
      ensures Valid()
      ensures attempts == ReceiptAlone(old(attempts), c).table
      ensures reply == ReplyOf(ReceiptAlone(old(attempts), c).workers[0])
      ensures |c.event| <= MAX_EVENT_ID ==> reply != Rejected(Invalid)
    {
      if |c.event| > MAX_EVENT_ID {
        return Rejected(Invalid);
      }
      ReceiptInOnePiece(attempts, c);
      if !HasDigest(attempts, c.digest) {
        return Rejected(Unmatched);
      }
      var id :| id in attempts && attempts[id].receiptDigest == Some(c.digest);
      SameRow(attempts, id, DigestRow(attempts, c.digest));
      var attempt := attempts[id];
      var classified := ClassifyReceipt(attempt, c);
      if classified.Some? {
        return classified.value;
      }
      ReceiptAppliesOrIsAnswered(attempt, c);
      ConfirmKeeps(attempts, id, c);
      attempt := attempt.(receiptConfirmedAt := Some(c.occurredAt));
      attempt := attempt.(receiptEvent := Some(c.event));
      attempts := attempts[id := attempt];
      reply := Recorded;
    }
  }

  /** Rows that share a unique column are one. */
  lemma SameRow(t: Table, a: Id, b: Id)
    requires TableOk(t) && a in t && b in t && Collides(t[a], t[b])
    ensures a == b
  {
  }
}
