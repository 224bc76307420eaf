/** What the attempt repository answers to a submission, a status check and a receipt, and what each means. */
module DeliveryAnswers {
  import opened Wrappers
  import opened Delivery
  import opened DeliveryRuns
  import opened DeliveryRepository

  // ---- Submissions ----

  /** A new attempt is being processed for half a minute, for the request it was made with. */
  lemma NewAttemptWaits(c: Command, now: Time)
    requires c.fingerprint == c.Request()
    ensures var a := NewAttempt(c, now);
            && StateValid(a) && ReceiptValid(a)
            && a.operation == c.operation && a.request == c.Request() && a.status == Processing
            && a.acceptedAt == now && a.processingExpiresAt == now + 30
            && (c.commitment.Some? ==>
                  a.receiptDigest == Some(c.commitment.value.digest) && a.receiptExpiresAt == Some(c.commitment.value.expiresAt))
            && (c.commitment.None? ==> a.receiptDigest.None? && a.receiptExpiresAt.None?)
            && a.receiptConfirmedAt.None? && a.lineRequest.None?
  {
  }

  predicate Submitted(t: Table, c: Command, row: Id) {
    row in t && t[row].operation == c.operation
  }

  /** A free command: no attempt of its operation, none being processed for its request, none with its receipt. */
  predicate Fresh(t: Table, c: Command, row: Id) {
    && row !in t
    && forall x :: x in t ==>
         && t[x].operation != c.operation
         && (t[x].status == Processing ==> t[x].request != c.fingerprint)
         && (c.commitment.Some? ==> t[x].receiptDigest != Some(c.commitment.value.digest))
  }

  /** The operation is known: it is answered with its attempt if the request is the same, and refused otherwise. */
  lemma KnownOperations(t: Table, c: Command, x: Chance, row: Id)
    requires TableOk(t) && c.fingerprint == c.Request() && Submitted(t, c, row)
    ensures AcceptAlone(t, c, x).table == t
    ensures ReplyOf(AcceptAlone(t, c, x).workers[0]) == if t[row].request == c.Request() then Existing(row) else Conflict
  {
    SubmitInOnePiece(Alone(t, Submitting(c)), 0, x);
    SameRow(t, row, OperationRow(t, c.operation));
  }

  lemma FreshInserts(t: Table, c: Command, x: Chance)
    requires TableOk(t) && c.fingerprint == c.Request()
    ensures InsertFails(t, x.freshId, NewAttempt(c, x.now)) <==> !Fresh(t, c, x.freshId)
  {
    assert forall row :: row in t ==> StateValid(t[row]);
    if Fresh(t, c, x.freshId) {
      assert forall row :: row in t ==> !Collides(t[row], NewAttempt(c, x.now));
    }
    if !InsertFails(t, x.freshId, NewAttempt(c, x.now)) {
      assert forall row :: row in t ==> !Collides(t[row], NewAttempt(c, x.now));
    }
  }

  /** A new operation gets an attempt exactly when nothing collides with it; else it is referred to the attempt being
      processed for the same request, and to no other. */
  lemma NewOperations(t: Table, c: Command, x: Chance)
    requires TableOk(t) && c.fingerprint == c.Request() && (forall row :: !Submitted(t, c, row))
    ensures var w := AcceptAlone(t, c, x); var reply := ReplyOf(w.workers[0]);
            && (reply.Accepted? <==> x.fence == Locked && Fresh(t, c, x.freshId))
            && (if reply.Accepted? then reply.id == x.freshId && w.table == t[x.freshId := NewAttempt(c, x.now)] else w.table == t)
            && (reply.Existing? ==>
                  reply.id in t && t[reply.id].status == Processing && t[reply.id].request == c.Request())
            && ((exists row :: row in t && t[row].status == Processing && t[row].request == c.Request()) && x.fence == Locked ==>
                  reply.Existing?)
            && reply != Conflict
            && (reply == TargetGone <==> x.fence == NoChannel)
            && (reply == StorageFailed <==> x.fence == Unlockable)
  {
    hide SubmitRun, InsertFails, Fresh, NewAttempt;
    NeverSubmitted(t, c);
    SubmitInOnePiece(Alone(t, Submitting(c)), 0, x);
    FreshInserts(t, c, x);
    ActiveIsProcessing(t, c.fingerprint);
    ProcessingIsNotFresh(t, c, x.freshId);
  }

  lemma NeverSubmitted(t: Table, c: Command)
    ensures HasOperation(t, c.operation) <==> exists row :: Submitted(t, c, row)
  {
    if HasOperation(t, c.operation) {
      assert Submitted(t, c, OperationRow(t, c.operation));
    }
  }

  lemma ActiveIsProcessing(t: Table, request: Fingerprint)
    requires TableOk(t)
    ensures HasActive(t, request) <==> exists row :: row in t && t[row].status == Processing && t[row].request == request
    ensures forall row :: row in t && t[row].activeRequest == Some(request) ==> t[row].status == Processing && t[row].request == request
  {
    assert forall row :: row in t ==> StateValid(t[row]);
  }

  lemma ProcessingIsNotFresh(t: Table, c: Command, row: Id)
    ensures (exists x :: x in t && t[x].status == Processing && t[x].request == c.fingerprint) ==> !Fresh(t, c, row)
  {
  }

  /** A command whose fingerprint is not that of its request is never stored. */
  lemma ForeignFingerprints(t: Table, c: Command, x: Chance)
    requires c.fingerprint != c.Request()
    ensures AcceptAlone(t, c, x).table == t && ReplyOf(AcceptAlone(t, c, x).workers[0]) == Raised
  {
    SubmitInOnePiece(Alone(t, Submitting(c)), 0, x);
  }

  /** A submission whose insert collides is answered with what it collides with: its own operation first, then the
      attempt being processed for its request. */
  lemma CollisionsAreExplained(w: World, id: Id, x: Chance)
    requires WorldOk(w) && id in w.workers && (w.workers[id].Colliding? || w.workers[id].Deferring?)
    ensures var c, w' := w.workers[id].command, NextAct(w, id, x);
            && w'.table == w.table && id in w'.workers
            && forall row :: row in w.table ==>
                 && (w.workers[id].Colliding? && w.table[row].operation == c.operation ==>
                       w'.workers[id] == Done(if w.table[row].request == c.fingerprint then Existing(row) else Conflict))
                 && (w.workers[id].Deferring? && w.table[row].status == Processing && w.table[row].request == c.fingerprint ==>
                       w'.workers[id] == Done(Existing(row)))
    ensures (forall row :: row in w.table ==> w.table[row].operation != w.workers[id].command.operation) ==>
              if w.workers[id].Colliding? then NextAct(w, id, x).workers[id] == Deferring(w.workers[id].command)
              else (forall row :: row in w.table ==>
                      !(w.table[row].status == Processing && w.table[row].request == w.workers[id].command.fingerprint)) ==>
                     NextAct(w, id, x).workers[id] == Done(Raised)
  {
    hide WorldOk, StateValid, ReceiptValid;
    var c := w.workers[id].command;
    TableIsOk(w);
    ActiveIsProcessing(w.table, c.fingerprint);
    forall row | row in w.table && w.table[row].operation == c.operation
      ensures HasOperation(w.table, c.operation) && OperationRow(w.table, c.operation) == row
    {
      SameRow(w.table, row, OperationRow(w.table, c.operation));
    }
    forall row | row in w.table && w.table[row].status == Processing && w.table[row].request == c.fingerprint
      ensures HasActive(w.table, c.fingerprint) && ActiveRow(w.table, c.fingerprint) == row
    {
      RowIsValid(w, row);
      ProcessingIsActive(w.table[row]);
      SameRow(w.table, row, ActiveRow(w.table, c.fingerprint));
    }
  }

  lemma ProcessingIsActive(a: Attempt)
    requires StateValid(a) && a.status == Processing
    ensures a.activeRequest == Some(a.request)
  {
  }

  // ---- Status checks ----

  /** An owner sees the attempts of its own slot only; one still processing after its time is unknown from then on, and
      nothing else changes. */
  lemma StatusExactly(t: Table, slot: nat, operation: Id, x: Chance)
    requires TableOk(t)
    ensures var w := StatusAlone(t, slot, operation, x); var reply := ReplyOf(w.workers[0]);
            && (reply.Stored? <==> exists row :: row in t && t[row].operation == operation && t[row].request.slot == slot)
            && (!reply.Stored? ==> reply == Missing && w.table == t)
            && forall row :: row in t && t[row].operation == operation && t[row].request.slot == slot ==>
                 if t[row].status == Processing && t[row].processingExpiresAt <= x.now
                 then && TimedOut(reply.attempt) && reply.attempt.operation == operation
                      && reply.attempt.failedAt == Some(x.now) && reply.attempt.completedAt == Some(x.now)
                      && w.table == t[row := reply.attempt]
                 else w.table == t && reply.attempt == t[row]
  {
    hide StatusAlone, StateValid, ReceiptValid;
    StatusInOnePiece(t, slot, operation, x);
    forall row | row in t && t[row].operation == operation
      ensures HasOperation(t, operation) && OperationRow(t, operation) == row
    {
      SameRow(t, row, OperationRow(t, operation));
    }
  }

  // ---- Receipts ----

  predicate For(a: Attempt, c: ReceiptCommand) {
    a.request.channel == c.channel && a.request.recipient == c.recipient
  }

  /** A receipt is recorded exactly for the target of a delivery that asked for one, has none yet, has not failed, and
      before it expires; every other answer says which of these is missing, the first in this order. */
  lemma ReceiptsExactly(t: Table, c: ReceiptCommand, row: Id)
    requires TableOk(t) && |c.event| <= MAX_EVENT_ID && row in t && t[row].receiptDigest == Some(c.digest)
    ensures var a, w := t[row], ReceiptAlone(t, c); var reply := ReplyOf(w.workers[0]);
            && (reply == Recorded <==>
                  For(a, c) && a.receiptConfirmedAt.None? && c.occurredAt < a.receiptExpiresAt.value && a.status != Failed)
            && (reply == Rejected(TargetMismatch) <==> !For(a, c))
            && (reply == Unchanged <==> For(a, c) && a.receiptConfirmedAt.Some?)
            && (reply == Rejected(Expired) <==>
                  For(a, c) && a.receiptConfirmedAt.None? && c.occurredAt >= a.receiptExpiresAt.value)
            && (reply == Rejected(DeliveryFailed) <==>
                  For(a, c) && a.receiptConfirmedAt.None? && c.occurredAt < a.receiptExpiresAt.value && a.status == Failed)
            && w.table == (if reply == Recorded
                           then t[row := a.(receiptConfirmedAt := Some(c.occurredAt), receiptEvent := Some(c.event))] else t)
  {
    hide ReceiptAlone;
    ReceiptInOnePiece(t, c);
    assert ReceiptValid(t[row]);
    SameRow(t, row, DigestRow(t, c.digest));
  }

  /** Without a delivery of its digest, or with an overlong event id, a receipt changes nothing. */
  lemma StrayReceipts(t: Table, c: ReceiptCommand)
    requires TableOk(t)
    ensures |c.event| > MAX_EVENT_ID ==> ReceiptAlone(t, c).table == t && ReplyOf(ReceiptAlone(t, c).workers[0]) == Rejected(Invalid)
    ensures |c.event| <= MAX_EVENT_ID && (forall row :: row in t ==> t[row].receiptDigest != Some(c.digest)) ==>
              ReceiptAlone(t, c).table == t && ReplyOf(ReceiptAlone(t, c).workers[0]) == Rejected(Unmatched)
  {
    if |c.event| <= MAX_EVENT_ID {
      ReceiptInOnePiece(t, c);
    }
  }

  // ---- Runs ----

  /** Every attempt is processed for its half minute before a status check may end it. */
  predicate TimedRight(t: Table) {
    forall row :: row in t ==> t[row].processingExpiresAt == t[row].acceptedAt + 30
  }

  lemma InsertedIsTimed(w: World, step: Step)
    requires TimedRight(w.table)
    ensures forall row :: row in Next(w, step).table && row !in w.table ==>
              Next(w, step).table[row].processingExpiresAt == Next(w, step).table[row].acceptedAt + 30
  {
    hide HasOperation, HasActive, InsertFails, ClassifyReceipt, HasDigest;
  }

  lemma {:induction false} AttemptsGetTheirTime(steps: seq<Step>)
    ensures TimedRight(Run(START, steps).table)
  {
    hide Next, WorldOk;
    if |steps| > 0 {
      var before, last := Run(START, steps[..|steps| - 1]), steps[|steps| - 1];
      AttemptsGetTheirTime(steps[..|steps| - 1]);
      StartIsOk();
      RunKeeps(START, steps[..|steps| - 1]);
      StepKeeps(before, last);
      InsertedIsTimed(before, last);
      forall row | row in Next(before, last).table
        ensures Next(before, last).table[row].processingExpiresAt == Next(before, last).table[row].acceptedAt + 30
      {
        if row in before.table {
          assert Endures(before.table[row], Next(before, last).table[row]);
        }
      }
    }
  }
}
