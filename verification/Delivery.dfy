/** The delivery attempts table, one statement at a time, and what its rows satisfy. */
module Delivery {
  import opened Wrappers

  type Id = nat
  type Time = nat
  type Digest = nat

  const PROCESSING_TIMEOUT := 30
  const MAX_EVENT_ID := 26

  datatype Status = Processing | Succeeded | Failed | Unknown

  /** The request a fingerprint stands for; its hash is taken to be injective. */
  datatype Fingerprint = Fingerprint(
    slot: nat, identity: Id, channel: Id, recipient: Id, message: Digest, receiptRequested: bool)

  datatype Commitment = Commitment(digest: Digest, expiresAt: Time)

  datatype Command = Command(
    operation: Id,
    slot: nat,
    identity: Id,
    channel: Id,
    recipient: Id,
    message: Digest,
    fingerprint: Fingerprint,
    commitment: Option<Commitment>)
  {
    function Request(): Fingerprint {
      Fingerprint(slot, identity, channel, recipient, message, commitment.Some?)
    }
  }

  datatype Attempt = Attempt(
    operation: Id,
    request: Fingerprint,
    activeRequest: Option<Fingerprint>,
    status: Status,
    failure: Option<string>,
    lineRequest: Option<string>,
    acceptedAt: Time,
    processingExpiresAt: Time,
    sentAt: Option<Time>,
    failedAt: Option<Time>,
    completedAt: Option<Time>,
    receiptExpiresAt: Option<Time>,
    receiptDigest: Option<Digest>,
    receiptConfirmedAt: Option<Time>,
    receiptEvent: Option<string>)

  type Table = map<Id, Attempt>

  datatype PushResult =
    | PushAccepted(requestId: string)
    | PushRejected(failure: string)
    | PushUnknown(failure: string)
    | PrePushFailure(failure: string)

  /** What the gateway answers to a push. */
  type LineAnswer = r: PushResult | !r.PrePushFailure? witness PushUnknown("")

  datatype ReceiptCommand = ReceiptCommand(
    digest: Digest, channel: Id, recipient: Id, occurredAt: Time, event: string)

  datatype Rejection = Invalid | Unmatched | TargetMismatch | NotRequested | Expired | DeliveryFailed

  datatype Reply =
    | Accepted(id: Id)
    | Existing(id: Id)
    | Conflict
    | TargetGone
    | StorageFailed
    | Raised
    | Stored(attempt: Attempt)
    | Missing
    | Recorded
    | Unchanged
    | Rejected(reason: Rejection)

  datatype ReferenceFence = Locked | NoChannel | Unlockable

  // ---- Constraints ----

  predicate StateValid(a: Attempt) {
    match a.status
    case Processing =>
      && a.activeRequest == Some(a.request) && a.failure.None? && a.sentAt.None? && a.failedAt.None? && a.completedAt.None?
    case Succeeded =>
      && a.activeRequest.None? && a.failure.None? && a.sentAt.Some? && a.failedAt.None? && a.completedAt.Some?
    case _ =>
      && a.activeRequest.None? && a.failure.Some? && a.sentAt.None? && a.failedAt.Some? && a.completedAt.Some?
  }

  predicate ReceiptValid(a: Attempt) {
    && (a.request.receiptRequested <==> a.receiptDigest.Some?)
    && (a.request.receiptRequested <==> a.receiptExpiresAt.Some?)
    && (a.receiptConfirmedAt.Some? <==> a.receiptEvent.Some?)
    && (a.receiptConfirmedAt.Some? ==>
          a.receiptExpiresAt.Some? && a.receiptConfirmedAt.value < a.receiptExpiresAt.value)
  }

  predicate Collides(a: Attempt, b: Attempt) {
    || a.operation == b.operation
    || (a.activeRequest.Some? && a.activeRequest == b.activeRequest)
    || (a.receiptDigest.Some? && a.receiptDigest == b.receiptDigest)
  }

  ghost predicate TableOk(t: Table) {
    && (forall id :: id in t ==> StateValid(t[id]) && ReceiptValid(t[id]))
    && (forall a, b :: a in t && b in t && Collides(t[a], t[b]) ==> a == b)
  }

  // ---- Statements ----

  function NewAttempt(c: Command, now: Time): Attempt {
    Attempt(c.operation, c.fingerprint, Some(c.fingerprint), Processing, None, None, now, now + PROCESSING_TIMEOUT,
            None, None, None,
            if c.commitment.Some? then Some(c.commitment.value.expiresAt) else None,
            if c.commitment.Some? then Some(c.commitment.value.digest) else None,
            None, None)
  }

  /** The insert fails on any unique column. */
  predicate InsertFails(t: Table, id: Id, a: Attempt) {
    id in t || exists x :: x in t && Collides(t[x], a)
  }

  predicate HasOperation(t: Table, operation: Id) {
    exists id :: id in t && t[id].operation == operation
  }

  predicate HasActive(t: Table, request: Fingerprint) {
    exists id :: id in t && t[id].activeRequest == Some(request)
  }

  /** A found operation is replayed when its request is the same and refused otherwise. */
  function Classify(t: Table, id: Id, c: Command): Reply
    requires id in t
  {
    if t[id].request != c.fingerprint then Conflict else Existing(id)
  }

  function Ended(a: Attempt, result: PushResult, now: Time): Attempt {
    var base := a.(activeRequest := None, completedAt := Some(now));
    match result
    case PushAccepted(requestId) => base.(status := Succeeded, sentAt := Some(now), lineRequest := Some(requestId))
    case PushRejected(failure) => base.(status := Failed, failure := Some(failure), failedAt := Some(now))
    case PushUnknown(failure) => base.(status := Unknown, failure := Some(failure), failedAt := Some(now))
    case PrePushFailure(failure) => base.(status := Failed, failure := Some(failure), failedAt := Some(now))
  }

  /** The stored ending names its cause. */
  predicate EndedBy(a: Attempt, result: PushResult) {
    match result
    case PushAccepted(requestId) => a.status == Succeeded && a.lineRequest == Some(requestId)
    case PushRejected(failure) => a.status == Failed && a.failure == Some(failure)
    case PushUnknown(failure) => a.status == Unknown && a.failure == Some(failure)
    case PrePushFailure(failure) => a.status == Failed && a.failure == Some(failure)
  }

  /** Each answer has its ending: succeeded exactly for an accepted push, unknown exactly for an unknown one. */
  lemma EndingsFollowAnswers(a: Attempt, result: PushResult, now: Time)
    requires a.status == Processing && StateValid(a)
    ensures var b := Ended(a, result, now);
            && (b.status == Succeeded <==> result.PushAccepted?)
            && (b.status == Unknown <==> result.PushUnknown?)
            && (b.status == Failed <==> result.PushRejected? || result.PrePushFailure?)
            && EndedBy(b, result)
            && b.completedAt == Some(now)
            && b.sentAt == (if result.PushAccepted? then Some(now) else None)
            && b.failedAt == (if result.PushAccepted? then None else Some(now))
            && (result.PushAccepted? ==> b.failure.None?)
            && (!result.PushAccepted? ==> b.lineRequest == a.lineRequest)
            && StateValid(b)
  {
  }

  /** Only a processing attempt is ended; the first to end it wins. */
  function Finish(t: Table, id: Id, result: PushResult, now: Time): Table {
    if id in t && t[id].status == Processing then t[id := Ended(t[id], result, now)] else t
  }

  function Expire(t: Table, id: Id, slot: nat, operation: Id, now: Time): Table {
    if && id in t && t[id].request.slot == slot && t[id].operation == operation
       && t[id].status == Processing && t[id].processingExpiresAt <= now
    then t[id := Ended(t[id], PushUnknown("processing_expired"), now)] else t
  }

  function ClassifyReceipt(a: Attempt, c: ReceiptCommand): Option<Reply> {
    if a.request.channel != c.channel || a.request.recipient != c.recipient then Some(Rejected(TargetMismatch))
    else if !a.request.receiptRequested then Some(Rejected(NotRequested))
    else if a.receiptConfirmedAt.Some? then Some(Unchanged)
    else if a.receiptExpiresAt.None? || c.occurredAt >= a.receiptExpiresAt.value then Some(Rejected(Expired))
    else if a.status == Failed then Some(Rejected(DeliveryFailed))
    else None
  }

  predicate ReceiptApplies(a: Attempt, c: ReceiptCommand) {
    && a.receiptDigest == Some(c.digest)
    && a.request.channel == c.channel && a.request.recipient == c.recipient
    && a.request.receiptRequested
    && a.receiptExpiresAt.Some? && a.receiptExpiresAt.value > c.occurredAt
    && a.status != Failed
    && a.receiptConfirmedAt.None? && a.receiptEvent.None?
  }

  function Confirm(t: Table, id: Id, c: ReceiptCommand): Table {
    if id in t && ReceiptApplies(t[id], c)
    then t[id := t[id].(receiptConfirmedAt := Some(c.occurredAt), receiptEvent := Some(c.event))] else t
  }

  // ---- What every statement keeps ----

  /** No statement rewrites what an attempt was accepted with, an ending, or a confirmed receipt. */
  predicate Endures(a: Attempt, b: Attempt) {
    && a.operation == b.operation && a.request == b.request && a.acceptedAt == b.acceptedAt
    && a.processingExpiresAt == b.processingExpiresAt
    && a.receiptExpiresAt == b.receiptExpiresAt && a.receiptDigest == b.receiptDigest
    && (a.status != Processing ==>
          && b.status == a.status && b.failure == a.failure && b.lineRequest == a.lineRequest
          && b.sentAt == a.sentAt && b.failedAt == a.failedAt && b.completedAt == a.completedAt)
    && (a.receiptConfirmedAt.Some? ==> b.receiptConfirmedAt == a.receiptConfirmedAt && b.receiptEvent == a.receiptEvent)
  }

  ghost predicate Extends(t: Table, t': Table) {
    forall id :: id in t ==> id in t' && Endures(t[id], t'[id])
  }

  /** A rejected or answered receipt is answered the same way for good, but for a receipt confirmed meanwhile. */
  lemma ReceiptAnswerSticks(a: Attempt, b: Attempt, c: ReceiptCommand)
    requires Endures(a, b) && ClassifyReceipt(a, c).Some?
    ensures ClassifyReceipt(b, c).Some?
  {
  }

  /** A receipt that neither applies nor is for another capability has an answer. */
  lemma ReceiptAppliesOrIsAnswered(a: Attempt, c: ReceiptCommand)
    requires ReceiptValid(a) && a.receiptDigest == Some(c.digest)
    ensures ReceiptApplies(a, c) <==> ClassifyReceipt(a, c).None?
  {
  }

  lemma InsertKeeps(t: Table, id: Id, c: Command, now: Time)
    requires TableOk(t) && c.fingerprint == c.Request() && !InsertFails(t, id, NewAttempt(c, now))
    ensures TableOk(t[id := NewAttempt(c, now)]) && Extends(t, t[id := NewAttempt(c, now)])
  {
    var a := NewAttempt(c, now);
    assert forall x :: x in t ==> !Collides(t[x], a) && !Collides(a, t[x]);
  }

  lemma RewriteKeeps(t: Table, id: Id, b: Attempt)
    requires TableOk(t) && id in t && Endures(t[id], b) && StateValid(b) && ReceiptValid(b)
    requires b.activeRequest.Some? ==> b.activeRequest == t[id].activeRequest
    ensures TableOk(t[id := b]) && Extends(t, t[id := b])
  {
    hide StateValid, ReceiptValid;
    assert forall x :: x in t && Collides(t[x], b) ==> Collides(t[x], t[id]);
  }

  lemma FinishKeeps(t: Table, id: Id, result: PushResult, now: Time)
    requires TableOk(t)
    ensures TableOk(Finish(t, id, result, now)) && Extends(t, Finish(t, id, result, now))
  {
    if id in t && t[id].status == Processing {
      RewriteKeeps(t, id, Ended(t[id], result, now));
    }
  }

  lemma ExpireKeeps(t: Table, id: Id, slot: nat, operation: Id, now: Time)
    requires TableOk(t)
    ensures TableOk(Expire(t, id, slot, operation, now)) && Extends(t, Expire(t, id, slot, operation, now))
  {
    if id in t && t[id].status == Processing {
      RewriteKeeps(t, id, Ended(t[id], PushUnknown("processing_expired"), now));
    }
  }

  lemma ConfirmKeeps(t: Table, id: Id, c: ReceiptCommand)
    requires TableOk(t)
    ensures TableOk(Confirm(t, id, c)) && Extends(t, Confirm(t, id, c))
  {
    if id in t && ReceiptApplies(t[id], c) {
      RewriteKeeps(t, id, t[id].(receiptConfirmedAt := Some(c.occurredAt), receiptEvent := Some(c.event)));
    }
  }
}
