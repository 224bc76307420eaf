/** Any number of submissions, status checks and receipts, interleaved statement by statement. */
module DeliveryRuns {
  import opened Wrappers
  import opened Delivery

  /** Where a worker stands between two statements or outside calls. */
  datatype Worker =
    | Submitting(command: Command)
    | Inserting(command: Command)
    | Colliding(command: Command)
    | Deferring(command: Command)
    | Preparing(id: Id, command: Command)
    | Pushing(id: Id, command: Command)
    | Ending(id: Id, result: PushResult)
    | Rereading(id: Id)
    | CheckingStatus(slot: nat, operation: Id)
    | ExpiringStatus(id: Id, slot: nat, operation: Id, now: Time)
    | ReadingReceipt(receipt: ReceiptCommand)
    | ConfirmingReceipt(id: Id, receipt: ReceiptCommand)
    | RereadingReceipt(id: Id, receipt: ReceiptCommand, updated: bool)
    | Done(reply: Reply)

  datatype Chance = Chance(
    now: Time, freshId: Id, fence: ReferenceFence, usable: bool, prevented: string, line: LineAnswer)

  /** `pushed` lists the operations handed to the gateway, `receipts` the attempts a receipt was recorded for;
      `answers` is what the gateway said to each, `prevented` why an operation was not handed to it. */
  datatype World = World(
    table: Table,
    workers: map<Id, Worker>,
    pushed: seq<Id>,
    receipts: seq<Id>,
    answers: map<Id, LineAnswer>,
    prevented: map<Id, string>)

  datatype Step =
    | Submit(worker: Id, command: Command)
    | Check(worker: Id, slot: nat, operation: Id)
    | Receive(worker: Id, receipt: ReceiptCommand)
    | Act(worker: Id, chance: Chance)
    | Crash(worker: Id)

  ghost function OperationRow(t: Table, operation: Id): Id
    requires HasOperation(t, operation)
  {
    var id :| id in t && t[id].operation == operation;
    id
  }

  ghost function ActiveRow(t: Table, request: Fingerprint): Id
    requires HasActive(t, request)
  {
    var id :| id in t && t[id].activeRequest == Some(request);
    id
  }

  predicate HasDigest(t: Table, digest: Digest) {
    exists id :: id in t && t[id].receiptDigest == Some(digest)
  }

  ghost function DigestRow(t: Table, digest: Digest): Id
    requires HasDigest(t, digest)
  {
    var id :| id in t && t[id].receiptDigest == Some(digest);
    id
  }

  function Move(w: World, id: Id, worker: Worker): World {
    w.(workers := w.workers[id := worker])
  }

  ghost function SubmitNext(w: World, id: Id, x: Chance): World
    requires id in w.workers && (w.workers[id].Submitting? || w.workers[id].Inserting? || w.workers[id].Colliding? || w.workers[id].Deferring?)
  {
    var c := w.workers[id].command;
    match w.workers[id]
    case Submitting(_) =>
      if c.fingerprint != c.Request() then Move(w, id, Done(Raised))
      else if HasOperation(w.table, c.operation) then Move(w, id, Done(Classify(w.table, OperationRow(w.table, c.operation), c)))
      else Move(w, id, Inserting(c))
    case Inserting(_) =>
      if x.fence == NoChannel then Move(w, id, Done(TargetGone))
      else if x.fence != Locked then Move(w, id, Done(StorageFailed))
      else if InsertFails(w.table, x.freshId, NewAttempt(c, x.now)) then Move(w, id, Colliding(c))
      else Move(w, id, Preparing(x.freshId, c)).(table := w.table[x.freshId := NewAttempt(c, x.now)])
    case Colliding(_) =>
      if HasOperation(w.table, c.operation) then Move(w, id, Done(Classify(w.table, OperationRow(w.table, c.operation), c)))
      else Move(w, id, Deferring(c))
    case Deferring(_) =>
      Move(w, id, Done(if HasActive(w.table, c.fingerprint) then Existing(ActiveRow(w.table, c.fingerprint)) else Raised))
  }

  function PushNext(w: World, id: Id, x: Chance): World
    requires id in w.workers && (w.workers[id].Preparing? || w.workers[id].Pushing? || w.workers[id].Ending? || w.workers[id].Rereading?)
  {
    var attempt := w.workers[id].id;
    match w.workers[id]
    case Preparing(_, c) =>
      if x.usable then Move(w, id, Pushing(attempt, c))
      else Move(w, id, Ending(attempt, PrePushFailure(x.prevented))).(prevented := w.prevented[c.operation := x.prevented])
    case Pushing(_, c) =>
      Move(w, id, Ending(attempt, x.line)).(pushed := w.pushed + [c.operation], answers := w.answers[c.operation := x.line])
    case Ending(_, result) => Move(w, id, Rereading(attempt)).(table := Finish(w.table, attempt, result, x.now))
    case Rereading(_) => Move(w, id, Done(if attempt in w.table then Stored(w.table[attempt]) else Raised))
  }

  ghost function StatusNext(w: World, id: Id, x: Chance): World
    requires id in w.workers && (w.workers[id].CheckingStatus? || w.workers[id].ExpiringStatus?)
  {
    match w.workers[id]
    case CheckingStatus(slot, operation) =>
      if !HasOperation(w.table, operation) || w.table[OperationRow(w.table, operation)].request.slot != slot
      then Move(w, id, Done(Missing))
      else
        var row := OperationRow(w.table, operation);
        var a := w.table[row];
        if a.status == Processing && a.processingExpiresAt <= x.now
        then Move(w, id, ExpiringStatus(row, slot, operation, x.now)) else Move(w, id, Done(Stored(a)))
    case ExpiringStatus(row, slot, operation, now) =>
      Move(w, id, Rereading(row)).(table := Expire(w.table, row, slot, operation, now))
  }

  ghost function ReceiptNext(w: World, id: Id): World
    requires id in w.workers
    requires w.workers[id].ReadingReceipt? || w.workers[id].ConfirmingReceipt? || w.workers[id].RereadingReceipt?
  {
    match w.workers[id]
    case ReadingReceipt(c) =>
      if |c.event| > MAX_EVENT_ID then Move(w, id, Done(Rejected(Invalid)))
      else if !HasDigest(w.table, c.digest) then Move(w, id, Done(Rejected(Unmatched)))
      else
        var row := DigestRow(w.table, c.digest);
        var answer := ClassifyReceipt(w.table[row], c);
        Move(w, id, if answer.Some? then Done(answer.value) else ConfirmingReceipt(row, c))
    case ConfirmingReceipt(row, c) =>
      var updated := row in w.table && ReceiptApplies(w.table[row], c);
      Move(w, id, RereadingReceipt(row, c, updated))
        .(table := Confirm(w.table, row, c), receipts := if updated then w.receipts + [row] else w.receipts)
    case RereadingReceipt(row, c, updated) =>
      if row !in w.table then Move(w, id, Done(Rejected(Unmatched)))
      else if updated then Move(w, id, Done(Recorded))
      else
        var answer := ClassifyReceipt(w.table[row], c);
        Move(w, id, Done(if answer.Some? then answer.value else Rejected(Invalid)))
  }

  ghost function NextAct(w: World, id: Id, x: Chance): World
    requires id in w.workers
  {
    match w.workers[id]
    case Done(_) => w
    case Submitting(_) => SubmitNext(w, id, x)
    case Inserting(_) => SubmitNext(w, id, x)
    case Colliding(_) => SubmitNext(w, id, x)
    case Deferring(_) => SubmitNext(w, id, x)
    case CheckingStatus(_, _) => StatusNext(w, id, x)
    case ExpiringStatus(_, _, _, _) => StatusNext(w, id, x)
    case ReadingReceipt(_) => ReceiptNext(w, id)
    case ConfirmingReceipt(_, _) => ReceiptNext(w, id)
    case RereadingReceipt(_, _, _) => ReceiptNext(w, id)
    case _ => PushNext(w, id, x)
  }

  ghost function Next(w: World, step: Step): World {
    match step
    case Submit(id, command) => if id in w.workers then w else Move(w, id, Submitting(command))
    case Check(id, slot, operation) => if id in w.workers then w else Move(w, id, CheckingStatus(slot, operation))
    case Receive(id, receipt) => if id in w.workers then w else Move(w, id, ReadingReceipt(receipt))
    case Act(id, chance) => if id in w.workers then NextAct(w, id, chance) else w
    case Crash(id) => w.(workers := w.workers - {id})
  }

  // ---- What every step keeps ----

  /** The worker that created the attempt and has not pushed it yet. */
  predicate Holds(w: World, worker: Id, attempt: Id) {
    && worker in w.workers
    && (w.workers[worker].Preparing? || w.workers[worker].Pushing?)
    && w.workers[worker].id == attempt
  }

  /** Neither handed to the gateway nor held back from it. */
  predicate Untouched(w: World, operation: Id) {
    operation !in w.pushed && operation !in w.answers && operation !in w.prevented
  }

  /** The result is what the gateway said of the operation, or why it was not handed over. */
  predicate Caused(w: World, operation: Id, result: PushResult) {
    if result.PrePushFailure?
    then operation in w.prevented && w.prevented[operation] == result.failure && operation !in w.pushed
    else operation in w.answers && w.answers[operation] == result && operation in w.pushed
  }

  /** A status check ended the attempt after its time, not knowing what became of the push. */
  predicate TimedOut(a: Attempt) {
    && a.status == Unknown && a.failure == Some("processing_expired")
    && a.failedAt.Some? && a.failedAt.value >= a.processingExpiresAt
  }

  /** An ending says what the gateway said, or why it was never asked, or that the time was over. */
  ghost predicate EndingOk(w: World, id: Id)
    requires id in w.table
  {
    var a := w.table[id];
    a.status != Processing ==> TimedOut(a) || exists result :: EndedBy(a, result) && Caused(w, a.operation, result)
  }

  predicate WorkerOk(w: World, id: Id)
    requires id in w.workers
  {
    match w.workers[id]
    case Inserting(c) => c.fingerprint == c.Request()
    case Preparing(a, c) => a in w.table && w.table[a].operation == c.operation && Untouched(w, c.operation)
    case Pushing(a, c) => a in w.table && w.table[a].operation == c.operation && Untouched(w, c.operation)
    case Ending(a, result) => a in w.table && Caused(w, w.table[a].operation, result)
    case ConfirmingReceipt(a, c) => a in w.table && w.table[a].receiptDigest == Some(c.digest)
    case RereadingReceipt(a, c, updated) => a in w.table && (!updated ==> ClassifyReceipt(w.table[a], c).Some?)
    case _ => true
  }

  predicate Distinct(ids: seq<Id>) {
    forall i, j :: 0 <= i < j < |ids| ==> ids[i] != ids[j]
  }

  ghost predicate WorkersOk(w: World) {
    forall id {:trigger WorkerOk(w, id)} :: id in w.workers ==> WorkerOk(w, id)
  }

  ghost predicate HoldersOk(w: World) {
    forall a, b, attempt {:trigger Holds(w, a, attempt), Holds(w, b, attempt)} ::
      Holds(w, a, attempt) && Holds(w, b, attempt) ==> a == b
  }

  ghost predicate RecordsOk(w: World) {
    && Distinct(w.pushed) && (forall o :: o in w.pushed ==> HasOperation(w.table, o))
    && (forall o :: o in w.answers ==> o in w.pushed)
    && (forall o :: o in w.prevented ==> HasOperation(w.table, o))
    && Distinct(w.receipts) && (forall a :: a in w.receipts ==> a in w.table && w.table[a].receiptConfirmedAt.Some?)
  }

  ghost predicate EndingsOk(w: World) {
    forall id {:trigger EndingOk(w, id)} :: id in w.table ==> EndingOk(w, id)
  }

  ghost predicate WorldOk(w: World) {
    TableOk(w.table) && WorkersOk(w) && HoldersOk(w) && RecordsOk(w) && EndingsOk(w)
  }

  // ---- What one worker's step leaves to the others ----

  predicate SameHistory(w: World, w': World, operation: Id) {
    && (operation in w.pushed <==> operation in w'.pushed)
    && (operation in w.answers <==> operation in w'.answers)
    && (operation in w.answers && operation in w'.answers ==> w'.answers[operation] == w.answers[operation])
    && (operation in w.prevented <==> operation in w'.prevented)
    && (operation in w.prevented && operation in w'.prevented ==> w'.prevented[operation] == w.prevented[operation])
  }

  predicate Works(w: World, id: Id, operation: Id) {
    id in w.workers && (w.workers[id].Preparing? || w.workers[id].Pushing?) && w.workers[id].command.operation == operation
  }

  /** A worker adds to the history of the operation it holds only. */
  ghost predicate AddsToOwn(w: World, w': World, id: Id) {
    forall o {:trigger SameHistory(w, w', o)} :: Works(w, id, o) || SameHistory(w, w', o)
  }

  /** The others stand where they stood, the table only moves on, and the history of other operations is kept. */
  ghost predicate Steps(w: World, w': World, id: Id) {
    && TableOk(w'.table) && Extends(w.table, w'.table) && AddsToOwn(w, w', id)
    && w'.workers.Keys <= w.workers.Keys + {id}
    && (forall x :: x in w'.workers && x != id ==> x in w.workers && w'.workers[x] == w.workers[x])
  }

  predicate SameRecords(w: World, w': World) {
    w'.pushed == w.pushed && w'.receipts == w.receipts && w'.answers == w.answers && w'.prevented == w.prevented
  }

  lemma SameRecordsAddNothing(w: World, w': World, id: Id)
    requires SameRecords(w, w')
    ensures AddsToOwn(w, w', id)
  {
  }

  lemma WorkerIsOk(w: World, id: Id)
    requires WorldOk(w) && id in w.workers
    ensures WorkerOk(w, id)
  {
  }

  lemma TableIsOk(w: World)
    requires WorldOk(w)
    ensures TableOk(w.table) && Extends(w.table, w.table)
  {
  }

  lemma RowIsValid(w: World, row: Id)
    requires WorldOk(w) && row in w.table
    ensures StateValid(w.table[row])
  {
  }

  lemma HeldHasNoHistory(w: World, id: Id, operation: Id, result: PushResult)
    requires WorldOk(w) && Caused(w, operation, result)
    ensures !Works(w, id, operation)
  {
    hide WorldOk;
    if Works(w, id, operation) {
      HeldOperation(w, id);
    }
  }

  /** What was caused stays so: the operation a worker holds had no history. */
  lemma CausesStay(w: World, w': World, id: Id, operation: Id, result: PushResult)
    requires WorldOk(w) && AddsToOwn(w, w', id) && Caused(w, operation, result)
    ensures Caused(w', operation, result)
  {
    hide WorldOk;
    HeldHasNoHistory(w, id, operation, result);
    assert SameHistory(w, w', operation);
  }

  lemma EndingStays(w: World, w': World, id: Id, row: Id)
    requires WorldOk(w) && Steps(w, w', id) && row in w.table && w.table[row].status != Processing
    ensures row in w'.table && EndingOk(w', row)
  {
    hide TableOk, AddsToOwn, Caused, WorkersOk, HoldersOk, RecordsOk;
    assert EndingOk(w, row);
    assert Endures(w.table[row], w'.table[row]);
    if !TimedOut(w.table[row]) {
      var result :| EndedBy(w.table[row], result) && Caused(w, w.table[row].operation, result);
      CausesStay(w, w', id, w.table[row].operation, result);
      assert EndedBy(w'.table[row], result);
    }
  }

  /** Attempts that this step ended are explained by it. */
  ghost predicate NewEndingsOk(w: World, w': World) {
    forall row {:trigger EndingOk(w', row)} ::
      row in w'.table && (row in w.table ==> w.table[row].status == Processing) ==> EndingOk(w', row)
  }

  lemma NothingEnded(w: World, w': World)
    requires forall row :: row in w'.table && (row in w.table ==> w.table[row].status == Processing) ==>
               w'.table[row].status == Processing
    ensures NewEndingsOk(w, w')
  {
  }

  lemma EndingsStay(w: World, w': World, id: Id)
    requires WorldOk(w) && Steps(w, w', id) && NewEndingsOk(w, w')
    ensures EndingsOk(w')
  {
    hide Steps, WorldOk, EndingOk;
    forall row | row in w'.table
      ensures EndingOk(w', row)
    {
      if row in w.table && w.table[row].status != Processing {
        EndingStays(w, w', id, row);
      }
    }
  }

  lemma SameOperationSameHolder(w: World, a: Id, b: Id)
    requires WorldOk(w) && a in w.workers && b in w.workers
    requires w.workers[a].Preparing? || w.workers[a].Pushing?
    requires w.workers[b].Preparing? || w.workers[b].Pushing?
    requires w.workers[a].command.operation == w.workers[b].command.operation
    ensures a == b
  {
    hide RecordsOk, EndingsOk;
    assert WorkerOk(w, a) && WorkerOk(w, b);
    assert Collides(w.table[w.workers[a].id], w.table[w.workers[b].id]);
    assert Holds(w, a, w.workers[a].id) && Holds(w, b, w.workers[a].id);
  }

  lemma OnlyOneWorks(w: World, id: Id, x: Id)
    requires WorldOk(w) && x in w.workers && x != id && (w.workers[x].Preparing? || w.workers[x].Pushing?)
    ensures !Works(w, id, w.workers[x].command.operation)
  {
    hide WorldOk;
    if Works(w, id, w.workers[x].command.operation) {
      SameOperationSameHolder(w, id, x);
    }
  }

  lemma WorkerStays(w: World, w': World, id: Id, x: Id)
    requires WorldOk(w) && Steps(w, w', id) && x in w'.workers && x != id
    ensures WorkerOk(w', x)
  {
    hide TableOk, HoldersOk, RecordsOk, EndingsOk, Caused;
    WorkerIsOk(w, x);
    if w.workers[x].RereadingReceipt? && !w.workers[x].updated {
      ReceiptAnswerSticks(w.table[w.workers[x].id], w'.table[w.workers[x].id], w.workers[x].receipt);
    } else if w.workers[x].Preparing? || w.workers[x].Pushing? {
      OnlyOneWorks(w, id, x);
      assert SameHistory(w, w', w.workers[x].command.operation);
    } else if w.workers[x].Ending? {
      CausesStay(w, w', id, w.table[w.workers[x].id].operation, w.workers[x].result);
    }
  }

  lemma WorkersStay(w: World, w': World, id: Id)
    requires WorldOk(w) && Steps(w, w', id) && (id in w'.workers ==> WorkerOk(w', id))
    ensures WorkersOk(w')
  {
    hide Steps, WorldOk, WorkerOk;
    forall x | x in w'.workers
      ensures WorkerOk(w', x)
    {
      if x != id {
        WorkerStays(w, w', id, x);
      }
    }
  }

  /** A worker that creates no attempt leaves every attempt with the holder it had. */
  lemma HoldersStay(w: World, w': World, id: Id)
    requires HoldersOk(w) && Steps(w, w', id)
    requires forall attempt :: Holds(w', id, attempt) ==> Holds(w, id, attempt)
    ensures HoldersOk(w')
  {
    hide TableOk, Extends, AddsToOwn;
    forall a, b, attempt | Holds(w', a, attempt) && Holds(w', b, attempt)
      ensures a == b
    {
      assert Holds(w, a, attempt) && Holds(w, b, attempt);
    }
  }

  lemma OperationsStay(t: Table, t': Table, o: Id)
    requires Extends(t, t') && HasOperation(t, o)
    ensures HasOperation(t', o)
  {
    var a :| a in t && t[a].operation == o;
    assert Endures(t[a], t'[a]);
  }

  lemma RecordsStay(w: World, w': World)
    requires RecordsOk(w) && Extends(w.table, w'.table) && SameRecords(w, w')
    ensures RecordsOk(w')
  {
    hide HasOperation;
    forall o | HasOperation(w.table, o)
      ensures HasOperation(w'.table, o)
    {
      OperationsStay(w.table, w'.table, o);
    }
  }

  /** A step that adds no record. */
  lemma QuietStepKeeps(w: World, w': World, id: Id)
    requires WorldOk(w) && Steps(w, w', id) && SameRecords(w, w') && NewEndingsOk(w, w')
    requires id in w'.workers ==> WorkerOk(w', id)
    requires forall attempt :: Holds(w', id, attempt) ==> Holds(w, id, attempt)
    ensures WorldOk(w')
  {
    hide TableOk, AddsToOwn, WorkersOk, HoldersOk, RecordsOk, EndingsOk, NewEndingsOk, WorkerOk, Extends;
    WorkersStay(w, w', id);
    HoldersStay(w, w', id);
    RecordsStay(w, w');
    EndingsStay(w, w', id);
  }

  /** One worker moved on after a statement; nothing was pushed and no receipt recorded. */
  lemma WorkerMoves(w: World, id: Id, worker: Worker, t: Table)
    requires WorldOk(w) && id in w.workers && TableOk(t) && Extends(w.table, t)
    requires WorkerOk(Move(w, id, worker).(table := t), id)
    requires worker.Preparing? || worker.Pushing? ==> Holds(w, id, worker.id)
    requires NewEndingsOk(w, Move(w, id, worker).(table := t))
    ensures WorldOk(Move(w, id, worker).(table := t))
  {
    hide TableOk, Extends, NewEndingsOk, WorkerOk, WorldOk;
    var w' := Move(w, id, worker).(table := t);
    SameRecordsAddNothing(w, w', id);
    QuietStepKeeps(w, w', id);
  }

  /** Nor was the table touched. */
  lemma WorkerReads(w: World, id: Id, worker: Worker)
    requires WorldOk(w) && id in w.workers
    requires WorkerOk(Move(w, id, worker), id)
    requires worker.Preparing? || worker.Pushing? ==> Holds(w, id, worker.id)
    ensures WorldOk(Move(w, id, worker)) && Extends(w.table, w.table)
  {
    hide TableOk, Extends, WorkerOk, WorldOk;
    TableIsOk(w);
    NothingEnded(w, Move(w, id, worker));
    assert Move(w, id, worker).(table := w.table) == Move(w, id, worker);
    WorkerMoves(w, id, worker, w.table);
  }

  // ---- Submissions ----

  /** An operation without an attempt has no history. */
  lemma NoHistory(w: World, operation: Id)
    requires WorldOk(w) && !HasOperation(w.table, operation)
    ensures Untouched(w, operation)
  {
    hide HasOperation;
  }

  /** The insert that goes through: a new attempt, held by its worker alone, of an operation never pushed. */
  lemma InsertionKeeps(w: World, id: Id, c: Command, freshId: Id, now: Time)
    requires WorldOk(w) && id in w.workers && w.workers[id] == Inserting(c)
    requires !InsertFails(w.table, freshId, NewAttempt(c, now))
    ensures var w' := Move(w, id, Preparing(freshId, c)).(table := w.table[freshId := NewAttempt(c, now)]);
            WorldOk(w') && Extends(w.table, w'.table)
  {
    hide TableOk, HoldersOk, EndingsOk, RecordsOk, Extends, HasOperation;
    var w' := Move(w, id, Preparing(freshId, c)).(table := w.table[freshId := NewAttempt(c, now)]);
    assert WorkerOk(w, id);
    InsertKeeps(w.table, freshId, c, now);
    InsertedIsNew(w.table, freshId, c, now);
    NoHistory(w, c.operation);
    SameRecordsAddNothing(w, w', id);
    NothingEnded(w, w');
    WorkersStay(w, w', id);
    NewHolder(w, w', id, freshId);
    RecordsStay(w, w');
    EndingsStay(w, w', id);
  }

  lemma InsertedIsNew(t: Table, freshId: Id, c: Command, now: Time)
    requires !InsertFails(t, freshId, NewAttempt(c, now))
    ensures !HasOperation(t, c.operation) && freshId !in t
  {
    assert forall row :: row in t ==> !Collides(t[row], NewAttempt(c, now));
  }

  lemma NewHolder(w: World, w': World, id: Id, attempt: Id)
    requires WorkersOk(w) && HoldersOk(w) && attempt !in w.table
    requires forall x :: x in w'.workers && x != id ==> x in w.workers && w'.workers[x] == w.workers[x]
    requires forall a :: Holds(w', id, a) ==> a == attempt
    ensures HoldersOk(w')
  {
    forall a, b, x | Holds(w', a, x) && Holds(w', b, x)
      ensures a == b
    {
      assert a != id ==> Holds(w, a, x) && WorkerOk(w, a);
      assert b != id ==> Holds(w, b, x) && WorkerOk(w, b);
    }
  }

  lemma SubmitKeeps(w: World, id: Id, x: Chance)
    requires WorldOk(w) && id in w.workers
    requires w.workers[id].Submitting? || w.workers[id].Inserting? || w.workers[id].Colliding? || w.workers[id].Deferring?
    ensures WorldOk(SubmitNext(w, id, x)) && Extends(w.table, SubmitNext(w, id, x).table)
  {
    hide WorldOk, HasOperation, HasActive, InsertFails, Extends, NewAttempt;
    WorkerIsOk(w, id);
    var w' := SubmitNext(w, id, x);
    if w'.workers[id].Preparing? {
      InsertionKeeps(w, id, w.workers[id].command, x.freshId, x.now);
    } else {
      assert w' == Move(w, id, w'.workers[id]);
      WorkerReads(w, id, w'.workers[id]);
    }
  }

  // ---- Pushes ----

  lemma ExtendedDistinct(ids: seq<Id>, id: Id)
    requires Distinct(ids) && id !in ids
    ensures Distinct(ids + [id])
  {
  }

  lemma HeldOperation(w: World, id: Id)
    requires WorldOk(w) && id in w.workers && (w.workers[id].Preparing? || w.workers[id].Pushing?)
    ensures w.workers[id].id in w.table && w.table[w.workers[id].id].operation == w.workers[id].command.operation
    ensures HasOperation(w.table, w.workers[id].command.operation) && Untouched(w, w.workers[id].command.operation)
  {
    hide TableOk, HoldersOk, RecordsOk, EndingsOk;
    assert WorkerOk(w, id);
  }

  /** The push itself: its operation had no history. */
  lemma PushingKeeps(w: World, id: Id, x: Chance)
    requires WorldOk(w) && id in w.workers && w.workers[id].Pushing?
    ensures WorldOk(PushNext(w, id, x)) && PushNext(w, id, x).table == w.table
  {
    hide TableOk, HoldersOk, EndingsOk, Extends, HasOperation, Distinct, WorkersOk;
    var w' := PushNext(w, id, x);
    HeldOperation(w, id);
    TableIsOk(w);
    ExtendedDistinct(w.pushed, w.workers[id].command.operation);
    assert AddsToOwn(w, w', id);
    NothingEnded(w, w');
    WorkersStay(w, w', id);
    HoldersStay(w, w', id);
    EndingsStay(w, w', id);
  }

  /** A push that is held back: its operation is neither pushed now nor was it before. */
  lemma PreventionKeeps(w: World, id: Id, x: Chance)
    requires WorldOk(w) && id in w.workers && w.workers[id].Preparing? && !x.usable
    ensures WorldOk(PushNext(w, id, x)) && PushNext(w, id, x).table == w.table
  {
    hide TableOk, HoldersOk, EndingsOk, Extends, HasOperation, Distinct, WorkersOk;
    var w' := PushNext(w, id, x);
    HeldOperation(w, id);
    TableIsOk(w);
    assert AddsToOwn(w, w', id);
    NothingEnded(w, w');
    WorkersStay(w, w', id);
    HoldersStay(w, w', id);
    EndingsStay(w, w', id);
  }

  /** Ending an attempt stores what its worker holds. */
  lemma EndingKeeps(w: World, id: Id, x: Chance)
    requires WorldOk(w) && id in w.workers && w.workers[id].Ending?
    ensures WorldOk(PushNext(w, id, x)) && Extends(w.table, PushNext(w, id, x).table)
  {
    hide TableOk, WorldOk, Ended, Extends, EndedBy, StateValid, Caused;
    var attempt, result := w.workers[id].id, w.workers[id].result;
    var t := Finish(w.table, attempt, result, x.now);
    WorkerIsOk(w, id);
    TableIsOk(w);
    FinishKeeps(w.table, attempt, result, x.now);
    var w' := Move(w, id, Rereading(attempt)).(table := t);
    if w.table[attempt].status == Processing {
      RowIsValid(w, attempt);
      EndingsFollowAnswers(w.table[attempt], result, x.now);
      EndingKeepsOperation(w.table[attempt], result, x.now);
      SameCause(w, w', w.table[attempt].operation, result);
      assert EndingOk(w', attempt);
    }
    assert forall row :: row in t && row != attempt ==> t[row] == w.table[row];
    WorkerMoves(w, id, Rereading(attempt), t);
  }

  lemma EndingKeepsOperation(a: Attempt, result: PushResult, now: Time)
    ensures Ended(a, result, now).operation == a.operation
  {
  }

  lemma SameCause(w: World, w': World, operation: Id, result: PushResult)
    requires SameRecords(w, w') && Caused(w, operation, result)
    ensures Caused(w', operation, result)
  {
  }

  lemma PushKeeps(w: World, id: Id, x: Chance)
    requires WorldOk(w) && id in w.workers
    requires w.workers[id].Preparing? || w.workers[id].Pushing? || w.workers[id].Ending? || w.workers[id].Rereading?
    ensures WorldOk(PushNext(w, id, x)) && Extends(w.table, PushNext(w, id, x).table)
  {
    hide WorldOk, Extends, Finish;
    TableIsOk(w);
    if w.workers[id].Pushing? {
      PushingKeeps(w, id, x);
    } else if w.workers[id].Ending? {
      EndingKeeps(w, id, x);
    } else if w.workers[id].Preparing? && !x.usable {
      PreventionKeeps(w, id, x);
    } else {
      WorkerIsOk(w, id);
      WorkerReads(w, id, PushNext(w, id, x).workers[id]);
    }
  }

  // ---- Status checks and receipts ----

  lemma ExpiryEnds(t: Table, row: Id, slot: nat, operation: Id, now: Time)
    requires row in t && t[row].status == Processing
    ensures var b := Expire(t, row, slot, operation, now)[row];
            b.status == Processing || TimedOut(b)
  {
  }

  lemma ExpiringKeeps(w: World, id: Id, x: Chance)
    requires WorldOk(w) && id in w.workers && w.workers[id].ExpiringStatus?
    ensures WorldOk(StatusNext(w, id, x)) && Extends(w.table, StatusNext(w, id, x).table)
  {
    hide TableOk, WorldOk, Ended, Extends, TimedOut;
    var p := w.workers[id];
    var t := Expire(w.table, p.id, p.slot, p.operation, p.now);
    TableIsOk(w);
    ExpireKeeps(w.table, p.id, p.slot, p.operation, p.now);
    var w' := Move(w, id, Rereading(p.id)).(table := t);
    forall row | row in t && (row in w.table ==> w.table[row].status == Processing)
      ensures EndingOk(w', row)
    {
      if row == p.id {
        ExpiryEnds(w.table, row, p.slot, p.operation, p.now);
      }
    }
    WorkerMoves(w, id, Rereading(p.id), t);
  }

  lemma StatusKeeps(w: World, id: Id, x: Chance)
    requires WorldOk(w) && id in w.workers && (w.workers[id].CheckingStatus? || w.workers[id].ExpiringStatus?)
    ensures WorldOk(StatusNext(w, id, x)) && Extends(w.table, StatusNext(w, id, x).table)
  {
    hide WorldOk, Extends, HasOperation, Expire;
    if w.workers[id].ExpiringStatus? {
      ExpiringKeeps(w, id, x);
    } else {
      WorkerReads(w, id, StatusNext(w, id, x).workers[id]);
    }
  }

  lemma ReceiptRecords(w: World, w': World, row: Id)
    requires RecordsOk(w) && Extends(w.table, w'.table) && row in w.table && w.table[row].receiptConfirmedAt.None?
    requires row in w'.table && w'.table[row].receiptConfirmedAt.Some?
    requires w' == w.(table := w'.table, workers := w'.workers, receipts := w.receipts + [row])
    ensures RecordsOk(w')
  {
    hide HasOperation;
    RecordsStay(w, w'.(receipts := w.receipts));
    ExtendedDistinct(w.receipts, row);
  }

  /** The receipt update: it goes through or the row now says why not. */
  lemma ConfirmationKeeps(w: World, id: Id)
    requires WorldOk(w) && id in w.workers && w.workers[id].ConfirmingReceipt?
    ensures WorldOk(ReceiptNext(w, id)) && Extends(w.table, ReceiptNext(w, id).table)
  {
    hide TableOk, Extends, WorkersOk, HoldersOk, RecordsOk, EndingsOk;
    var w' := ReceiptNext(w, id);
    var p := w.workers[id];
    WorkerIsOk(w, id);
    ReceiptRowIsValid(w, p.id);
    TableIsOk(w);
    ConfirmKeeps(w.table, p.id, p.receipt);
    ReceiptAppliesOrIsAnswered(w.table[p.id], p.receipt);
    assert AddsToOwn(w, w', id);
    NothingEnded(w, w');
    WorkersStay(w, w', id);
    HoldersStay(w, w', id);
    if ReceiptApplies(w.table[p.id], p.receipt) {
      ReceiptRecords(w, w', p.id);
    } else {
      RecordsStay(w, w');
    }
    EndingsStay(w, w', id);
  }

  lemma ReceiptRowIsValid(w: World, row: Id)
    requires WorldOk(w) && row in w.table
    ensures ReceiptValid(w.table[row])
  {
  }

  lemma ReceiptKeeps(w: World, id: Id)
    requires WorldOk(w) && id in w.workers
    requires w.workers[id].ReadingReceipt? || w.workers[id].ConfirmingReceipt? || w.workers[id].RereadingReceipt?
    ensures WorldOk(ReceiptNext(w, id)) && Extends(w.table, ReceiptNext(w, id).table)
  {
    hide WorldOk, Extends, ClassifyReceipt, Confirm, ReceiptApplies, HasDigest;
    if w.workers[id].ConfirmingReceipt? {
      ConfirmationKeeps(w, id);
    } else {
      if w.workers[id].ReadingReceipt? {
        FoundByDigest(w, id);
      }
      WorkerReads(w, id, ReceiptNext(w, id).workers[id]);
    }
  }

  lemma FoundByDigest(w: World, id: Id)
    requires id in w.workers && w.workers[id].ReadingReceipt?
    ensures var worker := ReceiptNext(w, id).workers[id];
            worker.Done? || (worker.ConfirmingReceipt? && worker.id in w.table
                             && w.table[worker.id].receiptDigest == Some(worker.receipt.digest))
  {
    hide ClassifyReceipt;
  }

  lemma ActKeeps(w: World, id: Id, x: Chance)
    requires WorldOk(w) && id in w.workers
    ensures WorldOk(NextAct(w, id, x)) && Extends(w.table, NextAct(w, id, x).table)
  {
    hide WorldOk, Extends, SubmitNext, PushNext, StatusNext, ReceiptNext;
    TableIsOk(w);
    match w.workers[id]
    case Done(_) =>
    case Submitting(_) => SubmitKeeps(w, id, x);
    case Inserting(_) => SubmitKeeps(w, id, x);
    case Colliding(_) => SubmitKeeps(w, id, x);
    case Deferring(_) => SubmitKeeps(w, id, x);
    case CheckingStatus(_, _) => StatusKeeps(w, id, x);
    case ExpiringStatus(_, _, _, _) => StatusKeeps(w, id, x);
    case ReadingReceipt(_) => ReceiptKeeps(w, id);
    case ConfirmingReceipt(_, _) => ReceiptKeeps(w, id);
    case RereadingReceipt(_, _, _) => ReceiptKeeps(w, id);
    case _ => PushKeeps(w, id, x);
  }

  /** Workers come and go without touching the table. */
  lemma ArrivalKeeps(w: World, step: Step)
    requires WorldOk(w) && (step.Act? ==> step.worker !in w.workers)
    ensures WorldOk(Next(w, step)) && Next(w, step).table == w.table
  {
    hide WorldOk, Extends, NextAct;
    TableIsOk(w);
    SameRecordsAddNothing(w, Next(w, step), step.worker);
    NothingEnded(w, Next(w, step));
    if Next(w, step) != w {
      QuietStepKeeps(w, Next(w, step), step.worker);
    }
  }

  lemma StepKeeps(w: World, step: Step)
    requires WorldOk(w)
    ensures WorldOk(Next(w, step)) && Extends(w.table, Next(w, step).table)
  {
    hide WorldOk, Extends, NextAct;
    TableIsOk(w);
    if step.Act? && step.worker in w.workers {
      ActKeeps(w, step.worker, step.chance);
    } else {
      ArrivalKeeps(w, step);
    }
  }

  // ---- Runs ----

  const START := World(map[], map[], [], [], map[], map[])

  ghost function Run(w: World, steps: seq<Step>): World {
    if |steps| == 0 then w else Next(Run(w, steps[..|steps| - 1]), steps[|steps| - 1])
  }

  lemma {:induction false} RunKeeps(w: World, steps: seq<Step>)
    requires WorldOk(w)
    ensures WorldOk(Run(w, steps)) && Extends(w.table, Run(w, steps).table)
  {
    hide WorldOk, Next, Endures;
    if |steps| > 0 {
      var before := Run(w, steps[..|steps| - 1]);
      RunKeeps(w, steps[..|steps| - 1]);
      StepKeeps(before, steps[|steps| - 1]);
      ExtendsIsTransitive(w.table, before.table, Run(w, steps).table);
    } else {
      ExtendsItself(w.table);
    }
  }

  lemma ExtendsItself(t: Table)
    ensures Extends(t, t)
  {
  }

  lemma ExtendsIsTransitive(a: Table, b: Table, c: Table)
    requires Extends(a, b) && Extends(b, c)
    ensures Extends(a, c)
  {
  }

  lemma StartIsOk()
    ensures WorldOk(START)
  {
  }

  /** Two attempts being processed are never for the same request. */
  lemma ProcessingRequestsDiffer(steps: seq<Step>, a: Id, b: Id)
    requires var t := Run(START, steps).table;
             && a in t && b in t && t[a].status == Processing && t[b].status == Processing && t[a].request == t[b].request
    ensures a == b
  {
    hide Next;
    StartIsOk();
    RunKeeps(START, steps);
    assert Collides(Run(START, steps).table[a], Run(START, steps).table[b]);
  }

  /** The first ending of an attempt is its only one, in any continuation of any run. */
  lemma FirstEndingStays(before: seq<Step>, steps: seq<Step>, id: Id)
    requires id in Run(START, before).table && Run(START, before).table[id].status != Processing
    ensures var w := Run(START, before); var a := w.table[id];
            && id in Run(w, steps).table
            && var b := Run(w, steps).table[id];
            && b.status == a.status && b.failure == a.failure && b.lineRequest == a.lineRequest
            && b.completedAt == a.completedAt && b.sentAt == a.sentAt && b.failedAt == a.failedAt
  {
    hide Next;
    StartIsOk();
    RunKeeps(START, before);
    RunKeeps(Run(START, before), steps);
  }

  /** An ended attempt says what the gateway said: succeeded only after an accepted push, failed only after a
      rejected one or none at all, unknown only after an unknown answer or once its time was over. */
  lemma EndingsSayWhatHappened(steps: seq<Step>, id: Id)
    requires id in Run(START, steps).table
    ensures var w := Run(START, steps); var a := w.table[id]; var o := w.table[id].operation;
            && (a.status == Succeeded ==> o in w.answers && w.answers[o].PushAccepted?
                                          && a.lineRequest == Some(w.answers[o].requestId))
            && (a.status == Failed ==>
                  || (o in w.answers && w.answers[o].PushRejected? && a.failure == Some(w.answers[o].failure))
                  || (o in w.prevented && o !in w.pushed && a.failure == Some(w.prevented[o])))
            && (a.status == Unknown ==>
                  || (o in w.answers && w.answers[o].PushUnknown? && a.failure == Some(w.answers[o].failure))
                  || TimedOut(a))
  {
    hide Next, WorldOk;
    StartIsOk();
    RunKeeps(START, steps);
    RowEnding(Run(START, steps), id);
  }

  lemma RowEnding(w: World, id: Id)
    requires WorldOk(w) && id in w.table
    ensures EndingOk(w, id)
  {
  }

  /** An operation reaches the push gateway at most once, and only once it has an attempt. */
  lemma EachOperationIsPushedOnce(steps: seq<Step>)
    ensures var w := Run(START, steps);
            Distinct(w.pushed) && forall o :: o in w.pushed ==> HasOperation(w.table, o)
  {
    hide Next, TableOk, EndingOk;
    StartIsOk();
    RunKeeps(START, steps);
  }

  /** A receipt is recorded at most once for an attempt, and before the receipt expires. */
  lemma EachReceiptIsRecordedOnceInTime(steps: seq<Step>, id: Id)
    requires id in Run(START, steps).table && Run(START, steps).table[id].receiptConfirmedAt.Some?
    ensures Distinct(Run(START, steps).receipts)
    ensures var a := Run(START, steps).table[id];
            && a.request.receiptRequested && a.receiptExpiresAt.Some?
            && a.receiptConfirmedAt.value < a.receiptExpiresAt.value
  {
    hide Next;
    StartIsOk();
    RunKeeps(START, steps);
  }

  /** The last answer of the receipt handler is never needed: a lost update always finds a reason. */
  lemma LostReceiptUpdateFindsItsReason(steps: seq<Step>, id: Id, x: Chance)
    requires id in Run(START, steps).workers && Run(START, steps).workers[id].RereadingReceipt?
    ensures var after := NextAct(Run(START, steps), id, x).workers[id];
            after.Done? && after.reply != Rejected(Invalid)
  {
    hide Next;
    StartIsOk();
    RunKeeps(START, steps);
    assert WorkerOk(Run(START, steps), id);
  }
}
