/** The deactivation intent of a channel: repository steps, table constraints and the acceptance fence. */
module Deactivation {
  import opened Wrappers
  import opened RichMenuModel
  import opened RichMenuSteps

  datatype Channel = Channel(provider: string, active: bool, revision: Revision)

  datatype IntentStatus = Checking | Unlinking | ConfirmationRequired | Completed

  datatype Intent = Intent(
    operation: Id,
    owner: Id,
    provider: string,
    expected: Revision,
    status: IntentStatus,
    reason: Option<string>,
    subject: Option<Id>,
    recovery: Option<Id>,
    ready: bool,
    completedAt: Option<Time>)

  const CLEANUP_REASON := "cleanup_required"
  const STALE_REASON := "stale_channel"

  datatype Table = Table(channels: map<Id, Channel>, intents: map<Id, Intent>)

  datatype Conflict =
    | ChannelMissing | ChannelInactive | IntentMissing | IntentConflict | StaleChannel
    | RecoveryConflict | InvalidResult | Storage

  /** `Rejected` is a validation error of the row, raised inside the transaction. */
  datatype TableReply =
    | Reserved(view: Intent, replayed: bool)
    | Saved(view: Intent)
    | Locked(view: Intent)
    | Done(view: Intent, revision: Revision)
    | Conflicted(code: Conflict)
    | Rejected

  datatype TableOutcome = TableOutcome(table: Table, reply: TableReply)

  /** Who asks, about which intent of which channel. */
  datatype Target = Target(channel: Id, operation: Id, owner: Id, provider: string)

  // ---- Check constraints ----

  predicate VariantValid(i: Intent) {
    match i.status
    case Checking => i.reason.None? && i.subject.None? && i.recovery.None? && i.completedAt.None?
    case Unlinking => i.reason.None? && i.subject.Some? && i.recovery.None? && i.completedAt.None?
    case ConfirmationRequired => i.reason.Some? && i.completedAt.None?
    case Completed => i.reason.None? && i.subject.None? && i.recovery.None? && i.completedAt.Some?
  }

  predicate RowValid(i: Intent) {
    VariantValid(i) && i.provider != "" && (i.ready ==> i.recovery.Some?)
  }

  predicate OperationTaken(t: Table, channel: Id, operation: Id) {
    exists c :: c in t.intents && c != channel && t.intents[c].operation == operation
  }

  // ---- Steps ----

  predicate SameIntent(i: Intent, q: Target) {
    i.owner == q.owner && i.provider == q.provider && i.operation == q.operation
  }

  function PutIntent(t: Table, channel: Id, i: Intent): Table {
    t.(intents := t.intents[channel := i])
  }

  function Reserve(t: Table, q: Target, expected: Revision): TableOutcome {
    if q.channel !in t.channels || t.channels[q.channel].provider != q.provider
    then TableOutcome(t, Conflicted(ChannelMissing))
    else if !t.channels[q.channel].active then TableOutcome(t, Conflicted(Conflict.ChannelInactive))
    else
      var row := Intent(q.operation, q.owner, q.provider, expected, Checking, None, None, None, false, None);
      var stored := if OperationTaken(t, q.channel, q.operation)
                    then TableOutcome(t, Conflicted(Storage))
                    else TableOutcome(PutIntent(t, q.channel, row), Reserved(row, false));
      if q.channel in t.intents then
        var i := t.intents[q.channel];
        if SameIntent(i, q) && i.expected == expected then TableOutcome(t, Reserved(i, true))
        else if i.status != Completed then TableOutcome(t, Conflicted(IntentConflict))
        else if t.channels[q.channel].revision != expected then TableOutcome(t, Conflicted(Conflict.StaleChannel))
        else if !RowValid(row) then TableOutcome(t, Rejected)
        else stored
      else if t.channels[q.channel].revision != expected then TableOutcome(t, Conflicted(Conflict.StaleChannel))
      else if !RowValid(row) then TableOutcome(t, Conflicted(Storage))
      else stored
  }

  /** The shared lock of the later steps; None when the row may be used. */
  function LockCurrent(t: Table, q: Target, expected: Option<Revision>): Option<Conflict> {
    if q.channel !in t.channels || t.channels[q.channel].provider != q.provider then Some(ChannelMissing)
    else if !t.channels[q.channel].active then Some(Conflict.ChannelInactive)
    else if q.channel !in t.intents then Some(IntentMissing)
    else if !SameIntent(t.intents[q.channel], q) then Some(IntentConflict)
    else if expected.Some? && t.intents[q.channel].expected != expected.value then Some(Conflict.StaleChannel)
    else None
  }

  function SaveResult(t: Table, q: Target, expected: Revision, status: IntentStatus, reason: Option<string>,
                      subject: Option<Id>, recovery: Option<Id>): TableOutcome {
    var locked := LockCurrent(t, q, Some(expected));
    if locked.Some? then TableOutcome(t, Conflicted(locked.value))
    else if t.channels[q.channel].revision != expected then TableOutcome(t, Conflicted(Conflict.StaleChannel))
    else if status == Unlinking && (reason.Some? || subject.None?) then TableOutcome(t, Conflicted(InvalidResult))
    else if status != Unlinking && (reason.None? || reason.value == "") then TableOutcome(t, Conflicted(InvalidResult))
    else
      var i := t.intents[q.channel];
      if recovery.Some? && i.recovery.Some? && i.recovery != recovery
      then TableOutcome(t, Conflicted(RecoveryConflict))
      else
        var i' := i.(
          status := status,
          reason := reason,
          subject := subject,
          recovery := if recovery.Some? then recovery else i.recovery,
          ready := recovery.Some? || i.ready);
        if RowValid(i') then TableOutcome(PutIntent(t, q.channel, i'), Saved(i')) else TableOutcome(t, Rejected)
  }

  function RecordRevisionConflict(t: Table, q: Target): TableOutcome {
    var locked := LockCurrent(t, q, None);
    if locked.Some? then TableOutcome(t, Conflicted(locked.value))
    else
      var i := t.intents[q.channel];
      var i' := i.(
        status := ConfirmationRequired, reason := Some(STALE_REASON), ready := i.recovery.Some? || i.ready);
      if RowValid(i') then TableOutcome(PutIntent(t, q.channel, i'), Saved(i')) else TableOutcome(t, Rejected)
  }

  /** This row is saved without validation, so a broken constraint is a storage failure. */
  function AdvanceRecheckRevision(t: Table, q: Target, recovery: Id, presented: Revision): TableOutcome {
    var locked := LockCurrent(t, q, None);
    if locked.Some? then TableOutcome(t, Conflicted(locked.value))
    else if t.channels[q.channel].revision != presented then TableOutcome(t, Conflicted(Conflict.StaleChannel))
    else
      var i := t.intents[q.channel];
      if i.recovery.Some? && i.recovery.value != recovery then TableOutcome(t, Conflicted(RecoveryConflict))
      else if i.recovery.Some? && (i.ready || i.expected == presented) then TableOutcome(t, TableReply.Locked(i))
      else
        var i' := if i.recovery.Some? then i.(expected := presented)
                  else i.(expected := presented, recovery := Some(recovery), ready := false);
        if RowValid(i') then TableOutcome(PutIntent(t, q.channel, i'), TableReply.Locked(i'))
        else TableOutcome(t, Conflicted(Storage))
  }

  function CompleteInactive(t: Table, q: Target, expected: Revision, now: Time): TableOutcome {
    var locked := LockCurrent(t, q, Some(expected));
    if locked.Some? then TableOutcome(t, Conflicted(locked.value))
    else if t.channels[q.channel].revision != expected then TableOutcome(t, Conflicted(Conflict.StaleChannel))
    else
      var i' := t.intents[q.channel].(
        status := Completed, reason := None, subject := None, recovery := None, ready := false, completedAt := Some(now));
      var channel' := t.channels[q.channel].(active := false, revision := now);
      if RowValid(i')
      then TableOutcome(Table(t.channels[q.channel := channel'], t.intents[q.channel := i']), Done(i', now))
      else TableOutcome(t, Rejected)
  }

  /** Any other write of the channel row: a new channel, an edit, a reactivation. */
  function WriteChannel(t: Table, id: Id, row: Channel): Table {
    t.(channels := t.channels[id := row])
  }

  /** The fence consulted while a rich-menu operation is accepted. */
  predicate Allows(t: Table, c: Command) {
    if c.channel !in t.intents || t.intents[c.channel].status == Completed then true
    else
      var i := t.intents[c.channel];
      && i.owner == c.owner
      && i.provider == c.provider
      && (|| (i.reason == Some(CLEANUP_REASON) && c.kind == Cleanup)
          || (i.recovery == Some(c.operation) && i.subject == c.subject))
  }

  // ---- What every table step keeps ----

  ghost predicate IntentOk(t: Table, c: Id)
    requires c in t.intents
  {
    && RowValid(t.intents[c])
    && c in t.channels
    && t.intents[c].expected <= t.channels[c].revision
    && (t.intents[c].status == Completed ==> t.intents[c].expected < t.channels[c].revision)
    && !OperationTaken(t, c, t.intents[c].operation)
  }

  ghost predicate TableOk(t: Table) {
    forall c {:trigger IntentOk(t, c)} :: c in t.intents ==> IntentOk(t, c)
  }

  datatype TableCall =
    | ReserveCall(target: Target, expected: Revision)
    | SaveCall(target: Target, expected: Revision, status: IntentStatus, reason: Option<string>,
               subject: Option<Id>, recovery: Option<Id>)
    | ConflictCall(target: Target)
    | AdvanceCall(target: Target, recoveryId: Id, presented: Revision)
    | CompleteCall(target: Target, expected: Revision, now: Time)
    | WriteCall(channel: Id, row: Channel)

  function NextTable(t: Table, call: TableCall): TableOutcome {
    match call
    case ReserveCall(q, expected) => Reserve(t, q, expected)
    case SaveCall(q, expected, status, reason, subject, recovery) =>
      SaveResult(t, q, expected, status, reason, subject, recovery)
    case ConflictCall(q) => RecordRevisionConflict(t, q)
    case AdvanceCall(q, recovery, presented) => AdvanceRecheckRevision(t, q, recovery, presented)
    case CompleteCall(q, expected, now) => CompleteInactive(t, q, expected, now)
    case WriteCall(c, row) => TableOutcome(WriteChannel(t, c, row), Rejected)
  }

  /** Every write of a channel row changes its revision to a later one; results save a pending status. */
  predicate Timely(t: Table, call: TableCall) {
    && (call.CompleteCall? && call.target.channel in t.channels ==> call.now > t.channels[call.target.channel].revision)
    && (call.WriteCall? && call.channel in t.channels ==> call.row.revision > t.channels[call.channel].revision)
    && (call.SaveCall? ==> call.status == Unlinking || call.status == ConfirmationRequired)
  }

  /** A changed row is valid, no channel is lost, and only a fresh reservation brings in an operation id. */
  lemma TableStepRows(t: Table, call: TableCall, c: Id)
    requires TableOk(t) && Timely(t, call) && c in NextTable(t, call).table.intents
    ensures var t' := NextTable(t, call).table;
            && RowValid(t'.intents[c])
            && c in t'.channels
            && t'.intents[c].expected <= t'.channels[c].revision
            && (t'.intents[c].status == Completed ==> t'.intents[c].expected < t'.channels[c].revision)
  {
    hide OperationTaken;
    if c in t.intents {
      assert IntentOk(t, c);
    }
  }

  /** Operation ids stay where they are, or come in by a reservation that found them free. */
  lemma TableStepOperations(t: Table, call: TableCall, c: Id)
    requires TableOk(t) && c in NextTable(t, call).table.intents
    ensures var i' := NextTable(t, call).table.intents[c];
            || (c in t.intents && t.intents[c].operation == i'.operation)
            || (call.ReserveCall? && call.target.channel == c && call.target.operation == i'.operation
                && !OperationTaken(t, c, i'.operation))
  {
    hide OperationTaken, RowValid, TableOk;
  }

  lemma OperationsDiffer(t: Table, c: Id, d: Id)
    requires TableOk(t) && c in t.intents && d in t.intents && c != d
    ensures t.intents[c].operation != t.intents[d].operation
  {
    assert IntentOk(t, c);
  }

  lemma OperationsStayDifferent(t: Table, call: TableCall, c: Id, d: Id)
    requires TableOk(t) && c != d && c in NextTable(t, call).table.intents && d in NextTable(t, call).table.intents
    ensures NextTable(t, call).table.intents[c].operation != NextTable(t, call).table.intents[d].operation
  {
    hide NextTable, TableOk;
    TableStepOperations(t, call, c);
    TableStepOperations(t, call, d);
    if c in t.intents && d in t.intents {
      OperationsDiffer(t, c, d);
    }
  }

  lemma TableStaysOk(t: Table, call: TableCall)
    requires TableOk(t) && Timely(t, call)
    ensures TableOk(NextTable(t, call).table)
  {
    hide NextTable, Timely, RowValid;
    var t' := NextTable(t, call).table;
    forall c | c in t'.intents
      ensures IntentOk(t', c)
    {
      TableStepRows(t, call, c);
      forall d | d in t'.intents && d != c
        ensures t'.intents[d].operation != t'.intents[c].operation
      {
        OperationsStayDifferent(t, call, c, d);
      }
    }
  }

  /** Between reservation and completion an intent keeps its first recovery id and its ready mark. */
  lemma RecoveryIsBoundOnce(t: Table, call: TableCall, c: Id)
    requires TableOk(t) && Timely(t, call) && c in t.intents && t.intents[c].status != Completed
    ensures c in NextTable(t, call).table.intents
    ensures var i, i' := t.intents[c], NextTable(t, call).table.intents[c];
            && i'.operation == i.operation && i'.owner == i.owner && i'.provider == i.provider
            && (i'.status != Completed ==>
                  && (i.recovery.Some? ==> i'.recovery == i.recovery)
                  && (i.ready ==> i'.ready))
            && (i'.status == Completed ==> call.CompleteCall? && !NextTable(t, call).table.channels[c].active)
  {
    hide OperationTaken;
    assert IntentOk(t, c);
  }

  /** A completed intent changes exactly when it is reserved again on its active channel, at its current revision. */
  lemma CompletionEndsOnlyByReservation(t: Table, call: TableCall, c: Id)
    requires TableOk(t) && Timely(t, call) && c in t.intents && t.intents[c].status == Completed
    ensures c in t.channels && c in NextTable(t, call).table.intents
    ensures NextTable(t, call).table.intents[c] != t.intents[c] <==>
              && call.ReserveCall? && call.target.channel == c
              && t.channels[c].active
              && t.channels[c].provider == call.target.provider != ""
              && t.channels[c].revision == call.expected
              && !OperationTaken(t, c, call.target.operation)
    ensures NextTable(t, call).table.intents[c] != t.intents[c] ==>
              && NextTable(t, call).table.intents[c] ==
                   Intent(call.target.operation, call.target.owner, call.target.provider, call.expected, Checking,
                          None, None, None, false, None)
              && t.intents[c].expected < call.expected
  {
    hide OperationTaken;
    assert IntentOk(t, c);
  }

  /** A conflict can be noted exactly while the caller's intent is pending on an active channel, at whatever revision. */
  lemma ConflictIsNotedExactly(t: Table, q: Target)
    requires TableOk(t)
    ensures RecordRevisionConflict(t, q).reply.Saved? <==>
              && q.channel in t.channels && t.channels[q.channel].active && t.channels[q.channel].provider == q.provider
              && q.channel in t.intents && SameIntent(t.intents[q.channel], q)
              && t.intents[q.channel].status != Completed
  {
    hide OperationTaken;
    if q.channel in t.intents {
      assert IntentOk(t, q.channel);
    }
  }

  /** A coordinator left over from before a reopening can note a conflict on the new round exactly when the
      new round has its operation id and its owner. */
  lemma LeftoverNotesExactly(t: Table, q: Target, reopening: Target, expected: Revision)
    requires TableOk(t) && q.channel in t.intents && SameIntent(t.intents[q.channel], q)
    requires t.intents[q.channel].status == Completed && reopening.channel == q.channel
    requires Reserve(t, reopening, expected).reply.Reserved? && !Reserve(t, reopening, expected).reply.replayed
    ensures RecordRevisionConflict(Reserve(t, reopening, expected).table, q).reply.Saved? <==>
              reopening.operation == q.operation && reopening.owner == q.owner && reopening.provider == q.provider
  {
    hide OperationTaken;
    TableStaysOk(t, ReserveCall(reopening, expected));
    ConflictIsNotedExactly(Reserve(t, reopening, expected).table, q);
  }

  /** Deactivation commits only for a pending intent, at the revision both rows carry. */
  lemma CompletionNeedsTheCurrentRevision(t: Table, q: Target, expected: Revision, now: Time)
    requires TableOk(t)
    ensures CompleteInactive(t, q, expected, now).reply.Done? <==>
              && q.channel in t.channels && q.channel in t.intents
              && t.channels[q.channel].provider == q.provider && t.channels[q.channel].active
              && SameIntent(t.intents[q.channel], q)
              && t.intents[q.channel].status != Completed
              && t.intents[q.channel].expected == expected == t.channels[q.channel].revision
  {
    if q.channel in t.intents {
      assert IntentOk(t, q.channel);
    }
  }

  ghost function RunTable(t: Table, calls: seq<TableCall>): Table {
    if |calls| == 0 then t else NextTable(RunTable(t, calls[..|calls| - 1]), calls[|calls| - 1]).table
  }

  ghost predicate TimelyRun(t: Table, calls: seq<TableCall>) {
    forall k :: 0 <= k < |calls| ==> Timely(RunTable(t, calls[..k]), calls[k])
  }

  lemma RevisionGrows(t: Table, call: TableCall, c: Id)
    requires c in t.channels && Timely(t, call)
    ensures c in NextTable(t, call).table.channels
    ensures t.channels[c].revision <= NextTable(t, call).table.channels[c].revision
  {
    hide OperationTaken, RowValid, SameIntent;
  }

  lemma {:induction false} RevisionsOnlyGrow(t: Table, calls: seq<TableCall>, c: Id)
    requires c in t.channels && TimelyRun(t, calls)
    ensures c in RunTable(t, calls).channels && t.channels[c].revision <= RunTable(t, calls).channels[c].revision
  {
    hide NextTable, Timely;
    if |calls| > 0 {
      var before := calls[..|calls| - 1];
      forall k | 0 <= k < |before|
        ensures Timely(RunTable(t, before[..k]), before[k])
      {
        assert before[..k] == calls[..k];
      }
      RevisionsOnlyGrow(t, before, c);
      assert Timely(RunTable(t, calls[..|before|]), calls[|before|]);
      RevisionGrows(RunTable(t, before), calls[|before|], c);
    }
  }

  /** Once a channel has been written again, a coordinator left over from before can never disable it. */
  lemma StaleCompletionNeverCommits(t: Table, calls: seq<TableCall>, q: Target, expected: Revision, now: Time)
    requires q.channel in t.channels && t.channels[q.channel].revision > expected && TimelyRun(t, calls)
    ensures !CompleteInactive(RunTable(t, calls), q, expected, now).reply.Done?
  {
    RevisionsOnlyGrow(t, calls, q.channel);
  }

  const REACTIVATED := Table(
    map[1 := Channel("p", true, 20)],
    map[1 := Intent(7, 3, "p", 10, Completed, None, None, None, false, Some(15))])

  /** The reservation that reopens an intent need not carry a new operation id, and a coordinator
      left over from the first round can then push the second one to confirmation. */
  lemma SameOperationMayReopen()
    ensures var q := Target(1, 7, 3, "p");
            var reopened := Reserve(REACTIVATED, q, 20);
            && TableOk(REACTIVATED)
            && reopened.reply.Reserved? && !reopened.reply.replayed
            && CompleteInactive(reopened.table, q, 10, 30).reply == Conflicted(Conflict.StaleChannel)
            && RecordRevisionConflict(reopened.table, q).reply.Saved?
            && RecordRevisionConflict(reopened.table, q).table.intents[1].status == ConfirmationRequired
  {
    assert IntentOk(REACTIVATED, 1);
  }
}
