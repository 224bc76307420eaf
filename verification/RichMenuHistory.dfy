/**
 The transition table is a second form of the state: replaying an operation's rows, with their
 sequence numbers and from-statuses checked, gives exactly its stored status, stage and result.
 */
module RichMenuHistory {
  import opened Wrappers
  import opened RichMenuModel
  import opened RichMenuSteps
  import opened RichMenuInvariant

  datatype Progress = Progress(status: Status, stage: Option<Stage>, result: Code)

  const START := Progress(Status.Accepted, None, Code.Accepted)

  function Rows(log: seq<Transition>, id: Id): seq<Transition> {
    if |log| == 0 then []
    else
      var rest := Rows(log[..|log| - 1], id);
      if log[|log| - 1].operation == id then rest + [log[|log| - 1]] else rest
  }

  /** Rows are applied in order; a gap in the numbering or a wrong from-status stops the replay. */
  function Replay(rows: seq<Transition>): Option<Progress> {
    if |rows| == 0 then Some(START)
    else
      var before := Replay(rows[..|rows| - 1]);
      var row := rows[|rows| - 1];
      if before.Some? && row.sequence == |rows| && row.from == before.value.status
      then Some(Progress(row.to, Some(row.stage), row.reason))
      else None
  }

  function ProgressOf(op: Operation): Progress {
    Progress(op.status, op.stage, op.result)
  }

  ghost predicate Faithful(s: Store, id: Id) {
    if id in s.operations
    then Replay(Rows(s.transitions, id)) == Some(ProgressOf(s.operations[id]))
    else Rows(s.transitions, id) == []
  }

  ghost predicate History(s: Store) {
    forall id {:trigger Faithful(s, id)} :: Faithful(s, id)
  }

  /** The next number is taken from the highest one in the table, which is the length of the operation's history. */
  lemma {:induction false} NumberedByLength(log: seq<Transition>, id: Id)
    requires Replay(Rows(log, id)).Some?
    ensures LastSequence(log, id) == |Rows(log, id)|
  {
    if |log| > 0 {
      var rest := log[..|log| - 1];
      if log[|log| - 1].operation == id {
        assert Rows(log, id)[..|Rows(log, id)| - 1] == Rows(rest, id);
      }
      NumberedByLength(rest, id);
    }
  }

  lemma RowsAfterAppend(log: seq<Transition>, row: Transition, id: Id)
    ensures Rows(log + [row], id) == Rows(log, id) + if row.operation == id then [row] else []
  {
    assert (log + [row])[..|log|] == log;
  }

  lemma ReplayAppend(rows: seq<Transition>, row: Transition)
    requires Replay(rows).Some? && row.sequence == |rows| + 1 && row.from == Replay(rows).value.status
    ensures Replay(rows + [row]) == Some(Progress(row.to, Some(row.stage), row.reason))
  {
    assert (rows + [row])[..|rows|] == rows;
  }

  lemma LoggedKeepsHistory(s: Store, id: Id, from: Status, op: Operation, reason: Code)
    requires History(s) && op.stage.Some? && reason == op.result
    requires from == if id in s.operations then s.operations[id].status else Status.Accepted
    ensures History(Logged(s, id, from, op, reason))
  {
    var s' := Logged(s, id, from, op, reason);
    var row := s'.transitions[|s.transitions|];
    assert Faithful(s, id);
    NumberedByLength(s.transitions, id);
    ReplayAppend(Rows(s.transitions, id), row);
    forall x
      ensures Faithful(s', x)
    {
      assert Faithful(s, x);
      RowsAfterAppend(s.transitions, row, x);
    }
  }

  /** Rows that are not about the state leave the history as it was. */
  lemma SameProgressKeepsHistory(s: Store, s': Store)
    requires History(s)
    requires s'.transitions == s.transitions && s.operations.Keys <= s'.operations.Keys
    requires forall id :: id in s'.operations ==>
               ProgressOf(s'.operations[id]) == if id in s.operations then ProgressOf(s.operations[id]) else START
    ensures History(s')
  {
    forall id ensures Faithful(s', id) { assert Faithful(s, id); }
  }

  lemma MakeUnknownKeepsHistory(s: Store, id: Id)
    requires History(s) && id in s.operations && s.operations[id].status == Status.Processing
    ensures History(MakeUnknown(s, id).store)
  {
    var op := s.operations[id];
    if op.stage.Some? {
      var op' := op.(status := Status.Unknown, startedAt := None, result := ResponseUnknown);
      LoggedKeepsHistory(s, id, Status.Processing, op', ResponseUnknown);
      SameProgressKeepsHistory(Logged(s, id, Status.Processing, op', ResponseUnknown), MakeUnknown(s, id).store);
    }
  }

  lemma ExpireKeepsHistory(s: Store, id: Id, now: Time)
    requires History(s) && id in s.operations && s.operations[id].status == Status.RecoveryActive
    ensures History(ExpireRecovery(s, id, now).store)
  {
    var s' := ExpireRecovery(s, id, now).store;
    if s' != s {
      var op' := s'.operations[id];
      LoggedKeepsHistory(s, id, Status.RecoveryActive, op', ResponseUnknown);
      SameProgressKeepsHistory(Logged(s, id, Status.RecoveryActive, op', ResponseUnknown), s');
    }
  }

  lemma ClaimKeepsHistory(s: Store, id: Id, expected: Stage, now: Time, timeout: nat)
    requires Inv(s) && History(s)
    ensures History(ClaimStage(s, id, expected, now, timeout).store)
  {
    var claimed := ClaimStage(s, id, expected, now, timeout);
    if claimed.store != s {
      var op := s.operations[id];
      assert OperationOk(s, id);
      if op.startedAt.Some? {
        if op.status == Status.RecoveryActive {
          ExpireKeepsHistory(s, id, now);
        } else {
          MakeUnknownKeepsHistory(s, id);
        }
      } else if op.status == Status.Accepted {
        var op' := claimed.store.operations[id];
        LoggedKeepsHistory(s, id, op.status, op', Code.Accepted);
        SameProgressKeepsHistory(Logged(s, id, op.status, op', Code.Accepted), claimed.store);
      } else {
        SameProgressKeepsHistory(s, claimed.store);
      }
    }
  }

  lemma CompleteStageKeepsHistory(s: Store, out: StageOutcome, fence: Fence, now: Time)
    requires History(s)
    ensures History(CompleteStage(s, out, fence, now).store)
  {
    var s' := CompleteStage(s, out, fence, now).store;
    if s' != s {
      var id := out.operation;
      if fence != Matched {
        MakeUnknownKeepsHistory(s, id);
      } else {
        var op' := s'.operations[id];
        LoggedKeepsHistory(s, id, s.operations[id].status, op', out.result);
        SameProgressKeepsHistory(Logged(s, id, s.operations[id].status, op', out.result), s');
      }
    }
  }

  lemma AcceptRecoveryKeepsHistory(s: Store, c: Command, reference: ReferenceFence, allowed: bool, fence: Fence, now: Time)
    requires History(s)
    ensures History(AcceptRecovery(s, c, reference, allowed, fence, now).store)
  {
    var s' := AcceptRecovery(s, c, reference, allowed, fence, now).store;
    if s' != s {
      var op := s'.operations[c.operation];
      LoggedKeepsHistory(s, c.operation, Status.Accepted, op, Code.Accepted);
      SameProgressKeepsHistory(Logged(s, c.operation, Status.Accepted, op, Code.Accepted), s');
    }
  }

  lemma RejectStaleKeepsHistory(s: Store, id: Id, subject: Operation, fence: Fence, now: Time)
    requires History(s) && id in s.operations && s.operations[id].status == Status.RecoveryActive
    ensures History(RejectStaleRecovery(s, id, subject, fence, now).store)
  {
    var s' := RejectStaleRecovery(s, id, subject, fence, now).store;
    if s' != s {
      var op := s'.operations[id];
      LoggedKeepsHistory(s, id, Status.RecoveryActive, op, op.result);
      SameProgressKeepsHistory(Logged(s, id, Status.RecoveryActive, op, op.result), s');
    }
  }

  lemma HandoffKeepsHistory(s: Store, out: RecoveryOutcome, fence: Fence, now: Time)
    requires Inv(s) && History(s)
    ensures History(HandoffRecovery(s, out, fence, now).store)
  {
    var done := HandoffRecovery(s, out, fence, now);
    if done.store != s {
      assert OperationOk(s, out.recovery);
      var subject := s.operations[out.subject];
      if fence != Matched {
        RejectStaleKeepsHistory(s, out.recovery, subject, fence, now);
      } else {
        var recovery', subject' := done.reply.recovery, done.reply.subject;
        LoggedKeepsHistory(s, out.recovery, Status.RecoveryActive, recovery', recovery'.result);
        var s1 := Logged(s, out.recovery, Status.RecoveryActive, recovery', recovery'.result);
        LoggedKeepsHistory(s1, out.subject, subject.status, subject', out.result);
        SameProgressKeepsHistory(Logged(s1, out.subject, subject.status, subject', out.result), done.store);
      }
    }
  }

  lemma CompleteRecoveryKeepsHistory(s: Store, id: Id, next: Status, result: Code, now: Time)
    requires History(s)
    ensures History(CompleteRecovery(s, id, next, result, now).store)
  {
    var s' := CompleteRecovery(s, id, next, result, now).store;
    if s' != s {
      LoggedKeepsHistory(s, id, Status.RecoveryActive, s'.operations[id], result);
      SameProgressKeepsHistory(Logged(s, id, Status.RecoveryActive, s'.operations[id], result), s');
    }
  }

  lemma CleanupCompletionKeepsHistory(s: Store, id: Id, resource: Id, now: Time)
    requires Inv(s) && History(s)
    ensures History(CompleteCleanupRecovery(s, id, resource, now).store)
  {
    var s' := CompleteCleanupRecovery(s, id, resource, now).store;
    if s' != s {
      assert OperationOk(s, id);
      var subjectId := s.operations[id].subject.value;
      LoggedKeepsHistory(s, subjectId, Status.CleanupRequired, s'.operations[subjectId], Code.Succeeded);
      var s1 := Logged(s, subjectId, Status.CleanupRequired, s'.operations[subjectId], Code.Succeeded);
      LoggedKeepsHistory(s1, id, Status.RecoveryActive, s'.operations[id], Code.Succeeded);
      SameProgressKeepsHistory(Logged(s1, id, Status.RecoveryActive, s'.operations[id], Code.Succeeded), s');
    }
  }

  lemma FinalizeApplyKeepsHistory(s: Store, operation: Id, candidate: Id, fence: Fence)
    requires History(s)
    ensures History(FinalizeApply(s, operation, candidate, fence).store)
  {
    SameProgressKeepsHistory(s, FinalizeApply(s, operation, candidate, fence).store);
  }

  lemma CompleteApplyKeepsHistory(s: Store, operation: Id, candidate: Id, replaceFence: Fence, stageFence: Fence, now: Time)
    requires History(s)
    ensures History(CompleteApply(s, operation, candidate, replaceFence, stageFence, now).store)
  {
    var finalized := FinalizeApply(s, operation, candidate, replaceFence).store;
    FinalizeApplyKeepsHistory(s, operation, candidate, replaceFence);
    var hasOld := ReplacedOld(finalized, operation);
    CompleteStageKeepsHistory(
      finalized,
      StageOutcome(operation, Verifying,
                   if hasOld then Status.CleanupRequired else Status.Succeeded,
                   if hasOld then Cleaning else Verifying,
                   if hasOld then Code.CleanupRequired else Code.Succeeded),
      stageFence, now);
  }

  lemma CompleteApplyRecoveryKeepsHistory(s: Store, recovery: Id, candidate: Id, handoffFence: Fence,
                                          replaceFence: Fence, stageFence: Fence, now: Time, timeout: nat)
    requires Inv(s) && History(s)
    ensures History(CompleteApplyRecovery(s, recovery, candidate, handoffFence, replaceFence, stageFence, now, timeout).store)
  {
    if ApplyRecoverable(s, recovery, candidate) {
      var subject := s.operations[recovery].subject.value;
      var out := RecoveryOutcome(recovery, subject, Status.Processing, Verifying, Code.Accepted, false);
      var handed := HandoffRecovery(s, out, handoffFence, now).store;
      HandoffKeeps(s, out, handoffFence, now);
      HandoffKeepsHistory(s, out, handoffFence, now);
      ClaimKeepsHistory(handed, subject, Verifying, now, timeout);
      var claimed := ClaimStage(handed, subject, Verifying, now, timeout).store;
      CompleteApplyKeepsHistory(claimed, subject, candidate, replaceFence, stageFence, now);
    }
  }

  lemma CorrectionKeepsHistory(s: Store, id: Id)
    requires History(s) && id in s.operations && s.operations[id].status == Status.Succeeded
    ensures History(CorrectSubject(s, id))
  {
    var s' := CorrectSubject(s, id);
    LoggedKeepsHistory(s, id, Status.Succeeded, s'.operations[id], Code.CleanupRequired);
    SameProgressKeepsHistory(Logged(s, id, Status.Succeeded, s'.operations[id], Code.CleanupRequired), s');
  }

  lemma {:induction false} RowsAfterPurge(log: seq<Transition>, gone: set<Id>, id: Id)
    ensures Rows(WithoutOperations(log, gone), id) == if id in gone then [] else Rows(log, id)
  {
    if |log| > 0 {
      var rest := log[..|log| - 1];
      var kept := WithoutOperations(rest, gone);
      RowsAfterPurge(rest, gone, id);
      assert (kept + [log[|log| - 1]])[..|kept|] == kept;
    }
  }

  lemma PurgeKeepsHistory(s: Store, channel: Id, reference: ReferenceFence, stored: bool)
    requires History(s)
    ensures History(PurgeHistory(s, channel, reference, stored).store)
  {
    var s' := PurgeHistory(s, channel, reference, stored).store;
    forall id
      ensures Faithful(s', id)
    {
      assert Faithful(s, id);
      if s' != s {
        var gone := set x | x in s.operations && s.operations[x].channel == channel;
        RowsAfterPurge(s.transitions, gone, id);
      }
    }
  }

  // ---- The numbering in the table ----

  lemma {:induction false} ReplayNumbers(rows: seq<Transition>, k: nat)
    requires Replay(rows).Some? && k < |rows|
    ensures rows[k].sequence == k + 1
  {
    if k < |rows| - 1 {
      ReplayNumbers(rows[..|rows| - 1], k);
    }
  }

  /** A row stands in its operation's history behind the rows that stand before it in the table. */
  lemma {:induction false} RowPosition(log: seq<Transition>, i: nat)
    requires i < |log|
    ensures var id := log[i].operation;
            |Rows(log[..i], id)| < |Rows(log, id)| && Rows(log, id)[|Rows(log[..i], id)|] == log[i]
  {
    var rest := log[..|log| - 1];
    if i < |log| - 1 {
      assert rest[..i] == log[..i];
      RowPosition(rest, i);
    }
  }

  /** No two rows of the table carry the same operation and sequence number. */
  lemma NumbersAreUnique(s: Store, i: nat, j: nat)
    requires History(s) && i < j < |s.transitions| && s.transitions[i].operation == s.transitions[j].operation
    ensures s.transitions[i].sequence < s.transitions[j].sequence
  {
    var log := s.transitions;
    var id := log[i].operation;
    assert Faithful(s, id);
    RowPosition(log, i);
    RowPosition(log, j);
    assert log[..j][..i] == log[..i];
    RowPosition(log[..j], i);
    ReplayNumbers(Rows(log, id), |Rows(log[..i], id)|);
    ReplayNumbers(Rows(log, id), |Rows(log[..j], id)|);
  }
}
