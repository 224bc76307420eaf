/** The deactivation repository as the program runs it, tied to the steps of the table. */
module DeactivationRepository {
  import opened Wrappers
  import opened RichMenuModel
  import opened Deactivation

  class DjangoChannelDeactivationRepository {
    var channels: map<Id, Channel>
    var intents: map<Id, Intent>

    function Contents(): Table
      reads this
    {
      Table(channels, intents)
    }

    constructor ()
      ensures Contents() == Table(map[], map[])
    {
      channels, intents := map[], map[];
    }

    method Reserve(q: Target, expected: Revision) returns (reply: TableReply)
      modifies this
      ensures Deactivation.Reserve(old(Contents()), q, expected) == TableOutcome(Contents(), reply)
    {
      if q.channel !in channels || channels[q.channel].provider != q.provider {
        return Conflicted(ChannelMissing);
      }
      var channel := channels[q.channel];
      if !channel.active {
        return Conflicted(Conflict.ChannelInactive);
      }
      var state: Intent;
      if q.channel in intents {
        state := intents[q.channel];
        if SameIntent(state, q) && state.expected == expected {
          return Reserved(state, true);
        }
        if state.status != Completed {
          return Conflicted(IntentConflict);
        }
        if channel.revision != expected {
          return Conflicted(Conflict.StaleChannel);
        }
        state := state.(operation := q.operation);
        state := state.(owner := q.owner);
        state := state.(provider := q.provider);
        state := state.(expected := expected);
        state := state.(status := Checking);
        state := state.(reason := None);
        state := state.(subject := None);
        state := state.(recovery := None);
        state := state.(ready := false);
        state := state.(completedAt := None);
        if !RowValid(state) {
          return TableReply.Rejected;
        }
      } else {
        if channel.revision != expected {
          return Conflicted(Conflict.StaleChannel);
        }
        state := Intent(q.operation, q.owner, q.provider, expected, Checking, None, None, None, false, None);
        if !RowValid(state) {
          return Conflicted(Storage);
        }
      }
      if OperationTaken(Contents(), q.channel, q.operation) {
        return Conflicted(Storage);
      }
      intents := intents[q.channel := state];
      reply := Reserved(state, false);
    }

    method SaveResult(q: Target, expected: Revision, status: IntentStatus, reason: Option<string>, subject: Option<Id>,
                      recovery: Option<Id>) returns (reply: TableReply)
      modifies this
      ensures Deactivation.SaveResult(old(Contents()), q, expected, status, reason, subject, recovery)
              == TableOutcome(Contents(), reply)
    {
      var locked := LockCurrent(Contents(), q, Some(expected));
      if locked.Some? {
        return Conflicted(locked.value);
      }
      var channel, state := channels[q.channel], intents[q.channel];
      if channel.revision != expected {
        return Conflicted(Conflict.StaleChannel);
      }
      if status == Unlinking {
        if reason.Some? || subject.None? {
          return Conflicted(InvalidResult);
        }
      } else if reason.None? || reason.value == "" {
        return Conflicted(InvalidResult);
      }
      state := state.(status := status);
      state := state.(reason := reason);
      state := state.(subject := subject);
      if recovery.Some? {
        if state.recovery.Some? && state.recovery != recovery {
          return Conflicted(RecoveryConflict);
        }
        state := state.(recovery := recovery);
        state := state.(ready := true);
      }
      if !RowValid(state) {
        return TableReply.Rejected;
      }
      intents := intents[q.channel := state];
      reply := Saved(state);
    }

    method RecordRevisionConflict(q: Target) returns (reply: TableReply)
      modifies this
      ensures Deactivation.RecordRevisionConflict(old(Contents()), q) == TableOutcome(Contents(), reply)
    {
      var locked := LockCurrent(Contents(), q, None);
      if locked.Some? {
        return Conflicted(locked.value);
      }
      var state := intents[q.channel];
      state := state.(status := ConfirmationRequired);
      state := state.(reason := Some(STALE_REASON));
      if state.recovery.Some? {
        state := state.(ready := true);
      }
      if !RowValid(state) {
        return TableReply.Rejected;
      }
      intents := intents[q.channel := state];
      reply := Saved(state);
    }

    method AdvanceRecheckRevision(q: Target, recovery: Id, presented: Revision) returns (reply: TableReply)
      modifies this
      ensures Deactivation.AdvanceRecheckRevision(old(Contents()), q, recovery, presented) == TableOutcome(Contents(), reply)
    {
      var locked := LockCurrent(Contents(), q, None);
      if locked.Some? {
        return Conflicted(locked.value);
      }
      var state := intents[q.channel];
      if channels[q.channel].revision != presented {
        return Conflicted(Conflict.StaleChannel);
      }
      if state.recovery.Some? {
        if state.recovery != Some(recovery) {
          return Conflicted(RecoveryConflict);
        }
        if state.ready || state.expected == presented {
          return TableReply.Locked(state);
        }
        state := state.(expected := presented);
      } else {
        state := state.(expected := presented);
        state := state.(recovery := Some(recovery));
        state := state.(ready := false);
      }
      if !RowValid(state) {
        return Conflicted(Storage);
      }
      intents := intents[q.channel := state];
      reply := TableReply.Locked(state);
    }

    method CompleteInactive(q: Target, expected: Revision, now: Time) returns (reply: TableReply)
      modifies this
      ensures Deactivation.CompleteInactive(old(Contents()), q, expected, now) == TableOutcome(Contents(), reply)
    {
      var locked := LockCurrent(Contents(), q, Some(expected));
      if locked.Some? {
        return Conflicted(locked.value);
      }
      var channel, state := channels[q.channel], intents[q.channel];
      if channel.revision != expected {
        return Conflicted(Conflict.StaleChannel);
      }
      var began := channels;
      channel := channel.(active := false);
      channel := channel.(revision := now);
      channels := channels[q.channel := channel];
      state := state.(status := Completed);
      state := state.(reason := None);
      state := state.(subject := None);
      state := state.(recovery := None);
      state := state.(ready := false);
      state := state.(completedAt := Some(now));
      if !RowValid(state) {
        channels := began;
        return TableReply.Rejected;
      }
      intents := intents[q.channel := state];
      reply := Done(state, now);
    }
  }
}
