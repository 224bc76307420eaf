/**
 The way of an operation: the stages of its kind in their order, when a stage is handed out and when it
 expires, and what a recovery makes of it.
 */
module RichMenuPaths {
  import opened Wrappers
  import opened RichMenuModel
  import opened RichMenuSteps
  import opened RichMenuInvariant
  import opened RichMenuRuns
  import opened RichMenuStages
  import opened RichMenuRequests
  import CleanupRepair

  // ---- Paths ----

  /** The stages of each kind, in order. */
  function Path(kind: Kind): (path: seq<Stage>)
    ensures |path| > 0
  {
    match kind
    case Apply => [Creating, Uploading, SettingDefault, Verifying]
    case Unlink => [ClearingDefault, Verifying]
    case Release => [LocalRelease]
    case Recheck => [Verifying]
    case Cleanup => [Cleaning]
  }

  predicate Ordinary(kind: Kind) {
    kind == Apply || kind == Unlink || kind == Release
  }

  predicate Follows(kind: Kind, a: Stage, b: Stage) {
    exists i :: 0 <= i < |Path(kind)| - 1 && Path(kind)[i] == a && Path(kind)[i + 1] == b
  }

  lemma FollowsIsNext(kind: Kind, i: nat)
    requires i < |Path(kind)| - 1
    ensures Follows(kind, Path(kind)[i], Path(kind)[i + 1])
  {
  }

  /** An ordinary operation starts at the first stage of its path and goes on to the next one. */
  lemma SuccessorsFollowThePath(kind: Kind, a: Stage, b: Stage)
    ensures InitialStage(kind) == if Ordinary(kind) then Some(Path(kind)[0]) else None
    ensures RecoveryStage(kind) == if Ordinary(kind) then None else Some(Path(kind)[0])
    ensures ProcessingSuccessor(kind, a) == Some(b) <==> Follows(kind, a, b)
  {
    if ProcessingSuccessor(kind, a) == Some(b) {
      FollowsIsNext(kind, if a == Creating || a == ClearingDefault then 0 else if a == Uploading then 1 else 2);
    }
  }

  /** It succeeds at the end of its path only. An apply fails only before LINE holds anything, and from then on
      leaves a cleanup instead; only a release, which asks LINE nothing, never ends unknown. */
  lemma OutcomesAlongThePath(kind: Kind, stage: Stage, status: Status)
    ensures status in ProcessingOutcomes(kind, stage) <==>
              && Ordinary(kind) && stage in Path(kind)
              && match status
                 case Succeeded => stage == Path(kind)[|Path(kind)| - 1]
                 case Failed => kind == Apply ==> stage == Path(kind)[0]
                 case Unknown => kind != Release
                 case CleanupRequired => kind == Apply && stage != Path(kind)[0]
                 case _ => false
  {
  }

  // ---- Rows along their path ----

  /** The stage is on the path, or an apply is at its cleanup. */
  predicate StageFits(op: Operation) {
    op.stage.Some? ==> op.stage.value in Path(op.kind) || (op.kind == Apply && op.stage == Some(Cleaning))
  }

  ghost predicate StagesFit(s: Store) {
    forall id {:trigger StageFits(s.operations[id])} :: id in s.operations ==> StageFits(s.operations[id])
  }

  predicate StageMoves(kind: Kind, a: Option<Stage>, b: Option<Stage>) {
    || a == b
    || (a.None? && b == Some(Path(kind)[0]))
    || (a.Some? && b.Some? && Follows(kind, a.value, b.value))
    || (kind == Apply && a.Some? && b == Some(Cleaning))
  }

  /** When the call hands the operation's stage to a worker: a claim, or the acceptance of a recovery. */
  ghost function HandOut(s: Store, call: Call, id: Id): Option<Time> {
    if call.Claim? && call.id == id && Next(s, call).reply.Claimed? then Some(call.now)
    else if call.AcceptRecoveryOf? && call.command.operation == id && Next(s, call).reply.RecoveryAccepted? then Some(call.now)
    else None
  }

  /** One step on the path at most, and a start time only from a hand-out. */
  predicate Goes(a: Operation, b: Operation, handOut: Option<Time>) {
    && b.kind == a.kind
    && StageMoves(a.kind, a.stage, b.stage)
    && (b.startedAt.Some? ==> b.startedAt == a.startedAt || b.startedAt == handOut)
  }

  lemma StaysFitting(a: Operation, b: Operation, handOut: Option<Time>)
    requires StageFits(a) && Goes(a, b, handOut)
    ensures StageFits(b)
  {
  }

  lemma ClaimGoes(s: Store, call: Call, id: Id)
    requires Inv(s) && call.Claim? && id in s.operations
    ensures id in Next(s, call).store.operations
    ensures Goes(s.operations[id], Next(s, call).store.operations[id], HandOut(s, call, id))
  {
    hide Inv, OperationOk, LastSequence, SlotsOf, ExpireRecovery, MakeUnknown, StageMoves;
    RowFacts(s, id);
    StaysPut(s.operations[id]);
    SuccessorsFollowThePath(s.operations[id].kind, Creating, Creating);
    Starts(s.operations[id].kind);
    if call.id in s.operations {
      ExpiryStaysPut(s, call.id, call.now, id);
    }
  }

  lemma Starts(kind: Kind)
    ensures StageMoves(kind, None, Some(Path(kind)[0]))
  {
  }

  lemma ExpiryStaysPut(s: Store, id: Id, now: Time, other: Id)
    requires id in s.operations && other in s.operations
    ensures other in ExpireRecovery(s, id, now).store.operations && other in MakeUnknown(s, id).store.operations
    ensures ExpireRecovery(s, id, now).store != s || MakeUnknown(s, id).store != s ==> s.operations[id].stage.Some?
    ensures var a, b := s.operations[other], ExpireRecovery(s, id, now).store.operations[other];
            b.kind == a.kind && b.stage == a.stage && (b.startedAt == a.startedAt || b.startedAt.None?)
    ensures var a, b := s.operations[other], MakeUnknown(s, id).store.operations[other];
            b.kind == a.kind && b.stage == a.stage && (b.startedAt == a.startedAt || b.startedAt.None?)
  {
    hide LastSequence;
  }

  lemma MovesAlongThePath(kind: Kind, stage: Option<Stage>, next: Status, nextStage: Stage)
    requires MayMove(kind, Status.Processing, stage, next, nextStage)
    ensures StageMoves(kind, stage, Some(nextStage))
  {
    SuccessorsFollowThePath(kind, stage.value, nextStage);
  }

  lemma CompleteGoes(s: Store, call: Call, id: Id)
    requires call.Complete? && id in s.operations
    ensures id in Next(s, call).store.operations
    ensures Goes(s.operations[id], Next(s, call).store.operations[id], None)
  {
    hide LastSequence, SlotsOf, MayMove, StageMoves;
    StaysPut(s.operations[id]);
    if call.out.operation == id && MayMove(s.operations[id].kind, Status.Processing, s.operations[id].stage, call.out.next, call.out.nextStage) {
      MovesAlongThePath(s.operations[id].kind, s.operations[id].stage, call.out.next, call.out.nextStage);
    }
  }

  lemma StaysPut(op: Operation)
    ensures StageMoves(op.kind, op.stage, op.stage)
  {
  }

  lemma FinishGoes(s: Store, call: Call, id: Id)
    requires (call.FinishRecovery? || call.FinishCleanup?) && id in s.operations
    ensures id in Next(s, call).store.operations
    ensures Goes(s.operations[id], Next(s, call).store.operations[id], None)
  {
    hide LastSequence, SlotsOf, StageMoves;
    StaysPut(s.operations[id]);
  }

  /** A confirmed subject resumes at the stage its completion would have led to; a verification and a cleanup are
      repeated. */
  lemma PutBackExactly(subject: Operation, out: RecoveryOutcome)
    requires StageFits(subject) && Ordinary(subject.kind) && out.next == Status.Processing
    requires subject.status == Status.Unknown || subject.status == Status.CleanupRequired
    ensures HandoffAllowed(subject, out) <==>
              && subject.stage.Some?
              && var stage := subject.stage.value;
                 if stage == Verifying || stage == Cleaning then out.nextStage == stage
                 else ProcessingSuccessor(subject.kind, stage) == Some(out.nextStage)
  {
  }

  /** Otherwise a confirmed subject ends where it is; only an apply whose menu was never the default is left to clean. */
  lemma ConfirmedEndsExactly(subject: Operation, out: RecoveryOutcome)
    requires out.next != Status.Processing
    requires subject.status == Status.Unknown || subject.status == Status.CleanupRequired
    ensures HandoffAllowed(subject, out) <==>
              || ((out.next == Status.Succeeded || out.next == Status.Failed) && subject.stage == Some(out.nextStage))
              || (out.next == Status.CleanupRequired && out.nextStage == Cleaning && out.result == Code.CleanupRequired
                  && subject.kind == Apply && subject.stage in {Some(Path(Apply)[0]), Some(Path(Apply)[1])})
  {
  }

  lemma ConfirmedGoes(subject: Operation, out: RecoveryOutcome)
    requires StageFits(subject) && HandoffAllowed(subject, out)
    ensures StageMoves(subject.kind, subject.stage, Some(out.nextStage))
  {
    if out.next == Status.Processing && Ordinary(subject.kind) {
      PutBackExactly(subject, out);
      SuccessorsFollowThePath(subject.kind, subject.stage.value, out.nextStage);
    }
  }

  /** What the three outcomes of a handoff do to the stage of any row. */
  lemma HandoffParts(s: Store, out: RecoveryOutcome, fence: Fence, now: Time, id: Id)
    requires out.recovery in s.operations && out.subject in s.operations && id in s.operations
    ensures var a, t := s.operations[id], RejectStaleRecovery(s, out.recovery, s.operations[out.subject], fence, now).store;
            && id in t.operations && t.operations[id].kind == a.kind && t.operations[id].stage == a.stage
            && (t.operations[id].startedAt == a.startedAt || t.operations[id].startedAt.None?)
    ensures s.operations[out.recovery].stage.Some? ==>
              var a, t := s.operations[id], MoveBlocker(s, out).store;
              && id in t.operations && t.operations[id].kind == a.kind
              && t.operations[id].stage == (if id == out.subject then Some(out.nextStage) else a.stage)
              && (t.operations[id].startedAt == a.startedAt || t.operations[id].startedAt.None?)
    ensures s.operations[out.recovery].stage.Some? ==>
              var a, t := s.operations[id], HandBack(s, out, now).store;
              && id in t.operations && t.operations[id].kind == a.kind
              && t.operations[id].stage == (if id == out.subject then Some(out.nextStage) else a.stage)
              && (t.operations[id].startedAt == a.startedAt || t.operations[id].startedAt.None?)
  {
    hide LastSequence;
  }

  lemma HandoffGoes(s: Store, call: Call, id: Id)
    requires call.Handoff? && id in s.operations && StageFits(s.operations[id])
    ensures id in Next(s, call).store.operations
    ensures Goes(s.operations[id], Next(s, call).store.operations[id], None)
  {
    hide LastSequence, SlotsOf, HandoffAllowed, StageMoves, StageFits, RejectStaleRecovery, MoveBlocker, HandBack;
    if call.recovery.recovery in s.operations && call.recovery.subject in s.operations {
      HandoffParts(s, call.recovery, call.fence, call.now, id);
    }
    StaysPut(s.operations[id]);
    if HandoffAllowed(s.operations[id], call.recovery) {
      ConfirmedGoes(s.operations[id], call.recovery);
    }
  }

  lemma FinishApplyGoes(s: Store, call: Call, id: Id)
    requires call.FinishApply? && id in s.operations
    ensures id in Next(s, call).store.operations
    ensures Goes(s.operations[id], Next(s, call).store.operations[id], None)
  {
    hide FinalizeApply, CompleteStage, StageMoves;
    StaysPut(s.operations[id]);
    var finalized := FinalizeApply(s, call.id, call.resource, call.replaceFence).store;
    ResourceCallsLeaveOperations(s, Finalize(call.id, call.resource, call.replaceFence));
    var hasOld := ReplacedOld(finalized, call.id);
    var out := StageOutcome(call.id, Verifying,
                            if hasOld then Status.CleanupRequired else Status.Succeeded,
                            if hasOld then Cleaning else Verifying,
                            if hasOld then Code.CleanupRequired else Code.Succeeded);
    CompleteGoes(finalized, Complete(out, call.stageFence, call.now), id);
  }

  lemma FinishedApplyStage(s: Store, call: Call)
    requires call.FinishApply? && Next(s, call).reply.Moved?
    ensures call.id in Next(s, call).store.operations
    ensures Next(s, call).store.operations[call.id].startedAt.None?
    ensures Next(s, call).store.operations[call.id].stage in {Some(Verifying), Some(Cleaning)}
  {
    hide FinalizeApply, LastSequence, MayMove, SlotsOf;
  }

  /** The three parts of an apply recovery together take its subject one step at most. */
  lemma ApplyRecoveryGoes(s: Store, call: Call, id: Id)
    requires Inv(s) && call.FinishApplyRecovery? && id in s.operations && StageFits(s.operations[id])
    ensures id in Next(s, call).store.operations
    ensures Goes(s.operations[id], Next(s, call).store.operations[id], None)
  {
    StaysPut(s.operations[id]);
    if ApplyRecoverable(s, call.id, call.resource) {
      hide HandoffRecovery, ClaimStage, CompleteApply, CompleteApplyRecovery, StageMoves, StageFits;
      var handoff, claim, finish := RecoveryHandoff(s, call), RecoveryClaim(s, call), RecoveryFinish(s, call);
      ApplyRecoveryParts(s, call);
      HandoffGoes(s, handoff, id);
      NextKeepsInv(s, handoff);
      var handed := Next(s, handoff).store;
      if id != claim.id {
        ClaimsLeaveOthers(handed, claim, id);
        FinishApplyLeavesOthers(Next(handed, claim).store, finish, id);
      } else if Next(Next(handed, claim).store, finish).reply.Moved? {
        FinishedApplyStage(Next(handed, claim).store, finish);
        CallMovesRow(s, call, id);
        VerifyingIsNear(s.operations[id].stage);
      }
    }
  }

  lemma VerifyingIsNear(stage: Option<Stage>)
    requires stage in {Some(SettingDefault), Some(Verifying)}
    ensures StageMoves(Apply, stage, Some(Verifying)) && StageMoves(Apply, stage, Some(Cleaning))
  {
    FollowsIsNext(Apply, 2);
  }

  lemma ClaimsLeaveOthers(s: Store, call: Call, id: Id)
    requires call.Claim? && call.id != id && id in s.operations
    ensures id in Next(s, call).store.operations && Next(s, call).store.operations[id] == s.operations[id]
  {
    hide LastSequence, SlotsOf, MayMove;
  }

  lemma FinishApplyLeavesOthers(s: Store, call: Call, id: Id)
    requires call.FinishApply? && call.id != id && id in s.operations
    ensures id in Next(s, call).store.operations && Next(s, call).store.operations[id] == s.operations[id]
  {
    hide LastSequence, SlotsOf, MayMove, FinalizeApply;
    ResourceCallsLeaveOperations(s, Finalize(call.id, call.resource, call.replaceFence));
  }

  lemma RepairGoes(s: Store, call: Call, id: Id)
    requires call.Repair? && id in s.operations
    ensures id in Next(s, call).store.operations
    ensures Goes(s.operations[id], Next(s, call).store.operations[id], None)
  {
    hide CleanupRepair.Repair, CleanupRepair.RepairWith, CleanupRepair.Refusal, CleanupRepair.Least, LastSequence, SlotsOf;
    if CleanupRepair.Repair(s, call.request).reply.Plan? {
      var r := CleanupRepair.PlanNames(s, call.request);
      RepairWrites(s, call.request, r);
      RepairedIsApply(s, call.request, r);
    } else {
      RejectedRepairWritesNothing(s, call.request);
    }
  }

  lemma RepairedIsApply(s: Store, q: CleanupRepair.Request, r: Id)
    requires CleanupRepair.Refusal(s, q).None? && CleanupRepair.Least(s, q, r)
    ensures s.resources[r].replacement.value in s.operations && s.operations[s.resources[r].replacement.value].kind == Apply
  {
  }

  /** Every call takes every operation one step on its path at most. */
  lemma CallGoes(s: Store, call: Call, id: Id)
    requires Inv(s) && id in s.operations && StageFits(s.operations[id]) && !Purges(s, call, id)
    ensures id in Next(s, call).store.operations
    ensures Goes(s.operations[id], Next(s, call).store.operations[id], HandOut(s, call, id))
  {
    hide Inv, Next, StageMoves, StageFits, Purges;
    StaysPut(s.operations[id]);
    match call
    case Claim(_, _, _, _) => ClaimGoes(s, call, id);
    case Complete(_, _, _) => CompleteGoes(s, call, id);
    case FinishRecovery(_, _, _, _) => FinishGoes(s, call, id);
    case FinishCleanup(_, _, _) => FinishGoes(s, call, id);
    case Handoff(_, _, _) => HandoffGoes(s, call, id);
    case AcceptOperation(_, _, _, _, _) => AcceptanceLeavesRows(s, call, id);
    case AcceptRecoveryOf(_, _, _, _, _) => AcceptanceLeavesRows(s, call, id);
    case ReserveDisable(_, _, _, _) => AcceptanceLeavesRows(s, call, id);
    case FinishApply(_, _, _, _, _) => FinishApplyGoes(s, call, id);
    case FinishApplyRecovery(_, _, _, _, _, _, _) => ApplyRecoveryGoes(s, call, id);
    case Repair(_) => RepairGoes(s, call, id);
    case Purge(_, _, _) => PurgeLeavesRows(s, call, id);
    case _ => ResourceCallsLeaveOperations(s, call);
  }

  lemma PurgeLeavesRows(s: Store, call: Call, id: Id)
    requires call.Purge? && id in s.operations && !Purges(s, call, id)
    ensures id in Next(s, call).store.operations && Next(s, call).store.operations[id] == s.operations[id]
  {
  }

  lemma NewRowsStart(s: Store, call: Call, id: Id)
    requires id in Next(s, call).store.operations && id !in s.operations
    ensures var row := Next(s, call).store.operations[id];
            && (row.stage.None? || row.stage == Some(Path(row.kind)[0]))
            && (row.startedAt.Some? ==> row.startedAt == HandOut(s, call, id))
  {
    hide Next;
    RowsAreAsked(s, call, id);
    AcceptedRowsStart(s, call, id);
  }

  lemma AcceptedRowsStart(s: Store, call: Call, id: Id)
    requires call.AcceptOperation? || call.AcceptRecoveryOf? || call.ReserveDisable?
    requires id in Next(s, call).store.operations && id !in s.operations
    ensures var row := Next(s, call).store.operations[id];
            && (row.stage.None? || row.stage == Some(Path(row.kind)[0]))
            && (row.startedAt.Some? ==> row.startedAt == HandOut(s, call, id))
  {
    hide LastSequence, UsageTaken, RecoveryAdmissible, DisableTarget, HasLifecycle;
  }

  // ---- Runs ----

  lemma NextKeepsFitting(s: Store, call: Call)
    requires Inv(s) && StagesFit(s)
    ensures StagesFit(Next(s, call).store)
  {
    hide Inv, Next, StageFits, Goes, HandOut;
    var s' := Next(s, call).store;
    forall id | id in s'.operations
      ensures StageFits(s'.operations[id])
    {
      if id in s.operations {
        PurgedRowsAreGone(s, call, id);
        CallGoes(s, call, id);
        StaysFitting(s.operations[id], s'.operations[id], HandOut(s, call, id));
      } else {
        NewRowsStart(s, call, id);
        FirstStageFits(s'.operations[id]);
      }
    }
  }

  lemma FirstStageFits(op: Operation)
    requires op.stage.None? || op.stage == Some(Path(op.kind)[0])
    ensures StageFits(op)
  {
  }

  lemma {:induction false} RunKeepsFitting(calls: seq<Call>)
    ensures Sound(Run(EMPTY, calls)) && StagesFit(Run(EMPTY, calls))
  {
    hide Next, Sound, StageFits;
    EmptyIsSound();
    RunKeepsSound(EMPTY, calls);
    if |calls| > 0 {
      RunKeepsFitting(calls[..|calls| - 1]);
      SoundIsInv(Run(EMPTY, calls[..|calls| - 1]));
      NextKeepsFitting(Run(EMPTY, calls[..|calls| - 1]), calls[|calls| - 1]);
    }
  }

  lemma SoundIsInv(s: Store)
    requires Sound(s)
    ensures Inv(s)
  {
  }

  /** The stage of the operation after so many calls. */
  ghost predicate AtStage(calls: seq<Call>, n: nat, id: Id, kind: Kind, stage: Stage)
    requires n <= |calls|
  {
    && id in Run(EMPTY, calls[..n]).operations
    && Run(EMPTY, calls[..n]).operations[id].kind == kind
    && Run(EMPTY, calls[..n]).operations[id].stage == Some(stage)
  }

  lemma OnePredecessor(kind: Kind, i: nat, a: Stage)
    requires i + 1 < |Path(kind)| && Follows(kind, a, Path(kind)[i + 1])
    ensures a == Path(kind)[i]
  {
  }

  /** An operation is at a stage of its path only after it was at the stage before it: nothing reaches the setting
      of a default menu but an apply whose upload was under way. */
  lemma {:induction false} StagesArePassedInOrder(calls: seq<Call>, id: Id, kind: Kind, i: nat) returns (n: nat)
    requires i + 1 < |Path(kind)| && AtStage(calls, |calls|, id, kind, Path(kind)[i + 1])
    ensures n < |calls| && AtStage(calls, n, id, kind, Path(kind)[i])
    ensures forall m :: n <= m <= |calls| ==> id in Run(EMPTY, calls[..m]).operations
  {
    hide Next, Inv, Path, Follows, StageFits, HandOut;
    assert calls[..|calls|] == calls;
    if |calls| > 0 {
      var before := calls[..|calls| - 1];
      var s, call := Run(EMPTY, before), calls[|calls| - 1];
      RunKeepsFitting(before);
      SoundIsInv(s);
      LaterStagesAreOld(s, call, id, kind, i);
      PurgedRowsAreGone(s, call, id);
      CallGoes(s, call, id);
      assert before[..|before|] == before;
      if s.operations[id].stage == Some(Path(kind)[i + 1]) {
        n := StagesArePassedInOrder(before, id, kind, i);
        assert before[..n] == calls[..n];
        forall m | n <= m <= |calls|
          ensures id in Run(EMPTY, calls[..m]).operations
        {
          if m < |calls| {
            assert before[..m] == calls[..m];
          }
        }
      } else {
        LaterStagesFollow(kind, i, s.operations[id].stage);
        OnePredecessor(kind, i, s.operations[id].stage.value);
        n := |calls| - 1;
      }
    }
  }

  lemma LaterStagesAreOld(s: Store, call: Call, id: Id, kind: Kind, i: nat)
    requires i + 1 < |Path(kind)| && id in Next(s, call).store.operations
    requires Next(s, call).store.operations[id].kind == kind
    requires Next(s, call).store.operations[id].stage == Some(Path(kind)[i + 1])
    ensures id in s.operations
  {
    hide Next;
    if id !in s.operations {
      NewRowsStart(s, call, id);
    }
  }

  lemma LaterStagesFollow(kind: Kind, i: nat, a: Option<Stage>)
    requires i + 1 < |Path(kind)| && StageMoves(kind, a, Some(Path(kind)[i + 1])) && a != Some(Path(kind)[i + 1])
    ensures a.Some? && Follows(kind, a.value, Path(kind)[i + 1])
  {
  }

  // ---- Claims ----

  /** A claim waits while the stage is out for less than the timeout, expires it once it is out that long, and
      otherwise hands out exactly the stage the operation is at. */
  lemma ClaimsExactly(s: Store, id: Id, stage: Stage, now: Time, timeout: nat)
    requires Inv(s) && id in s.operations
    ensures var op, claimed := s.operations[id], ClaimStage(s, id, stage, now, timeout);
            && (claimed.reply == StageRefused(StageInFlight) <==> op.startedAt.Some? && now < op.startedAt.value + timeout)
            && (claimed.reply.Expired? <==>
                  && op.startedAt.Some? && now >= op.startedAt.value + timeout
                  && (op.status == Status.RecoveryActive ==> op.stage == Some(stage)))
            && (claimed.reply.Claimed? <==>
                  && op.startedAt.None?
                  && (|| (op.status == Status.Accepted && stage == Path(op.kind)[0])
                      || (op.status == Status.Processing && op.stage == Some(stage))))
            && (claimed.reply.StageRefused? <==> !claimed.reply.Expired? && !claimed.reply.Claimed?)
            && (claimed.reply.StageRefused? ==> claimed.store == s)
  {
    hide LastSequence;
    assert OperationOk(s, id) && SlotsOk(s, s.operations[id].channel);
  }

  /** An expired stage leaves its operation unknown and in the way of the channel; an expired recheck has failed
      and leaves what it was to confirm in the way. */
  lemma ExpiredBlocks(s: Store, id: Id, stage: Stage, now: Time, timeout: nat)
    requires Inv(s) && ClaimStage(s, id, stage, now, timeout).reply.Expired?
    ensures var s' := ClaimStage(s, id, stage, now, timeout).store;
            && id in s.operations && id in s'.operations
            && var a, b := s.operations[id], s'.operations[id];
            && b.stage == a.stage && b.startedAt.None? && b.result == ResponseUnknown
            && a.channel in s'.channels
            && s'.channels[a.channel].active.None?
            && s'.channels[a.channel].current == SlotsOf(s, a.channel).current
            && (if a.kind == Recheck && a.status == Status.RecoveryActive
                then b.status == Status.Failed && b.completedAt == Some(now) && s'.channels[a.channel].blocking == a.subject
                else b.status == Status.Unknown && b.completedAt == a.completedAt && s'.channels[a.channel].blocking == Some(id))
            && (forall other :: other in s.operations && other != id ==>
                  other in s'.operations && s'.operations[other] == s.operations[other])
  {
    hide LastSequence;
    assert OperationOk(s, id) && SlotsOk(s, s.operations[id].channel);
  }

  /** A claimed stage is processing from now, and its operation is the active one. */
  lemma ClaimedWorks(s: Store, id: Id, stage: Stage, now: Time, timeout: nat)
    requires Inv(s) && ClaimStage(s, id, stage, now, timeout).reply.Claimed?
    ensures var s' := ClaimStage(s, id, stage, now, timeout).store;
            && id in s.operations && id in s'.operations
            && s'.operations[id] == s.operations[id].(status := Status.Processing, stage := Some(stage), startedAt := Some(now))
            && s'.channels == s.channels && s'.resources == s.resources
            && s'.channels[s.operations[id].channel].active == Some(id)
  {
    hide LastSequence, MayMove;
    assert OperationOk(s, id);
  }

  ghost predicate StartedAt(calls: seq<Call>, n: nat, id: Id, t: Time)
    requires n <= |calls|
  {
    id in Run(EMPTY, calls[..n]).operations && Run(EMPTY, calls[..n]).operations[id].startedAt == Some(t)
  }

  /** A stage that is out was handed out at the time it says, and has been out ever since. */
  lemma {:induction false} StartsAreHandOuts(calls: seq<Call>, id: Id, t: Time) returns (j: nat)
    requires StartedAt(calls, |calls|, id, t)
    ensures j < |calls| && HandOut(Run(EMPTY, calls[..j]), calls[j], id) == Some(t)
    ensures forall n :: j < n <= |calls| ==> StartedAt(calls, n, id, t)
  {
    hide Next, Inv, StageFits, StageMoves, HandOut;
    assert calls[..|calls|] == calls;
    if |calls| > 0 {
      var before := calls[..|calls| - 1];
      var s, call := Run(EMPTY, before), calls[|calls| - 1];
      RunKeepsFitting(before);
      SoundIsInv(s);
      assert before[..|before|] == before;
      if id !in s.operations {
        NewRowsStart(s, call, id);
        j := |calls| - 1;
      } else {
        PurgedRowsAreGone(s, call, id);
        CallGoes(s, call, id);
        if s.operations[id].startedAt == Some(t) {
          j := StartsAreHandOuts(before, id, t);
          assert before[..j] == calls[..j];
          forall n | j < n <= |calls|
            ensures StartedAt(calls, n, id, t)
          {
            if n < |calls| {
              assert before[..n] == calls[..n];
              assert StartedAt(before, n, id, t);
            }
          }
        } else {
          j := |calls| - 1;
        }
      }
    }
  }

  /** Over any run, a claim expires only a stage that was handed out at least the timeout ago and never came back. */
  lemma OnlyOverdueStagesExpire(calls: seq<Call>, id: Id, stage: Stage, now: Time, timeout: nat) returns (j: nat)
    requires ClaimStage(Run(EMPTY, calls), id, stage, now, timeout).reply.Expired?
    ensures j < |calls| && HandOut(Run(EMPTY, calls[..j]), calls[j], id).Some?
    ensures HandOut(Run(EMPTY, calls[..j]), calls[j], id).value + timeout <= now
    ensures forall n :: j < n <= |calls| ==> StartedAt(calls, n, id, HandOut(Run(EMPTY, calls[..j]), calls[j], id).value)
  {
    hide Next, Inv, HandOut, ClaimStage, Run, StageFits;
    RunKeepsFitting(calls);
    SoundIsInv(Run(EMPTY, calls));
    ExpiredIsKnown(Run(EMPTY, calls), id, stage, now, timeout);
    ClaimsExactly(Run(EMPTY, calls), id, stage, now, timeout);
    assert calls[..|calls|] == calls;
    j := StartsAreHandOuts(calls, id, Run(EMPTY, calls).operations[id].startedAt.value);
  }

  lemma ExpiredIsKnown(s: Store, id: Id, stage: Stage, now: Time, timeout: nat)
    requires ClaimStage(s, id, stage, now, timeout).reply.Expired?
    ensures id in s.operations
  {
  }
}
