/** What each account call is for, and what a run of the saga says about unlinks and sessions found in its end. */
module AccountHistory {
  import opened Wrappers
  import opened Accounts
  import opened AccountUnlink
  import F = Friendship

  // ---- Single calls ----

  /** A login leaves exactly one row for the person, with the verified name, and every other row as it was. */
  lemma UpsertNamesThePerson(t: Tables, v: Identity, freshId: Id)
    requires TablesOk(t)
    ensures var done := Upsert(t, v, freshId);
            if !Known(t, v.provider, v.subject) && freshId in t.identities then done == Outcome(t, StorageFailed)
            else
              && done.reply.Found?
              && done.tables == t.(identities := done.tables.identities)
              && done.tables.identities.Keys == t.identities.Keys + {done.reply.id}
              && done.tables.identities[done.reply.id] == v
              && (forall id :: id in t.identities && id != done.reply.id ==> done.tables.identities[id] == t.identities[id])
              && (forall id :: id in done.tables.identities && SamePerson(done.tables.identities[id], v) ==> id == done.reply.id)
  {
    UpsertStaysOk(t, UpsertCall(v, freshId));
  }

  /** The owner is bound to the first known identity and to no other until it is vacant again. */
  lemma BindsOnce(t: Tables, identity: Id)
    requires TablesOk(t)
    ensures Bind(t, identity).reply == Done <==>
              identity in t.identities && (t.owner.identity.None? || t.owner.identity == Some(identity))
    ensures Bind(t, identity).reply == Done ==> Bind(t, identity).tables.owner.identity == Some(identity)
    ensures t.owner.identity.Some? || Bind(t, identity).reply != Done ==> Bind(t, identity).tables == t
    ensures t.owner.identity.None? && Bind(t, identity).reply == Done ==>
              Bind(t, identity).tables == t.(owner := Owner(Active, Some(identity), None, None))
  {
    assert Consistent(t.owner);
  }

  /** The owner is active for the identity that asks. */
  predicate Serves(t: Tables, identity: Id) {
    t.owner.state == Active && t.owner.identity == Some(identity)
  }

  /** Rows appear, change and disappear only by the call that asks for it, and by none while the owner is
      not active for the identity that asks. */
  lemma RecipientsChangeAsAsked(t: Tables, call: Call, r: Id)
    requires TablesOk(t)
    ensures var rows, rows' := t.recipients, Accounts.Next(t, call).tables.recipients;
            && (r in rows' && r !in rows ==>
                  && call.CreateCall? && call.freshId == r && call.fence == Locked && Serves(t, call.identity)
                  && !Linked(t, call.identity, call.channel)
                  && rows'[r] == Recipient(call.identity, call.channel, true, F.Projection(call.at, call.friendship, None)))
            && (r in rows && r !in rows' ==>
                  || (call.DeleteCall? && call.recipient == r && Serves(t, call.identity) && rows[r].identity == call.identity)
                  || (call.FinalizeCall? && t.owner.identity == Some(rows[r].identity)))
            && (r in rows && r in rows' ==>
                  && rows'[r].identity == rows[r].identity && rows'[r].channel == rows[r].channel
                  && (rows'[r].enabled != rows[r].enabled ==>
                        && call.EnableCall? && call.recipient == r && call.enabled == rows'[r].enabled
                        && Serves(t, call.identity) && rows[r].identity == call.identity)
                  && (rows'[r].projection != rows[r].projection ==>
                        && call.FriendshipCall? && rows'[r].projection == F.Handle(rows[r].projection, call.event)
                        && Serves(t, rows[r].identity) && Holds(t, rows[r].identity, call.provider, call.subject)
                        && rows[r].channel == call.channel))
  {
    hide F.Handle;
  }

  /** And what was asked for while the owner is active is done. */
  lemma RequestsAreServed(t: Tables, call: Call)
    requires TablesOk(t)
    ensures call.EnableCall? ==>
              (Accounts.Next(t, call).reply == Done <==> Serves(t, call.identity) && OwnRecipient(t, call.identity, call.recipient))
    ensures call.EnableCall? && Accounts.Next(t, call).reply == Done ==>
              Accounts.Next(t, call).tables.recipients[call.recipient].enabled == call.enabled
    ensures call.DeleteCall? ==>
              (Accounts.Next(t, call).reply == Deleted(true) <==> Serves(t, call.identity) && OwnRecipient(t, call.identity, call.recipient))
    ensures call.DeleteCall? ==> call.recipient !in Accounts.Next(t, call).tables.recipients || Accounts.Next(t, call).reply != Deleted(true)
    ensures call.CreateCall? && call.fence == Locked && Serves(t, call.identity) ==>
              if Linked(t, call.identity, call.channel) || call.freshId !in t.recipients
              then && Accounts.Next(t, call).reply.Found?
                   && Links(Accounts.Next(t, call).tables, Accounts.Next(t, call).reply.id, call.identity, call.channel)
              else Accounts.Next(t, call).reply == StorageFailed
    ensures forall r :: call.FriendshipCall? && r in t.recipients && Serves(t, t.recipients[r].identity)
                        && Holds(t, t.recipients[r].identity, call.provider, call.subject) && t.recipients[r].channel == call.channel ==>
              Accounts.Next(t, call).tables.recipients[r].projection == F.Handle(t.recipients[r].projection, call.event)
  {
    forall r | call.FriendshipCall? && r in t.recipients && Serves(t, t.recipients[r].identity)
               && Holds(t, t.recipients[r].identity, call.provider, call.subject) && t.recipients[r].channel == call.channel
      ensures Linked(t, t.recipients[r].identity, call.channel) && LinkedId(t, t.recipients[r].identity, call.channel) == r
    {
      assert Links(t, r, t.recipients[r].identity, call.channel);
      assert SameLink(t.recipients[r], t.recipients[LinkedId(t, t.recipients[r].identity, call.channel)]);
    }
  }

  /** Deletion of the identity is open exactly to the generation whose deauthorization was recorded. */
  lemma MarkingAndFinalizing(t: Tables, g: Generation, now: Time)
    requires TablesOk(t)
    ensures MarkDeauthorized(t, g, now).reply == Done <==>
              t.owner.generation == Some(g)
    ensures MarkDeauthorized(t, g, now).reply == Done ==>
              && MarkDeauthorized(t, g, now).tables.owner.state == LocalDeletionPending
              && MarkDeauthorized(t, g, now).tables.owner.identity == t.owner.identity
              && MarkDeauthorized(t, g, now).tables.owner.generation == Some(g)
              && MarkDeauthorized(t, g, now).tables.owner.deauthorizedAt ==
                   if t.owner.state == LocalDeletionPending then t.owner.deauthorizedAt else Some(now)
    ensures FinalizeUnlink(t, g).reply == Done <==>
              t.owner.generation == Some(g) && t.owner.deauthorizedAt.Some?
  {
    assert Consistent(t.owner);
  }

  // ---- Requests ----

  /** A request goes on exactly in the shape its owner state asks for, and for the bound identity only. */
  lemma RequestsAreRouted(w: World, id: Id, x: Chance)
    requires SagaOk(w) && id in w.attempts && w.attempts[id].Opened?
    ensures var p, owner := w.attempts[id], w.tables.owner; var w' := NextAct(w, id, x);
            && w'.tables == w.tables
            && (id in w'.attempts ==> owner.identity == Some(p.principal))
            && (id in w'.attempts <==>
                  && owner.identity == Some(p.principal)
                  && (owner.deauthorizedAt.Some? <==> !p.access)
                  && (owner.generation.None? <==> p.offered.Some?)
                  && (p.offered.Some? ==> p.offered.value.issuedAt <= x.now <= p.offered.value.issuedAt + MAX_AGE))
            && (id in w'.attempts ==>
                  w'.attempts[id] == match owner.state
                                     case Active => Starting(p.principal, p.offered.value)
                                     case DeauthorizationPending => Resuming(p.principal, owner.generation.value)
                                     case _ => Finalizing(owner.generation.value, false))
  {
    assert Consistent(w.tables.owner);
  }

  /** How every attempt goes on, phase by phase: a proof of the principal, the free lock, the owner still in this
      generation, LINE's agreement and the database each stand between it and the finalization. */
  lemma AttemptsGoOn(w: World, id: Id, x: Chance)
    requires SagaOk(w) && id in w.attempts && !w.attempts[id].Opened? && !w.attempts[id].Confirming?
    ensures var p, owner := w.attempts[id], w.tables.owner; var w' := NextAct(w, id, x);
            && (id !in w'.attempts ==> w'.lock == if w.lock == Some(id) then None else w.lock)
            && match p
               case Starting(principal, ticket) =>
                 if principal in w.tables.identities && x.verified
                 then id in w'.attempts && w'.attempts[id] == Confirming(principal, ticket) && w'.tables == w.tables
                 else id !in w'.attempts && w'.tables == w.tables
               case Resuming(principal, g) =>
                 if principal in w.tables.identities && x.verified
                 then id in w'.attempts && w'.attempts[id] == Deauthorizing(principal, g) && w'.tables == w.tables
                 else id !in w'.attempts && w'.tables == w.tables
               case Deauthorizing(principal, g) =>
                 if w.lock.None?
                 then id in w'.attempts && w'.attempts[id] == Checking(principal, g) && w'.lock == Some(id) && w'.tables == w.tables
                 else id !in w'.attempts && w'.tables == w.tables
               case Checking(principal, g) =>
                 && w'.tables == w.tables
                 && (if owner.generation != Some(g) then id !in w'.attempts
                     else id in w'.attempts
                          && w'.attempts[id] == if owner.deauthorizedAt.Some? then Finalizing(g, true) else Calling(principal, g))
               case Calling(principal, g) =>
                 && w'.tables == w.tables
                 && w'.answers == w.answers + {(g, principal, x.line)}
                 && (id in w'.attempts <==> x.line == Deauthorized)
                 && (id in w'.attempts ==> w'.attempts[id] == Marking(principal, g))
               case Marking(_, g) =>
                 if x.stored && owner.generation == Some(g)
                 then id in w'.attempts && w'.attempts[id] == Finalizing(g, true) && w'.tables.owner.deauthorizedAt.Some?
                 else id !in w'.attempts && w'.tables == w.tables
               case Finalizing(g, _) =>
                 && id !in w'.attempts
                 && (w'.tables != w.tables ==> x.stored && owner.generation == Some(g) && owner.deauthorizedAt.Some?)
                 && (x.stored && owner.generation == Some(g) && owner.deauthorizedAt.Some? ==> w'.tables.owner.state == Vacant)
               case _ => true
  {
    hide RecipientsOf, ChannelsOf;
    assert Consistent(w.tables.owner);
  }

  /** A confirmed unlink begins exactly if the ticket is fresh and shows what there is, for the active owner. */
  lemma ConfirmsExactly(w: World, id: Id, x: Chance)
    requires SagaOk(w) && id in w.attempts && w.attempts[id].Confirming?
    ensures var p, w' := w.attempts[id], NextAct(w, id, x);
            && (id in w'.attempts <==>
                  && x.stored && Begins(w, Act(id, x), x.freshGeneration))
            && (id in w'.attempts ==>
                  && w'.attempts[id] == Deauthorizing(p.principal, x.freshGeneration)
                  && w'.tables == w.tables.(owner := Owner(DeauthorizationPending, Some(p.principal), Some(x.freshGeneration), None)))
            && (id !in w'.attempts ==> w'.tables == w.tables)
  {
    hide RecipientsOf, ChannelsOf;
    var p := w.attempts[id];
    assert AttemptOk(w, id) && Consistent(w.tables.owner);
    SnapshotsShow(w.tables, p.principal);
    if Begins(w, Act(id, x), x.freshGeneration) {
      assert p.ticket.snapshot.recipients == RecipientsOf(w.tables, p.principal);
      assert p.ticket.snapshot.channels == ChannelsOf(w.tables, p.principal);
    }
  }

  // ---- Unlinks ----

  /** At this step an attempt begins the generation: its principal is the active owner and was proved by LINE, and its
      fresh ticket shows exactly what would be deleted now. */
  ghost predicate Begins(w: World, step: Step, g: Generation) {
    && step.Act? && step.id in w.attempts && w.attempts[step.id].Confirming? && step.id in w.verified
    && var p := w.attempts[step.id];
    && step.chance.freshGeneration == g
    && w.tables.owner.state == Active && w.tables.owner.identity == Some(p.principal)
    && p.ticket.issuedAt <= step.chance.now <= p.ticket.issuedAt + MAX_AGE
    && p.ticket.snapshot.identity == p.principal
    && p.principal in w.tables.identities && p.ticket.snapshot.name == w.tables.identities[p.principal].name
    && (forall r :: r in p.ticket.snapshot.recipients <==>
          r in w.tables.recipients && w.tables.recipients[r].identity == p.principal)
    && (forall c :: c in p.ticket.snapshot.channels <==>
          exists r :: r in w.tables.recipients && w.tables.recipients[r].identity == p.principal && w.tables.recipients[r].channel == c)
  }

  lemma SnapshotsShow(t: Tables, identity: Id)
    ensures forall r :: r in RecipientsOf(t, identity) <==> r in t.recipients && t.recipients[r].identity == identity
    ensures forall c :: c in ChannelsOf(t, identity) <==>
              exists r :: r in t.recipients && t.recipients[r].identity == identity && t.recipients[r].channel == c
  {
  }

  lemma UnlinksBeginAsShown(w: World, step: Step, g: Generation)
    requires SagaOk(w) && Admissible(w, step)
    requires w.tables.owner.generation != Some(g) && AccountUnlink.Next(w, step).tables.owner.generation == Some(g)
    ensures Begins(w, step, g)
  {
    hide TablesOk, RecipientsOf, ChannelsOf;
    if step.Account? {
      OwnerMovesOnlyByLogin(w.tables, step.call);
    } else {
      SnapshotsShow(w.tables, w.attempts[step.id].principal);
      assert AttemptOk(w, step.id);
    }
  }

  /** A pending unlink was begun by a step that showed the owner exactly what it deletes. */
  lemma {:induction false} PendingWasShown(steps: seq<Step>, g: Generation) returns (j: nat)
    requires AdmissibleRun(START, steps) && Run(START, steps).tables.owner.generation == Some(g)
    ensures j < |steps| && Begins(Run(START, steps[..j]), steps[j], g)
    ensures forall k :: j < k <= |steps| ==> Run(START, steps[..k]).tables.owner.generation == Some(g)
  {
    hide AccountUnlink.Next, Admissible, SagaOk, Begins;
    assert steps[..|steps|] == steps;
    if |steps| > 0 {
      var before := steps[..|steps| - 1];
      StartIsOk();
      PrefixIsAdmissible(START, steps, |steps| - 1);
      if Run(START, before).tables.owner.generation == Some(g) {
        j := PendingWasShown(before, g);
        forall k | j < k < |steps|
          ensures Run(START, steps[..k]).tables.owner.generation == Some(g)
        {
          assert before[..k] == steps[..k];
        }
        assert before[..j] == steps[..j];
      } else {
        LastIsAdmissible(START, steps);
        RunKeeps(START, before);
        UnlinksBeginAsShown(Run(START, before), steps[|steps| - 1], g);
        j := |steps| - 1;
      }
    }
  }

  // ---- Sessions ----

  /** The step deletes an identity. */
  ghost predicate Deletes(w: World, step: Step) {
    exists identity :: identity in w.tables.identities && identity !in AccountUnlink.Next(w, step).tables.identities
  }

  lemma DeletionEndsSessions(w: World, step: Step)
    requires SagaOk(w) && Admissible(w, step) && Deletes(w, step)
    ensures AccountUnlink.Next(w, step).tables.sessions == map[]
  {
    hide SagaOk, AccountUnlink.Next, Admissible;
    var identity :| identity in w.tables.identities && identity !in AccountUnlink.Next(w, step).tables.identities;
    DeletionWasConfirmed(w, step, identity);
  }

  /** A session is opened for a bound owner and ended alone, but for the end of the owner's identity. */
  lemma SessionsChangeAsAsked(t: Tables, call: Call, session: Id)
    requires TablesOk(t)
    ensures var rows, rows' := t.sessions, Accounts.Next(t, call).tables.sessions;
            && (session in rows' && (session !in rows || rows'[session] != rows[session]) ==>
                  && call.SessionCall? && call.session == session && rows'[session] == call.expires
                  && session !in rows && t.owner.identity.Some?)
            && (session in rows && session !in rows' ==>
                  || (call.EndSessionCall? && call.session == session)
                  || (call.FinalizeCall? && t.owner.deauthorizedAt.Some? && rows' == map[]))
            && (call.EndSessionCall? && call.session == session ==> session !in rows')
            && (call.SessionCall? && call.session == session && t.owner.identity.Some? ==> session in rows')
  {
  }

  /** The step opens the session, for a bound owner. */
  ghost predicate OpensSession(w: World, step: Step, session: Id) {
    step.Account? && step.call.SessionCall? && step.call.session == session && w.tables.owner.identity.Some?
  }

  lemma SessionsAreAsked(w: World, step: Step, session: Id)
    requires session !in w.tables.sessions && session in AccountUnlink.Next(w, step).tables.sessions
    ensures OpensSession(w, step, session)
  {
  }

  /** A session was opened for a bound owner, and no identity has been deleted since. */
  lemma {:induction false} SessionsAreOfThisOwner(steps: seq<Step>, session: Id) returns (j: nat)
    requires AdmissibleRun(START, steps) && session in Run(START, steps).tables.sessions
    ensures j < |steps| && OpensSession(Run(START, steps[..j]), steps[j], session)
    ensures forall k :: j <= k < |steps| ==> !Deletes(Run(START, steps[..k]), steps[k])
  {
    hide AccountUnlink.Next, Admissible, SagaOk, Deletes, OpensSession;
    assert steps[..|steps|] == steps;
    if |steps| > 0 {
      var before, last := steps[..|steps| - 1], steps[|steps| - 1];
      StartIsOk();
      PrefixIsAdmissible(START, steps, |steps| - 1);
      LastIsAdmissible(START, steps);
      RunKeeps(START, before);
      if Deletes(Run(START, before), last) {
        DeletionEndsSessions(Run(START, before), last);
      }
      if session in Run(START, before).tables.sessions {
        j := SessionsAreOfThisOwner(before, session);
        forall k | j <= k < |steps|
          ensures !Deletes(Run(START, steps[..k]), steps[k])
        {
          if k < |before| {
            assert before[..k] == steps[..k];
          }
        }
        assert before[..j] == steps[..j];
      } else {
        SessionsAreAsked(Run(START, before), last, session);
        j := |steps| - 1;
      }
    }
  }

  /** No session outlives its owner's identity: a vacant owner has none. */
  lemma VacantOwnersHaveNoSessions(steps: seq<Step>)
    requires AdmissibleRun(START, steps) && Run(START, steps).tables.owner.state == Vacant
    ensures Run(START, steps).tables.sessions == map[]
  {
    hide AccountUnlink.Next, Admissible, Run;
    StartIsOk();
    RunKeeps(START, steps);
  }
}
