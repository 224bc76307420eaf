/**
 The unlink saga: any number of attempts, each a sequence of transactions and gateway calls, among
 logins, recipient changes and friendship events. An attempt may stop between any two of its steps.
 */
module AccountUnlink {
  import opened Wrappers
  import opened Accounts

  const MAX_AGE := 300

  /** A signed confirmation: the snapshot it fingerprints and when it was issued. */
  datatype Ticket = Ticket(snapshot: Snapshot, issuedAt: Time)

  datatype Phase =
    | Opened(principal: Id, offered: Option<Ticket>, access: bool)
    | Starting(principal: Id, ticket: Ticket)
    | Confirming(principal: Id, ticket: Ticket)
    | Resuming(principal: Id, generation: Generation)
    | Deauthorizing(principal: Id, generation: Generation)
    | Checking(principal: Id, generation: Generation)
    | Calling(principal: Id, generation: Generation)
    | Marking(principal: Id, generation: Generation)
    | Finalizing(generation: Generation, locked: bool)

  datatype LineAnswer = Deauthorized | NotDeauthorized | Uncertain | Unreachable

  /** What the outside answers while an attempt takes its next step. */
  datatype Chance = Chance(verified: bool, line: LineAnswer, stored: bool, freshGeneration: Generation, now: Time)

  /** `confirmed` records what the owner's ticket showed when a generation began, `verified` the attempts for
      which LINE proved the principal, `answers` everything LINE said when asked to deauthorize. */
  datatype World = World(
    tables: Tables,
    lock: Option<Id>,
    attempts: map<Id, Phase>,
    confirmed: map<Generation, Snapshot>,
    verified: set<Id>,
    answers: set<(Generation, Id, LineAnswer)>)

  datatype Step =
    | Account(call: Call)
    | Open(id: Id, principal: Id, ticket: Option<Ticket>, access: bool)
    | Act(id: Id, chance: Chance)
    | Crash(id: Id)

  predicate FreshTicket(t: Ticket, now: Time) {
    t.issuedAt <= now <= t.issuedAt + MAX_AGE
  }

  function Move(w: World, id: Id, phase: Phase): World {
    w.(attempts := w.attempts[id := phase])
  }

  /** An attempt that ends gives the execution lock back. */
  function End(w: World, id: Id): World {
    w.(attempts := w.attempts - {id}, lock := if w.lock == Some(id) then None else w.lock)
  }

  /** The request must have the shape its owner state asks for. */
  function Route(w: World, id: Id, p: Phase, now: Time): World
    requires p.Opened?
  {
    var owner := w.tables.owner;
    if owner.identity != Some(p.principal) then End(w, id)
    else
      match owner.state
      case Active =>
        if p.offered.Some? && p.access && FreshTicket(p.offered.value, now)
        then Move(w, id, Starting(p.principal, p.offered.value)) else End(w, id)
      case DeauthorizationPending =>
        if p.offered.None? && p.access && owner.generation.Some?
        then Move(w, id, Resuming(p.principal, owner.generation.value)) else End(w, id)
      case LocalDeletionPending =>
        if p.offered.None? && !p.access && owner.generation.Some?
        then Move(w, id, Finalizing(owner.generation.value, false)) else End(w, id)
      case Vacant => End(w, id)
  }

  /** Confirmation and begin, in one transaction. */
  function Begin(w: World, id: Id, p: Phase, x: Chance): World
    requires p.Confirming?
  {
    var snapped := SnapshotOf(w.tables).reply;
    if || w.tables.owner.identity != Some(p.principal)
       || w.tables.owner.state != Active
       || !snapped.Snapped?
       || !FreshTicket(p.ticket, x.now)
       || p.ticket.snapshot != snapped.snapshot
       || !x.stored
    then End(w, id)
    else
      Move(w, id, Deauthorizing(p.principal, x.freshGeneration))
        .(tables := BeginUnlink(w.tables, x.freshGeneration).tables,
          confirmed := w.confirmed[x.freshGeneration := p.ticket.snapshot])
  }

  function Verified(w: World, id: Id, x: Chance): World {
    if x.verified then w.(verified := w.verified + {id}) else w
  }

  function NextAct(w: World, id: Id, x: Chance): World
    requires id in w.attempts
  {
    var p := w.attempts[id];
    var owner := w.tables.owner;
    match p
    case Opened(_, _, _) => Route(w, id, p, x.now)
    case Starting(principal, ticket) =>
      var w' := Verified(w, id, x);
      if principal in w.tables.identities && x.verified then Move(w', id, Confirming(principal, ticket)) else End(w', id)
    case Confirming(_, _) => Begin(w, id, p, x)
    case Resuming(principal, g) =>
      var w' := Verified(w, id, x);
      if principal in w.tables.identities && x.verified then Move(w', id, Deauthorizing(principal, g)) else End(w', id)
    case Deauthorizing(principal, g) =>
      if w.lock.Some? then End(w, id) else Move(w, id, Checking(principal, g)).(lock := Some(id))
    case Checking(principal, g) =>
      if owner.generation != Some(g) then End(w, id)
      else if owner.state == LocalDeletionPending then Move(w, id, Finalizing(g, true))
      else if owner.state != DeauthorizationPending then End(w, id)
      else Move(w, id, Calling(principal, g))
    case Calling(principal, g) =>
      var w' := w.(answers := w.answers + {(g, principal, x.line)});
      if x.line == Deauthorized then Move(w', id, Marking(principal, g)) else End(w', id)
    case Marking(_, g) =>
      var marked := MarkDeauthorized(w.tables, g, x.now);
      if !x.stored || marked.reply != Done then End(w, id)
      else Move(w, id, Finalizing(g, true)).(tables := marked.tables)
    case Finalizing(g, _) =>
      if !x.stored || owner.state == Vacant then End(w, id)
      else End(w.(tables := FinalizeUnlink(w.tables, g).tables), id)
  }

  ghost function Next(w: World, step: Step): World {
    match step
    case Account(call) => w.(tables := Accounts.Next(w.tables, call).tables)
    case Open(id, principal, ticket, access) => Move(w, id, Opened(principal, ticket, access)).(verified := w.verified - {id})
    case Act(id, chance) => if id in w.attempts then NextAct(w, id, chance) else w
    case Crash(id) => End(w, id)
  }

  /** Attempts have their own ids, generations are never drawn twice, and only attempts move the saga. */
  predicate Admissible(w: World, step: Step) {
    match step
    case Account(call) => !call.BeginCall? && !call.MarkCall? && !call.FinalizeCall?
    case Open(id, _, _, _) => id !in w.attempts
    case Act(id, chance) => id in w.attempts && w.attempts[id].Confirming? ==> chance.freshGeneration !in w.confirmed
    case Crash(_) => true
  }

  // ---- What every step keeps ----

  /** Everything between the request and the finalization is done for a principal LINE has proved. */
  predicate NeedsProof(p: Phase) {
    p.Confirming? || p.Deauthorizing? || p.Checking? || p.Calling? || p.Marking?
  }

  /** The attempt works on behalf of the identity its generation was confirmed for. */
  predicate AttemptOk(w: World, id: Id)
    requires id in w.attempts
  {
    && (NeedsProof(w.attempts[id]) ==> id in w.verified)
    && match w.attempts[id]
       case Resuming(principal, g) => g in w.confirmed && w.confirmed[g].identity == principal
       case Deauthorizing(principal, g) => g in w.confirmed && w.confirmed[g].identity == principal
       case Checking(principal, g) => g in w.confirmed && w.confirmed[g].identity == principal && w.lock == Some(id)
       case Calling(principal, g) => g in w.confirmed && w.confirmed[g].identity == principal && w.lock == Some(id)
       case Marking(principal, g) =>
         && g in w.confirmed && w.confirmed[g].identity == principal && w.lock == Some(id)
         && (g, principal, Deauthorized) in w.answers
       case Finalizing(g, locked) => g in w.confirmed && (locked ==> w.lock == Some(id))
       case _ => true
  }

  /** A pending owner still has exactly what was confirmed, and waits for deletion only once LINE agreed. */
  ghost predicate PendingOk(w: World) {
    var owner := w.tables.owner;
    owner.generation.Some? ==>
      && owner.generation.value in w.confirmed
      && var shown := w.confirmed[owner.generation.value];
      && owner.identity == Some(shown.identity)
      && RecipientsOf(w.tables, shown.identity) == shown.recipients
      && (owner.state == LocalDeletionPending ==> (owner.generation.value, shown.identity, Deauthorized) in w.answers)
  }

  predicate HoldsLock(p: Phase) {
    p.Checking? || p.Calling? || p.Marking? || (p.Finalizing? && p.locked)
  }

  /** The lock is held by an attempt that is using it. */
  predicate LockOk(w: World) {
    w.lock.Some? ==> w.lock.value in w.attempts && HoldsLock(w.attempts[w.lock.value])
  }

  ghost predicate SagaOk(w: World) {
    && TablesOk(w.tables)
    && PendingOk(w)
    && LockOk(w)
    && (forall id {:trigger AttemptOk(w, id)} :: id in w.attempts ==> AttemptOk(w, id))
  }

  lemma OwnerMovesOnlyByLogin(t: Tables, call: Call)
    requires !call.BeginCall? && !call.MarkCall? && !call.FinalizeCall?
    ensures var owner := Accounts.Next(t, call).tables.owner;
            owner == t.owner || (t.owner.state == Vacant && owner == t.owner.(identity := owner.identity, state := Active))
  {
  }

  lemma AccountStepKeeps(w: World, call: Call)
    requires SagaOk(w) && Admissible(w, Account(call))
    ensures SagaOk(Next(w, Account(call)))
  {
    var w' := Next(w, Account(call));
    TablesStayOk(w.tables, call);
    if w.tables.owner.state != Active {
      PendingFreezesRecipients(w.tables, call);
    }
    OwnerMovesOnlyByLogin(w.tables, call);
    assert Consistent(w.tables.owner);
    forall id | id in w'.attempts ensures AttemptOk(w', id) { assert AttemptOk(w, id); }
  }

  /** Attempts other than the one that moves are as they were. */
  lemma OthersStay(w: World, w': World, id: Id)
    requires SagaOk(w) && w.confirmed.Keys <= w'.confirmed.Keys && w.answers <= w'.answers && w.verified <= w'.verified + {id}
    requires forall g :: g in w.confirmed ==> w'.confirmed[g] == w.confirmed[g]
    requires w'.attempts.Keys <= w.attempts.Keys + {id}
    requires forall x :: x in w'.attempts && x != id ==> w'.attempts[x] == w.attempts[x]
    requires w'.lock == w.lock || w.lock.None? || (w.lock == Some(id) && w'.lock.None?)
    ensures forall x :: x in w'.attempts && x != id ==> AttemptOk(w', x)
  {
    forall x | x in w'.attempts && x != id ensures AttemptOk(w', x) { assert AttemptOk(w, x); }
  }

  /** A step that leaves the tables and what was confirmed; the lock is taken or given back by the attempt itself. */
  lemma MovingKeeps(w: World, w': World, id: Id)
    requires SagaOk(w) && id in w.attempts && w'.tables == w.tables && w'.confirmed == w.confirmed
    requires w.answers <= w'.answers && w.verified <= w'.verified
    requires w'.attempts.Keys <= w.attempts.Keys
    requires forall x :: x in w'.attempts && x != id ==> w'.attempts[x] == w.attempts[x]
    requires forall x :: x in w.attempts && x != id ==> x in w'.attempts
    requires w'.lock == w.lock || w.lock.None? || (w.lock == Some(id) && w'.lock.None?)
    requires w'.lock == Some(id) || (w.lock.None? && w'.lock.Some?) ==> id in w'.attempts && HoldsLock(w'.attempts[id]) && w'.lock == Some(id)
    requires id in w'.attempts ==> AttemptOk(w', id)
    ensures SagaOk(w')
  {
    hide TablesOk, RecipientsOf, AttemptOk;
    OthersStay(w, w', id);
  }

  lemma AttemptIsOk(w: World, id: Id)
    requires SagaOk(w) && id in w.attempts
    ensures AttemptOk(w, id)
    ensures w.lock.Some? ==> w.lock.value in w.attempts && HoldsLock(w.attempts[w.lock.value])
    ensures w.tables.owner.generation.Some? ==> w.tables.owner.generation.value in w.confirmed
    ensures w.tables.owner.generation.Some? ==>
              w.tables.owner.identity == Some(w.confirmed[w.tables.owner.generation.value].identity)
  {
  }

  lemma OpenedKeeps(w: World, id: Id, x: Chance)
    requires SagaOk(w) && id in w.attempts && w.attempts[id].Opened?
    ensures SagaOk(NextAct(w, id, x))
  {
    hide SagaOk;
    AttemptIsOk(w, id);
    MovingKeeps(w, NextAct(w, id, x), id);
  }

  lemma ProvingKeeps(w: World, id: Id, x: Chance)
    requires SagaOk(w) && id in w.attempts && (w.attempts[id].Starting? || w.attempts[id].Resuming?)
    ensures SagaOk(NextAct(w, id, x))
  {
    hide SagaOk;
    AttemptIsOk(w, id);
    MovingKeeps(w, NextAct(w, id, x), id);
  }

  lemma LockingKeeps(w: World, id: Id, x: Chance)
    requires SagaOk(w) && id in w.attempts && (w.attempts[id].Deauthorizing? || w.attempts[id].Checking? || w.attempts[id].Calling?)
    ensures SagaOk(NextAct(w, id, x))
  {
    hide SagaOk;
    AttemptIsOk(w, id);
    MovingKeeps(w, NextAct(w, id, x), id);
  }

  lemma BeginKeeps(w: World, id: Id, x: Chance)
    requires SagaOk(w) && Admissible(w, Act(id, x)) && id in w.attempts && w.attempts[id].Confirming?
    ensures SagaOk(NextAct(w, id, x))
  {
    assert AttemptOk(w, id);
    TablesStayOk(w.tables, BeginCall(x.freshGeneration));
    OthersStay(w, NextAct(w, id, x), id);
  }

  lemma MarkKeeps(w: World, id: Id, x: Chance)
    requires SagaOk(w) && id in w.attempts && w.attempts[id].Marking?
    ensures SagaOk(NextAct(w, id, x))
  {
    TablesStayOk(w.tables, MarkCall(w.attempts[id].generation, x.now));
    assert AttemptOk(w, id);
    OthersStay(w, NextAct(w, id, x), id);
  }

  lemma FinalizeKeeps(w: World, id: Id, x: Chance)
    requires SagaOk(w) && id in w.attempts && w.attempts[id].Finalizing?
    ensures SagaOk(NextAct(w, id, x))
  {
    TablesStayOk(w.tables, FinalizeCall(w.attempts[id].generation));
    OthersStay(w, NextAct(w, id, x), id);
  }

  lemma ActKeeps(w: World, id: Id, x: Chance)
    requires SagaOk(w) && Admissible(w, Act(id, x)) && id in w.attempts
    ensures SagaOk(NextAct(w, id, x))
  {
    hide SagaOk, NextAct, Admissible;
    match w.attempts[id]
    case Confirming(_, _) => BeginKeeps(w, id, x);
    case Marking(_, _) => MarkKeeps(w, id, x);
    case Finalizing(_, _) => FinalizeKeeps(w, id, x);
    case Opened(_, _, _) => OpenedKeeps(w, id, x);
    case Starting(_, _) => ProvingKeeps(w, id, x);
    case Resuming(_, _) => ProvingKeeps(w, id, x);
    case _ => LockingKeeps(w, id, x);
  }

  lemma StepKeeps(w: World, step: Step)
    requires SagaOk(w) && Admissible(w, step)
    ensures SagaOk(Next(w, step))
  {
    match step
    case Account(call) => AccountStepKeeps(w, call);
    case Open(id, principal, ticket, access) => OthersStay(w, Next(w, step), id);
    case Act(id, chance) =>
      if id in w.attempts {
        ActKeeps(w, id, chance);
      }
    case Crash(id) => OthersStay(w, Next(w, step), id);
  }

  // ---- Runs ----

  const START := World(Tables(Owner(Vacant, None, None, None), map[], map[], map[]), None, map[], map[], {}, {})

  ghost function Run(w: World, steps: seq<Step>): World {
    if |steps| == 0 then w else Next(Run(w, steps[..|steps| - 1]), steps[|steps| - 1])
  }

  ghost predicate AdmissibleRun(w: World, steps: seq<Step>) {
    forall k :: 0 <= k < |steps| ==> Admissible(Run(w, steps[..k]), steps[k])
  }

  lemma {:induction false} RunKeeps(w: World, steps: seq<Step>)
    requires SagaOk(w) && AdmissibleRun(w, steps)
    ensures SagaOk(Run(w, steps))
  {
    hide SagaOk, Next, Admissible;
    if |steps| > 0 {
      var before := steps[..|steps| - 1];
      PrefixIsAdmissible(w, steps, |steps| - 1);
      RunKeeps(w, before);
      StepKeeps(Run(w, before), steps[|steps| - 1]);
    }
  }

  lemma PrefixIsAdmissible(w: World, steps: seq<Step>, n: nat)
    requires AdmissibleRun(w, steps) && n <= |steps|
    ensures AdmissibleRun(w, steps[..n])
  {
    forall k | 0 <= k < n
      ensures Admissible(Run(w, steps[..n][..k]), steps[..n][k])
    {
      assert steps[..n][..k] == steps[..k];
    }
  }

  /** The step that deletes an identity: what was true before it, and exactly what it removes. */
  lemma DeletionWasConfirmed(w: World, step: Step, identity: Id)
    requires SagaOk(w) && Admissible(w, step)
    requires identity in w.tables.identities && identity !in Next(w, step).tables.identities
    ensures var owner := w.tables.owner;
            && owner.state == LocalDeletionPending && owner.identity == Some(identity)
            && owner.generation.Some?
            && (owner.generation.value, identity, Deauthorized) in w.answers
            && owner.generation.value in w.confirmed && w.confirmed[owner.generation.value].identity == identity
            && Next(w, step).tables.recipients == w.tables.recipients - w.confirmed[owner.generation.value].recipients
            && w.confirmed[owner.generation.value].recipients <= w.tables.recipients.Keys
            && Next(w, step).tables.identities == w.tables.identities - {identity}
            && Next(w, step).tables.owner == Owner(Vacant, None, None, None)
            && Next(w, step).tables.sessions == map[]
  {
    hide TablesOk, Accounts.Next, NextAct, RecipientsOf, Accounts.FinalizeUnlink;
    if step.Account? {
      PendingFreezesIdentities(w.tables, step.call);
    } else {
      var g := OnlyFinalizingDeletes(w, step.id, step.chance, identity);
      FinalizationDeletes(w.tables, g, identity);
      RecipientsAreRows(w.tables, identity);
    }
  }

  lemma OnlyFinalizingDeletes(w: World, id: Id, x: Chance, identity: Id) returns (g: Generation)
    requires id in w.attempts && identity in w.tables.identities && identity !in NextAct(w, id, x).tables.identities
    ensures NextAct(w, id, x).tables == Accounts.FinalizeUnlink(w.tables, g).tables
  {
    hide Accounts.FinalizeUnlink, SnapshotOf;
    g := w.attempts[id].generation;
  }

  lemma FinalizationDeletes(t: Tables, g: Generation, identity: Id)
    requires identity in t.identities && identity !in Accounts.FinalizeUnlink(t, g).tables.identities
    ensures var t' := Accounts.FinalizeUnlink(t, g).tables;
            && t.owner.state == LocalDeletionPending && t.owner.identity == Some(identity) && t.owner.generation == Some(g)
            && t'.owner == Owner(Vacant, None, None, None) && t'.sessions == map[]
            && t'.identities == t.identities - {identity}
            && t'.recipients == t.recipients - RecipientsOf(t, identity)
  {
    hide RecipientsOf;
  }

  lemma RecipientsAreRows(t: Tables, identity: Id)
    ensures RecipientsOf(t, identity) <= t.recipients.Keys
  {
  }

  lemma PendingFreezesIdentities(t: Tables, call: Call)
    requires !call.FinalizeCall?
    ensures t.identities.Keys <= Accounts.Next(t, call).tables.identities.Keys
  {
  }

  /** Over any run: an identity disappears only after LINE confirmed its deauthorization in that very
      attempt, together with exactly the recipients the owner had confirmed. */
  lemma IdentitiesAreDeletedAsConfirmed(steps: seq<Step>, identity: Id)
    requires |steps| > 0 && AdmissibleRun(START, steps)
    requires identity in Run(START, steps[..|steps| - 1]).tables.identities
    requires identity !in Run(START, steps).tables.identities
    ensures var before, after := Run(START, steps[..|steps| - 1]), Run(START, steps);
            exists g :: g in before.confirmed && before.confirmed[g].identity == identity
                        && (g, identity, Deauthorized) in before.answers
                        && before.tables.owner.generation == Some(g)
                        && after.tables.recipients == before.tables.recipients - before.confirmed[g].recipients
                        && RecipientsOf(before.tables, identity) == before.confirmed[g].recipients
                        && after.tables.sessions == map[]
  {
    hide Next, Admissible, SagaOk, RecipientsOf;
    StartIsOk();
    PrefixIsAdmissible(START, steps, |steps| - 1);
    LastIsAdmissible(START, steps);
    RunKeeps(START, steps[..|steps| - 1]);
    DeletionWasConfirmed(Run(START, steps[..|steps| - 1]), steps[|steps| - 1], identity);
    PendingIsConfirmed(Run(START, steps[..|steps| - 1]));
  }

  lemma StartIsOk()
    ensures SagaOk(START)
  {
  }

  lemma LastIsAdmissible(w: World, steps: seq<Step>)
    requires |steps| > 0 && AdmissibleRun(w, steps)
    ensures Admissible(Run(w, steps[..|steps| - 1]), steps[|steps| - 1])
  {
    hide Run, Admissible;
  }

  lemma PendingIsConfirmed(w: World)
    requires SagaOk(w)
    ensures PendingOk(w) && TablesOk(w.tables)
  {
  }

  /** The owner row has one of its four variants in every reachable state. */
  lemma OwnerStaysConsistent(steps: seq<Step>)
    requires AdmissibleRun(START, steps)
    ensures Consistent(Run(START, steps).tables.owner)
  {
    hide Next, Admissible;
    RunKeeps(START, steps);
  }

  /** At most one attempt at a time is between taking and leaving the deauthorization. */
  lemma DeauthorizationIsExclusive(steps: seq<Step>, a: Id, b: Id)
    requires AdmissibleRun(START, steps)
    requires a in Run(START, steps).attempts && b in Run(START, steps).attempts
    requires Run(START, steps).attempts[a].Calling? || Run(START, steps).attempts[a].Marking?
    requires Run(START, steps).attempts[b].Calling? || Run(START, steps).attempts[b].Marking?
    ensures a == b
  {
    hide Next, Admissible;
    RunKeeps(START, steps);
    assert AttemptOk(Run(START, steps), a) && AttemptOk(Run(START, steps), b);
  }

  // ---- Stale finalizers ----

  /** The generation was used and is no longer the owner's. */
  predicate Retired(w: World, g: Generation) {
    g in w.confirmed && w.tables.owner.generation != Some(g)
  }

  lemma RetiredStays(w: World, step: Step, g: Generation)
    requires Retired(w, g) && Admissible(w, step)
    ensures Retired(Next(w, step), g)
  {
  }

  lemma {:induction false} RetiredForever(w: World, steps: seq<Step>, g: Generation)
    requires Retired(w, g) && AdmissibleRun(w, steps)
    ensures Retired(Run(w, steps), g)
  {
    hide Retired, Next, Admissible;
    if |steps| > 0 {
      PrefixIsAdmissible(w, steps, |steps| - 1);
      RetiredForever(w, steps[..|steps| - 1], g);
      RetiredStays(Run(w, steps[..|steps| - 1]), steps[|steps| - 1], g);
    }
  }

  lemma RetiredFinalizerDoesNothing(w: World, id: Id, x: Chance)
    requires id in w.attempts && w.attempts[id].Finalizing? && Retired(w, w.attempts[id].generation)
    ensures Next(w, Act(id, x)).tables == w.tables
  {
  }

  /** Once a generation is over, no finalizer left from it changes anything, whoever has logged in since. */
  lemma StaleFinalizersDoNothing(w: World, steps: seq<Step>, g: Generation)
    requires Retired(w, g) && AdmissibleRun(w, steps) && |steps| > 0 && steps[|steps| - 1].Act?
    requires var before := Run(w, steps[..|steps| - 1]); var id := steps[|steps| - 1].id;
             id in before.attempts && before.attempts[id].Finalizing? && before.attempts[id].generation == g
    ensures Run(w, steps).tables == Run(w, steps[..|steps| - 1]).tables
  {
    hide Admissible, Next, Retired;
    PrefixIsAdmissible(w, steps, |steps| - 1);
    RetiredForever(w, steps[..|steps| - 1], g);
    RetiredFinalizerDoesNothing(Run(w, steps[..|steps| - 1]), steps[|steps| - 1].id, steps[|steps| - 1].chance);
  }

  /** A finalizer of the current generation retires it. */
  lemma FinalizationRetires(w: World, id: Id, x: Chance)
    requires SagaOk(w) && id in w.attempts && w.attempts[id].Finalizing?
    ensures var w' := NextAct(w, id, x);
            if x.stored && w.tables.owner.generation == Some(w.attempts[id].generation) && w.tables.owner.state == LocalDeletionPending
            then Retired(w', w.attempts[id].generation) && w'.tables.owner.state == Vacant
            else w'.tables == w.tables
  {
    assert AttemptOk(w, id);
  }
}
