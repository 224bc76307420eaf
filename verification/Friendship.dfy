/** The friendship projection of one recipient: the event with the greatest time and id wins. */
module Friendship {
  import opened Wrappers

  type Millis = nat
  /** A webhook event id, as its ASCII bytes. */
  type EventId = seq<nat>

  datatype State = Friend | NotFriend | Unknown

  datatype Stamp = Stamp(time: Millis, id: EventId)

  datatype Event = Event(stamp: Stamp, target: State)

  /** `registered` is the creation time of the recipient, rounded down to milliseconds. */
  datatype Projection = Projection(registered: Millis, state: State, last: Option<Stamp>)

  datatype Decision = Stale | Duplicate | StateMaintained | Applied

  // ---- The order of stamps ----

  /** Byte strings compare element by element, a proper prefix being the smaller one. */
  predicate BytesLess(a: EventId, b: EventId) {
    if |b| == 0 then false
    else if |a| == 0 then true
    else a[0] < b[0] || (a[0] == b[0] && BytesLess(a[1..], b[1..]))
  }

  predicate Earlier(a: Stamp, b: Stamp) {
    a.time < b.time || (a.time == b.time && BytesLess(a.id, b.id))
  }

  lemma {:induction false} BytesLessIsTotal(a: EventId, b: EventId)
    ensures a == b || BytesLess(a, b) || BytesLess(b, a)
    ensures BytesLess(a, b) ==> a != b && !BytesLess(b, a)
  {
    if |a| > 0 && |b| > 0 && a[0] == b[0] {
      BytesLessIsTotal(a[1..], b[1..]);
      assert a == [a[0]] + a[1..] && b == [b[0]] + b[1..];
    }
  }

  lemma {:induction false} BytesLessIsTransitive(a: EventId, b: EventId, c: EventId)
    requires BytesLess(a, b) && BytesLess(b, c)
    ensures BytesLess(a, c)
  {
    if |a| > 0 && a[0] == b[0] == c[0] {
      BytesLessIsTransitive(a[1..], b[1..], c[1..]);
    }
  }

  lemma EarlierIsTotal(a: Stamp, b: Stamp)
    ensures a == b || Earlier(a, b) || Earlier(b, a)
    ensures Earlier(a, b) ==> a != b && !Earlier(b, a)
  {
    BytesLessIsTotal(a.id, b.id);
  }

  lemma EarlierIsTransitive(a: Stamp, b: Stamp, c: Stamp)
    requires Earlier(a, b) && Earlier(b, c)
    ensures Earlier(a, c)
  {
    if a.time == b.time == c.time {
      BytesLessIsTransitive(a.id, b.id, c.id);
    }
  }

  // ---- Handling events ----

  function Decide(p: Projection, e: Event): Decision {
    if e.stamp.time <= p.registered then Stale
    else if p.last.Some? && p.last.value.id == e.stamp.id then Duplicate
    else if p.last.Some? && (e.stamp == p.last.value || Earlier(e.stamp, p.last.value)) then Stale
    else if p.state == e.target then StateMaintained
    else Applied
  }

  function ApplyLocked(p: Projection, e: Event): Projection {
    p.(state := e.target, last := Some(e.stamp))
  }

  function Handle(p: Projection, e: Event): Projection {
    if Decide(p, e) == Applied || Decide(p, e) == StateMaintained then ApplyLocked(p, e) else p
  }

  function HandleAll(p: Projection, events: seq<Event>): Projection
    decreases |events|
  {
    if |events| == 0 then p else HandleAll(Handle(p, events[0]), events[1..])
  }

  // ---- The result depends on the set of events only ----

  /** After registration, and after the last event the projection holds. */
  predicate Newer(p: Projection, e: Event) {
    e.stamp.time > p.registered && (p.last.Some? ==> Earlier(p.last.value, e.stamp))
  }

  /** A newer event is dropped only by the duplicate check, when it reuses the id already held. */
  lemma HandleTakesTheNewer(p: Projection, e: Event)
    ensures Handle(p, e) == (if Newer(p, e) then ApplyLocked(p, e) else p)
            <==> !(Newer(p, e) && p.last.Some? && p.last.value.id == e.stamp.id)
  {
    if p.last.Some? {
      EarlierIsTotal(p.last.value, e.stamp);
    }
  }

  /** Each decision, exactly: what is not after the registration is stale, then what reuses the id held is a duplicate,
      then what is not newer is stale, and a newer event is applied or finds its state already there. */
  lemma DecidesExactly(p: Projection, e: Event)
    ensures Decide(p, e) == Applied <==> Newer(p, e) && !Held(p, e) && p.state != e.target
    ensures Decide(p, e) == StateMaintained <==> Newer(p, e) && !Held(p, e) && p.state == e.target
    ensures Decide(p, e) == Duplicate <==> e.stamp.time > p.registered && Held(p, e)
    ensures Decide(p, e) == Stale <==> e.stamp.time <= p.registered || (!Held(p, e) && !Newer(p, e))
  {
    if p.last.Some? {
      EarlierIsTotal(p.last.value, e.stamp);
    }
  }

  // ---- When the order of events does not matter ----

  /** The same events, in any order and with any repeats. */
  ghost predicate SameEvents(xs: seq<Event>, ys: seq<Event>) {
    forall e :: e in xs <==> e in ys
  }

  /** Every delivery of these events ends in the same projection. */
  ghost predicate Converges(p: Projection, xs: seq<Event>) {
    forall ys {:trigger HandleAll(p, ys)} :: SameEvents(xs, ys) ==> HandleAll(p, ys) == HandleAll(p, xs)
  }

  predicate Held(p: Projection, e: Event) {
    p.last.Some? && p.last.value.id == e.stamp.id
  }

  /** No newer event has a greater stamp. */
  predicate Greatest(p: Projection, events: seq<Event>, m: Event) {
    m in events && Newer(p, m) && forall e :: e in events && Newer(p, e) ==> e.stamp == m.stamp || Earlier(e.stamp, m.stamp)
  }

  /** No other newer event, and not the event held, has the id of this one. */
  predicate Unrivalled(p: Projection, events: seq<Event>, m: Event) {
    !Held(p, m) && forall e :: e in events && Newer(p, e) && e.stamp.id == m.stamp.id ==> e == m
  }

  /** Every newer event reuses the id held, or the greatest one shares its id with nothing. */
  predicate Settled(p: Projection, events: seq<Event>) {
    || (forall e :: e in events && Newer(p, e) ==> Held(p, e))
    || exists m :: m in events && Greatest(p, events, m) && Unrivalled(p, events, m)
  }

  lemma NewerStays(p: Projection, first: Event, m: Event)
    requires Newer(p, first) && Newer(ApplyLocked(p, first), m)
    ensures Newer(p, m)
  {
    if p.last.Some? {
      EarlierIsTransitive(p.last.value, first.stamp, m.stamp);
    }
  }

  lemma {:induction false} GreatestExists(p: Projection, events: seq<Event>) returns (m: Event)
    requires exists e :: e in events && Newer(p, e)
    ensures Greatest(p, events, m)
  {
    var first, rest := events[0], events[1..];
    assert events == [first] + rest;
    if exists e :: e in rest && Newer(p, e) {
      m := GreatestExists(p, rest);
      if Newer(p, first) {
        EarlierIsTotal(first.stamp, m.stamp);
        if Earlier(m.stamp, first.stamp) {
          forall e | e in rest && Newer(p, e)
            ensures Earlier(e.stamp, first.stamp)
          {
            if e.stamp != m.stamp {
              EarlierIsTransitive(e.stamp, m.stamp, first.stamp);
            }
          }
          m := first;
        }
      }
    } else {
      m := first;
    }
  }

  /** Events that all reuse the id held, or come too late, change nothing. */
  lemma {:induction false} NothingToTake(p: Projection, ys: seq<Event>)
    requires forall e :: e in ys && Newer(p, e) ==> Held(p, e)
    ensures HandleAll(p, ys) == p
    decreases |ys|
  {
    if |ys| > 0 {
      assert ys == [ys[0]] + ys[1..];
      assert ys[0] in ys;
      if p.last.Some? {
        EarlierIsTotal(p.last.value, ys[0].stamp);
      }
      NothingToTake(p, ys[1..]);
    }
  }

  lemma NothingAfterTheGreatest(p: Projection, m: Event, ys: seq<Event>)
    requires forall e :: e in ys && Newer(p, e) ==> e.stamp == m.stamp || Earlier(e.stamp, m.stamp)
    requires Newer(p, m)
    ensures HandleAll(ApplyLocked(p, m), ys) == ApplyLocked(p, m)
  {
    forall e | e in ys
      ensures !Newer(ApplyLocked(p, m), e)
    {
      if Newer(ApplyLocked(p, m), e) {
        NewerStays(p, m, e);
        EarlierIsTotal(e.stamp, m.stamp);
      }
    }
    NothingToTake(ApplyLocked(p, m), ys);
  }

  /** An unrivalled greatest event is taken wherever it comes, and stays. */
  lemma {:induction false} EndsAtTheGreatest(p: Projection, ys: seq<Event>, m: Event)
    requires Greatest(p, ys, m) && Unrivalled(p, ys, m)
    ensures HandleAll(p, ys) == ApplyLocked(p, m)
    decreases |ys|
  {
    var first, rest := ys[0], ys[1..];
    assert ys == [first] + rest;
    HandleTakesTheNewer(p, first);
    if first == m {
      NothingAfterTheGreatest(p, m, rest);
    } else if Handle(p, first) == p {
      EndsAtTheGreatest(p, rest, m);
    } else {
      assert Newer(p, first) && Handle(p, first) == ApplyLocked(p, first);
      forall e | e in rest && Newer(Handle(p, first), e)
        ensures Newer(p, e)
      {
        NewerStays(p, first, e);
      }
      EndsAtTheGreatest(Handle(p, first), rest, m);
    }
  }

  /** The projection is the one at the start or that of an event handled. */
  lemma {:induction false} EndsSomewhere(p: Projection, ys: seq<Event>)
    ensures HandleAll(p, ys) == p || exists e :: e in ys && HandleAll(p, ys) == ApplyLocked(p, e)
    decreases |ys|
  {
    if |ys| > 0 {
      assert ys == [ys[0]] + ys[1..];
      EndsSomewhere(Handle(p, ys[0]), ys[1..]);
    }
  }

  /** The events other than `m`. */
  function Without(ys: seq<Event>, m: Event): (others: seq<Event>)
    ensures forall e :: e in others <==> e in ys && e != m
    decreases |ys|
  {
    if |ys| == 0 then []
    else
      assert ys == [ys[0]] + ys[1..];
      (if ys[0] == m then [] else [ys[0]]) + Without(ys[1..], m)
  }

  /** Handling one more event first. */
  lemma HandleFirst(p: Projection, e: Event, ys: seq<Event>)
    ensures HandleAll(p, [e] + ys) == HandleAll(Handle(p, e), ys)
  {
    assert ([e] + ys)[1..] == ys;
  }

  /** Without `m` among them, events never end at `m`. */
  lemma OthersEndElsewhere(p: Projection, q: Projection, ys: seq<Event>, m: Event)
    requires m !in ys && q != ApplyLocked(p, m) && q.registered == p.registered
    ensures HandleAll(q, ys) != ApplyLocked(p, m)
  {
    EndsSomewhere(q, ys);
    if HandleAll(q, ys) != q {
      var e :| e in ys && HandleAll(q, ys) == ApplyLocked(q, e);
      assert e == Event(e.stamp, e.target) && m == Event(m.stamp, m.target);
    }
  }

  lemma TwoEndsDiverge(p: Projection, xs: seq<Event>, a: seq<Event>, b: seq<Event>)
    requires SameEvents(xs, a) && SameEvents(xs, b) && HandleAll(p, a) != HandleAll(p, b)
    ensures !Converges(p, xs)
  {
  }

  /** A rival taken first drops the greatest event; the other order ends there. */
  lemma RivalsDiverge(p: Projection, xs: seq<Event>, m: Event, x: Event)
    requires Greatest(p, xs, m) && !Held(p, m)
    requires x in xs && x != m && Newer(p, x) && x.stamp.id == m.stamp.id
    ensures !Converges(p, xs)
  {
    hide HandleAll, Greatest;
    var others := Without(xs, m);
    HandleTakesTheNewer(p, m);
    HandleTakesTheNewer(p, x);
    GreatestIsNewer(p, xs, m);
    HandleFirst(p, m, xs);
    NothingAfterTheGreatest(p, m, xs);
    HandleFirst(p, x, [m] + others);
    HandleFirst(ApplyLocked(p, x), m, others);
    OthersEndElsewhere(p, ApplyLocked(p, x), others, m);
    TwoEndsDiverge(p, xs, [m] + xs, [x] + ([m] + others));
  }

  /** If the greatest event reuses the id held, it is dropped first and taken after another. */
  lemma HeldIdsDiverge(p: Projection, xs: seq<Event>, m: Event, x: Event)
    requires Greatest(p, xs, m) && Held(p, m)
    requires x in xs && Newer(p, x) && !Held(p, x)
    ensures !Converges(p, xs)
  {
    hide HandleAll, Greatest;
    var others := Without(xs, m);
    HandleTakesTheNewer(p, x);
    GreatestIsNewer(p, xs, m);
    HandleFirst(p, x, [m] + xs);
    HandleTakesTheNewer(ApplyLocked(p, x), m);
    HandleFirst(ApplyLocked(p, x), m, xs);
    NothingAfterTheGreatest(p, m, xs);
    HandleFirst(p, m, others);
    EarlierIsTotal(p.last.value, m.stamp);
    OthersEndElsewhere(p, p, others, m);
    TwoEndsDiverge(p, xs, [x] + ([m] + xs), [m] + others);
  }

  lemma GreatestIsNewer(p: Projection, xs: seq<Event>, m: Event)
    requires Greatest(p, xs, m)
    ensures m in xs && Newer(p, m)
    ensures forall e :: e in xs && Newer(p, e) ==> e.stamp == m.stamp || Earlier(e.stamp, m.stamp)
  {
  }

  /** Deliveries of the same events converge exactly when no reused id can drop the greatest one. */
  lemma ConvergesExactly(p: Projection, xs: seq<Event>)
    ensures Converges(p, xs) <==> Settled(p, xs)
  {
    if forall e :: e in xs && Newer(p, e) ==> Held(p, e) {
      forall ys | SameEvents(xs, ys)
        ensures HandleAll(p, ys) == p
      {
        NothingToTake(p, ys);
      }
      assert SameEvents(xs, xs);
    } else {
      var m := GreatestExists(p, xs);
      if Unrivalled(p, xs, m) {
        forall ys | SameEvents(xs, ys)
          ensures HandleAll(p, ys) == ApplyLocked(p, m)
        {
          EndsAtTheGreatest(p, ys, m);
        }
        assert SameEvents(xs, xs);
      } else {
        if Held(p, m) {
          var x :| x in xs && Newer(p, x) && !Held(p, x);
          HeldIdsDiverge(p, xs, m, x);
        } else {
          var x :| x in xs && Newer(p, x) && x.stamp.id == m.stamp.id && x != m;
          RivalsDiverge(p, xs, m, x);
        }
        GreatestIsOneStamp(p, xs, m);
      }
    }
  }

  /** Two greatest events have one stamp, so neither is unrivalled unless both are the same. */
  lemma GreatestIsOneStamp(p: Projection, xs: seq<Event>, m: Event)
    requires Greatest(p, xs, m) && !Unrivalled(p, xs, m)
    ensures forall n :: n in xs && Greatest(p, xs, n) ==> !Unrivalled(p, xs, n)
  {
    forall n | n in xs && Greatest(p, xs, n)
      ensures n.stamp == m.stamp
    {
      EarlierIsTotal(n.stamp, m.stamp);
    }
  }

  // ---- Ids that determine their events ----

  /** An event id determines its event, the one already held included. */
  predicate Coherent(p: Projection, events: seq<Event>) {
    && (forall a, b :: a in events && b in events && a.stamp.id == b.stamp.id ==> a == b)
    && (forall e :: e in events && Held(p, e) ==> e.stamp == p.last.value && e.target == p.state)
  }

  lemma CoherentIsSettled(p: Projection, events: seq<Event>)
    requires Coherent(p, events)
    ensures Settled(p, events)
  {
    if exists e :: e in events && Newer(p, e) {
      var m := GreatestExists(p, events);
      if Held(p, m) {
        EarlierIsTotal(m.stamp, m.stamp);
      }
      assert Unrivalled(p, events, m);
    }
  }

  /** Two deliveries of the same events, in any order and with any repeats, end in the same state. */
  lemma SameEventsConverge(p: Projection, xs: seq<Event>, ys: seq<Event>)
    requires Coherent(p, xs) && SameEvents(xs, ys)
    ensures HandleAll(p, xs) == HandleAll(p, ys)
  {
    CoherentIsSettled(p, xs);
    ConvergesExactly(p, xs);
  }

  /** Where they end: at the greatest newer event, or where they began if there is none. */
  lemma CoherentEndsAtTheGreatest(p: Projection, events: seq<Event>)
    requires Coherent(p, events)
    ensures if exists e :: e in events && Newer(p, e)
            then exists m :: Greatest(p, events, m) && HandleAll(p, events) == ApplyLocked(p, m)
            else HandleAll(p, events) == p
  {
    if exists e :: e in events && Newer(p, e) {
      var m := GreatestExists(p, events);
      if Held(p, m) {
        EarlierIsTotal(m.stamp, m.stamp);
      }
      EndsAtTheGreatest(p, events, m);
    } else {
      NothingToTake(p, events);
    }
  }

  /** Without coherence the order matters: a reused id is dropped wherever it comes second. */
  lemma ReusedIdsDiverge()
    ensures var p := Projection(0, Unknown, None);
            var a, b := Event(Stamp(1, [7]), Friend), Event(Stamp(2, [7]), NotFriend);
            HandleAll(p, [a, b]).state == Friend && HandleAll(p, [b, a]).state == NotFriend
  {
    var p := Projection(0, Unknown, None);
    var a, b := Event(Stamp(1, [7]), Friend), Event(Stamp(2, [7]), NotFriend);
    assert [a, b][1..] == [b] && [b, a][1..] == [a] && [a][1..] == [] && [b][1..] == [];
    assert HandleAll(Handle(p, a), [b]) == Handle(Handle(p, a), b);
    assert HandleAll(Handle(p, b), [a]) == Handle(Handle(p, b), a);
  }
}
