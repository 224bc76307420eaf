/**
 Re-encryption of every stored credential pair under the primary key: one pass that rotates, one
 that verifies, with faults in any transaction and other writers between any two of them.
 */
module Rotation {
  import opened Wrappers
  import opened Credentials

  type Rows = map<Id, Pair>

  datatype Code = CredentialMissing | CredentialUnreadable | VerificationFailed | Retryable | StorageUnavailable

  datatype Result = Verified | Rotated(pair: Pair) | Failed(code: Code)

  /** What another writer does between two transactions; it encrypts under the primary key. */
  datatype Write = Idle | Put(id: Id, token: string, secret: string) | Remove(id: Id)

  /** A database failure of a transaction, which then changes nothing. */
  type Fault = Option<Code>

  datatype Status = Complete | Incomplete | Busy | ConfigurationRequired

  datatype Summary =
    | Summary(status: Status, verified: nat, rotated: nat, failures: map<Id, Code>, oldKeysRemovable: bool)
    | Raised

  function Empty(status: Status): Summary {
    Summary(status, 0, 0, map[], false)
  }

  // ---- One row ----

  function Process(keys: seq<Key>, id: Id, p: Pair): Result
    requires Keyring(keys)
  {
    if ReadPair(keys[..1], id, p).Complete() then Verified
    else if !ReadPair(keys, id, p).Complete() then Failed(CredentialUnreadable)
    else
      var token, secret := Rotate(keys, id, AccessToken, p.token), Rotate(keys, id, ChannelSecret, p.secret);
      if token.None? || secret.None? then Failed(VerificationFailed)
      else
        var rotated := Pair(token.value, secret.value);
        if ReadPair(keys[..1], id, rotated) != ReadPair(keys, id, p) then Failed(VerificationFailed) else Rotated(rotated)
  }

  /** Verification never fails, and the result says exactly what could be read before. */
  lemma ProcessOutcomes(keys: seq<Key>, id: Id, p: Pair)
    requires Keyring(keys)
    ensures Process(keys, id, p) != Failed(VerificationFailed)
    ensures Process(keys, id, p).Verified? <==> ReadPair(keys[..1], id, p).Complete()
    ensures Process(keys, id, p).Failed? <==> !ReadPair(keys, id, p).Complete()
    ensures Process(keys, id, p).Rotated? ==>
              && ReadPair(keys[..1], id, Process(keys, id, p).pair) == ReadPair(keys, id, p)
              && ReadPair(keys, id, Process(keys, id, p).pair) == ReadPair(keys, id, p)
  {
    RotateKeepsThePlaintext(keys, id, AccessToken, p.token);
    RotateKeepsThePlaintext(keys, id, ChannelSecret, p.secret);
    if ReadPair(keys[..1], id, p).Complete() {
      PrimaryReadsLess(keys, id, p);
    }
  }

  // ---- Tables ----

  function WriteTo(keys: seq<Key>, rows: Rows, w: Write): Rows
    requires Keyring(keys)
  {
    match w
    case Idle => rows
    case Remove(id) => rows - {id}
    case Put(id, token, secret) =>
      if ValidValue(token) && ValidValue(secret)
      then rows[id := Pair(Encrypt(keys, id, AccessToken, token).value, Encrypt(keys, id, ChannelSecret, secret).value)]
      else rows
  }

  /** The table as the other writers alone leave it. */
  function Others(keys: seq<Key>, rows: Rows, writes: nat -> Write, from: nat, to: nat): Rows
    requires Keyring(keys)
  {
    if to <= from then rows else WriteTo(keys, Others(keys, rows, writes, from, to - 1), writes(to - 1))
  }

  ghost predicate SameReadings(keys: seq<Key>, a: Rows, b: Rows) {
    a.Keys == b.Keys && forall id :: id in a ==> ReadPair(keys, id, a[id]) == ReadPair(keys, id, b[id])
  }

  predicate PrimaryReadable(keys: seq<Key>, rows: Rows, id: Id)
    requires Keyring(keys)
  {
    id in rows ==> ReadPair(keys[..1], id, rows[id]).Complete()
  }

  ghost predicate AllPrimary(keys: seq<Key>, rows: Rows)
    requires Keyring(keys)
  {
    forall id :: PrimaryReadable(keys, rows, id)
  }

  /** Readable, but not under the primary key alone. */
  predicate NeedsTurn(keys: seq<Key>, rows: Rows, id: Id)
    requires Keyring(keys)
  {
    id in rows && ReadPair(keys, id, rows[id]).Complete() && !ReadPair(keys[..1], id, rows[id]).Complete()
  }

  predicate Unreadable(keys: seq<Key>, rows: Rows, id: Id) {
    id in rows && !ReadPair(keys, id, rows[id]).Complete()
  }

  /** No transaction fails and nobody else writes. */
  ghost predicate Undisturbed(faults: nat -> Fault, writes: nat -> Write) {
    forall k :: faults(k).None? && writes(k).Idle?
  }

  lemma WritesKeepSameReadings(keys: seq<Key>, a: Rows, b: Rows, w: Write)
    requires Keyring(keys) && SameReadings(keys, a, b)
    ensures SameReadings(keys, WriteTo(keys, a, w), WriteTo(keys, b, w))
  {
  }

  lemma WritesArePrimary(keys: seq<Key>, rows: Rows, w: Write, id: Id)
    requires Keyring(keys) && PrimaryReadable(keys, rows, id)
    ensures PrimaryReadable(keys, WriteTo(keys, rows, w), id)
  {
    if w.Put? && w.id == id && ValidValue(w.token) && ValidValue(w.secret) {
      assert keys[..1][0] == keys[0];
    }
  }

  predicate Distinct(ids: seq<Id>) {
    forall i, j :: 0 <= i < j < |ids| ==> ids[i] != ids[j]
  }

  // ---- The two passes ----

  /** The table and the counts while a pass is under way. */
  datatype Tally = Tally(rows: Rows, verified: nat, rotated: nat, failures: map<Id, Code>)

  function ProcessRow(keys: seq<Key>, rows: Rows, id: Id, fault: Fault): Result
    requires Keyring(keys)
  {
    if fault.Some? then Failed(fault.value)
    else if id !in rows then Failed(CredentialMissing)
    else Process(keys, id, rows[id])
  }

  function VerifyRow(keys: seq<Key>, rows: Rows, id: Id, fault: Fault): Fault
    requires Keyring(keys)
  {
    if fault.Some? then fault
    else if id !in rows then Some(CredentialMissing)
    else if ReadPair(keys[..1], id, rows[id]).Complete() then None
    else Some(CredentialUnreadable)
  }

  /** Why a row fails, in either pass: its transaction failed, it is gone, or it cannot be read under the keys in question. */
  lemma VerdictsExactly(keys: seq<Key>, rows: Rows, id: Id, fault: Fault)
    requires Keyring(keys)
    ensures var first, second := ProcessRow(keys, rows, id, fault), VerifyRow(keys, rows, id, fault);
            && (fault.Some? ==> first == Failed(fault.value) && second == fault)
            && (fault.None? ==>
                  && (first == Failed(CredentialMissing) <==> id !in rows)
                  && (first == Failed(CredentialUnreadable) <==> Unreadable(keys, rows, id))
                  && (first.Failed? ==> first.code == CredentialMissing || first.code == CredentialUnreadable)
                  && (second == Some(CredentialMissing) <==> id !in rows)
                  && (second == Some(CredentialUnreadable) <==> id in rows && !PrimaryReadable(keys, rows, id))
                  && (second.None? <==> id in rows && PrimaryReadable(keys, rows, id)))
  {
    if id in rows {
      ProcessOutcomes(keys, id, rows[id]);
    }
  }

  function Counted(t: Tally, id: Id, result: Result): Tally {
    match result
    case Verified => t.(verified := t.verified + 1)
    case Rotated(pair) => t.(rotated := t.rotated + 1, rows := t.rows[id := pair])
    case Failed(code) => t.(failures := t.failures[id := code])
  }

  /** One transaction of the first pass and the write that follows it. */
  function RotateStep(keys: seq<Key>, t: Tally, id: Id, fault: Fault, w: Write): Tally
    requires Keyring(keys)
  {
    var after := Counted(t, id, ProcessRow(keys, t.rows, id, fault));
    after.(rows := WriteTo(keys, after.rows, w))
  }

  /** The first `n` transactions of the first pass; transaction `k` is followed by write `k`. */
  function RotateFold(keys: seq<Key>, rows: Rows, ids: seq<Id>, faults: nat -> Fault, writes: nat -> Write, n: nat): Tally
    requires Keyring(keys) && n <= |ids|
  {
    if n == 0 then Tally(rows, 0, 0, map[])
    else RotateStep(keys, RotateFold(keys, rows, ids, faults, writes, n - 1), ids[n - 1], faults(n - 1), writes(n - 1))
  }

  /** The second pass continues the numbering of faults and writes at `from`. */
  function VerifyFold(keys: seq<Key>, t: Tally, ids: seq<Id>, faults: nat -> Fault, writes: nat -> Write, from: nat, n: nat): Tally
    requires Keyring(keys) && n <= |ids|
  {
    if n == 0 then t
    else
      var before := VerifyFold(keys, t, ids, faults, writes, from, n - 1);
      var id := ids[n - 1];
      var failure := VerifyRow(keys, before.rows, id, faults(from + n - 1));
      before.(
        rows := WriteTo(keys, before.rows, writes(from + n - 1)),
        failures := if failure.Some? && id !in before.failures then before.failures[id := failure.value] else before.failures)
  }

  /** Rotating a row changes how it is sealed, never what it says. */
  lemma RowKeepsReadings(keys: seq<Key>, t: Tally, id: Id, fault: Fault)
    requires Keyring(keys)
    ensures SameReadings(keys, t.rows, Counted(t, id, ProcessRow(keys, t.rows, id, fault)).rows)
    ensures forall x :: PrimaryReadable(keys, t.rows, x) ==>
              PrimaryReadable(keys, Counted(t, id, ProcessRow(keys, t.rows, id, fault)).rows, x)
  {
    if id in t.rows {
      ProcessOutcomes(keys, id, t.rows[id]);
    }
  }

  lemma {:induction false} RotationKeepsReadings(
    keys: seq<Key>, rows: Rows, ids: seq<Id>, faults: nat -> Fault, writes: nat -> Write, n: nat)
    requires Keyring(keys) && n <= |ids|
    ensures SameReadings(keys, RotateFold(keys, rows, ids, faults, writes, n).rows, Others(keys, rows, writes, 0, n))
  {
    hide SameReadings, ProcessRow, WriteTo, Counted;
    if n == 0 {
      SameReadingsItself(keys, rows);
    } else {
      var before := RotateFold(keys, rows, ids, faults, writes, n - 1);
      RotationKeepsReadings(keys, rows, ids, faults, writes, n - 1);
      RowKeepsReadings(keys, before, ids[n - 1], faults(n - 1));
      var after := Counted(before, ids[n - 1], ProcessRow(keys, before.rows, ids[n - 1], faults(n - 1))).rows;
      SameReadingsTurned(keys, before.rows, after);
      SameReadingsCompose(keys, after, before.rows, Others(keys, rows, writes, 0, n - 1));
      WritesKeepSameReadings(keys, after, Others(keys, rows, writes, 0, n - 1), writes(n - 1));
    }
  }

  /** Verified, rotated and failed rows add up to the rows listed. */
  lemma {:induction false} RotationCounts(
    keys: seq<Key>, rows: Rows, ids: seq<Id>, faults: nat -> Fault, writes: nat -> Write, n: nat)
    requires Keyring(keys) && n <= |ids| && Distinct(ids)
    ensures var t := RotateFold(keys, rows, ids, faults, writes, n);
            t.verified + t.rotated + |t.failures| == n && forall id :: id in t.failures ==> id in ids[..n]
  {
    hide ProcessRow, WriteTo;
    if n > 0 {
      RotationCounts(keys, rows, ids, faults, writes, n - 1);
      assert ids[..n] == ids[..n - 1] + [ids[n - 1]];
    }
  }

  /** Where everything already opens under the primary key, there is nothing to rotate. */
  lemma {:induction false} NothingLeftToRotate(
    keys: seq<Key>, rows: Rows, ids: seq<Id>, faults: nat -> Fault, writes: nat -> Write, n: nat)
    requires Keyring(keys) && n <= |ids| && AllPrimary(keys, rows)
    ensures var t := RotateFold(keys, rows, ids, faults, writes, n); AllPrimary(keys, t.rows) && t.rotated == 0
  {
    if n > 0 {
      NothingLeftToRotate(keys, rows, ids, faults, writes, n - 1);
      var before := RotateFold(keys, rows, ids, faults, writes, n - 1).rows;
      assert PrimaryReadable(keys, before, ids[n - 1]);
      var after := WriteTo(keys, before, writes(n - 1));
      forall id
        ensures PrimaryReadable(keys, after, id)
      {
        assert PrimaryReadable(keys, before, id);
        WritesArePrimary(keys, before, writes(n - 1), id);
      }
    }
  }

  lemma {:induction false} VerificationKeepsReadings(
    keys: seq<Key>, t: Tally, ids: seq<Id>, faults: nat -> Fault, writes: nat -> Write, from: nat, n: nat)
    requires Keyring(keys) && n <= |ids|
    ensures SameReadings(keys, VerifyFold(keys, t, ids, faults, writes, from, n).rows, Others(keys, t.rows, writes, from, from + n))
  {
    hide SameReadings, VerifyRow, WriteTo;
    if n == 0 {
      SameReadingsItself(keys, t.rows);
    } else {
      VerificationKeepsReadings(keys, t, ids, faults, writes, from, n - 1);
      WritesKeepSameReadings(keys, VerifyFold(keys, t, ids, faults, writes, from, n - 1).rows,
                             Others(keys, t.rows, writes, from, from + n - 1), writes(from + n - 1));
    }
  }

  /** Rows outside the rest of the list open under the primary key, as long as nothing has failed. */
  lemma {:induction false} VerifiedRowsArePrimary(
    keys: seq<Key>, t: Tally, ids: seq<Id>, faults: nat -> Fault, writes: nat -> Write, from: nat, n: nat, id: Id)
    requires Keyring(keys) && n <= |ids| && (forall x :: x in t.rows ==> x in ids)
    requires VerifyFold(keys, t, ids, faults, writes, from, n).failures == map[]
    ensures id !in ids[n..] ==> PrimaryReadable(keys, VerifyFold(keys, t, ids, faults, writes, from, n).rows, id)
  {
    hide ReadPair, WriteTo;
    if n > 0 && id !in ids[n..] {
      var before := VerifyFold(keys, t, ids, faults, writes, from, n - 1);
      assert ids[n - 1..] == [ids[n - 1]] + ids[n..];
      assert before.failures == map[];
      if id != ids[n - 1] {
        VerifiedRowsArePrimary(keys, t, ids, faults, writes, from, n - 1, id);
      }
      WritesArePrimary(keys, before.rows, writes(from + n - 1), id);
    }
  }

  lemma {:induction false} VerificationAddsFailures(
    keys: seq<Key>, t: Tally, ids: seq<Id>, faults: nat -> Fault, writes: nat -> Write, from: nat, n: nat)
    requires Keyring(keys) && n <= |ids|
    ensures var t' := VerifyFold(keys, t, ids, faults, writes, from, n);
            && t'.verified == t.verified && t'.rotated == t.rotated
            && forall id :: id in t.failures ==> id in t'.failures && t'.failures[id] == t.failures[id]
  {
    hide VerifyRow, WriteTo;
    if n > 0 {
      VerificationAddsFailures(keys, t, ids, faults, writes, from, n - 1);
    }
  }

  /** If the call reports that old keys are removable, every stored pair opens under the primary key alone,
      to exactly what its writers last stored. */
  lemma RemovableMeansPrimary(keys: seq<Key>, rows: Rows, ids: seq<Id>, again: seq<Id>, faults: nat -> Fault,
                              writes: nat -> Write, id: Id)
    requires Keyring(keys)
    requires forall x :: x in RotateFold(keys, rows, ids, faults, writes, |ids|).rows ==> x in again
    requires VerifyFold(keys, RotateFold(keys, rows, ids, faults, writes, |ids|), again, faults, writes, |ids|, |again|).failures == map[]
    ensures var after := VerifyFold(keys, RotateFold(keys, rows, ids, faults, writes, |ids|), again, faults, writes, |ids|, |again|).rows;
            var others := Others(keys, rows, writes, 0, |ids| + |again|);
            && (id in after <==> id in others)
            && (id in after ==> ReadPair(keys[..1], id, after[id]) == ReadPair(keys, id, others[id])
                                && ReadPair(keys[..1], id, after[id]).Complete())
  {
    hide RotateFold, VerifyFold, Others;
    var t := RotateFold(keys, rows, ids, faults, writes, |ids|);
    var after := VerifyFold(keys, t, again, faults, writes, |ids|, |again|).rows;
    assert again[|again|..] == [];
    VerifiedRowsArePrimary(keys, t, again, faults, writes, |ids|, |again|, id);
    BothPassesKeepReadings(keys, rows, ids, again, faults, writes);
    if id in after {
      PrimaryReadsLess(keys, id, after[id]);
    }
  }

  /** On any outcome, the rotation is invisible to whoever reads with the whole keyring. */
  lemma BothPassesKeepReadings(keys: seq<Key>, rows: Rows, ids: seq<Id>, again: seq<Id>, faults: nat -> Fault, writes: nat -> Write)
    requires Keyring(keys)
    ensures SameReadings(
              keys, VerifyFold(keys, RotateFold(keys, rows, ids, faults, writes, |ids|), again, faults, writes, |ids|, |again|).rows,
              Others(keys, rows, writes, 0, |ids| + |again|))
  {
    hide SameReadings, RotateFold, VerifyFold, Others;
    var t := RotateFold(keys, rows, ids, faults, writes, |ids|);
    RotationKeepsReadings(keys, rows, ids, faults, writes, |ids|);
    VerificationKeepsReadings(keys, t, again, faults, writes, |ids|, |again|);
    OthersContinue(keys, rows, t.rows, writes, |ids|, |ids| + |again|);
    SameReadingsCompose(keys, VerifyFold(keys, t, again, faults, writes, |ids|, |again|).rows,
                        Others(keys, t.rows, writes, |ids|, |ids| + |again|), Others(keys, rows, writes, 0, |ids| + |again|));
  }

  // ---- An undisturbed pass ----

  /** Of the first `n` listed rows, those that have to be rotated. */
  ghost function Turning(keys: seq<Key>, rows: Rows, ids: seq<Id>): set<Id>
    requires Keyring(keys)
  {
    set id | id in ids && NeedsTurn(keys, rows, id)
  }

  ghost function Broken(keys: seq<Key>, rows: Rows, ids: seq<Id>): set<Id> {
    set id | id in ids && (id !in rows || Unreadable(keys, rows, id))
  }

  /** What an undisturbed pass over the listed rows leaves. */
  ghost predicate Turned(keys: seq<Key>, rows: Rows, looked: seq<Id>, t: Tally)
    requires Keyring(keys)
  {
    && t.rows.Keys == rows.Keys
    && (forall id :: id in rows && id !in looked ==> t.rows[id] == rows[id])
    && t.failures.Keys == Broken(keys, rows, looked)
    && t.rotated == |Turning(keys, rows, looked)|
    && (forall id :: id in looked && id !in t.failures ==> PrimaryReadable(keys, t.rows, id))
  }

  lemma ListedOneMore(keys: seq<Key>, rows: Rows, looked: seq<Id>, id: Id)
    requires Keyring(keys)
    ensures Turning(keys, rows, looked + [id]) == Turning(keys, rows, looked) + if NeedsTurn(keys, rows, id) then {id} else {}
    ensures Broken(keys, rows, looked + [id])
            == Broken(keys, rows, looked) + if id !in rows || Unreadable(keys, rows, id) then {id} else {}
    ensures id !in looked ==> id !in Turning(keys, rows, looked) && id !in Broken(keys, rows, looked)
  {
    hide NeedsTurn, Unreadable;
  }

  lemma OneRowOutcomes(keys: seq<Key>, rows: Rows, id: Id)
    requires Keyring(keys)
    ensures var result := ProcessRow(keys, rows, id, None);
            && (result.Failed? <==> id !in rows || Unreadable(keys, rows, id))
            && (result.Rotated? <==> NeedsTurn(keys, rows, id))
            && (result.Verified? ==> PrimaryReadable(keys, rows, id))
            && (result.Rotated? ==> PrimaryReadable(keys, rows[id := result.pair], id))
  {
    if id in rows {
      ProcessOutcomes(keys, id, rows[id]);
    }
  }

  /** One more row, of which the pass has not seen anything yet. */
  lemma TurnOneMore(keys: seq<Key>, rows: Rows, looked: seq<Id>, id: Id, t: Tally)
    requires Keyring(keys) && Turned(keys, rows, looked, t) && id !in looked
    ensures Turned(keys, rows, looked + [id], RotateStep(keys, t, id, None, Idle))
  {
    hide ProcessRow, Turning, Broken, NeedsTurn, Unreadable, PrimaryReadable;
    OneRowOutcomes(keys, t.rows, id);
    SameRowSameVerdict(keys, rows, t.rows, id);
    ListedOneMore(keys, rows, looked, id);
    var t' := RotateStep(keys, t, id, None, Idle);
    assert t' == Counted(t, id, ProcessRow(keys, t.rows, id, None));
    forall x | x in looked && x !in t'.failures
      ensures PrimaryReadable(keys, t'.rows, x)
    {
      PrimaryByRow(keys, t.rows, t'.rows, x);
    }
  }

  lemma SameRowSameVerdict(keys: seq<Key>, a: Rows, b: Rows, id: Id)
    requires Keyring(keys) && (id in a <==> id in b) && (id in a ==> a[id] == b[id])
    ensures NeedsTurn(keys, a, id) == NeedsTurn(keys, b, id) && Unreadable(keys, a, id) == Unreadable(keys, b, id)
  {
  }

  lemma PrimaryByRow(keys: seq<Key>, a: Rows, b: Rows, id: Id)
    requires Keyring(keys) && (id in b ==> id in a && a[id] == b[id])
    ensures PrimaryReadable(keys, a, id) ==> PrimaryReadable(keys, b, id)
  {
  }

  /** Without faults and other writers the first pass rotates exactly what needs it and fails exactly what cannot be read. */
  lemma {:induction false} UndisturbedRotation(
    keys: seq<Key>, rows: Rows, ids: seq<Id>, faults: nat -> Fault, writes: nat -> Write, n: nat)
    requires Keyring(keys) && n <= |ids| && Distinct(ids) && Undisturbed(faults, writes)
    ensures Turned(keys, rows, ids[..n], RotateFold(keys, rows, ids, faults, writes, n))
  {
    hide RotateStep, ReadPair, NeedsTurn, Unreadable, PrimaryReadable;
    if n > 0 {
      var before := RotateFold(keys, rows, ids, faults, writes, n - 1);
      UndisturbedRotation(keys, rows, ids, faults, writes, n - 1);
      assert faults(n - 1).None? && writes(n - 1).Idle?;
      TurnOneMore(keys, rows, ids[..n - 1], ids[n - 1], before);
      assert ids[..n] == ids[..n - 1] + [ids[n - 1]];
    }
  }

  // ---- The service ----

  class CredentialRotationService {
    const keys: seq<Key>
    var rows: Rows

    constructor (keys: seq<Key>, rows: Rows)
      requires Keyring(keys)
      ensures this.keys == keys && this.rows == rows
    {
      this.keys := keys;
      this.rows := rows;
    }

    /** Every stored id, once; the order does not matter to what follows. */
    method ListIds() returns (ids: seq<Id>)
      ensures Distinct(ids) && forall id :: id in ids <==> id in rows
    {
      ids := [];
      var pending := rows.Keys;
      while pending != {}
        invariant Distinct(ids) && pending <= rows.Keys
        invariant forall id :: id in ids <==> id in rows && id !in pending
        decreases |pending|
      {
        var id :| id in pending;
        ids, pending := ids + [id], pending - {id};
      }
    }

    /** One row, in its own transaction. */
    method ProcessOne(id: Id, fault: Fault) returns (result: Result)
      requires Keyring(keys)
      modifies this
      ensures result == ProcessRow(keys, old(rows), id, fault)
      ensures rows == if result.Rotated? then old(rows)[id := result.pair] else old(rows)
    {
      if fault.Some? {
        return Failed(fault.value);
      }
      if id !in rows {
        return Failed(CredentialMissing);
      }
      result := Process(keys, id, rows[id]);
      if result.Rotated? {
        rows := rows[id := result.pair];
      }
    }

    /** Another writer's transaction. */
    method Interfere(w: Write)
      requires Keyring(keys)
      modifies this
      ensures rows == WriteTo(keys, old(rows), w)
    {
      match w {
        case Idle =>
        case Remove(id) => rows := rows - {id};
        case Put(id, token, secret) =>
          if ValidValue(token) && ValidValue(secret) {
            rows := rows[id := Pair(Encrypt(keys, id, AccessToken, token).value, Encrypt(keys, id, ChannelSecret, secret).value)];
          }
      }
    }

    method RotatePass(ids: seq<Id>, faults: nat -> Fault, writes: nat -> Write)
      returns (verified: nat, rotated: nat, failures: map<Id, Code>)
      requires Keyring(keys)
      modifies this
      ensures RotateFold(keys, old(rows), ids, faults, writes, |ids|) == Tally(rows, verified, rotated, failures)
    {
      verified, rotated, failures := 0, 0, map[];
      for k := 0 to |ids|
        invariant RotateFold(keys, old(rows), ids, faults, writes, k) == Tally(rows, verified, rotated, failures)
      {
        var result := ProcessOne(ids[k], faults(k));
        match result {
          case Verified => verified := verified + 1;
          case Rotated(_) => rotated := rotated + 1;
          case Failed(code) => failures := failures[ids[k] := code];
        }
        Interfere(writes(k));
      }
    }

    /** A row that already failed keeps its first failure. */
    method VerifyPass(ids: seq<Id>, verified: nat, rotated: nat, earlier: map<Id, Code>, faults: nat -> Fault,
                      writes: nat -> Write, from: nat) returns (failures: map<Id, Code>)
      requires Keyring(keys)
      modifies this
      ensures VerifyFold(keys, Tally(old(rows), verified, rotated, earlier), ids, faults, writes, from, |ids|)
              == Tally(rows, verified, rotated, failures)
    {
      hide VerifyRow, WriteTo;
      failures := earlier;
      for k := 0 to |ids|
        invariant VerifyFold(keys, Tally(old(rows), verified, rotated, earlier), ids, faults, writes, from, k)
                  == Tally(rows, verified, rotated, failures)
      {
        var failure := VerifyRow(keys, rows, ids[k], faults(from + k));
        if failure.Some? && ids[k] !in failures {
          failures := failures[ids[k] := failure.value];
        }
        Interfere(writes(from + k));
      }
    }

    /** The whole call. `locked` is the answer of the rotation lock, and a listing that fails raises. */
    method RotateAll(locked: bool, firstListed: bool, secondListed: bool, faults: nat -> Fault, writes: nat -> Write)
      returns (summary: Summary, ids: seq<Id>, again: seq<Id>)
      requires Keyring(keys)
      modifies this
      ensures |keys| <= 1 ==> summary == Empty(ConfigurationRequired) && rows == old(rows)
      ensures |keys| > 1 && !locked ==> summary == Empty(Busy) && rows == old(rows)
      ensures Distinct(ids)
      ensures |keys| > 1 && locked && firstListed ==> forall id :: id in ids <==> id in old(rows)
      ensures |keys| > 1 && locked ==>
                summary == if !firstListed || !secondListed then Raised
                           else
                             var t := VerifyFold(keys, RotateFold(keys, old(rows), ids, faults, writes, |ids|),
                                                 again, faults, writes, |ids|, |again|);
                             Summary(if t.failures == map[] then Complete else Incomplete,
                                     t.verified, t.rotated, t.failures, t.failures == map[])
      ensures SameReadings(keys, rows, Others(keys, old(rows), writes, 0, |ids| + |again|))
      ensures summary.Summary? && summary.oldKeysRemovable ==>
                AllPrimary(keys, rows)
      ensures AllPrimary(keys, old(rows)) && summary.Summary? ==> summary.rotated == 0
    {
      ids, again := [], [];
      SameReadingsItself(keys, rows);
      hide SameReadings, AllPrimary;
      if |keys| <= 1 {
        return Empty(ConfigurationRequired), [], [];
      }
      if !locked {
        return Empty(Busy), [], [];
      }
      if !firstListed {
        return Raised, [], [];
      }
      ids := ListIds();
      RotationKeepsReadings(keys, rows, ids, faults, writes, |ids|);
      ghost var start := rows;
      var verified, rotated, failures := RotatePass(ids, faults, writes);
      if AllPrimary(keys, start) {
        NothingLeftToRotate(keys, start, ids, faults, writes, |ids|);
      }
      if !secondListed {
        return Raised, ids, [];
      }
      again := ListIds();
      ghost var t := Tally(rows, verified, rotated, failures);
      BothPassesKeepReadings(keys, start, ids, again, faults, writes);
      VerificationAddsFailures(keys, t, again, faults, writes, |ids|, |again|);
      failures := VerifyPass(again, verified, rotated, failures, faults, writes, |ids|);
      var complete := failures == map[];
      if complete {
        CompleteIsPrimary(keys, t, again, faults, writes, |ids|);
      }
      summary := Summary(if complete then Complete else Incomplete, verified, rotated, failures, complete);
    }
  }

  lemma CompleteIsPrimary(keys: seq<Key>, t: Tally, ids: seq<Id>, faults: nat -> Fault, writes: nat -> Write, from: nat)
    requires Keyring(keys) && (forall x :: x in t.rows ==> x in ids)
    requires VerifyFold(keys, t, ids, faults, writes, from, |ids|).failures == map[]
    ensures AllPrimary(keys, VerifyFold(keys, t, ids, faults, writes, from, |ids|).rows)
  {
    assert ids[|ids|..] == [];
    forall id
      ensures PrimaryReadable(keys, VerifyFold(keys, t, ids, faults, writes, from, |ids|).rows, id)
    {
      VerifiedRowsArePrimary(keys, t, ids, faults, writes, from, |ids|, id);
    }
  }

  // ---- Readings compared ----

  lemma SameReadingsItself(keys: seq<Key>, a: Rows)
    ensures SameReadings(keys, a, a)
  {
  }

  lemma SameReadingsTurned(keys: seq<Key>, a: Rows, b: Rows)
    requires SameReadings(keys, a, b)
    ensures SameReadings(keys, b, a)
  {
  }

  lemma SameReadingsCompose(keys: seq<Key>, a: Rows, b: Rows, c: Rows)
    requires SameReadings(keys, a, b) && SameReadings(keys, b, c)
    ensures SameReadings(keys, a, c)
  {
  }

  lemma {:induction false} OthersContinue(keys: seq<Key>, start: Rows, between: Rows, writes: nat -> Write, n: nat, m: nat)
    requires Keyring(keys) && SameReadings(keys, between, Others(keys, start, writes, 0, n)) && n <= m
    ensures SameReadings(keys, Others(keys, between, writes, n, m), Others(keys, start, writes, 0, m))
  {
    if m > n {
      OthersContinue(keys, start, between, writes, n, m - 1);
      WritesKeepSameReadings(keys, Others(keys, between, writes, n, m - 1), Others(keys, start, writes, 0, m - 1),
                             writes(m - 1));
    }
  }
}
