/** The account repository as the program runs it, tied to the steps of the tables. */
module AccountRepository {
  import opened Wrappers
  import opened Accounts
  import F = Friendship

  class DjangoAccountRepository {
    var owner: Owner
    var identities: map<Id, Identity>
    var recipients: map<Id, Recipient>
    var sessions: map<Id, Time>

    function Contents(): Tables
      reads this
    {
      Tables(owner, identities, recipients, sessions)
    }

    ghost predicate Valid()
      reads this
    {
      TablesOk(Contents())
    }

    constructor ()
      ensures Valid() && Contents() == Tables(Owner(Vacant, None, None, None), map[], map[], map[])
    {
      owner := Owner(Vacant, None, None, None);
      identities, recipients, sessions := map[], map[], map[];
    }

    method UpsertIdentity(verified: Identity, freshId: Id) returns (reply: Reply)
      requires Valid()
      modifies this
      ensures Valid() && Upsert(old(Contents()), verified, freshId) == Outcome(Contents(), reply)
    {
      TablesStayOk(Contents(), UpsertCall(verified, freshId));
      if exists x :: x in identities && Holds(Contents(), x, verified.provider, verified.subject) {
        var id :| id in identities && Holds(Contents(), id, verified.provider, verified.subject);
        assert id == KnownId(Contents(), verified.provider, verified.subject);
        var stored := identities[id];
        if stored.name != verified.name {
          stored := stored.(name := verified.name);
          identities := identities[id := stored];
        } else {
          assert identities[id := stored] == identities;
        }
        return Found(id);
      }
      if freshId in identities {
        return StorageFailed;
      }
      identities := identities[freshId := verified];
      reply := Found(freshId);
    }

    method BindOwnerIdentity(identity: Id) returns (reply: Reply)
      requires Valid()
      modifies this
      ensures Valid() && Bind(old(Contents()), identity) == Outcome(Contents(), reply)
    {
      TablesStayOk(Contents(), BindCall(identity));
      if identity !in identities {
        return Refused(IdentityNotFound);
      }
      if owner.state == Vacant {
        owner := owner.(identity := Some(identity));
        owner := owner.(state := Active);
      } else if owner.identity != Some(identity) {
        return Refused(IdentityMismatch);
      }
      reply := Done;
    }

    method CreateOwnerSession(id: Id, expires: Time) returns (reply: Reply)
      requires Valid()
      modifies this
      ensures Valid() && CreateSession(old(Contents()), id, expires) == Outcome(Contents(), reply)
    {
      if owner.identity.None? {
        return Refused(IdentityNotFound);
      }
      if id in sessions {
        return StorageFailed;
      }
      sessions := sessions[id := expires];
      reply := Done;
    }

    method DeleteOwnerSession(id: Id) returns (reply: Reply)
      requires Valid()
      modifies this
      ensures Valid() && EndSession(old(Contents()), id) == Outcome(Contents(), reply)
    {
      reply := Deleted(id in sessions);
      sessions := sessions - {id};
    }

    method CreateRecipient(identity: Id, channel: Id, friendship: F.State, fence: ReferenceFence, freshId: Id, now: F.Millis)
      returns (reply: Reply)
      requires Valid()
      modifies this
      ensures Valid()
      ensures Accounts.CreateRecipient(old(Contents()), identity, channel, friendship, fence, freshId, now)
              == Outcome(Contents(), reply)
    {
      TablesStayOk(Contents(), CreateCall(identity, channel, friendship, fence, freshId, now));
      if fence == NoChannel {
        return Refused(ChannelNotFound);
      }
      if fence != Locked {
        return StorageFailed;
      }
      var refusal := NotActiveFor(Contents(), identity);
      if refusal.Some? {
        return Refused(refusal.value);
      }
      if Linked(Contents(), identity, channel) {
        var id :| id in recipients && Links(Contents(), id, identity, channel);
        assert SameLink(recipients[id], recipients[LinkedId(Contents(), identity, channel)]);
        return Found(id);
      }
      if freshId in recipients {
        return StorageFailed;
      }
      recipients := recipients[freshId := Recipient(identity, channel, true, F.Projection(now, friendship, None))];
      reply := Found(freshId);
    }

    method SetRecipientEnabled(identity: Id, id: Id, enabled: bool) returns (reply: Reply)
      requires Valid()
      modifies this
      ensures Valid() && SetEnabled(old(Contents()), identity, id, enabled) == Outcome(Contents(), reply)
    {
      TablesStayOk(Contents(), EnableCall(identity, id, enabled));
      var refusal := NotActiveFor(Contents(), identity);
      if refusal.Some? {
        return Refused(refusal.value);
      }
      if !OwnRecipient(Contents(), identity, id) {
        return Refused(RecipientNotFound);
      }
      var recipient := recipients[id];
      if recipient.enabled != enabled {
        recipient := recipient.(enabled := enabled);
        recipients := recipients[id := recipient];
      } else {
        assert recipients[id := recipient] == recipients;
      }
      reply := Done;
    }

    method DeleteRecipient(identity: Id, id: Id) returns (reply: Reply)
      requires Valid()
      modifies this
      ensures Valid() && Accounts.DeleteRecipient(old(Contents()), identity, id) == Outcome(Contents(), reply)
    {
      TablesStayOk(Contents(), DeleteCall(identity, id));
      var refusal := NotActiveFor(Contents(), identity);
      if refusal.Some? {
        return Refused(refusal.value);
      }
      if !OwnRecipient(Contents(), identity, id) {
        return Deleted(false);
      }
      recipients := recipients - {id};
      reply := Deleted(true);
    }

    /** The locked part of handling a follow or unfollow event. */
    method HandleFriendship(provider: string, subject: string, channel: Id, e: F.Event) returns (reply: Reply)
      requires Valid()
      modifies this
      ensures Valid() && ProjectFriendship(old(Contents()), provider, subject, channel, e) == Outcome(Contents(), reply)
    {
      hide TablesOk, F.Decide;
      TablesStayOk(Contents(), FriendshipCall(provider, subject, channel, e));
      if || owner.state != Active
         || owner.identity.None?
         || !Holds(Contents(), owner.identity.value, provider, subject)
         || !Linked(Contents(), owner.identity.value, channel)
      {
        return Done;
      }
      var id :| id in recipients && Links(Contents(), id, owner.identity.value, channel);
      LinkIsOne(Contents(), id, owner.identity.value, channel);
      var recipient := recipients[id];
      var decision := F.Decide(recipient.projection, e);
      if decision == F.Applied || decision == F.StateMaintained {
        recipient := recipient.(projection := recipient.projection.(state := e.target));
        recipient := recipient.(projection := recipient.projection.(last := Some(e.stamp)));
        recipients := recipients[id := recipient];
      } else {
        assert recipients[id := recipient] == recipients;
      }
      reply := Done;
    }

    method BeginUnlink(g: Generation) returns (reply: Reply)
      requires Valid()
      modifies this
      ensures Valid() && Accounts.BeginUnlink(old(Contents()), g) == Outcome(Contents(), reply)
    {
      if owner.state != Active || owner.identity.None? {
        return Refused(InvalidUnlinkStage);
      }
      owner := owner.(state := DeauthorizationPending);
      owner := owner.(generation := Some(g));
      owner := owner.(deauthorizedAt := None);
      reply := Done;
    }

    method MarkLineDeauthorized(g: Generation, now: Time) returns (reply: Reply)
      requires Valid()
      modifies this
      ensures Valid() && MarkDeauthorized(old(Contents()), g, now) == Outcome(Contents(), reply)
    {
      if owner.generation != Some(g) {
        return Refused(AttemptStale);
      }
      if owner.state == LocalDeletionPending {
        return Done;
      }
      if owner.state != DeauthorizationPending {
        return Refused(InvalidUnlinkStage);
      }
      owner := owner.(state := LocalDeletionPending);
      owner := owner.(deauthorizedAt := Some(now));
      reply := Done;
    }

    method FinalizeUnlink(g: Generation) returns (reply: Reply)
      requires Valid()
      modifies this
      ensures Valid() && Accounts.FinalizeUnlink(old(Contents()), g) == Outcome(Contents(), reply)
    {
      hide TablesOk, RecipientsOf;
      TablesStayOk(Contents(), FinalizeCall(g));
      if owner.generation != Some(g) {
        return Refused(AttemptStale);
      }
      if owner.state != LocalDeletionPending || owner.deauthorizedAt.None? || owner.identity.None? {
        return Refused(InvalidUnlinkStage);
      }
      var identity := owner.identity.value;
      recipients := recipients - RecipientsOf(Contents(), identity);
      sessions := map[];
      owner := owner.(identity := None);
      owner := owner.(state := Vacant);
      owner := owner.(generation := None);
      owner := owner.(deauthorizedAt := None);
      identities := identities - {identity};
      reply := Done;
    }
  }

  lemma LinkIsOne(t: Tables, id: Id, identity: Id, channel: Id)
    requires TablesOk(t) && Links(t, id, identity, channel)
    ensures Linked(t, identity, channel) && LinkedId(t, identity, channel) == id
  {
    assert SameLink(t.recipients[id], t.recipients[LinkedId(t, identity, channel)]);
  }
}
