/** The paged history of an owner's operations on a channel: newest first, continued by a key. */
module RichMenuHistoryPages {
  import opened Wrappers
  import opened RichMenuModel

  /** What the pages are ordered by; operation ids make it unique. */
  datatype Key = Key(acceptedAt: Time, id: Id)

  datatype Scope = Scope(channel: Id, owner: Id, provider: string)

  datatype Page = Page(entries: seq<Key>, next: Option<Key>)
  {
    predicate HasMore() {
      next.Some?
    }
  }

  function KeysOf(s: Store, scope: Scope): set<Key> {
    set id | id in s.operations && s.operations[id].channel == scope.channel && s.operations[id].owner == scope.owner
             && s.operations[id].provider == scope.provider
           :: Key(s.operations[id].acceptedAt, id)
  }

  predicate Newer(a: Key, b: Key) {
    a.acceptedAt > b.acceptedAt || (a.acceptedAt == b.acceptedAt && a.id > b.id)
  }

  predicate Descending(keys: seq<Key>) {
    forall i, j :: 0 <= i < j < |keys| ==> Newer(keys[i], keys[j])
  }

  /** The keys a cursor leaves over. */
  function Below(keys: set<Key>, cursor: Option<Key>): set<Key> {
    if cursor.None? then keys else set k | k in keys && Newer(cursor.value, k)
  }

  ghost predicate Newest(keys: set<Key>, k: Key) {
    k in keys && forall x :: x in keys && x != k ==> Newer(k, x)
  }

  lemma {:induction false} NewestExists(keys: set<Key>)
    requires keys != {}
    ensures exists k :: Newest(keys, k)
  {
    var k :| k in keys;
    var others := keys - {k};
    if others == {} {
      assert keys == {k};
      assert Newest(keys, k);
    } else {
      NewestExists(others);
      var m :| Newest(others, m);
      var newest := if Newer(k, m) then k else m;
      forall x | x in keys && x != newest
        ensures Newer(newest, x)
      {
        assert x == k || x == m || (x in others && Newer(m, x));
      }
      assert Newest(keys, newest);
    }
  }

  /** The query result before it is cut into pages. */
  ghost function Listing(keys: set<Key>): (rows: seq<Key>)
    decreases |keys|
  {
    if keys == {} then []
    else
      NewestExists(keys);
      var k :| Newest(keys, k);
      [k] + Listing(keys - {k})
  }

  lemma {:induction false} ListingIsSorted(keys: set<Key>)
    ensures Descending(Listing(keys)) && |Listing(keys)| == |keys|
    ensures forall k :: k in Listing(keys) <==> k in keys
    decreases |keys|
  {
    if keys != {} {
      var rows := Listing(keys);
      assert Newest(keys, rows[0]) && rows[1..] == Listing(keys - {rows[0]});
      ListingIsSorted(keys - {rows[0]});
      forall i, j | 0 <= i < j < |rows|
        ensures Newer(rows[i], rows[j])
      {
        assert rows[j] == rows[1..][j - 1] && rows[1..][j - 1] in rows[1..];
        if i > 0 {
          assert rows[i] == rows[1..][i - 1];
        }
      }
      forall k
        ensures k in rows <==> k in keys
      {
        assert k in rows <==> k == rows[0] || k in rows[1..];
      }
    }
  }

  /** One descending sequence per set of keys. */
  lemma {:induction false} DescendingIsUnique(a: seq<Key>, b: seq<Key>)
    requires Descending(a) && Descending(b) && forall k :: k in a <==> k in b
    ensures a == b
  {
    assert |a| > 0 ==> a[0] in b;
    assert |b| > 0 ==> b[0] in a;
    if |a| > 0 && |b| > 0 {
      assert a[0] == b[0];
      forall k
        ensures k in a[1..] <==> k in b[1..]
      {
        assert k in a <==> k == a[0] || k in a[1..];
        assert k in b <==> k == b[0] || k in b[1..];
        assert a[0] !in a[1..] && b[0] !in b[1..];
      }
      DescendingIsUnique(a[1..], b[1..]);
      assert a == [a[0]] + a[1..] && b == [b[0]] + b[1..];
    }
  }

  /** One more row than the limit is fetched, to see whether there is a next page. */
  ghost function ListHistory(keys: set<Key>, limit: nat, cursor: Option<Key>): Page
    requires 1 <= limit <= 50
  {
    var rows := Listing(Below(keys, cursor));
    if |rows| > limit then Page(rows[..limit], Some(rows[limit - 1])) else Page(rows, None)
  }

  /** In a descending sequence, what comes after a row is what is older than it. */
  lemma TailIsOlder(rows: seq<Key>, n: nat)
    requires Descending(rows) && 0 < n <= |rows|
    ensures Descending(rows[n..])
    ensures forall k :: k in rows[n..] <==> k in rows && Newer(rows[n - 1], k)
  {
    forall k
      ensures k in rows[n..] <==> k in rows && Newer(rows[n - 1], k)
    {
      if k in rows {
        var i :| 0 <= i < |rows| && rows[i] == k;
        if i < n - 1 {
          assert Newer(rows[i], rows[n - 1]);
        } else if i >= n {
          assert rows[n..][i - n] == k;
        }
      }
    }
  }

  lemma NextCursorLeavesTheRest(keys: set<Key>, limit: nat, cursor: Option<Key>)
    requires 1 <= limit <= 50 && ListHistory(keys, limit, cursor).HasMore()
    ensures var page := ListHistory(keys, limit, cursor);
            && |page.entries| == limit
            && Listing(Below(keys, cursor)) == page.entries + Listing(Below(keys, page.next))
            && |Below(keys, page.next)| < |Below(keys, cursor)|
  {
    var rows := Listing(Below(keys, cursor));
    var rest := rows[limit..];
    var next := rows[limit - 1];
    ListingIsSorted(Below(keys, cursor));
    ListingIsSorted(Below(keys, Some(next)));
    TailIsOlder(rows, limit);
    assert next in rows;
    assert forall k :: k in Below(keys, Some(next)) <==> k in Below(keys, cursor) && Newer(next, k);
    DescendingIsUnique(rest, Listing(Below(keys, Some(next))));
    assert rows == rows[..limit] + rest;
  }

  /** Every entry met by following the cursors from a page on. */
  ghost function Followed(keys: set<Key>, limit: nat, cursor: Option<Key>): seq<Key>
    requires 1 <= limit <= 50
    decreases |Below(keys, cursor)|
  {
    var page := ListHistory(keys, limit, cursor);
    if page.next.None? then page.entries
    else
      NextCursorLeavesTheRest(keys, limit, cursor);
      page.entries + Followed(keys, limit, page.next)
  }

  lemma {:induction false} FollowingListsTheRest(keys: set<Key>, limit: nat, cursor: Option<Key>)
    requires 1 <= limit <= 50
    ensures Followed(keys, limit, cursor) == Listing(Below(keys, cursor))
    decreases |Below(keys, cursor)|
  {
    var page := ListHistory(keys, limit, cursor);
    if page.next.Some? {
      NextCursorLeavesTheRest(keys, limit, cursor);
      FollowingListsTheRest(keys, limit, page.next);
    }
  }

  /** From the first page on, every operation of the scope appears once, newest first, whatever the page size. */
  lemma PagesCoverTheHistory(s: Store, scope: Scope, limit: nat)
    requires 1 <= limit <= 50
    ensures var all := Followed(KeysOf(s, scope), limit, None);
            && Descending(all) && |all| == |KeysOf(s, scope)|
            && forall id :: id in s.operations && s.operations[id].channel == scope.channel
                            && s.operations[id].owner == scope.owner && s.operations[id].provider == scope.provider
                            <==> exists i :: 0 <= i < |all| && all[i].id == id
  {
    var keys := KeysOf(s, scope);
    var all := Followed(keys, limit, None);
    FollowingListsTheRest(keys, limit, None);
    ListingIsSorted(keys);
    forall id
      ensures id in s.operations && s.operations[id].channel == scope.channel
              && s.operations[id].owner == scope.owner && s.operations[id].provider == scope.provider
              <==> exists i :: 0 <= i < |all| && all[i].id == id
    {
      if exists i :: 0 <= i < |all| && all[i].id == id {
        var i :| 0 <= i < |all| && all[i].id == id;
        assert all[i] in keys;
      } else if id in s.operations && s.operations[id].channel == scope.channel
                && s.operations[id].owner == scope.owner && s.operations[id].provider == scope.provider {
        var k := Key(s.operations[id].acceptedAt, id);
        assert k in keys && k in all;
      }
    }
  }

  /** Operations accepted while a reader is paging are newer than any cursor it holds, and do not disturb it. */
  lemma ArrivalsDoNotShowUp(keys: set<Key>, later: set<Key>, limit: nat, cursor: Key)
    requires 1 <= limit <= 50 && cursor in keys && keys <= later
    requires forall a, k :: a in later && a !in keys && k in keys ==> Newer(a, k)
    ensures ListHistory(later, limit, Some(cursor)) == ListHistory(keys, limit, Some(cursor))
  {
    assert Below(later, Some(cursor)) == Below(keys, Some(cursor));
  }
}
