/**
 * server/utils/socket.js: the process-wide `users` table (userId → socket id),
 * filled by the `register` event, cleaned by `disconnect`, and read by
 * `sendNotificationToUser`. Emits are recorded in an outbox instead of being sent.
 */
module Socket {
  import opened Wrappers
  import opened Js

  /** One `io.to(socketId).emit(event, payload)`. */
  datatype Emit<P> = Emit(socketId: Id, event: string, payload: P)

  const NewNotificationEvent := "new-notification"

  /** The table's entries in the order `Object.entries` visits them: (userId, socketId). */
  type Entries = seq<(Id, Id)>

  predicate UniqueUsers(e: Entries) {
    forall i, j :: 0 <= i < j < |e| ==> e[i].0 != e[j].0
  }

  predicate Registered(e: Entries, u: Id) {
    exists i :: 0 <= i < |e| && e[i].0 == u
  }

  /** `users[userId]`: the socket recorded for `u`, if any. */
  function Lookup(e: Entries, u: Id): (r: Option<Id>)
    ensures r.Some? <==> Registered(e, u)
    ensures r.Some? ==> (u, r.value) in e
    ensures UniqueUsers(e) ==> forall i :: 0 <= i < |e| && e[i].0 == u ==> r == Some(e[i].1)
  {
    if e == [] then None
    else if e[0].0 == u then Some(e[0].1)
    else
      var r := Lookup(e[1..], u);
      assert forall i :: 1 <= i < |e| ==> e[i] == e[1..][i - 1];
      r
  }

  /**
   * `users[userId] = socketId`: a user already in the table keeps its place and gets
   * the new socket, a new user is added last; uniqueness of users is kept.
   */
  function Assign(e: Entries, u: Id, s: Id): (r: Entries)
    ensures |r| == if Registered(e, u) then |e| else |e| + 1
    ensures forall i :: 0 <= i < |e| ==> r[i] == (if e[i].0 == u then (u, s) else e[i])
    ensures !Registered(e, u) ==> r == e + [(u, s)]
    ensures UniqueUsers(e) ==> UniqueUsers(r)
  {
    if Registered(e, u) then
      seq(|e|, i requires 0 <= i < |e| => if e[i].0 == u then (u, s) else e[i])
    else
      e + [(u, s)]
  }

  /** Index of the first entry whose socket is `s`, or `|e|` when there is none. */
  function FirstWith(e: Entries, s: Id): (k: nat)
    ensures k <= |e|
    ensures forall i :: 0 <= i < k ==> e[i].1 != s
    ensures k < |e| ==> e[k].1 == s
  {
    if e == [] || e[0].1 == s then 0 else 1 + FirstWith(e[1..], s)
  }

  /** The table without its `k`-th entry (unchanged when there is none). */
  function RemoveAt(e: Entries, k: nat): Entries {
    if k < |e| then e[..k] + e[k + 1..] else e
  }

  /** The socket `sendNotificationToUser` emits to: a registered, truthy socket id, once the server is up. */
  function Route(e: Entries, io: bool, u: Id): (r: Option<Id>)
    ensures r.Some? <==> io && Lookup(e, u).Some? && Lookup(e, u).value != ""
    ensures r.Some? ==> (u, r.value) in e
  {
    match Lookup(e, u)
    case Some(s) => if s != "" && io then Some(s) else None
    case None => None
  }

  class LiveRegistry<P> {
    var users: Entries
    var io: bool            // `initSocket` has created the server
    var outbox: seq<Emit<P>>

    ghost predicate Valid()
      reads this
    {
      UniqueUsers(users)
    }

    constructor ()
      ensures Valid() && users == [] && !io && outbox == []
    {
      users, io, outbox := [], false, [];
    }

    /** `initSocket(server)` */
    method Init()
      modifies this`io
      ensures io
    {
      io := true;
    }

    /** The `register` event: `users[userId] = socket.id`. */
    method Register(userId: Id, socketId: Id)
      requires Valid()
      modifies this`users
      ensures Valid()
      ensures users == Assign(old(users), userId, socketId)
    {
      users := Assign(users, userId, socketId);
    }

    /** The `disconnect` event: delete the first entry holding the socket, then stop. */
    method Disconnect(socketId: Id)
      requires Valid()
      modifies this`users
      ensures Valid()
      ensures users == RemoveAt(old(users), FirstWith(old(users), socketId))
    {
      var i := 0;
      while i < |users|
        invariant i <= FirstWith(users, socketId)
        invariant users == old(users)
      {
        if users[i].1 == socketId {
          RemoveAtKeepsUnique(users, i);
          users := RemoveAt(users, i);
          return;
        }
        i := i + 1;
      }
    }

    /** `sendNotificationToUser(userId, notification)`: at most one emit; the table is only read. */
    method SendNotificationToUser(userId: Id, notification: P)
      modifies this`outbox
      ensures outbox == old(outbox) + match Route(users, io, userId)
                                      case Some(s) => [Emit(s, NewNotificationEvent, notification)]
                                      case None => []
    {
      var socketId := Lookup(users, userId);
      if socketId.Some? && socketId.value != "" && io {
        outbox := outbox + [Emit(socketId.value, NewNotificationEvent, notification)];
      }
    }
  }

  // ----- properties of the table -----

  /** After `register`, the user maps to the new socket and every other user's entry is unchanged. */
  lemma AssignLookup(e: Entries, u: Id, s: Id, v: Id)
    requires UniqueUsers(e)
    ensures Lookup(Assign(e, u, s), v) == if v == u then Some(s) else Lookup(e, v)
  {
    var r := Assign(e, u, s);
    if Registered(e, v) {
      var i :| 0 <= i < |e| && e[i].0 == v;
      assert r[i].0 == v;
    } else if v == u {
      assert r[|e|] == (u, s);
    }
  }

  /** Removing an entry keeps the users unique. */
  lemma RemoveAtKeepsUnique(e: Entries, k: nat)
    requires UniqueUsers(e)
    ensures UniqueUsers(RemoveAt(e, k))
  {
    if k < |e| {
      var r := RemoveAt(e, k);
      assert forall i :: 0 <= i < |r| ==> r[i] == e[if i < k then i else i + 1];
    }
  }

  /**
   * `disconnect` removes only the first entry holding the socket: when one exists,
   * the result is the table without that entry, and every later entry, even one
   * with the same socket, stays; when none exists the table is unchanged.
   */
  lemma DisconnectRemovesFirstOnly(e: Entries, s: Id)
    ensures var k := FirstWith(e, s);
            && (k == |e| <==> forall i :: 0 <= i < |e| ==> e[i].1 != s)
            && (k == |e| ==> RemoveAt(e, k) == e)
            && (k < |e| ==> |RemoveAt(e, k)| == |e| - 1
                            && forall j :: k < j < |e| ==> RemoveAt(e, k)[j - 1] == e[j])
  {
  }

  /**
   * After `disconnect`, the user whose entry was removed is no longer reachable and
   * every other user still maps to the same socket.
   */
  lemma DisconnectLookup(e: Entries, s: Id, v: Id)
    requires UniqueUsers(e)
    ensures var k := FirstWith(e, s);
            Lookup(RemoveAt(e, k), v) == if k < |e| && e[k].0 == v then None else Lookup(e, v)
  {
    var k := FirstWith(e, s);
    if k < |e| {
      var r := RemoveAt(e, k);
      assert forall i :: 0 <= i < |r| ==> r[i] == e[if i < k then i else i + 1];
      if e[k].0 == v {
        assert !Registered(r, v);
      } else if Registered(e, v) {
        var i :| 0 <= i < |e| && e[i].0 == v;
        assert r[if i < k then i else i - 1] == e[i];
      } else {
        assert !Registered(r, v);
      }
    }
  }

  /**
   * A user who registered again from a new socket is not dropped when the old
   * socket closes: that disconnect finds no entry of this user.
   */
  lemma StaleDisconnectKeepsNewer(e: Entries, u: Id, oldSocket: Id, newSocket: Id)
    requires UniqueUsers(e) && oldSocket != newSocket
    ensures var r := Assign(e, u, newSocket);
            Lookup(RemoveAt(r, FirstWith(r, oldSocket)), u) == Some(newSocket)
  {
    var r := Assign(e, u, newSocket);
    AssignLookup(e, u, newSocket, u);
    DisconnectLookup(r, oldSocket, u);
  }
}
