/**
 * server/controllers/notification.controller.js: the paginated, recipient-scoped
 * listing; the scoped mark-read, mark-all-read and delete; and `sendNotification`,
 * which checks the type, creates the record and pushes it over the live registry.
 * This controller answers with `res.json` / `res.sendStatus` directly, not
 * through the `response` envelope.
 */
module NotificationController {
  import opened Wrappers
  import opened Js
  import opened NormalizeError
  import opened NotificationModel
  import opened Socket

  /** What the HTTP handlers send. */
  datatype Reply =
    | Listed(items: seq<Notification>)       // `res.json(notifications)`, status 200
    | Status(code: int)                      // `res.sendStatus(code)`
    | Message(code: int, message: string)    // `res.status(code).json({ message, ... })`

  const ListError := "Error retrieving notifications"
  const NotFound := "Notification not found or not authorized"
  const Deleted := "Notification deleted successfully"

  /** The controller's own list of accepted types. */
  const AllowedTypes: seq<string> := ["support", "inspiration", "comment"]

  const DefaultPage := 1
  const DefaultLimit := 10

  // ----- getNotifications -----

  /** `parseInt(q) || d`: NaN and 0 are falsy, so both give the default. */
  function NumberOr(q: Option<string>, d: int): (r: int)
    ensures ParseInt(q).Some? && ParseInt(q).value != 0 ==> r == ParseInt(q).value
    ensures ParseInt(q).None? || ParseInt(q).value == 0 ==> r == d
  {
    match ParseInt(q)
    case Some(n) => if n != 0 then n else d
    case None => d
  }

  function Abs(n: int): nat {
    if n < 0 then -n else n
  }

  function Min(a: int, b: int): int {
    if a < b then a else b
  }

  /** The caller's notifications, in store order. */
  function ForRecipient(docs: seq<Notification>, u: Id): (r: seq<Notification>)
    ensures forall x :: x in r <==> x in docs && x.recipient == u
    ensures multiset(r) <= multiset(docs)
  {
    if docs == [] then []
    else
      assert docs == [docs[0]] + docs[1..];
      var rest := ForRecipient(docs[1..], u);
      if docs[0].recipient == u then [docs[0]] + rest else rest
  }

  predicate NewestFirst(s: seq<Notification>) {
    forall i, j :: 0 <= i < j < |s| ==> s[i].createdAt >= s[j].createdAt
  }

  /** Place `n` before the first entry that is not newer than it. */
  function Insert(n: Notification, s: seq<Notification>): (r: seq<Notification>)
    ensures multiset(r) == multiset(s) + multiset{n}
  {
    if s == [] || n.createdAt >= s[0].createdAt then [n] + s
    else
      assert s == [s[0]] + s[1..];
      [s[0]] + Insert(n, s[1..])
  }

  /** Inserting into a newest-first list keeps it newest first. */
  lemma {:induction false} InsertKeepsOrder(n: Notification, s: seq<Notification>)
    requires NewestFirst(s)
    ensures NewestFirst(Insert(n, s))
  {
    if s != [] && n.createdAt < s[0].createdAt {
      var rest := Insert(n, s[1..]);
      InsertKeepsOrder(n, s[1..]);
      var r := [s[0]] + rest;
      assert r == Insert(n, s);
      forall i, j | 0 <= i < j < |r| ensures r[i].createdAt >= r[j].createdAt {
        if i == 0 {
          assert r[j] in multiset(rest);
          assert r[j] == n || r[j] in multiset(s[1..]);
          if r[j] != n {
            var k :| 0 <= k < |s[1..]| && s[1..][k] == r[j];
            assert s[k + 1] == r[j];
          }
        } else {
          assert r[i] == rest[i - 1] && r[j] == rest[j - 1];
        }
      }
    }
  }

  /** `.sort({ createdAt: -1 })`: the same notifications, newest first (ties keep store order). */
  function SortNewest(s: seq<Notification>): (r: seq<Notification>)
    ensures NewestFirst(r)
    ensures multiset(r) == multiset(s)
  {
    if s == [] then []
    else
      assert s == [s[0]] + s[1..];
      var rest := SortNewest(s[1..]);
      InsertKeepsOrder(s[0], rest);
      Insert(s[0], rest)
  }

  /** `const skip = (page - 1) * limit` */
  function Skip(page: int, limit: int): int {
    (page - 1) * limit
  }

  /**
   * `.skip(skip).limit(limit)` on the sorted list: MongoDB refuses a negative
   * skip, and takes a negative limit by its absolute value.
   */
  function Window(all: seq<Notification>, page: int, limit: int): (r: Option<seq<Notification>>)
    ensures r.None? <==> Skip(page, limit) < 0
    ensures r.Some? ==> |r.value| <= Abs(limit)
    ensures r.Some? ==> var skip := Skip(page, limit);
                        r.value == all[Min(skip, |all|)..Min(skip + Abs(limit), |all|)]
    ensures r.Some? ==> forall x :: x in r.value ==> x in all
    ensures r.Some? && NewestFirst(all) ==> NewestFirst(r.value)
  {
    var skip := Skip(page, limit);
    if skip < 0 then None
    else Some(all[Min(skip, |all|)..Min(skip + Abs(limit), |all|)])
  }

  /**
   * The query behind `getNotifications`, once page and limit are numbers: only the
   * caller's notifications, newest first, at most `limit` of them, starting
   * `(page - 1) * limit` places in; a negative skip makes the query fail, which
   * answers 500.
   */
  function List(docs: seq<Notification>, userId: Id, page: int, limit: int): (r: Reply)
    ensures r.Message? <==> Skip(page, limit) < 0
    ensures r.Message? ==> r == Message(500, ListError)
    ensures r.Listed? ==> |r.items| <= Abs(limit)
    ensures r.Listed? ==> NewestFirst(r.items)
    ensures r.Listed? ==> forall x :: x in r.items ==> x in docs && x.recipient == userId
    ensures !r.Status?
  {
    var mine := ForRecipient(docs, userId);
    var all := SortNewest(mine);
    SortKeepsMembers(mine);
    match Window(all, page, limit)
    case None => Message(500, ListError)
    case Some(items) => Listed(items)
  }

  lemma SortKeepsMembers(s: seq<Notification>)
    ensures forall x :: x in SortNewest(s) ==> x in s
  {
    forall x | x in SortNewest(s) ensures x in s {
      assert x in multiset(SortNewest(s));
    }
  }

  /**
   * `getNotifications`: page and limit default to 1 and 10 when missing,
   * non-numeric or 0, and otherwise are the numbers `parseInt` reads.
   */
  function GetNotifications(docs: seq<Notification>, userId: Id, pageQ: Option<string>,
                            limitQ: Option<string>): (r: Reply)
    ensures ParseInt(pageQ).None? || ParseInt(pageQ) == Some(0) ==>
              r == List(docs, userId, DefaultPage, NumberOr(limitQ, DefaultLimit))
    ensures ParseInt(limitQ).None? || ParseInt(limitQ) == Some(0) ==>
              r == List(docs, userId, NumberOr(pageQ, DefaultPage), DefaultLimit)
    ensures ParseInt(pageQ).Some? && ParseInt(pageQ).value != 0
            && ParseInt(limitQ).Some? && ParseInt(limitQ).value != 0 ==>
              r == List(docs, userId, ParseInt(pageQ).value, ParseInt(limitQ).value)
  {
    List(docs, userId, NumberOr(pageQ, DefaultPage), NumberOr(limitQ, DefaultLimit))
  }

  /** Without query parameters the first ten of the caller's notifications come back, newest first. */
  lemma {:induction false} DefaultQuery(docs: seq<Notification>, userId: Id)
    ensures var all := SortNewest(ForRecipient(docs, userId));
            GetNotifications(docs, userId, None, None) == Listed(all[..Min(10, |all|)])
  {
    assert NumberOr(None, DefaultPage) == 1 && NumberOr(None, DefaultLimit) == 10;
    assert Skip(1, 10) == 0;
    var all := SortNewest(ForRecipient(docs, userId));
    assert Window(all, 1, 10) == Some(all[..Min(10, |all|)]);
  }

  /** A positive decimal page or limit is used as written; no default applies. */
  lemma NumberOrDecimal(text: string, d: int)
    requires IsDecimal(text)
    requires ValueOf(text, 10) >= 1
    ensures NumberOr(Some(text), d) == ValueOf(text, 10)
  {
    ParseIntDecimal(text);
  }

  /** A positive decimal page and limit in the query string are used as written. */
  lemma ExplicitQuery(docs: seq<Notification>, userId: Id, pageText: string, limitText: string)
    requires IsDecimal(pageText) && IsDecimal(limitText)
    requires ValueOf(pageText, 10) >= 1 && ValueOf(limitText, 10) >= 1
    ensures GetNotifications(docs, userId, Some(pageText), Some(limitText))
              == List(docs, userId, ValueOf(pageText, 10), ValueOf(limitText, 10))
  {
    NumberOrDecimal(pageText, DefaultPage);
    NumberOrDecimal(limitText, DefaultLimit);
  }

  /**
   * For a positive page and limit, the answer is the stretch of the caller's
   * notifications, newest first, that starts `(page - 1) * limit` places in and is
   * `limit` long, cut short where the list ends.
   */
  lemma PositivePage(docs: seq<Notification>, userId: Id, page: int, limit: int)
    requires page >= 1 && limit >= 1
    ensures 0 <= Skip(page, limit)
    ensures var all := SortNewest(ForRecipient(docs, userId));
            var skip := Skip(page, limit);
            List(docs, userId, page, limit) == Listed(all[Min(skip, |all|)..Min(skip + limit, |all|)])
  {
    SkipArithmetic(page, limit);
    ListIsWindow(docs, userId, page, limit);
    WindowSlice(SortNewest(ForRecipient(docs, userId)), page, limit);
  }

  /** With a skip the query accepts, the answer lists the window of the caller's sorted notifications. */
  lemma ListIsWindow(docs: seq<Notification>, userId: Id, page: int, limit: int)
    requires Skip(page, limit) >= 0
    ensures List(docs, userId, page, limit) == Listed(Window(SortNewest(ForRecipient(docs, userId)), page, limit).value)
  {
  }

  /** For a positive page and limit, the window is the slice of `limit` items from the skip. */
  lemma WindowSlice(all: seq<Notification>, page: int, limit: int)
    requires page >= 1 && limit >= 1
    ensures var skip := Skip(page, limit);
            Window(all, page, limit) == Some(all[Min(skip, |all|)..Min(skip + limit, |all|)])
  {
    SkipArithmetic(page, limit);
  }




  /** The arithmetic of consecutive skips for a positive page and limit. */
  lemma SkipArithmetic(page: int, limit: int)
    requires page >= 1 && limit >= 1
    ensures 0 <= Skip(page, limit)
    ensures Skip(page, limit) + limit == page * limit == Skip(page + 1, limit)
    ensures Skip(page + 1, limit) + limit == (page + 1) * limit
  {
    assert (page - 1) * limit >= 0 by {
      assert page - 1 >= 0;
    }
    assert (page - 1) * limit + limit == page * limit;
    assert page * limit + limit == (page + 1) * limit;
  }

  /**
   * Consecutive pages of the same positive size follow each other without gap or
   * overlap: page `p` then page `p + 1` is the stretch of the sorted list that
   * starts where page `p` starts and is two pages long.
   */
  lemma {:induction false} PagesTile(all: seq<Notification>, p: int, limit: int)
    requires p >= 1 && limit >= 1
    ensures Window(all, p, limit).Some? && Window(all, p + 1, limit).Some?
    ensures Window(all, p, limit).value + Window(all, p + 1, limit).value
            == all[Min(Skip(p, limit), |all|)..Min(Skip(p + 1, limit) + limit, |all|)]
  {
    SkipArithmetic(p, limit);
    var first := Skip(p, limit);
    var second := Skip(p + 1, limit);
    var a, b, c := Min(first, |all|), Min(second, |all|), Min(second + limit, |all|);
    assert Window(all, p, limit) == Some(all[a..b]);
    assert Window(all, p + 1, limit) == Some(all[b..c]);
    assert all[a..b] + all[b..c] == all[a..c];
  }

  // ----- the stored collection -----

  predicate Matches(n: Notification, id: Id, u: Id) {
    n.id == id && n.recipient == u
  }

  predicate UniqueIds(docs: seq<Notification>) {
    forall i, j :: 0 <= i < j < |docs| ==> docs[i].id != docs[j].id
  }

  /** No stored record has the id. */
  predicate IdFree(docs: seq<Notification>, id: Id) {
    forall i :: 0 <= i < |docs| ==> docs[i].id != id
  }

  /** Appending a record whose id is free keeps the ids unique. */
  lemma AppendKeepsUnique(docs: seq<Notification>, n: Notification)
    requires UniqueIds(docs) && IdFree(docs, n.id)
    ensures UniqueIds(docs + [n])
  {
  }

  /**
   * `findOneAndUpdate({ _id, recipient }, { read: true })`: the record with that id
   * and that recipient is marked read; every record keeps its place, id,
   * recipient, type, idea, sender and date, and no other record changes.
   */
  function MarkRead(docs: seq<Notification>, id: Id, u: Id): (r: seq<Notification>)
    ensures |r| == |docs|
    ensures forall i :: 0 <= i < |r| ==> r[i].(read := docs[i].read) == docs[i]
    ensures forall i :: 0 <= i < |r| ==> r[i].read == (docs[i].read || Matches(docs[i], id, u))
  {
    seq(|docs|, i requires 0 <= i < |docs| => if Matches(docs[i], id, u) then docs[i].(read := true) else docs[i])
  }

  /**
   * `updateMany({ recipient, read: false }, { $set: { read: true } })`: every record
   * of the caller ends up read; other recipients' records are unchanged.
   */
  function MarkAllRead(docs: seq<Notification>, u: Id): (r: seq<Notification>)
    ensures |r| == |docs|
    ensures forall i :: 0 <= i < |r| ==> r[i].(read := docs[i].read) == docs[i]
    ensures forall i :: 0 <= i < |r| ==> r[i].read == (docs[i].read || docs[i].recipient == u)
  {
    seq(|docs|, i requires 0 <= i < |docs| =>
      if docs[i].recipient == u && !docs[i].read then docs[i].(read := true) else docs[i])
  }

  /** Index of the first record with that id and recipient, or `|docs|`. */
  function MatchIndex(docs: seq<Notification>, id: Id, u: Id): (k: nat)
    ensures k <= |docs|
    ensures forall i :: 0 <= i < k ==> !Matches(docs[i], id, u)
    ensures k < |docs| ==> Matches(docs[k], id, u)
  {
    if docs == [] || Matches(docs[0], id, u) then 0 else 1 + MatchIndex(docs[1..], id, u)
  }

  /** `findOneAndDelete({ _id, recipient })`: the first matching record is removed. */
  function DeleteOne(docs: seq<Notification>, id: Id, u: Id): seq<Notification> {
    var k := MatchIndex(docs, id, u);
    if k < |docs| then docs[..k] + docs[k + 1..] else docs
  }

  /** After mark-all-read the caller has no unread notification. */
  lemma MarkAllLeavesNoUnread(docs: seq<Notification>, u: Id)
    ensures forall x :: x in MarkAllRead(docs, u) && x.recipient == u ==> x.read
  {
    var r := MarkAllRead(docs, u);
    forall x | x in r && x.recipient == u ensures x.read {
      var i :| 0 <= i < |r| && r[i] == x;
      assert docs[i].recipient == u;
    }
  }

  /**
   * With unique ids, deleting removes exactly the record with that id and
   * recipient: a record survives iff it does not match, and nothing is removed
   * when none matches (the caller then gets 404).
   */
  lemma DeleteOneExact(docs: seq<Notification>, id: Id, u: Id)
    requires UniqueIds(docs)
    ensures var r := DeleteOne(docs, id, u);
            && (forall x :: x in r <==> x in docs && !Matches(x, id, u))
            && (|r| == |docs| <==> forall x :: x in docs ==> !Matches(x, id, u))
            && UniqueIds(r)
  {
    var k := MatchIndex(docs, id, u);
    var r := DeleteOne(docs, id, u);
    if k < |docs| {
      assert forall i :: 0 <= i < |r| ==> r[i] == docs[if i < k then i else i + 1];
      forall x | x in docs && !Matches(x, id, u) ensures x in r {
        var i :| 0 <= i < |docs| && docs[i] == x;
        assert i != k;
        assert r[if i < k then i else i - 1] == x;
      }
      forall x | x in r ensures !Matches(x, id, u) {
        var i :| 0 <= i < |r| && r[i] == x;
        var j := if i < k then i else i + 1;
        assert docs[j] == x && j != k;
      }
    } else {
      assert forall x :: x in docs ==> !Matches(x, id, u);
    }
  }

  // ----- sendNotification -----

  function InvalidTypeMessage(ntype: string): string {
    "Invalid notification type: " + ntype + ". Allowed types are: support, inspiration, comment"
  }

  /** Mongoose's message for a failed `Notification.create` (field details not modelled). */
  const CreateFailed := "Notification validation failed"

  /** MongoDB's message when an `_id` is already taken. */
  const DuplicateKey := "E11000 duplicate key error collection: notifications index: _id_ dup key"

  /**
   * The two checks `sendNotification` runs before anything is stored: its own
   * list of types (a plain Error), then the schema (a ValidationError).
   */
  function Admit(recipient: Id, ntype: string, idea: Id): (r: Option<ErrorObj>)
    ensures r.None? <==> ntype in AllowedTypes && NotificationErrors(recipient, ntype, idea) == map[]
    ensures ntype !in AllowedTypes ==> r == Some(ErrorObj(Str("Error"), Undefined, Str(InvalidTypeMessage(ntype))))
    ensures ntype in AllowedTypes && r.Some? ==> r.value.name == ValidationErrorName
  {
    if ntype !in AllowedTypes then Some(ErrorObj(Str("Error"), Undefined, Str(InvalidTypeMessage(ntype))))
    else if NotificationErrors(recipient, ntype, idea) != map[] then Some(ValidationError(CreateFailed))
    else None
  }

  /**
   * The controller's list and the schema's enum share only 'comment': that is the
   * one type `sendNotification` can ever store; 'like', the schema's other value,
   * is refused by the controller and 'support' and 'inspiration' by the schema.
   */
  lemma {:induction false} OnlyCommentAdmitted(recipient: Id, ntype: string, idea: Id)
    ensures Admit(recipient, ntype, idea).None? ==> ntype == "comment"
    ensures Admit(recipient, "like", idea).Some?
    ensures Admit(recipient, "support", idea).Some? && Admit(recipient, "inspiration", idea).Some?
    ensures recipient != "" && idea != "" ==> Admit(recipient, "comment", idea).None?
  {
    SchemaRejectsSupportAndInspiration(recipient, idea);
    assert AllowedTypes == ["support", "inspiration", "comment"];
    assert TypeEnum == ["like", "comment"];
  }

  class NotificationStore {
    var docs: seq<Notification>

    /** Ids are unique and every stored record passes the schema. */
    ghost predicate Valid()
      reads this
    {
      UniqueIds(docs) && forall i :: 0 <= i < |docs| ==> NotificationModel.Valid(docs[i])
    }

    constructor ()
      ensures Valid() && docs == []
    {
      docs := [];
    }

    /** `markAsRead`: always 200, whether or not a record matched. */
    method MarkAsRead(id: Id, userId: Id) returns (reply: Reply)
      requires Valid()
      modifies this
      ensures Valid()
      ensures docs == MarkRead(old(docs), id, userId)
      ensures reply == Status(200)
    {
      docs := MarkRead(docs, id, userId);
      reply := Status(200);
    }

    /** `markAllAsRead`: always 200. */
    method MarkAllAsRead(userId: Id) returns (reply: Reply)
      requires Valid()
      modifies this
      ensures Valid()
      ensures docs == MarkAllRead(old(docs), userId)
      ensures reply == Status(200)
    {
      docs := MarkAllRead(docs, userId);
      reply := Status(200);
    }

    /** `deleteNotification`: 404 and no change when nothing matches, otherwise the record is gone. */
    method DeleteNotification(id: Id, userId: Id) returns (reply: Reply)
      requires Valid()
      modifies this
      ensures Valid()
      ensures docs == DeleteOne(old(docs), id, userId)
      ensures reply == if MatchIndex(old(docs), id, userId) < |old(docs)| then Message(200, Deleted)
                       else Message(404, NotFound)
    {
      var k := MatchIndex(docs, id, userId);
      if k == |docs| {
        return Message(404, NotFound);
      }
      DeleteOneExact(docs, id, userId);
      ghost var before := docs;
      docs := DeleteOne(docs, id, userId);
      assert forall i :: 0 <= i < |docs| ==> docs[i] in before;
      reply := Message(200, Deleted);
    }

    /**
     * `sendNotification`: a type outside the controller's list or a record the schema
     * refuses is an error and stores nothing; otherwise the record is appended with
     * `read = false`, the caller's clock as its date and no `content` (strict mode
     * drops that path), is pushed to the recipient's socket, and is returned. An id
     * already in use is MongoDB's duplicate-key error.
     */
    method SendNotification(live: LiveRegistry<Notification>, recipientUserId: Id, senderId: Id,
                            ideaId: Id, ntype: string, content: string, newId: Id, now: int)
      returns (r: Result<Notification, ErrorObj>)
      requires Valid()
      modifies this, live`outbox
      ensures Valid()
      ensures Admit(recipientUserId, ntype, ideaId).Some? ==>
                r == Failure(Admit(recipientUserId, ntype, ideaId).value) && docs == old(docs)
                && live.outbox == old(live.outbox)
      ensures r.Success? ==>
                && r.value == Notification(newId, recipientUserId, ntype, ideaId, senderId, false, now)
                && docs == old(docs) + [r.value]
                && live.outbox == old(live.outbox) + match Route(live.users, live.io, recipientUserId)
                                                     case Some(s) => [Emit(s, NewNotificationEvent, r.value)]
                                                     case None => []
      ensures r.Failure? ==> docs == old(docs) && live.outbox == old(live.outbox)
      ensures r.Success? <==> Admit(recipientUserId, ntype, ideaId).None? && IdFree(old(docs), newId)
    {
      var refused := Admit(recipientUserId, ntype, ideaId);
      if refused.Some? {
        return Failure(refused.value);
      }
      var taken := IdTaken(newId);
      if taken {
        return Failure(ErrorObj(Str("MongoServerError"), Undefined, Str(DuplicateKey)));
      }
      var n := NewNotification(newId, recipientUserId, ntype, ideaId, senderId, Some(false), now);
      AppendKeepsUnique(docs, n);
      docs := docs + [n];
      live.SendNotificationToUser(recipientUserId, n);
      r := Success(n);
    }

    /** The unique `_id` index: whether a stored record already has the id. */
    method IdTaken(id: Id) returns (taken: bool)
      ensures taken <==> !IdFree(docs, id)
    {
      var i := 0;
      while i < |docs|
        invariant i <= |docs|
        invariant forall j :: 0 <= j < i ==> docs[j].id != id
      {
        if docs[i].id == id {
          return true;
        }
        i := i + 1;
      }
      return false;
    }
  }
}
