/**
 * server/controllers/comment.controller.js: `create`, `update`, `toggleLike` and
 * `delete` on the comment collection.
 *
 * The controller names the comment's owner `creator`, while the schema's path is
 * `author`. As written, `create` therefore never stores a comment, and `update` and
 * `delete` read an owner that is always undefined. The first half of this module
 * models that code as written; `CommentStore` is the controller with the owner
 * read from and written to `author`, which is evidently what was meant.
 */
module CommentController {
  import opened Wrappers
  import opened Js
  import opened NormalizeError
  import opened Response
  import opened Likes
  import opened CommentModel

  const Added := "💬 Comment added successfully"
  const AddFailed := "❌ Failed to add comment"
  const NotFound := "❌ Comment not found"
  const UpdateForbidden := "⛔ Unauthorized to update this comment"
  const Updated := "✏️ Comment updated"
  const UpdateFailed := "❌ Update failed"
  const Unliked := "👎 Unliked"
  const Liked := "👍 Liked"
  const DeleteForbidden := "❌ Not authorized to delete this comment"
  const Deleted := "✅ Comment deleted successfully"

  /** Mongoose's message when `Comment.create` fails validation (field details not modelled). */
  const ValidationFailed := "Comment validation failed"

  /** The TypeError of `comment.creator.toString()` when `creator` is undefined. */
  const CreatorTypeError := ErrorObj(Str("TypeError"), Undefined,
                                     Str("Cannot read properties of undefined (reading 'toString')"))

  /** `comment.content = req.body.content || comment.content` */
  function NewContent(body: Option<string>, current: Option<string>): (r: Option<string>)
    ensures Present(body) ==> r == body
    ensures !Present(body) ==> r == current
  {
    if Present(body) then body else current
  }

  // ----- as written: the owner goes to / is read from `creator` -----

  /**
   * The document `Comment.create({ content, idea, creator })` builds: strict mode
   * drops `creator`, which is not a schema path, so no author is recorded.
   */
  function BuildAsWritten(content: Option<string>, ideaId: Id, userId: Id): (c: Comment)
    ensures c.author == "" && c.likes == []
  {
    Comment(content, ideaId, "", [])
  }

  /** `create` as written: every call fails validation and answers 400 with the error as data. */
  function CreateAsWritten(content: Option<string>, ideaId: Id, userId: Id): (a: Answer)
    ensures a == Replied(Respond(400, false, AddFailed, ErrorVal(ValidationError(ValidationFailed)), Null))
  {
    var c := BuildAsWritten(content, ideaId, userId);
    assert "author" in CommentErrors(c);
    Replied(Respond(400, false, AddFailed, ErrorVal(ValidationError(ValidationFailed)), Null))
  }

  /**
   * `update` as written: a missing comment is 404; for any existing one
   * `comment.creator.toString()` throws, and the catch answers 400.
   */
  function UpdateAsWritten(comments: map<Id, Comment>, id: Id, userId: Id, content: Option<string>): (a: Answer)
    ensures id !in comments ==> a == Reply(404, false, NotFound)
    ensures id in comments ==> a.Replied? && a.sent.status == 400 && !a.sent.body.success
  {
    if id !in comments then Reply(404, false, NotFound)
    else Replied(Respond(400, false, UpdateFailed, ErrorVal(CreatorTypeError), Null))
  }

  /**
   * `delete` as written: a missing comment is 404; for any existing one the
   * TypeError goes to the error middleware.
   */
  function DeleteAsWritten(comments: map<Id, Comment>, id: Id, userId: Id): (a: Answer)
    ensures id !in comments ==> a == Reply(404, false, NotFound)
    ensures id in comments ==> a.Forwarded? && forall x :: MiddlewareStatus(a.err, x) == Num(500)
  {
    if id !in comments then Reply(404, false, NotFound)
    else Forwarded(CreatorTypeError)
  }

  /**
   * As written, `create` never stores a comment whatever it is given: the record
   * lacks its required `author`.
   */
  lemma CreateAsWrittenNeverStores(content: Option<string>, ideaId: Id, userId: Id)
    ensures !CommentModel.Valid(BuildAsWritten(content, ideaId, userId))
    ensures CreateAsWritten(content, ideaId, userId).Replied?
    ensures CreateAsWritten(content, ideaId, userId).sent.status == 400
  {
    assert "author" in CommentErrors(BuildAsWritten(content, ideaId, userId));
  }

  /**
   * As written, not even a comment's author can update or delete it: update answers
   * 400 and delete reaches the error middleware as a 500, while the corrected
   * owner check lets the author through.
   */
  lemma AsWrittenLocksOutAuthor(comments: map<Id, Comment>, id: Id, content: Option<string>,
                                extracted: map<string, string>)
    requires id in comments
    ensures var author := comments[id].author;
            && UpdateAsWritten(comments, id, author, content).Replied?
            && UpdateAsWritten(comments, id, author, content).sent.status == 400
            && DeleteAsWritten(comments, id, author).Forwarded?
            && MiddlewareStatus(DeleteAsWritten(comments, id, author).err, extracted) == Num(500)
            && Gate(comments, id, author, UpdateForbidden).None?
            && Gate(comments, id, author, DeleteForbidden).None?
  {
  }

  // ----- corrected: the owner is the schema's `author` -----

  /**
   * The checks update and delete share once the owner is read from `author`: 404
   * when the comment is missing, then a 403 with the operation's own message
   * unless the caller is the author; nothing when the caller may go on.
   */
  function Gate(comments: map<Id, Comment>, id: Id, userId: Id, forbidden: string): (r: Option<Answer>)
    ensures r.None? <==> id in comments && comments[id].author == userId
    ensures id !in comments ==> r == Some(Reply(404, false, NotFound))
    ensures id in comments && comments[id].author != userId ==> r == Some(Reply(403, false, forbidden))
  {
    if id !in comments then Some(Reply(404, false, NotFound))
    else if comments[id].author != userId then Some(Reply(403, false, forbidden))
    else None
  }

  /** The toggle's message: "Unliked" exactly when the caller had liked the comment before. */
  function ToggleMessage(likes: seq<Id>, userId: Id): (m: string)
    ensures m == Unliked <==> userId in likes
    ensures m == Liked <==> userId !in likes
  {
    if userId in likes then Unliked else Liked
  }

  class CommentStore {
    var comments: map<Id, Comment>

    /** Every stored comment passes its schema and no user likes it twice. */
    ghost predicate Valid()
      reads this
    {
      forall id :: id in comments ==> CommentModel.Valid(comments[id]) && NoDuplicates(comments[id].likes)
    }

    constructor ()
      ensures Valid() && comments == map[]
    {
      comments := map[];
    }

    /**
     * `create` with the owner stored as `author`: a comment without idea or author,
     * or an id already in use, fails and answers 400 with the error as data;
     * otherwise the comment is stored with no likes and 201 is answered.
     */
    method Create(content: Option<string>, ideaId: Id, userId: Id, newId: Id) returns (a: Answer)
      requires Valid()
      modifies this
      ensures Valid()
      ensures var c := Comment(content, ideaId, userId, []);
              if CommentModel.Valid(c) && newId !in old(comments) then
                comments == old(comments)[newId := c] && a == Replied(Respond(201, true, Added, ToVal(newId, c), Null))
              else
                comments == old(comments) && a.Replied? && a.sent.status == 400
                && a.sent.body.message == AddFailed
    {
      var c := Comment(content, ideaId, userId, []);
      if CommentErrors(c) != map[] {
        return Replied(Respond(400, false, AddFailed, ErrorVal(ValidationError(ValidationFailed)), Null));
      }
      if newId in comments {
        var duplicate := ErrorObj(Str("MongoServerError"), Undefined, Str("E11000 duplicate key error"));
        return Replied(Respond(400, false, AddFailed, ErrorVal(duplicate), Null));
      }
      comments := comments[newId := c];
      a := Replied(Respond(201, true, Added, ToVal(newId, c), Null));
    }

    /**
     * `update`: 404 for a missing comment and 403 for anyone but its author, both
     * without change; otherwise the content becomes the body's content when that
     * is truthy and stays as it was otherwise.
     */
    method Update(id: Id, userId: Id, content: Option<string>) returns (a: Answer)
      requires Valid()
      modifies this
      ensures Valid()
      ensures Gate(old(comments), id, userId, UpdateForbidden).Some? ==>
                comments == old(comments) && a == Gate(old(comments), id, userId, UpdateForbidden).value
      ensures Gate(old(comments), id, userId, UpdateForbidden).None? ==>
                var c := old(comments)[id].(content := NewContent(content, old(comments)[id].content));
                comments == old(comments)[id := c] && a == Replied(Respond(200, true, Updated, ToVal(id, c), Null))
    {
      var refused := Gate(comments, id, userId, UpdateForbidden);
      if refused.Some? {
        return refused.value;
      }
      var c := comments[id];
      c := c.(content := NewContent(content, c.content));
      comments := comments[id := c];
      a := Replied(Respond(200, true, Updated, ToVal(id, c), Null));
    }

    /**
     * `toggleLike`: 404 and no change for a missing comment; otherwise the caller
     * is pulled from `likes` if present, pushed otherwise, and the answer says
     * "Unliked" or "Liked" accordingly. No other comment changes.
     */
    method ToggleLike(id: Id, userId: Id) returns (a: Answer)
      requires Valid()
      modifies this
      ensures Valid()
      ensures id !in old(comments) ==> comments == old(comments) && a == Reply(404, false, NotFound)
      ensures id in old(comments) ==>
                var before := old(comments)[id];
                var c := before.(likes := Toggle(before.likes, userId));
                && comments == old(comments)[id := c]
                && a == Replied(Respond(200, true, ToggleMessage(before.likes, userId), ToVal(id, c), Null))
    {
      if id !in comments {
        return Reply(404, false, NotFound);
      }
      var c := comments[id];
      var hasLiked := userId in c.likes;
      if hasLiked {
        c := c.(likes := Pull(c.likes, userId));
      } else {
        c := c.(likes := c.likes + [userId]);
      }
      ToggleKeepsNoDuplicates(comments[id].likes, userId);
      comments := comments[id := c];
      a := Replied(Respond(200, true, if hasLiked then Unliked else Liked, ToVal(id, c), Null));
    }

    /** `delete`: 404 for a missing comment, 403 for anyone but its author; only the author removes it. */
    method Delete(id: Id, userId: Id) returns (a: Answer)
      requires Valid()
      modifies this
      ensures Valid()
      ensures Gate(old(comments), id, userId, DeleteForbidden).Some? ==>
                comments == old(comments) && a == Gate(old(comments), id, userId, DeleteForbidden).value
      ensures Gate(old(comments), id, userId, DeleteForbidden).None? ==>
                comments == old(comments) - {id} && a == Reply(200, true, Deleted)
    {
      var refused := Gate(comments, id, userId, DeleteForbidden);
      if refused.Some? {
        return refused.value;
      }
      comments := comments - {id};
      a := Reply(200, true, Deleted);
    }
  }

  /** With the owner stored as `author`, a comment on an idea by a signed-in user validates. */
  lemma CorrectedCreateValidates(content: Option<string>, ideaId: Id, userId: Id)
    requires ideaId != "" && userId != ""
    ensures CommentModel.Valid(Comment(content, ideaId, userId, []))
    ensures Comment(content, ideaId, userId, []).author == userId
  {
  }
}
