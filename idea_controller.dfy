/**
 * server/controllers/idea.controller.js: `toggleLike`, `update` and `delete` on the
 * idea collection. Each looks the idea up first (404 when missing); update and
 * delete then require the caller to be the idea's creator (403 otherwise).
 */
module IdeaController {
  import opened Wrappers
  import opened Js
  import opened NormalizeError
  import opened Response
  import opened Likes
  import opened IdeaModel

  const NotFound := "❌ Idea not found"
  const LikeUpdated := "✅ Like status updated"
  const UpdateForbidden := "⛔ You are not allowed to update this idea"
  const Updated := "✅ Idea updated successfully"
  const DeleteForbidden := "❌ Not authorized to delete this idea"
  const Deleted := "✅ Idea deleted successfully"

  /** Mongoose's message when `save` finds the updated idea invalid (field details not modelled). */
  const ValidationFailed := "Idea validation failed"

  /**
   * The checks update and delete share: 404 when the idea is missing, then a 403
   * with the operation's own message unless the caller created it; nothing when
   * the caller may go on.
   */
  function Gate(ideas: map<Id, Idea>, id: Id, userId: Id, forbidden: string): (r: Option<Answer>)
    ensures r.None? <==> id in ideas && ideas[id].creator == userId
    ensures id !in ideas ==> r == Some(Reply(404, false, NotFound))
    ensures id in ideas && ideas[id].creator != userId ==> r == Some(Reply(403, false, forbidden))
  {
    if id !in ideas then Some(Reply(404, false, NotFound))
    else if ideas[id].creator != userId then Some(Reply(403, false, forbidden))
    else None
  }

  /**
   * The field-by-field update: a supplied value replaces its field only when it is
   * truthy, so an absent or empty value never clears a field; creator and likes
   * are never touched.
   */
  function Patch(i: Idea, title: Option<string>, content: Option<string>,
                 emotionalContext: Option<string>): (r: Idea)
    ensures r.title == (if Present(title) then title.value else i.title)
    ensures r.content == (if Present(content) then content.value else i.content)
    ensures r.emotionalContext == (if Present(emotionalContext) then emotionalContext.value else i.emotionalContext)
    ensures r.creator == i.creator && r.likes == i.likes
  {
    var t := if Present(title) then i.(title := title.value) else i;
    var c := if Present(content) then t.(content := content.value) else t;
    if Present(emotionalContext) then c.(emotionalContext := emotionalContext.value) else c
  }

  /** Empty strings in the body leave the idea exactly as it was. */
  lemma EmptyFieldsKeepIdea(i: Idea, title: Option<string>, content: Option<string>,
                            emotionalContext: Option<string>)
    requires !Present(title) && !Present(content) && !Present(emotionalContext)
    ensures Patch(i, title, content, emotionalContext) == i
  {
  }

  /** Applying the same update twice is the same as applying it once. */
  lemma PatchIdempotent(i: Idea, title: Option<string>, content: Option<string>,
                        emotionalContext: Option<string>)
    ensures var p := Patch(i, title, content, emotionalContext);
            Patch(p, title, content, emotionalContext) == p
  {
  }

  /**
   * Starting from a stored (valid) idea, the updated idea fails validation exactly
   * when a supplied title is shorter than 5 code units or a supplied content is
   * shorter than 25; emotionalContext never makes it fail.
   */
  lemma PatchValidity(i: Idea, title: Option<string>, content: Option<string>,
                      emotionalContext: Option<string>)
    requires IdeaModel.Valid(i)
    ensures IdeaModel.Valid(Patch(i, title, content, emotionalContext)) <==>
              (Present(title) ==> Length(title.value) >= TitleMin) && (Present(content) ==> Length(content.value) >= ContentMin)
  {
    var p := Patch(i, title, content, emotionalContext);
    var e := IdeaErrors(p);
    if !IdeaModel.Valid(p) {
      assert "title" in e || "content" in e || "creator" in e;
    }
    if Present(title) && Length(title.value) < TitleMin {
      assert "title" in e;
    }
    if Present(content) && Length(content.value) < ContentMin {
      assert "content" in e;
    }
  }

  class IdeaStore {
    var ideas: map<Id, Idea>

    /** Every stored idea passes its schema and no user likes it twice. */
    ghost predicate Valid()
      reads this
    {
      forall id :: id in ideas ==> IdeaModel.Valid(ideas[id]) && NoDuplicates(ideas[id].likes)
    }

    constructor ()
      ensures Valid() && ideas == map[]
    {
      ideas := map[];
    }

    /**
     * `toggleLike`: 404 and no change for a missing idea; otherwise the caller is
     * pulled from `likes` if present, pushed otherwise, and the idea is saved.
     * No other idea changes.
     */
    method ToggleLike(id: Id, userId: Id) returns (a: Answer)
      requires Valid()
      modifies this
      ensures Valid()
      ensures id !in old(ideas) ==> ideas == old(ideas) && a == Reply(404, false, NotFound)
      ensures id in old(ideas) ==>
                var idea := old(ideas)[id].(likes := Toggle(old(ideas)[id].likes, userId));
                && ideas == old(ideas)[id := idea]
                && a == Replied(Respond(200, true, LikeUpdated, ToVal(id, idea), Null))
    {
      if id !in ideas {
        return Reply(404, false, NotFound);
      }
      var idea := ideas[id];
      var alreadyLiked := userId in idea.likes;
      if alreadyLiked {
        idea := idea.(likes := Pull(idea.likes, userId));
      } else {
        idea := idea.(likes := idea.likes + [userId]);
      }
      ToggleKeepsNoDuplicates(ideas[id].likes, userId);
      ideas := ideas[id := idea];
      a := Replied(Respond(200, true, LikeUpdated, ToVal(id, idea), Null));
    }

    /**
     * `update`: 404 for a missing idea and 403 for anyone but its creator, both
     * without change; otherwise the truthy fields are written and the idea is
     * saved when it still validates, else the ValidationError goes to the error
     * middleware and the stored idea is unchanged.
     */
    method Update(id: Id, userId: Id, title: Option<string>, content: Option<string>,
                  emotionalContext: Option<string>) returns (a: Answer)
      requires Valid()
      modifies this
      ensures Valid()
      ensures Gate(old(ideas), id, userId, UpdateForbidden).Some? ==>
                ideas == old(ideas) && a == Gate(old(ideas), id, userId, UpdateForbidden).value
      ensures Gate(old(ideas), id, userId, UpdateForbidden).None? ==>
                var p := Patch(old(ideas)[id], title, content, emotionalContext);
                if IdeaModel.Valid(p) then
                  ideas == old(ideas)[id := p] && a == Replied(Respond(200, true, Updated, ToVal(id, p), Null))
                else
                  ideas == old(ideas) && a == Forwarded(ValidationError(ValidationFailed))
    {
      var refused := Gate(ideas, id, userId, UpdateForbidden);
      if refused.Some? {
        return refused.value;
      }
      var idea := Patch(ideas[id], title, content, emotionalContext);
      if IdeaErrors(idea) != map[] {
        return Forwarded(ValidationError(ValidationFailed));
      }
      ideas := ideas[id := idea];
      a := Replied(Respond(200, true, Updated, ToVal(id, idea), Null));
    }

    /** `delete`: 404 for a missing idea, 403 for anyone but its creator; only the creator removes it. */
    method Delete(id: Id, userId: Id) returns (a: Answer)
      requires Valid()
      modifies this
      ensures Valid()
      ensures Gate(old(ideas), id, userId, DeleteForbidden).Some? ==>
                ideas == old(ideas) && a == Gate(old(ideas), id, userId, DeleteForbidden).value
      ensures Gate(old(ideas), id, userId, DeleteForbidden).None? ==>
                ideas == old(ideas) - {id} && a == Reply(200, true, Deleted)
    {
      var refused := Gate(ideas, id, userId, DeleteForbidden);
      if refused.Some? {
        return refused.value;
      }
      ideas := ideas - {id};
      a := Reply(200, true, Deleted);
    }
  }
}
