/**
 * client/src/components/CommentSection.jsx: the comment list of one idea and the
 * input state around it, with the four handlers that change them once the
 * comment service has answered. Each handler receives the service outcome
 * (`None` when the call throws); toasts are recorded in order.
 */
module CommentSection {
  import opened Wrappers
  import opened Js
  import opened ClientLists

  const AddFailedToast := "Could not add comment"
  const DeleteFailedToast := "Delete failed"
  const LikeFailedToast := "Like failed"
  const ContentRequiredToast := "Content required"
  const UpdateFailedToast := "Update failed"

  /** `[comment, ...prev]` followed by `filter(c => c._id !== comment._id)` gives back `prev` when the id was new. */
  lemma {:induction false} AddThenDeleteRestores(list: seq<Doc>, c: Doc)
    requires forall i :: 0 <= i < |list| ==> list[i].id != c.id
    ensures Without([c] + list, c.id) == list
  {
    WithoutConcat([c], list, c.id);
    assert Without([c], c.id) == [];
  }

  /** Replacing by id twice with the same entry is replacing once, when that entry keeps the id. */
  lemma ReplaceIdempotent(list: seq<Doc>, id: Val, x: Doc)
    requires x.id == id
    ensures Replace(Replace(list, id, x), id, x) == Replace(list, id, x)
  {
  }

  class Section {
    var comments: seq<Doc>
    var newComment: string
    var editCommentId: Val
    var editedContent: string
    var toasts: seq<string>

    constructor ()
      ensures comments == [] && newComment == "" && editCommentId == Null && editedContent == "" && toasts == []
    {
      comments, newComment, editCommentId, editedContent, toasts := [], "", Null, "", [];
    }

    /**
     * `handleAddComment`: blank or whitespace-only input does nothing and calls
     * nothing; a created comment is put in front and the input cleared; a failed
     * call toasts and keeps the list and the input.
     */
    method HandleAddComment(created: Option<Doc>) returns (called: bool)
      modifies this`comments, this`newComment, this`toasts
      ensures called <==> Trim(old(newComment)) != ""
      ensures !called ==> comments == old(comments) && newComment == old(newComment) && toasts == old(toasts)
      ensures called && created.Some? ==>
                comments == [created.value] + old(comments) && newComment == "" && toasts == old(toasts)
      ensures called && created.None? ==>
                comments == old(comments) && newComment == old(newComment) && toasts == old(toasts) + [AddFailedToast]
    {
      if Trim(newComment) == "" {
        return false;
      }
      called := true;
      if created.Some? {
        comments := [created.value] + comments;
        newComment := "";
      } else {
        toasts := toasts + [AddFailedToast];
      }
    }

    /** `handleDelete(id)`: on success every comment with that id goes and the others stay in order. */
    method HandleDelete(id: Val, requestFails: bool)
      modifies this`comments, this`toasts
      ensures !requestFails ==> comments == Without(old(comments), id) && toasts == old(toasts)
      ensures !requestFails ==> forall d :: d in comments <==> d in old(comments) && d.id != id
      ensures requestFails ==> comments == old(comments) && toasts == old(toasts) + [DeleteFailedToast]
    {
      if requestFails {
        toasts := toasts + [DeleteFailedToast];
      } else {
        comments := Without(comments, id);
      }
    }

    /**
     * `handleLike(id)`: the returned comment replaces every entry carrying the
     * returned comment's own `_id` (not the id clicked); nothing else changes.
     */
    method HandleLike(id: Val, updated: Option<Doc>)
      modifies this`comments, this`toasts
      ensures updated.Some? ==> comments == Replace(old(comments), updated.value.id, updated.value) && toasts == old(toasts)
      ensures updated.None? ==> comments == old(comments) && toasts == old(toasts) + [LikeFailedToast]
    {
      match updated
      case Some(u) => comments := Replace(comments, u.id, u);
      case None => toasts := toasts + [LikeFailedToast];
    }

    /**
     * `handleUpdate(id)`: blank edited content toasts "Content required" and calls
     * nothing; on success the entries with that id are replaced and edit mode
     * ends; a failed call toasts and keeps edit mode.
     */
    method HandleUpdate(id: Val, updated: Option<Doc>) returns (called: bool)
      modifies this`comments, this`editCommentId, this`toasts
      ensures called <==> Trim(editedContent) != ""
      ensures !called ==> comments == old(comments) && editCommentId == old(editCommentId)
                          && toasts == old(toasts) + [ContentRequiredToast]
      ensures called && updated.Some? ==>
                comments == Replace(old(comments), id, updated.value) && editCommentId == Null && toasts == old(toasts)
      ensures called && updated.None? ==>
                comments == old(comments) && editCommentId == old(editCommentId) && toasts == old(toasts) + [UpdateFailedToast]
    {
      if Trim(editedContent) == "" {
        toasts := toasts + [ContentRequiredToast];
        return false;
      }
      called := true;
      match updated
      case Some(u) =>
        comments := Replace(comments, id, u);
        editCommentId := Null;
      case None =>
        toasts := toasts + [UpdateFailedToast];
    }
  }
}
