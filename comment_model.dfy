/** server/models/comment.model.js: the `commentSchema` constraints. */
module CommentModel {
  import opened Wrappers
  import opened Js
  import opened Validation

  /**
   * A comment document: `content` may be absent; the owner is kept in `author`
   * (the schema has no `creator` path).
   */
  datatype Comment = Comment(content: Option<string>, idea: Id, author: Id, likes: seq<Id>)

  /** Validation of a comment: `idea` and `author` are required, `content` is optional. */
  function CommentErrors(c: Comment): (r: Errors)
    ensures "idea" in r <==> c.idea == ""
    ensures "author" in r <==> c.author == ""
    ensures r.Keys <= {"idea", "author"}
  {
    Check(Check(map[], "idea", c.idea == "", RequiredMessage("idea")),
          "author", c.author == "", RequiredMessage("author"))
  }

  predicate Valid(c: Comment) {
    CommentErrors(c) == map[]
  }

  /** The document as the JSON a response carries under `data`; an absent content is left out. */
  function ToVal(id: Id, c: Comment): Val {
    var fields := map["_id" := Str(id), "idea" := Str(c.idea), "author" := Str(c.author),
                      "likes" := Arr(seq(|c.likes|, k requires 0 <= k < |c.likes| => Str(c.likes[k])))];
    Obj(if c.content.Some? then fields["content" := Str(c.content.value)] else fields)
  }
}
