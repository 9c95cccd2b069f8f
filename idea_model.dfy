/** server/models/idea.model.js: the `ideaSchema` constraints. */
module IdeaModel {
  import opened Js
  import opened Validation

  /**
   * An idea document. Strings and references that are missing are "". The only
   * reaction field is `likes`; this schema has no `supports` or `inspirations`.
   */
  datatype Idea = Idea(title: string, content: string, emotionalContext: string,
                       creator: Id, likes: seq<Id>)

  const TitleMin := 5
  const ContentMin := 25

  /**
   * Validation of an idea: `title` is required and at least 5 UTF-16 code units long,
   * `content` is required and at least 25 long, `creator` is required,
   * and `emotionalContext` and `likes` never fail.
   */
  function IdeaErrors(i: Idea): (r: Errors)
    ensures "title" in r <==> Length(i.title) < TitleMin
    ensures "content" in r <==> Length(i.content) < ContentMin
    ensures "creator" in r <==> i.creator == ""
    ensures r.Keys <= {"title", "content", "creator"}
    ensures "title" in r ==> r["title"] == (if i.title == "" then "Idea title is required"
                                            else "Title must be at least 5 characters long")
    ensures "content" in r ==> r["content"] == (if i.content == "" then "Idea content is required"
                                                else "Idea must be at least 25 characters long")
  {
    var e1 := Check(map[], "title", Length(i.title) < TitleMin,
                    LengthMessage(i.title, TitleMin, "Idea title is required", "Title must be at least 5 characters long"));
    var e2 := Check(e1, "content", Length(i.content) < ContentMin,
                    LengthMessage(i.content, ContentMin, "Idea content is required", "Idea must be at least 25 characters long"));
    Check(e2, "creator", i.creator == "", RequiredMessage("creator"))
  }

  predicate Valid(i: Idea) {
    IdeaErrors(i) == map[]
  }

  /**
   * `minlength` counts UTF-16 code units: three emoji are three characters
   * but six units, so they make a long enough title.
   */
  lemma EmojiTitleLongEnough(i: Idea)
    requires i.title == "\U{1F600}\U{1F600}\U{1F600}"
    ensures |i.title| < TitleMin
    ensures "title" !in IdeaErrors(i)
  {
    EmojiCountTwice();
  }

  /** The document as the JSON a response carries under `data`. */
  function ToVal(id: Id, i: Idea): Val {
    Obj(map["_id" := Str(id), "title" := Str(i.title), "content" := Str(i.content),
            "emotionalContext" := Str(i.emotionalContext), "creator" := Str(i.creator),
            "likes" := Arr(seq(|i.likes|, k requires 0 <= k < |i.likes| => Str(i.likes[k])))])
  }
}
