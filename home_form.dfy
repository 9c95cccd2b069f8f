/**
 * client/src/components/Home.jsx: the "Share a New Idea" form. `handleChange`
 * checks the trimmed title and content, `validateForm` requires every error to
 * be empty, and `handleSubmit` creates the idea only then and resets the form
 * afterwards. The idea service rethrows the raw axios error, so the server's
 * answer does reach this form's errors.
 */
module HomeForm {
  import opened Wrappers
  import opened Js
  import opened Services
  import IdeaModel

  datatype Field = Title | Content | EmotionalContext

  const AllFields: set<Field> := {Title, Content, EmotionalContext}

  const SomethingWentWrong := "Something went wrong"

  function Key(f: Field): string {
    match f
    case Title => "title"
    case Content => "content"
    case EmotionalContext => "emotionalContext"
  }

  /**
   * The error `handleChange` computes: a blank title or content is required, a
   * shorter one (after trim) than 5 or 25 UTF-16 code units is too short, and
   * the emotional context is never checked.
   */
  function HomeError(f: Field, value: string): (e: string)
    ensures e == "" <==> match f
                         case Title => Length(Trim(value)) >= 5
                         case Content => Length(Trim(value)) >= 25
                         case EmotionalContext => true
    ensures Trim(value) == "" && f == Title ==> e == "Title is required"
    ensures Trim(value) == "" && f == Content ==> e == "Content is required"
    ensures Trim(value) != "" && Length(Trim(value)) < 5 && f == Title ==> e == "Title must be at least 5 characters"
    ensures Trim(value) != "" && Length(Trim(value)) < 25 && f == Content ==> e == "Content must be at least 25 characters"
  {
    var trimmed := Trim(value);
    match f
    case Title =>
      if trimmed == "" then "Title is required"
      else if Length(trimmed) < 5 then "Title must be at least 5 characters"
      else ""
    case Content =>
      if trimmed == "" then "Content is required"
      else if Length(trimmed) < 25 then "Content must be at least 25 characters"
      else ""
    case EmotionalContext => ""
  }

  /** The initial errors, to which a successful submit also resets. */
  function InitialErrors(): (m: map<Field, string>)
    ensures m.Keys == AllFields
    ensures m[EmotionalContext] == "" && m[Title] != "" && m[Content] != ""
  {
    map[Title := "Title is required", Content := "Content is required", EmotionalContext := ""]
  }

  function BlankData(): map<Field, string> {
    map[Title := "", Content := "", EmotionalContext := ""]
  }

  /** `err.response?.data` on the raw axios error. */
  function RawResponseData(err: AxiosError): Val {
    if err.response.Some? then err.response.value else Undefined
  }

  /**
   * A title and content this form accepts also pass the server's idea schema
   * (which measures them untrimmed), whatever the emotional context, for any
   * signed-in creator.
   */
  lemma HomeAcceptedServerAccepts(title: string, content: string, emotionalContext: string, creator: string)
    requires HomeError(Title, title) == "" && HomeError(Content, content) == "" && creator != ""
    ensures IdeaModel.Valid(IdeaModel.Idea(title, content, emotionalContext, creator, []))
  {
    TrimLength(title);
    TrimLength(content);
  }

  class Board {
    var formData: map<Field, string>
    var formErrors: map<Field, string>
    var errors: Val
    var enteredForm: bool
    /** The form data of every `ideaService.create` call, in order. */
    var created: seq<map<Field, string>>

    constructor ()
      ensures formData == BlankData() && formErrors == InitialErrors()
      ensures errors == Obj(map[]) && !enteredForm && created == []
    {
      formData, formErrors := BlankData(), InitialErrors();
      errors, enteredForm, created := Obj(map[]), false, [];
    }

    /** `validateForm` */
    predicate FormValid()
      reads this
    {
      forall f :: f in formErrors ==> formErrors[f] == ""
    }

    /** `handleChange`: stores the raw value, rewrites that field's error only, clears its server error. */
    method Change(f: Field, value: string)
      modifies this`formData, this`formErrors, this`errors
      ensures formData == old(formData)[f := value]
      ensures formErrors == old(formErrors)[f := HomeError(f, value)]
      ensures errors.Obj? && Key(f) in errors.fields && errors.fields[Key(f)] == Null
      ensures old(errors).Obj? ==> forall k :: k in old(errors).fields && k != Key(f) ==>
                k in errors.fields && errors.fields[k] == old(errors).fields[k]
    {
      formData := formData[f := value];
      formErrors := formErrors[f := HomeError(f, value)];
      errors := Obj((if errors.Obj? then errors.fields else map[])[Key(f) := Null]);
    }

    /**
     * `handleSubmit`: marks the form entered and stops there while some error is
     * recorded; otherwise creates the idea from the current data. On success the
     * data, errors and entered flag go back to their initial values; on failure the
     * errors become the server's answer, or `{ message: 'Something went wrong' }`.
     */
    method Submit(outcome: Option<AxiosError>) returns (called: bool)
      modifies this`formData, this`formErrors, this`errors, this`enteredForm, this`created
      ensures called <==> old(FormValid())
      ensures !called ==> enteredForm && formData == old(formData) && formErrors == old(formErrors)
                          && errors == old(errors) && created == old(created)
      ensures called ==> created == old(created) + [old(formData)]
      ensures called && outcome.None? ==>
                formData == BlankData() && formErrors == InitialErrors() && !enteredForm && errors == old(errors)
      ensures called && outcome.Some? ==>
                && errors == Or(RawResponseData(outcome.value), MessageObj(Str(SomethingWentWrong)))
                && formData == old(formData) && formErrors == old(formErrors) && enteredForm
    {
      enteredForm := true;
      if !FormValid() {
        return false;
      }
      called := true;
      created := created + [formData];
      match outcome
      case None =>
        formData, formErrors := BlankData(), InitialErrors();
        enteredForm := false;
      case Some(err) =>
        errors := Or(RawResponseData(err), MessageObj(Str(SomethingWentWrong)));
    }

    /** Right after a successful submit the form cannot be submitted again until title and content are re-entered. */
    lemma ResetBlocksResubmit()
      requires formErrors == InitialErrors()
      ensures !FormValid()
    {
      assert Title in formErrors && formErrors[Title] != "";
    }
  }

  /** A server answer that is a truthy body is shown as is: unlike the user forms, this one sees it. */
  lemma ServerAnswerShown(err: AxiosError)
    requires err.response.Some? && Truthy(err.response.value)
    ensures Or(RawResponseData(err), MessageObj(Str(SomethingWentWrong))) == err.response.value
  {
  }
}
