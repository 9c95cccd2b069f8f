/**
 * client/src/components/EditIdea.jsx: loading an idea into the edit form with
 * `|| ''` fallbacks, the browser's own checks of the form's `required`,
 * `minLength` and `maxLength` attributes, and the submit guard that measures
 * the untrimmed content against 20 UTF-16 code units before calling the update.
 */
module EditIdea {
  import opened Wrappers
  import opened Js
  import IdeaModel

  const LoadFailed := "Could not load idea"
  const ContentTooShort := "Content must be at least 20 characters."
  const UpdateFailed := "Update failed"

  /** The client's minimum content length, below the schema's 25. */
  const ClientContentMin := 20
  /** The `maxLength` of the title and emotional-context inputs. */
  const TitleMax := 100
  const ContextMax := 100
  /** The `maxLength` of the content textarea. */
  const ContentMax := 500

  /**
   * `data.x || ''` for a string-typed field of the loaded idea: its text when
   * present and non-empty, '' otherwise (also when `data` is not an object).
   */
  function LoadedText(data: Val, key: string): string {
    if data.Obj? && key in data.fields && data.fields[key].Str? then data.fields[key].s else ""
  }

  /** Loading an idea as the server serialises it fills the form with exactly its stored fields. */
  lemma LoadsServerIdea(id: Id, i: IdeaModel.Idea)
    ensures LoadedText(IdeaModel.ToVal(id, i), "title") == i.title
    ensures LoadedText(IdeaModel.ToVal(id, i), "content") == i.content
    ensures LoadedText(IdeaModel.ToVal(id, i), "emotionalContext") == i.emotionalContext
    ensures IdeaModel.ToVal(id, i) != Null && IdeaModel.ToVal(id, i) != Undefined
  {
  }

  /** Fields that are missing or not text load as ''. */
  lemma MissingFieldsLoadEmpty(data: Val, key: string)
    requires !data.Obj? || Get(data.fields, key) == Undefined || Get(data.fields, key) == Null
    ensures LoadedText(data, key) == ""
  {
  }

  /**
   * Content of 20 to 24 code units passes the edit form's check and is then refused
   * by the idea schema, whatever the other fields hold.
   */
  lemma ClientAcceptsWhatSchemaRefuses(content: string, title: string, emotionalContext: string,
                                       creator: string, likes: seq<string>)
    requires ClientContentMin <= Length(content) < IdeaModel.ContentMin
    ensures !IdeaModel.Valid(IdeaModel.Idea(title, content, emotionalContext, creator, likes))
  {
    assert "content" in IdeaModel.IdeaErrors(IdeaModel.Idea(title, content, emotionalContext, creator, likes));
  }

  class Editor {
    var idea: Val
    var title: string
    var content: string
    var emotionalContext: string
    var error: string
    var navigated: bool
    /** The bodies sent to `ideaService.update`, in order. */
    var updates: seq<(string, string, string)>
    /** Whether the user has typed into each input (the browser's dirty flags). */
    var titleEdited: bool
    var contentEdited: bool
    var contextEdited: bool

    constructor ()
      ensures idea == Null && title == "" && content == "" && emotionalContext == "" && error == ""
      ensures !navigated && updates == []
      ensures !titleEdited && !contentEdited && !contextEdited
    {
      idea, title, content, emotionalContext, error := Null, "", "", "", "";
      navigated, updates := false, [];
      titleEdited, contentEdited, contextEdited := false, false, false;
    }

    /** The form is on the page only once an idea is loaded: until then the page shows "Loading...". */
    predicate FormShown()
      reads this
    {
      Truthy(idea)
    }

    /**
     * The browser refuses to submit the form: the title or the content is empty
     * (`required`), or a value the user has typed is shorter than `minLength`
     * or longer than `maxLength`. Values set by the load effect are measured
     * only against `required`.
     */
    predicate BrowserBlocks()
      reads this
    {
      || title == "" || content == ""
      || (titleEdited && Length(title) > TitleMax)
      || (contentEdited && (Length(content) < ClientContentMin || Length(content) > ContentMax))
      || (contextEdited && Length(emotionalContext) > ContextMax)
    }

    /** `onChange={e => setTitle(e.target.value)}` */
    method EditTitle(value: string)
      modifies this`title, this`titleEdited
      ensures title == value && titleEdited
    {
      title, titleEdited := value, true;
    }

    /** `onChange={e => setContent(e.target.value)}` */
    method EditContent(value: string)
      modifies this`content, this`contentEdited
      ensures content == value && contentEdited
    {
      content, contentEdited := value, true;
    }

    /** `onChange={e => setEmotionalContext(e.target.value)}` */
    method EditEmotionalContext(value: string)
      modifies this`emotionalContext, this`contextEdited
      ensures emotionalContext == value && contextEdited
    {
      emotionalContext, contextEdited := value, true;
    }

    /**
     * The load effect. A loaded object fills the three fields, each falling back
     * to ''. A failed call, or a loaded `null`/`undefined` (reading `data.title`
     * from it throws), sets "Could not load idea"; the fields keep their values.
     */
    method Load(fetched: Result<Val, Val>)
      modifies this`idea, this`title, this`content, this`emotionalContext, this`error
      ensures fetched.Failure? ==> idea == old(idea) && error == LoadFailed
      ensures fetched.Success? ==> idea == fetched.value
      ensures fetched.Success? && (fetched.value == Null || fetched.value == Undefined) ==> error == LoadFailed
      ensures fetched.Failure? || fetched.value == Null || fetched.value == Undefined ==>
                title == old(title) && content == old(content) && emotionalContext == old(emotionalContext)
      ensures fetched.Success? && fetched.value != Null && fetched.value != Undefined ==>
                && title == LoadedText(fetched.value, "title")
                && content == LoadedText(fetched.value, "content")
                && emotionalContext == LoadedText(fetched.value, "emotionalContext")
                && error == old(error)
    {
      match fetched
      case Failure(_) =>
        error := LoadFailed;
      case Success(data) =>
        idea := data;
        if data == Null || data == Undefined {
          error := LoadFailed;
        } else {
          title := LoadedText(data, "title");
          content := LoadedText(data, "content");
          emotionalContext := LoadedText(data, "emotionalContext");
        }
    }

    /**
     * Submitting the form. With no form on the page, or when the browser's
     * checks refuse it, nothing happens. Otherwise `handleSubmit` runs: content
     * shorter than 20 code units (blanks included) sets the length error and
     * sends nothing; otherwise the three fields are sent, and the page navigates
     * on success or shows "Update failed" on failure.
     */
    method Submit(updateFails: bool) returns (called: bool)
      modifies this`error, this`navigated, this`updates
      ensures called <==> FormShown() && !BrowserBlocks() && Length(content) >= ClientContentMin
      ensures !FormShown() || BrowserBlocks() ==>
                error == old(error) && updates == old(updates) && navigated == old(navigated)
      ensures FormShown() && !BrowserBlocks() && !called ==>
                error == ContentTooShort && updates == old(updates) && navigated == old(navigated)
      ensures called ==> updates == old(updates) + [(title, content, emotionalContext)]
      ensures called && !updateFails ==> navigated && error == old(error)
      ensures called && updateFails ==> error == UpdateFailed && navigated == old(navigated)
    {
      if !FormShown() || BrowserBlocks() {
        return false;
      }
      if Length(content) < ClientContentMin {
        error := ContentTooShort;
        return false;
      }
      called := true;
      updates := updates + [(title, content, emotionalContext)];
      if updateFails {
        error := UpdateFailed;
      } else {
        navigated := true;
      }
    }

    /**
     * The handler's own length message can show only for content the user has
     * not typed: the load effect put it there, and it is not empty.
     */
    lemma HandlerErrorOnlyForLoadedContent()
      requires FormShown() && !BrowserBlocks() && Length(content) < ClientContentMin
      ensures !contentEdited && content != ""
    {
    }
  }
}
