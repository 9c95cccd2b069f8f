/**
 * client/src/components/Register.jsx: the per-field rules `handleChange` applies
 * to the trimmed input, the `formErrors` map they write, `validateForm`, the
 * submit-disabled condition, and what `handleSubmit` does with the service's
 * answer.
 */
module RegisterForm {
  import opened Wrappers
  import opened Js
  import UserModel
  import Services

  datatype Field = Name | Alias | Email | Password | ConfirmPassword

  const AllFields: set<Field> := {Name, Alias, Email, Password, ConfirmPassword}

  lemma EveryField()
    ensures forall f: Field :: f in AllFields
  {
    forall f: Field ensures f in AllFields {
      match f
      case Name =>
      case Alias =>
      case Email =>
      case Password =>
      case ConfirmPassword =>
    }
  }

  /** The input's `name` attribute. */
  function Key(f: Field): string {
    match f
    case Name => "name"
    case Alias => "alias"
    case Email => "email"
    case Password => "password"
    case ConfirmPassword => "confirmPassword"
  }

  /** The message `handleChange` writes for an empty (after trim) value. */
  function RequiredMessage(f: Field): string {
    match f
    case Name => "Name is required"
    case Alias => "Alias is required"
    case Email => "Email is required"
    case Password => "Password is required"
    case ConfirmPassword => "Please confirm your password"
  }

  /**
   * The messages the form starts with: the required messages, except that the
   * alias one ends in an exclamation mark that `handleChange` never writes.
   */
  function InitialError(f: Field): (e: string)
    ensures e != ""
    ensures f != Alias ==> e == RequiredMessage(f)
  {
    if f == Alias then "Alias is required!" else RequiredMessage(f)
  }

  /** The fields checked by the "required / at least / at most" chain. */
  predicate LengthRuled(f: Field) {
    f == Name || f == Alias || f == Password
  }

  /** The shortest accepted length of a length-ruled field, in UTF-16 code units. */
  function MinOf(f: Field): nat {
    match f
    case Name => 2
    case Alias => 2
    case Password => 8
    case _ => 0
  }

  /** The longest accepted length of a length-ruled field, in UTF-16 code units. */
  function MaxOf(f: Field): nat {
    match f
    case Name => 30
    case Alias => 15
    case Password => 128
    case _ => 0
  }

  function TooShortMessage(f: Field): string {
    match f
    case Name => "Name must be at least 2 characters"
    case Alias => "Alias must be at least 2 characters"
    case _ => "Password must be at least 8 characters"
  }

  function TooLongMessage(f: Field): string {
    match f
    case Name => "Name must be at most 30 characters"
    case Alias => "Alias must be at most 15 characters"
    case _ => "Password must be at most 128 characters"
  }

  /**
   * What each field accepts, on the trimmed value (`password` is the form's
   * current, untrimmed password); lengths are `.length`, in UTF-16 code units.
   */
  predicate Accepted(f: Field, val: string, password: string) {
    match f
    case Email => val != "" && UserModel.IsEmail(val)
    case ConfirmPassword => val != "" && val == password
    case _ => MinOf(f) <= Length(val) <= MaxOf(f)
  }

  /**
   * The "required / at least / at most" chain shared by name, alias and
   * password: the required message for an empty value, the too-short message
   * below `min`, the too-long message above `max`, and no message in between.
   */
  function LengthRule(val: string, required: string, tooShort: string, tooLong: string,
                      min: nat, max: nat): (e: string)
    requires required != "" && tooShort != "" && tooLong != ""
    ensures e == "" <==> val != "" && min <= Length(val) <= max
    ensures val == "" ==> e == required
    ensures val != "" && Length(val) < min ==> e == tooShort
    ensures min <= Length(val) && max < Length(val) ==> e == tooLong
  {
    if val == "" then required
    else if Length(val) < min then tooShort
    else if Length(val) > max then tooLong
    else ""
  }

  /**
   * The error `handleChange` computes for a field from the trimmed value: empty
   * exactly when the field accepts it, the field's required message when the
   * value is blank, the too-short and too-long messages of the length-ruled
   * fields, the email message for a value the pattern refuses, and the mismatch
   * message for a confirmation that differs from the password.
   */
  function FieldError(f: Field, value: string, password: string): (e: string)
    ensures e == "" <==> Accepted(f, Trim(value), password)
    ensures Trim(value) == "" ==> e == RequiredMessage(f)
    ensures LengthRuled(f) && Trim(value) != "" && Length(Trim(value)) < MinOf(f) ==> e == TooShortMessage(f)
    ensures LengthRuled(f) && MinOf(f) <= Length(Trim(value)) && MaxOf(f) < Length(Trim(value))
            ==> e == TooLongMessage(f)
    ensures f == Email && Trim(value) != "" && !UserModel.IsEmail(Trim(value)) ==> e == "Enter a valid email"
    ensures f == ConfirmPassword && Trim(value) != "" && Trim(value) != password ==> e == "Passwords do not match"
  {
    var val := Trim(value);
    match f
    case Email =>
      if val == "" then RequiredMessage(f)
      else if !UserModel.IsEmail(val) then "Enter a valid email"
      else ""
    case ConfirmPassword =>
      if val == "" then RequiredMessage(f)
      else if val != password then "Passwords do not match"
      else ""
    case _ =>
      LengthRule(val, RequiredMessage(f), TooShortMessage(f), TooLongMessage(f), MinOf(f), MaxOf(f))
  }

  /**
   * A password with leading or trailing blanks can never be confirmed: the
   * confirmation is trimmed before it is compared, the password is not.
   */
  lemma PaddedPasswordNeverConfirms(password: string, confirm: string)
    requires Trim(password) != password
    ensures FieldError(ConfirmPassword, confirm, password) != ""
  {
  }

  /**
   * A form whose every field is accepted and whose email and confirmation carry no
   * surrounding blanks passes the server's user schema too.
   */
  lemma ClientAcceptedServerAccepts(name: string, alias: string, email: string, password: string, confirm: string)
    requires FieldError(Name, name, password) == "" && FieldError(Alias, alias, password) == ""
    requires FieldError(Email, email, password) == "" && FieldError(Password, password, password) == ""
    requires FieldError(ConfirmPassword, confirm, password) == ""
    requires Unpadded(email) && Unpadded(confirm)
    ensures UserModel.Valid(UserModel.UserBody(name, email, password, confirm))
  {
    assert Accepted(Name, Trim(name), password) && Accepted(Password, Trim(password), password);
    TrimLength(name);
    TrimLength(password);
    assert Trim(email) == email && Trim(confirm) == confirm;
    assert Accepted(Email, email, password) && Accepted(ConfirmPassword, confirm, password);
    UserModel.ValidIff(UserModel.UserBody(name, email, password, confirm));
  }

  /**
   * The converse fails: a confirmation that equals the password only after
   * trimming is accepted by the form and refused by the server's pre-validate hook.
   */
  lemma PaddedConfirmPassesClientOnly(password: string, confirm: string)
    requires Trim(confirm) == password && password != "" && confirm != password
    ensures FieldError(ConfirmPassword, confirm, password) == ""
    ensures forall name, email :: !UserModel.Valid(UserModel.UserBody(name, email, password, confirm))
  {
    forall name, email ensures !UserModel.Valid(UserModel.UserBody(name, email, password, confirm)) {
      assert "confirmPassword" in UserModel.UserErrors(UserModel.UserBody(name, email, password, confirm));
    }
  }

  /** `{ ...prev, [key]: null }` on the server-error state (a non-object spreads to nothing). */
  function ClearServerError(errors: Val, key: string): (r: Val)
    ensures r.Obj? && key in r.fields && r.fields[key] == Null
    ensures errors.Obj? ==> forall k :: k in errors.fields && k != key ==> k in r.fields && r.fields[k] == errors.fields[k]
  {
    Obj((if errors.Obj? then errors.fields else map[])[key := Null])
  }

  /** `res.data` on what the service resolved with (the server's envelope). */
  function DataOf(body: Val): Val {
    if body.Obj? then Get(body.fields, "data") else Undefined
  }

  const UnknownError := "Unknown error"

  /** Which service call `handleSubmit` makes. */
  datatype Action = Login | Register

  /**
   * The service throws its `handleError` value, so `err?.response?.data` is
   * undefined whatever the server said, and the form always shows the fallback.
   */
  lemma ServerMessagesNeverShown(e: Services.AxiosError)
    requires e.response.Some? ==> Services.NoResponseKey(e.response.value)
    ensures Or(Services.ResponseData(Services.HandleError(e)), Services.MessageObj(Str(UnknownError)))
            == Services.MessageObj(Str(UnknownError))
  {
    Services.ThrownHasNoResponseData(e);
  }

  class Form {
    var isLogin: bool
    var formData: map<Field, string>
    var formErrors: map<Field, string>
    var errors: Val
    var enteredForm: bool
    var user: Val
    var navigated: bool
    /** The fields `handleChange` has run for. */
    ghost var edited: set<Field>

    /** Every field has a value and an error; a field never edited still shows its initial error. */
    ghost predicate Valid()
      reads this
    {
      && (forall f: Field :: f in formData && f in formErrors)
      && (forall f :: f in formErrors && f !in edited ==> formErrors[f] == InitialError(f))
    }

    constructor ()
      ensures Valid() && !isLogin && edited == {}
      ensures formData == map f: Field | f in AllFields :: ""
      ensures formErrors == map f: Field | f in AllFields :: InitialError(f)
      ensures errors == Obj(map[]) && !enteredForm && user == Null && !navigated
    {
      isLogin := false;
      formData := map f: Field | f in AllFields :: "";
      formErrors := map f: Field | f in AllFields :: InitialError(f);
      errors, enteredForm, user, navigated := Obj(map[]), false, Null, false;
      edited := {};
      EveryField();
    }

    /** `validateForm`: every recorded error is empty. */
    predicate FormValid()
      reads this
    {
      forall f :: f in formErrors ==> formErrors[f] == ""
    }

    /** The button's `disabled`: only in register mode, and only while some error remains. */
    predicate SubmitDisabled()
      reads this
    {
      !isLogin && !FormValid()
    }

    /**
     * `handleChange`: the value is stored untrimmed, the changed field's error is
     * recomputed against the current password, that field's server error is
     * cleared, and no other field's error is touched.
     */
    method Change(f: Field, value: string)
      requires Valid()
      modifies this
      ensures Valid()
      ensures formData == old(formData)[f := value]
      ensures formErrors == old(formErrors)[f := FieldError(f, value, old(formData)[Password])]
      ensures errors == ClearServerError(old(errors), Key(f))
      ensures edited == old(edited) + {f}
      ensures isLogin == old(isLogin) && enteredForm == old(enteredForm)
      ensures user == old(user) && navigated == old(navigated)
    {
      var password := formData[Password];
      formData := formData[f := value];
      formErrors := formErrors[f := FieldError(f, value, password)];
      errors := ClearServerError(errors, Key(f));
      edited := edited + {f};
    }

    /**
     * In register mode the button is enabled only with every error empty, and
     * so only once every field has been edited.
     */
    lemma EnabledOnlyAfterEveryField()
      requires Valid() && !isLogin && !SubmitDisabled()
      ensures FormValid() && edited == AllFields
    {
      EveryField();
    }

    /** The link under the form switches between login and register. */
    method ToggleMode()
      modifies this`isLogin
      ensures isLogin == !old(isLogin)
    {
      isLogin := !isLogin;
    }

    /**
     * Submitting the form. While the button is disabled (register mode with an
     * error on record) the browser submits nothing, by click or by Enter, and
     * nothing changes. Otherwise `handleSubmit` marks the form entered and calls
     * login or register by mode; on success the user becomes the answer's data
     * and the page navigates; on failure the errors become
     * `err?.response?.data`, or `{ message: 'Unknown error' }`. So a register
     * call is made only with every field edited and every error empty.
     */
    method Submit(outcome: Result<Val, Val>) returns (action: Option<Action>)
      requires Valid()
      modifies this`enteredForm, this`user, this`navigated, this`errors
      ensures Valid()
      ensures SubmitDisabled() ==>
                && action.None?
                && enteredForm == old(enteredForm) && user == old(user)
                && navigated == old(navigated) && errors == old(errors)
      ensures !SubmitDisabled() ==> action == Some(if isLogin then Login else Register) && enteredForm
      ensures action == Some(Register) ==> FormValid() && edited == AllFields
      ensures action.Some? && outcome.Success? ==> user == DataOf(outcome.value) && navigated && errors == old(errors)
      ensures action.Some? && outcome.Failure? ==>
                && errors == Or(Services.ResponseData(outcome.error), Services.MessageObj(Str(UnknownError)))
                && user == old(user) && navigated == old(navigated)
    {
      if SubmitDisabled() {
        return None;
      }
      if !isLogin {
        EnabledOnlyAfterEveryField();
      }
      enteredForm := true;
      action := Some(if isLogin then Login else Register);
      match outcome
      case Success(body) =>
        user := DataOf(body);
        navigated := true;
      case Failure(thrown) =>
        errors := Or(Services.ResponseData(thrown), Services.MessageObj(Str(UnknownError)));
    }
  }
}
