/**
 * client/src/components/AuthForm.jsx: a second registration form with looser
 * rules. Its error for a field is computed from the untrimmed value, and its
 * submit calls `register` whatever errors are on screen.
 */
module AuthForm {
  import opened Wrappers
  import opened Js
  import Services
  import opened RegisterForm

  const PasswordTooShort := "Password must be at least 8 characters"
  const Mismatch := "Passwords do not match"
  const RegistrationFailed := "Registration failed"

  /** `${name[0].toUpperCase() + name.slice(1)} is required` */
  function Required(f: Field): string {
    Capitalize(Key(f)) + " is required"
  }

  /**
   * What this form accepts: a value with a non-blank character, at least 8
   * UTF-16 code units long for the password, equal to the password for the
   * confirmation.
   */
  predicate Accepts(f: Field, value: string, password: string) {
    && Trim(value) != ""
    && (f == Password ==> Length(value) >= 8)
    && (f == ConfirmPassword ==> value == password)
  }

  /**
   * The error for a field: the capitalised "is required" message for a blank
   * value, the length message for a short password (counting blanks), the
   * mismatch message for a confirmation that differs from the password.
   */
  function AuthError(f: Field, value: string, password: string): (e: string)
    ensures e == "" <==> Accepts(f, value, password)
    ensures Trim(value) == "" ==> e == Required(f)
    ensures Trim(value) != "" && f == Password && Length(value) < 8 ==> e == PasswordTooShort
    ensures Trim(value) != "" && f == ConfirmPassword && value != password ==> e == Mismatch
  {
    if Trim(value) == "" then Required(f)
    else if f == Password && Length(value) < 8 then PasswordTooShort
    else if f == ConfirmPassword && value != password then Mismatch
    else ""
  }

  /** Every password the other form accepts, this one accepts too. */
  lemma RegisterPasswordRuleIsStricter(value: string, password: string)
    requires FieldError(Password, value, password) == ""
    ensures AuthError(Password, value, password) == ""
  {
    TrimLength(value);
  }

  /** Seven blanks and one letter: eight code units, trimmed to the letter alone. */
  lemma PaddedLetter()
    ensures Trim("       a") == "a" && Length("       a") == 8 && Length("a") == 1
  {
    var v := "       a";
    assert !IsSpace(v[|v| - 1]);
    assert LeadingSpaces(v) == 7 by {
      forall i | 0 <= i < 7 ensures IsSpace(v[i]) { }
    }
    assert v[7..] == "a" && TrailingSpaces("a") == 0;
    LengthBmp(v);
  }

  /** ... but not conversely: seven blanks and one letter pass here and fail there. */
  lemma BlankPaddedPasswordPassesHereOnly()
    ensures AuthError(Password, "       a", "") == ""
    ensures FieldError(Password, "       a", "") != ""
  {
    PaddedLetter();
  }

  class Form {
    var formData: map<Field, string>
    var errors: Val
    var entered: bool
    var navigated: bool
    var registerCalls: nat

    constructor ()
      ensures formData == map f: Field | f in AllFields :: ""
      ensures errors == Obj(map[]) && !entered && !navigated && registerCalls == 0
    {
      formData := map f: Field | f in AllFields :: "";
      errors, entered, navigated, registerCalls := Obj(map[]), false, false, 0;
    }

    /** `handleChange`: stores the value, writes that field's error and no other. */
    method Change(f: Field, value: string)
      requires Password in formData
      modifies this`formData, this`errors
      ensures formData == old(formData)[f := value]
      ensures errors.Obj? && Key(f) in errors.fields
      ensures errors.fields[Key(f)] == Str(AuthError(f, value, old(formData)[Password]))
      ensures old(errors).Obj? ==> forall k :: k in old(errors).fields && k != Key(f) ==>
                k in errors.fields && errors.fields[k] == old(errors).fields[k]
    {
      var password := formData[Password];
      formData := formData[f := value];
      var prev := if errors.Obj? then errors.fields else map[];
      errors := Obj(prev[Key(f) := Str(AuthError(f, value, password))]);
    }

    /**
     * `handleSubmit`: calls `register` whatever the errors say; on success the
     * page navigates, on failure the errors become `err?.response?.data` or
     * `{ message: 'Registration failed' }`. The browser's own check of the
     * `type="email"` input, which can stop the submit before this runs, is
     * not part of the model.
     */
    method Submit(outcome: Result<Val, Val>)
      modifies this`entered, this`navigated, this`errors, this`registerCalls
      ensures entered && registerCalls == old(registerCalls) + 1
      ensures outcome.Success? ==> navigated && errors == old(errors)
      ensures outcome.Failure? ==>
                && errors == Or(Services.ResponseData(outcome.error), Services.MessageObj(Str(RegistrationFailed)))
                && navigated == old(navigated)
    {
      entered := true;
      registerCalls := registerCalls + 1;
      match outcome
      case Success(_) => navigated := true;
      case Failure(thrown) =>
        errors := Or(Services.ResponseData(thrown), Services.MessageObj(Str(RegistrationFailed)));
    }
  }
}
