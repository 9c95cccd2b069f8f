/**
 * server/models/user.model.js: the `UserSchema` constraints, its email pattern,
 * and the pre-validate hook that compares `password` with the virtual
 * `confirmPassword`.
 */
module UserModel {
  import opened Js
  import opened Validation

  // ----- the pattern /^([\w-\.]+@([\w-]+\.)+[\w-]+)?$/ -----

  /** `\w`: an ASCII letter, digit or underscore. */
  predicate IsWordChar(c: char) {
    'a' <= c <= 'z' || 'A' <= c <= 'Z' || '0' <= c <= '9' || c == '_'
  }

  /** `[\w-]`, a character of a domain label. */
  predicate IsLabelChar(c: char) {
    IsWordChar(c) || c == '-'
  }

  /** `[\w-.]`, a character of the part before the `@`. */
  predicate IsLocalChar(c: char) {
    IsLabelChar(c) || c == '.'
  }

  /** `[\w-]+` */
  predicate IsLabel(s: string) {
    s != "" && forall i :: 0 <= i < |s| ==> IsLabelChar(s[i])
  }

  /** Index of the first `c` in `s`, or `|s|` when there is none. */
  function IndexOf(s: string, c: char): (k: nat)
    ensures k <= |s|
    ensures forall i :: 0 <= i < k ==> s[i] != c
    ensures k < |s| ==> s[k] == c
  {
    if s == [] || s[0] == c then 0 else 1 + IndexOf(s[1..], c)
  }

  /**
   * `([\w-]+\.)+[\w-]+`: two or more labels separated by dots. A label holds no
   * dot, so the first dot always ends the first label.
   */
  predicate IsDomain(d: string)
    decreases |d|
  {
    var j := IndexOf(d, '.');
    j < |d| && IsLabel(d[..j]) && (IsLabel(d[j + 1..]) || IsDomain(d[j + 1..]))
  }

  /**
   * The whole pattern. The group is optional, so the empty string matches; the
   * part before `@` holds no `@`, so the first `@` is the separator.
   */
  predicate IsEmail(s: string) {
    s == "" ||
    var k := IndexOf(s, '@');
    0 < k < |s| && (forall i :: 0 <= i < k ==> IsLocalChar(s[i])) && IsDomain(s[k + 1..])
  }

  /** A domain holds a dot, no `@`, and starts and ends with a label character. */
  lemma {:induction false} DomainShape(d: string)
    requires IsDomain(d)
    ensures '.' in d && '@' !in d
    ensures IsLabelChar(d[0]) && IsLabelChar(d[|d| - 1])
  {
    var j := IndexOf(d, '.');
    assert d[j] == '.';
    assert d == d[..j] + ['.'] + d[j + 1..];
    var rest := d[j + 1..];
    if IsLabel(rest) {
      assert '@' !in rest by {
        forall i | 0 <= i < |rest| ensures rest[i] != '@' { assert IsLabelChar(rest[i]); }
      }
    } else {
      DomainShape(rest);
    }
    assert '@' !in d[..j] by {
      forall i | 0 <= i < j ensures d[..j][i] != '@' { assert IsLabelChar(d[..j][i]); }
    }
    assert d[|d| - 1] == rest[|rest| - 1];
  }

  /**
   * A non-empty address that matches has exactly one `@`, preceded by at least one
   * character, followed by a dot somewhere, and does not end with a dot or `@`.
   */
  lemma EmailShape(s: string)
    requires IsEmail(s) && s != ""
    ensures var k := IndexOf(s, '@');
            && 0 < k < |s|
            && (forall i :: 0 <= i < |s| && s[i] == '@' ==> i == k)
            && '.' in s[k + 1..]
            && IsLabelChar(s[|s| - 1])
  {
    var k := IndexOf(s, '@');
    var d := s[k + 1..];
    DomainShape(d);
    assert forall i :: 0 <= i < |s| && s[i] == '@' ==> i == k;
    assert s[|s| - 1] == d[|d| - 1];
  }

  // ----- the schema -----

  /** The registration fields `User.create(req.body)` reads; the client always sends all of them. */
  datatype UserBody = UserBody(name: string, email: string, password: string, confirmPassword: string)

  const NameMin := 2
  const PasswordMin := 8

  /** The path validators of the schema: `name`, `email` and `password`. */
  function PathErrors(b: UserBody): (r: Errors)
    ensures "name" in r <==> Length(b.name) < NameMin
    ensures "email" in r <==> b.email == "" || !IsEmail(b.email)
    ensures "password" in r <==> Length(b.password) < PasswordMin
    ensures r.Keys <= {"name", "email", "password"}
    ensures "email" in r ==> r["email"] == (if b.email == "" then "Email is required" else "Please enter a valid email")
  {
    var e1 := Check(map[], "name", Length(b.name) < NameMin,
                    LengthMessage(b.name, NameMin, "Name is required", "Name must be at least 2 characters long"));
    assert e1.Keys <= {"name"};
    var e2 := Check(e1, "email", b.email == "" || !IsEmail(b.email),
                    if b.email == "" then "Email is required" else "Please enter a valid email");
    assert e2.Keys <= {"name", "email"} && ("name" in e2 <==> "name" in e1);
    Check(e2, "password", Length(b.password) < PasswordMin,
          LengthMessage(b.password, PasswordMin, "Password is required", "Password must be at least 8 characters long"))
  }

  /** The pre-validate hook: `this.invalidate('confirmPassword', ...)` when the two passwords differ. */
  function HookErrors(b: UserBody): Errors {
    Check(map[], "confirmPassword", b.password != b.confirmPassword, "Password must match confirm password")
  }

  /**
   * Validation of a new user: `name` is required and at least 2 UTF-16 code
   * units long, `email` is required and must match the pattern, `password` is
   * required and at least 8 units long, and the pre-validate hook records an error on
   * `confirmPassword` whenever it differs from `password`.
   */
  function UserErrors(b: UserBody): (r: Errors)
    ensures "name" in r <==> Length(b.name) < NameMin
    ensures "email" in r <==> b.email == "" || !IsEmail(b.email)
    ensures "password" in r <==> Length(b.password) < PasswordMin
    ensures "confirmPassword" in r <==> b.password != b.confirmPassword
    ensures r.Keys <= {"name", "email", "password", "confirmPassword"}
    ensures "confirmPassword" in r ==> r["confirmPassword"] == "Password must match confirm password"
  {
    HookErrors(b) + PathErrors(b)
  }

  predicate Valid(b: UserBody) {
    UserErrors(b) == map[]
  }

  /** A new user passes validation exactly when every rule of the schema and the hook holds. */
  lemma ValidIff(b: UserBody)
    ensures Valid(b) <==> && NameMin <= Length(b.name) && b.email != "" && IsEmail(b.email)
                          && PasswordMin <= Length(b.password) && b.password == b.confirmPassword
  {
    var e := UserErrors(b);
    if "name" !in e && "email" !in e && "password" !in e && "confirmPassword" !in e {
      assert e.Keys == {};
    }
  }
}
