/**
 * server/controllers/user.controller.js: `register` (refuse a known email, create
 * the user, sign a token, answer without the password) and `login` (one answer for
 * an unknown email and a wrong password, but a different one for a registered
 * email sent without a password). Hashing, comparing and signing are
 * parameters: a `hash` function, a `compare` predicate and a token that carries the
 * user's id.
 */
module UserController {
  import opened Wrappers
  import opened Js
  import opened NormalizeError
  import opened Response
  import opened UserModel

  const EmailInUse := "❌ Email is already in use"
  const Registered := "✅ User registered successfully"
  const InvalidCredentials := "❌ Invalid email or password"
  const LoggedIn := "✅ Login successful"

  /** Mongoose's message when `User.create` fails validation (field details not modelled). */
  const ValidationFailed := "User validation failed"

  /** A stored user; `passwordHash` is what the pre-save hook wrote. */
  datatype User = User(id: Id, name: string, email: string, passwordHash: string)

  /** `jwt.sign({ id })`: the signed token, as far as the model sees it. */
  datatype Token = Token(id: Id)

  /** `user.toObject()` */
  function ToObject(u: User): map<string, Val> {
    map["_id" := Str(u.id), "name" := Str(u.name), "email" := Str(u.email), "password" := Str(u.passwordHash)]
  }

  /** `const { password: _, ...userData } = user.toObject()`: every field but the password. */
  function UserData(u: User): (r: Val)
    ensures r.Obj? && "password" !in r.fields
    ensures forall k :: k in ToObject(u) && k != "password" ==> k in r.fields && r.fields[k] == ToObject(u)[k]
  {
    Obj(ToObject(u) - {"password"})
  }

  /** `User.findOne({ email })`: the first user with that email. */
  function FindByEmail(users: seq<User>, email: string): (r: Option<User>)
    ensures r.None? <==> forall i :: 0 <= i < |users| ==> users[i].email != email
    ensures r.Some? ==> r.value in users && r.value.email == email
  {
    if users == [] then None
    else if users[0].email == email then Some(users[0])
    else FindByEmail(users[1..], email)
  }

  predicate UniqueEmails(users: seq<User>) {
    forall i, j :: 0 <= i < j < |users| ==> users[i].email != users[j].email
  }

  /** The messages `bcrypt.compare` rejects with when its first argument is not a string. */
  const NoData := "data and hash arguments required"
  const BadData := "data must be a string or Buffer and hash must be a string"

  /**
   * The error `bcrypt.compare(password, hash)` rejects with for a password that
   * is not a string: a plain `Error` without a status code, naming the missing
   * argument for `undefined` or `null` and the expected types otherwise.
   */
  function CompareRejection(password: Val): ErrorObj {
    ErrorObj(Str("Error"), Undefined,
             Str(if password == Undefined || password == Null then NoData else BadData))
  }

  /**
   * `login`, with the password as the request body holds it. An unknown email
   * gives the 400 "invalid email or password" answer and no token. For a known
   * email, a password that is not a string makes `bcrypt.compare` reject, and
   * the catch forwards that error, which the middleware answers with 500; a
   * string password that `compare` refuses gives the same 400 answer as an
   * unknown email. A token is issued, carrying the user's id, exactly when a
   * user with that email exists and `compare` accepts the (string) password
   * against its hash.
   */
  function Login(users: seq<User>, email: string, password: Val,
                 compare: (string, string) -> bool): (r: (Answer, Option<Token>))
    ensures r.1.Some? <==> FindByEmail(users, email).Some? && password.Str?
                           && compare(password.s, FindByEmail(users, email).value.passwordHash)
    ensures FindByEmail(users, email).None? ==> r == (Reply(400, false, InvalidCredentials), None)
    ensures FindByEmail(users, email).Some? && !password.Str? ==>
              && r.1.None? && r.0.Forwarded?
              && Normalize(r.0.err, map[]).statusCode == Num(500)
              && Normalize(r.0.err, map[]).message
                 == Str(if password == Undefined || password == Null then NoData else BadData)
    ensures password.Str? && r.1.None? ==> r.0 == Reply(400, false, InvalidCredentials)
    ensures r.1.Some? ==> var u := FindByEmail(users, email).value;
                          r.1.value == Token(u.id) && r.0 == Replied(Respond(200, true, LoggedIn, UserData(u), Null))
  {
    match FindByEmail(users, email)
    case None => (Reply(400, false, InvalidCredentials), None)
    case Some(u) =>
      if !password.Str? then (Forwarded(CompareRejection(password)), None)
      else if !compare(password.s, u.passwordHash) then (Reply(400, false, InvalidCredentials), None)
      else (Replied(Respond(200, true, LoggedIn, UserData(u), Null)), Some(Token(u.id)))
  }

  /**
   * With string passwords, a failed login reads the same whatever the reason:
   * it does not reveal whether the email exists.
   */
  lemma LoginStringFailuresAlike(users: seq<User>, email1: string, password1: string, email2: string,
                                 password2: string, compare: (string, string) -> bool)
    requires Login(users, email1, Str(password1), compare).1.None?
    requires Login(users, email2, Str(password2), compare).1.None?
    ensures Login(users, email1, Str(password1), compare) == Login(users, email2, Str(password2), compare)
  {
  }

  /**
   * A body without a password tells the two kinds of email apart: an unknown
   * email gets the 400 answer, a registered one a 500 that names bcrypt's
   * missing argument.
   */
  lemma MissingPasswordRevealsEmail(users: seq<User>, known: string, unknown: string,
                                    compare: (string, string) -> bool)
    requires FindByEmail(users, known).Some? && FindByEmail(users, unknown).None?
    ensures Login(users, unknown, Undefined, compare).0 == Reply(400, false, InvalidCredentials)
    ensures Login(users, known, Undefined, compare).0.Forwarded?
    ensures Normalize(Login(users, known, Undefined, compare).0.err, map[]).statusCode == Num(500)
    ensures Login(users, known, Undefined, compare).0 != Login(users, unknown, Undefined, compare).0
  {
  }

  /**
   * `login` as its single failure message intends: a password that is not a
   * string is refused like a wrong one. Every failure is the 400 "invalid email
   * or password" answer; a token is issued exactly as before.
   */
  function LoginChecked(users: seq<User>, email: string, password: Val,
                        compare: (string, string) -> bool): (r: (Answer, Option<Token>))
    ensures r.1.Some? <==> FindByEmail(users, email).Some? && password.Str?
                           && compare(password.s, FindByEmail(users, email).value.passwordHash)
    ensures r.1.None? ==> r.0 == Reply(400, false, InvalidCredentials)
    ensures r.1.Some? ==> var u := FindByEmail(users, email).value;
                          r.1.value == Token(u.id) && r.0 == Replied(Respond(200, true, LoggedIn, UserData(u), Null))
  {
    match FindByEmail(users, email)
    case None => (Reply(400, false, InvalidCredentials), None)
    case Some(u) =>
      if !password.Str? || !compare(password.s, u.passwordHash) then (Reply(400, false, InvalidCredentials), None)
      else (Replied(Respond(200, true, LoggedIn, UserData(u), Null)), Some(Token(u.id)))
  }

  /** The correction changes nothing for string passwords. */
  lemma LoginCheckedAgreesOnStrings(users: seq<User>, email: string, password: string,
                                    compare: (string, string) -> bool)
    ensures LoginChecked(users, email, Str(password), compare) == Login(users, email, Str(password), compare)
  {
  }

  /** Whatever the reason, and whatever the body holds, a failed corrected login reads the same. */
  lemma LoginFailuresAlike(users: seq<User>, email1: string, password1: Val, email2: string,
                           password2: Val, compare: (string, string) -> bool)
    requires LoginChecked(users, email1, password1, compare).1.None?
    requires LoginChecked(users, email2, password2, compare).1.None?
    ensures LoginChecked(users, email1, password1, compare) == LoginChecked(users, email2, password2, compare)
  {
  }

  /** In a store with unique emails, the user a successful login answers for is the one holding that email. */
  lemma LoginFindsOwner(users: seq<User>, email: string, password: string,
                        compare: (string, string) -> bool, i: int)
    requires UniqueEmails(users) && 0 <= i < |users| && users[i].email == email
    requires compare(password, users[i].passwordHash)
    ensures Login(users, email, Str(password), compare).1 == Some(Token(users[i].id))
    ensures LoginChecked(users, email, Str(password), compare).1 == Some(Token(users[i].id))
  {
    var r := FindByEmail(users, email);
    var j :| 0 <= j < |users| && users[j] == r.value;
    assert i == j;
  }

  class UserStore {
    var users: seq<User>

    /** Emails are unique (the schema's unique index) and every stored email is non-empty. */
    ghost predicate Valid()
      reads this
    {
      UniqueEmails(users) && forall i :: 0 <= i < |users| ==> users[i].email != ""
    }

    constructor ()
      ensures Valid() && users == []
    {
      users := [];
    }

    /**
     * `register`: a known email answers 400 and creates nothing; a body the schema
     * refuses goes to the error middleware; otherwise the user is stored with the
     * hashed password, answered 201 without its password, and a token with its id
     * is issued. No token is issued on any failure.
     */
    method Register(body: UserBody, newId: Id, hash: string -> string)
      returns (a: Answer, token: Option<Token>)
      requires Valid()
      modifies this
      ensures Valid()
      ensures FindByEmail(old(users), body.email).Some? ==>
                users == old(users) && a == Reply(400, false, EmailInUse) && token.None?
      ensures FindByEmail(old(users), body.email).None? && !UserModel.Valid(body) ==>
                users == old(users) && a == Forwarded(ValidationError(ValidationFailed)) && token.None?
      ensures FindByEmail(old(users), body.email).None? && UserModel.Valid(body) ==>
                var u := User(newId, body.name, body.email, hash(body.password));
                && users == old(users) + [u]
                && a == Replied(Respond(201, true, Registered, UserData(u), Null))
                && token == Some(Token(newId))
    {
      var existing := FindByEmail(users, body.email);
      if existing.Some? {
        return Reply(400, false, EmailInUse), None;
      }
      if UserErrors(body) != map[] {
        return Forwarded(ValidationError(ValidationFailed)), None;
      }
      var u := User(newId, body.name, body.email, hash(body.password));
      assert body.email != "" by {
        assert "email" !in UserErrors(body);
      }
      users := users + [u];
      a := Replied(Respond(201, true, Registered, UserData(u), Null));
      token := Some(Token(newId));
    }
  }
}
