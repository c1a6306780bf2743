/**
  Login (`POST` in app/api/auth/route.ts): validate the body, look the user
  up by email, check the password against the stored hash and reply with
  the row minus its hash. Both ways of failing after validation give the
  same 401 reply. The store lookup and bcrypt's `compare` are parameters.
 */
module Login {
  import opened Types
  import opened Users
  import Register

  datatype LoginBody = LoginBody(email: Option<string>, password: Option<string>)

  predicate HasCredentials(b: LoginBody)
  {
    Truthy(b.email) && Truthy(b.password)
  }

  const InvalidCredentials := ErrorReply(401, "Invalid credentials")

  /**
    The handler. `body` is `None` when the request does not parse,
    `lookupFails` says whether the `single()` query errs for a reason other
    than a missing row, and `compare` stands for bcrypt's comparison of a
    password with a stored hash. The table is returned unchanged.
   */
  function Login(users: UserTable, body: Option<LoginBody>, compare: (string, string) -> bool,
                 lookupFails: bool): (r: (UserTable, AuthResponse))
    ensures r.0 == users
    ensures body.None? ==> r.1 == ErrorReply(500, "Something went wrong")
    ensures body.Some? && !HasCredentials(body.value) ==> r.1 == ErrorReply(400, "Email and password required")
    ensures r.1.UserReply? <==>
      && body.Some? && HasCredentials(body.value) && !lookupFails
      && body.value.email.value in users
      && compare(body.value.password.value, users[body.value.email.value].passwordHash)
    ensures r.1.UserReply? ==> r.1 == UserReply(200, Strip(users[body.value.email.value]))
    ensures r.1.ErrorReply? && body.Some? && HasCredentials(body.value) ==> r.1 == InvalidCredentials
  {
    if body.None? then (users, ErrorReply(500, "Something went wrong"))
    else
      var b := body.value;
      if !HasCredentials(b) then (users, ErrorReply(400, "Email and password required"))
      else if lookupFails || b.email.value !in users then (users, InvalidCredentials)
      else
        var user := users[b.email.value];
        if !compare(b.password.value, user.passwordHash) then (users, InvalidCredentials)
        else (users, UserReply(200, Strip(user)))
  }

  /**
    An unknown email and a wrong password for a known one produce the same
    reply, so a caller cannot tell which of the two went wrong.
   */
  lemma FailuresIndistinguishable(users: UserTable, compare: (string, string) -> bool,
                                  unknown: LoginBody, wrong: LoginBody)
    requires HasCredentials(unknown) && unknown.email.value !in users
    requires HasCredentials(wrong) && wrong.email.value in users
    requires !compare(wrong.password.value, users[wrong.email.value].passwordHash)
    ensures Login(users, Some(unknown), compare, false).1 == Login(users, Some(wrong), compare, false).1
  {
  }

  /**
    If `compare` accepts a password against its own hash, then logging in
    right after a successful registration returns the registered user.
   */
  lemma RegisterThenLogin(users: UserTable, body: Register.RegisterBody, hash: string -> string,
                          compare: (string, string) -> bool, id: string)
    requires Register.HasCredentials(body) && body.email.value !in users
    requires compare(body.password.value, hash(body.password.value))
    ensures var reg := Register.Register(users, Some(body), hash, false, Register.Inserted(id));
      reg.1.UserReply?
      && Login(reg.0, Some(LoginBody(body.email, body.password)), compare, false).1
         == UserReply(200, reg.1.user)
  {
  }
}
