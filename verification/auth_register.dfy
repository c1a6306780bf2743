/**
  Account registration (`POST` in app/api/auth/register/route.ts): validate
  the body, refuse a taken email, hash the password, insert the row with
  its defaults and reply with the row minus its hash. The store's two calls
  and bcrypt's `hash` are parameters.
 */
module Register {
  import opened Types
  import opened Users

  /** The parsed JSON body; every field may be missing. */
  datatype RegisterBody = RegisterBody(
    email: Option<string>,
    password: Option<string>,
    fullName: Option<string>,
    phone: Option<string>,
    role: Option<string>,
    departmentId: Option<string>
  )

  /** The outcome of the insert: the id the store gives the new row, or an error. */
  datatype InsertOutcome = Inserted(id: string) | InsertFailed

  /** `!email || !password` is false: both are present and non-empty. */
  predicate HasCredentials(b: RegisterBody)
  {
    Truthy(b.email) && Truthy(b.password)
  }

  /** The insert payload with its defaults, as the store returns it. */
  function NewRow(b: RegisterBody, id: string, passwordHash: string): UserRow
    requires HasCredentials(b)
  {
    UserRow(
      id, b.email.value, passwordHash, b.fullName, b.phone,
      if b.role.Some? then b.role.value else "citizen",
      b.departmentId, true)
  }

  /**
    The handler. `body` is `None` when the request does not parse,
    `lookupFails` says whether the existing-user query errs, and `insert`
    what the insert does; `hash` stands for bcrypt's salted hash.
   */
  function Register(users: UserTable, body: Option<RegisterBody>, hash: string -> string,
                    lookupFails: bool, insert: InsertOutcome): (r: (UserTable, AuthResponse))
    ensures body.None? ==> r == (users, ErrorReply(500, "Something went wrong while creating account"))
    ensures body.Some? && !HasCredentials(body.value) ==>
      r == (users, ErrorReply(400, "Email and password are required"))
    ensures body.Some? && HasCredentials(body.value) && lookupFails ==>
      r == (users, ErrorReply(500, "Failed to check existing user"))
    ensures body.Some? && HasCredentials(body.value) && !lookupFails && body.value.email.value in users ==>
      r == (users, ErrorReply(409, "An account with this email already exists"))
    ensures body.Some? && HasCredentials(body.value) && !lookupFails && body.value.email.value !in users
            && insert.InsertFailed? ==>
      r == (users, ErrorReply(500, "Failed to create account"))
    ensures r.1.UserReply? <==>
      body.Some? && HasCredentials(body.value) && !lookupFails
      && body.value.email.value !in users && insert.Inserted?
    ensures r.1.ErrorReply? ==> r.0 == users
    ensures r.1.UserReply? ==>
      var email := body.value.email.value;
      && r.1.code == 201
      && email in r.0
      && r.0 == users[email := r.0[email]]
      && r.0[email].email == email
      && r.0[email].passwordHash == hash(body.value.password.value)
      && r.0[email].role == (if body.value.role.Some? then body.value.role.value else "citizen")
      && r.0[email].fullName == body.value.fullName
      && r.0[email].phone == body.value.phone
      && r.0[email].departmentId == body.value.departmentId
      && r.0[email].isActive
      && insert == Inserted(r.0[email].id)
      && r.1.user == Strip(r.0[email])
  {
    if body.None? then (users, ErrorReply(500, "Something went wrong while creating account"))
    else
      var b := body.value;
      if !HasCredentials(b) then (users, ErrorReply(400, "Email and password are required"))
      else if lookupFails then (users, ErrorReply(500, "Failed to check existing user"))
      else if b.email.value in users then (users, ErrorReply(409, "An account with this email already exists"))
      else
        var passwordHash := hash(b.password.value);
        match insert
        case InsertFailed => (users, ErrorReply(500, "Failed to create account"))
        case Inserted(id) =>
          var row := NewRow(b, id, passwordHash);
          (users[b.email.value := row], UserReply(201, Strip(row)))
  }

  /**
    Registration adds at most one account, never touches an existing one,
    and changes the table exactly when it replies 201.
   */
  lemma RegisterAddsOne(users: UserTable, body: Option<RegisterBody>, hash: string -> string,
                        lookupFails: bool, insert: InsertOutcome)
    ensures var r := Register(users, body, hash, lookupFails, insert);
      && (forall e :: e in users ==> e in r.0 && r.0[e] == users[e])
      && (r.1.UserReply? ==> |r.0| == |users| + 1 && r.0.Keys == users.Keys + {body.value.email.value})
      && (r.0 != users <==> r.1.UserReply?)
  {
    var r := Register(users, body, hash, lookupFails, insert);
    if r.1.UserReply? {
      var email := body.value.email.value;
      assert email !in users && email in r.0;
      assert r.0.Keys == users.Keys + {email};
    }
  }
}
