/**
  The `users` table as the two account routes see it: rows keyed by email,
  carrying a password hash that must never leave the server, and the
  public form of a row that the routes send back.
 */
module Users {
  import opened Types

  datatype UserRow = UserRow(
    id: string,
    email: string,
    passwordHash: string,
    fullName: Option<string>,
    phone: Option<string>,
    role: string,
    departmentId: Option<string>,
    isActive: bool
  )

  /** A row without its `password_hash` column. */
  datatype PublicUser = PublicUser(
    id: string,
    email: string,
    fullName: Option<string>,
    phone: Option<string>,
    role: string,
    departmentId: Option<string>,
    isActive: bool
  )

  /** The table, looked up by email. */
  type UserTable = map<string, UserRow>

  /** `const { password_hash, ...safeUser } = user`. */
  function Strip(u: UserRow): (p: PublicUser)
    ensures WithHash(p, u.passwordHash) == u
  {
    PublicUser(u.id, u.email, u.fullName, u.phone, u.role, u.departmentId, u.isActive)
  }

  /** Puts a hash back onto a public row. */
  function WithHash(p: PublicUser, passwordHash: string): UserRow
  {
    UserRow(p.id, p.email, passwordHash, p.fullName, p.phone, p.role, p.departmentId, p.isActive)
  }

  /**
    Stripping drops the hash and nothing else: the row is recovered from its
    public form and its hash, and two rows have the same public form exactly
    when they differ at most in the hash.
   */
  lemma StripLosesOnlyHash(u: UserRow, v: UserRow)
    ensures WithHash(Strip(u), u.passwordHash) == u
    ensures Strip(u) == Strip(v) <==> u.(passwordHash := v.passwordHash) == v
  {
  }

  /** The reply of an account route: a user with a status code, or an error message. */
  datatype AuthResponse = UserReply(code: int, user: PublicUser) | ErrorReply(code: int, message: string)
}
