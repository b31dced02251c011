/** `POST /api/login`: a read-only credential check that reports the role and the KYC flag. */
module LoginRoute {
  import opened Wrappers
  import opened Text
  import opened Zod
  import opened Server

  /** `loginSchema`. */
  const LoginSchema: Schema := [
    ("email", Str([Email("Invalid email address")])),
    ("password", Str([Min(1, "Password is required")]))
  ]

  /** The schema's rules written out. */
  predicate LoginFieldsValid(body: Json, formats: Formats) {
    && "email" in body && formats.isEmail(body["email"])
    && "password" in body && body["password"] != ""
  }

  /** `safeParse` succeeds exactly when the email is well formed and a password is given. */
  lemma LoginSchemaAccepts(body: Json, formats: Formats)
    ensures Valid(LoginSchema, body, formats) <==> LoginFieldsValid(body, formats)
  {
    Valid2(LoginSchema, body, formats);
    AcceptsStr1(body, "email", Email("Invalid email address"), formats);
    AcceptsStr1(body, "password", Min(1, "Password is required"), formats);
  }

  const InvalidCredentials := "Invalid email or password"

  /** The user fields returned: no password. */
  datatype LoginUser = LoginUser(id: string, name: string, email: string, role: Role)

  /** `{ message, user, role, hasKYC }`; `hasKYC` is `null` (None) for roles KYC does not apply to. */
  datatype LoggedIn = LoggedIn(message: string, user: LoginUser, role: Role, hasKYC: Option<bool>)

  /** The password opens the account: a stored hash that is not empty and that bcrypt matches. */
  predicate Opens(u: User, password: string, env: Env) {
    u.password.Some? && u.password.value != "" && env.compare(password, u.password.value)
  }

  /** The KYC flag of a user row: whether a KYC row exists, for a SURVEYOR only. */
  function KycFlag(u: User, kycs: map<string, Kyc>): (flag: Option<bool>)
    ensures flag.Some? <==> u.role == SURVEYOR
    ensures flag == Some(true) <==> u.role == SURVEYOR && u.id in kycs
  {
    if u.role == SURVEYOR then Some(u.id in kycs) else None
  }

  /** The success body for the user `u`. */
  function Welcome(u: User, kycs: map<string, Kyc>): LoggedIn {
    LoggedIn("Login successful", LoginUser(u.id, u.name, u.email, u.role), u.role, KycFlag(u, kycs))
  }

  /** The message of the catch block: the error's own message, or "Failed to login" when it is empty. */
  function LoginErrorMessage(message: string): (m: string)
    ensures m != ""
    ensures message != "" ==> m == message
    ensures message == "" ==> m == "Failed to login"
  {
    if message != "" then message else "Failed to login"
  }

  /**
   * The handler, over a snapshot of the two tables; `faults.lookupError` is an
   * error thrown by the lookup. The function changes nothing: login never writes.
   */
  function Post(users: map<string, User>, kycs: map<string, Kyc>, body: Json, env: Env, faults: Faults)
    : (r: Response<LoggedIn>)
    requires EmailsUnique(users)
    ensures r.status == 200 || r.status == 400 || r.status == 401 || r.status == 500
    ensures r.status == 400 <==> !LoginFieldsValid(body, env.formats)
    ensures r.status == 400 ==>
      Issues(LoginSchema, body, env.formats) != [] &&
      r.body == ErrorBody(FirstMessage(Issues(LoginSchema, body, env.formats)))
    ensures r.status == 500 <==> LoginFieldsValid(body, env.formats) && faults.lookupError.Some?
    ensures r.status == 500 ==> r.body == ErrorBody(LoginErrorMessage(faults.lookupError.value))
    // unknown email, no password and wrong password all give the same answer
    ensures r.status == 401 ==> r.body == ErrorBody(InvalidCredentials)
    ensures r.status == 200 <==>
      && LoginFieldsValid(body, env.formats) && faults.lookupError.None?
      && exists id :: id in users && users[id].email == body["email"] && Opens(users[id], body["password"], env)
    ensures r.status == 200 ==>
      exists id :: id in users && users[id].email == body["email"] && Opens(users[id], body["password"], env)
        && r.body == Payload(Welcome(users[id], kycs))
  {
    var issues := Issues(LoginSchema, body, env.formats);
    LoginSchemaAccepts(body, env.formats);
    if issues != [] then Fail(400, FirstMessage(issues))
    else if faults.lookupError.Some? then Fail(500, LoginErrorMessage(faults.lookupError.value))
    else
      var email := body["email"];
      var password := body["password"];
      if !exists id :: id in users && users[id].email == email then Fail(401, InvalidCredentials)
      else
        var id :| id in users && users[id].email == email;
        var user := users[id];
        if user.password.None? || user.password.value == "" then Fail(401, InvalidCredentials)
        else if !env.compare(password, user.password.value) then Fail(401, InvalidCredentials)
        else Response(200, Payload(Welcome(user, kycs)))
  }
}
