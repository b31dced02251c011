/** `POST /api/signup`: validate, check the connection and the email, hash, insert the user. */
module SignupRoute {
  import opened Wrappers
  import opened Text
  import opened Zod
  import opened Server

  const RoleMessage := "Role must be admin, manager, or surveyor"

  /** `signupSchema`; the role enum is case-sensitive. */
  const SignupSchema: Schema := [
    ("name", Str([Min(1, "Name is required"), Max(255, "Name is too long")])),
    ("email", Str([Email("Invalid email address")])),
    ("password", Str([Min(6, "Password must be at least 6 characters")])),
    ("role", Enum(["admin", "manager", "surveyor"], RoleMessage))
  ]

  /** The schema's rules written out field by field. */
  predicate SignupFieldsValid(body: Json, formats: Formats) {
    && "name" in body && 1 <= |body["name"]| <= 255
    && "email" in body && formats.isEmail(body["email"])
    && "password" in body && |body["password"]| >= 6
    && "role" in body && (body["role"] == "admin" || body["role"] == "manager" || body["role"] == "surveyor")
  }

  /** `safeParse` succeeds exactly when every field rule holds. */
  lemma SignupSchemaAccepts(body: Json, formats: Formats)
    ensures Valid(SignupSchema, body, formats) <==> SignupFieldsValid(body, formats)
  {
    Valid4(SignupSchema, body, formats);
    AcceptsStr2(body, "name", Min(1, "Name is required"), Max(255, "Name is too long"), formats);
    AcceptsStr1(body, "email", Email("Invalid email address"), formats);
    AcceptsStr1(body, "password", Min(6, "Password must be at least 6 characters"), formats);
  }

  /**
   * A body whose name, email and password pass but whose role is missing or
   * not one of the three lower-case ids (such as "Surveyor") is refused with
   * the role message.
   */
  lemma RoleRejected(body: Json, formats: Formats)
    requires "name" in body && 1 <= |body["name"]| <= 255
    requires "email" in body && formats.isEmail(body["email"])
    requires "password" in body && |body["password"]| >= 6
    requires "role" !in body || (body["role"] != "admin" && body["role"] != "manager" && body["role"] != "surveyor")
    ensures Issues(SignupSchema, body, formats) != []
    ensures FirstMessage(Issues(SignupSchema, body, formats)) == RoleMessage
  {
    AcceptsStr2(body, "name", Min(1, "Name is required"), Max(255, "Name is too long"), formats);
    AcceptsStr1(body, "email", Email("Invalid email address"), formats);
    AcceptsStr1(body, "password", Min(6, "Password must be at least 6 characters"), formats);
    assert FirstRejected(SignupSchema, body, formats, 3);
    FirstIssueOfRejectedKey(SignupSchema, body, formats, 3);
  }

  const EmailTaken := "User with this email already exists"
  const InvalidRole := "Invalid role. Must be admin, manager, or surveyor"
  const SignupFailed := "Failed to create user. Please try again."

  /** The user fields returned: no password. */
  datatype PublicUser = PublicUser(id: string, name: string, email: string, role: Role, createdAt: int)

  datatype Created = Created(message: string, user: PublicUser)

  /** The enum value named by an upper-case string; None is the defensive check's 400 case. */
  function RoleOfName(s: string): (r: Option<Role>)
    ensures r.Some? ==> RoleName(r.value) == s
    ensures r.None? ==> s != "ADMIN" && s != "MANAGER" && s != "SURVEYOR"
  {
    if s == "ADMIN" then Some(ADMIN)
    else if s == "MANAGER" then Some(MANAGER)
    else if s == "SURVEYOR" then Some(SURVEYOR)
    else None
  }

  /** The role stored for a validated input: its upper-cased form is always an enum value. */
  function StoredRole(role: string): (r: Role)
    requires role == "admin" || role == "manager" || role == "surveyor"
    ensures RoleName(r) == ToUpper(role)
  {
    RoleUppercasing(role);
    RoleOfName(ToUpper(role)).value
  }

  /**
   * Upper-casing a role accepted by the schema gives an enum name, so the
   * defensive check that `roleUpper` is one of ADMIN/MANAGER/SURVEYOR never fails.
   */
  lemma RoleUppercasing(role: string)
    requires role == "admin" || role == "manager" || role == "surveyor"
    ensures RoleOfName(ToUpper(role)).Some?
  {
    var u := ToUpper(role);
    if role == "admin" {
      assert u == "ADMIN";
    } else if role == "manager" {
      assert u == "MANAGER";
    } else {
      assert u == "SURVEYOR";
    }
  }

  /** Some user already has exactly this email (Prisma's `findUnique` compares exactly). */
  predicate EmailRegistered(users: map<string, User>, email: string) {
    exists id :: id in users && users[id].email == email
  }

  /** The row inserted for a validated body: the password is stored as its hash. */
  function NewUser(body: Json, env: Env, id: string, now: int): (u: User)
    requires SignupFieldsValid(body, env.formats)
    ensures u.id == id && u.email == body["email"] && u.name == body["name"]
    ensures u.password == Some(env.hash(body["password"]))
    ensures RoleName(u.role) == ToUpper(body["role"])
  {
    User(id, body["name"], body["email"], Some(env.hash(body["password"])), StoredRole(body["role"]), now)
  }

  /** The checks before the insert all pass. */
  predicate PreChecksPass(users: map<string, User>, body: Json, env: Env, faults: Faults) {
    && SignupFieldsValid(body, env.formats)
    && !faults.connectFails
    && faults.lookupError.None?
    && !EmailRegistered(users, body["email"])
  }

  /**
   * The handler. `faults` is what the database does on this request and `newId`
   * the fresh id and `now` the timestamp the database generates.
   */
  method Post(db: Store, body: Json, env: Env, faults: Faults, newId: string, now: int)
      returns (r: Response<Created>)
    requires db.Valid()
    requires newId !in db.users && newId != ""
    modifies db
    ensures db.Valid()
    ensures db.kycs == old(db.kycs)
    // the checks, in order
    ensures !SignupFieldsValid(body, env.formats) ==>
      Issues(SignupSchema, body, env.formats) != [] &&
      r == Fail(400, FirstMessage(Issues(SignupSchema, body, env.formats)))
    ensures SignupFieldsValid(body, env.formats) && faults.connectFails ==>
      r == Fail(500, ConnectionFailed)
    ensures SignupFieldsValid(body, env.formats) && !faults.connectFails && faults.lookupError.Some? ==>
      r == CatchError(faults.lookupError.value, EmailTaken, SignupFailed, env.development)
    ensures && SignupFieldsValid(body, env.formats) && !faults.connectFails && faults.lookupError.None?
            && EmailRegistered(old(db.users), body["email"])
      ==> r == Fail(400, EmailTaken)
    ensures PreChecksPass(old(db.users), body, env, faults) && faults.createError.Some? ==>
      r == CatchError(faults.createError.value, EmailTaken, SignupFailed, env.development)
    // success: one row added, nothing else changed
    ensures r.status == 201 <==> PreChecksPass(old(db.users), body, env, faults) && faults.createError.None?
    ensures r.status == 201 ==>
      && db.users == old(db.users)[newId := NewUser(body, env, newId, now)]
      && r.body == Payload(Created("User created successfully",
           PublicUser(newId, body["name"], body["email"], StoredRole(body["role"]), now)))
    ensures r.status != 201 ==> db.users == old(db.users)
  {
    var issues := Issues(SignupSchema, body, env.formats);
    SignupSchemaAccepts(body, env.formats);
    if issues != [] {
      return Fail(400, FirstMessage(issues));
    }
    if faults.connectFails {
      return Fail(500, ConnectionFailed);
    }
    if faults.lookupError.Some? {
      return CatchError(faults.lookupError.value, EmailTaken, SignupFailed, env.development);
    }
    var email := body["email"];
    if exists id :: id in db.users && db.users[id].email == email {
      return Fail(400, EmailTaken);
    }
    var hashed := env.hash(body["password"]);
    // route.ts:75-81 rejects an upper-cased role outside the enum; StoredRole shows it cannot happen
    var role := StoredRole(body["role"]);
    if faults.createError.Some? {
      return CatchError(faults.createError.value, EmailTaken, SignupFailed, env.development);
    }
    var user := User(newId, body["name"], email, Some(hashed), role, now);
    db.users := db.users[newId := user];
    r := Response(201, Payload(Created("User created successfully",
      PublicUser(user.id, user.name, user.email, user.role, user.createdAt))));
  }
}
