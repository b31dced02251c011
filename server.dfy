/**
 * What the four API route handlers share: the database rows (Prisma's User and
 * KYC models) held in a store object, the responses, the environment the
 * handlers consult (zod formats, bcrypt, NODE_ENV) and the faults the database
 * may raise on a request.
 */
module Server {
  import opened Wrappers
  import opened Text
  import opened Zod

  /** The Prisma `Role` enum. */
  datatype Role = ADMIN | MANAGER | SURVEYOR

  /** How a role is written in JSON and compared by the client. */
  function RoleName(role: Role): string {
    match role
    case ADMIN => "ADMIN"
    case MANAGER => "MANAGER"
    case SURVEYOR => "SURVEYOR"
  }

  /** A user row; `password` is nullable (accounts made another way have none). */
  datatype User = User(id: string, name: string, email: string, password: Option<string>, role: Role, createdAt: int)

  /** A KYC row; `userId` is unique, so a user owns at most one. */
  datatype Kyc = Kyc(
    id: string, userId: string, aadharName: string, aadharNumber: string,
    phoneNumber: string, address: string, createdAt: int)

  /**
   * The handlers' environment: zod's abstract formats, bcrypt's `hash` (cost
   * factor left out) and `compare`, and whether NODE_ENV is "development".
   */
  datatype Env = Env(
    formats: Formats, hash: string -> string, compare: (string, string) -> bool, development: bool)

  /** What bcrypt guarantees: a hash is never empty, and a password matches its own hash. */
  ghost predicate HashSound(env: Env) {
    forall p :: env.hash(p) != "" && env.compare(p, env.hash(p))
  }

  /**
   * What the database does on one request: the error thrown by the row lookup
   * (if any), whether `$connect` fails, and the error thrown by the insert (if any).
   */
  datatype Faults = Faults(lookupError: Option<string>, connectFails: bool, createError: Option<string>)

  const NoFaults := Faults(None, false, None)

  /** A JSON response body: the handler's payload, or `{ error }`. */
  datatype Body<T> = Payload(data: T) | ErrorBody(error: string)

  datatype Response<T> = Response(status: nat, body: Body<T>)

  function Fail<T>(status: nat, message: string): Response<T> {
    Response(status, ErrorBody(message))
  }

  const ConnectionFailed := "Database connection failed. Please check your database configuration."
  const UserNotFound := "User not found"

  /** The catch blocks' test for a uniqueness violation: either spelling, or Prisma's code P2002. */
  predicate IsUniqueViolation(message: string)
    // the shortest spelling it looks for is "P2002"
    ensures |message| < 5 ==> !IsUniqueViolation(message)
  {
    Contains(message, "Unique constraint") || Contains(message, "Unique violation") || Contains(message, "P2002")
  }

  /** A message that mentions any of the three markers anywhere is taken for a uniqueness violation. */
  lemma UniqueViolationMarkers(before: string, after: string)
    ensures IsUniqueViolation(before + "Unique constraint" + after)
    ensures IsUniqueViolation(before + "Unique violation" + after)
    ensures IsUniqueViolation(before + "P2002" + after)
  {
    ContainsInfix(before, "Unique constraint", after);
    ContainsInfix(before, "Unique violation", after);
    ContainsInfix(before, "P2002", after);
  }

  /**
   * The response of a mutating handler's catch block for an Error with `message`:
   * a uniqueness violation becomes the 400 `conflict`, anything else a 500 whose
   * text is the error's own message in development and `generic` otherwise.
   */
  function CatchError<T>(message: string, conflict: string, generic: string, development: bool): (r: Response<T>)
    ensures r.status == 400 <==> IsUniqueViolation(message)
    ensures r.status == 400 || r.status == 500
    ensures r.status == 400 ==> r.body == ErrorBody(conflict)
    ensures r.status == 500 && development ==> r.body == ErrorBody(message)
    ensures r.status == 500 && !development ==> r.body == ErrorBody(generic)
  {
    if IsUniqueViolation(message) then Fail(400, conflict)
    else Fail(500, if development then message else generic)
  }

  /** The unique index on `email`. */
  predicate EmailsUnique(users: map<string, User>) {
    forall a, b :: a in users && b in users && users[a].email == users[b].email ==> a == b
  }

  /**
   * The invariant of the two tables: users are keyed by their non-empty id,
   * emails are unique, and each KYC row is keyed by the id of its owner, who
   * exists and is a SURVEYOR.
   */
  ghost predicate Consistent(users: map<string, User>, kycs: map<string, Kyc>) {
    && (forall id :: id in users ==> users[id].id == id && id != "")
    && EmailsUnique(users)
    && (forall id :: id in kycs ==> id in users && kycs[id].userId == id && users[id].role == SURVEYOR)
  }

  /** The database: the User table by id and the KYC table by owner id. */
  class Store {
    var users: map<string, User>
    var kycs: map<string, Kyc>

    ghost predicate Valid()
      reads this
    {
      Consistent(users, kycs)
    }

    constructor ()
      ensures Valid()
      ensures users == map[] && kycs == map[]
    {
      users := map[];
      kycs := map[];
    }
  }
}
