/**
 * The browser as the client components see it: the `userId` entry of
 * sessionStorage, the pages navigated to (by `router.push` or by assigning
 * `window.location.href`), the `alert` messages shown, and what an awaited
 * `fetch` followed by `res.json()` produced.
 */
module Browser {
  import opened Wrappers
  import Server
  import LoginRoute
  import CheckKycRoute

  class Browser {
    /** `sessionStorage.getItem("userId")`: None is `null`. */
    var sessionUserId: Option<string>
    /** Navigation targets, oldest first. */
    var visited: seq<string>
    /** Alert messages, oldest first. */
    var alerts: seq<string>

    constructor (stored: Option<string>)
      ensures sessionUserId == stored && visited == [] && alerts == []
    {
      sessionUserId := stored;
      visited := [];
      alerts := [];
    }
  }

  /** The JSON fields the components read; None is `undefined` or `null`. */
  datatype Data = Data(error: Option<string>, userId: Option<string>, role: Option<string>, hasKYC: Option<bool>)

  /** The outcome of `await fetch(...)` and `await res.json()`: a thrown error, or `res.ok` and the data. */
  datatype Reply = Threw | Answered(ok: bool, data: Data)

  /** JavaScript truthiness of an optional string: present and not empty. */
  predicate Truthy(s: Option<string>) {
    s.Some? && s.value != ""
  }

  /** `String(x)` of a value that may be undefined, as `alert` shows it. */
  function Shown(s: Option<string>): string {
    if s.Some? then s.value else "undefined"
  }

  /** `res.ok`: a status in the 2xx range. */
  predicate Ok(status: nat) {
    200 <= status <= 299
  }

  /** What the client reads from a response of the login handler. */
  function FromLogin(r: Server.Response<LoginRoute.LoggedIn>): Reply {
    match r.body
    case Payload(d) =>
      Answered(Ok(r.status), Data(None, Some(d.user.id), Some(Server.RoleName(d.role)), d.hasKYC))
    case ErrorBody(e) => Answered(Ok(r.status), Data(Some(e), None, None, None))
  }

  /** What the client reads from a response of the status-check handler. */
  function FromCheckKyc(r: Server.Response<CheckKycRoute.KycStatus>): Reply {
    match r.body
    case Payload(d) => Answered(Ok(r.status), Data(None, None, Some(Server.RoleName(d.role)), d.hasKYC))
    case ErrorBody(e) => Answered(Ok(r.status), Data(Some(e), None, None, None))
  }

  /** What the client reads from any other response (of which it only reads `error`). */
  function FromSubmission<T>(r: Server.Response<T>): Reply {
    match r.body
    case Payload(_) => Answered(Ok(r.status), Data(None, None, None, None))
    case ErrorBody(e) => Answered(Ok(r.status), Data(Some(e), None, None, None))
  }
}
