/** The login form's submit handler and its role/KYC redirect choice. */
module LoginForm {
  import opened Wrappers
  import opened Zod
  import opened Browser

  /** The page a successful login goes to. */
  function Destination(role: Option<string>, hasKYC: Option<bool>): (target: string)
    ensures target == "/admin" <==> role == Some("ADMIN")
    ensures target == "/manager" <==> role == Some("MANAGER")
    ensures target == "/kyc" <==> role == Some("SURVEYOR") && hasKYC == Some(false)
    ensures target == "/surveyor" <==>
      role != Some("ADMIN") && role != Some("MANAGER") && !(role == Some("SURVEYOR") && hasKYC == Some(false))
  {
    if role == Some("ADMIN") then "/admin"
    else if role == Some("MANAGER") then "/manager"
    else if role == Some("SURVEYOR") then (if hasKYC == Some(false) then "/kyc" else "/surveyor")
    else "/surveyor"
  }

  const SomethingWrong := "Something went wrong"

  class LoginForm {
    var email: string
    var password: string
    var isLoading: bool

    constructor ()
      ensures email == "" && password == "" && !isLoading
    {
      email, password, isLoading := "", "", false;
    }

    /** `handleSubmit` up to the awaited fetch: loading, and the request body sent. */
    method BeginSubmit() returns (request: Json)
      modifies this`isLoading
      ensures isLoading
      ensures request == map["email" := email, "password" := password]
    {
      isLoading := true;
      request := map["email" := email, "password" := password];
    }

    /**
     * `handleSubmit` after the awaited fetch. A response without `user` makes
     * `data.user.id` throw, which lands in the catch block.
     */
    method FinishSubmit(reply: Reply, browser: Browser)
      modifies this`isLoading, browser
      ensures !isLoading
      ensures (reply.Threw? || (reply.ok && reply.data.userId.None?)) ==>
        && browser.alerts == old(browser.alerts) + [SomethingWrong]
        && browser.sessionUserId == old(browser.sessionUserId) && browser.visited == old(browser.visited)
      ensures reply.Answered? && !reply.ok ==>
        && browser.alerts == old(browser.alerts) + [Shown(reply.data.error)]
        && browser.sessionUserId == old(browser.sessionUserId) && browser.visited == old(browser.visited)
      ensures reply.Answered? && reply.ok && reply.data.userId.Some? ==>
        && browser.sessionUserId == reply.data.userId
        && browser.visited == old(browser.visited) + [Destination(reply.data.role, reply.data.hasKYC)]
        && browser.alerts == old(browser.alerts)
    {
      match reply {
      case Threw =>
        browser.alerts := browser.alerts + [SomethingWrong];
      case Answered(ok, data) =>
        if !ok {
          browser.alerts := browser.alerts + [Shown(data.error)];
        } else if data.userId.None? {
          browser.alerts := browser.alerts + [SomethingWrong];
        } else {
          browser.sessionUserId := data.userId;
          browser.visited := browser.visited + [Destination(data.role, data.hasKYC)];
        }
      }
      isLoading := false;
    }
  }
}
