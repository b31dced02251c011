/** The signup form's submit handler: two pre-submit checks, the request, and the outcome. */
module SignupForm {
  import opened Wrappers
  import opened Zod
  import opened Browser
  import SignupRoute

  /** The role ids the role selector offers. */
  predicate IsRoleId(id: string) {
    id == "admin" || id == "manager" || id == "surveyor"
  }

  const SelectRole := "Please select a role"
  const PasswordsDiffer := "Passwords do not match"
  const AccountCreated := "Account created successfully!"
  const SomethingWrong := "Something went wrong"

  /** The request body: the full name as `name`, and never the confirmation. */
  function SignupRequest(fullName: string, email: string, password: string, role: string): (body: Json)
    ensures body.Keys == {"name", "email", "password", "role"}
    ensures body["name"] == fullName && body["email"] == email
    ensures body["password"] == password && body["role"] == role
  {
    map["name" := fullName, "email" := email, "password" := password, "role" := role]
  }

  /**
   * A request built from a selected role passes the server's role rule, and
   * the whole schema exactly when the name, email and password rules hold.
   */
  lemma RequestMeetsSchema(fullName: string, email: string, password: string, role: string, formats: Formats)
    requires IsRoleId(role)
    ensures var body := SignupRequest(fullName, email, password, role);
      Valid(SignupRoute.SignupSchema, body, formats)
      <==> (1 <= |fullName| <= 255 && formats.isEmail(email) && |password| >= 6)
  {
    SignupRoute.SignupSchemaAccepts(SignupRequest(fullName, email, password, role), formats);
  }

  class SignupForm {
    var fullName: string
    var email: string
    var password: string
    var confirmPassword: string
    var role: Option<string>
    var isLoading: bool

    /** The selector only ever sets one of its ids. */
    ghost predicate Valid()
      reads this
    {
      role.Some? ==> IsRoleId(role.value)
    }

    constructor ()
      ensures Valid() && role == None && !isLoading
      ensures fullName == "" && email == "" && password == "" && confirmPassword == ""
    {
      fullName, email, password, confirmPassword := "", "", "", "";
      role := None;
      isLoading := false;
    }

    /** The role selector's `onChange`. */
    method ChooseRole(id: string)
      requires IsRoleId(id)
      modifies this`role
      ensures Valid() && role == Some(id)
    {
      role := Some(id);
    }

    /**
     * `handleSubmit` up to the awaited fetch: the role check, then the password
     * match, then loading and the request sent.
     */
    method BeginSubmit(browser: Browser) returns (request: Option<Json>)
      requires Valid()
      modifies this`isLoading, browser`alerts
      ensures role.None? ==>
        request.None? && browser.alerts == old(browser.alerts) + [SelectRole] && isLoading == old(isLoading)
      ensures role.Some? && password != confirmPassword ==>
        request.None? && browser.alerts == old(browser.alerts) + [PasswordsDiffer] && isLoading == old(isLoading)
      ensures role.Some? && password == confirmPassword ==>
        && request == Some(SignupRequest(fullName, email, password, role.value))
        && browser.alerts == old(browser.alerts) && isLoading
      ensures request.Some? ==> IsRoleId(request.value["role"])
    {
      if role.None? {
        browser.alerts := browser.alerts + [SelectRole];
        return None;
      }
      if password != confirmPassword {
        browser.alerts := browser.alerts + [PasswordsDiffer];
        return None;
      }
      isLoading := true;
      request := Some(SignupRequest(fullName, email, password, role.value));
    }

    /** `handleSubmit` after the awaited fetch. */
    method FinishSubmit(reply: Reply, browser: Browser)
      modifies this`isLoading, browser`alerts, browser`visited
      ensures !isLoading
      ensures reply.Threw? ==>
        browser.alerts == old(browser.alerts) + [SomethingWrong] && browser.visited == old(browser.visited)
      ensures reply.Answered? && !reply.ok ==>
        browser.alerts == old(browser.alerts) + [Shown(reply.data.error)] && browser.visited == old(browser.visited)
      ensures reply.Answered? && reply.ok ==>
        browser.alerts == old(browser.alerts) + [AccountCreated] && browser.visited == old(browser.visited) + ["/login"]
    {
      match reply {
      case Threw =>
        browser.alerts := browser.alerts + [SomethingWrong];
      case Answered(ok, data) =>
        if !ok {
          browser.alerts := browser.alerts + [Shown(data.error)];
        } else {
          browser.alerts := browser.alerts + [AccountCreated];
          browser.visited := browser.visited + ["/login"];
        }
      }
      isLoading := false;
    }
  }
}
