/** The KYC page's gate: only a SURVEYOR without a KYC record gets the form. */
module KycPage {
  import opened Wrappers
  import opened Browser

  /** What the page renders: the loading view, nothing, or the KYC form. */
  datatype View = Loading | Blank | Form

  class KycPage {
    var isChecking: bool
    var canSubmit: bool

    constructor ()
      ensures isChecking && !canSubmit
    {
      isChecking, canSubmit := true, false;
    }

    /** The rendered view for the current state. */
    function Render(): (v: View)
      reads this
      ensures v == Loading <==> isChecking
      ensures v == Form <==> !isChecking && canSubmit
    {
      if isChecking then Loading else if !canSubmit then Blank else Form
    }

    /**
     * The mount effect. `query` is the `userId` the status check was asked
     * about (None when no request went out), and `reply` is what that
     * request produced.
     */
    method CheckKycStatus(browser: Browser, reply: Reply) returns (query: Option<string>)
      modifies this, browser`visited
      ensures !Truthy(old(browser.sessionUserId)) ==>
        && query == None && browser.visited == old(browser.visited) + ["/login"]
        && isChecking == old(isChecking) && canSubmit == old(canSubmit)
      ensures Truthy(old(browser.sessionUserId)) ==> query == old(browser.sessionUserId) && !isChecking
      ensures Truthy(old(browser.sessionUserId)) && reply.Answered? && reply.ok ==>
        if reply.data.role == Some("SURVEYOR") && reply.data.hasKYC == Some(true) then
          browser.visited == old(browser.visited) + ["/surveyor"] && canSubmit == old(canSubmit)
        else if reply.data.role != Some("SURVEYOR") then
          browser.visited == old(browser.visited) + ["/login"] && canSubmit == old(canSubmit)
        else
          browser.visited == old(browser.visited) && canSubmit
      ensures Truthy(old(browser.sessionUserId)) && !(reply.Answered? && reply.ok) ==>
        browser.visited == old(browser.visited) && canSubmit == old(canSubmit)
    {
      if !Truthy(browser.sessionUserId) {
        browser.visited := browser.visited + ["/login"];
        return None;
      }
      query := browser.sessionUserId;
      if reply.Answered? && reply.ok {
        if reply.data.role == Some("SURVEYOR") && reply.data.hasKYC == Some(true) {
          browser.visited := browser.visited + ["/surveyor"];
        } else if reply.data.role != Some("SURVEYOR") {
          browser.visited := browser.visited + ["/login"];
        } else {
          canSubmit := true;
        }
      }
      isChecking := false;
    }
  }

  /**
   * From a freshly mounted page, the form is shown exactly when the session
   * holds an id and the status check answered ok for a SURVEYOR without KYC;
   * in every case at most one navigation happens.
   */
  method MountedView(browser: Browser, reply: Reply) returns (v: View)
    modifies browser`visited
    ensures v == Form <==>
      && Truthy(old(browser.sessionUserId)) && reply.Answered? && reply.ok
      && reply.data.role == Some("SURVEYOR") && reply.data.hasKYC != Some(true)
    ensures v == Loading <==> !Truthy(old(browser.sessionUserId))
    ensures |browser.visited| <= |old(browser.visited)| + 1
  {
    var page := new KycPage();
    var _ := page.CheckKycStatus(browser, reply);
    v := page.Render();
  }
}
