/** The surveyor area's gate: a SURVEYOR without KYC is sent to the KYC page. */
module SurveyorLayout {
  import opened Wrappers
  import opened Browser

  /** What the layout renders: the verifying view or its children. */
  datatype View = Verifying | Children

  class SurveyorLayout {
    var isChecking: bool

    constructor ()
      ensures isChecking
    {
      isChecking := true;
    }

    function Render(): (v: View)
      reads this
      ensures v == Verifying <==> isChecking
    {
      if isChecking then Verifying else Children
    }

    /**
     * The mount effect; `query` and `reply` are as for the KYC page. Only a
     * surveyor reported without KYC is redirected: every other answer, and
     * a failed request, lets the children render.
     */
    method CheckKyc(browser: Browser, reply: Reply) returns (query: Option<string>)
      modifies this`isChecking, browser`visited
      ensures !Truthy(old(browser.sessionUserId)) ==>
        && query == None && browser.visited == old(browser.visited) + ["/login"]
        && isChecking == old(isChecking)
      ensures Truthy(old(browser.sessionUserId)) ==> query == old(browser.sessionUserId) && !isChecking
      ensures Truthy(old(browser.sessionUserId)) ==>
        if reply.Answered? && reply.ok && reply.data.role == Some("SURVEYOR") && reply.data.hasKYC != Some(true)
        then browser.visited == old(browser.visited) + ["/kyc"]
        else browser.visited == old(browser.visited)
    {
      if !Truthy(browser.sessionUserId) {
        browser.visited := browser.visited + ["/login"];
        return None;
      }
      query := browser.sessionUserId;
      if reply.Answered? && reply.ok {
        if reply.data.role == Some("SURVEYOR") && reply.data.hasKYC != Some(true) {
          browser.visited := browser.visited + ["/kyc"];
        }
      }
      isChecking := false;
    }
  }
}
