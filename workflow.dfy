/**
 * Journeys across the handlers and the client components: a surveyor signs
 * up, is sent to the KYC page, submits KYC and is then sent to the
 * dashboard; a repeated signup or KYC submission is refused; and the
 * session is gone after a KYC submission.
 */
module Workflow {
  import opened Wrappers
  import opened Text
  import opened Zod
  import opened Server
  import SignupRoute
  import LoginRoute
  import KycRoute
  import opened Browser
  import LoginForm
  import KycForm
  import SurveyorLayout
  import KycPage
  import CheckKycRoute

  const JaneEmail := "jane@example.com"
  const JanePassword := "secret1"

  function JaneSignup(): Json {
    map["name" := "Jane Doe", "email" := JaneEmail, "password" := JanePassword, "role" := "surveyor"]
  }

  function JaneLogin(): Json {
    map["email" := JaneEmail, "password" := JanePassword]
  }

  function JaneKyc(userId: string): Json {
    map["userId" := userId, "aadharName" := "Jane Doe", "aadharNumber" := "123456789012",
        "phoneNumber" := "9876543210", "address" := "12 Park Street"]
  }

  /** On an empty database, Jane's signup passes every check before the insert. */
  lemma JaneMaySignUp(env: Env)
    requires env.formats.isEmail(JaneEmail)
    ensures SignupRoute.PreChecksPass(map[], JaneSignup(), env, NoFaults)
  {
  }

  /** The row Jane's signup inserts is a SURVEYOR's, with her password's hash. */
  lemma JaneRow(env: Env, userId: string, now: int)
    requires env.formats.isEmail(JaneEmail)
    ensures var u := SignupRoute.NewUser(JaneSignup(), env, userId, now);
      u.role == SURVEYOR && u.email == JaneEmail && u.id == userId && u.password == Some(env.hash(JanePassword))
  {
    var u := SignupRoute.NewUser(JaneSignup(), env, userId, now);
    assert RoleName(u.role) == ToUpper("surveyor");
    assert ToUpper("surveyor") == "SURVEYOR";
  }

  /** The login body a user types after signing up with `body`. */
  function LoginOf(body: Json): Json
    requires "email" in body && "password" in body
  {
    map["email" := body["email"], "password" := body["password"]]
  }

  /**
   * Signing up and then logging in with the same email and password opens
   * the new account, whatever KYC rows exist: the email is unique, so the
   * lookup finds the new row, and bcrypt matches the password to its hash.
   */
  lemma SignupThenLogin(users: map<string, User>, kycs: map<string, Kyc>, body: Json, env: Env, id: string, now: int)
    requires HashSound(env) && EmailsUnique(users)
    requires SignupRoute.PreChecksPass(users, body, env, NoFaults) && id !in users
    ensures var u := SignupRoute.NewUser(body, env, id, now);
      && EmailsUnique(users[id := u])
      && LoginRoute.Post(users[id := u], kycs, LoginOf(body), env, NoFaults) == Response(200, Payload(LoginRoute.Welcome(u, kycs)))
  {
    var u := SignupRoute.NewUser(body, env, id, now);
    var after := users[id := u];
    assert LoginRoute.Opens(after[id], body["password"], env);
    forall other | other in after && after[other].email == body["email"] ensures other == id {
      if other != id {
        assert SignupRoute.EmailRegistered(users, body["email"]);
      }
    }
  }

  /** Jane's KYC form passes the server's rules. */
  lemma JaneKycValid(env: Env, userId: string)
    requires env.formats.isUuid(userId)
    ensures KycRoute.KycFieldsValid(JaneKyc(userId), env.formats)
  {
    var number, phone := "123456789012", "9876543210";
    assert forall i :: 0 <= i < |number| ==> IsDigit(number[i]);
    assert forall i :: 0 <= i < |phone| ==> IsDigit(phone[i]);
  }

  /**
   * A new surveyor's first login leads to the KYC page; once the KYC is
   * submitted, the next login leads to the surveyor dashboard.
   */
  method SurveyorJourney(env: Env, userId: string, kycId: string, signedUpAt: int, submittedAt: int)
      returns (signup: nat, firstTarget: string, submission: nat, secondTarget: string)
    requires HashSound(env)
    requires env.formats.isEmail(JaneEmail) && env.formats.isUuid(userId) && userId != ""
    ensures signup == 201 && firstTarget == "/kyc"
    ensures submission == 201 && secondTarget == "/surveyor"
  {
    var db := new Store();
    JaneMaySignUp(env);
    var r1 := SignupRoute.Post(db, JaneSignup(), env, NoFaults, userId, signedUpAt);
    signup := r1.status;
    var jane := SignupRoute.NewUser(JaneSignup(), env, userId, signedUpAt);
    JaneRow(env, userId, signedUpAt);

    SignupThenLogin(map[], map[], JaneSignup(), env, userId, signedUpAt);
    assert LoginOf(JaneSignup()) == JaneLogin();
    var reply1 := FromLogin(LoginRoute.Post(db.users, db.kycs, JaneLogin(), env, NoFaults));
    firstTarget := LoginForm.Destination(reply1.data.role, reply1.data.hasKYC);

    JaneKycValid(env, userId);
    var r2 := KycRoute.Post(db, JaneKyc(userId), env, NoFaults, kycId, submittedAt);
    submission := r2.status;

    SignupThenLogin(map[], db.kycs, JaneSignup(), env, userId, signedUpAt);
    var reply2 := FromLogin(LoginRoute.Post(db.users, db.kycs, JaneLogin(), env, NoFaults));
    secondTarget := LoginForm.Destination(reply2.data.role, reply2.data.hasKYC);
  }

  /** A second signup with an email already registered is refused and adds no user. */
  method SignupTwice(db: Store, body: Json, env: Env, firstId: string, secondId: string, now: int)
      returns (first: Response<SignupRoute.Created>, second: Response<SignupRoute.Created>)
    requires db.Valid()
    requires firstId != secondId && firstId != "" && secondId != ""
    requires firstId !in db.users && secondId !in db.users
    modifies db
    ensures first.status == 201 ==>
      && second == Fail(400, SignupRoute.EmailTaken)
      && db.users.Keys == old(db.users).Keys + {firstId}
  {
    first := SignupRoute.Post(db, body, env, NoFaults, firstId, now);
    if first.status == 201 {
      assert db.users[firstId].email == body["email"];
    }
    second := SignupRoute.Post(db, body, env, NoFaults, secondId, now);
  }

  /** A second KYC submission for the same user is refused and the first record stays. */
  method SubmitKycTwice(db: Store, body: Json, env: Env, firstId: string, secondId: string, now: int)
      returns (first: Response<KycRoute.Submitted>, second: Response<KycRoute.Submitted>)
    requires db.Valid()
    modifies db
    ensures first.status == 201 ==>
      && KycRoute.KycFieldsValid(body, env.formats)
      && second == Fail(400, KycRoute.AlreadySubmitted)
      && db.kycs == old(db.kycs)[body["userId"] := KycRoute.NewKyc(body, env.formats, firstId, now)]
  {
    first := KycRoute.Post(db, body, env, NoFaults, firstId, now);
    second := KycRoute.Post(db, body, env, NoFaults, secondId, now);
  }

  /**
   * After a successful KYC submission the session id is gone, so the
   * surveyor area the form navigates to sends the user on to the login page
   * and stays on its verifying view.
   */
  method ReturnAfterKyc(storedId: string, data: Data, statusReply: Reply)
      returns (visited: seq<string>, view: SurveyorLayout.View)
    requires storedId != ""
    ensures visited == ["/surveyor", "/login"]
    ensures view == SurveyorLayout.Verifying
  {
    var browser := new Browser(Some(storedId));
    var form := new KycForm.KycForm(browser);
    form.FinishSubmit(Answered(true, data), browser);
    var layout := new SurveyorLayout.SurveyorLayout();
    var _ := layout.CheckKyc(browser, statusReply);
    visited := browser.visited;
    view := layout.Render();
  }

  /**
   * The surveyor layout and the KYC page, both fed the status check's
   * answer for a logged-in user, agree: a SURVEYOR without KYC is sent
   * from the layout to the KYC page and gets the form there; a SURVEYOR
   * with KYC stays in the layout and is sent from the KYC page to the
   * dashboard; any other role stays in the layout and is sent from the
   * KYC page to the login page.
   */
  method GatesAgree(users: map<string, User>, kycs: map<string, Kyc>, userId: string)
      returns (layoutVisits: seq<string>, pageVisits: seq<string>, pageView: KycPage.View)
    requires userId != "" && userId in users
    ensures users[userId].role == SURVEYOR && userId !in kycs ==>
      layoutVisits == ["/kyc"] && pageVisits == [] && pageView == KycPage.Form
    ensures users[userId].role == SURVEYOR && userId in kycs ==>
      layoutVisits == [] && pageVisits == ["/surveyor"] && pageView == KycPage.Blank
    ensures users[userId].role != SURVEYOR ==>
      layoutVisits == [] && pageVisits == ["/login"] && pageView == KycPage.Blank
  {
    var reply := FromCheckKyc(CheckKycRoute.Get(users, kycs, Some(userId), NoFaults));
    assert RoleName(users[userId].role) == "SURVEYOR" <==> users[userId].role == SURVEYOR;
    var inLayout := new Browser(Some(userId));
    var layout := new SurveyorLayout.SurveyorLayout();
    var _ := layout.CheckKyc(inLayout, reply);
    layoutVisits := inLayout.visited;
    var onPage := new Browser(Some(userId));
    var page := new KycPage.KycPage();
    var _ := page.CheckKycStatus(onPage, reply);
    pageVisits := onPage.visited;
    pageView := page.Render();
  }

  /**
   * A surveyor who submits the KYC form again after a first submission
   * succeeded is shown the server's refusal.
   */
  method ResubmissionShown(db: Store, body: Json, env: Env, firstId: string, secondId: string, now: int,
                           browser: Browser, form: KycForm.KycForm)
      returns (first: Response<KycRoute.Submitted>)
    requires db.Valid()
    modifies db, browser, form
    ensures first.status == 201 ==> form.error == Some(KycRoute.AlreadySubmitted) && !form.isLoading
  {
    var second;
    first, second := SubmitKycTwice(db, body, env, firstId, secondId, now);
    form.FinishSubmit(FromSubmission(second), browser);
  }
}
