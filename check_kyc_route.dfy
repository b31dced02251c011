/** `GET /api/auth/check-kyc?userId=`: the role of a user and, for a SURVEYOR, whether KYC exists. */
module CheckKycRoute {
  import opened Wrappers
  import opened Server
  import LoginRoute

  const UserIdRequired := "User ID is required"
  const CheckFailed := "Failed to check KYC status"

  /** `{ hasKYC, role }`. */
  datatype KycStatus = KycStatus(hasKYC: Option<bool>, role: Role)

  /** `!userId` for a query parameter: absent or empty. */
  predicate Missing(userId: Option<string>) {
    userId.None? || userId.value == ""
  }

  /** The handler, over a snapshot of the two tables; it writes nothing. */
  function Get(users: map<string, User>, kycs: map<string, Kyc>, userId: Option<string>, faults: Faults)
    : (r: Response<KycStatus>)
    ensures r.status == 200 || r.status == 400 || r.status == 404 || r.status == 500
    ensures r.status == 400 <==> Missing(userId)
    ensures r.status == 400 ==> r.body == ErrorBody(UserIdRequired)
    ensures r.status == 500 <==> !Missing(userId) && faults.lookupError.Some?
    ensures r.status == 500 ==> r.body == ErrorBody(CheckFailed)
    ensures r.status == 404 <==> !Missing(userId) && faults.lookupError.None? && userId.value !in users
    ensures r.status == 404 ==> r.body == ErrorBody(UserNotFound)
    ensures r.status == 200 ==> userId.Some? && userId.value in users && r.body.Payload?
    ensures r.status == 200 ==> r.body.data.role == users[userId.value].role
    ensures r.status == 200 && r.body.data.role == SURVEYOR ==>
      r.body.data.hasKYC == Some(userId.value in kycs)
    ensures r.status == 200 && r.body.data.role != SURVEYOR ==> r.body.data.hasKYC == None
  {
    if Missing(userId) then Fail(400, UserIdRequired)
    else if faults.lookupError.Some? then Fail(500, CheckFailed)
    else if userId.value !in users then Fail(404, UserNotFound)
    else
      var user := users[userId.value];
      if user.role == SURVEYOR then Response(200, Payload(KycStatus(Some(userId.value in kycs), user.role)))
      else Response(200, Payload(KycStatus(None, user.role)))
  }

  /**
   * On the same tables, a successful login and a later status check of the
   * logged-in user agree on the role and on `hasKYC`.
   */
  lemma AgreesWithLogin(users: map<string, User>, kycs: map<string, Kyc>, body: Zod.Json, env: Env, faults: Faults)
    requires Consistent(users, kycs)
    requires LoginRoute.Post(users, kycs, body, env, faults).status == 200
    ensures var login := LoginRoute.Post(users, kycs, body, env, faults).body.data;
      var check := Get(users, kycs, Some(login.user.id), NoFaults);
      && check.status == 200
      && check.body.data.role == login.role
      && check.body.data.hasKYC == login.hasKYC
  {
    var login := LoginRoute.Post(users, kycs, body, env, faults);
    var id :| id in users && users[id].email == body["email"]
      && LoginRoute.Opens(users[id], body["password"], env)
      && login.body == Payload(LoginRoute.Welcome(users[id], kycs));
    assert login.body.data.user.id == id;
  }
}
