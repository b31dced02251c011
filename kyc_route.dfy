/** `POST /api/kyc` (one-time KYC submission by a SURVEYOR) and `GET /api/kyc?userId=`. */
module KycRoute {
  import opened Wrappers
  import opened Text
  import opened Zod
  import opened Server

  /** `kycSchema`. */
  const KycSchema: Schema := [
    ("userId", Str([Uuid("Invalid user ID")])),
    ("aadharName", Str([Min(1, "Aadhar name is required"), Max(255, "Aadhar name is too long")])),
    ("aadharNumber", Str([Min(12, "Aadhar number must be 12 digits"), Max(12, "Aadhar number must be 12 digits"),
                          Digits("Aadhar number must contain only digits")])),
    ("phoneNumber", Str([Min(10, "Phone number must be at least 10 digits"), Max(15, "Phone number is too long"),
                         Digits("Phone number must contain only digits")])),
    ("address", Str([Min(1, "Address is required"), Max(500, "Address is too long")]))
  ]

  /** An Aadhar number as the server accepts it: exactly 12 digits. */
  predicate AadharNumberValid(s: string) {
    |s| == 12 && AllDigits(s)
  }

  /** A phone number as the server accepts it: 10 to 15 digits. */
  predicate PhoneNumberValid(s: string) {
    10 <= |s| <= 15 && AllDigits(s)
  }

  /** The schema's rules written out field by field. */
  predicate KycFieldsValid(body: Json, formats: Formats) {
    && "userId" in body && formats.isUuid(body["userId"])
    && "aadharName" in body && 1 <= |body["aadharName"]| <= 255
    && "aadharNumber" in body && AadharNumberValid(body["aadharNumber"])
    && "phoneNumber" in body && PhoneNumberValid(body["phoneNumber"])
    && "address" in body && 1 <= |body["address"]| <= 500
  }

  /** `safeParse` succeeds exactly when every field rule holds. */
  lemma KycSchemaAccepts(body: Json, formats: Formats)
    ensures Valid(KycSchema, body, formats) <==> KycFieldsValid(body, formats)
  {
    Valid5(KycSchema, body, formats);
    AcceptsStr1(body, "userId", Uuid("Invalid user ID"), formats);
    AcceptsStr2(body, "aadharName", Min(1, "Aadhar name is required"), Max(255, "Aadhar name is too long"), formats);
    AcceptsStr3(body, "aadharNumber", Min(12, "Aadhar number must be 12 digits"),
      Max(12, "Aadhar number must be 12 digits"), Digits("Aadhar number must contain only digits"), formats);
    AcceptsStr3(body, "phoneNumber", Min(10, "Phone number must be at least 10 digits"),
      Max(15, "Phone number is too long"), Digits("Phone number must contain only digits"), formats);
    AcceptsStr2(body, "address", Min(1, "Address is required"), Max(500, "Address is too long"), formats);
  }

  const SurveyorsOnly := "KYC submission is only available for SURVEYOR users"
  const AlreadySubmitted := "KYC has already been submitted. You cannot submit it again."
  const DuplicateKyc := "KYC has already been submitted for this user"
  const KycFailed := "Failed to submit KYC. Please try again."

  /** The KYC fields returned: neither the Aadhar number nor the address. */
  datatype PublicKyc = PublicKyc(id: string, userId: string, aadharName: string, phoneNumber: string, createdAt: int)

  datatype Submitted = Submitted(message: string, kyc: PublicKyc)

  function Public(k: Kyc): (p: PublicKyc)
    ensures p.id == k.id && p.userId == k.userId && p.aadharName == k.aadharName
    ensures p.phoneNumber == k.phoneNumber && p.createdAt == k.createdAt
  {
    PublicKyc(k.id, k.userId, k.aadharName, k.phoneNumber, k.createdAt)
  }

  /** The row inserted for a validated body. */
  function NewKyc(body: Json, formats: Formats, id: string, now: int): (k: Kyc)
    requires KycFieldsValid(body, formats)
    ensures k.userId == body["userId"] && k.aadharName == body["aadharName"]
    ensures k.aadharNumber == body["aadharNumber"] && k.phoneNumber == body["phoneNumber"]
    ensures k.address == body["address"] && k.id == id && k.createdAt == now
  {
    Kyc(id, body["userId"], body["aadharName"], body["aadharNumber"], body["phoneNumber"], body["address"], now)
  }

  /** Validation passed and the user lookup did not throw. */
  predicate Looked(body: Json, env: Env, faults: Faults) {
    KycFieldsValid(body, env.formats) && faults.lookupError.None?
  }

  /** Every check before the connection check passes: a SURVEYOR without a KYC row. */
  predicate Eligible(users: map<string, User>, kycs: map<string, Kyc>, body: Json, env: Env, faults: Faults) {
    && Looked(body, env, faults)
    && body["userId"] in users && users[body["userId"]].role == SURVEYOR
    && body["userId"] !in kycs
  }

  /**
   * The handler. `faults` is what the database does on this request, `kycId` the
   * fresh id and `now` the timestamp the database generates.
   */
  method Post(db: Store, body: Json, env: Env, faults: Faults, kycId: string, now: int)
      returns (r: Response<Submitted>)
    requires db.Valid()
    modifies db
    ensures db.Valid()
    ensures db.users == old(db.users)
    // the checks, in order
    ensures !KycFieldsValid(body, env.formats) ==>
      Issues(KycSchema, body, env.formats) != [] &&
      r == Fail(400, FirstMessage(Issues(KycSchema, body, env.formats)))
    ensures KycFieldsValid(body, env.formats) && faults.lookupError.Some? ==>
      r == CatchError(faults.lookupError.value, DuplicateKyc, KycFailed, env.development)
    ensures Looked(body, env, faults) && body["userId"] !in old(db.users) ==>
      r == Fail(404, UserNotFound)
    ensures && Looked(body, env, faults) && body["userId"] in old(db.users)
            && old(db.users)[body["userId"]].role != SURVEYOR
      ==> r == Fail(403, SurveyorsOnly)
    ensures && Looked(body, env, faults) && body["userId"] in old(db.users)
            && old(db.users)[body["userId"]].role == SURVEYOR && body["userId"] in old(db.kycs)
      ==> r == Fail(400, AlreadySubmitted)
    ensures Eligible(old(db.users), old(db.kycs), body, env, faults) && faults.connectFails ==>
      r == Fail(500, ConnectionFailed)
    ensures && Eligible(old(db.users), old(db.kycs), body, env, faults) && !faults.connectFails
            && faults.createError.Some?
      ==> r == CatchError(faults.createError.value, DuplicateKyc, KycFailed, env.development)
    // success: one row added under the user's id, nothing else changed
    ensures r.status == 201 <==>
      Eligible(old(db.users), old(db.kycs), body, env, faults) && !faults.connectFails && faults.createError.None?
    ensures r.status == 201 ==>
      && db.kycs == old(db.kycs)[body["userId"] := NewKyc(body, env.formats, kycId, now)]
      && r.body == Payload(Submitted("KYC submitted successfully", Public(NewKyc(body, env.formats, kycId, now))))
    ensures r.status != 201 ==> db.kycs == old(db.kycs)
  {
    var issues := Issues(KycSchema, body, env.formats);
    KycSchemaAccepts(body, env.formats);
    if issues != [] {
      return Fail(400, FirstMessage(issues));
    }
    if faults.lookupError.Some? {
      return CatchError(faults.lookupError.value, DuplicateKyc, KycFailed, env.development);
    }
    var userId := body["userId"];
    if userId !in db.users {
      return Fail(404, UserNotFound);
    }
    var user := db.users[userId];
    if user.role != SURVEYOR {
      return Fail(403, SurveyorsOnly);
    }
    if userId in db.kycs {
      return Fail(400, AlreadySubmitted);
    }
    if faults.connectFails {
      return Fail(500, ConnectionFailed);
    }
    if faults.createError.Some? {
      return CatchError(faults.createError.value, DuplicateKyc, KycFailed, env.development);
    }
    var kyc := Kyc(kycId, userId, body["aadharName"], body["aadharNumber"], body["phoneNumber"], body["address"], now);
    db.kycs := db.kycs[userId := kyc];
    r := Response(201, Payload(Submitted("KYC submitted successfully", Public(kyc))));
  }

  /** `{ exists, kyc }` of the GET endpoint. */
  datatype KycLookup = KycLookup(kycExists: bool, kyc: Option<PublicKyc>)

  /** The GET handler, over the KYC table; `faults.lookupError` is an error thrown by the lookup. */
  function Get(kycs: map<string, Kyc>, userId: Option<string>, faults: Faults): (r: Response<KycLookup>)
    ensures r.status == 200 || r.status == 400 || r.status == 500
    ensures r.status == 400 <==> userId.None? || userId.value == ""
    ensures r.status == 400 ==> r.body == ErrorBody("User ID is required")
    ensures r.status == 500 ==> r.body == ErrorBody("Failed to check KYC status")
    ensures r.status == 200 <==> userId.Some? && userId.value != "" && faults.lookupError.None?
    ensures r.status == 200 ==> r.body.Payload?
    ensures r.status == 200 ==> (r.body.data.kycExists <==> userId.value in kycs)
    ensures r.status == 200 ==> (r.body.data.kyc.None? <==> userId.value !in kycs)
    ensures r.status == 200 && userId.value in kycs ==> r.body.data.kyc == Some(Public(kycs[userId.value]))
  {
    if userId.None? || userId.value == "" then Fail(400, "User ID is required")
    else if faults.lookupError.Some? then Fail(500, "Failed to check KYC status")
    else if userId.value in kycs then Response(200, Payload(KycLookup(true, Some(Public(kycs[userId.value])))))
    else Response(200, Payload(KycLookup(false, None)))
  }
}
