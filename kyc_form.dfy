/**
 * The KYC form: the session id read on mount, the digit filters on the
 * Aadhar and phone inputs, the pre-submit checks and the submit outcome.
 */
module KycForm {
  import opened Wrappers
  import opened Text
  import opened Zod
  import opened Browser
  import KycRoute

  /** `value.replace(/\D/g, "").slice(0, limit)`: the digits, at most `limit` of them. */
  function DigitFilter(value: string, limit: nat): (r: string)
    ensures AllDigits(r) && |r| <= limit
    ensures r <= DigitsOnly(value)
    ensures |DigitsOnly(value)| <= limit ==> r == DigitsOnly(value)
    ensures |r| == if |DigitsOnly(value)| <= limit then |DigitsOnly(value)| else limit
  {
    var r := Prefix(DigitsOnly(value), limit);
    assert forall i :: 0 <= i < |r| ==> r[i] == DigitsOnly(value)[i];
    r
  }

  /** Filtering what the filter produced changes nothing, so re-rendering the input is stable. */
  lemma DigitFilterIdempotent(value: string, limit: nat)
    ensures DigitFilter(DigitFilter(value, limit), limit) == DigitFilter(value, limit)
  {
    DigitsOnlyFixesDigits(DigitFilter(value, limit));
  }

  const AadharLength := 12
  const PhoneMaxLength := 15

  const SessionMissing := "User session not found. Please login again."
  const NameRequired := "Aadhar name is required"
  const AadharLengthWrong := "Aadhar number must be exactly 12 digits"
  const PhoneTooShort := "Phone number must be at least 10 digits"
  const AddressRequired := "Address is required"
  const SubmitFailed := "Failed to submit KYC"
  const SubmitThrew := "Something went wrong. Please try again."
  const Submitted := "KYC submitted successfully!"

  /** The first pre-submit check that fails, or None when the request may be sent. */
  function PreSubmitError(userId: string, aadharName: string, aadharNumber: string,
                          phoneNumber: string, address: string): (e: Option<string>)
    ensures e == None <==>
      && userId != "" && Trim(aadharName) != ""
      && Trim(aadharNumber) != "" && |aadharNumber| == AadharLength
      && Trim(phoneNumber) != "" && |phoneNumber| >= 10 && Trim(address) != ""
  {
    if userId == "" then Some(SessionMissing)
    else if Trim(aadharName) == "" then Some(NameRequired)
    else if Trim(aadharNumber) == "" || |aadharNumber| != AadharLength then Some(AadharLengthWrong)
    else if Trim(phoneNumber) == "" || |phoneNumber| < 10 then Some(PhoneTooShort)
    else if Trim(address) == "" then Some(AddressRequired)
    else None
  }

  /** Each message is shown exactly when its check is the first one to fail. */
  lemma PreSubmitErrorMessages(userId: string, aadharName: string, aadharNumber: string,
                               phoneNumber: string, address: string)
    ensures var e := PreSubmitError(userId, aadharName, aadharNumber, phoneNumber, address);
      && (e == Some(SessionMissing) <==> userId == "")
      && (e == Some(NameRequired) <==> userId != "" && Trim(aadharName) == "")
      && (e == Some(AadharLengthWrong) <==>
           && userId != "" && Trim(aadharName) != ""
           && (Trim(aadharNumber) == "" || |aadharNumber| != AadharLength))
      && (e == Some(PhoneTooShort) <==>
           && userId != "" && Trim(aadharName) != ""
           && Trim(aadharNumber) != "" && |aadharNumber| == AadharLength
           && (Trim(phoneNumber) == "" || |phoneNumber| < 10))
      && (e == Some(AddressRequired) <==>
           && userId != "" && Trim(aadharName) != ""
           && Trim(aadharNumber) != "" && |aadharNumber| == AadharLength
           && Trim(phoneNumber) != "" && |phoneNumber| >= 10 && Trim(address) == "")
  {
  }

  /** The request body of a submission. */
  function KycRequest(userId: string, aadharName: string, aadharNumber: string,
                      phoneNumber: string, address: string): (body: Json)
    ensures body.Keys == {"userId", "aadharName", "aadharNumber", "phoneNumber", "address"}
    ensures body["userId"] == userId && body["aadharName"] == aadharName
    ensures body["aadharNumber"] == aadharNumber && body["phoneNumber"] == phoneNumber
    ensures body["address"] == address
  {
    // The keys differ in length, which is what tells them apart.
    assert |"userId"| == 6 && |"aadharName"| == 10 && |"aadharNumber"| == 12;
    assert |"phoneNumber"| == 11 && |"address"| == 7;
    map["userId" := userId, "aadharName" := aadharName, "aadharNumber" := aadharNumber,
        "phoneNumber" := phoneNumber, "address" := address]
  }

  /** What the form sends: the session id and the trimmed fields. */
  function TrimmedRequest(userId: string, aadharName: string, aadharNumber: string,
                          phoneNumber: string, address: string): (body: Json)
    ensures body.Keys == {"userId", "aadharName", "aadharNumber", "phoneNumber", "address"}
    ensures body["userId"] == userId && body["aadharName"] == Trim(aadharName)
    ensures body["aadharNumber"] == Trim(aadharNumber) && body["phoneNumber"] == Trim(phoneNumber)
    ensures body["address"] == Trim(address)
  {
    KycRequest(userId, Trim(aadharName), Trim(aadharNumber), Trim(phoneNumber), Trim(address))
  }

  /**
   * Numbers as the digit filters leave them (see `DigitFilter`) that pass
   * the pre-submit checks give a request whose Aadhar and phone numbers the
   * server accepts, and whose name and address are not empty; the server's
   * schema then accepts it whenever the session id is a UUID and the name
   * and address are within the server's maximum lengths, which the form
   * does not check.
   */
  lemma FilteredRequestMeetsServerRules(userId: string, aadharName: string, aadharNumber: string,
                                        phoneNumber: string, address: string, formats: Formats)
    requires AllDigits(aadharNumber) && |aadharNumber| <= AadharLength
    requires AllDigits(phoneNumber) && |phoneNumber| <= PhoneMaxLength
    ensures PreSubmitError(userId, aadharName, aadharNumber, phoneNumber, address) == None ==>
      var body := TrimmedRequest(userId, aadharName, aadharNumber, phoneNumber, address);
      && KycRoute.AadharNumberValid(body["aadharNumber"])
      && KycRoute.PhoneNumberValid(body["phoneNumber"])
      && |body["aadharName"]| >= 1 && |body["address"]| >= 1
      && (formats.isUuid(userId) && |Trim(aadharName)| <= 255 && |Trim(address)| <= 500
          ==> Valid(KycRoute.KycSchema, body, formats))
  {
    TrimFixesDigits(aadharNumber);
    TrimFixesDigits(phoneNumber);
    KycRoute.KycSchemaAccepts(TrimmedRequest(userId, aadharName, aadharNumber, phoneNumber, address), formats);
  }

  /**
   * The request sent once the pre-submit checks pass on filtered numbers, which
   * are then 12 and 10 to 15 digits long: its Aadhar and phone numbers are the
   * ones typed, in the server's format.
   */
  function SubmittedRequest(userId: string, aadharName: string, aadharNumber: string,
                            phoneNumber: string, address: string): (body: Json)
    requires AllDigits(aadharNumber) && |aadharNumber| == AadharLength
    requires AllDigits(phoneNumber) && 10 <= |phoneNumber| <= PhoneMaxLength
    ensures body == TrimmedRequest(userId, aadharName, aadharNumber, phoneNumber, address)
    ensures body["aadharNumber"] == aadharNumber && KycRoute.AadharNumberValid(aadharNumber)
    ensures body["phoneNumber"] == phoneNumber && KycRoute.PhoneNumberValid(phoneNumber)
  {
    TrimFixesDigits(aadharNumber);
    TrimFixesDigits(phoneNumber);
    TrimmedRequest(userId, aadharName, aadharNumber, phoneNumber, address)
  }

  class KycForm {
    var userId: string
    var aadharName: string
    var aadharNumber: string
    var phoneNumber: string
    var address: string
    var isLoading: bool
    var error: Option<string>

    /** The two numeric inputs only ever hold what their filters produce. */
    ghost predicate Valid()
      reads this
    {
      && AllDigits(aadharNumber) && |aadharNumber| <= AadharLength
      && AllDigits(phoneNumber) && |phoneNumber| <= PhoneMaxLength
    }

    /** The initial state followed by the mount effect, which reads the session id. */
    constructor (browser: Browser)
      ensures Valid()
      ensures aadharName == "" && aadharNumber == "" && phoneNumber == "" && address == "" && !isLoading
      ensures Truthy(browser.sessionUserId) ==> userId == browser.sessionUserId.value && error == None
      ensures !Truthy(browser.sessionUserId) ==> userId == "" && error == Some(SessionMissing)
    {
      aadharName, aadharNumber, phoneNumber, address := "", "", "", "";
      isLoading := false;
      if Truthy(browser.sessionUserId) {
        userId := browser.sessionUserId.value;
        error := None;
      } else {
        userId := "";
        error := Some(SessionMissing);
      }
    }

    method ChangeAadharName(value: string)
      modifies this`aadharName
      ensures aadharName == value
    {
      aadharName := value;
    }

    /** The Aadhar input's `onChange`: digits only, at most twelve. */
    method ChangeAadharNumber(value: string)
      requires Valid()
      modifies this`aadharNumber
      ensures Valid() && aadharNumber == DigitFilter(value, AadharLength)
    {
      aadharNumber := DigitFilter(value, AadharLength);
    }

    /** The phone input's `onChange`: digits only, at most fifteen. */
    method ChangePhoneNumber(value: string)
      requires Valid()
      modifies this`phoneNumber
      ensures Valid() && phoneNumber == DigitFilter(value, PhoneMaxLength)
    {
      phoneNumber := DigitFilter(value, PhoneMaxLength);
    }

    method ChangeAddress(value: string)
      modifies this`address
      ensures address == value
    {
      address := value;
    }

    /**
     * `handleSubmit` up to the awaited fetch: the error is cleared, the checks
     * run in order, and only when all pass is the form loading and the
     * trimmed request sent.
     */
    method BeginSubmit() returns (request: Option<Json>)
      requires Valid()
      modifies this`error, this`isLoading
      ensures error == PreSubmitError(userId, aadharName, aadharNumber, phoneNumber, address)
      ensures error.Some? ==> request == None && isLoading == old(isLoading)
      ensures error.None? ==>
        isLoading && request == Some(TrimmedRequest(userId, aadharName, aadharNumber, phoneNumber, address))
      ensures request.Some? ==>
        && KycRoute.AadharNumberValid(request.value["aadharNumber"])
        && KycRoute.PhoneNumberValid(request.value["phoneNumber"])
    {
      error := None;
      var u, name, number, phone, addr := userId, aadharName, aadharNumber, phoneNumber, address;
      error := PreSubmitError(u, name, number, phone, addr);
      if error.Some? {
        return None;
      }
      request := Some(SubmittedRequest(u, name, number, phone, addr));
      isLoading := true;
    }

    /**
     * `handleSubmit` after the awaited fetch: on success the session id is
     * removed and the surveyor page opened; otherwise an error is shown.
     */
    method FinishSubmit(reply: Reply, browser: Browser)
      modifies this`error, this`isLoading, browser
      ensures !isLoading
      ensures reply.Threw? ==>
        && error == Some(SubmitThrew)
        && browser.sessionUserId == old(browser.sessionUserId)
        && browser.visited == old(browser.visited) && browser.alerts == old(browser.alerts)
      ensures reply.Answered? && !reply.ok ==>
        && error == Some(if Truthy(reply.data.error) then reply.data.error.value else SubmitFailed)
        && browser.sessionUserId == old(browser.sessionUserId)
        && browser.visited == old(browser.visited) && browser.alerts == old(browser.alerts)
      ensures reply.Answered? && reply.ok ==>
        && error == old(error) && browser.sessionUserId == None
        && browser.alerts == old(browser.alerts) + [Submitted]
        && browser.visited == old(browser.visited) + ["/surveyor"]
    {
      match reply {
        case Threw =>
          error := Some(SubmitThrew);
        case Answered(ok, data) =>
          if !ok {
            error := Some(if Truthy(data.error) then data.error.value else SubmitFailed);
          } else {
            browser.sessionUserId := None;
            browser.alerts := browser.alerts + [Submitted];
            browser.visited := browser.visited + ["/surveyor"];
          }
      }
      isLoading := false;
    }
  }
}
