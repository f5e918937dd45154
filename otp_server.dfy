/** The two endpoints of the verification server: request validation, the "+91" prefixing
    of a number that lacks a country code, and the reply built from the verification
    service's result, which is an input here. The signed token is a function of the number,
    also an input. */
module OtpServer {
  import opened Common

  /** A member of the parsed JSON body, as far as the handlers look at it. */
  datatype Json = Absent | Str(s: string) | NonString(truthy: bool)

  predicate Truthy(j: Json) {
    match j
    case Absent => false
    case Str(s) => s != ""
    case NonString(t) => t
  }

  /** What the verification service returns when asked to send a code. */
  datatype SendResult = Created(sid: string) | SendError(message: string)

  /** What the verification service returns when asked to check a code. */
  datatype CheckResult = Checked(status: string) | CheckError(message: string)

  datatype Detail =
    | NoDetail
    | Sid(sid: string)
    | ErrorText(error: string)
    | Session(phone: string, token: string)

  datatype Response = Response(status: nat, success: bool, message: string, detail: Detail)

  /** The number the verification service was asked about (None when it was not called),
      and the reply. */
  datatype Handled = Handled(to: Option<string>, response: Response)

  const PhoneRequired := "Phone number is required"
  const SentMessage := "OTP sent successfully"
  const SendFailed := "Failed to send OTP"
  const BothRequired := "Phone and OTP are required"
  const VerifiedMessage := "OTP verified successfully"
  const InvalidOtp := "Invalid OTP"
  const VerifyFailed := "Failed to verify OTP"
  const Approved := "approved"

  /** The message of the TypeError thrown by `phone.startsWith` on a value that is not a string. */
  const NotAStringError := "phone.startsWith is not a function"

  /** The default country code, put before a number that does not start with "+". The
      result is not otherwise checked against the E.164 numbering format. */
  function Normalize(p: string): (r: string)
    ensures StartsWith(r, "+")
    ensures StartsWith(p, "+") ==> r == p
    ensures !StartsWith(p, "+") ==> r == "+91" + p
  {
    if StartsWith(p, "+") then p else "+91" + p
  }

  /** Normalising twice is normalising once. */
  lemma NormalizeIdempotent(p: string)
    ensures Normalize(Normalize(p)) == Normalize(p)
  {
  }

  /** A number written with and without the default code is sent to the same recipient. */
  lemma NormalizeMerges(p: string)
    requires !StartsWith(p, "+")
    ensures Normalize("+91" + p) == Normalize(p)
  {
    assert ("+91" + p)[..1] == "+";
  }

  /** POST /send-otp */
  function SendOtp(phone: Json, result: SendResult): Handled {
    if !Truthy(phone) then Handled(None, Response(400, false, PhoneRequired, NoDetail))
    else if phone.NonString? then Handled(None, Response(500, false, SendFailed, ErrorText(NotAStringError)))
    else
      var to := Normalize(phone.s);
      match result
      case Created(sid) => Handled(Some(to), Response(200, true, SentMessage, Sid(sid)))
      case SendError(m) => Handled(Some(to), Response(500, false, SendFailed, ErrorText(m)))
  }

  /** POST /verify-otp; `sign` stands for the token signed over the normalised number. */
  function VerifyOtp(phone: Json, code: Json, result: CheckResult, sign: string -> string): Handled {
    if !Truthy(phone) || !Truthy(code) then Handled(None, Response(400, false, BothRequired, NoDetail))
    else if phone.NonString? then Handled(None, Response(500, false, VerifyFailed, ErrorText(NotAStringError)))
    else
      var to := Normalize(phone.s);
      match result
      case Checked(status) =>
        if status == Approved then Handled(Some(to), Response(200, true, VerifiedMessage, Session(to, sign(to))))
        else Handled(Some(to), Response(400, false, InvalidOtp, NoDetail))
      case CheckError(m) => Handled(Some(to), Response(500, false, VerifyFailed, ErrorText(m)))
  }

  // ---- properties ----

  /** A missing or falsy number is refused with 400 and no code is sent. */
  lemma SendOtpRequiresPhone(phone: Json, result: SendResult)
    ensures !Truthy(phone) <==> SendOtp(phone, result).response.status == 400
    ensures !Truthy(phone) ==> SendOtp(phone, result) == Handled(None, Response(400, false, PhoneRequired, NoDetail))
  {
  }

  /** The service is called exactly for a non-empty string, with the normalised number; it
      answers 200 with the sid on success, and every error, its own or the TypeError of a
      non-string number, becomes a 500 "Failed to send OTP". */
  lemma SendOtpOutcomes(phone: Json, result: SendResult)
    ensures SendOtp(phone, result).to.Some? <==> phone.Str? && phone.s != ""
    ensures SendOtp(phone, result).to.Some? ==> SendOtp(phone, result).to.value == Normalize(phone.s)
    ensures SendOtp(phone, result).response.success <==> phone.Str? && phone.s != "" && result.Created?
    ensures SendOtp(phone, result).response.success ==>
      SendOtp(phone, result).response == Response(200, true, SentMessage, Sid(result.sid))
    ensures Truthy(phone) && !SendOtp(phone, result).response.success ==>
      SendOtp(phone, result).response.status == 500 && SendOtp(phone, result).response.message == SendFailed
  {
  }

  /** Both members are required, or the reply is 400 and nothing is checked. */
  lemma VerifyOtpRequiresBoth(phone: Json, code: Json, result: CheckResult, sign: string -> string)
    ensures !Truthy(phone) || !Truthy(code) ==>
      VerifyOtp(phone, code, result, sign) == Handled(None, Response(400, false, BothRequired, NoDetail))
  {
  }

  /** Only the status "approved" signs in, and then the session names the normalised number
      and carries the token for it; any other status is a 400 "Invalid OTP"; an error of the
      service (or a non-string number) is a 500 "Failed to verify OTP". */
  lemma VerifyOtpOutcomes(phone: Json, code: Json, result: CheckResult, sign: string -> string)
    requires Truthy(phone) && Truthy(code)
    ensures VerifyOtp(phone, code, result, sign).response.success <==>
      phone.Str? && result == Checked(Approved)
    ensures VerifyOtp(phone, code, result, sign).response.success ==>
      var to := Normalize(phone.s);
      VerifyOtp(phone, code, result, sign).response == Response(200, true, VerifiedMessage, Session(to, sign(to)))
    ensures phone.Str? && result.Checked? && result.status != Approved ==>
      VerifyOtp(phone, code, result, sign).response == Response(400, false, InvalidOtp, NoDetail)
    ensures phone.NonString? || result.CheckError? ==>
      VerifyOtp(phone, code, result, sign).response.status == 500
      && VerifyOtp(phone, code, result, sign).response.message == VerifyFailed
  {
  }

  /** The session's number always carries a country code. */
  lemma SessionPhoneHasCode(phone: Json, code: Json, result: CheckResult, sign: string -> string)
    requires VerifyOtp(phone, code, result, sign).response.detail.Session?
    ensures StartsWith(VerifyOtp(phone, code, result, sign).response.detail.phone, "+")
  {
  }
}
