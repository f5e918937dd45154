/** The mobile-number sign-in: a two-step machine (enter the number, then the one-time code)
    with a busy flag and an error line, the sanitiser of the code input, and the hand-over of
    the server's token to the session store. Each awaited request is given by its outcome. */
module MobileLogin {
  import opened Common
  import opened UserDetails
  import opened AuthContext
  import AppRoutes

  // ---- the code-input sanitiser: `value.replace(/\D/g, '').slice(0, 6)` ----

  /** `\d` without the unicode flag: the ASCII digits. */
  predicate IsDigit(c: char) {
    '0' <= c <= '9'
  }

  ghost predicate AllDigits(s: string) {
    forall i :: 0 <= i < |s| ==> IsDigit(s[i])
  }

  /** Removes every non-digit, keeping the digits in order. */
  function Digits(s: string): (r: string)
    ensures |r| <= |s|
    ensures AllDigits(r)
  {
    if s == [] then []
    else (if IsDigit(s[0]) then [s[0]] else []) + Digits(s[1..])
  }

  /** The value the code input keeps: its digits, at most six. */
  function OtpFilter(s: string): (r: string)
    ensures |r| <= 6
    ensures AllDigits(r)
    ensures |r| <= |Digits(s)| && r == Digits(s)[..|r|]
    ensures |Digits(s)| <= 6 ==> r == Digits(s)
    ensures |Digits(s)| > 6 ==> r == Digits(s)[..6]
  {
    var d := Digits(s);
    if |d| <= 6 then d else d[..6]
  }

  /** Filtering distributes over concatenation, so the digits come out in input order. */
  lemma {:induction false} DigitsAppend(a: string, b: string)
    ensures Digits(a + b) == Digits(a) + Digits(b)
    decreases |a|
  {
    if a == [] {
      assert a + b == b;
    } else {
      assert (a + b)[0] == a[0];
      assert (a + b)[1..] == a[1..] + b;
      DigitsAppend(a[1..], b);
    }
  }

  lemma DigitsOfOne(c: char)
    ensures Digits([c]) == if IsDigit(c) then [c] else []
  {
    assert [c][1..] == [];
  }

  /** A string of digits is left as it is. */
  lemma {:induction false} DigitsOfDigits(s: string)
    requires AllDigits(s)
    ensures Digits(s) == s
    decreases |s|
  {
    if s != [] {
      DigitsOfDigits(s[1..]);
      assert [s[0]] + s[1..] == s;
    }
  }

  /** The strings the filter leaves unchanged are exactly the digit strings of length at
      most six. */
  lemma OtpFilterFixedIff(s: string)
    ensures OtpFilter(s) == s <==> AllDigits(s) && |s| <= 6
  {
    if AllDigits(s) && |s| <= 6 {
      DigitsOfDigits(s);
    }
  }

  /** Filtering twice is filtering once. */
  lemma OtpFilterIdempotent(s: string)
    ensures OtpFilter(OtpFilter(s)) == OtpFilter(s)
  {
    OtpFilterFixedIff(OtpFilter(s));
  }

  // ---- the form ----

  datatype Step = PhoneStep | OtpStep

  /** `pending` counts the delayed callbacks of a failed resend not yet fired. */
  datatype State = State(step: Step, phone: string, code: string, loading: bool,
                         error: string, pending: nat)

  const Initial := State(PhoneStep, "", "", false, "", 0)

  /** The result of POST /send-otp: a 2xx reply with its message, or a rejection carrying
      the reply's message if there was a reply with one. */
  datatype SendOutcome = Sent(message: string) | SendFailed(reason: Option<string>)

  /** The result of POST /verify-otp: a 2xx reply with its message and token, or a rejection. */
  datatype VerifyOutcome = Verified(message: string, token: Option<string>) | VerifyFailed(reason: Option<string>)

  /** The result of the resend request: a parsed reply, or an exception from the request or
      from reading its body as JSON. */
  datatype ResendOutcome = ResendReplied(success: bool, message: Option<string>) | ResendThrew

  const NoPhoneMessage := "Please enter phone number"
  const SendErrorMessage := "Error sending OTP"
  const NoCodeMessage := "Please enter OTP"
  const VerifyErrorMessage := "Error verifying OTP"
  const ResendErrorMessage := "Failed to resend OTP"

  /** `m || d` for an optional message. */
  function OrElse(m: Option<string>, d: string): (r: string)
    ensures r != "" || d == ""
    ensures m.Some? && m.value != "" ==> r == m.value
  {
    if m.Some? && m.value != "" then m.value else d
  }

  function EditPhone(s: State, v: string): State { s.(phone := v) }

  function EditCode(s: State, raw: string): State { s.(code := OtpFilter(raw)) }

  /** sendcode */
  function SendCode(s: State, o: SendOutcome): State {
    if s.phone == "" then s.(error := NoPhoneMessage)
    else match o
         case Sent(m) => s.(error := m, step := OtpStep, loading := false)
         case SendFailed(m) => s.(error := OrElse(m, SendErrorMessage), loading := false)
  }

  /** verifyOtp, as it changes the form. */
  function VerifyCode(s: State, o: VerifyOutcome): State {
    if s.code == "" then s.(error := NoCodeMessage)
    else match o
         case Verified(m, _) => s.(error := m, loading := false)
         case VerifyFailed(m) => s.(error := OrElse(m, VerifyErrorMessage), loading := false)
  }

  /** The user object `login` receives from verifyOtp, or None when it is not called. The
      reply's members outside the user fields (success, message, userDetails) are not part
      of the user model; what remains is the token. */
  function LoginUser(s: State, o: VerifyOutcome): Option<User> {
    if s.code != "" && o.Verified? && o.token.Some? && o.token.value != "" then
      Some(map[Token := Text(o.token.value)])
    else None
  }

  /** handleResendOTP */
  function Resend(s: State, o: ResendOutcome): State {
    var started := s.(loading := true, error := "");
    match o
    case ResendReplied(success, m) =>
      (if !success then started.(error := OrElse(m, ResendErrorMessage)) else started).(loading := false)
    case ResendThrew => started.(pending := s.pending + 1)
  }

  function ResendTimerFires(s: State): State
    requires s.pending > 0
  {
    s.(loading := false, pending := s.pending - 1)
  }

  /** The "Change mobile number" button. */
  function ChangeNumber(s: State): State {
    s.(step := PhoneStep, code := "", error := "")
  }

  // ---- properties of single handlers ----

  /** An empty number only sets the error: no request is made and nothing else changes. */
  lemma SendWithoutPhone(s: State, o: SendOutcome)
    requires s.phone == ""
    ensures SendCode(s, o) == s.(error := NoPhoneMessage)
  {
  }

  /** A successful send moves to the code step showing the server's message; a failed one
      stays and shows the server's message or the fallback; both clear the busy flag. */
  lemma SendOutcomes(s: State, o: SendOutcome)
    requires s.phone != ""
    ensures o.Sent? ==> SendCode(s, o) == s.(step := OtpStep, error := o.message, loading := false)
    ensures o.SendFailed? ==> SendCode(s, o) == s.(error := OrElse(o.reason, SendErrorMessage), loading := false)
    ensures !SendCode(s, o).loading
    ensures o.SendFailed? ==> SendCode(s, o).step == s.step && SendCode(s, o).error != ""
  {
  }

  /** An empty code only sets the error and login is not called; otherwise the busy flag is
      cleared whatever the outcome, and login is called exactly when the reply carries a
      non-empty token. */
  lemma VerifyOutcomes(s: State, o: VerifyOutcome)
    ensures s.code == "" ==> VerifyCode(s, o) == s.(error := NoCodeMessage) && LoginUser(s, o).None?
    ensures s.code != "" ==> !VerifyCode(s, o).loading
    ensures s.code != "" && o.Verified? ==> VerifyCode(s, o).error == o.message
    ensures s.code != "" && o.VerifyFailed? ==> VerifyCode(s, o).error == OrElse(o.reason, VerifyErrorMessage)
    ensures LoginUser(s, o).Some? <==> s.code != "" && o.Verified? && o.token.Some? && o.token.value != ""
    ensures VerifyCode(s, o).step == s.step && VerifyCode(s, o).phone == s.phone && VerifyCode(s, o).code == s.code
  {
  }

  /** Resend clears the error first; a reply clears the busy flag at once, an exception leaves
      it to a delayed callback. */
  lemma ResendOutcomes(s: State, o: ResendOutcome)
    ensures o.ResendReplied? ==> !Resend(s, o).loading && Resend(s, o).pending == s.pending
    ensures o.ResendReplied? && o.success ==> Resend(s, o).error == ""
    ensures o.ResendReplied? && !o.success ==> Resend(s, o).error == OrElse(o.message, ResendErrorMessage)
    ensures o.ResendThrew? ==> Resend(s, o).loading && Resend(s, o).error == "" && Resend(s, o).pending == s.pending + 1
    ensures Resend(s, o).step == s.step && Resend(s, o).phone == s.phone && Resend(s, o).code == s.code
  {
  }

  /** "Change mobile number" returns to the first step, keeps the number and clears the rest. */
  lemma ChangeNumberKeepsPhone(s: State)
    ensures ChangeNumber(s).step == PhoneStep && ChangeNumber(s).phone == s.phone
    ensures ChangeNumber(s).code == "" && ChangeNumber(s).error == ""
  {
  }

  // ---- what the sign-in hands to the session ----

  /** The extra `setItem('authToken', token)` before login is overwritten by login itself. */
  lemma ExtraTokenWriteRedundant(st: Storage, s: State, o: VerifyOutcome)
    requires LoginUser(s, o).Some?
    ensures LoginStorage(st[TokenKey := o.token.value], LoginUser(s, o).value) == LoginStorage(st, LoginUser(s, o).value)
  {
  }

  /** The session a code sign-in creates survives a reload, but it carries no role: "/" and
      the catch-all route then redirect into each other without end. */
  lemma SignInSessionHasNoRole(st: Storage, s: State, o: VerifyOutcome, fuel: nat)
    requires LoginUser(s, o).Some?
    ensures Restore(LoginStorage(st, LoginUser(s, o).value)) == Restored(LoginUser(s, o))
    ensures Role !in LoginUser(s, o).value
    ensures AppRoutes.Settle("/", LoginUser(s, o), fuel) == None
  {
    var u := LoginUser(s, o).value;
    RestoreAfterLogin(st, u);
    AppRoutes.OtherRolesLoop(u, fuel);
  }

  // ---- the events the form offers ----

  datatype Event =
    | TypePhone(phone: string)
    | TypeCode(raw: string)
    | SubmitPhone(sendOutcome: SendOutcome)
    | SubmitCode(verifyOutcome: VerifyOutcome)
    | ResendCode(resendOutcome: ResendOutcome)
    | ResendTimer
    | ChangeMobileNumber

  predicate Applicable(s: State, e: Event) {
    e.ResendTimer? ==> s.pending > 0
  }

  function Apply(s: State, e: Event): State
    requires Applicable(s, e)
  {
    match e
    case TypePhone(v) => EditPhone(s, v)
    case TypeCode(raw) => EditCode(s, raw)
    case SubmitPhone(o) => SendCode(s, o)
    case SubmitCode(o) => VerifyCode(s, o)
    case ResendCode(o) => Resend(s, o)
    case ResendTimer => ResendTimerFires(s)
    case ChangeMobileNumber => ChangeNumber(s)
  }

  /** What the rendered step offers: the submit buttons and the resend button are disabled
      while busy; the browser's `required` check blocks a submit with an empty input, and
      `maxLength` keeps a typed number to 13 characters. */
  predicate Enabled(s: State, e: Event) {
    match e
    case TypePhone(v) => s.step == PhoneStep && |v| <= 13
    case TypeCode(_) => s.step == OtpStep
    case SubmitPhone(_) => s.step == PhoneStep && !s.loading && s.phone != ""
    case SubmitCode(_) => s.step == OtpStep && !s.loading && s.code != ""
    case ResendCode(_) => s.step == OtpStep && !s.loading
    case ResendTimer => s.pending > 0
    case ChangeMobileNumber => s.step == OtpStep
  }

  lemma EnabledIsApplicable(s: State, e: Event)
    requires Enabled(s, e)
    ensures Applicable(s, e)
  {
  }

  function Trace(s: State, es: seq<Event>): Option<State>
    decreases |es|
  {
    if es == [] then Some(s)
    else if !Enabled(s, es[0]) then None
    else
      EnabledIsApplicable(s, es[0]);
      Trace(Apply(s, es[0]), es[1..])
  }

  /** The code always passes the filter, the code step is reached only with a number typed,
      and the busy flag is raised exactly while a delayed resend callback is pending. */
  ghost predicate Reachable(s: State) {
    && AllDigits(s.code) && |s.code| <= 6
    && (s.step == OtpStep ==> s.phone != "")
    && s.pending <= 1 && s.loading == (s.pending == 1)
  }

  lemma EnabledKeepsReachable(s: State, e: Event)
    requires Reachable(s) && Enabled(s, e)
    ensures Reachable(Apply(s, e))
  {
  }

  lemma {:induction false} TraceStaysReachable(s: State, es: seq<Event>)
    requires Reachable(s)
    requires Trace(s, es).Some?
    ensures Reachable(Trace(s, es).value)
    decreases |es|
  {
    if es != [] {
      EnabledIsApplicable(s, es[0]);
      EnabledKeepsReachable(s, es[0]);
      TraceStaysReachable(Apply(s, es[0]), es[1..]);
    }
  }

  /** In every run from the empty form the code is at most six digits and the code step is
      only reached with a number typed. */
  lemma FormInvariant(es: seq<Event>)
    requires Trace(Initial, es).Some?
    ensures AllDigits(Trace(Initial, es).value.code) && |Trace(Initial, es).value.code| <= 6
    ensures Trace(Initial, es).value.step == OtpStep ==> Trace(Initial, es).value.phone != ""
  {
    TraceStaysReachable(Initial, es);
  }

  // ---- the component ----

  class MobileLoginForm {
    var step: Step
    var phone: string
    var code: string
    var loading: bool
    var error: string
    var pending: nat
    /** The session store the form signs into. */
    const auth: AuthProvider

    function Snapshot(): State
      reads this
    {
      State(step, phone, code, loading, error, pending)
    }

    constructor (auth: AuthProvider)
      ensures Snapshot() == Initial && this.auth == auth
    {
      step := PhoneStep;
      phone := "";
      code := "";
      loading := false;
      error := "";
      pending := 0;
      this.auth := auth;
    }

    method SetPhone(v: string)
      modifies this
      ensures Snapshot() == EditPhone(old(Snapshot()), v)
    {
      phone := v;
    }

    method SetCode(raw: string)
      modifies this
      ensures Snapshot() == EditCode(old(Snapshot()), raw)
    {
      code := OtpFilter(raw);
    }

    method SendCodeRequest(o: SendOutcome)
      modifies this
      ensures Snapshot() == SendCode(old(Snapshot()), o)
    {
      if phone == "" {
        error := NoPhoneMessage;
        return;
      }
      loading := true;
      match o {
        case Sent(m) =>
          error := m;
          step := OtpStep;
        case SendFailed(m) =>
          error := OrElse(m, SendErrorMessage);
      }
      loading := false;
    }

    /** verifyOtp: updates the form and, for a reply with a token, stores the token and signs
        the user in. */
    method VerifyOtp(o: VerifyOutcome)
      modifies this, auth
      ensures Snapshot() == VerifyCode(old(Snapshot()), o)
      ensures LoginUser(old(Snapshot()), o).None? ==>
        auth.storage == old(auth.storage) && auth.user == old(auth.user)
      ensures LoginUser(old(Snapshot()), o).Some? ==>
        && auth.storage == LoginStorage(old(auth.storage), LoginUser(old(Snapshot()), o).value)
        && auth.user == LoginUser(old(Snapshot()), o)
    {
      if code == "" {
        error := NoCodeMessage;
        return;
      }
      loading := true;
      match o {
        case Verified(m, token) =>
          error := m;
          if token.Some? && token.value != "" {
            auth.storage := auth.storage[TokenKey := token.value];
            auth.Login(map[Token := Text(token.value)]);
          }
        case VerifyFailed(m) =>
          error := OrElse(m, VerifyErrorMessage);
      }
      loading := false;
    }

    method HandleResendOtp(o: ResendOutcome)
      modifies this
      ensures Snapshot() == Resend(old(Snapshot()), o)
    {
      loading := true;
      error := "";
      match o {
        case ResendReplied(success, m) =>
          if !success {
            error := OrElse(m, ResendErrorMessage);
          }
        case ResendThrew =>
          pending := pending + 1;
          return;
      }
      loading := false;
    }

    method FireResendTimer()
      requires pending > 0
      modifies this
      ensures Snapshot() == ResendTimerFires(old(Snapshot()))
    {
      loading := false;
      pending := pending - 1;
    }

    method ChangeMobileNumber()
      modifies this
      ensures Snapshot() == ChangeNumber(old(Snapshot()))
    {
      step := PhoneStep;
      code := "";
      error := "";
    }
  }
}
