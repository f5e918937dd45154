/** The e-mail sign-in and sign-up form shared by the three login pages: a mode flag that
    chooses the endpoint and the request body, and the decision taken on the reply. The
    request is given by its outcome; what the form does with it is returned as an effect. */
module LoginForm {
  import opened Common
  import UserDetails
  type User = UserDetails.User

  datatype FormField = FullName | Email | Password | ConfirmPassword

  datatype FormData = FormData(fullName: string, email: string, password: string, confirmPassword: string)

  datatype State = State(form: FormData, loading: bool, isLogin: bool)

  const EmptyForm := FormData("", "", "", "")
  const Initial := State(EmptyForm, false, true)

  const SignupUrl := "http://localhost:5000/signup"
  const LoginUrl := "http://localhost:5000/login"

  const DemoPhone := "+91 98765 43210"
  const DemoAddress := "Chennai, Tamil Nadu"
  const SignupOkAlert := "✅ Signup successful! Please login."
  const FailureAlert := "❌ Something went wrong"

  /** The request body. */
  datatype Payload =
    | SignupPayload(name: string, email: string, password: string, role: string)
    | LoginPayload(email: string, password: string, role: string)

  /** The awaited fetch and `res.json()`: either one throws, or the reply has a status flag
      and a body whose `user` (empty when absent) and `message` (None when absent) are read. */
  datatype Outcome = Threw | Responded(ok: bool, user: User, message: Option<string>)

  /** What the form does with the reply: call `onLogin` with a user, or show an alert. */
  datatype Effect = CallOnLogin(user: User) | Alert(text: string)

  function GetField(d: FormData, f: FormField): string {
    match f
    case FullName => d.fullName
    case Email => d.email
    case Password => d.password
    case ConfirmPassword => d.confirmPassword
  }

  function SetField(d: FormData, f: FormField, v: string): FormData {
    match f
    case FullName => d.(fullName := v)
    case Email => d.(email := v)
    case Password => d.(password := v)
    case ConfirmPassword => d.(confirmPassword := v)
  }

  // ---- the handlers ----

  function Change(s: State, f: FormField, v: string): State {
    s.(form := SetField(s.form, f, v))
  }

  /** The "sign up" button (login mode) and the "back" button (sign-up mode). */
  function SetMode(s: State, login: bool): State {
    s.(isLogin := login)
  }

  function Url(s: State): string {
    if !s.isLogin then SignupUrl else LoginUrl
  }

  function PayloadOf(s: State, role: string): Payload {
    if !s.isLogin then SignupPayload(s.form.fullName, s.form.email, s.form.password, role)
    else LoginPayload(s.form.email, s.form.password, role)
  }

  /** handleSubmit raises the busy flag, and nothing lowers it again. */
  function Submit(s: State): State {
    s.(loading := true)
  }

  /** The members the form puts over the reply's user before calling `onLogin`. */
  function LoginExtras(s: State): User {
    map[UserDetails.Phone := UserDetails.Text(DemoPhone),
        UserDetails.Address := UserDetails.Text(DemoAddress),
        UserDetails.IsNew := UserDetails.Flag(!s.isLogin)]
  }

  function SubmitEffect(s: State, o: Outcome): Effect {
    match o
    case Threw => Alert(FailureAlert)
    case Responded(ok, u, m) =>
      if ok && s.isLogin then CallOnLogin(UserDetails.Spread(u, LoginExtras(s)))
      else if ok && !s.isLogin then Alert(SignupOkAlert)
      else Alert(m.GetOr("undefined"))
  }

  // ---- properties of single handlers ----

  lemma InitialForm(f: FormField)
    ensures GetField(Initial.form, f) == "" && Initial.isLogin && !Initial.loading
  {
  }

  /** The endpoint is the sign-up one exactly outside login mode. */
  lemma UrlByMode(s: State)
    ensures Url(s) == SignupUrl <==> !s.isLogin
    ensures Url(s) == LoginUrl <==> s.isLogin
  {
  }

  /** The body carries the name only when signing up, and never the password confirmation:
      changing the confirmation (or, in login mode, the name) changes nothing that is sent. */
  lemma PayloadByMode(s: State, role: string, x: string)
    ensures !s.isLogin ==> PayloadOf(s, role) == SignupPayload(s.form.fullName, s.form.email, s.form.password, role)
    ensures s.isLogin ==> PayloadOf(s, role) == LoginPayload(s.form.email, s.form.password, role)
    ensures PayloadOf(s.(form := s.form.(confirmPassword := x)), role) == PayloadOf(s, role)
    ensures s.isLogin ==> PayloadOf(s.(form := s.form.(fullName := x)), role) == PayloadOf(s, role)
  {
  }

  /** `onLogin` is called exactly for an ok reply in login mode, with the reply's user and the
      fixed phone, address and `isNew` false over it; every other reply only alerts. */
  lemma EffectByReply(s: State, o: Outcome)
    ensures SubmitEffect(s, o).CallOnLogin? <==> o.Responded? && o.ok && s.isLogin
    ensures SubmitEffect(s, o).CallOnLogin? ==>
      var u := SubmitEffect(s, o).user;
      && u[UserDetails.Phone] == UserDetails.Text(DemoPhone)
      && u[UserDetails.Address] == UserDetails.Text(DemoAddress)
      && u[UserDetails.IsNew] == UserDetails.Flag(false)
      && (forall f :: f in o.user && f !in {UserDetails.Phone, UserDetails.Address, UserDetails.IsNew} ==> f in u && u[f] == o.user[f])
      && u.Keys == o.user.Keys + {UserDetails.Phone, UserDetails.Address, UserDetails.IsNew}
    ensures o.Responded? && o.ok && !s.isLogin ==> SubmitEffect(s, o) == Alert(SignupOkAlert)
    ensures o.Responded? && !o.ok ==> SubmitEffect(s, o) == Alert(o.message.GetOr("undefined"))
    ensures o.Threw? ==> SubmitEffect(s, o) == Alert(FailureAlert)
  {
  }

  /** Submitting only raises the busy flag; in particular a successful sign-up does not switch
      back to login mode. */
  lemma SubmitKeepsFormAndMode(s: State)
    ensures Submit(s).loading && Submit(s).form == s.form && Submit(s).isLogin == s.isLogin
  {
  }

  /** The mode buttons keep what was typed; handleChange writes only the named field. */
  lemma EditsAndModes(s: State, f: FormField, v: string, g: FormField, login: bool)
    ensures SetMode(s, login).form == s.form && SetMode(s, login).loading == s.loading
    ensures GetField(Change(s, f, v).form, g) == if g == f then v else GetField(s.form, g)
    ensures Change(s, f, v).isLogin == s.isLogin && Change(s, f, v).loading == s.loading
  {
  }

  // ---- the events the form offers ----

  datatype Event =
    | Edit(field: FormField, value: string)
    | SubmitForm(outcome: Outcome)
    | ToSignup
    | BackToLogin

  function Apply(s: State, e: Event): State {
    match e
    case Edit(f, v) => Change(s, f, v)
    case SubmitForm(_) => Submit(s)
    case ToSignup => SetMode(s, false)
    case BackToLogin => SetMode(s, true)
  }

  /** The browser's `required` check on the inputs shown in the current mode. */
  predicate RequiredFilled(s: State) {
    && s.form.email != "" && s.form.password != ""
    && (!s.isLogin ==> s.form.fullName != "" && s.form.confirmPassword != "")
  }

  /** What the rendered form offers: the name and confirmation inputs only in sign-up mode;
      submit while not busy and filled in; the "sign up" button always in login mode (it has
      no busy state); the "back" button in sign-up mode while not busy. */
  predicate Enabled(s: State, e: Event) {
    match e
    case Edit(f, _) => f in {Email, Password} || !s.isLogin
    case SubmitForm(_) => !s.loading && RequiredFilled(s)
    case ToSignup => s.isLogin
    case BackToLogin => !s.isLogin && !s.loading
  }

  function Trace(s: State, es: seq<Event>): Option<State>
    decreases |es|
  {
    if es == [] then Some(s)
    else if !Enabled(s, es[0]) then None
    else Trace(Apply(s, es[0]), es[1..])
  }

  function Submissions(es: seq<Event>): nat
    decreases |es|
  {
    if es == [] then 0 else (if es[0].SubmitForm? then 1 else 0) + Submissions(es[1..])
  }

  lemma {:induction false} SubmissionsAfter(s: State, es: seq<Event>)
    requires Trace(s, es).Some?
    ensures s.loading ==> Submissions(es) == 0 && Trace(s, es).value.loading
    ensures !s.loading ==> Submissions(es) <= 1
    ensures Trace(s, es).value.loading <==> s.loading || Submissions(es) == 1
    decreases |es|
  {
    if es != [] {
      SubmissionsAfter(Apply(s, es[0]), es[1..]);
    }
  }

  /** Because the busy flag is never lowered, a mounted form sends at most one request, and
      it stays busy from then on. */
  lemma AtMostOneSubmission(es: seq<Event>)
    requires Trace(Initial, es).Some?
    ensures Submissions(es) <= 1
    ensures Trace(Initial, es).value.loading <==> Submissions(es) == 1
  {
    SubmissionsAfter(Initial, es);
  }

  /** After a sign-up request the form is stuck in sign-up mode: only typing is offered. */
  lemma SignupLocksForm(s: State, e: Event)
    requires s.loading && !s.isLogin && Enabled(s, e)
    ensures e.Edit?
  {
  }

  // ---- the component ----

  class Form {
    var formData: FormData
    var loading: bool
    var isLogin: bool
    /** The `role` prop, sent with every request. */
    const role: string

    function Snapshot(): State
      reads this
    {
      State(formData, loading, isLogin)
    }

    constructor (role: string)
      ensures Snapshot() == Initial && this.role == role
    {
      formData := EmptyForm;
      loading := false;
      isLogin := true;
      this.role := role;
    }

    method HandleChange(name: FormField, value: string)
      modifies this
      ensures Snapshot() == Change(old(Snapshot()), name, value)
    {
      formData := SetField(formData, name, value);
    }

    method SetIsLogin(login: bool)
      modifies this
      ensures Snapshot() == SetMode(old(Snapshot()), login)
    {
      isLogin := login;
    }

    /** handleSubmit: returns the request it sends and what it does with the reply. */
    method HandleSubmit(o: Outcome) returns (url: string, payload: Payload, effect: Effect)
      modifies this
      ensures Snapshot() == Submit(old(Snapshot()))
      ensures url == Url(old(Snapshot())) && payload == PayloadOf(old(Snapshot()), role)
      ensures effect == SubmitEffect(old(Snapshot()), o)
    {
      loading := true;
      url := if !isLogin then SignupUrl else LoginUrl;
      payload := if !isLogin then SignupPayload(formData.fullName, formData.email, formData.password, role)
                 else LoginPayload(formData.email, formData.password, role);
      match o {
        case Threw =>
          effect := Alert(FailureAlert);
        case Responded(ok, u, m) =>
          if ok && isLogin {
            effect := CallOnLogin(u + LoginExtras(Snapshot()));
          } else if ok && !isLogin {
            effect := Alert(SignupOkAlert);
          } else {
            effect := Alert(m.GetOr("undefined"));
          }
      }
    }
  }
}
