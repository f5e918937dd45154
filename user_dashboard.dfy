/** The booking modal of the passenger dashboard: a six-field draft, the modal's visibility
    and a busy flag, with a simulated submission that a timer completes. A user flagged as new
    sees only the profile form instead. */
module UserDashboard {
  import opened Common
  import opened UserDetails

  datatype DraftField = From | To | VehicleType | ScheduledTime | PaymentMethod | Notes

  datatype Draft = Draft(from: string, to: string, vehicleType: string,
                         scheduledTime: string, paymentMethod: string, notes: string)

  /** `pending` counts the completion timers scheduled and not yet fired. */
  datatype State = State(draft: Draft, modalOpen: bool, loading: bool, pending: nat)

  const EmptyDraft := Draft("", "", "", "", "", "")
  const Initial := State(EmptyDraft, false, false, 0)

  const ConfirmAlert := "Booking confirmed! Your driver will arrive shortly."

  /** The choices the vehicle select and the payment radios offer (the select's first option
      is the empty placeholder). */
  const VehicleChoices: set<string> := {"", "auto", "bike", "car", "van"}
  const PaymentChoices: set<string> := {"cash", "card", "upi"}

  function GetField(d: Draft, f: DraftField): string {
    match f
    case From => d.from
    case To => d.to
    case VehicleType => d.vehicleType
    case ScheduledTime => d.scheduledTime
    case PaymentMethod => d.paymentMethod
    case Notes => d.notes
  }

  function SetField(d: Draft, f: DraftField, v: string): Draft {
    match f
    case From => d.(from := v)
    case To => d.(to := v)
    case VehicleType => d.(vehicleType := v)
    case ScheduledTime => d.(scheduledTime := v)
    case PaymentMethod => d.(paymentMethod := v)
    case Notes => d.(notes := v)
  }

  /** `user?.isNew` is truthy. */
  predicate IsNewUser(user: Option<User>) {
    user.Some? && IsNew in user.value && Truthy(user.value[IsNew])
  }

  // ---- the handlers ----

  function Open(s: State): State { s.(modalOpen := true) }

  /** The modal's close button, its backdrop and the cancel button. */
  function Close(s: State): State { s.(modalOpen := false) }

  function Change(s: State, f: DraftField, v: string): State {
    s.(draft := SetField(s.draft, f, v))
  }

  /** handleBooking: raises the busy flag and schedules the completion; it checks nothing. */
  function Submit(s: State): State {
    s.(loading := true, pending := s.pending + 1)
  }

  /** The completion callback. */
  function TimerFires(s: State): State
    requires s.pending > 0
  {
    State(EmptyDraft, false, false, s.pending - 1)
  }

  // ---- properties of single handlers ----

  lemma InitialIsEmpty(f: DraftField)
    ensures GetField(Initial.draft, f) == ""
    ensures !Initial.modalOpen && !Initial.loading && Initial.pending == 0
  {
  }

  /** handleChange writes the named field and no other. */
  lemma ChangeOnlyNamedField(s: State, f: DraftField, v: string, g: DraftField)
    ensures GetField(Change(s, f, v).draft, g) == if g == f then v else GetField(s.draft, g)
    ensures Change(s, f, v).modalOpen == s.modalOpen && Change(s, f, v).loading == s.loading
    ensures Change(s, f, v).pending == s.pending
  {
  }

  /** handleBooking performs no validation: whatever the draft holds, the submission starts
      and the draft is kept as it is. */
  lemma SubmitChecksNothing(s: State)
    ensures Submit(s).loading && Submit(s).pending == s.pending + 1
    ensures Submit(s).draft == s.draft && Submit(s).modalOpen == s.modalOpen
  {
  }

  /** Completion clears the busy flag, closes the modal and puts back exactly the initial draft. */
  lemma CompletionResets(s: State, f: DraftField)
    requires s.pending > 0
    ensures !TimerFires(s).loading && !TimerFires(s).modalOpen
    ensures TimerFires(s).draft == Initial.draft
    ensures GetField(TimerFires(s).draft, f) == ""
  {
  }

  /** Closing or cancelling hides the modal and keeps the draft and the busy flag. */
  lemma CloseKeepsDraft(s: State)
    ensures !Close(s).modalOpen
    ensures Close(s).draft == s.draft && Close(s).loading == s.loading && Close(s).pending == s.pending
  {
  }

  // ---- the events the page offers ----

  datatype Event =
    | OpenModal
    | CloseModal
    | Edit(field: DraftField, value: string)
    | SubmitForm
    | Timer

  predicate Applicable(s: State, e: Event) {
    e.Timer? ==> s.pending > 0
  }

  function Apply(s: State, e: Event): State
    requires Applicable(s, e)
  {
    match e
    case OpenModal => Open(s)
    case CloseModal => Close(s)
    case Edit(f, v) => Change(s, f, v)
    case SubmitForm => Submit(s)
    case Timer => TimerFires(s)
  }

  /** The browser's `required` check before a submit: the text inputs, the select and one of
      the radios must hold a value. */
  predicate RequiredFilled(d: Draft) {
    d.from != "" && d.to != "" && d.vehicleType != "" && d.paymentMethod != ""
  }

  /** What the rendered page offers. For a new user only the profile form is shown, so only a
      timer already scheduled can still fire. The header button opens the modal (the quick-action
      Card drops its click), and the open modal's backdrop covers that button; the form's controls exist only while the modal is open, and the form
      has no input for the scheduled time; the submit
      button is disabled while busy; the select and radios offer only their options. */
  predicate Enabled(s: State, e: Event, user: Option<User>) {
    match e
    case Timer => s.pending > 0
    case OpenModal => !IsNewUser(user) && !s.modalOpen
    case CloseModal => !IsNewUser(user) && s.modalOpen
    case Edit(f, v) =>
      && !IsNewUser(user) && s.modalOpen && f != ScheduledTime
      && (f == VehicleType ==> v in VehicleChoices)
      && (f == PaymentMethod ==> v in PaymentChoices)
    case SubmitForm => !IsNewUser(user) && s.modalOpen && !s.loading && RequiredFilled(s.draft)
  }

  lemma EnabledIsApplicable(s: State, e: Event, user: Option<User>)
    requires Enabled(s, e, user)
    ensures Applicable(s, e)
  {
  }

  /** A new user is offered no booking operation at all. */
  lemma NewUserGetsNoBookingOperation(s: State, e: Event, user: Option<User>)
    requires IsNewUser(user) && !e.Timer?
    ensures !Enabled(s, e, user)
  {
  }

  function Trace(s: State, es: seq<Event>, user: Option<User>): Option<State>
    decreases |es|
  {
    if es == [] then Some(s)
    else if !Enabled(s, es[0], user) then None
    else
      EnabledIsApplicable(s, es[0], user);
      Trace(Apply(s, es[0]), es[1..], user)
  }

  /** At most one submission is in flight, and the busy flag says exactly whether one is. */
  ghost predicate Reachable(s: State) {
    s.pending <= 1 && s.loading == (s.pending == 1)
  }

  lemma EnabledKeepsReachable(s: State, e: Event, user: Option<User>)
    requires Reachable(s) && Enabled(s, e, user)
    ensures Reachable(Apply(s, e))
  {
  }

  lemma {:induction false} TraceStaysReachable(s: State, es: seq<Event>, user: Option<User>)
    requires Reachable(s)
    requires Trace(s, es, user).Some?
    ensures Reachable(Trace(s, es, user).value)
    decreases |es|
  {
    if es != [] {
      EnabledIsApplicable(s, es[0], user);
      EnabledKeepsReachable(s, es[0], user);
      TraceStaysReachable(Apply(s, es[0]), es[1..], user);
    }
  }

  /** From the initial page no run ever has two submissions in flight, and the busy flag is
      raised exactly while one is. */
  lemma SingleSubmissionInFlight(es: seq<Event>, user: Option<User>)
    requires Trace(Initial, es, user).Some?
    ensures Trace(Initial, es, user).value.pending <= 1
    ensures Trace(Initial, es, user).value.loading <==> Trace(Initial, es, user).value.pending == 1
  {
    TraceStaysReachable(Initial, es, user);
  }

  /** In a reachable state, the completion brings the whole page back to its initial state. */
  lemma CompletionRestoresInitial(s: State)
    requires Reachable(s) && s.pending > 0
    ensures TimerFires(s) == Initial
  {
  }

  lemma TraceStep(s: State, e: Event, rest: seq<Event>, user: Option<User>)
    requires Enabled(s, e, user)
    ensures Applicable(s, e)
    ensures Trace(s, [e] + rest, user) == Trace(Apply(s, e), rest, user)
  {
    assert ([e] + rest)[0] == e && ([e] + rest)[1..] == rest;
  }

  /** A returning user opens the modal, fills the required fields, submits and waits: the
      page ends exactly as it started. */
  lemma BookingRoundTrip(a: string, b: string, v: string, m: string, user: Option<User>)
    requires a != "" && b != "" && v in VehicleChoices - {""} && m in PaymentChoices
    requires !IsNewUser(user)
    ensures Trace(Initial, [OpenModal, Edit(From, a), Edit(To, b), Edit(VehicleType, v),
                            Edit(PaymentMethod, m), SubmitForm, Timer], user) == Some(Initial)
  {
    var s0 := Initial;
    var s1 := Open(s0);
    var s2 := Change(s1, From, a);
    var s3 := Change(s2, To, b);
    var s4 := Change(s3, VehicleType, v);
    var s5 := Change(s4, PaymentMethod, m);
    var s6 := Submit(s5);
    var s7 := TimerFires(s6);
    TraceStep(s6, Timer, [], user);
    TraceStep(s5, SubmitForm, [Timer], user);
    TraceStep(s4, Edit(PaymentMethod, m), [SubmitForm, Timer], user);
    TraceStep(s3, Edit(VehicleType, v), [Edit(PaymentMethod, m), SubmitForm, Timer], user);
    TraceStep(s2, Edit(To, b), [Edit(VehicleType, v), Edit(PaymentMethod, m), SubmitForm, Timer], user);
    TraceStep(s1, Edit(From, a), [Edit(To, b), Edit(VehicleType, v), Edit(PaymentMethod, m), SubmitForm, Timer], user);
    TraceStep(s0, OpenModal, [Edit(From, a), Edit(To, b), Edit(VehicleType, v), Edit(PaymentMethod, m), SubmitForm, Timer], user);
    assert [OpenModal, Edit(From, a), Edit(To, b), Edit(VehicleType, v), Edit(PaymentMethod, m), SubmitForm, Timer]
        == [OpenModal] + [Edit(From, a), Edit(To, b), Edit(VehicleType, v), Edit(PaymentMethod, m), SubmitForm, Timer];
  }

  // ---- the component ----

  class Dashboard {
    var bookingData: Draft
    var showBookingModal: bool
    var loading: bool
    var pending: nat

    function Snapshot(): State
      reads this
    {
      State(bookingData, showBookingModal, loading, pending)
    }

    constructor ()
      ensures Snapshot() == Initial
    {
      bookingData := EmptyDraft;
      showBookingModal := false;
      loading := false;
      pending := 0;
    }

    method OpenBookingModal()
      modifies this
      ensures Snapshot() == Open(old(Snapshot()))
    {
      showBookingModal := true;
    }

    method CloseBookingModal()
      modifies this
      ensures Snapshot() == Close(old(Snapshot()))
    {
      showBookingModal := false;
    }

    method HandleChange(name: DraftField, value: string)
      modifies this
      ensures Snapshot() == Change(old(Snapshot()), name, value)
    {
      bookingData := SetField(bookingData, name, value);
    }

    method HandleBooking()
      modifies this
      ensures Snapshot() == Submit(old(Snapshot()))
    {
      loading := true;
      pending := pending + 1;
    }

    /** The completion callback; returns the alert it shows. */
    method FireTimer() returns (message: string)
      requires pending > 0
      modifies this
      ensures Snapshot() == TimerFires(old(Snapshot()))
      ensures message == ConfirmAlert
    {
      loading := false;
      showBookingModal := false;
      message := ConfirmAlert;
      bookingData := EmptyDraft;
      pending := pending - 1;
    }
  }
}
