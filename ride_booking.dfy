/** The ride-booking step machine of the RideBooking component: the screen being shown,
    the booking draft, the busy flag, the car picked in the catalog, the driver toggle,
    and the two kinds of timer callbacks that `handleBooking` schedules. */
module Booking {
  import opened Common

  datatype Step = Destination | Map | Vehicle | CarDetails | Payment | Confirmation | Success

  /** The booking draft; `withDriver` is an optional member of the record. */
  datatype BookingData = BookingData(
    from: string,
    to: string,
    vehicleType: string,
    scheduledTime: string,
    paymentMethod: string,
    notes: string,
    withDriver: Option<bool>)

  /** The string members of the draft, as named by an input's `name` attribute. */
  datatype DraftField = From | To | VehicleType | ScheduledTime | PaymentMethod | Notes

  datatype CarOption = CarOption(
    id: string, name: string, year: string, fuel: string, seaters: nat, category: string)

  /** The fixed vehicle catalog. */
  const CarOptions: seq<CarOption> := [
    CarOption("sedan-4", "Toyota Camry", "2023", "Petrol", 4, "Sedan"),
    CarOption("suv-5", "Honda CR-V", "2023", "Petrol", 5, "SUV"),
    CarOption("suv-6", "Toyota Innova", "2022", "Diesel", 6, "SUV"),
    CarOption("suv-7", "Mahindra XUV700", "2023", "Petrol", 7, "SUV"),
    CarOption("electric-5", "Tesla Model 3", "2023", "Electric", 5, "Sedan")
  ]

  const CarIds: set<string> := set k | 0 <= k < |CarOptions| :: CarOptions[k].id

  /** The whole state of a mounted component, including the callbacks still pending:
      `submitTimers` first-stage callbacks (2000 ms) and `resetTimers` second-stage ones (3000 ms). */
  datatype State = State(
    step: Step,
    draft: BookingData,
    loading: bool,
    selectedCar: string,
    withDriver: bool,
    submitTimers: nat,
    resetTimers: nat)

  const InitialDraft := BookingData("Current Location", "", "", "", "", "", Some(true))

  /** The draft written by the auto-reset: it has no `withDriver` member. */
  const ResetDraft := BookingData("Current Location", "", "", "", "", "", None)

  const Initial := State(Destination, InitialDraft, false, "", true, 0, 0)

  function GetField(d: BookingData, f: DraftField): string {
    match f
    case From => d.from
    case To => d.to
    case VehicleType => d.vehicleType
    case ScheduledTime => d.scheduledTime
    case PaymentMethod => d.paymentMethod
    case Notes => d.notes
  }

  function SetField(d: BookingData, f: DraftField, v: string): BookingData {
    match f
    case From => d.(from := v)
    case To => d.(to := v)
    case VehicleType => d.(vehicleType := v)
    case ScheduledTime => d.(scheduledTime := v)
    case PaymentMethod => d.(paymentMethod := v)
    case Notes => d.(notes := v)
  }

  // ---- the handlers, as functions of the state ----

  /** handleDestinationSubmit */
  function DestinationSubmit(s: State): State {
    if Trim(s.draft.to) != "" then s.(step := Map) else s
  }

  /** handleVehicleSelect */
  function VehicleSelect(s: State, v: string): State {
    s.(draft := s.draft.(vehicleType := v), step := CarDetails)
  }

  /** The "Book Now" button of the map screen. */
  function BookNow(s: State): State {
    s.(step := Vehicle)
  }

  /** handleChange */
  function Change(s: State, f: DraftField, v: string): State {
    s.(draft := SetField(s.draft, f, v))
  }

  /** The switch inside goBack. */
  function PreviousStep(st: Step): Step {
    match st
    case Map => Destination
    case Vehicle => Map
    case CarDetails => Vehicle
    case Payment => CarDetails
    case _ => Destination
  }

  /** goBack */
  function StepBack(s: State): State {
    s.(step := PreviousStep(s.step))
  }

  /** The click on the k-th catalog card. */
  function PickCar(s: State, k: nat): State
    requires k < |CarOptions|
  {
    s.(selectedCar := CarOptions[k].id)
  }

  /** The "With Driver" checkbox. */
  function ToggleDriver(s: State, checked: bool): State {
    s.(withDriver := checked)
  }

  /** handleCarSelection ("Confirm Selection"). */
  function ConfirmSelection(s: State): State {
    if s.selectedCar == "" then s
    else s.(draft := s.draft.(vehicleType := s.selectedCar, withDriver := Some(s.withDriver)),
            step := Success)
  }

  /** handleBooking(m), synchronous part: no guard against a booking already in flight. */
  function Book(s: State, m: string): State {
    s.(draft := s.draft.(paymentMethod := m), loading := true, submitTimers := s.submitTimers + 1)
  }

  /** The 2000 ms callback of handleBooking; it schedules the 3000 ms one. */
  function SubmitTimerFires(s: State): State
    requires s.submitTimers > 0
  {
    s.(loading := false, step := Confirmation,
       submitTimers := s.submitTimers - 1, resetTimers := s.resetTimers + 1)
  }

  /** The 3000 ms callback: back to the first screen with a fresh draft. */
  function ResetTimerFires(s: State): State
    requires s.resetTimers > 0
  {
    s.(step := Destination, draft := ResetDraft, selectedCar := "", withDriver := true,
       resetTimers := s.resetTimers - 1)
  }

  // ---- properties of single handlers ----

  /** Submitting the destination advances to the map exactly when `to` has a
      non-whitespace character; otherwise nothing changes. The draft is never trimmed. */
  lemma DestinationSubmitGuard(s: State)
    requires s.step == Destination
    ensures DestinationSubmit(s).step == Map <==> exists i :: 0 <= i < |s.draft.to| && !IsJsWhitespace(s.draft.to[i])
    ensures DestinationSubmit(s).step != Map ==> DestinationSubmit(s) == s
    ensures DestinationSubmit(s) == s.(step := DestinationSubmit(s).step)
  {
    TrimNonEmptyIff(s.draft.to);
  }

  /** handleVehicleSelect stores the class and moves on, touching no other draft member. */
  lemma VehicleSelectOnlyVehicle(s: State, v: string, f: DraftField)
    ensures VehicleSelect(s, v).step == CarDetails
    ensures GetField(VehicleSelect(s, v).draft, f) == if f == VehicleType then v else GetField(s.draft, f)
    ensures VehicleSelect(s, v).draft.withDriver == s.draft.withDriver
    ensures VehicleSelect(s, v).(step := s.step, draft := s.draft) == s
  {
  }

  /** handleChange updates exactly the named member. */
  lemma ChangeOnlyNamedField(s: State, f: DraftField, v: string, g: DraftField)
    ensures GetField(Change(s, f, v).draft, g) == if g == f then v else GetField(s.draft, g)
    ensures Change(s, f, v).draft.withDriver == s.draft.withDriver
    ensures Change(s, f, v).(draft := s.draft) == s
  {
  }

  /** goBack is a lookup on the step alone: it keeps the draft, the picked car and the toggle,
      and it never goes forward to payment, confirmation or success. */
  lemma GoBackOnlyMovesBack(s: State)
    ensures StepBack(s).(step := s.step) == s
    ensures StepBack(s).step in {Destination, Map, Vehicle, CarDetails}
    ensures StepBack(s).step == Destination <==> s.step !in {Vehicle, CarDetails, Payment}
    ensures s.step == Map ==> StepBack(s).step == Destination
    ensures s.step == Vehicle ==> StepBack(s).step == Map
    ensures s.step == CarDetails ==> StepBack(s).step == Vehicle
    ensures s.step == Payment ==> StepBack(s).step == CarDetails
    ensures s.step !in {Map, Vehicle, CarDetails, Payment} ==> StepBack(s).step == Destination
  {
  }

  /** Confirm with nothing picked does nothing; otherwise the picked id and the toggle go
      into the draft and the success screen follows. The payment method is not touched. */
  lemma ConfirmSelectionEffect(s: State)
    ensures s.selectedCar == "" ==> ConfirmSelection(s) == s
    ensures s.selectedCar != "" ==>
      && ConfirmSelection(s).step == Success
      && ConfirmSelection(s).draft.vehicleType == s.selectedCar
      && ConfirmSelection(s).draft.withDriver == Some(s.withDriver)
      && ConfirmSelection(s).draft.paymentMethod == s.draft.paymentMethod
      && ConfirmSelection(s).(step := s.step, draft := s.draft) == s
  {
  }

  /** Every handler keeps `selectedCar` empty or a catalog id. */
  ghost predicate SelectedOk(s: State) {
    s.selectedCar == "" || s.selectedCar in CarIds
  }

  /** The three phases of handleBooking, from a state with no timers pending:
      the payment method is stored and the busy flag raised; the first callback clears it and
      shows the confirmation; the second returns to the first screen with the reset draft. */
  lemma BookingPhases(s: State, m: string)
    requires s.submitTimers == 0 && s.resetTimers == 0
    ensures Book(s, m).draft.paymentMethod == m && Book(s, m).loading
    ensures Book(s, m).step == s.step && Book(s, m).submitTimers == 1
    ensures SubmitTimerFires(Book(s, m)).step == Confirmation
    ensures !SubmitTimerFires(Book(s, m)).loading
    ensures SubmitTimerFires(Book(s, m)).draft.paymentMethod == m
    ensures ResetTimerFires(SubmitTimerFires(Book(s, m))) == Initial.(draft := ResetDraft)
  {
  }

  /** A second handleBooking while the first is in flight schedules another pair of callbacks
      and overwrites the payment method. */
  lemma BookingHasNoReentryGuard(s: State, m1: string, m2: string)
    ensures Book(Book(s, m1), m2).submitTimers == s.submitTimers + 2
    ensures Book(Book(s, m1), m2).draft.paymentMethod == m2
  {
  }

  /** The auto-reset leaves the state equal to the initial one except that the draft has lost
      its `withDriver: true` member. */
  lemma ResetDiffersFromInitialOnlyInWithDriver(s: State)
    requires s.submitTimers == 0 && s.resetTimers == 1 && !s.loading
    ensures ResetTimerFires(s).(draft := InitialDraft) == Initial
    ensures ResetTimerFires(s).draft == InitialDraft.(withDriver := None)
    ensures ResetTimerFires(s) != Initial
  {
  }

  // ---- events: the controls each screen renders ----

  datatype Event =
    | SubmitDestination
    | Edit(field: DraftField, value: string)
    | PressBookNow
    | ChooseVehicleClass(vehicle: string)
    | ChooseCar(index: nat)
    | SetWithDriver(checked: bool)
    | ConfirmCar
    | Back
    | ChoosePayment(payment: string)
    | SubmitTimer
    | ResetTimer

  /** Whether the handler behind `e` can run at all: a timer callback needs a pending timer,
      a catalog card needs to exist. */
  predicate Applicable(s: State, e: Event) {
    match e
    case ChooseCar(k) => k < |CarOptions|
    case SubmitTimer => s.submitTimers > 0
    case ResetTimer => s.resetTimers > 0
    case _ => true
  }

  function Apply(s: State, e: Event): State
    requires Applicable(s, e)
  {
    match e
    case SubmitDestination => DestinationSubmit(s)
    case Edit(f, v) => Change(s, f, v)
    case PressBookNow => BookNow(s)
    case ChooseVehicleClass(v) => VehicleSelect(s, v)
    case ChooseCar(k) => PickCar(s, k)
    case SetWithDriver(b) => ToggleDriver(s, b)
    case ConfirmCar => ConfirmSelection(s)
    case Back => StepBack(s)
    case ChoosePayment(m) => Book(s, m)
    case SubmitTimer => SubmitTimerFires(s)
    case ResetTimer => ResetTimerFires(s)
  }

  /** The events the rendered screen offers. `cardClicks` says whether a click on a `Card`
      reaches its `onClick`: the vehicle-class card, the catalog cards and the payment cards are
      `Card`s. Timer callbacks fire whatever is on screen. */
  predicate Enabled(s: State, e: Event, cardClicks: bool) {
    match e
    case SubmitDestination => s.step == Destination && s.draft.to != ""
    case Edit(f, _) => s.step == Destination && f == To
    case PressBookNow => s.step == Map
    case ChooseVehicleClass(v) => cardClicks && s.step == Vehicle && v == "car"
    case ChooseCar(k) => cardClicks && s.step == CarDetails && k < |CarOptions|
    case SetWithDriver(_) => s.step == CarDetails
    case ConfirmCar => s.step == CarDetails && s.selectedCar != ""
    case Back => s.step in {Map, Vehicle, CarDetails, Payment}
    case ChoosePayment(m) => cardClicks && s.step == Payment && m in {"cash", "card", "upi"}
    case SubmitTimer => s.submitTimers > 0
    case ResetTimer => s.resetTimers > 0
  }

  lemma EnabledIsApplicable(s: State, e: Event, cardClicks: bool)
    requires Enabled(s, e, cardClicks)
    ensures Applicable(s, e)
  {
  }

  /** Runs the events in order; None as soon as one is not offered. */
  function Trace(s: State, es: seq<Event>, cardClicks: bool): Option<State>
    decreases |es|
  {
    if es == [] then Some(s)
    else if !Enabled(s, es[0], cardClicks) then None
    else
      EnabledIsApplicable(s, es[0], cardClicks);
      Trace(Apply(s, es[0]), es[1..], cardClicks)
  }

  /** Every handler, offered or not, keeps `selectedCar` empty or a catalog id. */
  lemma ApplyKeepsSelectedOk(s: State, e: Event)
    requires Applicable(s, e) && SelectedOk(s)
    ensures SelectedOk(Apply(s, e))
  {
    if e.ChooseCar? {
      assert Apply(s, e).selectedCar == CarOptions[e.index].id;
    }
  }

  /** What holds of every state reachable from the initial one when Card clicks are delivered. */
  ghost predicate Reachable(s: State) {
    && s.step !in {Payment, Confirmation}
    && s.submitTimers == 0 && s.resetTimers == 0 && !s.loading
    && SelectedOk(s)
    && s.draft.from == "Current Location"
    && s.draft.paymentMethod == "" && s.draft.scheduledTime == "" && s.draft.notes == ""
    && (s.step != Destination ==> Trim(s.draft.to) != "")
    && (s.step == CarDetails ==> s.draft.vehicleType == "car")
    && (s.step == Success ==>
         && s.selectedCar in CarIds && s.draft.vehicleType == s.selectedCar
         && s.draft.withDriver == Some(s.withDriver))
  }

  lemma InitialReachable()
    ensures Reachable(Initial)
  {
  }

  lemma EnabledKeepsReachable(s: State, e: Event)
    requires Reachable(s) && Enabled(s, e, true)
    ensures Reachable(Apply(s, e))
  {
    ApplyKeepsSelectedOk(s, e);
    if e.ConfirmCar? {
      assert s.selectedCar in CarIds;
    }
  }

  /** From the initial state, with every Card click delivered, no sequence of events ever
      reaches the payment or the confirmation screen, schedules a timer or sets a payment
      method; on the success screen the draft holds the picked catalog id and the toggle. */
  lemma {:induction false} TraceStaysReachable(s: State, es: seq<Event>)
    requires Reachable(s)
    requires Trace(s, es, true).Some?
    ensures Reachable(Trace(s, es, true).value)
    decreases |es|
  {
    if es != [] {
      EnabledIsApplicable(s, es[0], true);
      EnabledKeepsReachable(s, es[0]);
      TraceStaysReachable(Apply(s, es[0]), es[1..]);
    }
  }

  lemma PaymentAndConfirmationUnreachable(es: seq<Event>)
    requires Trace(Initial, es, true).Some?
    ensures Trace(Initial, es, true).value.step !in {Payment, Confirmation}
    ensures Trace(Initial, es, true).value.draft.paymentMethod == ""
  {
    InitialReachable();
    TraceStaysReachable(Initial, es);
  }

  /** The success screen offers nothing: once there, no event applies. */
  lemma SuccessIsTerminal(s: State, e: Event, cardClicks: bool)
    requires Reachable(s) && s.step == Success
    ensures !Enabled(s, e, cardClicks)
  {
  }

  /** What holds when Card clicks are dropped, as in the running application: the vehicle
      class is never chosen, so the flow never gets past the vehicle screen. */
  ghost predicate ReachableWithDeadCards(s: State) {
    && s.step in {Destination, Map, Vehicle}
    && s.draft == InitialDraft.(to := s.draft.to)
    && s.submitTimers == 0 && s.resetTimers == 0 && !s.loading
    && s.selectedCar == "" && s.withDriver
  }

  lemma {:induction false} DeadCardsTrace(s: State, es: seq<Event>)
    requires ReachableWithDeadCards(s)
    requires Trace(s, es, false).Some?
    ensures ReachableWithDeadCards(Trace(s, es, false).value)
    decreases |es|
  {
    if es != [] {
      EnabledIsApplicable(s, es[0], false);
      var t := Apply(s, es[0]);
      assert ReachableWithDeadCards(t);
      DeadCardsTrace(t, es[1..]);
    }
  }

  /** In the running application, where Card clicks are dropped, no sequence of events
      gets past the vehicle screen: the draft keeps its initial class, payment and toggle. */
  lemma DeadCardsNeverPastVehicle(es: seq<Event>)
    requires Trace(Initial, es, false).Some?
    ensures Trace(Initial, es, false).value.step in {Destination, Map, Vehicle}
    ensures Trace(Initial, es, false).value.draft.vehicleType == ""
    ensures Trace(Initial, es, false).value.draft.withDriver == Some(true)
  {
    DeadCardsTrace(Initial, es);
  }

  /** goBack followed by the forward action of the screen it lands on, with the same input,
      gives back the state before goBack. */
  lemma BackThenForwardRestores(s: State)
    requires Reachable(s)
    ensures s.step == Map ==> DestinationSubmit(StepBack(s)) == s
    ensures s.step == Vehicle ==> BookNow(StepBack(s)) == s
    ensures s.step == CarDetails ==> VehicleSelect(StepBack(s), "car") == s
  {
  }

  lemma TraceStep(s: State, e: Event, rest: seq<Event>, cardClicks: bool)
    requires Enabled(s, e, cardClicks)
    ensures Applicable(s, e)
    ensures Trace(s, [e] + rest, cardClicks) == Trace(Apply(s, e), rest, cardClicks)
  {
    assert ([e] + rest)[1..] == rest;
  }

  lemma TwoThenFive<T>(a: T, b: T, c: T, d: T, e: T, f: T, g: T)
    ensures [a, b] + [c, d, e, f, g] == [a, b, c, d, e, f, g]
  {
  }

  lemma CarIdsNonEmpty(k: nat)
    requires k < |CarOptions|
    ensures CarOptions[k].id != "" && CarOptions[k].id in CarIds
  {
  }

  lemma ConsCons<T>(a: T, b: T, rest: seq<T>)
    ensures [a] + ([b] + rest) == [a, b] + rest
  {
  }

  lemma TraceEditDestination(dest: string, rest: seq<Event>, cardClicks: bool)
    ensures Trace(Initial, [Edit(To, dest)] + rest, cardClicks)
         == Trace(State(Destination, InitialDraft.(to := dest), false, "", true, 0, 0), rest, cardClicks)
  {
    TraceStep(Initial, Edit(To, dest), rest, cardClicks);
  }

  lemma TraceSubmitDestination(dest: string, rest: seq<Event>, cardClicks: bool)
    requires Trim(dest) != ""
    ensures Trace(State(Destination, InitialDraft.(to := dest), false, "", true, 0, 0), [SubmitDestination] + rest, cardClicks)
         == Trace(State(Map, InitialDraft.(to := dest), false, "", true, 0, 0), rest, cardClicks)
  {
    TraceStep(State(Destination, InitialDraft.(to := dest), false, "", true, 0, 0), SubmitDestination, rest, cardClicks);
  }

  /** Typing a destination and submitting it reaches the map screen when the text has a
      non-whitespace character. */
  lemma TraceThroughDestination(dest: string, rest: seq<Event>, cardClicks: bool)
    requires Trim(dest) != ""
    ensures Trace(Initial, [Edit(To, dest), SubmitDestination] + rest, cardClicks)
         == Trace(State(Map, InitialDraft.(to := dest), false, "", true, 0, 0), rest, cardClicks)
  {
    ConsCons(Edit(To, dest), SubmitDestination, rest);
    TraceEditDestination(dest, [SubmitDestination] + rest, cardClicks);
    TraceSubmitDestination(dest, rest, cardClicks);
  }

  lemma TraceFromMapToSuccess(dest: string, k: nat, b: bool)
    requires k < |CarOptions|
    ensures Trace(State(Map, InitialDraft.(to := dest), false, "", true, 0, 0),
                  [PressBookNow, ChooseVehicleClass("car"), ChooseCar(k), SetWithDriver(b), ConfirmCar], true)
         == Some(State(Success,
                       BookingData("Current Location", dest, CarOptions[k].id, "", "", "", Some(b)),
                       false, CarOptions[k].id, b, 0, 0))
  {
    CarIdsNonEmpty(k);
    var s2 := State(Map, InitialDraft.(to := dest), false, "", true, 0, 0);
    var s3 := BookNow(s2);
    var s4 := VehicleSelect(s3, "car");
    var s5 := PickCar(s4, k);
    var s6 := ToggleDriver(s5, b);
    TraceStep(s6, ConfirmCar, [], true);
    TraceStep(s5, SetWithDriver(b), [ConfirmCar], true);
    TraceStep(s4, ChooseCar(k), [SetWithDriver(b), ConfirmCar], true);
    TraceStep(s3, ChooseVehicleClass("car"), [ChooseCar(k), SetWithDriver(b), ConfirmCar], true);
    TraceStep(s2, PressBookNow, [ChooseVehicleClass("car"), ChooseCar(k), SetWithDriver(b), ConfirmCar], true);
  }

  /** The direct path of the booking flow: a destination, the car class, the k-th catalog
      entry, the driver toggle, confirm. The success screen shows a draft holding exactly those
      choices, with no payment method. */
  lemma DirectPath(dest: string, k: nat, withDriver: bool)
    requires Trim(dest) != "" && k < |CarOptions|
    ensures Trace(Initial, [Edit(To, dest), SubmitDestination, PressBookNow,
                            ChooseVehicleClass("car"), ChooseCar(k), SetWithDriver(withDriver), ConfirmCar], true)
         == Some(State(Success,
                       BookingData("Current Location", dest, CarOptions[k].id, "", "", "", Some(withDriver)),
                       false, CarOptions[k].id, withDriver, 0, 0))
  {
    var rest := [PressBookNow, ChooseVehicleClass("car"), ChooseCar(k), SetWithDriver(withDriver), ConfirmCar];
    TwoThenFive(Edit(To, dest), SubmitDestination, PressBookNow, ChooseVehicleClass("car"),
                ChooseCar(k), SetWithDriver(withDriver), ConfirmCar);
    TraceThroughDestination(dest, rest, true);
    TraceFromMapToSuccess(dest, k, withDriver);
  }

  /** The component: its useState cells, and the timers it has scheduled. */
  class RideBooking {
    var currentStep: Step
    var bookingData: BookingData
    var loading: bool
    var selectedCar: string
    var withDriver: bool
    var submitTimers: nat
    var resetTimers: nat

    function Snapshot(): State
      reads this
    {
      State(currentStep, bookingData, loading, selectedCar, withDriver, submitTimers, resetTimers)
    }

    constructor ()
      ensures Snapshot() == Initial
    {
      currentStep := Destination;
      bookingData := InitialDraft;
      loading := false;
      selectedCar := "";
      withDriver := true;
      submitTimers := 0;
      resetTimers := 0;
    }

    method HandleDestinationSubmit()
      modifies this
      ensures Snapshot() == DestinationSubmit(old(Snapshot()))
    {
      if Trim(bookingData.to) != "" {
        currentStep := Map;
      }
    }

    method HandleVehicleSelect(vehicleType: string)
      modifies this
      ensures Snapshot() == VehicleSelect(old(Snapshot()), vehicleType)
    {
      bookingData := bookingData.(vehicleType := vehicleType);
      currentStep := CarDetails;
    }

    method PressBookNow()
      modifies this
      ensures Snapshot() == BookNow(old(Snapshot()))
    {
      currentStep := Vehicle;
    }

    method HandleChange(name: DraftField, value: string)
      modifies this
      ensures Snapshot() == Change(old(Snapshot()), name, value)
    {
      bookingData := SetField(bookingData, name, value);
    }

    method GoBack()
      modifies this
      ensures Snapshot() == StepBack(old(Snapshot()))
    {
      match currentStep {
        case Map => currentStep := Destination;
        case Vehicle => currentStep := Map;
        case CarDetails => currentStep := Vehicle;
        case Payment => currentStep := CarDetails;
        case _ => currentStep := Destination;
      }
    }

    method SelectCar(k: nat)
      requires k < |CarOptions|
      modifies this
      ensures Snapshot() == PickCar(old(Snapshot()), k)
    {
      selectedCar := CarOptions[k].id;
    }

    method SetWithDriver(checked: bool)
      modifies this
      ensures Snapshot() == ToggleDriver(old(Snapshot()), checked)
    {
      withDriver := checked;
    }

    method HandleCarSelection()
      modifies this
      ensures Snapshot() == ConfirmSelection(old(Snapshot()))
    {
      if selectedCar == "" {
        return;
      }
      bookingData := bookingData.(vehicleType := selectedCar, withDriver := Some(withDriver));
      currentStep := Success;
    }

    method HandleBooking(paymentMethod: string)
      modifies this
      ensures Snapshot() == Book(old(Snapshot()), paymentMethod)
    {
      bookingData := bookingData.(paymentMethod := paymentMethod);
      loading := true;
      submitTimers := submitTimers + 1;
    }

    method FireSubmitTimer()
      requires submitTimers > 0
      modifies this
      ensures Snapshot() == SubmitTimerFires(old(Snapshot()))
    {
      loading := false;
      currentStep := Confirmation;
      submitTimers := submitTimers - 1;
      resetTimers := resetTimers + 1;
    }

    method FireResetTimer()
      requires resetTimers > 0
      modifies this
      ensures Snapshot() == ResetTimerFires(old(Snapshot()))
    {
      currentStep := Destination;
      bookingData := ResetDraft;
      selectedCar := "";
      withDriver := true;
      resetTimers := resetTimers - 1;
    }
  }
}
