# ThamizhTravels core, modelled in Dafny

ThamizhTravels is a ride-hailing web application. A React front end serves passengers, drivers
and administrators, and a small Express server sends and checks one-time SMS codes. This
project models the parts of the application that make decisions, and proves what they do:

- **Ride booking** (`ride_booking.dfy`, module `Booking`). The seven-step booking machine:
  destination, map, vehicle, car details, payment, confirmation and success. It covers the
  booking draft, the car catalog, the driver toggle, and the two timers of the simulated
  submission. The class `RideBooking` holds the component's state cells. Its methods are
  proved against one pure function per handler. The lemmas about those functions cover
  guards, "nothing else changes", and reachability from the initial state.
- **Passenger dashboard** (`user_dashboard.dfy`, module `UserDashboard`). The booking modal:
  a six-field draft, the modal's visibility, a busy flag and a timed reset, behind the
  `isNew` gate.
- **Mobile sign-in** (`mobile_login.dfy`, module `MobileLogin`). The phone/code two-step
  machine, the code-input sanitiser, and the hand-over of the token to the session store.
- **E-mail login form** (`login_form.dfy`, module `LoginForm`). The login/sign-up mode, the
  endpoint and request body it selects, and the decision taken on the reply.
- **Session store** (`auth_context.dfy`, module `AuthContext`, and `user_details.dfy` for the
  user object). The restore from localStorage, `login`, `logout`, `updateUser` and
  `isAuthenticated`. localStorage is a map from keys to strings. The JSON text of the user
  is an encoding of this project's own, and its round trip is proved.
- **Routes** (`app_routes.dfy`, module `AppRoutes`). The route table and `ProtectedRoute`,
  written as a function from path and session to a page or a redirect. Redirect chains are
  followed with a step bound.
- **Translations** (`language_context.dfy`, module `LanguageContext`). The English and Tamil
  tables, copied entry by entry, and the lookup `t` with its fallback to the key.
- **Code server** (`otp_server.dfy`, module `OtpServer`). Validation in `/send-otp` and
  `/verify-otp`, the "+91" prefix for numbers without a country code, and the reply built
  from the verification service's result.

`common.dfy` holds `Option`, JavaScript's `trim` and `startsWith`. The whitespace set is the
one in sections 12.2 and 12.3 of ECMA-262.

How events are modelled:

- An awaited request is not executed. It is an outcome parameter of the handler.
- A `setTimeout` callback is a separate "fire" operation. Each model counts its pending
  callbacks.
- What the user can do on a screen is the predicate `Enabled`. It lists the controls the
  screen renders, and it leaves out controls that are `disabled` or blocked by the
  browser's `required` check. That check refuses only an empty value, so a destination of
  spaces is submitted and then refused by the handler's `trim` test.
- `Trace` runs a sequence of events.

Facts about the source that the model makes explicit:

- `Card` (`src/components/ui/Card.tsx:10`) does not take an `onClick` prop and does not pass
  one on. Four clicks are therefore dropped in the running application:
  - the vehicle-class card in the booking flow;
  - the catalog cards;
  - the payment cards;
  - the dashboard's quick-action card.

  `Booking.Enabled` takes a flag `cardClicks`. With it false, the booking flow never gets
  past the vehicle screen (`Booking.DeadCardsNeverPastVehicle`). With it true, the flow
  reaches success but never reaches payment or confirmation.
- Nothing sets the step to `payment`, and nothing renders `confirmation`: the component
  returns null there.
- None of the source files this model draws on imports or renders `RideBooking`: `App.tsx`,
  `Home.tsx`, `AdminLogin.tsx`, the three dashboards, the forms and the ui components. The
  pages `DriverLogin` and `UserLogin`, which `App.tsx` imports, were not examined.
- The mobile sign-in stores a user with a token and no `role`. For such a session, "/"
  redirects to "/undefined/dashboard", and the catch-all route sends it back to "/" without
  end (`MobileLogin.SignInSessionHasNoRole`).
- The login form never clears its busy flag. A mounted form sends at most one request. After
  a sign-up it is left in sign-up mode with every button disabled.

## Model

| member | source | states |
|---|---|---|
| Common.TrimNonEmptyIff | src/components/booking/RideBooking.tsx:108 | `to.trim()` is non-empty exactly when `to` has a character outside the JavaScript whitespace set |
| Booking.DestinationSubmitGuard | src/components/booking/RideBooking.tsx:106-109 | submitting the destination moves to the map iff `to` has a non-whitespace character; otherwise the state is unchanged; `to` is never trimmed |
| Booking.VehicleSelectOnlyVehicle | src/components/booking/RideBooking.tsx:111-114 | choosing a class stores it, moves to car details, and leaves every other draft member and every other state cell unchanged |
| Booking.ChangeOnlyNamedField | src/components/booking/RideBooking.tsx:138-140 | handleChange writes the named draft member and no other cell |
| Booking.GoBackOnlyMovesBack | src/components/booking/RideBooking.tsx:142-159 | goBack maps map→destination, vehicle→map, carDetails→vehicle, payment→carDetails and every other step to destination, and changes nothing but the step |
| Booking.ConfirmSelectionEffect | src/components/booking/RideBooking.tsx:325-333 | confirming with no car picked is a no-op; otherwise the picked id and the toggle go into the draft and the step becomes success |
| Booking.BookingPhases | src/components/booking/RideBooking.tsx:116-136 | handleBooking stores the payment method and raises loading; the first callback clears loading and shows confirmation; the second returns to destination with the reset draft |
| Booking.BookingHasNoReentryGuard | src/components/booking/RideBooking.tsx:116-119 | a second handleBooking schedules another timer pair and overwrites the payment method |
| Booking.ResetDiffersFromInitialOnlyInWithDriver | src/components/booking/RideBooking.tsx:91-99 | after the auto-reset the state equals the initial one except that the draft has no `withDriver` member |
| Booking.ApplyKeepsSelectedOk | src/components/booking/RideBooking.tsx:37-83 | every handler keeps `selectedCar` empty or one of the five catalog ids |
| Booking.EnabledKeepsReachable | src/components/booking/RideBooking.tsx:162-607 | every control a reachable screen renders leads to a reachable state |
| Booking.TraceStaysReachable | src/components/booking/RideBooking.tsx:90-104 | from a reachable state, every run of rendered controls stays reachable |
| Booking.PaymentAndConfirmationUnreachable | src/components/booking/RideBooking.tsx:145-157 | from the initial state no run reaches payment or confirmation or sets a payment method |
| Booking.SuccessIsTerminal | src/components/booking/RideBooking.tsx:454-538 | the success screen offers no event |
| Booking.DeadCardsTrace | src/components/booking/RideBooking.tsx:303 | with Card clicks dropped, every run stays on the first three screens with the initial draft apart from `to` |
| Booking.DeadCardsNeverPastVehicle | src/components/booking/RideBooking.tsx:303 | in the running application the flow never gets past the vehicle screen |
| Booking.BackThenForwardRestores | src/components/booking/RideBooking.tsx:142-159 | goBack followed by the forward action of the screen it lands on restores the state |
| Booking.DirectPath | src/components/booking/RideBooking.tsx:177-447 | destination, Book Now, car class, k-th car, toggle and confirm reach success with exactly those choices in the draft |
| Booking.RideBooking.constructor | src/components/booking/RideBooking.tsx:90-104 | the initial state |
| Booking.RideBooking.HandleDestinationSubmit | src/components/booking/RideBooking.tsx:106-109 | the new state is `DestinationSubmit` of the old |
| Booking.RideBooking.HandleVehicleSelect | src/components/booking/RideBooking.tsx:111-114 | the new state is `VehicleSelect` of the old |
| Booking.RideBooking.PressBookNow | src/components/booking/RideBooking.tsx:245 | the step becomes vehicle |
| Booking.RideBooking.HandleChange | src/components/booking/RideBooking.tsx:138-140 | the new state is `Change` of the old |
| Booking.RideBooking.GoBack | src/components/booking/RideBooking.tsx:142-159 | the new state is `StepBack` of the old |
| Booking.RideBooking.SelectCar | src/components/booking/RideBooking.tsx:369 | `selectedCar` becomes the k-th catalog id |
| Booking.RideBooking.SetWithDriver | src/components/booking/RideBooking.tsx:419 | the toggle becomes the checkbox value |
| Booking.RideBooking.HandleCarSelection | src/components/booking/RideBooking.tsx:325-333 | the new state is `ConfirmSelection` of the old |
| Booking.RideBooking.HandleBooking | src/components/booking/RideBooking.tsx:116-119 | the new state is `Book` of the old |
| Booking.RideBooking.FireSubmitTimer | src/components/booking/RideBooking.tsx:119-122 | the first callback, as `SubmitTimerFires` |
| Booking.RideBooking.FireResetTimer | src/components/booking/RideBooking.tsx:122-134 | the second callback, as `ResetTimerFires` |
| UserDashboard.InitialIsEmpty | src/components/dashboard/UserDashboard.tsx:20-29 | the draft starts with all six fields empty, the modal closed and loading false |
| UserDashboard.ChangeOnlyNamedField | src/components/dashboard/UserDashboard.tsx:61-66 | handleChange writes exactly the named field |
| UserDashboard.SubmitChecksNothing | src/components/dashboard/UserDashboard.tsx:40-43 | handleBooking starts a submission whatever the draft holds, and keeps the draft |
| UserDashboard.CompletionResets | src/components/dashboard/UserDashboard.tsx:45-58 | completion clears loading, closes the modal and restores exactly the initial draft |
| UserDashboard.CloseKeepsDraft | src/components/dashboard/UserDashboard.tsx:193 | closing or cancelling hides the modal and keeps the draft |
| UserDashboard.NewUserGetsNoBookingOperation | src/components/dashboard/UserDashboard.tsx:32-38 | for a user with a truthy `isNew`, no booking control is offered |
| UserDashboard.TraceStaysReachable | src/components/dashboard/UserDashboard.tsx:196-292 | over every run, at most one completion is pending and loading holds exactly while one is |
| UserDashboard.SingleSubmissionInFlight | src/components/dashboard/UserDashboard.tsx:286-292 | from the initial page no run has two submissions in flight |
| UserDashboard.CompletionRestoresInitial | src/components/dashboard/UserDashboard.tsx:45-58 | in a reachable state, the completion returns the whole page to its initial state |
| UserDashboard.BookingRoundTrip | src/components/dashboard/UserDashboard.tsx:81-293 | open, fill the required fields, submit and wait ends exactly in the initial state |
| UserDashboard.Dashboard.constructor | src/components/dashboard/UserDashboard.tsx:20-29 | the initial state: empty draft, modal closed, not busy, no timer pending |
| UserDashboard.Dashboard.OpenBookingModal | src/components/dashboard/UserDashboard.tsx:82 | the new state is `Open` of the old: the modal is shown and nothing else changes |
| UserDashboard.Dashboard.HandleBooking | src/components/dashboard/UserDashboard.tsx:40-43 | the new state is `Submit` of the old |
| UserDashboard.Dashboard.FireTimer | src/components/dashboard/UserDashboard.tsx:45-58 | the callback resets the state and shows the confirmation alert |
| UserDashboard.Dashboard.HandleChange | src/components/dashboard/UserDashboard.tsx:61-66 | the new state is `Change` of the old |
| UserDashboard.Dashboard.CloseBookingModal | src/components/dashboard/UserDashboard.tsx:193 | the modal is hidden |
| MobileLogin.OtpFilter | src/pages/auth/MobileLogin.tsx:162 | the kept code is the input's ASCII digits in order when there are at most six, and their first six otherwise |
| MobileLogin.DigitsAppend | src/pages/auth/MobileLogin.tsx:162 | removing non-digits distributes over concatenation, so digits keep their input order |
| MobileLogin.OtpFilterFixedIff | src/pages/auth/MobileLogin.tsx:162 | the filter leaves a string unchanged exactly when it is at most six digits |
| MobileLogin.OtpFilterIdempotent | src/pages/auth/MobileLogin.tsx:162 | filtering twice equals filtering once |
| MobileLogin.SendWithoutPhone | src/pages/auth/MobileLogin.tsx:24 | an empty number only sets "Please enter phone number" |
| MobileLogin.SendOutcomes | src/pages/auth/MobileLogin.tsx:25-35 | success moves to the code step with the server's message; failure stays with the server's message or "Error sending OTP"; loading ends false |
| MobileLogin.VerifyOutcomes | src/pages/auth/MobileLogin.tsx:38-54 | an empty code only sets "Please enter OTP"; loading ends false; login is called iff the reply has a non-empty token |
| MobileLogin.ResendOutcomes | src/pages/auth/MobileLogin.tsx:56-83 | resend clears the error; a reply clears loading at once; an exception leaves that to a delayed callback |
| MobileLogin.ChangeNumberKeepsPhone | src/pages/auth/MobileLogin.tsx:188-192 | back to the phone step with code and error cleared and the number kept |
| MobileLogin.ExtraTokenWriteRedundant | src/pages/auth/MobileLogin.tsx:46-47 | the extra authToken write is overwritten by `login` |
| MobileLogin.SignInSessionHasNoRole | src/pages/auth/MobileLogin.tsx:45-48 | the session survives a reload but has no role, so the route redirects never settle |
| MobileLogin.TraceStaysReachable | src/pages/auth/MobileLogin.tsx:130-200 | over every run, the code passes the filter, the code step has a number, and loading holds exactly while a delayed callback is pending |
| MobileLogin.FormInvariant | src/pages/auth/MobileLogin.tsx:16-20 | from the empty form, the code is at most six digits and the code step is reached only with a number |
| MobileLogin.MobileLoginForm.constructor | src/pages/auth/MobileLogin.tsx:16-20 | the phone step with an empty number and code, not busy, no error and no timer pending |
| MobileLogin.MobileLoginForm.SetPhone | src/pages/auth/MobileLogin.tsx:141 | the number becomes the typed value, unfiltered |
| MobileLogin.MobileLoginForm.SendCodeRequest | src/pages/auth/MobileLogin.tsx:22-36 | the new state is `SendCode` of the old |
| MobileLogin.MobileLoginForm.VerifyOtp | src/pages/auth/MobileLogin.tsx:38-54 | the form state is `VerifyCode` of the old; the session store is signed in with the token user exactly when `LoginUser` says so |
| MobileLogin.MobileLoginForm.HandleResendOtp | src/pages/auth/MobileLogin.tsx:56-83 | the new state is `Resend` of the old |
| MobileLogin.MobileLoginForm.FireResendTimer | src/pages/auth/MobileLogin.tsx:76-78 | the delayed callback clears loading |
| MobileLogin.MobileLoginForm.ChangeMobileNumber | src/pages/auth/MobileLogin.tsx:188-192 | the new state is `ChangeNumber` of the old |
| MobileLogin.MobileLoginForm.SetCode | src/pages/auth/MobileLogin.tsx:162 | the code becomes the filtered input |
| LoginForm.InitialForm | src/components/forms/LoginForm.tsx:15-22 | login mode, not busy, all four fields empty |
| LoginForm.UrlByMode | src/components/forms/LoginForm.tsx:28-30 | the URL is /signup exactly when not in login mode, else /login |
| LoginForm.PayloadByMode | src/components/forms/LoginForm.tsx:31-38 | sign-up sends name, email, password and role; login sends email, password and role; confirmPassword is never sent |
| LoginForm.EffectByReply | src/components/forms/LoginForm.tsx:49-64 | onLogin is called iff the reply is ok in login mode, with the reply's user plus the fixed phone, address and `isNew` false; other replies only alert |
| LoginForm.SubmitKeepsFormAndMode | src/components/forms/LoginForm.tsx:24-26 | submit only raises loading and does not switch modes |
| LoginForm.EditsAndModes | src/components/forms/LoginForm.tsx:67-72 | the mode buttons keep the typed data; handleChange writes only the named field |
| LoginForm.SubmissionsAfter | src/components/forms/LoginForm.tsx:26 | once busy, no run submits again and the form stays busy |
| LoginForm.AtMostOneSubmission | src/components/forms/LoginForm.tsx:24-65 | a mounted form sends at most one request, and it is busy exactly after that |
| LoginForm.SignupLocksForm | src/components/forms/LoginForm.tsx:140-155 | after a sign-up request only typing is offered |
| LoginForm.Form.constructor | src/components/forms/LoginForm.tsx:8-22 | the initial state, with the `role` prop kept for the requests |
| LoginForm.Form.HandleSubmit | src/components/forms/LoginForm.tsx:24-65 | returns the URL, the body and the effect the reply leads to; the new state is `Submit` of the old |
| LoginForm.Form.HandleChange | src/components/forms/LoginForm.tsx:67-72 | the new state is `Change` of the old |
| LoginForm.Form.SetIsLogin | src/components/forms/LoginForm.tsx:135 | the mode becomes the given one |
| UserDetails.Spread | src/context/AuthContext.tsx:38 | the merged user has both key sets; patched members win and the others are kept |
| AuthContext.UnescapeEscape | src/context/AuthContext.tsx:26 | reading back an escaped string returns it and the rest of the text |
| AuthContext.DecodeEncodeFields | src/context/AuthContext.tsx:26 | decoding the encoded members returns exactly those members |
| AuthContext.ParseSerialize | src/context/AuthContext.tsx:19 | parsing the stored text of a user gives the user back |
| AuthContext.RestoreIff | src/context/AuthContext.tsx:15-22 | a user is restored iff both keys hold non-empty strings that parse |
| AuthContext.RestoreAfterLogin | src/context/AuthContext.tsx:24-28 | after login a reload restores the user when its token is truthy, and no user otherwise |
| AuthContext.RestoreAfterLogout | src/context/AuthContext.tsx:30-34 | after logout both keys are gone, other keys are kept, and a reload restores no user |
| AuthContext.RestoreAfterUpdate | src/context/AuthContext.tsx:36-42 | after updateUser a reload restores the merged user |
| AuthContext.AuthProvider.constructor | src/context/AuthContext.tsx:15-22 | the provider starts with the restored user |
| AuthContext.AuthProvider.Login | src/context/AuthContext.tsx:24-28 | stores the token (or '') and the serialised user, and sets the user |
| AuthContext.AuthProvider.Logout | src/context/AuthContext.tsx:30-34 | removes both keys and clears the user |
| AuthContext.AuthenticationAcrossReload | src/context/AuthContext.tsx:15-44 | after a reload, login keeps `isAuthenticated` exactly for a user with a truthy token, logout ends it and updateUser keeps it |
| AuthContext.AuthProvider.IsAuthenticated | src/context/AuthContext.tsx:44 | `isAuthenticated` holds exactly when there is a user; login sets it, logout clears it, and on mount it holds exactly when the storage restores a user |
| AuthContext.AuthProvider.UpdateUser | src/context/AuthContext.tsx:36-42 | a no-op without a user; otherwise stores and sets the merged user |
| AppRoutes.ProtectedIff | src/App.tsx:18-30 | renders iff there is a user whose role is a string in the allowed list; otherwise redirects to "/" |
| AppRoutes.RootRoute | src/App.tsx:39 | "/" renders Home for a visitor and redirects a user to "/{role}/dashboard" |
| AppRoutes.LoginRoutes | src/App.tsx:42-44 | each login page renders for a visitor and otherwise redirects to its own dashboard |
| AppRoutes.DashboardsAdmitOneRole | src/App.tsx:47-70 | each dashboard admits exactly the role admin, driver or user |
| AppRoutes.UnmatchedRedirectsHome | src/App.tsx:73 | any other path redirects to "/" |
| AppRoutes.HomeTargetMatches | src/App.tsx:39 | the path built from a role matches a route only for the three dashboard roles |
| AppRoutes.ChainsEndAtOwnDashboard | src/App.tsx:39-73 | for roles admin, driver and user, every path settles on the own dashboard within four resolutions |
| AppRoutes.VisitorSettles | src/App.tsx:39-73 | a visitor settles within two resolutions on Home or a login page |
| AppRoutes.OtherRolesLoop | src/App.tsx:39 | for any other role, "/" and the catch-all redirect into each other and never settle |
| LanguageContext.T | src/context/LanguageContext.tsx:130-132 | an absent key comes back unchanged; a present non-empty entry is returned |
| LanguageContext.TableOfEntries | src/context/LanguageContext.tsx:10-123 | a key is in a table iff an entry names it, and its value is one written for it |
| LanguageContext.TableFacts | src/context/LanguageContext.tsx:13-121 | no table value is empty, neither table has the sign-in form's keys, and both list the same keys |
| LanguageContext.SameKeys | src/context/LanguageContext.tsx:13-121 | the English and Tamil tables define the same key set |
| LanguageContext.NoEmptyEntry | src/context/LanguageContext.tsx:13-121 | every table value is non-empty |
| LanguageContext.FallbackIff | src/context/LanguageContext.tsx:131 | the fallback fires exactly for absent keys, and a key is translated in both languages or in neither |
| LanguageContext.MissingKey | src/context/LanguageContext.tsx:131 | a key that no entry of either table names is absent and comes back unchanged |
| LanguageContext.FormKeysUntranslated | src/components/forms/LoginForm.tsx:83-152 | 'signup', 'fullName', 'confirmPassword', 'backToLogin' and 'register' come back unchanged |
| LanguageContext.LookupNeverEmpty | src/components/forms/LoginForm.tsx:83-152 | a non-empty key never translates to the empty string, so a default written after the lookup is never shown |
| LanguageContext.LanguageProvider.constructor | src/context/LanguageContext.tsx:128 | the language starts as 'en' |
| LanguageContext.LanguageProvider.SetLanguage | src/context/LanguageContext.tsx:128 | only the language changes; the tables are constants |
| LanguageContext.LanguageProvider.Translate | src/context/LanguageContext.tsx:130-132 | `t` returns the current language's entry for a present key and the key itself otherwise |
| OtpServer.Normalize | server/server.js:42-44 | a number starting with "+" is kept, any other gets "+91" in front; the result starts with "+" |
| OtpServer.NormalizeIdempotent | server/server.js:76-78 | normalising twice equals normalising once |
| OtpServer.NormalizeMerges | server/server.js:42-44 | a number with and without the default code reaches the same recipient |
| OtpServer.SendOtpRequiresPhone | server/server.js:35-39 | a missing or falsy number gets 400 "Phone number is required" and no code is sent |
| OtpServer.SendOtpOutcomes | server/server.js:41-62 | the service is called exactly for a non-empty string, with the normalised number; success is 200 with the sid; every error is 500 "Failed to send OTP" |
| OtpServer.VerifyOtpRequiresBoth | server/server.js:70-74 | a missing number or code gets 400 "Phone and OTP are required" |
| OtpServer.VerifyOtpOutcomes | server/server.js:76-106 | only "approved" succeeds, with the normalised number and its token; other statuses get 400 "Invalid OTP"; errors get 500 "Failed to verify OTP" |
| OtpServer.SessionPhoneHasCode | server/server.js:84-92 | the signed-in number always starts with "+" |

## Left out

- JSX layout, styling and the framer-motion animation are left out. So are the
  presentational components `Button`, `Input`, `Modal`, `Layout`, `Footer` and `Home`. The
  only presentational facts kept are the `disabled`/`loading` states of buttons and the
  dropped `Card` clicks, both inside `Enabled`.
- The network is replaced by outcome parameters: axios and fetch in the front end; the
  verification service, `jwt.sign`, express, CORS and `listen` in the server.
- The token signed by the server is a function parameter `sign` of the number.
- Each handler with an `await` is atomic in this model. No other event can happen between
  its start and its completion, so the busy flag is not observed half-way.
- Timer latencies (2000, 3000 and 1000 ms) are left out. Any pending callback may fire
  next, which allows at least every firing order the real delays allow.
- The browser's input checks beyond `required` are left out: `maxLength` on the code
  input, `type="email"` and `type="tel"`. The `maxLength` of 13 on the phone input is kept.
- Route matching is exact string equality. react-router's case-insensitive matching and
  trailing slashes are left out.
- The stored user text uses an encoding of this project's own, not JSON. Parsing accepts
  exactly what that encoding writes.
- A stored value that JSON.parse would throw on stops the provider from mounting. The
  constructor therefore requires that the storage restores without that exception.
- JSON values that are not user objects, such as `null` or an array, are not modelled.
- The user object has the members id, name, email, phone, dateOfBirth, token, isNew, role
  and address, each a string or a boolean. Other members, and a member explicitly set to
  `undefined` in an `updateUser` patch, are not modelled.
- MobileLogin.LoginUser: the reply's `success`, `message` and `userDetails` members are not
  user fields, so the user handed to `login` holds only the token.
- OtpServer.VerifyOtp: the code is passed to the service unchanged, and the model records
  only the number the service was asked about.
- OtpServer: a body member is a string or an opaque non-string value. The message of the
  TypeError thrown by a non-string phone is the engine's usual text.
- LanguageContext.T: keys that name inherited object members, such as "constructor", are
  not modelled. The model covers only the tables' own entries.
- The dashboards of the administrator and the driver are left out, as are the header
  language toggle and the details forms. They hold static tables and plain field setters
  without rules.
- `src/types/index.ts` holds only declarations. `DriverLogin` and `UserLogin`, which `App`
  imports, are not part of this model.
- The `console.log` and `console.error` calls and the text of `alert` are left out. The
  only alert texts kept are those on which the model's effects depend.
