# Driver client state machines of a ride-hailing demo

This project models the client-side state logic of three driver views of a
ride-hailing single-page application, and proves properties of that model in
Dafny:

- **Driver dashboard** (`Driver` module, `driver.dfy`). There is an on/off duty
  switch. While on duty, the trip list is polled and the pending trips are
  picked out of it. The latest pending trip is then offered in a popup with a
  ten-second countdown. Accepting the offer stops the countdown and, if the
  assign-driver request succeeds, shows the handshake animation. The module
  also holds the fare estimate (15 per km, "N/A" without a distance).
- **Driver ride screen** (`DriverRide` module, `driver_ride.dfy`). It models
  the End Ride button. Its status is idle, waiting or ended, and the button
  has a derived disabled flag and label. It also models the map centre
  fallback.
- **Driver login form** (`DriverLogin` module, `driver_login.dfy`). The form
  has a login and a register mode and checks one fixed pair of demo
  credentials. It has a success flag, an error message, a password-visibility
  toggle, and the rules for what is rendered.

Each view has the same layout:

- A snapshot datatype holds the component's state (`Dashboard`, `RideScreen`,
  `LoginForm`).
- One pure function per handler gives the state after that handler, for
  example `Polled`, `Ticked`, `Accepted`, `Pressed`, `Completed` and
  `Submitted`.
- An event type, `Step` and `Run` describe what any sequence of user and
  timer events does. Lemmas about `Run` prove the invariants.
- A class has the component's own fields (`DriverDashboard`, `RideView`,
  `LoginView`). Each of its methods updates those fields in place, and its
  `ensures` ties the new snapshot to the handler's function applied to the
  old one.

Network results are parameters, so the model does no I/O:

- `Polled` takes the parsed trip list, or `None` when the request, the parse
  or the filter threw.
- `Accepted` takes whether the assign-driver request came back ok.
- The end-ride request comes back as `OkResponse`, `ErrorResponse` or
  `RequestFailed`.

The interval timers are explicit events: `PollFired` every five seconds,
`TickFired` every second.

JavaScript truthiness is written out:

- A `driverId` or trip `_id` is falsy when absent or `""`.
- A distance is falsy when absent or `0`.

Events reach a handler only through a control that is rendered and enabled:

- Accept exists only in the visible popup.
- A disabled End Ride button delivers no click.
- After a successful login, only the success text is rendered.
- The browser submits the login or register form only when its `required`
  email and password inputs are non-empty.

The handlers themselves, as class methods, are modelled without those guards,
as the source writes them. For example, `RideView.HandleEndRide` does not look
at the status, just as `handleEndRide` does not; the disabled-button gate is
in `Pressed`, `IssuesRequest` and `EndRide`.

Two behaviours of the source are modelled as written:

- Accepting an offer clears the countdown timer but never hides the popup.
  The popup stays open with its countdown frozen.
- The login inputs' `disabled={isSuccess}` never takes effect, because in
  login mode the inputs are not rendered once the login succeeded.

These views only call a server API. Driver assignment and its races, offer
expiry on the server, and the ride ending on both the rider's and the driver's
side all happen on that server, and none of them is in these files.

## Model

| member | source | states |
|---|---|---|
| `Driver.IsPending` | src/Pages/Driver/Driver.jsx:71-73 | a trip is pending iff its driverId is absent or empty and neither endingUser nor endingDriver is set |
| `Driver.PendingTrips` | src/Pages/Driver/Driver.jsx:71-73 | the filtered list holds exactly the pending trips of the polled list, and is no longer than it |
| `Driver.PendingTripsAppend` | src/Pages/Driver/Driver.jsx:71-73 | the filter keeps list order and multiplicity: filtering a concatenation concatenates the filtered parts, and a single trip is kept iff it is pending |
| `Driver.LastPendingIsLatest` | src/Pages/Driver/Driver.jsx:76-78 | the last element of the filtered list is a pending trip of the polled list after which no trip is pending |
| `Driver.CalculateFare` | src/Pages/Driver/Driver.jsx:137 | the fare divided by 15 gives back the distance |
| `Driver.EstimatedFare` | src/Pages/Driver/Driver.jsx:224-227 | "N/A" exactly when the distance is missing or zero, otherwise an amount that is 15 times the distance |
| `Driver.PopupVisible` | src/Pages/Driver/Driver.jsx:214 | the popup renders only with a current trip, and on every well-formed state exactly when showRequestPopup is set |
| `Driver.ToggledDuty` | src/Pages/Driver/Driver.jsx:33-35 | the duty flag flips and nothing else changes |
| `Driver.Polled` | src/Pages/Driver/Driver.jsx:62-102 | off duty, on a failed fetch, with the popup open or with no pending trip the state is unchanged; otherwise the popup opens on the latest pending trip in list order with countdown 10 and a running timer, duty and handshake unchanged |
| `Driver.Ticked` | src/Pages/Driver/Driver.jsx:83-92 | a stopped timer changes nothing; a running countdown at or below 1 becomes 0 and closes the popup and the timer; above 1 it drops by exactly 1; duty, trip and handshake never change |
| `Driver.Accepted` | src/Pages/Driver/Driver.jsx:105-134 | the countdown timer is stopped; the handshake becomes visible iff it was already visible or there is a current trip and the assignment succeeded; nothing else changes |
| `Driver.Step` | src/Pages/Driver/Driver.jsx:214-234 | an Accept press with the popup hidden changes nothing; after an Accept press the handshake shows iff it already did or the popup was visible and the assignment succeeded |
| `Driver.StepKeepsWellformed` | src/Pages/Driver/Driver.jsx:13-24 | every event keeps countdown in 0..10, a current trip under an open popup, a zero countdown when closed, and a running timer only with an open popup and countdown at least 1 |
| `Driver.RunKeepsWellformed` | src/Pages/Driver/Driver.jsx:62-134 | any sequence of duty, poll, tick and accept events keeps the state well formed, so the countdown is never negative |
| `Driver.HandshakeStaysShown` | src/Pages/Driver/Driver.jsx:124 | once the handshake is shown, no later event hides it |
| `Driver.TicksWhenStopped` | src/Pages/Driver/Driver.jsx:86 | after the timer is cleared, any number of ticks change nothing |
| `Driver.AcceptFreezesCountdown` | src/Pages/Driver/Driver.jsx:106 | after Accept, any number of countdown ticks leave the state unchanged |
| `Driver.TicksBeforeExpiry` | src/Pages/Driver/Driver.jsx:84-91 | k ticks before expiry take exactly k off a running countdown and change nothing else |
| `Driver.TicksToExpiry` | src/Pages/Driver/Driver.jsx:84-91 | a running countdown of c closes the popup exactly on its c-th tick, with countdown 0 and the timer stopped |
| `Driver.TicksSplit` | src/Pages/Driver/Driver.jsx:83-92 | m ticks then n ticks are the same as m + n ticks |
| `Driver.OfferLastsTenTicks` | src/Pages/Driver/Driver.jsx:75-92 | an offer opened by a poll stays visible showing 10 - k seconds for k < 10 ticks and is closed with countdown 0 from the tenth tick on |
| `Driver.DriverDashboard.constructor` | src/Pages/Driver/Driver.jsx:13-24 | off duty, no popup, countdown 0, no timer, no trip, no handshake |
| `Driver.DriverDashboard.ToggleDuty` | src/Pages/Driver/Driver.jsx:33-35 | updates the fields to the snapshot given by ToggledDuty and keeps the invariant |
| `Driver.DriverDashboard.Poll` | src/Pages/Driver/Driver.jsx:62-102 | updates the fields to the snapshot given by Polled and keeps the invariant |
| `Driver.DriverDashboard.Tick` | src/Pages/Driver/Driver.jsx:83-92 | updates the fields to the snapshot given by Ticked and keeps the invariant |
| `Driver.DriverDashboard.Accept` | src/Pages/Driver/Driver.jsx:105-134 | updates the fields to the snapshot given by Accepted and keeps the invariant |
| `DriverRide.ButtonDisabled` | src/Pages/DriverRide/DriverRide.jsx:260-263 | the End Ride button is disabled iff the status is not idle |
| `DriverRide.ButtonLabel` | src/Pages/DriverRide/DriverRide.jsx:272-276 | "Waiting..." iff waiting, "Ride Ended" iff ended, "End Ride" iff idle |
| `DriverRide.IssuesRequest` | src/Pages/DriverRide/DriverRide.jsx:260-263 | together with the trip-id check at line 39, a press sends the end request iff the status is idle (the button enabled) and the trip id is present and non-empty |
| `DriverRide.ActiveTripLoaded` | src/Pages/DriverRide/DriverRide.jsx:65-78 | a successful active-trip fetch records the trip id and leaves the status alone |
| `DriverRide.EndRequested` | src/Pages/DriverRide/DriverRide.jsx:38-40 | the handler, whatever the status: with a truthy trip id the status becomes waiting and the trip is kept, without one nothing changes |
| `DriverRide.Pressed` | src/Pages/DriverRide/DriverRide.jsx:38-40 | on an enabled button (lines 260-263) a press runs the handler; a press that sends the request moves to waiting with the trip kept; without a truthy trip id or with the button disabled nothing changes, so once waiting or ended a press changes nothing |
| `DriverRide.Completed` | src/Pages/DriverRide/DriverRide.jsx:41-61 | from waiting: ended iff the response is ok, idle on an error response or a thrown request, trip kept |
| `DriverRide.EndRide` | src/Pages/DriverRide/DriverRide.jsx:38-62 | a press that sends the request passes through waiting and ends at ended on ok and at idle otherwise; a press that sends none changes nothing |
| `DriverRide.EndedIsFinal` | src/Pages/DriverRide/DriverRide.jsx:260-263 | once ended, any further presses change nothing and no request is accepted |
| `DriverRide.AtMostOneSuccessfulEnd` | src/Pages/DriverRide/DriverRide.jsx:38-62 | over any sequence of presses at most one end request is accepted, and the screen ends up ended exactly when one was |
| `DriverRide.MapCenter` | src/Pages/DriverRide/DriverRide.jsx:164-167 | the first marker's position when there are markers, else the fixed point (19.076, 72.8777); always the default or some marker's position |
| `DriverRide.RideView.constructor` | src/Pages/DriverRide/DriverRide.jsx:21-25 | the status starts idle with no trip |
| `DriverRide.RideView.LoadActiveTrip` | src/Pages/DriverRide/DriverRide.jsx:65-78 | updates the fields to the snapshot given by ActiveTripLoaded |
| `DriverRide.RideView.HandleEndRide` | src/Pages/DriverRide/DriverRide.jsx:38-40 | reports whether the request goes out (iff the trip id is truthy) and updates the fields to the snapshot given by EndRequested, without a status check |
| `DriverRide.RideView.CompleteEndRide` | src/Pages/DriverRide/DriverRide.jsx:41-61 | from waiting, updates the fields to the snapshot given by Completed |
| `DriverLogin.Submitted` | src/Pages/DriverLogin/DriverLogin.jsx:36-50 | in register mode nothing changes; in login mode success iff the email and password are the demo pair, then with an empty error, else "Invalid credentials!"; only the success flag and the error change |
| `DriverLogin.PasswordToggled` | src/Pages/DriverLogin/DriverLogin.jsx:32-34 | flips showPassword and changes nothing else |
| `DriverLogin.ToggleTwiceRestores` | src/Pages/DriverLogin/DriverLogin.jsx:32-34 | toggling twice restores the form |
| `DriverLogin.SwitchedToRegister` | src/Pages/DriverLogin/DriverLogin.jsx:179-182 | sets register mode and clears the error, nothing else |
| `DriverLogin.SwitchedToLogin` | src/Pages/DriverLogin/DriverLogin.jsx:303 | sets login mode only; the error message is kept |
| `DriverLogin.EmailTyped` | src/Pages/DriverLogin/DriverLogin.jsx:96-98 | sets the email and nothing else |
| `DriverLogin.PasswordTyped` | src/Pages/DriverLogin/DriverLogin.jsx:122-124 | sets the password and nothing else |
| `DriverLogin.ShowsSuccess` | src/Pages/DriverLogin/DriverLogin.jsx:73-74 | the success text shows only in login mode, and on a consistent form exactly after a successful login with the demo pair |
| `DriverLogin.LoginInputsDisabled` | src/Pages/DriverLogin/DriverLogin.jsx:100-134 | in login mode the inputs are disabled iff the success text replaces them |
| `DriverLogin.DisabledInputsAreHidden` | src/Pages/DriverLogin/DriverLogin.jsx:73-134 | on every reachable form the inputs are disabled only while hidden by the success text, so the attribute never takes effect |
| `DriverLogin.Available` | src/Pages/DriverLogin/DriverLogin.jsx:73-307 | rendering gates at lines 73-81, 175-186 and 299-307 and the required inputs at 99 and 125: no control is available once the success text shows; submit iff the email and password are non-empty; the visibility toggle and register link only in login mode; the login link iff in register mode |
| `DriverLogin.EmptyFieldsBlockSubmit` | src/Pages/DriverLogin/DriverLogin.jsx:99-125 | with an empty email or password, any number of submit presses change nothing |
| `DriverLogin.ShowsError` | src/Pages/DriverLogin/DriverLogin.jsx:73-79 | the banner shows only in login mode, not after success and with a non-empty error, never together with the success text |
| `DriverLogin.PasswordInputType` | src/Pages/DriverLogin/DriverLogin.jsx:114-118 | "text" iff the password is shown, "password" iff hidden |
| `DriverLogin.StepKeepsConsistent` | src/Pages/DriverLogin/DriverLogin.jsx:32-50 | each available event keeps: success only in login mode with the demo pair and no error; error empty or "Invalid credentials!" |
| `DriverLogin.RunKeepsConsistent` | src/Pages/DriverLogin/DriverLogin.jsx:36-50 | any sequence of available events keeps the form consistent |
| `DriverLogin.SuccessIsFinal` | src/Pages/DriverLogin/DriverLogin.jsx:73-74 | once the success text replaces the form, no event changes it |
| `DriverLogin.ReachableErrorIsInvalidCredentials` | src/Pages/DriverLogin/DriverLogin.jsx:40-45 | from the initial form, a shown error always reads "Invalid credentials!", and success implies the demo credentials were entered |
| `DriverLogin.LoginView.constructor` | src/Pages/DriverLogin/DriverLogin.jsx:13-28 | login mode, empty fields, password hidden, no success, empty error |
| `DriverLogin.LoginView.SetEmail` | src/Pages/DriverLogin/DriverLogin.jsx:96-98 | updates the fields to the snapshot given by EmailTyped |
| `DriverLogin.LoginView.SetPassword` | src/Pages/DriverLogin/DriverLogin.jsx:122-124 | updates the fields to the snapshot given by PasswordTyped |
| `DriverLogin.LoginView.TogglePasswordVisibility` | src/Pages/DriverLogin/DriverLogin.jsx:32-34 | updates the fields to the snapshot given by PasswordToggled |
| `DriverLogin.LoginView.Submit` | src/Pages/DriverLogin/DriverLogin.jsx:36-50 | updates the fields to the snapshot given by Submitted |
| `DriverLogin.LoginView.SwitchToRegister` | src/Pages/DriverLogin/DriverLogin.jsx:179-182 | updates the fields to the snapshot given by SwitchedToRegister |
| `DriverLogin.LoginView.SwitchToLogin` | src/Pages/DriverLogin/DriverLogin.jsx:303 | updates the fields to the snapshot given by SwitchedToLogin |

## Left out

- Network requests: every `fetch` to the backend is left out, and only its outcome is a parameter. This covers the driver-details fetch, the trip list, assign-driver, active trip, passenger details and end-driver. The JSON body of the assign request, with the driver id taken from the details when present, is not modelled.
- Server behaviour: trip assignment, its races, and the ending-user and ending-driver transitions happen on a server that is not part of this model.
- Timers: `setInterval` and `setTimeout` are not modelled as real time. Ticks and polls are explicit events, and the redirects after accept, end-ride and login are left out, because navigation leaves the component.
- Concurrency: a poll whose request is still in flight when the popup opens is not modelled. Such a poll could finish against the stale popup flag captured in its closure. Each poll is taken as atomic.
- `alert` and `console.error`: both are left out as pure output.
- Form validation: the browser's format check on the `type="email"` input, and the register form's `required` username and confirm-password inputs, are not modelled. A submit with a malformed email is therefore allowed in the model, and a register-mode submit changes no modelled state anyway.
- Unused form fields: the register-only username and confirm-password inputs are left out, because no handler reads them.
- Presentation: the driver-details display, the earnings and trip statistics, the emergency-support alert, the passenger card, the map markers, geocoding and directions are foreign library calls or display only.
- Other views: src/Pages/Points/Points.jsx, src/Pages/User/User.jsx, src/Pages/UserRide/UserRide.jsx, src/App.jsx and src/Routes.jsx are not part of this model. They hold constant data, navigation, polling for display, and routing.
- Driver.CalculateFare: computes in exact reals, not JavaScript double-precision floats.
