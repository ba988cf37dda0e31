/**
 * The driver dashboard (src/Pages/Driver/Driver.jsx): an on/off duty switch,
 * polling for pending trips, a ten-second offer popup with a countdown, and
 * accepting the offered trip.
 *
 * `Dashboard` is the component state; `ToggledDuty`, `Polled`, `Ticked` and
 * `Accepted` give the state after each handler; `DriverDashboard` is the
 * component itself, whose methods update its fields step by step.
 */
module Driver {
  import opened Options

  /** A trip record as it arrives in the polled trip list. */
  datatype Trip = Trip(
    id: string,
    driverId: Option<string>,
    endingUser: bool,
    endingDriver: bool,
    distance: Option<real>)

  /** The offer window, in countdown ticks (one tick per second). */
  const OfferWindow: int := 10

  /** Rupees per kilometre in the fare estimate. */
  const FarePerKm: real := 15.0

  // ---------------------------------------------------------------------------
  // Pending trips and the latest one

  /** The list filter: neither assigned to a driver nor ended by either side. */
  predicate IsPending(t: Trip)
    ensures IsPending(t) <==>
      (t.driverId == None || t.driverId == Some("")) && !t.endingUser && !t.endingDriver
  {
    !Truthy(t.driverId) && !t.endingUser && !t.endingDriver
  }

  /** `trips.filter(...)`: the pending trips, in list order. */
  function PendingTrips(trips: seq<Trip>): (r: seq<Trip>)
    ensures |r| <= |trips|
    ensures forall t :: t in r <==> t in trips && IsPending(t)
  {
    if trips == [] then []
    else (if IsPending(trips[0]) then [trips[0]] else []) + PendingTrips(trips[1..])
  }

  /**
   * The filter keeps list order and multiplicity: filtering a concatenation
   * is concatenating the filtered parts, and a single trip is kept exactly
   * when it is pending.
   */
  lemma {:induction false} PendingTripsAppend(a: seq<Trip>, b: seq<Trip>)
    ensures PendingTrips(a + b) == PendingTrips(a) + PendingTrips(b)
    ensures forall t :: PendingTrips([t]) == if IsPending(t) then [t] else []
  {
    forall t ensures PendingTrips([t]) == if IsPending(t) then [t] else [] {
      assert [t][1..] == [];
    }
    if a != [] {
      assert (a + b)[1..] == a[1..] + b;
      PendingTripsAppend(a[1..], b);
    } else {
      assert a + b == b;
    }
  }

  /** Position `i` holds a pending trip and no pending trip comes after it. */
  predicate IsLatestPendingAt(trips: seq<Trip>, i: int)
  {
    0 <= i < |trips| && IsPending(trips[i]) &&
    forall j :: i < j < |trips| ==> !IsPending(trips[j])
  }

  /** The last element of the filtered list is the latest pending trip of the whole list. */
  lemma {:induction false} LastPendingIsLatest(trips: seq<Trip>)
    requires |PendingTrips(trips)| > 0
    ensures exists i :: (IsLatestPendingAt(trips, i) &&
      trips[i] == PendingTrips(trips)[|PendingTrips(trips)| - 1])
  {
    var rest := PendingTrips(trips[1..]);
    if |rest| > 0 {
      LastPendingIsLatest(trips[1..]);
      var k :| IsLatestPendingAt(trips[1..], k) && trips[1..][k] == rest[|rest| - 1];
      assert IsLatestPendingAt(trips, k + 1);
    } else {
      forall j | 0 < j < |trips| ensures !IsPending(trips[j]) {
        assert trips[j] in trips[1..];
      }
      assert IsLatestPendingAt(trips, 0);
    }
  }

  // ---------------------------------------------------------------------------
  // Fare

  /** `calculateFare`: the fare estimate for a distance in kilometres. */
  function CalculateFare(distance: real): (fare: real)
    ensures fare / FarePerKm == distance
  {
    distance * FarePerKm
  }

  /** What the popup shows as the estimated fare. */
  datatype FareText = Amount(rupees: real) | NotAvailable

  /** "N/A" when the trip's distance is missing or zero (both falsy), else the fare. */
  function EstimatedFare(distance: Option<real>): (r: FareText)
    ensures r.NotAvailable? <==> distance == None || distance == Some(0.0)
    ensures r.Amount? ==> r.rupees / FarePerKm == distance.value
  {
    if distance.Some? && distance.value != 0.0 then Amount(CalculateFare(distance.value))
    else NotAvailable
  }

  // ---------------------------------------------------------------------------
  // Component state and its handlers

  /**
   * The dashboard's state. `countdownRunning` says that the popup's interval
   * timer (`popupInterval`) is still live, so that its ticks still arrive.
   */
  datatype Dashboard = Dashboard(
    onDuty: bool,
    showRequestPopup: bool,
    countdown: int,
    countdownRunning: bool,
    currentTrip: Option<Trip>,
    showHandshake: bool)

  const InitialDashboard: Dashboard := Dashboard(false, false, 0, false, None, false)

  /** The invariant the handlers keep, starting from `InitialDashboard`. */
  predicate Wellformed(d: Dashboard)
  {
    0 <= d.countdown <= OfferWindow &&
    (d.showRequestPopup ==> d.currentTrip.Some?) &&
    (!d.showRequestPopup ==> d.countdown == 0) &&
    (d.countdownRunning ==> d.showRequestPopup && 1 <= d.countdown)
  }

  /** The popup (with its Accept button) is rendered. */
  function PopupVisible(d: Dashboard): (b: bool)
    ensures b ==> d.currentTrip.Some?
    ensures Wellformed(d) ==> (b <==> d.showRequestPopup)
  {
    d.showRequestPopup && d.currentTrip.Some?
  }

  /** `handleDutyToggle`. */
  function ToggledDuty(d: Dashboard): (r: Dashboard)
    ensures r.onDuty != d.onDuty
    ensures r.(onDuty := d.onDuty) == d
  {
    d.(onDuty := !d.onDuty)
  }

  /**
   * One run of `fetchTrips`. `response` is the parsed trip list, or `None`
   * when the request, the JSON parse or the filter threw (the error is only
   * logged).
   */
  function Polled(d: Dashboard, response: Option<seq<Trip>>): (r: Dashboard)
    // off duty there is no polling interval
    ensures !d.onDuty ==> r == d
    ensures response.None? ==> r == d
    // an open popup, or no pending trip, leaves everything as it was
    ensures response.Some? && (d.showRequestPopup || PendingTrips(response.value) == []) ==> r == d
    // otherwise the latest pending trip is offered for the full window
    ensures d.onDuty && response.Some? && !d.showRequestPopup && PendingTrips(response.value) != [] ==>
      r.showRequestPopup && r.countdown == OfferWindow && r.countdownRunning &&
      r.currentTrip.Some? &&
      (exists i :: IsLatestPendingAt(response.value, i) && response.value[i] == r.currentTrip.value) &&
      r.onDuty == d.onDuty && r.showHandshake == d.showHandshake
  {
    if !d.onDuty || response.None? then d
    else
      var pending := PendingTrips(response.value);
      if |pending| > 0 && !d.showRequestPopup then
        LastPendingIsLatest(response.value);
        d.(currentTrip := Some(pending[|pending| - 1]), showRequestPopup := true,
           countdown := OfferWindow, countdownRunning := true)
      else d
  }

  /** One second of the popup's interval timer. */
  function Ticked(d: Dashboard): (r: Dashboard)
    ensures !d.countdownRunning ==> r == d
    ensures d.countdownRunning && d.countdown <= 1 ==>
      r.countdown == 0 && !r.showRequestPopup && !r.countdownRunning
    ensures d.countdownRunning && d.countdown > 1 ==>
      r.countdown == d.countdown - 1 && r.showRequestPopup == d.showRequestPopup && r.countdownRunning
    ensures r.onDuty == d.onDuty && r.currentTrip == d.currentTrip && r.showHandshake == d.showHandshake
  {
    if !d.countdownRunning then d
    else if d.countdown <= 1 then d.(countdown := 0, showRequestPopup := false, countdownRunning := false)
    else d.(countdown := d.countdown - 1)
  }

  /**
   * `handleAcceptRide`; `assignOk` says whether the assign-driver request
   * answered with an ok status. Without a current trip the request is never
   * sent: reading its id throws and the error is only logged.
   */
  function Accepted(d: Dashboard, assignOk: bool): (r: Dashboard)
    ensures !r.countdownRunning
    ensures r.showHandshake <==> d.showHandshake || (assignOk && d.currentTrip.Some?)
    ensures !assignOk ==> r.showHandshake == d.showHandshake
    ensures r.(countdownRunning := d.countdownRunning, showHandshake := d.showHandshake) == d
  {
    var stopped := d.(countdownRunning := false);
    if d.currentTrip.Some? && assignOk then stopped.(showHandshake := true) else stopped
  }

  // ---------------------------------------------------------------------------
  // Event sequences

  /** What can happen to the dashboard. */
  datatype DriverEvent =
    | ToggleDutyPressed
    | PollFired(response: Option<seq<Trip>>)
    | TickFired
    | AcceptPressed(assignOk: bool)

  /** One event; Accept is only reachable through the button in the visible popup. */
  function Step(d: Dashboard, e: DriverEvent): (r: Dashboard)
    ensures e.AcceptPressed? && !PopupVisible(d) ==> r == d
    ensures e.AcceptPressed? ==>
      (r.showHandshake <==> d.showHandshake || (PopupVisible(d) && e.assignOk))
  {
    match e
    case ToggleDutyPressed => ToggledDuty(d)
    case PollFired(response) => Polled(d, response)
    case TickFired => Ticked(d)
    case AcceptPressed(assignOk) => if PopupVisible(d) then Accepted(d, assignOk) else d
  }

  function Run(d: Dashboard, events: seq<DriverEvent>): Dashboard
    decreases |events|
  {
    if events == [] then d else Run(Step(d, events[0]), events[1..])
  }

  lemma StepKeepsWellformed(d: Dashboard, e: DriverEvent)
    requires Wellformed(d)
    ensures Wellformed(Step(d, e))
  {
  }

  /** Every reachable dashboard is well formed; in particular the countdown is never negative. */
  lemma {:induction false} RunKeepsWellformed(d: Dashboard, events: seq<DriverEvent>)
    requires Wellformed(d)
    ensures Wellformed(Run(d, events))
    ensures 0 <= Run(d, events).countdown <= OfferWindow
    decreases |events|
  {
    if events != [] {
      StepKeepsWellformed(d, events[0]);
      RunKeepsWellformed(Step(d, events[0]), events[1..]);
    }
  }

  /** Once the handshake is shown it stays shown, whatever happens next. */
  lemma {:induction false} HandshakeStaysShown(d: Dashboard, events: seq<DriverEvent>)
    requires d.showHandshake
    ensures Run(d, events).showHandshake
    decreases |events|
  {
    if events != [] {
      HandshakeStaysShown(Step(d, events[0]), events[1..]);
    }
  }

  // ---------------------------------------------------------------------------
  // The countdown

  /** `n` ticks in a row. */
  function Ticks(d: Dashboard, n: nat): Dashboard
    decreases n
  {
    if n == 0 then d else Ticks(Ticked(d), n - 1)
  }

  /** A stopped countdown ignores ticks. */
  lemma {:induction false} TicksWhenStopped(d: Dashboard, n: nat)
    requires !d.countdownRunning
    ensures Ticks(d, n) == d
    decreases n
  {
    if n > 0 {
      TicksWhenStopped(Ticked(d), n - 1);
    }
  }

  /** After Accept the countdown is frozen: no number of ticks changes the state. */
  lemma AcceptFreezesCountdown(d: Dashboard, assignOk: bool, n: nat)
    ensures Ticks(Accepted(d, assignOk), n) == Accepted(d, assignOk)
  {
    TicksWhenStopped(Accepted(d, assignOk), n);
  }

  /** Before it reaches zero, each tick takes exactly one off a running countdown. */
  lemma {:induction false} TicksBeforeExpiry(d: Dashboard, k: nat)
    requires Wellformed(d) && d.countdownRunning && k < d.countdown
    ensures Ticks(d, k) == d.(countdown := d.countdown - k)
    decreases k
  {
    if k > 0 {
      TicksBeforeExpiry(Ticked(d), k - 1);
    }
  }

  /** A running countdown of `c` closes the popup on exactly its `c`-th tick. */
  lemma TicksToExpiry(d: Dashboard)
    requires Wellformed(d) && d.countdownRunning
    ensures Ticks(d, d.countdown as nat) ==
      d.(countdown := 0, showRequestPopup := false, countdownRunning := false)
  {
    var c := d.countdown as nat;
    TicksBeforeExpiry(d, c - 1);
    assert Ticks(d, c) == Ticks(Ticks(d, c - 1), 1) by { TicksSplit(d, c - 1, 1); }
  }

  lemma {:induction false} TicksSplit(d: Dashboard, m: nat, n: nat)
    ensures Ticks(d, m + n) == Ticks(Ticks(d, m), n)
    decreases m
  {
    if m > 0 {
      TicksSplit(Ticked(d), m - 1, n);
    }
  }

  /**
   * An offer opened by a poll stays visible, with `OfferWindow - k` seconds
   * shown, for the first nine ticks, and is closed with a zero countdown from
   * the tenth tick on.
   */
  lemma OfferLastsTenTicks(d: Dashboard, trips: seq<Trip>, k: nat)
    requires Wellformed(d) && d.onDuty && !d.showRequestPopup && PendingTrips(trips) != []
    ensures var offer := Polled(d, Some(trips));
      (k < OfferWindow ==> PopupVisible(Ticks(offer, k)) && Ticks(offer, k).countdown == OfferWindow - k) &&
      (k >= OfferWindow ==> !PopupVisible(Ticks(offer, k)) && Ticks(offer, k).countdown == 0)
  {
    var offer := Polled(d, Some(trips));
    if k < OfferWindow {
      TicksBeforeExpiry(offer, k);
    } else {
      var closed := offer.(countdown := 0, showRequestPopup := false, countdownRunning := false);
      TicksToExpiry(offer);
      TicksSplit(offer, OfferWindow as nat, k - OfferWindow as nat);
      TicksWhenStopped(closed, k - OfferWindow as nat);
    }
  }

  // ---------------------------------------------------------------------------
  // The component

  /** The `Driver` component's state, updated in place by its handlers. */
  class DriverDashboard {
    var onDuty: bool
    var showRequestPopup: bool
    var countdown: int
    var countdownRunning: bool
    var currentTrip: Option<Trip>
    var showHandshake: bool

    function Snapshot(): Dashboard
      reads this
    {
      Dashboard(onDuty, showRequestPopup, countdown, countdownRunning, currentTrip, showHandshake)
    }

    ghost predicate Valid()
      reads this
    {
      Wellformed(Snapshot())
    }

    constructor ()
      ensures Valid() && Snapshot() == InitialDashboard
    {
      onDuty, showRequestPopup, countdown := false, false, 0;
      countdownRunning, currentTrip, showHandshake := false, None, false;
    }

    method ToggleDuty()
      requires Valid()
      modifies this
      ensures Valid() && Snapshot() == ToggledDuty(old(Snapshot()))
    {
      onDuty := !onDuty;
    }

    method Poll(response: Option<seq<Trip>>)
      requires Valid()
      modifies this
      ensures Valid() && Snapshot() == Polled(old(Snapshot()), response)
    {
      if !onDuty || response.None? {
        return;
      }
      var pending := PendingTrips(response.value);
      if |pending| > 0 && !showRequestPopup {
        currentTrip := Some(pending[|pending| - 1]);
        showRequestPopup := true;
        countdown := OfferWindow;
        countdownRunning := true;
      }
    }

    method Tick()
      requires Valid()
      modifies this
      ensures Valid() && Snapshot() == Ticked(old(Snapshot()))
    {
      if !countdownRunning {
        return;
      }
      if countdown <= 1 {
        countdownRunning := false;
        showRequestPopup := false;
        countdown := 0;
      } else {
        countdown := countdown - 1;
      }
    }

    method Accept(assignOk: bool)
      requires Valid()
      modifies this
      ensures Valid() && Snapshot() == Accepted(old(Snapshot()), assignOk)
    {
      countdownRunning := false;
      if currentTrip.None? {
        return;
      }
      if assignOk {
        showHandshake := true;
      }
    }
  }
}
