/**
 * The driver's in-ride screen (src/Pages/DriverRide/DriverRide.jsx): the
 * End Ride button, whose status goes idle -> waiting -> ended (or back to
 * idle when the server refuses or the request fails), and the map centre.
 */
module DriverRide {
  import opened Options

  /** `endRideStatus`: "idle", "waiting" or "ended". */
  datatype EndRideStatus = Idle | Waiting | Ended

  /** How the end-driver request came back. */
  datatype EndRideOutcome =
    | OkResponse      // an ok status with a JSON object body
    | ErrorResponse   // an error status with a JSON object body
    | RequestFailed   // anything inside the `try` threw: the request, the JSON parse, or
                      // reading `message` from a `null` body

  /** The screen's state: the end-ride status and the active trip's `_id` (absent until loaded). */
  datatype RideScreen = RideScreen(status: EndRideStatus, tripId: Option<string>)

  const InitialRideScreen: RideScreen := RideScreen(Idle, None)

  // ---------------------------------------------------------------------------
  // The button

  /** The End Ride button's `disabled` attribute. */
  function ButtonDisabled(status: EndRideStatus): (b: bool)
    ensures b <==> status != Idle
  {
    status == Waiting || status == Ended
  }

  /** The End Ride button's text; each status has its own label. */
  function ButtonLabel(status: EndRideStatus): (text: string)
    ensures text == "Waiting..." <==> status == Waiting
    ensures text == "Ride Ended" <==> status == Ended
    ensures text == "End Ride" <==> status == Idle
  {
    match status
    case Waiting => "Waiting..."
    case Ended => "Ride Ended"
    case Idle => "End Ride"
  }

  /**
   * A press sends the end-driver request exactly when the button is enabled
   * (a disabled button delivers no click) and the trip's id is truthy.
   */
  function IssuesRequest(s: RideScreen): (b: bool)
    ensures b <==> s.status == Idle && s.tripId.Some? && s.tripId.value != ""
  {
    !ButtonDisabled(s.status) && Truthy(s.tripId)
  }

  // ---------------------------------------------------------------------------
  // The handlers

  /** The active-trip fetch succeeded with a trip whose `_id` is `tripId`. */
  function ActiveTripLoaded(s: RideScreen, tripId: Option<string>): (r: RideScreen)
    ensures r.status == s.status && r.tripId == tripId
  {
    s.(tripId := tripId)
  }

  /**
   * `handleEndRide` up to the request, whatever the status: with a truthy
   * trip id the status becomes waiting and the request goes out, without one
   * nothing happens.
   */
  function EndRequested(s: RideScreen): (r: RideScreen)
    ensures Truthy(s.tripId) ==> r.status == Waiting && r.tripId == s.tripId
    ensures !Truthy(s.tripId) ==> r == s
  {
    if Truthy(s.tripId) then s.(status := Waiting) else s
  }

  /** A press of the End Ride button: the handler runs only while the button is enabled. */
  function Pressed(s: RideScreen): (r: RideScreen)
    ensures !ButtonDisabled(s.status) ==> r == EndRequested(s)
    ensures IssuesRequest(s) ==> r.status == Waiting && r.tripId == s.tripId
    ensures !IssuesRequest(s) ==> r == s
    ensures s.status != Idle ==> r == s
  {
    if ButtonDisabled(s.status) then s else EndRequested(s)
  }

  /** `handleEndRide` after the request: ended on an ok answer, back to idle otherwise. */
  function Completed(s: RideScreen, outcome: EndRideOutcome): (r: RideScreen)
    requires s.status == Waiting
    ensures r.status == Ended <==> outcome == OkResponse
    ensures r.status == Idle <==> outcome != OkResponse
    ensures r.tripId == s.tripId
  {
    match outcome
    case OkResponse => s.(status := Ended)
    case ErrorResponse => s.(status := Idle)
    case RequestFailed => s.(status := Idle)
  }

  /** A whole press: through waiting to the outcome's status, or nothing at all. */
  function EndRide(s: RideScreen, outcome: EndRideOutcome): (r: RideScreen)
    ensures IssuesRequest(s) ==>
      Pressed(s).status == Waiting && r.status == (if outcome == OkResponse then Ended else Idle)
    ensures !IssuesRequest(s) ==> r == s
    ensures r.tripId == s.tripId
  {
    if IssuesRequest(s) then Completed(Pressed(s), outcome) else s
  }

  // ---------------------------------------------------------------------------
  // Repeated presses

  /** Presses in a row, each with the outcome of the request it sends, if any. */
  function PressAll(s: RideScreen, outcomes: seq<EndRideOutcome>): RideScreen
    decreases |outcomes|
  {
    if outcomes == [] then s else PressAll(EndRide(s, outcomes[0]), outcomes[1..])
  }

  /** How many of those presses send a request that the server accepts. */
  function SuccessfulEnds(s: RideScreen, outcomes: seq<EndRideOutcome>): nat
    decreases |outcomes|
  {
    if outcomes == [] then 0
    else
      (if IssuesRequest(s) && outcomes[0] == OkResponse then 1 else 0) +
      SuccessfulEnds(EndRide(s, outcomes[0]), outcomes[1..])
  }

  /** Once ended, presses change nothing and send no request. */
  lemma {:induction false} EndedIsFinal(s: RideScreen, outcomes: seq<EndRideOutcome>)
    requires s.status == Ended
    ensures PressAll(s, outcomes) == s
    ensures SuccessfulEnds(s, outcomes) == 0
    decreases |outcomes|
  {
    if outcomes != [] {
      EndedIsFinal(s, outcomes[1..]);
    }
  }

  /**
   * The server accepts at most one end request from this screen, none once
   * ended, and the screen ends up ended exactly when one was accepted.
   */
  lemma {:induction false} AtMostOneSuccessfulEnd(s: RideScreen, outcomes: seq<EndRideOutcome>)
    ensures SuccessfulEnds(s, outcomes) <= (if s.status == Ended then 0 else 1)
    ensures PressAll(s, outcomes).status == Ended <==>
      s.status == Ended || SuccessfulEnds(s, outcomes) == 1
    decreases |outcomes|
  {
    if outcomes == [] {
    } else if s.status == Ended {
      EndedIsFinal(s, outcomes);
    } else {
      var next := EndRide(s, outcomes[0]);
      AtMostOneSuccessfulEnd(next, outcomes[1..]);
    }
  }

  // ---------------------------------------------------------------------------
  // The map

  datatype LatLng = LatLng(lat: real, lng: real)
  datatype Marker = Marker(position: LatLng, caption: string)

  /** The fallback centre, used before any marker is placed. */
  const DefaultCenter: LatLng := LatLng(19.076, 72.8777)

  /** `mapCenter`: the first marker's position, else the fallback. */
  function MapCenter(markers: seq<Marker>): (c: LatLng)
    ensures markers != [] ==> c == markers[0].position
    ensures markers == [] ==> c == DefaultCenter
    ensures c == DefaultCenter || exists m :: m in markers && m.position == c
  {
    if |markers| > 0 then markers[0].position else DefaultCenter
  }

  // ---------------------------------------------------------------------------
  // The component

  /** The `DriverRide` component's end-ride state, updated in place by its handlers. */
  class RideView {
    var endRideStatus: EndRideStatus
    var tripId: Option<string>

    function Snapshot(): RideScreen
      reads this
    {
      RideScreen(endRideStatus, tripId)
    }

    constructor ()
      ensures Snapshot() == InitialRideScreen
    {
      endRideStatus, tripId := Idle, None;
    }

    method LoadActiveTrip(id: Option<string>)
      modifies this
      ensures Snapshot() == ActiveTripLoaded(old(Snapshot()), id)
    {
      tripId := id;
    }

    /**
     * The synchronous part of `handleEndRide`, which itself does not look at
     * the status; `requested` says whether the request goes out.
     */
    method HandleEndRide() returns (requested: bool)
      modifies this
      ensures requested == Truthy(old(tripId))
      ensures Snapshot() == EndRequested(old(Snapshot()))
    {
      requested := false;
      if !Truthy(tripId) {
        return;
      }
      endRideStatus := Waiting;
      requested := true;
    }

    /** The continuation of `handleEndRide` once the request has come back. */
    method CompleteEndRide(outcome: EndRideOutcome)
      requires endRideStatus == Waiting
      modifies this
      ensures Snapshot() == Completed(old(Snapshot()), outcome)
    {
      if outcome == OkResponse {
        endRideStatus := Ended;
      } else {
        endRideStatus := Idle;
      }
    }
  }
}
