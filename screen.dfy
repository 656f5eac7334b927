/**
 * The weather screen: its state, the refresh policy that drives it (the poll for
 * location services coming on, the swipe-to-refresh gesture, the refresh itself)
 * and the choice of what the screen shows.
 *
 * Each operation is first a function from the state before to the state after
 * (`AfterRefresh`, `AfterLocationRequest`, `AfterSwipe`, `AfterPoll`); the class
 * `WeatherScreen` at the end holds the same state in fields and performs the
 * operations step by step, and each of its methods is proved to agree with the
 * function.
 */
module Screen {
  import opened Options
  import opened Weather
  import opened Scoring
  import opened DeviceLocation

  /** The two errors a refresh reports. */
  datatype ErrorKind = NoLocation | FetchFailed

  /** The text the screen shows for each error. */
  function Message(kind: ErrorKind): (text: string)
    ensures |text| > 0
  {
    match kind
    case NoLocation => "No location available. Please enable location services."
    case FetchFailed => "Failed to load weather."
  }

  /** The two errors read differently on screen. */
  lemma MessagesDistinguishErrors(a: ErrorKind, b: ErrorKind)
    ensures Message(a) == Message(b) <==> a == b
  {
    if a != b {
      assert |Message(NoLocation)| != |Message(FetchFailed)|;
    }
  }

  /** Everything the screen's behaviour depends on: its own state, the process-wide
      cache of the last known location, the persisted store and the poller's flag. */
  datatype ScreenState = ScreenState(
    forecast: Option<seq<ForecastDay>>,
    location: string,
    error: Option<ErrorKind>,
    isRefreshing: bool,
    isLoading: bool,
    enableRefresh: bool,
    lastKnownUserLocation: Option<string>,
    prefs: map<string, string>,
    wasLocationEnabled: bool)

  /** The outcome of a single-update location request: nothing, or a fix delivered
      to the listener together with the device state when the refresh it triggers
      resolves its location. */
  datatype SingleUpdate = NoUpdate | Delivered(fix: Fix, later: Device)

  /** A state after an operation and the location the forecast repository was asked
      for, if it was asked at all. */
  datatype Step = Step(state: ScreenState, requested: Option<string>)

  /** The invariant every operation keeps. */
  predicate Consistent(s: ScreenState)
  {
    // the cache always mirrors the persisted store
    && Mirrored(s.lastKnownUserLocation, s.prefs)
    // between operations no refresh is in progress
    && !s.isRefreshing
    // the spinner stands only for the very first load
    && (s.isLoading ==> s.forecast.None? && s.error.None? && !s.enableRefresh)
    // refresh is enabled only after a fetch for the cached location
    && (s.enableRefresh ==> s.lastKnownUserLocation == Some(s.location))
    // "no location" is reported only while no location was ever known
    && (s.error == Some(NoLocation) ==> s.lastKnownUserLocation.None? && !s.enableRefresh)
  }

  /** The state on first composition, after the last location is read back from the
      persisted store. */
  function Initial(stored: map<string, string>): (s: ScreenState)
    ensures Consistent(s)
    ensures s.isLoading && !s.enableRefresh && s.forecast.None? && s.error.None? && !s.wasLocationEnabled
    ensures s.prefs == stored && s.lastKnownUserLocation == Lookup(stored, LastLocationKey)
  {
    ScreenState(None, "", None, false, true, false, Lookup(stored, LastLocationKey), stored, false)
  }

  // ---------------------------------------------------------------------------
  // Refreshing.

  /** The part of a refresh before the fetch: mark the refresh in progress and
      resolve a location; without one, report it and disable refresh; with one,
      show it as the screen's location. */
  function RefreshBegun(s: ScreenState, device: Device): (r: Step)
    ensures r.requested == Resolve(s.lastKnownUserLocation, s.prefs, device).loc
    ensures r.state.lastKnownUserLocation == r.requested
    ensures r.state.prefs == Resolve(s.lastKnownUserLocation, s.prefs, device).prefs
    ensures r.state.forecast == s.forecast && r.state.wasLocationEnabled == s.wasLocationEnabled
    ensures r.requested.None? ==>
      && r.state.error == Some(NoLocation) && r.state.location == s.location
      && !r.state.isRefreshing && !r.state.isLoading && !r.state.enableRefresh
    ensures r.requested.Some? ==>
      && r.state.location == r.requested.value && r.state.error == s.error
      && r.state.isRefreshing && r.state.isLoading && r.state.enableRefresh == s.enableRefresh
  {
    var res := Resolve(s.lastKnownUserLocation, s.prefs, device);
    var started := s.(isRefreshing := true, isLoading := true, lastKnownUserLocation := res.loc, prefs := res.prefs);
    if res.loc.None? then
      Step(started.(error := Some(NoLocation), isRefreshing := false, isLoading := false, enableRefresh := false), None)
    else
      Step(started.(location := res.loc.value), res.loc)
  }

  /** The part of a refresh after the fetch: replace the forecast on success or
      report the failure, and enable refresh in both cases. */
  function RefreshCompleted(s: ScreenState, response: Option<WeatherResponse>): (r: ScreenState)
    ensures !r.isRefreshing && !r.isLoading && r.enableRefresh
    ensures response.Some? ==> r.forecast == Some(response.value.forecast.forecastday) && r.error.None?
    ensures response.None? ==> r.forecast == s.forecast && r.error == Some(FetchFailed)
    ensures r.location == s.location && r.lastKnownUserLocation == s.lastKnownUserLocation
    ensures r.prefs == s.prefs && r.wasLocationEnabled == s.wasLocationEnabled
  {
    var fetched :=
      if response.Some? then s.(forecast := Some(response.value.forecast.forecastday), error := None)
      else s.(error := Some(FetchFailed));
    fetched.(isRefreshing := false, isLoading := false, enableRefresh := true)
  }

  /** A refresh: resolve a location; without one, report it and disable refresh;
      with one, fetch the forecast for it, replace the forecast on success or report
      the failure, and enable refresh in both cases. */
  function AfterRefresh(s: ScreenState, device: Device, response: Option<WeatherResponse>): (r: Step)
    ensures r.requested == Resolve(s.lastKnownUserLocation, s.prefs, device).loc
    ensures !r.state.isRefreshing && !r.state.isLoading
    ensures r.state.wasLocationEnabled == s.wasLocationEnabled
    ensures r.requested.None? ==>
      && r.state.error == Some(NoLocation) && !r.state.enableRefresh
      && r.state.forecast == s.forecast && r.state.location == s.location
      && r.state.lastKnownUserLocation == s.lastKnownUserLocation && r.state.prefs == s.prefs
    ensures r.requested.Some? ==>
      && r.state.location == r.requested.value && r.state.enableRefresh
      && r.state.lastKnownUserLocation == r.requested
    ensures r.requested.Some? && response.Some? ==>
      r.state.forecast == Some(response.value.forecast.forecastday) && r.state.error.None?
    ensures r.requested.Some? && response.None? ==>
      r.state.forecast == s.forecast && r.state.error == Some(FetchFailed)
    ensures Mirrored(s.lastKnownUserLocation, s.prefs) ==> Consistent(r.state)
    ensures Mirrored(s.lastKnownUserLocation, s.prefs) && r.requested.Some? ==>
      Lookup(r.state.prefs, LastLocationKey) == r.requested
    ensures r.state.prefs == Resolve(s.lastKnownUserLocation, s.prefs, device).prefs
  {
    var begun := RefreshBegun(s, device);
    if begun.requested.None? then begun
    else Step(RefreshCompleted(begun.state, response), begun.requested)
  }

  /** The state after the single-update listener stores a delivered fix. */
  function StoreDeliveredFix(s: ScreenState, fix: Fix): (r: ScreenState)
    ensures Mirrored(r.lastKnownUserLocation, r.prefs) && r.lastKnownUserLocation == Some(fix.coords)
    ensures forall k :: k in s.prefs && k != LastLocationKey ==> k in r.prefs && r.prefs[k] == s.prefs[k]
    ensures r.prefs.Keys == s.prefs.Keys + {LastLocationKey}
    ensures r.forecast == s.forecast && r.location == s.location && r.error == s.error
    ensures r.isRefreshing == s.isRefreshing && r.isLoading == s.isLoading && r.enableRefresh == s.enableRefresh
    ensures r.wasLocationEnabled == s.wasLocationEnabled
  {
    s.(lastKnownUserLocation := Some(fix.coords), prefs := s.prefs[LastLocationKey := fix.coords])
  }

  /** A refresh that first looks for a location: with one, it refreshes; without one
      and with location services on, it asks for a single update and refreshes when
      one is delivered; without one and with services off, it does nothing at all. */
  function AfterLocationRequest(s: ScreenState, device: Device, update: SingleUpdate, response: Option<WeatherResponse>): (r: Step)
    ensures Resolve(s.lastKnownUserLocation, s.prefs, device).loc.Some? ==> r == AfterRefresh(s, device, response)
    ensures Resolve(s.lastKnownUserLocation, s.prefs, device).loc.None? && !device.locationEnabled ==> r == Step(s, None)
    ensures Resolve(s.lastKnownUserLocation, s.prefs, device).loc.None? && update.NoUpdate? ==> r == Step(s, None)
    ensures Resolve(s.lastKnownUserLocation, s.prefs, device).loc.None? && device.locationEnabled && update.Delivered? ==>
      r == AfterRefresh(StoreDeliveredFix(s, update.fix), update.later, response) && r.requested.Some?
    ensures r.state.wasLocationEnabled == s.wasLocationEnabled
    ensures Consistent(s) ==> Consistent(r.state)
  {
    var res := Resolve(s.lastKnownUserLocation, s.prefs, device);
    var resolved := s.(lastKnownUserLocation := res.loc, prefs := res.prefs);
    ResolveIdempotent(s.lastKnownUserLocation, s.prefs, device);
    if res.loc.None? then
      if device.locationEnabled && update.Delivered? then
        AfterRefresh(StoreDeliveredFix(resolved, update.fix), update.later, response)
      else
        Step(resolved, None)
    else
      AfterRefresh(resolved, device, response)
  }

  /** The swipe gesture: honoured only while refresh is enabled. */
  function AfterSwipe(s: ScreenState, device: Device, update: SingleUpdate, response: Option<WeatherResponse>): (r: Step)
    ensures !s.enableRefresh ==> r == Step(s, None)
    ensures Consistent(s) && s.enableRefresh ==>
      r == AfterRefresh(s, device, response) && r.requested.Some?
    ensures Consistent(s) ==> Consistent(r.state)
  {
    if s.enableRefresh then AfterLocationRequest(s, device, update, response) else Step(s, None)
  }

  // ---------------------------------------------------------------------------
  // Polling for location services.

  /** One poll: a refresh with a location request fires exactly when location
      services are on now and were off at the previous poll; the flag then records
      the current reading. */
  function AfterPoll(s: ScreenState, device: Device, update: SingleUpdate, response: Option<WeatherResponse>): (r: Step)
    ensures r.state.wasLocationEnabled == device.locationEnabled
    ensures device.locationEnabled && !s.wasLocationEnabled ==>
      r == AfterLocationRequest(s.(wasLocationEnabled := true), device, update, response)
    ensures !(device.locationEnabled && !s.wasLocationEnabled) ==>
      r == Step(s.(wasLocationEnabled := device.locationEnabled), None)
    ensures Consistent(s) ==> Consistent(r.state)
  {
    var polled := s.(wasLocationEnabled := device.locationEnabled);
    if device.locationEnabled && !s.wasLocationEnabled then
      AfterLocationRequest(polled, device, update, response)
    else
      Step(polled, None)
  }

  /** What one poll observes and what the refresh it may fire would meet. */
  datatype PollInput = PollInput(device: Device, update: SingleUpdate, response: Option<WeatherResponse>)

  function Readings(inputs: seq<PollInput>): (readings: seq<bool>)
    ensures |readings| == |inputs|
    ensures forall i :: 0 <= i < |inputs| ==> readings[i] == inputs[i].device.locationEnabled
  {
    seq(|inputs|, i requires 0 <= i < |inputs| => inputs[i].device.locationEnabled)
  }

  /** The rising edges of a sequence of readings, the first compared with `previous`. */
  function RisingEdges(previous: bool, readings: seq<bool>): (edges: seq<bool>)
    ensures |edges| == |readings|
  {
    seq(|readings|, i requires 0 <= i < |readings| =>
      readings[i] && !(if i == 0 then previous else readings[i - 1]))
  }

  /** A run of polls: the final state and, poll by poll, whether a refresh fired.
      The refreshes fire exactly on the rising edges of the readings. */
  function RunPolls(s: ScreenState, inputs: seq<PollInput>): (r: (ScreenState, seq<bool>))
    ensures r.1 == RisingEdges(s.wasLocationEnabled, Readings(inputs))
    ensures r.0.wasLocationEnabled == if |inputs| == 0 then s.wasLocationEnabled else inputs[|inputs| - 1].device.locationEnabled
    ensures Consistent(s) ==> Consistent(r.0)
  {
    if |inputs| == 0 then (s, [])
    else
      var before := RunPolls(s, inputs[..|inputs| - 1]);
      var poll := inputs[|inputs| - 1];
      var fired := poll.device.locationEnabled && !before.0.wasLocationEnabled;
      var after := AfterPoll(before.0, poll.device, poll.update, poll.response);
      assert Readings(inputs[..|inputs| - 1]) == Readings(inputs)[..|inputs| - 1];
      (after.state, before.1 + [fired])
  }

  /** A run of polls over one more input is the shorter run followed by one poll. */
  lemma RunPollsExtend(s: ScreenState, inputs: seq<PollInput>, k: int)
    requires 0 <= k < |inputs|
    ensures var before := RunPolls(s, inputs[..k]);
      RunPolls(s, inputs[..k + 1]) ==
        (AfterPoll(before.0, inputs[k].device, inputs[k].update, inputs[k].response).state,
         before.1 + [inputs[k].device.locationEnabled && !before.0.wasLocationEnabled])
  {
    assert inputs[..k + 1][..k] == inputs[..k];
  }

  /** Between two refreshes fired by the poll, location services were seen off. */
  lemma FiredRefreshesAreSeparated(previous: bool, readings: seq<bool>, i: int, j: int)
    requires 0 <= i < j < |readings|
    requires RisingEdges(previous, readings)[i] && RisingEdges(previous, readings)[j]
    ensures exists k :: i < k < j && !readings[k]
  {
  }

  /** Polls that all find location services off fire nothing and change nothing
      but the poller's flag. */
  lemma {:induction false} OfflinePollsChangeNothing(s: ScreenState, inputs: seq<PollInput>)
    requires |inputs| > 0
    requires forall i :: 0 <= i < |inputs| ==> !inputs[i].device.locationEnabled
    ensures RunPolls(s, inputs).0 == s.(wasLocationEnabled := false)
    ensures forall i :: 0 <= i < |inputs| ==> !RunPolls(s, inputs).1[i]
  {
    if |inputs| > 1 {
      OfflinePollsChangeNothing(s, inputs[..|inputs| - 1]);
    }
  }

  // ---------------------------------------------------------------------------
  // The "no location" error is never reached.

  /** A refresh is only ever started once a location was resolved or delivered, so
      no location request, swipe or poll reports that no location is available. */
  lemma NoLocationNeverReported(s: ScreenState, device: Device, update: SingleUpdate, response: Option<WeatherResponse>)
    requires s.error != Some(NoLocation)
    ensures AfterLocationRequest(s, device, update, response).state.error != Some(NoLocation)
    ensures AfterSwipe(s, device, update, response).state.error != Some(NoLocation)
    ensures AfterPoll(s, device, update, response).state.error != Some(NoLocation)
  {
  }

  /** No run of polls reports that no location is available; in particular none
      that starts from the first state. */
  lemma {:induction false} PollsNeverReportNoLocation(s: ScreenState, inputs: seq<PollInput>)
    requires s.error != Some(NoLocation)
    ensures RunPolls(s, inputs).0.error != Some(NoLocation)
  {
    if |inputs| > 0 {
      var poll := inputs[|inputs| - 1];
      PollsNeverReportNoLocation(s, inputs[..|inputs| - 1]);
      NoLocationNeverReported(RunPolls(s, inputs[..|inputs| - 1]).0, poll.device, poll.update, poll.response);
    }
  }

  // ---------------------------------------------------------------------------
  // What the screen shows.

  /** A forecast day with its bike score. */
  datatype ScoredDay = ScoredDay(day: ForecastDay, score: int)

  datatype View = Spinner | ForecastList(days: seq<ScoredDay>) | PullToRefreshHint | ErrorText(message: string) | Blank

  /** Scores every day of a forecast, in order, dropping none. */
  function ScoreDays(days: seq<ForecastDay>): (scored: seq<ScoredDay>)
    ensures |scored| == |days|
    ensures forall i :: 0 <= i < |days| ==> scored[i].day == days[i] && scored[i].score == BikeScore(days[i].day)
    ensures forall i :: 0 <= i < |scored| ==> 0 <= scored[i].score <= 100
  {
    seq(|days|, i requires 0 <= i < |days| => ScoredDay(days[i], BikeScore(days[i].day)))
  }

  /** The screen's content: loading first, then any forecast (even with an error
      set), then the error, shown as the pull-to-refresh hint when a location is
      cached and location services are off. */
  function Render(s: ScreenState, locationEnabled: bool): (v: View)
    ensures v.Spinner? <==> s.isLoading
    ensures v.ForecastList? <==> !s.isLoading && s.forecast.Some?
    ensures v.ForecastList? ==> v.days == ScoreDays(s.forecast.value)
    ensures v.PullToRefreshHint? <==>
      !s.isLoading && s.forecast.None? && s.error.Some? && s.lastKnownUserLocation.Some? && !locationEnabled
    ensures v.ErrorText? <==>
      !s.isLoading && s.forecast.None? && s.error.Some? && !(s.lastKnownUserLocation.Some? && !locationEnabled)
    ensures v.ErrorText? ==> v.message == Message(s.error.value)
    ensures v.Blank? <==> !s.isLoading && s.forecast.None? && s.error.None?
  {
    if s.isLoading then Spinner
    else if s.forecast.Some? then ForecastList(ScoreDays(s.forecast.value))
    else if s.error.Some? then
      if s.lastKnownUserLocation.Some? && !locationEnabled then PullToRefreshHint else ErrorText(Message(s.error.value))
    else Blank
  }

  /** The "no location" message is never replaced by the pull-to-refresh hint. */
  lemma NoLocationErrorIsShown(s: ScreenState, locationEnabled: bool)
    requires Consistent(s) && s.forecast.None? && s.error == Some(NoLocation)
    ensures Render(s, locationEnabled) == ErrorText(Message(NoLocation))
  {
  }

  /** The hint only ever stands in for a failed fetch. */
  lemma HintReplacesOnlyFetchFailure(s: ScreenState, locationEnabled: bool)
    requires Consistent(s) && Render(s, locationEnabled).PullToRefreshHint?
    ensures s.error == Some(FetchFailed)
  {
    assert s.error.value != NoLocation;
  }

  /** A failed fetch without a forecast to fall back on shows the hint when location
      services are off and the red error text when they are on. */
  lemma FailedFetchView(s: ScreenState, device: Device)
    requires Consistent(s) && s.forecast.None? && s.lastKnownUserLocation.Some?
    ensures var after := AfterRefresh(s, device, None).state;
      && Render(after, false) == PullToRefreshHint
      && Render(after, true) == ErrorText(Message(FetchFailed))
  {
  }

  /** A forecast once shown stays shown through failed refreshes. */
  lemma ForecastSurvivesFailure(s: ScreenState, device: Device, locationEnabled: bool)
    requires s.forecast.Some?
    ensures Render(AfterRefresh(s, device, None).state, locationEnabled) == ForecastList(ScoreDays(s.forecast.value))
  {
  }

  /** A session that starts with location services off never fetches, whatever is
      cached: the spinner stays and the swipe is ignored until services come on. */
  lemma {:induction false} OfflineStartKeepsSpinner(stored: map<string, string>, inputs: seq<PollInput>,
                                                    device: Device, update: SingleUpdate, response: Option<WeatherResponse>)
    requires |inputs| > 0
    requires forall i :: 0 <= i < |inputs| ==> !inputs[i].device.locationEnabled
    ensures var s := RunPolls(Initial(stored), inputs).0;
      && Render(s, false) == Spinner
      && AfterSwipe(s, device, update, response) == Step(s, None)
  {
    OfflinePollsChangeNothing(Initial(stored), inputs);
  }

  // ---------------------------------------------------------------------------
  // The screen as an object whose fields the operations update in place.

  class WeatherScreen {
    var forecast: Option<seq<ForecastDay>>
    var location: string
    var error: Option<ErrorKind>
    var isRefreshing: bool
    var isLoading: bool
    var enableRefresh: bool
    var lastKnownUserLocation: Option<string>
    var prefs: map<string, string>
    var wasLocationEnabled: bool

    function State(): ScreenState
      reads this
    {
      ScreenState(forecast, location, error, isRefreshing, isLoading, enableRefresh,
                  lastKnownUserLocation, prefs, wasLocationEnabled)
    }

    ghost predicate Valid()
      reads this
    {
      Consistent(State())
    }

    /** First composition: the screen starts loading and reads the last location back
        from the persisted store. */
    constructor (stored: map<string, string>)
      ensures Valid()
      ensures State() == Initial(stored)
    {
      forecast := None;
      location := "";
      error := None;
      isRefreshing := false;
      isLoading := true;
      enableRefresh := false;
      prefs := stored;
      lastKnownUserLocation := if LastLocationKey in stored then Some(stored[LastLocationKey]) else None;
      wasLocationEnabled := false;
    }

    /** Resolves the location, updating the cache and the persisted store when the
        device has a fix. */
    method ResolveLocation(device: Device) returns (loc: Option<string>)
      modifies this`lastKnownUserLocation, this`prefs
      ensures Resolution(loc, prefs) == Resolve(old(lastKnownUserLocation), old(prefs), device)
      ensures lastKnownUserLocation == loc
    {
      if device.locationEnabled && device.permissionGranted {
        var best := NewestFix(device.fixes);
        if best.Some? {
          lastKnownUserLocation := Some(best.value.coords);
          prefs := prefs[LastLocationKey := best.value.coords];
          return lastKnownUserLocation;
        }
      }
      return lastKnownUserLocation;
    }

    /** A refresh needs only the cache to mirror the store: it re-establishes the rest
        of the invariant whatever the other fields hold. */
    method RefreshWeather(device: Device, response: Option<WeatherResponse>) returns (requested: Option<string>)
      requires Mirrored(lastKnownUserLocation, prefs)
      modifies this
      ensures Valid()
      ensures Step(State(), requested) == AfterRefresh(old(State()), device, response)
    {
      requested := BeginRefresh(device);
      if requested.Some? {
        CompleteRefresh(response);
      }
    }

    /** The part of a refresh before the fetch. */
    method BeginRefresh(device: Device) returns (requested: Option<string>)
      modifies this
      ensures Step(State(), requested) == RefreshBegun(old(State()), device)
    {
      isRefreshing := true;
      isLoading := true;
      var loc := ResolveLocation(device);
      if loc.None? {
        error := Some(NoLocation);
        isRefreshing := false;
        isLoading := false;
        enableRefresh := false;
        return None;
      }
      location := loc.value;
      return loc;
    }

    /** The part of a refresh after the fetch, given its response. */
    method CompleteRefresh(response: Option<WeatherResponse>)
      modifies this
      ensures State() == RefreshCompleted(old(State()), response)
    {
      if response.Some? {
        forecast := Some(response.value.forecast.forecastday);
        error := None;
      } else {
        error := Some(FetchFailed);
      }
      isRefreshing := false;
      isLoading := false;
      enableRefresh := true;
    }

    method RefreshWeatherWithLocationRequest(device: Device, update: SingleUpdate, response: Option<WeatherResponse>)
      returns (requested: Option<string>)
      requires Valid()
      modifies this
      ensures Valid()
      ensures Step(State(), requested) == AfterLocationRequest(old(State()), device, update, response)
    {
      var loc := ResolveLocation(device);
      if loc.None? {
        requested := None;
        if device.locationEnabled {
          match update
          case NoUpdate =>
          case Delivered(fix, later) =>
            // the single-update listener stores the fix, then refreshes
            OnLocationChanged(fix);
            requested := RefreshWeather(later, response);
        }
      } else {
        requested := RefreshWeather(device, response);
      }
    }

    /** The single-update listener receiving a fix: it caches and persists it. */
    method OnLocationChanged(fix: Fix)
      modifies this`lastKnownUserLocation, this`prefs
      ensures State() == StoreDeliveredFix(old(State()), fix)
    {
      lastKnownUserLocation := Some(fix.coords);
      prefs := prefs[LastLocationKey := fix.coords];
    }

    /** The swipe-to-refresh handler. */
    method OnRefresh(device: Device, update: SingleUpdate, response: Option<WeatherResponse>)
      returns (requested: Option<string>)
      requires Valid()
      modifies this
      ensures Valid()
      ensures Step(State(), requested) == AfterSwipe(old(State()), device, update, response)
    {
      requested := None;
      if enableRefresh {
        requested := RefreshWeatherWithLocationRequest(device, update, response);
      }
    }

    /** One iteration of the location-services poll. */
    method PollStep(device: Device, update: SingleUpdate, response: Option<WeatherResponse>)
      returns (fired: bool, requested: Option<string>)
      requires Valid()
      modifies this
      ensures Valid()
      ensures fired <==> device.locationEnabled && !old(wasLocationEnabled)
      ensures Step(State(), requested) == AfterPoll(old(State()), device, update, response)
    {
      var isLocationEnabled := device.locationEnabled;
      fired := isLocationEnabled && !wasLocationEnabled;
      wasLocationEnabled := isLocationEnabled;
      requested := None;
      if fired {
        requested := RefreshWeatherWithLocationRequest(device, update, response);
      }
    }

    /** The poll loop, run for as many iterations as there are inputs. */
    method PollLoop(inputs: seq<PollInput>) returns (fired: seq<bool>)
      requires Valid()
      modifies this
      ensures Valid()
      ensures (State(), fired) == RunPolls(old(State()), inputs)
    {
      fired := [];
      for k := 0 to |inputs|
        invariant Valid()
        invariant (State(), fired) == RunPolls(old(State()), inputs[..k])
      {
        var poll := inputs[k];
        var f, _ := PollStep(poll.device, poll.update, poll.response);
        fired := fired + [f];
        RunPollsExtend(old(State()), inputs, k);
      }
      assert inputs[..|inputs|] == inputs;
    }
  }
}
