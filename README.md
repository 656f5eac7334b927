# Best Bike Day — a verified model of the scoring and refresh core

Best Bike Day is a single-screen Android application. It fetches a 7-day weather
forecast for the user's location and shows each day as a card with a 0–100
"bike score". This project models the parts of `MainActivity.kt` that carry logic:

- **the bike score** (`Scoring`): a temperature band, a linear rain term and a wind band,
  weighted 0.4/0.4/0.2, scaled to percent, rounded with `roundToInt` and clamped with
  `coerceIn(0, 100)`; also the colour band of the score gauge;
- **location resolution** (`DeviceLocation`): the scan over the enabled providers'
  last fixes for the newest one, the fallback to the cached last location, and the
  persisted `last_location` key;
- **the screen's refresh policy and view choice** (`Screen`): `refreshWeather`,
  `refreshWeatherWithLocationRequest`, the swipe-to-refresh gate, the poll that fires
  a refresh when location services come on, and the choice among spinner, forecast
  list, "pull to refresh" hint, red error text, or nothing.

The weather types of `WeatherResponse.kt` are datatypes in `Weather`. The screen's
state is a value (`Screen.ScreenState`). Each operation is a function from the old
state to the new one (`AfterRefresh`, `AfterLocationRequest`, `AfterSwipe`,
`AfterPoll`). The class `Screen.WeatherScreen` holds the same state in mutable fields
and performs each operation statement by statement, as the source does. Each of its
methods is proved to agree with the matching function. `Screen.Consistent` is the
invariant every operation keeps:

- the cached location always equals the persisted `last_location`;
- between operations, the loading flag stays set only while no load has finished;
- refresh is enabled only after a fetch for the cached location;
- "no location" is reported only while no location has ever been known.

Inputs from the operating system and the network are parameters:

- a `Device` snapshot: whether location services are on, whether a location
  permission is granted, and each enabled provider's last fix if it has one;
- the outcome of the single-update location request (`SingleUpdate`);
- the forecast repository's answer (`Option<WeatherResponse>`).

The four operation methods (`RefreshWeather`, `RefreshWeatherWithLocationRequest`,
`OnRefresh` and `PollStep`) return the location the repository was asked for, or
`None` when it was not called.

The error string is a small datatype (`Screen.ErrorKind`): the source sets only
two texts, and `Screen.Message` maps each kind back to its exact text. `refreshWeather`
is split where the fetch suspends: `BeginRefresh` runs up to the repository call and
`CompleteRefresh` applies its answer.

Behaviour of the code worth knowing:

- **Errors.** `refreshWeather` only ever reports "No location
  available…" or "Failed to load weather.". The "pull to refresh" hint is chosen
  when the screen is drawn: a location is cached and location services are off
  (MainActivity.kt:450). `Screen.HintReplacesOnlyFetchFailure` shows that the hint
  only ever replaces the fetch-failure message.
- **The no-location error is never shown.** `refreshWeather` is only ever called
  after a location was resolved (MainActivity.kt:249, 263) or after the single-update
  listener has cached a fix (MainActivity.kt:199-201), so its no-location branch
  (MainActivity.kt:226-231) is never taken on any path the screen drives.
  `Screen.NoLocationNeverReported` and `Screen.PollsNeverReportNoLocation` prove it;
  `Screen.NoLocationErrorIsShown` describes how the error would be drawn.
- **When the cache is written.** The resolved location is persisted only when a
  provider fix is found, before the fetch. So the persisted location always equals
  the location that was fetched for, including after a failed fetch.
- **Rounding.** `roundToInt` rounds ties toward positive infinity.
  `Scoring.RoundingConventionIrrelevant` proves that a tie never occurs, so rounding
  half away from zero would give the same score.
- **Starting offline.** A session that starts with location services off never
  fetches, even with a cached location: the spinner stays and the swipe is ignored
  until services come on (`Screen.OfflineStartKeepsSpinner`).
- **The swipe gate.** The handler checks only `enableRefresh`, not whether a load is
  running.

## Model

| member | source | states |
|---|---|---|
| `Scoring.TempScore` | app/src/main/java/com/sami/bestbikeday/MainActivity.kt:285-289 | 1.0 exactly on [18,24], 0.7 exactly on the rest of [10,30], 0.3 otherwise; bounds inclusive, ideal band first |
| `Scoring.RainScore` | app/src/main/java/com/sami/bestbikeday/MainActivity.kt:290 | the rain term is (100 − chance) percent, and lies in [0,1] for chances in [0,100] |
| `Scoring.WindScore` | app/src/main/java/com/sami/bestbikeday/MainActivity.kt:291-295 | 1.0 exactly below 15 kph, 0.7 exactly on [15,30), 0.3 from 30; strict bounds |
| `Scoring.WeightedScore` | app/src/main/java/com/sami/bestbikeday/MainActivity.kt:296 | the weighted sum in percent, before rounding; for a rain chance in [0,100] it lies in [18,100] |
| `Scoring.RoundToInt` | app/src/main/java/com/sami/bestbikeday/MainActivity.kt:297 | the result is a nearest integer: within (x − ½, x + ½] |
| `Scoring.CoerceIn` | app/src/main/java/com/sami/bestbikeday/MainActivity.kt:297 | the result lies in [lo, hi], equals n inside the range and the nearer bound outside |
| `Scoring.BikeScore` | app/src/main/java/com/sami/bestbikeday/MainActivity.kt:284-298 | the score is in [0,100] for every temperature, wind and rain chance, out-of-range ones included |
| `Scoring.TempPercent` | app/src/main/java/com/sami/bestbikeday/MainActivity.kt:285-289 | the temperature sub-score in percent (100/70/30) equals 100 × the real sub-score |
| `Scoring.WindPercent` | app/src/main/java/com/sami/bestbikeday/MainActivity.kt:291-295 | the wind sub-score in percent (100/70/30) equals 100 × the real sub-score |
| `Scoring.IntegerBikeScore` | app/src/main/java/com/sami/bestbikeday/MainActivity.kt:284-298 | the integer-only reference score round((4T+4R+2W)/10), clamped, lies in [0,100] |
| `Scoring.NumeratorResidue` | app/src/main/java/com/sami/bestbikeday/MainActivity.kt:296 | 4T+4R+2W is always even and never 5 modulo 10 |
| `Scoring.BikeScoreIsIntegerScore` | app/src/main/java/com/sami/bestbikeday/MainActivity.kt:284-298 | the weighted sum is (4T+4R+2W)/10 and the real-valued score equals the integer-only score on every day |
| `Scoring.RoundHalfAwayFromZero` | app/src/main/java/com/sami/bestbikeday/MainActivity.kt:297 | the other rounding rule: a nearest integer, ties resolved away from zero |
| `Scoring.RoundingConventionIrrelevant` | app/src/main/java/com/sami/bestbikeday/MainActivity.kt:296-297 | the weighted sum is never halfway between integers, so ties-up and half-away-from-zero give the same score |
| `Scoring.RoundingMargin` | app/src/main/java/com/sami/bestbikeday/MainActivity.kt:296-297 | any error below 0.1 in the weighted sum leaves the rounded score unchanged |
| `Scoring.ValidRainChanceNeedsNoClamp` | app/src/main/java/com/sami/bestbikeday/MainActivity.kt:290-297 | for chances in [0,100] the weighted sum lies in [18,100], the clamp never applies, and the score is at least 18 |
| `Scoring.MoreRainNeverRaisesScore` | app/src/main/java/com/sami/bestbikeday/MainActivity.kt:290-297 | other inputs fixed, a higher rain chance never gives a higher score |
| `Scoring.WorkedScores` | app/src/main/java/com/sami/bestbikeday/MainActivity.kt:284-298 | 20 °C, no rain, 10 kph scores 100; 5 °C, 100 % rain, 40 kph scores 18 |
| `Scoring.GaugeColorFor` | app/src/main/java/com/sami/bestbikeday/MainActivity.kt:435-440 | pink exactly below 40, orange on [40,60), blue on [60,80), green (yellow in the dark theme) from 80 |
| `Scoring.GaugeBandMonotone` | app/src/main/java/com/sami/bestbikeday/MainActivity.kt:435-440 | a higher score never gets a lower colour band |
| `DeviceLocation.Lookup` | app/src/main/java/com/sami/bestbikeday/MainActivity.kt:87-90 | reading the store yields a value exactly when the key is present, and that key's value |
| `DeviceLocation.Newer` | app/src/main/java/com/sami/bestbikeday/MainActivity.kt:517-519 | one step of the provider loop keeps the best so far or the candidate; a present candidate replaces the best exactly when it is strictly newer, so a tie keeps the earlier fix; the step never moves to an older fix and finds something when either has a fix |
| `DeviceLocation.Newest` | app/src/main/java/com/sami/bestbikeday/MainActivity.kt:514-520 | the provider loop as a function over the providers in order; a fix it returns is one of the providers' fixes |
| `DeviceLocation.NewestIsLatest` | app/src/main/java/com/sami/bestbikeday/MainActivity.kt:514-521 | the scan finds nothing exactly when no provider has a fix; otherwise the fix it finds has the greatest timestamp, and on a tie the earliest provider's fix wins |
| `DeviceLocation.NewestFix` | app/src/main/java/com/sami/bestbikeday/MainActivity.kt:514-521 | the provider loop returns the newest fix, the earliest provider winning ties, and nothing exactly when no provider has a fix |
| `DeviceLocation.DeviceFix` | app/src/main/java/com/sami/bestbikeday/MainActivity.kt:508-521 | a device fix is used only when location services are on and a permission is granted; with both, nothing is found exactly when no provider has a fix, and otherwise the fix found is the newest, the earliest provider winning ties |
| `DeviceLocation.Resolve` | app/src/main/java/com/sami/bestbikeday/MainActivity.kt:507-530 | a found fix becomes the location and is persisted under `last_location`; otherwise the cache is returned unchanged and nothing is written. No location only when neither exists; no other key is touched; the cache keeps mirroring the store |
| `DeviceLocation.ResolveIdempotent` | app/src/main/java/com/sami/bestbikeday/MainActivity.kt:507-530 | resolving twice against the same device state is the same as resolving once |
| `Screen.Message` | app/src/main/java/com/sami/bestbikeday/MainActivity.kt:227-241 | each of the two errors a refresh can set has a non-empty text |
| `Screen.MessagesDistinguishErrors` | app/src/main/java/com/sami/bestbikeday/MainActivity.kt:227-241 | two errors have the same text exactly when they are the same error |
| `Screen.Initial` | app/src/main/java/com/sami/bestbikeday/MainActivity.kt:178-192 | the first state is loading, refresh disabled, no forecast and no error; the cache is read from the store; the invariant holds |
| `Screen.RefreshBegun` | app/src/main/java/com/sami/bestbikeday/MainActivity.kt:222-233 | the part of a refresh before the fetch: the location asked for is the resolved one, cached and persisted; without one, the no-location error is set, all flags are cleared and forecast and location are kept; with one, it becomes the screen's location while the refresh and loading flags are set |
| `Screen.RefreshCompleted` | app/src/main/java/com/sami/bestbikeday/MainActivity.kt:234-245 | the part after the fetch: the forecast is replaced and the error cleared on success, the forecast kept and the failure error set otherwise; both flags cleared and refresh enabled; location, cache and store unchanged |
| `Screen.AfterRefresh` | app/src/main/java/com/sami/bestbikeday/MainActivity.kt:222-246 | No location: sets the no-location error, clears all three flags, keeps forecast, location and store, and does not call the repository. With a location: stores it, asks the repository for it, replaces the forecast and clears the error on success, keeps the forecast and sets the failure error on failure, and enables refresh. Ends not loading; restores the invariant; the store afterwards is exactly the one location resolution leaves, so no key but `last_location` is ever written |
| `Screen.StoreDeliveredFix` | app/src/main/java/com/sami/bestbikeday/MainActivity.kt:198-200 | the listener's fix becomes the cached location and the persisted `last_location`; the store's keys are the old ones plus `last_location`, no other key's value changes, and the forecast, location, error, all three flags and the poller's flag stay as they were |
| `Screen.AfterLocationRequest` | app/src/main/java/com/sami/bestbikeday/MainActivity.kt:248-265 | With a resolvable location: the same as one refresh. Without one and services off, or with no update delivered: nothing at all changes and no error is set. With a delivered fix: a refresh after storing it, which always reaches the repository |
| `Screen.AfterSwipe` | app/src/main/java/com/sami/bestbikeday/MainActivity.kt:312-317 | Refresh disabled: nothing happens. Refresh enabled: exactly one refresh that always reaches the repository. Keeps the invariant |
| `Screen.AfterPoll` | app/src/main/java/com/sami/bestbikeday/MainActivity.kt:268-282 | fires a refresh with a location request exactly when services are on now and were off at the last poll; otherwise only the flag changes; the flag ends equal to the current reading |
| `Screen.RunPolls` | app/src/main/java/com/sami/bestbikeday/MainActivity.kt:268-282 | over any run of polls, refreshes fire exactly on the rising edges of the readings; the flag ends at the last reading; the invariant is kept |
| `Screen.FiredRefreshesAreSeparated` | app/src/main/java/com/sami/bestbikeday/MainActivity.kt:269-279 | between any two poll-fired refreshes some poll saw location services off |
| `Screen.OfflinePollsChangeNothing` | app/src/main/java/com/sami/bestbikeday/MainActivity.kt:268-282 | polls that all see services off fire nothing and change only the flag |
| `Screen.OfflineStartKeepsSpinner` | app/src/main/java/com/sami/bestbikeday/MainActivity.kt:178-192 | starting with services off, any number of polls leave the spinner showing and the swipe ignored |
| `Screen.NoLocationNeverReported` | app/src/main/java/com/sami/bestbikeday/MainActivity.kt:248-265 | from a state not showing the no-location error, no location request, swipe or poll sets it: a refresh starts only after a location was resolved or delivered, so the no-location branch of the refresh is never taken |
| `Screen.PollsNeverReportNoLocation` | app/src/main/java/com/sami/bestbikeday/MainActivity.kt:268-282 | no run of polls from such a state, in particular from the first state, ever sets the no-location error |
| `Screen.ScoreDays` | app/src/main/java/com/sami/bestbikeday/MainActivity.kt:324-326 | every forecast day gets its bike score, in order, none dropped, each in [0,100] |
| `Screen.Render` | app/src/main/java/com/sami/bestbikeday/MainActivity.kt:319-458 | Loading shows the spinner, before anything else. Otherwise a forecast is shown even with an error set. Otherwise an error shows the hint exactly when a location is cached and services are off, and the red error text otherwise. Otherwise nothing is shown |
| `Screen.NoLocationErrorIsShown` | app/src/main/java/com/sami/bestbikeday/MainActivity.kt:446-457 | in any consistent state the no-location error is shown as red text, never hidden by the hint |
| `Screen.HintReplacesOnlyFetchFailure` | app/src/main/java/com/sami/bestbikeday/MainActivity.kt:446-457 | in any consistent state the hint only ever stands for a failed fetch |
| `Screen.FailedFetchView` | app/src/main/java/com/sami/bestbikeday/MainActivity.kt:240-242 | with a cached location and no forecast, a failed fetch shows the hint when services are off and the red error text when they are on |
| `Screen.ForecastSurvivesFailure` | app/src/main/java/com/sami/bestbikeday/MainActivity.kt:237-242 | a failed refresh leaves the previous forecast on screen |
| `Screen.WeatherScreen.constructor` | app/src/main/java/com/sami/bestbikeday/MainActivity.kt:178-192 | the object starts in the initial state, with the invariant |
| `Screen.WeatherScreen.ResolveLocation` | app/src/main/java/com/sami/bestbikeday/MainActivity.kt:507-530 | updates the cache and the store in place as `Resolve` says, and returns the cache |
| `Screen.WeatherScreen.RefreshWeather` | app/src/main/java/com/sami/bestbikeday/MainActivity.kt:222-246 | the step-by-step refresh leaves the state `AfterRefresh` gives and establishes the invariant |
| `Screen.WeatherScreen.BeginRefresh` | app/src/main/java/com/sami/bestbikeday/MainActivity.kt:222-233 | the part of the refresh before the fetch: marks it in progress, resolves a location, and either reports its absence and stops or shows it as the screen's location |
| `Screen.WeatherScreen.CompleteRefresh` | app/src/main/java/com/sami/bestbikeday/MainActivity.kt:234-245 | the part after the fetch: replaces the forecast and clears the error on success, sets the failure error otherwise, clears both flags and enables refresh |
| `Screen.WeatherScreen.OnLocationChanged` | app/src/main/java/com/sami/bestbikeday/MainActivity.kt:198-200 | the single-update listener caches the delivered fix and persists it, as `StoreDeliveredFix` says |
| `Screen.WeatherScreen.RefreshWeatherWithLocationRequest` | app/src/main/java/com/sami/bestbikeday/MainActivity.kt:248-265 | leaves the state `AfterLocationRequest` gives and keeps the invariant |
| `Screen.WeatherScreen.OnRefresh` | app/src/main/java/com/sami/bestbikeday/MainActivity.kt:312-317 | leaves the state `AfterSwipe` gives and keeps the invariant |
| `Screen.WeatherScreen.PollStep` | app/src/main/java/com/sami/bestbikeday/MainActivity.kt:271-279 | reports a fired refresh exactly on a disabled-to-enabled edge and leaves the state `AfterPoll` gives |
| `Screen.WeatherScreen.PollLoop` | app/src/main/java/com/sami/bestbikeday/MainActivity.kt:268-282 | the poll loop, run over a finite sequence of polls, leaves the state and the fired flags that `RunPolls` gives |

## Left out

- Floating point: `Float` temperatures and wind speeds and the `Double` arithmetic are exact reals, and NaN is not modelled (in the source a NaN reading falls into the lowest band). `Scoring.RoundingMargin` shows that rounding errors below 0.1 cannot change a score.
- The rain chance is an unbounded integer rather than a 32-bit `Int`. In the source the weighted sum stays well inside the `Int` range, so `roundToInt` never saturates and the model loses nothing.
- Concurrency and timing: coroutines, `Dispatchers.IO`, the 2-second `delay` and overlapping requests are not modelled. Refreshes run one after another, the poll loop runs for a finite number of iterations (`PollLoop`), and a refresh a poll launches runs before the next poll. Because no refresh is ever interrupted, `isRefreshing` and `isLoading` are never seen true between operations once a load has finished. In the source every refresh sets `isLoading` (MainActivity.kt:224) and the spinner branch is drawn first (MainActivity.kt:319), so the spinner replaces the forecast while each fetch is running; the model does not capture that mid-fetch view.
- Android location APIs are not called. The model takes as inputs the provider list and its fixes, the "enabled" and "permission granted" readings, and the single-update request's result. That result also stands for the listener's provider choice and for the `SecurityException` it swallows.
- The location string is opaque. Formatting `"lat,lon"` from doubles is not modelled.
- SharedPreferences I/O is a `map<string, string>` field. The store's file name is not modelled.
- `WeatherRepository.kt` and `WeatherApiService.kt` (the HTTP call and JSON decoding) are not part of this model. Their answer is an `Option<WeatherResponse>` input.
- Presentation is not modelled: Compose layout, theme toggling, card colours, the gauge arc, and weekday names from `SimpleDateFormat`/`Calendar`.
- The permission request at start-up (`requestLocationPermissionsIfNeeded`) is not modelled. Its effect is the `permissionGranted` input.
