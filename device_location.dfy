/**
 * Where the forecast is fetched for: the newest fix any location provider holds,
 * or else the last location the application saw, persisted under one key of a
 * key-value store.
 */
module DeviceLocation {
  import opened Options

  /** The key the last known location is persisted under. */
  const LastLocationKey := "last_location"

  /** A provider's last known fix: an opaque "latitude,longitude" string and its
      timestamp in milliseconds. */
  datatype Fix = Fix(coords: string, time: int)

  /** What the operating system reports at one moment: whether any location
      provider (GPS or network) is enabled, whether a location permission (fine or
      coarse) is granted, and, for each enabled provider in order, its last fix
      if it has one. */
  datatype Device = Device(locationEnabled: bool, permissionGranted: bool, fixes: seq<Option<Fix>>)

  /** Reading a key of the persisted store, absent keys reading as null. */
  function Lookup(prefs: map<string, string>, key: string): (v: Option<string>)
    ensures v.Some? <==> key in prefs
    ensures v.Some? ==> prefs[key] == v.value
  {
    if key in prefs then Some(prefs[key]) else None
  }

  /** The in-memory cache mirrors the persisted store. */
  predicate Mirrored(cache: Option<string>, prefs: map<string, string>)
  {
    cache == Lookup(prefs, LastLocationKey)
  }

  // ---------------------------------------------------------------------------
  // Choosing the newest fix.

  /** One step of the scan: a fix replaces the best so far only when it is
      strictly newer. */
  function Newer(best: Option<Fix>, candidate: Option<Fix>): (r: Option<Fix>)
    ensures r == best || r == candidate
    ensures r.None? <==> best.None? && candidate.None?
    ensures r.Some? && best.Some? ==> best.value.time <= r.value.time
    ensures candidate.Some? ==> r.Some? && candidate.value.time <= r.value.time
    ensures best.Some? && candidate.Some? && candidate.value.time <= best.value.time ==> r == best
  {
    if candidate.None? then best
    else if best.None? || candidate.value.time > best.value.time then candidate
    else best
  }

  /** The result of scanning the fixes from first to last. */
  function Newest(fixes: seq<Option<Fix>>): (r: Option<Fix>)
    ensures r.Some? ==> r in fixes
  {
    if |fixes| == 0 then None else Newer(Newest(fixes[..|fixes| - 1]), fixes[|fixes| - 1])
  }

  /** Fix i is present, strictly newer than every fix before it and at least as new
      as every fix after it: the newest, the earliest provider winning ties. */
  ghost predicate IsNewestAt(fixes: seq<Option<Fix>>, i: int)
    requires 0 <= i < |fixes|
  {
    && fixes[i].Some?
    && (forall j :: 0 <= j < i && fixes[j].Some? ==> fixes[j].value.time < fixes[i].value.time)
    && (forall j :: i < j < |fixes| && fixes[j].Some? ==> fixes[j].value.time <= fixes[i].value.time)
  }

  /** The scan finds nothing exactly when no provider has a fix, and otherwise finds
      the newest fix, the earliest provider winning ties. */
  lemma {:induction false} NewestIsLatest(fixes: seq<Option<Fix>>)
    ensures Newest(fixes).None? <==> forall j :: 0 <= j < |fixes| ==> fixes[j].None?
    ensures Newest(fixes).Some? ==>
      exists i :: 0 <= i < |fixes| && IsNewestAt(fixes, i) && fixes[i] == Newest(fixes)
  {
    if |fixes| > 0 {
      var init, last := fixes[..|fixes| - 1], fixes[|fixes| - 1];
      NewestIsLatest(init);
      assert forall j :: 0 <= j < |init| ==> init[j] == fixes[j];
      if Newest(init).Some? {
        var i :| 0 <= i < |init| && IsNewestAt(init, i) && init[i] == Newest(init);
        if Newest(fixes) == Newest(init) {
          assert IsNewestAt(fixes, i);
        } else {
          assert IsNewestAt(fixes, |fixes| - 1);
        }
      } else if last.Some? {
        assert IsNewestAt(fixes, |fixes| - 1);
      }
    }
  }

  /** The provider scan: keeps the fix with the strictly greatest timestamp. */
  method NewestFix(fixes: seq<Option<Fix>>) returns (best: Option<Fix>)
    ensures best == Newest(fixes)
    ensures best.None? <==> forall j :: 0 <= j < |fixes| ==> fixes[j].None?
    ensures best.Some? ==> exists i :: 0 <= i < |fixes| && IsNewestAt(fixes, i) && fixes[i] == best
  {
    best := None;
    for k := 0 to |fixes|
      invariant best == Newest(fixes[..k])
    {
      assert fixes[..k + 1][..k] == fixes[..k];
      var candidate := fixes[k];
      if candidate.Some? && (best.None? || candidate.value.time > best.value.time) {
        best := candidate;
      }
    }
    assert fixes[..|fixes|] == fixes;
    NewestIsLatest(fixes);
  }

  // ---------------------------------------------------------------------------
  // Resolving the location.

  /** The fix the device yields: only when location is enabled and permitted. */
  function DeviceFix(device: Device): (fix: Option<Fix>)
    ensures fix.Some? ==> device.locationEnabled && device.permissionGranted
    ensures device.locationEnabled && device.permissionGranted ==>
      (fix.None? <==> forall j :: 0 <= j < |device.fixes| ==> device.fixes[j].None?)
    ensures fix.Some? ==>
      exists i :: 0 <= i < |device.fixes| && IsNewestAt(device.fixes, i) && device.fixes[i] == fix
  {
    if device.locationEnabled && device.permissionGranted then
      NewestIsLatest(device.fixes);
      Newest(device.fixes)
    else None
  }

  /** The resolved location and the persisted store afterwards. */
  datatype Resolution = Resolution(loc: Option<string>, prefs: map<string, string>)

  /** Resolving a location: a device fix replaces the cached location and is
      persisted; otherwise the cached location is returned and nothing is written. */
  function Resolve(cache: Option<string>, prefs: map<string, string>, device: Device): (r: Resolution)
    ensures r.loc.None? <==> cache.None? && DeviceFix(device).None?
    ensures DeviceFix(device).Some? ==>
      r.loc == Some(DeviceFix(device).value.coords) && Lookup(r.prefs, LastLocationKey) == r.loc
    ensures DeviceFix(device).None? ==> r.loc == cache && r.prefs == prefs
    ensures Mirrored(cache, prefs) ==> Mirrored(r.loc, r.prefs)
    ensures r.prefs.Keys <= prefs.Keys + {LastLocationKey}
    ensures forall k :: k in prefs && k != LastLocationKey ==> k in r.prefs && r.prefs[k] == prefs[k]
  {
    var fix := DeviceFix(device);
    if fix.Some? then
      Resolution(Some(fix.value.coords), prefs[LastLocationKey := fix.value.coords])
    else
      Resolution(cache, prefs)
  }

  /** Resolving twice against the same device state is the same as resolving once. */
  lemma ResolveIdempotent(cache: Option<string>, prefs: map<string, string>, device: Device)
    ensures var r := Resolve(cache, prefs, device); Resolve(r.loc, r.prefs, device) == r
  {
  }
}
