/** The control logic of the camera view: device cycling, zoom clamping,
    the pinch-to-zoom gesture, torch toggling and the capability fallback
    applied when a stream opens. The media devices themselves (opening a
    stream, applying constraints, listing devices) are outcomes passed in. */
module Camera {
  import opened Wrappers

  // ---------------------------------------------------------------------
  // Capabilities
  // ---------------------------------------------------------------------

  datatype ZoomCaps = ZoomCaps(min: real, max: real, step: real, supported: bool)
  datatype Capabilities = Capabilities(zoom: ZoomCaps, torch: bool)

  /** The zoom range a track reports, when it reports one. */
  datatype ZoomRange = ZoomRange(min: real, max: real, step: real)

  /** What the track's `getCapabilities()` yields for zoom and torch. */
  datatype ReportedCaps = ReportedCaps(zoom: Option<ZoomRange>, torch: Option<bool>)

  /** The fallback range used when the track reports no zoom. */
  const FallbackZoom: ZoomCaps := ZoomCaps(1.0, 1.0, 0.1, false)

  /** The capabilities before any stream has opened. */
  const InitialCapabilities: Capabilities := Capabilities(FallbackZoom, false)

  /** The capabilities recorded for a freshly opened track: zoom is supported
      exactly when reported, a missing range falls back to 1..1 in steps of
      0.1, and the torch flag is the truthiness of the reported value. */
  function CapabilitiesFrom(caps: ReportedCaps): (c: Capabilities)
    ensures c.zoom.supported <==> caps.zoom.Some?
    ensures caps.zoom.None? ==> c.zoom == FallbackZoom
    ensures caps.zoom.Some? ==>
              c.zoom == ZoomCaps(caps.zoom.value.min, caps.zoom.value.max, caps.zoom.value.step, true)
    ensures c.torch <==> caps.torch == Some(true)
  {
    var range := if caps.zoom.Some? then caps.zoom.value else ZoomRange(1.0, 1.0, 0.1);
    Capabilities(
      ZoomCaps(range.min, range.max, range.step, caps.zoom.Some?),
      caps.torch == Some(true))
  }

  // ---------------------------------------------------------------------
  // Zoom clamping and the pinch gesture
  // ---------------------------------------------------------------------

  function Max(a: real, b: real): real { if a >= b then a else b }
  function Min(a: real, b: real): real { if a <= b then a else b }

  /** `Math.max(lo, Math.min(v, hi))`. Within a non-empty range the result
      lies in `[lo, hi]`, values inside are kept and values outside are
      moved to the nearer end; with `lo > hi` the lower bound wins. */
  function Clamp(v: real, lo: real, hi: real): (r: real)
    ensures lo <= hi ==> lo <= r <= hi
    ensures lo <= v <= hi ==> r == v
    ensures v <= lo ==> r == lo
    ensures lo <= hi <= v ==> r == hi
    ensures hi < lo ==> r == lo
  {
    Max(lo, Min(v, hi))
  }

  /** The zoom a pinch move asks for: the start zoom scaled by how far the
      fingers moved apart, clamped to the zoom range. */
  function PinchZoom(startZoom: real, startDistance: real, distance: real, caps: ZoomCaps): (z: real)
    requires startDistance > 0.0
    ensures caps.min <= z
    ensures caps.min <= caps.max ==> z <= caps.max
  {
    Clamp(startZoom * (distance / startDistance), caps.min, caps.max)
  }

  /** A pinch never leaves the zoom range; not moving the fingers keeps a
      start zoom that was in range. */
  lemma PinchZoomInRange(startZoom: real, startDistance: real, distance: real, caps: ZoomCaps)
    requires startDistance > 0.0 && caps.min <= caps.max
    ensures caps.min <= PinchZoom(startZoom, startDistance, distance, caps) <= caps.max
    ensures distance == startDistance && caps.min <= startZoom <= caps.max ==>
              PinchZoom(startZoom, startDistance, distance, caps) == startZoom
  {
    if distance == startDistance {
      assert distance / startDistance == 1.0;
    }
  }

  /** Spreading the fingers further never zooms out. */
  lemma PinchZoomMonotonic(startZoom: real, startDistance: real, d1: real, d2: real, caps: ZoomCaps)
    requires startDistance > 0.0 && startZoom >= 0.0 && d1 <= d2
    ensures PinchZoom(startZoom, startDistance, d1, caps) <= PinchZoom(startZoom, startDistance, d2, caps)
  {
    assert d1 / startDistance <= d2 / startDistance;
    assert startZoom * (d1 / startDistance) <= startZoom * (d2 / startDistance);
  }

  // ---------------------------------------------------------------------
  // Devices and cycling
  // ---------------------------------------------------------------------

  datatype DeviceKind = VideoInput | AudioInput | AudioOutput
  datatype MediaDevice = MediaDevice(deviceId: string, kind: DeviceKind)

  /** The video inputs among the enumerated devices, in order. */
  function VideoInputs(all: seq<MediaDevice>): (r: seq<MediaDevice>)
    ensures |r| <= |all|
    ensures forall d :: d in r ==> d in all && d.kind == VideoInput
    ensures forall d :: d in all && d.kind == VideoInput ==> d in r
  {
    if all == [] then []
    else (if all[0].kind == VideoInput then [all[0]] else []) + VideoInputs(all[1..])
  }

  /** Filtering a concatenation filters each part and keeps them in order;
      together with the one-device case this fixes the filtered list,
      order and repeats included. */
  lemma {:induction false} VideoInputsAppend(a: seq<MediaDevice>, b: seq<MediaDevice>)
    ensures VideoInputs(a + b) == VideoInputs(a) + VideoInputs(b)
  {
    if a != [] {
      assert (a + b)[0] == a[0];
      assert (a + b)[1..] == a[1..] + b;
      VideoInputsAppend(a[1..], b);
    } else {
      assert a + b == b;
    }
  }

  /** A single device is kept exactly when it is a video input. */
  lemma VideoInputsSingle(d: MediaDevice)
    ensures VideoInputs([d]) == if d.kind == VideoInput then [d] else []
  {
    assert [d][1..] == [];
  }

  /** `findIndex` on the device id: the first position holding `id`, or -1. */
  function FindIndex(devices: seq<MediaDevice>, id: string): (r: int)
    ensures -1 <= r < |devices|
    ensures r >= 0 ==> devices[r].deviceId == id
    ensures r >= 0 ==> forall j :: 0 <= j < r ==> devices[j].deviceId != id
    ensures r == -1 <==> forall j :: 0 <= j < |devices| ==> devices[j].deviceId != id
  {
    if devices == [] then -1
    else if devices[0].deviceId == id then 0
    else
      var k := FindIndex(devices[1..], id);
      if k == -1 then -1 else k + 1
  }

  /** The index after `current` among `n` devices, wrapping around; an
      unknown device (-1) selects the first. */
  function NextIndex(current: int, n: nat): (r: nat)
    requires n > 0 && -1 <= current < n
    ensures r < n
    ensures current == -1 ==> r == 0
    ensures current + 1 < n ==> r == current + 1
    ensures current == n - 1 ==> r == 0
  {
    (current + 1) % n
  }

  /** `k` successive steps of NextIndex from `i`. */
  function Advance(i: nat, n: nat, k: nat): (r: nat)
    requires i < n
    ensures r < n
  {
    if k == 0 then i else NextIndex(Advance(i, n, k - 1), n)
  }

  /** Steps that do not reach the end of the list simply count up. */
  lemma {:induction false} AdvanceCountsUp(i: nat, n: nat, k: nat)
    requires i + k < n
    ensures Advance(i, n, k) == i + k
  {
    if k > 0 {
      AdvanceCountsUp(i, n, k - 1);
    }
  }

  /** Stepping `a` then `b` times is stepping `a + b` times. */
  lemma {:induction false} AdvanceCompose(i: nat, n: nat, a: nat, b: nat)
    requires i < n
    ensures Advance(i, n, a + b) == Advance(Advance(i, n, a), n, b)
  {
    if b > 0 {
      AdvanceCompose(i, n, a, b - 1);
    }
  }

  /** Stepping `n` times through `n` devices comes back to the start. */
  lemma CycleReturns(i: nat, n: nat)
    requires i < n
    ensures Advance(i, n, n) == i
  {
    var toLast := n - 1 - i;
    AdvanceCountsUp(i, n, toLast);
    AdvanceCompose(i, n, toLast, 1 + i);
    AdvanceCompose(n - 1, n, 1, i);
    assert Advance(n - 1, n, 1) == 0;
    AdvanceCountsUp(0, n, i);
  }

  /** The device ids are pairwise distinct. */
  predicate DistinctIds(devices: seq<MediaDevice>)
  {
    forall i, j :: 0 <= i < j < |devices| ==> devices[i].deviceId != devices[j].deviceId
  }

  /** With distinct ids, a listed device is found at its own position. */
  lemma FindIndexOfListed(devices: seq<MediaDevice>, a: nat)
    requires a < |devices| && DistinctIds(devices)
    ensures FindIndex(devices, devices[a].deviceId) == a
  {
    var r := FindIndex(devices, devices[a].deviceId);
    assert r != -1;
  }

  /** The device a switch asks for: none with fewer than two devices, else
      the one after the current device (the first, if the current device is
      not listed). */
  function SwitchTarget(devices: seq<MediaDevice>, currentId: string): (r: Option<string>)
    ensures r.None? <==> |devices| < 2
    ensures r.Some? ==> exists j :: 0 <= j < |devices| && devices[j].deviceId == r.value
    ensures r.Some? && FindIndex(devices, currentId) == -1 ==> r.value == devices[0].deviceId
  {
    if |devices| < 2 then None
    else
      var j := NextIndex(FindIndex(devices, currentId), |devices|);
      Some(devices[j].deviceId)
  }

  /** With distinct ids, a switch from the device at `a` asks for the device
      at the next index. */
  lemma SwitchFromListed(devices: seq<MediaDevice>, a: nat)
    requires a < |devices| && |devices| >= 2 && DistinctIds(devices)
    ensures SwitchTarget(devices, devices[a].deviceId) == Some(devices[NextIndex(a, |devices|)].deviceId)
  {
    FindIndexOfListed(devices, a);
  }

  /** Every device has a non-empty id. */
  predicate NonEmptyIds(devices: seq<MediaDevice>)
  {
    forall j :: 0 <= j < |devices| ==> devices[j].deviceId != ""
  }

  /** With every id non-empty, a switch asks for a non-empty id, so the
      opened track's settings name it. */
  lemma SwitchTargetListed(devices: seq<MediaDevice>, currentId: string)
    requires |devices| >= 2 && NonEmptyIds(devices)
    ensures SwitchTarget(devices, currentId).value != ""
  {
  }

  /** The current device after `k` switches, each of which opens the device
      it asks for. */
  function SwitchTimes(devices: seq<MediaDevice>, currentId: string, k: nat): string
  {
    if k == 0 then currentId
    else
      match SwitchTarget(devices, SwitchTimes(devices, currentId, k - 1))
      case None => SwitchTimes(devices, currentId, k - 1)
      case Some(next) => next
  }

  /** With at least two devices, each further switch moves to the target of
      the one before. */
  lemma SwitchTimesStep(devices: seq<MediaDevice>, currentId: string, k: nat)
    requires |devices| >= 2
    ensures SwitchTimes(devices, currentId, k + 1)
            == SwitchTarget(devices, SwitchTimes(devices, currentId, k)).value
  {
  }

  /** With distinct ids, `k` switches from the device at `i` reach the device
      at `(i + k) mod n`. */
  lemma {:induction false} SwitchTimesAdvances(devices: seq<MediaDevice>, i: nat, k: nat)
    requires i < |devices| && |devices| >= 2 && DistinctIds(devices)
    ensures SwitchTimes(devices, devices[i].deviceId, k) == devices[Advance(i, |devices|, k)].deviceId
  {
    if k > 0 {
      SwitchTimesAdvances(devices, i, k - 1);
      var n := |devices|;
      var a := Advance(i, n, k - 1);
      SwitchFromListed(devices, a);
    }
  }

  /** With `n >= 2` devices of distinct ids and no hot-plug in between, `n`
      switches return to the device the user started on. */
  lemma SwitchCycleReturns(devices: seq<MediaDevice>, i: nat)
    requires i < |devices| && |devices| >= 2 && DistinctIds(devices)
    ensures SwitchTimes(devices, devices[i].deviceId, |devices|) == devices[i].deviceId
  {
    SwitchTimesAdvances(devices, i, |devices|);
    CycleReturns(i, |devices|);
  }

  // ---------------------------------------------------------------------
  // The camera view's state
  // ---------------------------------------------------------------------

  const CameraErrorMessage: string := "Unable to access camera. Please check permissions."

  /** The video constraints of a stream request: the rear-facing preference,
      or exactly one device when a non-empty id is given. */
  datatype VideoRequest = FacingEnvironment | ExactDevice(deviceId: string)

  function RequestFor(deviceId: string): (r: VideoRequest)
    ensures r.ExactDevice? <==> deviceId != ""
    ensures r.ExactDevice? ==> r.deviceId == deviceId
  {
    if deviceId != "" then ExactDevice(deviceId) else FacingEnvironment
  }

  /** How an attempt to open a stream ends: refused, or opened with the
      track's reported capabilities, the device id in its settings ("" when
      it reports none) and the device enumeration (None when it fails). */
  datatype OpenOutcome =
    | Denied
    | Opened(caps: ReportedCaps, settingsDeviceId: string, enumerated: Option<seq<MediaDevice>>)

  class CameraController {
    var zoom: real
    var capabilities: Capabilities
    var isTorchOn: bool
    var error: Option<string>
    var devices: seq<MediaDevice>
    var currentDeviceId: string
    /** The pinch start distance; None outside a gesture. */
    var pinchStart: Option<real>
    var startZoom: real
    /** Whether a track reference is held (it survives a failed reopen). */
    var hasTrack: bool
    /** Whether the held stream is running. */
    var streamLive: bool
    /** The request of the last stream acquisition. */
    var lastRequest: VideoRequest
    /** The zoom and torch values the device last accepted. */
    var trackZoom: Option<real>
    var trackTorch: bool

    /** A recorded pinch start distance is positive. */
    ghost predicate Valid()
      reads this
    {
      pinchStart.Some? ==> pinchStart.value > 0.0
    }

    constructor ()
      ensures Valid()
      ensures zoom == 1.0 && capabilities == InitialCapabilities && !isTorchOn && error.None?
      ensures devices == [] && currentDeviceId == "" && pinchStart.None? && startZoom == 1.0
      ensures !hasTrack && !streamLive && trackZoom.None? && !trackTorch
    {
      zoom := 1.0;
      capabilities := InitialCapabilities;
      isTorchOn := false;
      error := None;
      devices := [];
      currentDeviceId := "";
      pinchStart := None;
      startZoom := 1.0;
      hasTrack := false;
      streamLive := false;
      lastRequest := FacingEnvironment;
      trackZoom := None;
      trackTorch := false;
    }

    /** The state after the running stream was stopped and a stream for
        `deviceId` was requested. On success the capabilities are refreshed
        with the fallback, zoom is reset to the range minimum only when zoom
        is reported, the current device follows the track's settings, the
        device list is refreshed, and the new track has no zoom value applied
        and its torch off; a refusal only records the error (the reference to
        the stopped track is kept). The gesture and the torch flag are never
        touched. */
    twostate predicate Reopened(deviceId: string, outcome: OpenOutcome)
      reads this
    {
      && lastRequest == RequestFor(deviceId)
      && pinchStart == old(pinchStart) && startZoom == old(startZoom) && isTorchOn == old(isTorchOn)
      && (outcome.Denied? ==>
            && !streamLive && error == Some(CameraErrorMessage)
            && hasTrack == old(hasTrack) && capabilities == old(capabilities) && zoom == old(zoom)
            && devices == old(devices) && currentDeviceId == old(currentDeviceId)
            && trackZoom == old(trackZoom) && trackTorch == old(trackTorch))
      && (outcome.Opened? ==>
            && hasTrack && streamLive
            && trackZoom.None? && !trackTorch
            && capabilities == CapabilitiesFrom(outcome.caps)
            && zoom == (if outcome.caps.zoom.Some? then outcome.caps.zoom.value.min else old(zoom))
            && currentDeviceId == (if outcome.settingsDeviceId != "" then outcome.settingsDeviceId
                                   else old(currentDeviceId))
            && devices == (if outcome.enumerated.Some? then VideoInputs(outcome.enumerated.value)
                           else old(devices))
            && error == (if outcome.enumerated.None? then Some(CameraErrorMessage) else old(error)))
    }

    /** Stops the running stream and opens a new one. */
    method StartCamera(deviceId: string, outcome: OpenOutcome)
      requires Valid()
      modifies this
      ensures Valid()
      ensures Reopened(deviceId, outcome)
    {
      streamLive := false;
      lastRequest := RequestFor(deviceId);
      match outcome
      case Denied =>
        error := Some(CameraErrorMessage);
      case Opened(caps, settingsDeviceId, enumerated) =>
        AdoptTrack(caps, settingsDeviceId, enumerated);
    }

    /** The successful half of `StartCamera`: the new track is held and the
        state is refreshed from it. */
    method AdoptTrack(caps: ReportedCaps, settingsDeviceId: string, enumerated: Option<seq<MediaDevice>>)
      modifies this`streamLive, this`hasTrack, this`trackZoom, this`trackTorch, this`capabilities
      modifies this`zoom, this`currentDeviceId, this`devices, this`error
      ensures hasTrack && streamLive && trackZoom.None? && !trackTorch
      ensures capabilities == CapabilitiesFrom(caps)
      ensures zoom == if caps.zoom.Some? then caps.zoom.value.min else old(zoom)
      ensures currentDeviceId == if settingsDeviceId != "" then settingsDeviceId else old(currentDeviceId)
      ensures devices == if enumerated.Some? then VideoInputs(enumerated.value) else old(devices)
      ensures error == if enumerated.None? then Some(CameraErrorMessage) else old(error)
    {
      streamLive, hasTrack := true, true;
      trackZoom, trackTorch := None, false;
      capabilities := CapabilitiesFrom(caps);
      if caps.zoom.Some? {
        zoom := caps.zoom.value.min;
      }
      if settingsDeviceId != "" {
        currentDeviceId := settingsDeviceId;
      }
      match enumerated
      case Some(all) =>
        devices := VideoInputs(all);
      case None =>
        error := Some(CameraErrorMessage);
    }

    /** A device was plugged in or removed: the list is re-read. */
    method RefreshDevices(all: seq<MediaDevice>)
      modifies this`devices
      ensures devices == VideoInputs(all)
    {
      devices := VideoInputs(all);
    }

    /** Opens the next device in the list; does nothing with fewer than two
        devices. */
    method SwitchCamera(outcome: OpenOutcome)
      requires Valid()
      modifies this
      ensures Valid()
      ensures |old(devices)| < 2 ==> unchanged(this)
      ensures |old(devices)| >= 2 ==>
                Reopened(SwitchTarget(old(devices), old(currentDeviceId)).value, outcome)
    {
      if |devices| < 2 {
        return;
      }
      var currentIndex := FindIndex(devices, currentDeviceId);
      var nextIndex := NextIndex(currentIndex, |devices|);
      StartCamera(devices[nextIndex].deviceId, outcome);
    }

    /** Sends a zoom value to the track when one is held and zoom is
        supported; a rejected request is ignored. */
    method ApplyZoom(newZoom: real, accepted: bool)
      modifies this`trackZoom
      ensures trackZoom == if hasTrack && capabilities.zoom.supported && accepted
                           then Some(newZoom) else old(trackZoom)
    {
      if hasTrack && capabilities.zoom.supported {
        if accepted {
          trackZoom := Some(newZoom);
        }
      }
    }

    /** The zoom slider: record the value and send it to the track. */
    method HandleZoomChange(newZoom: real, accepted: bool)
      modifies this`zoom, this`trackZoom
      ensures zoom == newZoom
      ensures trackZoom == if hasTrack && capabilities.zoom.supported && accepted
                           then Some(newZoom) else old(trackZoom)
    {
      zoom := newZoom;
      ApplyZoom(newZoom, accepted);
    }

    /** Flips the torch when a track is held and has a torch; the flag
        changes only after the device accepts the request. */
    method ToggleTorch(accepted: bool)
      modifies this`isTorchOn, this`trackTorch
      ensures if hasTrack && capabilities.torch && accepted
              then isTorchOn == !old(isTorchOn) && trackTorch == isTorchOn
              else isTorchOn == old(isTorchOn) && trackTorch == old(trackTorch)
    {
      if hasTrack && capabilities.torch {
        if accepted {
          trackTorch := !isTorchOn;
          isTorchOn := !isTorchOn;
        }
      }
    }

    /** A two-finger touch records the finger distance and the current zoom
        as the gesture's reference. */
    method TouchStart(touchCount: nat, distance: real)
      requires Valid() && (touchCount == 2 ==> distance > 0.0)
      modifies this`pinchStart, this`startZoom
      ensures Valid()
      ensures touchCount == 2 ==> pinchStart == Some(distance) && startZoom == zoom
      ensures touchCount != 2 ==> pinchStart == old(pinchStart) && startZoom == old(startZoom)
    {
      if touchCount == 2 {
        pinchStart := Some(distance);
        startZoom := zoom;
      }
    }

    /** A two-finger move during a gesture, with zoom supported, sets the
        zoom from the gesture's own reference, clamped to the range, and
        sends it to the track; any other move changes nothing. */
    method TouchMove(touchCount: nat, distance: real, accepted: bool)
      requires Valid()
      modifies this`zoom, this`trackZoom
      ensures var active := touchCount == 2 && old(pinchStart).Some? && capabilities.zoom.supported;
        && (active ==> zoom == PinchZoom(startZoom, pinchStart.value, distance, capabilities.zoom))
        && (active && capabilities.zoom.min <= capabilities.zoom.max ==>
              capabilities.zoom.min <= zoom <= capabilities.zoom.max)
        && (active && hasTrack && accepted ==> trackZoom == Some(zoom))
        && (!(active && hasTrack && accepted) ==> trackZoom == old(trackZoom))
        && (!active ==> zoom == old(zoom))
    {
      if touchCount == 2 && pinchStart.Some? && capabilities.zoom.supported {
        var newZoom := PinchZoom(startZoom, pinchStart.value, distance, capabilities.zoom);
        if capabilities.zoom.min <= capabilities.zoom.max {
          PinchZoomInRange(startZoom, pinchStart.value, distance, capabilities.zoom);
        }
        zoom := newZoom;
        ApplyZoom(newZoom, accepted);
      }
    }

    /** Lifting the fingers forgets the gesture's reference distance. */
    method TouchEnd()
      requires Valid()
      modifies this`pinchStart
      ensures Valid() && pinchStart.None?
    {
      pinchStart := None;
    }
  }

  /** A move after the gesture has ended leaves zoom alone (`stray` is the
      zoom right after it), and the next gesture measures against its own
      start distance only; without zoom support the zoom never moves. */
  method PinchAfterEnd(cam: CameraController, d0: real, d1: real, d2: real, accepted: bool)
    returns (stray: real)
    requires cam.Valid() && d0 > 0.0
    modifies cam`pinchStart, cam`startZoom, cam`zoom, cam`trackZoom
    ensures cam.Valid() && cam.capabilities == old(cam.capabilities)
    ensures stray == old(cam.zoom)
    ensures old(cam.capabilities.zoom.supported) ==>
              cam.zoom == PinchZoom(old(cam.zoom), d0, d2, old(cam.capabilities.zoom))
    ensures !old(cam.capabilities.zoom.supported) ==> cam.zoom == old(cam.zoom)
  {
    cam.TouchEnd();
    cam.TouchMove(2, d1, accepted);
    stray := cam.zoom;
    cam.TouchStart(2, d0);
    cam.TouchMove(2, d2, accepted);
  }

  /** One switch whose stream opens the requested device and re-reads the
      same device list moves the current device to the switch target. */
  method SwitchToRequested(cam: CameraController, caps: ReportedCaps, all: seq<MediaDevice>)
    requires cam.Valid() && cam.devices == VideoInputs(all) && |cam.devices| >= 2
    requires NonEmptyIds(cam.devices)
    modifies cam
    ensures cam.Valid() && cam.devices == old(cam.devices)
    ensures cam.currentDeviceId == SwitchTarget(old(cam.devices), old(cam.currentDeviceId)).value
  {
    var target := SwitchTarget(cam.devices, cam.currentDeviceId).value;
    SwitchTargetListed(cam.devices, cam.currentDeviceId);
    cam.SwitchCamera(Opened(caps, target, Some(all)));
  }

  /** `n` switches, each of which opens the requested device and re-reads
      the same device list, move the current device as `SwitchTimes` says. */
  method SwitchRepeatedly(cam: CameraController, caps: ReportedCaps, all: seq<MediaDevice>, n: nat)
    requires cam.Valid() && cam.devices == VideoInputs(all)
    requires |cam.devices| >= 2 && NonEmptyIds(cam.devices)
    modifies cam
    ensures cam.Valid() && cam.devices == old(cam.devices)
    ensures cam.currentDeviceId == SwitchTimes(old(cam.devices), old(cam.currentDeviceId), n)
  {
    var devs, start := cam.devices, cam.currentDeviceId;
    var k := 0;
    while k < n
      invariant 0 <= k <= n
      invariant cam.Valid() && cam.devices == devs
      invariant cam.currentDeviceId == SwitchTimes(devs, start, k)
    {
      ghost var before := cam.currentDeviceId;
      SwitchToRequested(cam, caps, all);
      assert cam.currentDeviceId == SwitchTarget(devs, before).value;
      SwitchTimesStep(devs, start, k);
      k := k + 1;
    }
  }

  /** `n` switches over `n >= 2` devices with distinct non-empty ids, each of
      which opens the requested device and re-reads the same device list,
      end on the device the user started on. */
  method CycleThroughDevices(cam: CameraController, caps: ReportedCaps, all: seq<MediaDevice>, i: nat)
    requires cam.Valid() && cam.devices == VideoInputs(all)
    requires |cam.devices| >= 2 && DistinctIds(cam.devices) && i < |cam.devices|
    requires NonEmptyIds(cam.devices) && cam.currentDeviceId == cam.devices[i].deviceId
    modifies cam
    ensures cam.Valid()
    ensures cam.devices == old(cam.devices) && cam.currentDeviceId == old(cam.currentDeviceId)
  {
    SwitchCycleReturns(cam.devices, i);
    SwitchRepeatedly(cam, caps, all, |cam.devices|);
  }

  /** The torch flag survives a reopen while the new track's torch is off:
      after turning the torch on and switching, the flag reads on with the
      device off, and the next tap sends "off", so the light stays off. */
  method TorchFlagAfterReopen(cam: CameraController, id: string, caps: ReportedCaps, all: seq<MediaDevice>)
    requires cam.Valid() && cam.hasTrack && cam.capabilities.torch && !cam.isTorchOn
    requires caps.torch == Some(true)
    modifies cam
    ensures !cam.isTorchOn && !cam.trackTorch
  {
    cam.ToggleTorch(true);
    assert cam.isTorchOn && cam.trackTorch;
    cam.StartCamera(id, Opened(caps, id, Some(all)));
    assert cam.isTorchOn && !cam.trackTorch;
    cam.ToggleTorch(true);
  }
}
