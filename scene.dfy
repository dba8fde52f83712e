/**
 * The scene's event logic (src/components/3d/Scene.tsx): the camera
 * controller that eases the camera toward one of a few fixed viewpoints,
 * the poller that reports asset-loading progress, and the scene's own
 * toggles and buttons.
 *
 * Camera positions are abstracted to the named viewpoint they belong to;
 * interpolation progress is an exact real, so the 0.004 and 0.02 steps
 * add up without rounding.
 */
module Scene {
  import opened Wrappers

  /** The fixed camera poses of the scene (each a position and a look-at point). */
  datatype Viewpoint = Overview | Approach | Monitor | DanceView

  /** Per-frame progress step of the approach animation. */
  const ApproachStep: real := 0.004
  /** Per-frame progress step of the zoom, dance and reset animations. */
  const ZoomStep: real := 0.02

  /**
   * Where the camera is: at a viewpoint, on its way to one with the eased
   * fraction reached, or wherever the user has orbited it.
   */
  datatype Pose = At(view: Viewpoint) | Between(toward: Viewpoint, eased: real) | Free

  /** The controller's refs: progress, the three flags, the target, the speed, and the camera. */
  datatype CameraState = CameraState(
    progress: real,
    isAnimating: bool,
    hasCompleted: bool,
    hasApproached: bool,
    target: Viewpoint,
    speed: real,
    camera: Pose)

  /** The callback a frame invoked, if any. */
  datatype Notice = Silent | ZoomComplete | DanceCameraReady

  /** The target refs start as copies of the monitor pose; the camera starts at the overview. */
  function InitialCamera(): CameraState {
    CameraState(0.0, false, false, false, Monitor, ZoomStep, At(Overview))
  }

  /** The cubic ease-out `1 - (1 - p)^3`. */
  function Ease(p: real): real {
    1.0 - (1.0 - p) * (1.0 - p) * (1.0 - p)
  }

  lemma EaseEndpoints()
    ensures Ease(0.0) == 0.0 && Ease(1.0) == 1.0
  {
  }

  lemma CubeMonotone(a: real, b: real)
    requires 0.0 <= b <= a
    ensures b * b * b <= a * a * a
  {
    assert b * b <= a * a by { assert b * b <= a * b <= a * a; }
    assert b * b * b <= a * a * b <= a * a * a;
  }

  /** On [0, 1] the easing stays in [0, 1] and never decreases. */
  lemma EaseMonotone(p: real, q: real)
    requires 0.0 <= p <= q <= 1.0
    ensures 0.0 <= Ease(p) <= Ease(q) <= 1.0
  {
    CubeMonotone(1.0 - p, 1.0 - q);
    CubeMonotone(1.0, 1.0 - p);
    CubeMonotone(1.0 - q, 0.0);
  }

  /** Every retargeting effect: restart progress at 0 toward `v`, from wherever the camera is. */
  function Retarget(c: CameraState, v: Viewpoint): CameraState {
    c.(isAnimating := true, progress := 0.0, target := v)
  }

  /** The approach effect: only once, and only while no animation runs. */
  function ApproachEffect(c: CameraState, isApproaching: bool): (d: CameraState)
    ensures isApproaching && !c.hasApproached && !c.isAnimating ==>
      d == Retarget(c, Approach).(hasApproached := true, speed := ApproachStep)
    ensures !(isApproaching && !c.hasApproached && !c.isAnimating) ==> d == c
  {
    if isApproaching && !c.hasApproached && !c.isAnimating then
      Retarget(c, Approach).(hasApproached := true, speed := ApproachStep)
    else c
  }

  /** The zoom effect: before the first completion it always retargets, overriding any animation. */
  function ZoomEffect(c: CameraState, zoomToMonitor: bool): (d: CameraState)
    ensures zoomToMonitor && !c.hasCompleted ==>
      d.isAnimating && d.progress == 0.0 && d.target == Monitor && d.speed == ZoomStep
    ensures zoomToMonitor && !c.hasCompleted ==>
      d.hasCompleted == c.hasCompleted && d.hasApproached == c.hasApproached && d.camera == c.camera
    ensures !zoomToMonitor || c.hasCompleted ==> d == c
  {
    if zoomToMonitor && !c.hasCompleted then Retarget(c, Monitor).(speed := ZoomStep) else c
  }

  /**
   * The dance effect, run whenever `isDancing` changes: ignored until the
   * first completion; then dancing targets the dance pose and not dancing
   * the monitor pose, at the current speed.
   */
  function DanceEffect(c: CameraState, isDancing: bool): (d: CameraState)
    ensures !c.hasCompleted ==> d == c
    ensures c.hasCompleted ==> d == Retarget(c, if isDancing then DanceView else Monitor)
  {
    if isDancing && c.hasCompleted then Retarget(c, DanceView)
    else if !isDancing && c.hasCompleted then Retarget(c, Monitor)
    else c
  }

  /** The reset effect, run whenever `resetTrigger` changes. */
  function ResetEffect(c: CameraState, resetTrigger: int): (d: CameraState)
    ensures resetTrigger > 0 && c.hasCompleted ==> d == Retarget(c, Monitor)
    ensures resetTrigger <= 0 || !c.hasCompleted ==> d == c
  {
    if resetTrigger > 0 && c.hasCompleted then Retarget(c, Monitor) else c
  }

  /** Whether a frame ends the running animation. */
  predicate Finishes(c: CameraState, controlsMounted: bool) {
    c.isAnimating && controlsMounted && c.progress + c.speed >= 1.0
  }

  /**
   * The frame callback. It does nothing unless an animation runs (and the
   * orbit controls exist). It advances progress by the step; once that
   * reaches 1 it clamps progress to exactly 1, stops, puts the camera on the
   * target and invokes the target's callback: the monitor pose marks the
   * zoom completed and calls `onZoomComplete`, the dance pose calls
   * `onDanceCameraReady`, the approach pose calls nothing.
   */
  function Frame(c: CameraState, controlsMounted: bool): (r: (CameraState, Notice))
    ensures !c.isAnimating || !controlsMounted ==> r == (c, Silent)
    ensures Finishes(c, controlsMounted) ==>
      r.0 == c.(progress := 1.0, isAnimating := false, camera := At(c.target),
                hasCompleted := c.hasCompleted || c.target == Monitor)
    ensures c.isAnimating && controlsMounted && !Finishes(c, controlsMounted) ==>
      r.0 == c.(progress := c.progress + c.speed, camera := Between(c.target, Ease(c.progress + c.speed)))
    ensures r.1 == ZoomComplete <==> Finishes(c, controlsMounted) && c.target == Monitor
    ensures r.1 == DanceCameraReady <==> Finishes(c, controlsMounted) && c.target == DanceView
  {
    if !c.isAnimating || !controlsMounted then (c, Silent)
    else
      var p := c.progress + c.speed;
      if p >= 1.0 then
        var done := c.(progress := 1.0, isAnimating := false, camera := At(c.target));
        if c.target == Monitor then (done.(hasCompleted := true), ZoomComplete)
        else if c.target == DanceView then (done, DanceCameraReady)
        else (done, Silent)
      else (c.(progress := p, camera := Between(c.target, Ease(p))), Silent)
  }

  /**
   * The user turns the camera with the orbit controls. Their `enabled` flag
   * is read at render time, so a move may still reach the camera during an
   * animation that began after the last render; but the next frame's
   * interpolation overwrites the pose, so a move takes effect only at rest.
   */
  function Orbit(c: CameraState): (d: CameraState)
    ensures !c.isAnimating ==> d == c.(camera := Free)
    ensures c.isAnimating ==> d == c
  {
    if c.isAnimating then c else c.(camera := Free)
  }

  /** What the controller reacts to: a prop change that re-runs an effect, a frame, or the user orbiting. */
  datatype CameraEvent =
    | ApproachChanged(isApproaching: bool)
    | ZoomChanged(zoomToMonitor: bool)
    | DancingChanged(isDancing: bool)
    | ResetChanged(resetTrigger: int)
    | FrameTick(controlsMounted: bool)
    | UserOrbit

  function CameraStep(c: CameraState, e: CameraEvent): (CameraState, Notice) {
    match e
    case ApproachChanged(b) => (ApproachEffect(c, b), Silent)
    case ZoomChanged(b) => (ZoomEffect(c, b), Silent)
    case DancingChanged(b) => (DanceEffect(c, b), Silent)
    case ResetChanged(n) => (ResetEffect(c, n), Silent)
    case FrameTick(m) => Frame(c, m)
    case UserOrbit => (Orbit(c), Silent)
  }

  /**
   * What holds in every reachable controller state: progress lies in
   * [0, 1] and is below 1 while animating, the speed is one of the two
   * steps, and the camera is part-way to a viewpoint only while animating.
   */
  ghost predicate CameraInvariant(c: CameraState) {
    && 0.0 <= c.progress <= 1.0
    && (c.isAnimating ==> c.progress < 1.0)
    && (c.speed == ApproachStep || c.speed == ZoomStep)
    && (!c.isAnimating ==> !c.camera.Between?)
  }

  lemma InitialCameraInvariant()
    ensures CameraInvariant(InitialCamera())
  {
  }

  lemma CameraStepPreservesInvariant(c: CameraState, e: CameraEvent)
    requires CameraInvariant(c)
    ensures CameraInvariant(CameraStep(c, e).0)
  {
  }

  /** Once set, `hasCompleted` and `hasApproached` stay set. */
  lemma FlagsAreMonotone(c: CameraState, e: CameraEvent)
    ensures c.hasCompleted ==> CameraStep(c, e).0.hasCompleted
    ensures c.hasApproached ==> CameraStep(c, e).0.hasApproached
  {
  }

  /** Whether an event starts the approach animation. */
  predicate StartsApproach(c: CameraState, e: CameraEvent) {
    e.ApproachChanged? && e.isApproaching && !c.hasApproached && !c.isAnimating
  }

  /** How many times a run of events starts the approach animation. */
  function Approaches(c: CameraState, es: seq<CameraEvent>): nat
    decreases |es|
  {
    if es == [] then 0
    else (if StartsApproach(c, es[0]) then 1 else 0) + Approaches(CameraStep(c, es[0]).0, es[1..])
  }

  /** The approach happens at most once over any run, and never again once it has happened. */
  lemma {:induction false} ApproachAtMostOnce(c: CameraState, es: seq<CameraEvent>)
    ensures Approaches(c, es) <= (if c.hasApproached then 0 else 1)
    decreases |es|
  {
    if es != [] {
      var d := CameraStep(c, es[0]).0;
      FlagsAreMonotone(c, es[0]);
      assert StartsApproach(c, es[0]) ==> d.hasApproached;
      ApproachAtMostOnce(d, es[1..]);
    }
  }

  /** `k` frames with the controls mounted. */
  function Frames(c: CameraState, k: nat): CameraState {
    if k == 0 then c else Frame(Frames(c, k - 1), true).0
  }

  /** A freshly started animation has progress k times the step after k frames, while that is below 1. */
  lemma {:induction false} FramesAdvance(c: CameraState, k: nat)
    requires c.isAnimating && c.progress == 0.0 && c.speed > 0.0
    requires 0 < k && (k as real) * c.speed < 1.0
    ensures Frames(c, k) == c.(progress := (k as real) * c.speed,
                               camera := Between(c.target, Ease((k as real) * c.speed)))
    decreases k
  {
    var p := (k as real) * c.speed;
    if k == 1 {
      assert Frames(c, 0) == c;
      assert p == c.speed;
    } else {
      var j: nat := k - 1;
      var q := (j as real) * c.speed;
      assert q + c.speed == p by { assert (k as real) == (j as real) + 1.0; }
      assert q < 1.0;
      FramesAdvance(c, j);
      var prev := Frames(c, j);
      assert prev.isAnimating && prev.progress + prev.speed == p;
      assert Frames(c, k) == Frame(prev, true).0;
    }
  }

  /**
   * An animation whose step divides 1 exactly n times is still running
   * after n - 1 frames and finishes, on its target, at frame n.
   */
  lemma FinishesAtFrame(c: CameraState, n: nat)
    requires c.isAnimating && c.progress == 0.0 && c.speed > 0.0
    requires n > 0 && (n as real) * c.speed == 1.0
    ensures Frames(c, n - 1).isAnimating
    ensures Frames(c, n).camera == At(c.target) && !Frames(c, n).isAnimating
    ensures Frames(c, n).progress == 1.0
    ensures Frame(Frames(c, n - 1), true).1 ==
      (match c.target case Monitor => ZoomComplete case DanceView => DanceCameraReady case _ => Silent)
  {
    var j: nat := n - 1;
    var prev := Frames(c, j);
    if n == 1 {
      assert prev == c;
      assert c.speed == 1.0;
    } else {
      var q := (j as real) * c.speed;
      assert q + c.speed == 1.0 by { assert (n as real) == (j as real) + 1.0; }
      FramesAdvance(c, j);
      assert prev.progress + prev.speed == 1.0;
    }
    assert Finishes(prev, true);
    assert Frames(c, n) == Frame(prev, true).0;
  }

  /** The zoom to the monitor takes exactly 50 frames and then calls `onZoomComplete`. */
  lemma ZoomTakesFiftyFrames(c: CameraState)
    requires !c.hasCompleted
    ensures var z := ZoomEffect(c, true);
      Frames(z, 49).isAnimating && Frames(z, 50).hasCompleted &&
      Frames(z, 50).camera == At(Monitor) && Frame(Frames(z, 49), true).1 == ZoomComplete
  {
    FinishesAtFrame(ZoomEffect(c, true), 50);
  }

  /** The approach takes exactly 250 frames and calls nothing when it ends. */
  lemma ApproachTakes250Frames(c: CameraState)
    requires !c.hasApproached && !c.isAnimating
    ensures var a := ApproachEffect(c, true);
      Frames(a, 249).isAnimating && Frames(a, 250).camera == At(Approach) &&
      Frame(Frames(a, 249), true).1 == Silent
  {
    FinishesAtFrame(ApproachEffect(c, true), 250);
  }

  /** The `CameraController` component's refs. */
  class CameraController {
    var progress: real
    var isAnimating: bool
    var hasCompleted: bool
    var hasApproached: bool
    var target: Viewpoint
    var speed: real
    var camera: Pose

    function State(): CameraState
      reads this
    {
      CameraState(progress, isAnimating, hasCompleted, hasApproached, target, speed, camera)
    }

    ghost predicate Valid()
      reads this
    {
      CameraInvariant(State())
    }

    constructor ()
      ensures Valid() && State() == InitialCamera()
    {
      progress, isAnimating, hasCompleted, hasApproached := 0.0, false, false, false;
      target, speed, camera := Monitor, ZoomStep, At(Overview);
    }

    method OnApproachChanged(isApproaching: bool)
      requires Valid()
      modifies this
      ensures Valid() && State() == ApproachEffect(old(State()), isApproaching)
    {
      CameraStepPreservesInvariant(State(), ApproachChanged(isApproaching));
      if isApproaching && !hasApproached && !isAnimating {
        isAnimating, hasApproached, progress := true, true, 0.0;
        speed, target := ApproachStep, Approach;
      }
    }

    method OnZoomChanged(zoomToMonitor: bool)
      requires Valid()
      modifies this
      ensures Valid() && State() == ZoomEffect(old(State()), zoomToMonitor)
    {
      CameraStepPreservesInvariant(State(), ZoomChanged(zoomToMonitor));
      if zoomToMonitor && !hasCompleted {
        isAnimating, progress := true, 0.0;
        speed, target := ZoomStep, Monitor;
      }
    }

    method OnDancingChanged(isDancing: bool)
      requires Valid()
      modifies this
      ensures Valid() && State() == DanceEffect(old(State()), isDancing)
    {
      CameraStepPreservesInvariant(State(), DancingChanged(isDancing));
      if isDancing && hasCompleted {
        isAnimating, progress, target := true, 0.0, DanceView;
      } else if !isDancing && hasCompleted {
        isAnimating, progress, target := true, 0.0, Monitor;
      }
    }

    method OnResetChanged(resetTrigger: int)
      requires Valid()
      modifies this
      ensures Valid() && State() == ResetEffect(old(State()), resetTrigger)
    {
      CameraStepPreservesInvariant(State(), ResetChanged(resetTrigger));
      if resetTrigger > 0 && hasCompleted {
        isAnimating, progress, target := true, 0.0, Monitor;
      }
    }

    /** The frame callback; returns the callback it invoked. */
    method OnFrame(controlsMounted: bool) returns (notice: Notice)
      requires Valid()
      modifies this
      ensures Valid() && (State(), notice) == Frame(old(State()), controlsMounted)
    {
      CameraStepPreservesInvariant(State(), FrameTick(controlsMounted));
      notice := Silent;
      if !isAnimating || !controlsMounted {
        return;
      }
      progress := progress + speed;
      if progress >= 1.0 {
        progress, isAnimating, camera := 1.0, false, At(target);
        if target == Monitor {
          hasCompleted := true;
          notice := ZoomComplete;
        } else if target == DanceView {
          notice := DanceCameraReady;
        }
        return;
      }
      camera := Between(target, Ease(progress));
    }

    method OnUserOrbit()
      requires Valid()
      modifies this
      ensures Valid() && State() == Orbit(old(State()))
    {
      CameraStepPreservesInvariant(State(), UserOrbit);
      if !isAnimating {
        camera := Free;
      }
    }
  }

  // ---------------------------------------------------------------------
  // `useExternalProgress`: polls the loader's progress store.

  /** What the store answers: the percentage loaded and whether loading is still active. */
  datatype LoaderStatus = LoaderStatus(progress: real, active: bool)

  /** `lastProgress`, `hasNotifiedReady`, and whether the polling interval is still set. */
  datatype TrackerState = TrackerState(lastProgress: real, hasNotifiedReady: bool, polling: bool)

  /** One poll: the new state, the value passed to `onProgress` if any, and whether `onReady` was scheduled. */
  datatype PollResult = PollResult(next: TrackerState, reported: Option<real>, scheduleReady: bool)

  function InitialTracker(): TrackerState {
    TrackerState(-1.0, false, true)
  }

  /**
   * One tick of the interval. Nothing happens once the interval is cleared
   * or when the store gives no state. A progress value different from the
   * last reported one is reported; the first time loading is inactive at
   * 100%, `onReady` is scheduled and the interval is cleared.
   */
  function Poll(t: TrackerState, status: Option<LoaderStatus>): (r: PollResult)
    ensures !t.polling || status.None? ==> r == PollResult(t, None, false)
    ensures t.polling && status.Some? ==>
      r.next.lastProgress == status.value.progress &&
      (r.reported.Some? <==> status.value.progress != t.lastProgress) &&
      (r.reported.Some? ==> r.reported.value == status.value.progress)
    ensures r.scheduleReady <==>
      t.polling && status.Some? && !status.value.active && status.value.progress == 100.0 && !t.hasNotifiedReady
    ensures r.next.hasNotifiedReady == (t.hasNotifiedReady || r.scheduleReady)
    ensures r.next.polling == (t.polling && !r.scheduleReady)
  {
    if !t.polling || status.None? then PollResult(t, None, false)
    else
      var s := status.value;
      var reported := if s.progress != t.lastProgress then Some(s.progress) else None;
      var ready := !s.active && s.progress == 100.0 && !t.hasNotifiedReady;
      PollResult(TrackerState(s.progress, t.hasNotifiedReady || ready, !ready), reported, ready)
  }

  /** What the tracker reacts to: an interval tick, or the effect re-running with new callbacks. */
  datatype TrackerEvent = Tick(status: Option<LoaderStatus>) | Resubscribe

  function TrackerStep(t: TrackerState, e: TrackerEvent): PollResult {
    match e
    case Tick(s) => Poll(t, s)
    case Resubscribe => PollResult(t.(polling := true), None, false)
  }

  /** How many times a run schedules `onReady`. */
  function ReadyCalls(t: TrackerState, es: seq<TrackerEvent>): nat
    decreases |es|
  {
    if es == [] then 0
    else (if TrackerStep(t, es[0]).scheduleReady then 1 else 0) + ReadyCalls(TrackerStep(t, es[0]).next, es[1..])
  }

  /** `onReady` is scheduled at most once, even if the effect re-subscribes. */
  lemma {:induction false} ReadyAtMostOnce(t: TrackerState, es: seq<TrackerEvent>)
    ensures ReadyCalls(t, es) <= (if t.hasNotifiedReady then 0 else 1)
    decreases |es|
  {
    if es != [] {
      ReadyAtMostOnce(TrackerStep(t, es[0]).next, es[1..]);
    }
  }

  /** The hook's refs, with the interval handle reduced to whether it is still set. */
  class ProgressTracker {
    var lastProgress: real
    var hasNotifiedReady: bool
    var polling: bool

    function State(): TrackerState
      reads this
    {
      TrackerState(lastProgress, hasNotifiedReady, polling)
    }

    constructor ()
      ensures State() == InitialTracker()
    {
      lastProgress, hasNotifiedReady, polling := -1.0, false, true;
    }

    /** The interval callback; returns what it passed to `onProgress` and whether it scheduled `onReady`. */
    method OnTick(status: Option<LoaderStatus>) returns (reported: Option<real>, scheduleReady: bool)
      modifies this
      ensures PollResult(State(), reported, scheduleReady) == Poll(old(State()), status)
    {
      reported, scheduleReady := None, false;
      if !polling || status.None? {
        return;
      }
      var s := status.value;
      if s.progress != lastProgress {
        lastProgress := s.progress;
        reported := Some(s.progress);
      }
      if !s.active && s.progress == 100.0 && !hasNotifiedReady {
        hasNotifiedReady := true;
        polling := false;
        scheduleReady := true;
      }
    }
  }

  // ---------------------------------------------------------------------
  // The `Scene` component's own state and buttons.

  class SceneControls {
    var resetTrigger: nat
    var isDancing: bool
    var showDanceButton: bool
    var showOS: bool
    var showBootGif: bool
    var isFullScreen: bool

    /** The dance button and the desktop are switched on together, and the boot GIF ends only after that. */
    ghost predicate Valid()
      reads this
    {
      (showDanceButton ==> showOS) && (!showBootGif ==> showOS) && (isFullScreen ==> !showBootGif)
    }

    constructor ()
      ensures Valid()
      ensures resetTrigger == 0 && !isDancing && !showDanceButton && !showOS && showBootGif && !isFullScreen
    {
      resetTrigger, isDancing, showDanceButton := 0, false, false;
      showOS, showBootGif, isFullScreen := false, true, false;
    }

    /** `handleReset`: bump the trigger the camera's reset effect watches. */
    method HandleReset()
      requires Valid()
      modifies this
      ensures Valid() && resetTrigger == old(resetTrigger) + 1
      ensures isDancing == old(isDancing) && showDanceButton == old(showDanceButton)
      ensures showOS == old(showOS) && showBootGif == old(showBootGif) && isFullScreen == old(isFullScreen)
    {
      resetTrigger := resetTrigger + 1;
    }

    /** `handleDanceBreak`. */
    method HandleDanceBreak()
      requires Valid()
      modifies this
      ensures Valid() && isDancing
      ensures resetTrigger == old(resetTrigger) && showDanceButton == old(showDanceButton)
      ensures showOS == old(showOS) && showBootGif == old(showBootGif) && isFullScreen == old(isFullScreen)
    {
      isDancing := true;
    }

    /** `handleBackToWork`. */
    method HandleBackToWork()
      requires Valid()
      modifies this
      ensures Valid() && !isDancing
      ensures resetTrigger == old(resetTrigger) && showDanceButton == old(showDanceButton)
      ensures showOS == old(showOS) && showBootGif == old(showBootGif) && isFullScreen == old(isFullScreen)
    {
      isDancing := false;
    }

    /**
     * `handleZoomComplete`: show the dance button and the desktop. Its call
     * of the parent's `onZoomComplete` is not part of this model.
     */
    method HandleZoomComplete()
      requires Valid()
      modifies this
      ensures Valid() && showDanceButton && showOS
      ensures resetTrigger == old(resetTrigger) && isDancing == old(isDancing)
      ensures showBootGif == old(showBootGif) && isFullScreen == old(isFullScreen)
    {
      showDanceButton, showOS := true, true;
    }

    /** The 2-second boot GIF timer, which is scheduled only while the desktop is shown over the GIF. */
    method BootGifTimer()
      requires Valid()
      modifies this
      ensures Valid()
      ensures showBootGif == (old(showBootGif) && !old(showOS))
      ensures resetTrigger == old(resetTrigger) && isDancing == old(isDancing)
      ensures showDanceButton == old(showDanceButton) && showOS == old(showOS) && isFullScreen == old(isFullScreen)
    {
      if showOS && showBootGif {
        showBootGif := false;
      }
    }

    /** The 100 ms timer scheduled when the GIF ends. */
    method FullScreenTimer()
      requires Valid()
      modifies this
      ensures Valid()
      ensures isFullScreen == (old(isFullScreen) || !old(showBootGif))
      ensures resetTrigger == old(resetTrigger) && isDancing == old(isDancing)
      ensures showDanceButton == old(showDanceButton) && showOS == old(showOS) && showBootGif == old(showBootGif)
    {
      if !showBootGif {
        isFullScreen := true;
      }
    }

    /** The button container: only while the reset button is wanted and the desktop is not shown. */
    function ControlsVisible(showResetButton: bool): bool
      reads this
    {
      showResetButton && !showOS
    }

    function ResetButtonVisible(showResetButton: bool): bool
      reads this
    {
      ControlsVisible(showResetButton) && !isDancing
    }

    function BackToWorkVisible(showResetButton: bool): bool
      reads this
    {
      ControlsVisible(showResetButton) && isDancing
    }

    /**
     * The "Dance Break!" button needs `showDanceButton` while the desktop is
     * hidden, but the two are switched on together: it is never shown.
     */
    function DanceButtonVisible(showResetButton: bool): (v: bool)
      requires Valid()
      reads this
      ensures !v
    {
      ControlsVisible(showResetButton) && !isDancing && showDanceButton
    }
  }
}
