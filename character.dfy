/**
 * The character's animation-phase machine (src/components/3d/AnimatedCharacter.tsx).
 *
 * The character walks from its start point to the chair, sits, types, and on
 * the dance toggle walks to the dance spot and dances, then walks back. The
 * per-frame walking geometry (square roots, `atan2`) is abstracted: a frame
 * says whether the character has arrived (the source's `distance <= 0.1`)
 * and, if not, which position and heading the walk step produced. Rotations
 * are measured in multiples of pi radians. Timers are explicit events.
 */
module AnimatedCharacter {
  import opened Wrappers

  datatype Phase = Idle | Walking | Sitting | Typing | WalkingToDance | Dancing

  datatype Vec3 = Vec3(x: real, y: real, z: real)

  const ChairPosition: Vec3 := Vec3(6.0, 0.0, 4.0)
  const StartPosition: Vec3 := Vec3(8.0, 0.0, 8.0)
  const DancePosition: Vec3 := Vec3(8.0, 0.0, 7.0)

  /** `-Math.PI / 2`, in multiples of pi. */
  const SeatedRotation: real := -0.5
  /** Rotation 0: facing the camera. */
  const FacingCamera: real := 0.0

  datatype Clip = WalkingClip | SitToTypeClip | TypingClip | DanceClip
  /** `LoopRepeat` forever, or `LoopOnce` with `clampWhenFinished`. */
  datatype LoopMode = LoopRepeat | LoopOnceClamped
  datatype ClipChoice = ClipChoice(clip: Clip, loop: LoopMode)

  /**
   * The clip each phase plays: walking for the three moving phases, the
   * sit-down clip played once and held on its last frame, typing, dancing.
   */
  function ClipFor(p: Phase): (c: ClipChoice)
    ensures c.clip == WalkingClip <==> p == Idle || p == Walking || p == WalkingToDance
    ensures c.clip == SitToTypeClip <==> p == Sitting
    ensures c.clip == TypingClip <==> p == Typing
    ensures c.clip == DanceClip <==> p == Dancing
    ensures c.loop == LoopOnceClamped <==> p == Sitting
  {
    match p
    case Idle | Walking | WalkingToDance => ClipChoice(WalkingClip, LoopRepeat)
    case Sitting => ClipChoice(SitToTypeClip, LoopOnceClamped)
    case Typing => ClipChoice(TypingClip, LoopRepeat)
    case Dancing => ClipChoice(DanceClip, LoopRepeat)
  }

  /**
   * The component's state: its phase, position and rotation, the refs
   * `prevIsDancing`, `hasCalledOnSeated`, `hasCalledDanceReady`, and how many
   * seat timers are scheduled and have not fired yet.
   */
  datatype CharState = CharState(
    phase: Phase,
    position: Vec3,
    rotation: real,
    prevIsDancing: bool,
    hasCalledOnSeated: bool,
    hasCalledDanceReady: bool,
    pendingSeatTimers: nat)

  /** What drives the machine: an effect run with the current prop, a frame, the seat timer. */
  datatype Event =
    | StartEffect(startAnimation: bool)
    | DanceEffect(isDancing: bool)
    | FrameTick(arrived: bool, stepPosition: Vec3, stepRotation: real)
    | SeatTimer

  /** Which callbacks one step invoked. */
  datatype Fired = Fired(onSeated: bool, onDanceReady: bool)

  const NoneFired: Fired := Fired(false, false)

  function Initial(): CharState {
    CharState(Idle, StartPosition, 0.0, false, false, false, 0)
  }

  /** The start effect: the start signal moves `idle` to `walking` and does nothing else. */
  function Start(s: CharState, startAnimation: bool): (t: CharState)
    ensures s.phase != Idle || !startAnimation ==> t == s
    ensures s.phase == Idle && startAnimation ==> t == s.(phase := Walking)
  {
    if startAnimation && s.phase == Idle then s.(phase := Walking) else s
  }

  /**
   * The dance-toggle effect. A rising edge of `isDancing` while typing sets
   * off to the dance spot and re-arms `onDanceReady`; a falling edge while
   * dancing walks back and re-arms `onSeated`; any other run changes no
   * phase. `prevIsDancing` always records the latest value.
   */
  function ToggleDance(s: CharState, isDancing: bool): (t: CharState)
    ensures t.prevIsDancing == isDancing
    ensures t.position == s.position && t.rotation == s.rotation
    ensures t.pendingSeatTimers == s.pendingSeatTimers
    ensures isDancing && !s.prevIsDancing && s.phase == Typing ==>
      t.phase == WalkingToDance && !t.hasCalledDanceReady && t.hasCalledOnSeated == s.hasCalledOnSeated
    ensures !isDancing && s.prevIsDancing && s.phase == Dancing ==>
      t.phase == Walking && !t.hasCalledOnSeated && t.hasCalledDanceReady == s.hasCalledDanceReady
    ensures !(isDancing && !s.prevIsDancing && s.phase == Typing) &&
            !(!isDancing && s.prevIsDancing && s.phase == Dancing) ==>
      t == s.(prevIsDancing := isDancing)
  {
    var t :=
      if isDancing && !s.prevIsDancing && s.phase == Typing then
        s.(phase := WalkingToDance, hasCalledDanceReady := false)
      else if !isDancing && s.prevIsDancing && s.phase == Dancing then
        s.(phase := Walking, hasCalledOnSeated := false)
      else s;
    t.(prevIsDancing := isDancing)
  }

  /**
   * The frame callback. Walking: step toward the chair, or on arrival snap
   * to it, face -pi/2, sit and schedule the seat timer. Walking to dance:
   * step, or on arrival snap to the dance spot, face the camera, dance and
   * call `onDanceReady` unless it was already called. Other phases: nothing.
   */
  function Frame(s: CharState, arrived: bool, stepPosition: Vec3, stepRotation: real): (r: (CharState, Fired))
    ensures !r.1.onSeated
    ensures r.1.onDanceReady <==> s.phase == WalkingToDance && arrived && !s.hasCalledDanceReady
    ensures s.phase != Walking && s.phase != WalkingToDance ==> r.0 == s
    ensures (s.phase == Walking || s.phase == WalkingToDance) && !arrived ==>
      r.0 == s.(position := stepPosition, rotation := stepRotation)
    ensures s.phase == Walking && arrived ==>
      r.0 == s.(phase := Sitting, position := ChairPosition, rotation := SeatedRotation,
                pendingSeatTimers := s.pendingSeatTimers + 1)
    ensures s.phase == WalkingToDance && arrived ==>
      r.0 == s.(phase := Dancing, position := DancePosition, rotation := FacingCamera,
                hasCalledDanceReady := true)
  {
    if s.phase == Walking then
      if !arrived then (s.(position := stepPosition, rotation := stepRotation), NoneFired)
      else (s.(phase := Sitting, position := ChairPosition, rotation := SeatedRotation,
               pendingSeatTimers := s.pendingSeatTimers + 1), NoneFired)
    else if s.phase == WalkingToDance then
      if !arrived then (s.(position := stepPosition, rotation := stepRotation), NoneFired)
      else (s.(phase := Dancing, position := DancePosition, rotation := FacingCamera,
               hasCalledDanceReady := true), Fired(false, !s.hasCalledDanceReady))
    else (s, NoneFired)
  }

  /**
   * A scheduled seat timer fires: the phase becomes `typing` and `onSeated`
   * is called unless it was already called. With no timer scheduled nothing
   * fires.
   */
  function SeatTimerFires(s: CharState): (r: (CharState, Fired))
    ensures !r.1.onDanceReady
    ensures r.1.onSeated <==> s.pendingSeatTimers > 0 && !s.hasCalledOnSeated
    ensures s.pendingSeatTimers == 0 ==> r.0 == s
    ensures s.pendingSeatTimers > 0 ==>
      r.0 == s.(phase := Typing, hasCalledOnSeated := true, pendingSeatTimers := s.pendingSeatTimers - 1)
  {
    if s.pendingSeatTimers == 0 then (s, NoneFired)
    else (s.(phase := Typing, hasCalledOnSeated := true, pendingSeatTimers := s.pendingSeatTimers - 1),
          Fired(!s.hasCalledOnSeated, false))
  }

  /** The whole transition function. */
  function Step(s: CharState, e: Event): (CharState, Fired) {
    match e
    case StartEffect(b) => (Start(s, b), NoneFired)
    case DanceEffect(d) => (ToggleDance(s, d), NoneFired)
    case FrameTick(arrived, p, rot) => Frame(s, arrived, p, rot)
    case SeatTimer => SeatTimerFires(s)
  }

  /**
   * What holds in every state reachable from the initial one: a seat timer
   * is pending exactly while sitting; the pose is the fixed one of each
   * resting phase; typing follows the `onSeated` call and dancing follows
   * the `onDanceReady` call.
   */
  ghost predicate Invariant(s: CharState) {
    && s.pendingSeatTimers == (if s.phase == Sitting then 1 else 0)
    && (s.phase == Idle ==> s.position == StartPosition && s.rotation == 0.0)
    && (s.phase == Sitting || s.phase == Typing ==>
          s.position == ChairPosition && s.rotation == SeatedRotation)
    && (s.phase == Typing ==> s.hasCalledOnSeated)
    && (s.phase == Dancing ==>
          s.position == DancePosition && s.rotation == FacingCamera && s.hasCalledDanceReady)
  }

  lemma InitialInvariant()
    ensures Invariant(Initial())
  {
  }

  lemma StepPreservesInvariant(s: CharState, e: Event)
    requires Invariant(s)
    ensures Invariant(Step(s, e).0)
  {
  }

  /** Position and rotation change only while walking to the chair or to the dance spot. */
  lemma PoseChangesOnlyWhileWalking(s: CharState, e: Event)
    requires s.phase != Walking && s.phase != WalkingToDance
    ensures Step(s, e).0.position == s.position && Step(s, e).0.rotation == s.rotation
  {
  }

  // ---------------------------------------------------------------------
  // The callback guards over whole runs.

  /** The falling dance edge while dancing: the one step that re-arms `onSeated`. */
  predicate RearmsSeated(s: CharState, e: Event) {
    e.DanceEffect? && !e.isDancing && s.prevIsDancing && s.phase == Dancing
  }

  /** The rising dance edge while typing: the one step that re-arms `onDanceReady`. */
  predicate RearmsDanceReady(s: CharState, e: Event) {
    e.DanceEffect? && e.isDancing && !s.prevIsDancing && s.phase == Typing
  }

  function Run(s: CharState, es: seq<Event>): CharState
    decreases |es|
  {
    if es == [] then s else Run(Step(s, es[0]).0, es[1..])
  }

  /** How many times a run calls `onSeated`. */
  function SeatedCalls(s: CharState, es: seq<Event>): nat
    decreases |es|
  {
    if es == [] then 0
    else (if Step(s, es[0]).1.onSeated then 1 else 0) + SeatedCalls(Step(s, es[0]).0, es[1..])
  }

  /** How many times a run calls `onDanceReady`. */
  function DanceReadyCalls(s: CharState, es: seq<Event>): nat
    decreases |es|
  {
    if es == [] then 0
    else (if Step(s, es[0]).1.onDanceReady then 1 else 0) + DanceReadyCalls(Step(s, es[0]).0, es[1..])
  }

  predicate NoSeatedRearm(s: CharState, es: seq<Event>)
    decreases |es|
  {
    es == [] || (!RearmsSeated(s, es[0]) && NoSeatedRearm(Step(s, es[0]).0, es[1..]))
  }

  predicate NoDanceReadyRearm(s: CharState, es: seq<Event>)
    decreases |es|
  {
    es == [] || (!RearmsDanceReady(s, es[0]) && NoDanceReadyRearm(Step(s, es[0]).0, es[1..]))
  }

  /**
   * Between two re-arms `onSeated` is called at most once, and not at all
   * once the guard is set, however often the seat timer fires.
   */
  lemma {:induction false} OnSeatedAtMostOnce(s: CharState, es: seq<Event>)
    requires NoSeatedRearm(s, es)
    ensures SeatedCalls(s, es) <= (if s.hasCalledOnSeated then 0 else 1)
    decreases |es|
  {
    if es != [] {
      var t := Step(s, es[0]).0;
      assert s.hasCalledOnSeated ==> t.hasCalledOnSeated;
      assert Step(s, es[0]).1.onSeated ==> !s.hasCalledOnSeated && t.hasCalledOnSeated;
      OnSeatedAtMostOnce(t, es[1..]);
    }
  }

  /** Between two re-arms `onDanceReady` is called at most once. */
  lemma {:induction false} OnDanceReadyAtMostOnce(s: CharState, es: seq<Event>)
    requires NoDanceReadyRearm(s, es)
    ensures DanceReadyCalls(s, es) <= (if s.hasCalledDanceReady then 0 else 1)
    decreases |es|
  {
    if es != [] {
      var t := Step(s, es[0]).0;
      assert s.hasCalledDanceReady ==> t.hasCalledDanceReady;
      assert Step(s, es[0]).1.onDanceReady ==> !s.hasCalledDanceReady && t.hasCalledDanceReady;
      OnDanceReadyAtMostOnce(t, es[1..]);
    }
  }

  /** Start, arrive at the chair, let the seat timer fire: the character types. */
  lemma FirstSitDown(p: Vec3, rot: real)
    ensures var es := [StartEffect(true), FrameTick(false, p, rot), FrameTick(true, p, rot), SeatTimer];
      Run(Initial(), es).phase == Typing && Run(Initial(), es).position == ChairPosition &&
      SeatedCalls(Initial(), es) == 1
  {
    var es := [StartEffect(true), FrameTick(false, p, rot), FrameTick(true, p, rot), SeatTimer];
    var s1 := Step(Initial(), es[0]).0;
    var s2 := Step(s1, es[1]).0;
    var s3 := Step(s2, es[2]).0;
    var s4 := Step(s3, es[3]).0;
    assert s3.phase == Sitting && s3.pendingSeatTimers == 1 && !s3.hasCalledOnSeated;
    assert es[1..][1..][1..][1..] == [];
    assert Run(s3, es[1..][1..][1..]) == s4;
    assert Run(s2, es[1..][1..]) == s4;
    assert Run(s1, es[1..]) == s4;
    assert SeatedCalls(s3, es[1..][1..][1..]) == 1;
    assert SeatedCalls(s2, es[1..][1..]) == 1;
    assert SeatedCalls(s1, es[1..]) == 1;
  }

  /**
   * A dance request made while sitting is dropped: the edge is recorded in
   * `prevIsDancing` but no phase changes, and once typing starts (which
   * re-runs the effect with the same prop) the character keeps typing.
   */
  lemma DanceRequestWhileSittingIsLost(s: CharState)
    requires Invariant(s) && s.phase == Sitting && !s.prevIsDancing
    ensures var es := [DanceEffect(true), SeatTimer, DanceEffect(true)];
      Run(s, es).phase == Typing && Run(s, es).prevIsDancing
  {
    var es := [DanceEffect(true), SeatTimer, DanceEffect(true)];
    var s1 := Step(s, es[0]).0;
    var s2 := Step(s1, es[1]).0;
    var s3 := Step(s2, es[2]).0;
    assert s1.phase == Sitting && s2.phase == Typing && s2.prevIsDancing;
    assert es[1..][1..][1..] == [];
    assert Run(s, es) == s3;
  }

  /** The `AnimatedCharacter` component's mutable state. */
  class Character {
    var phase: Phase
    var position: Vec3
    var rotation: real
    var prevIsDancing: bool
    var hasCalledOnSeated: bool
    var hasCalledDanceReady: bool
    var pendingSeatTimers: nat
    /** `mixerRef.current != null`. */
    var hasMixer: bool
    /** How many animation mixers have been created. */
    ghost var mixersCreated: nat

    function State(): CharState
      reads this
    {
      CharState(phase, position, rotation, prevIsDancing, hasCalledOnSeated, hasCalledDanceReady, pendingSeatTimers)
    }

    ghost predicate Valid()
      reads this
    {
      Invariant(State()) && mixersCreated == (if hasMixer then 1 else 0)
    }

    constructor ()
      ensures Valid() && State() == Initial() && !hasMixer
    {
      phase, position, rotation := Idle, StartPosition, 0.0;
      prevIsDancing, hasCalledOnSeated, hasCalledDanceReady := false, false, false;
      pendingSeatTimers := 0;
      hasMixer := false;
      mixersCreated := 0;
    }

    method StartEffect(startAnimation: bool)
      requires Valid()
      modifies this
      ensures Valid() && State() == Start(old(State()), startAnimation)
      ensures hasMixer == old(hasMixer) && mixersCreated == old(mixersCreated)
    {
      if startAnimation && phase == Idle {
        phase := Walking;
      }
    }

    method DanceEffect(isDancing: bool)
      requires Valid()
      modifies this
      ensures Valid() && State() == ToggleDance(old(State()), isDancing)
      ensures hasMixer == old(hasMixer) && mixersCreated == old(mixersCreated)
    {
      StepPreservesInvariant(State(), Event.DanceEffect(isDancing));
      if isDancing && !prevIsDancing && phase == Typing {
        phase := WalkingToDance;
        hasCalledDanceReady := false;
      } else if !isDancing && prevIsDancing && phase == Dancing {
        phase := Walking;
        hasCalledOnSeated := false;
      }
      prevIsDancing := isDancing;
    }

    /** The frame callback; returns which callbacks it invoked. */
    method OnFrame(arrived: bool, stepPosition: Vec3, stepRotation: real) returns (fired: Fired)
      requires Valid()
      modifies this
      ensures Valid() && (State(), fired) == Frame(old(State()), arrived, stepPosition, stepRotation)
      ensures hasMixer == old(hasMixer) && mixersCreated == old(mixersCreated)
    {
      StepPreservesInvariant(State(), FrameTick(arrived, stepPosition, stepRotation));
      fired := NoneFired;
      if phase == Walking {
        if !arrived {
          position, rotation := stepPosition, stepRotation;
        } else {
          position, rotation, phase := ChairPosition, SeatedRotation, Sitting;
          pendingSeatTimers := pendingSeatTimers + 1;
        }
      } else if phase == WalkingToDance {
        if !arrived {
          position, rotation := stepPosition, stepRotation;
        } else {
          position, rotation, phase := DancePosition, FacingCamera, Dancing;
          if !hasCalledDanceReady {
            hasCalledDanceReady := true;
            fired := Fired(false, true);
          }
        }
      }
    }

    /** The 2500 ms seat timer fires. */
    method OnSeatTimer() returns (fired: Fired)
      requires Valid()
      modifies this
      ensures Valid() && (State(), fired) == SeatTimerFires(old(State()))
      ensures hasMixer == old(hasMixer) && mixersCreated == old(mixersCreated)
    {
      StepPreservesInvariant(State(), SeatTimer);
      fired := NoneFired;
      if pendingSeatTimers > 0 {
        pendingSeatTimers := pendingSeatTimers - 1;
        phase := Typing;
        if !hasCalledOnSeated {
          hasCalledOnSeated := true;
          fired := Fired(true, false);
        }
      }
    }

    /**
     * The clip effect: once the walking model is loaded, create the mixer if
     * there is none yet and play the phase's clip.
     */
    method ClipEffect(walkingLoaded: bool) returns (play: Option<ClipChoice>)
      requires Valid()
      modifies this
      ensures Valid() && State() == old(State()) && mixersCreated <= 1
      ensures !walkingLoaded ==> play == None && hasMixer == old(hasMixer) && mixersCreated == old(mixersCreated)
      ensures walkingLoaded ==> play == Some(ClipFor(phase)) && hasMixer
    {
      if !walkingLoaded {
        return None;
      }
      if !hasMixer {
        hasMixer := true;
        mixersCreated := mixersCreated + 1;
      }
      play := Some(ClipFor(phase));
    }
  }
}
