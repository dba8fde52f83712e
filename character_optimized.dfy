/**
 * The GLB variant of the character (src/components/3d/AnimatedCharacterOptimized.tsx).
 * It has its own copy of the phase machine and of the clip selection; both
 * are written out here as that file has them and proved equal to the ones
 * of src/components/3d/AnimatedCharacter.tsx. What it adds is a separate
 * effect that creates the animation mixer once, for the cloned scene.
 */
module AnimatedCharacterOptimized {
  import opened Wrappers
  import AC = AnimatedCharacter

  /** The clip switch of this file. */
  function ClipFor(p: AC.Phase): AC.ClipChoice {
    match p
    case Idle => AC.ClipChoice(AC.WalkingClip, AC.LoopRepeat)
    case Walking => AC.ClipChoice(AC.WalkingClip, AC.LoopRepeat)
    case WalkingToDance => AC.ClipChoice(AC.WalkingClip, AC.LoopRepeat)
    case Sitting => AC.ClipChoice(AC.SitToTypeClip, AC.LoopOnceClamped)
    case Typing => AC.ClipChoice(AC.TypingClip, AC.LoopRepeat)
    case Dancing => AC.ClipChoice(AC.DanceClip, AC.LoopRepeat)
  }

  /** The start effect of this file. */
  function Start(s: AC.CharState, startAnimation: bool): AC.CharState {
    if startAnimation && s.phase == AC.Idle then s.(phase := AC.Walking) else s
  }

  /** The dance-toggle effect of this file. */
  function ToggleDance(s: AC.CharState, isDancing: bool): AC.CharState {
    if isDancing && !s.prevIsDancing && s.phase == AC.Typing then
      s.(phase := AC.WalkingToDance, hasCalledDanceReady := false, prevIsDancing := isDancing)
    else if !isDancing && s.prevIsDancing && s.phase == AC.Dancing then
      s.(phase := AC.Walking, hasCalledOnSeated := false, prevIsDancing := isDancing)
    else
      s.(prevIsDancing := isDancing)
  }

  /** The walk step toward a target, or the snap on arrival, of this file's frame callback. */
  function Frame(s: AC.CharState, arrived: bool, stepPosition: AC.Vec3, stepRotation: real): (AC.CharState, AC.Fired) {
    match s.phase
    case Walking =>
      if arrived then
        (s.(position := AC.ChairPosition, rotation := AC.SeatedRotation, phase := AC.Sitting,
            pendingSeatTimers := s.pendingSeatTimers + 1), AC.NoneFired)
      else (s.(position := stepPosition, rotation := stepRotation), AC.NoneFired)
    case WalkingToDance =>
      if arrived then
        (s.(position := AC.DancePosition, rotation := AC.FacingCamera, phase := AC.Dancing,
            hasCalledDanceReady := true), AC.Fired(false, !s.hasCalledDanceReady))
      else (s.(position := stepPosition, rotation := stepRotation), AC.NoneFired)
    case _ => (s, AC.NoneFired)
  }

  /** The seat timer of this file. */
  function SeatTimerFires(s: AC.CharState): (AC.CharState, AC.Fired) {
    if s.pendingSeatTimers > 0 then
      (s.(phase := AC.Typing, hasCalledOnSeated := true, pendingSeatTimers := s.pendingSeatTimers - 1),
       AC.Fired(!s.hasCalledOnSeated, false))
    else (s, AC.NoneFired)
  }

  function Step(s: AC.CharState, e: AC.Event): (AC.CharState, AC.Fired) {
    match e
    case StartEffect(b) => (Start(s, b), AC.NoneFired)
    case DanceEffect(d) => (ToggleDance(s, d), AC.NoneFired)
    case FrameTick(arrived, p, rot) => Frame(s, arrived, p, rot)
    case SeatTimer => SeatTimerFires(s)
  }

  /** Both files implement the same transition function. */
  lemma SameTransitionFunction(s: AC.CharState, e: AC.Event)
    ensures Step(s, e) == AC.Step(s, e)
  {
    match e
    case StartEffect(b) =>
    case DanceEffect(d) =>
    case FrameTick(arrived, p, rot) =>
    case SeatTimer =>
  }

  /** Both files select the same clip and loop mode for every phase. */
  lemma SameClipMapping(p: AC.Phase)
    ensures ClipFor(p) == AC.ClipFor(p)
  {
  }

  /** Hence whole runs agree too, and the guard lemmas carry over. */
  function Run(s: AC.CharState, es: seq<AC.Event>): AC.CharState
    decreases |es|
  {
    if es == [] then s else Run(Step(s, es[0]).0, es[1..])
  }

  lemma {:induction false} SameRuns(s: AC.CharState, es: seq<AC.Event>)
    ensures Run(s, es) == AC.Run(s, es)
    decreases |es|
  {
    if es != [] {
      SameTransitionFunction(s, es[0]);
      SameRuns(Step(s, es[0]).0, es[1..]);
    }
  }

  /** The `AnimatedCharacterOptimized` component's mutable state. */
  class OptimizedCharacter {
    var phase: AC.Phase
    var position: AC.Vec3
    var rotation: real
    var prevIsDancing: bool
    var hasCalledOnSeated: bool
    var hasCalledDanceReady: bool
    var pendingSeatTimers: nat
    /** `mixerRef.current != null`. */
    var hasMixer: bool
    /** How many animation mixers have been created. */
    ghost var mixersCreated: nat

    function State(): AC.CharState
      reads this
    {
      AC.CharState(phase, position, rotation, prevIsDancing, hasCalledOnSeated, hasCalledDanceReady, pendingSeatTimers)
    }

    ghost predicate Valid()
      reads this
    {
      AC.Invariant(State()) && mixersCreated == (if hasMixer then 1 else 0)
    }

    constructor ()
      ensures Valid() && State() == AC.Initial() && !hasMixer
    {
      phase, position, rotation := AC.Idle, AC.StartPosition, 0.0;
      prevIsDancing, hasCalledOnSeated, hasCalledDanceReady := false, false, false;
      pendingSeatTimers := 0;
      hasMixer := false;
      mixersCreated := 0;
    }

    /** The mixer effect: once the clone exists, create the mixer unless there is one. */
    method MixerEffect(cloneReady: bool)
      requires Valid()
      modifies this
      ensures Valid() && State() == old(State()) && mixersCreated <= 1
      ensures hasMixer == (old(hasMixer) || cloneReady)
    {
      if cloneReady && !hasMixer {
        hasMixer := true;
        mixersCreated := mixersCreated + 1;
      }
    }

    /** The clip effect: with a mixer and the clone, play the phase's clip from its start. */
    method ClipEffect(cloneReady: bool) returns (play: Option<AC.ClipChoice>)
      requires Valid()
      ensures play == (if hasMixer && cloneReady then Some(ClipFor(phase)) else None)
    {
      if !hasMixer || !cloneReady {
        return None;
      }
      play := Some(ClipFor(phase));
    }

    method StartEffect(startAnimation: bool)
      requires Valid()
      modifies this
      ensures Valid() && State() == Start(old(State()), startAnimation)
      ensures hasMixer == old(hasMixer) && mixersCreated == old(mixersCreated)
    {
      SameTransitionFunction(State(), AC.StartEffect(startAnimation));
      AC.StepPreservesInvariant(State(), AC.StartEffect(startAnimation));
      if startAnimation && phase == AC.Idle {
        phase := AC.Walking;
      }
    }

    method DanceEffect(isDancing: bool)
      requires Valid()
      modifies this
      ensures Valid() && State() == ToggleDance(old(State()), isDancing)
      ensures hasMixer == old(hasMixer) && mixersCreated == old(mixersCreated)
    {
      SameTransitionFunction(State(), AC.DanceEffect(isDancing));
      AC.StepPreservesInvariant(State(), AC.DanceEffect(isDancing));
      if isDancing && !prevIsDancing && phase == AC.Typing {
        phase := AC.WalkingToDance;
        hasCalledDanceReady := false;
      } else if !isDancing && prevIsDancing && phase == AC.Dancing {
        phase := AC.Walking;
        hasCalledOnSeated := false;
      }
      prevIsDancing := isDancing;
    }

    /** The frame callback; returns which callbacks it invoked. */
    method OnFrame(arrived: bool, stepPosition: AC.Vec3, stepRotation: real) returns (fired: AC.Fired)
      requires Valid()
      modifies this
      ensures Valid() && (State(), fired) == Frame(old(State()), arrived, stepPosition, stepRotation)
      ensures hasMixer == old(hasMixer) && mixersCreated == old(mixersCreated)
    {
      SameTransitionFunction(State(), AC.FrameTick(arrived, stepPosition, stepRotation));
      AC.StepPreservesInvariant(State(), AC.FrameTick(arrived, stepPosition, stepRotation));
      fired := AC.NoneFired;
      if phase == AC.Walking {
        if !arrived {
          position, rotation := stepPosition, stepRotation;
        } else {
          position, rotation, phase := AC.ChairPosition, AC.SeatedRotation, AC.Sitting;
          pendingSeatTimers := pendingSeatTimers + 1;
        }
      } else if phase == AC.WalkingToDance {
        if !arrived {
          position, rotation := stepPosition, stepRotation;
        } else {
          position, rotation, phase := AC.DancePosition, AC.FacingCamera, AC.Dancing;
          if !hasCalledDanceReady {
            hasCalledDanceReady := true;
            fired := AC.Fired(false, true);
          }
        }
      }
    }

    /** The 2500 ms seat timer fires. */
    method OnSeatTimer() returns (fired: AC.Fired)
      requires Valid()
      modifies this
      ensures Valid() && (State(), fired) == SeatTimerFires(old(State()))
      ensures hasMixer == old(hasMixer) && mixersCreated == old(mixersCreated)
    {
      SameTransitionFunction(State(), AC.SeatTimer);
      AC.StepPreservesInvariant(State(), AC.SeatTimer);
      fired := AC.NoneFired;
      if pendingSeatTimers > 0 {
        pendingSeatTimers := pendingSeatTimers - 1;
        phase := AC.Typing;
        if !hasCalledOnSeated {
          hasCalledOnSeated := true;
          fired := AC.Fired(true, false);
        }
      }
    }
  }
}
