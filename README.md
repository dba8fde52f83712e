# Portfolio desktop and scene: a Dafny model

This project models the interactive core of a portfolio web site: a 3D
office scene whose camera glides from an overview to a desk monitor while an
animated character walks to a chair and sits down; a retro desktop shown on
that monitor, with draggable, stackable windows and a taskbar; and the
BIOS-style loading screen in front of it all.

Each component becomes a Dafny module. Its state is a class whose fields are
the component's state variables and refs. Each handler, effect, timer
callback and frame callback becomes one method that updates those fields
atomically. Most methods are proved against a pure transition function on
datatypes, and the properties the code promises are proved about those
functions as lemmas; the simple toggles (the scene's buttons, the Start
button, the screen-size listener) state their new fields directly.

- `WindowList` (`window_list.dfy`): the window records and their
  map/filter updates. It defines the stacking invariant: ids are unique,
  z-indices are distinct and below `nextZIndex`, and the active window is on
  top. Every update is shown to preserve that invariant.
- `Desktop` (`desktop.dfy`): the window-size table for the current
  screen, the window placement rule, and `DesktopShell`, which holds the
  desktop's state (`windows`, `activeWindowId`, `showStartMenu`,
  `nextZIndex`, the auto-open guard and the screen size) and has one
  method per handler.
- `Window` (`window.dfy`): the title-bar drag (`dragRef` and `position`)
  and how a window is placed on screen.
- `AnimatedCharacter` (`character.dfy`): the character's phase machine
  (idle, walking, sitting, typing, walking to the dance spot, dancing) and
  the clip chosen for each phase. It includes the invariant of reachable
  states and the at-most-once guards of `onSeated` and `onDanceReady`.
- `AnimatedCharacterOptimized` (`character_optimized.dfy`): the GLB
  variant's own transition function and clip switch. Both are proved equal
  to those of the FBX variant, for every state and event and over every
  run of events.
- `Scene` (`scene.dfy`): the camera controller, the cubic ease-out, the
  asset-progress poller, and the scene's buttons and boot-GIF timers.
- `LoadingScreen` (`loading_screen.dfy`): the boot-line timeline, the
  readiness gate and the display predicates.

Some things the proofs bring out about the code:

- **Lost dance request.** A dance request made while the character is
  still sitting down is dropped: `prevIsDancing` records it, and the later
  switch to typing does not act on it (`DanceRequestWhileSittingIsLost`).
- **Dance Break button never shown.** The "Dance Break!" button needs
  `showDanceButton` while the desktop is hidden. `handleZoomComplete`
  turns both on in the same update, so the button can never appear
  (`SceneControls.DanceButtonVisible`).
- **Repeated `onZoomComplete`.** The camera calls `onZoomComplete` every
  time an animation ends on the monitor viewpoint, including after a reset
  or after the dance ends. The scene does not pass `onDanceCameraReady` to
  the controller, so the end of the dance camera move reaches no one.
- **Single `onComplete`.** The loading screen calls `onComplete` exactly
  once, however the click, the boot text and the assets are ordered,
  provided the assets prop never turns off again (`CompletesExactlyOnce`).

## Model

| member | source | states |
|---|---|---|
| WindowList.IndexOf | src/components/os/Desktop.tsx:95 | the first index holding the id, or none exactly when no record has it |
| WindowList.Find | src/components/os/Desktop.tsx:95 | `windows.find`: none exactly when no record has the id; otherwise the first record of the list with that id |
| WindowList.Restored | src/components/os/Desktop.tsx:98-104 | the record with the id is un-minimized and given the new z-index; every other record is unchanged |
| WindowList.Focused | src/components/os/Desktop.tsx:175-177 | the record with the id gets the new z-index; every other record is unchanged |
| WindowList.Minimized | src/components/os/Desktop.tsx:161-163 | the record with the id is minimized; every other record is unchanged |
| WindowList.MaximizeToggled | src/components/os/Desktop.tsx:168-170 | the record with the id has `isMaximized` flipped; every other record is unchanged |
| WindowList.Without | src/components/os/Desktop.tsx:156 | the filter keeps exactly the records whose id differs, and none with the id |
| WindowList.RestoredStacksOnTop | src/components/os/Desktop.tsx:98-106 | restoring with z = `nextZIndex` and then bumping it keeps the stack invariant and puts the window on top |
| WindowList.FocusedStacksOnTop | src/components/os/Desktop.tsx:173-182 | focusing keeps the stack invariant and puts the focused window on top |
| WindowList.AppendedStacksOnTop | src/components/os/Desktop.tsx:128-141 | appending a new window at z = `nextZIndex` keeps ids unique and the stack invariant, with the new window on top |
| WindowList.MinimizedKeepsStack | src/components/os/Desktop.tsx:160-165 | minimizing keeps the stack invariant |
| WindowList.MaximizeToggledKeepsStack | src/components/os/Desktop.tsx:167-171 | toggling maximize keeps the stack invariant and the active window on top |
| WindowList.WithoutKeepsStack | src/components/os/Desktop.tsx:155-158 | closing a window keeps the stack invariant |
| WindowList.OnTopIsMaximum | src/components/os/Desktop.tsx:173-182 | the active window's z-index is strictly greater than that of every other window |
| WindowList.MaximizeTwiceIsIdentity | src/components/os/Desktop.tsx:167-171 | maximizing twice restores the list |
| WindowList.WithoutAbsent | src/components/os/Desktop.tsx:155-158 | closing an id that is not open leaves the list unchanged |
| WindowList.WithoutRemovesExactlyOne | src/components/os/Desktop.tsx:155-158 | with unique ids, closing removes exactly the one record and keeps the order of the rest |
| WindowList.AtMostOnePressed | src/components/os/Taskbar.tsx:83 | at most one taskbar button is drawn pressed (active and not minimized) |
| Desktop.IeSize | src/components/os/Desktop.tsx:40-41 | the IE window is the floor of 85% of the screen width and of 85% of the screen height less the 40-pixel taskbar |
| Desktop.ConfigFor | src/components/os/Desktop.tsx:28-70 | a configuration exists exactly for the five known ids; the IE entry has its title, content and screen-dependent size |
| Desktop.ConfigScreenIndependent | src/components/os/Desktop.tsx:49-68 | every entry except IE has a fixed size, whatever the screen |
| Desktop.RoundHalf | src/components/os/Desktop.tsx:120-121 | `Math.round(n / 2)` lies within half a pixel of n / 2, halves rounding up |
| Desktop.IeCentred | src/components/os/Desktop.tsx:116-122 | the IE window's left and right margins differ by at most one pixel, and so do its top and bottom margins above the taskbar |
| Desktop.CascadeOffsets | src/components/os/Desktop.tsx:123-126 | other windows start at (50, 30) plus an equal offset of 0 to 120 in steps of 30 that repeats every five open windows |
| Desktop.DesktopShell.constructor | src/components/os/Desktop.tsx:73-79 | the initial state: no windows, no active window, menu closed, next z-index 1, no screen size yet |
| Desktop.DesktopShell.UpdateScreenSize | src/components/os/Desktop.tsx:82-90 | stores the screen size and marks the screen ready; nothing else changes |
| Desktop.DesktopShell.OpenWindow | src/components/os/Desktop.tsx:92-145 | an open window is restored on top and activated; an id without its own table entry changes nothing; a known new id appends its record, placed and sized by the table, activates it and closes the menu; the stack invariant is kept |
| Desktop.DesktopShell.AutoOpenEffect | src/components/os/Desktop.tsx:148-153 | opens IE exactly once, on the first run after the screen is ready: an open IE window is restored on top, otherwise its new record is appended and the menu closed; IE is activated and `nextZIndex` grows by one; later runs change nothing |
| Desktop.DesktopShell.CloseWindow | src/components/os/Desktop.tsx:155-158 | removes the window's record and clears the active window |
| Desktop.DesktopShell.MinimizeWindow | src/components/os/Desktop.tsx:160-165 | minimizes the window and clears the active window |
| Desktop.DesktopShell.MaximizeWindow | src/components/os/Desktop.tsx:167-171 | toggles the window's maximized flag; the active window is unchanged |
| Desktop.DesktopShell.FocusWindow | src/components/os/Desktop.tsx:173-182 | raises the window to the current next z-index, activates it and bumps the counter |
| Desktop.DesktopShell.TaskbarWindowClick | src/components/os/Desktop.tsx:184-206 | an unknown id changes nothing; a minimized window is restored on top; the active window is minimized; any other window is focused |
| Desktop.DesktopShell.StartClick | src/components/os/Desktop.tsx:208-210 | toggles the start menu and nothing else |
| Desktop.DesktopShell.StartMenuItemClick | src/components/os/Desktop.tsx:212-222 | "shutdown" only closes the menu; any other item restores an open window on top, appends the new record of a known closed one (closing the menu), and changes nothing for an id without a table entry |
| Window.Dragged | src/components/os/Window.tsx:51-59 | the dragged position follows the pointer exactly in x; y follows it but is clamped at 0 |
| Window.DragBackToStart | src/components/os/Window.tsx:51-59 | moving the pointer back to where the drag began puts the window back where it was |
| Window.DragIsRigid | src/components/os/Window.tsx:51-59 | between two pointer positions the window moves by exactly the pointer's displacement, while unclamped |
| Window.Render | src/components/os/Window.tsx:73-88 | a minimized window is not drawn; a maximized one fills the desktop from (0, 0); otherwise it sits at its position with its size, always at its z-index |
| Window.MaximizeKeepsPosition | src/components/os/Window.tsx:83-86 | maximizing a shown, not yet dragged window places it over the whole desktop at (0, 0) while its record keeps position and size; toggling back places it exactly as before |
| Window.DraggableWindow.constructor | src/components/os/Window.tsx:36-38 | starts at the initial position and size with no drag in progress |
| Window.DraggableWindow.MouseDown | src/components/os/Window.tsx:40-50 | on a maximized window nothing happens; otherwise the window is focused once and the drag origin is recorded |
| Window.DraggableWindow.MouseMove | src/components/os/Window.tsx:51-59 | without a drag nothing moves; during a drag the position becomes the dragged position, never above the top edge |
| Window.DraggableWindow.MouseUp | src/components/os/Window.tsx:61-65 | ends the drag and leaves the window where it is |
| AnimatedCharacter.ClipFor | src/components/3d/AnimatedCharacter.tsx:79-107 | the walking clip plays in idle and both walking phases, sit-to-type in sitting, typing in typing, dance in dancing; only sitting plays once and clamps |
| AnimatedCharacter.Start | src/components/3d/AnimatedCharacter.tsx:48-52 | the start signal moves an idle character to walking and does nothing else |
| AnimatedCharacter.ToggleDance | src/components/3d/AnimatedCharacter.tsx:55-66 | a rising dance signal while typing goes to the dance spot and re-arms `onDanceReady`; a falling one while dancing walks back and re-arms `onSeated`; the signal is always remembered |
| AnimatedCharacter.Frame | src/components/3d/AnimatedCharacter.tsx:113-170 | only the walking phases move the character; on arrival at the chair it sits facing the desk and arms the seat timer; on arrival at the dance spot it dances facing the camera and calls `onDanceReady` unless already called |
| AnimatedCharacter.SeatTimerFires | src/components/3d/AnimatedCharacter.tsx:136-142 | after the delay the character types, and `onSeated` is called unless already called |
| AnimatedCharacter.InitialInvariant | src/components/3d/AnimatedCharacter.tsx:34-39 | the initial state is reachable-consistent: idle at the start spot, no timers, no callbacks made |
| AnimatedCharacter.StepPreservesInvariant | src/components/3d/AnimatedCharacter.tsx:47-170 | every event keeps the invariant: a seat timer is pending exactly while sitting, each resting phase has its pose, typing implies `onSeated` was called, dancing implies `onDanceReady` was |
| AnimatedCharacter.PoseChangesOnlyWhileWalking | src/components/3d/AnimatedCharacter.tsx:118-169 | outside the two walking phases no event moves or turns the character |
| AnimatedCharacter.OnSeatedAtMostOnce | src/components/3d/AnimatedCharacter.tsx:136-142 | between two re-arms, `onSeated` is called at most once over any run, and not at all once called |
| AnimatedCharacter.OnDanceReadyAtMostOnce | src/components/3d/AnimatedCharacter.tsx:159-168 | between two re-arms, `onDanceReady` is called at most once over any run, and not at all once called |
| AnimatedCharacter.FirstSitDown | src/components/3d/AnimatedCharacter.tsx:47-142 | start, walk, arrive and the seat timer lead to typing at the chair with exactly one `onSeated` call |
| AnimatedCharacter.DanceRequestWhileSittingIsLost | src/components/3d/AnimatedCharacter.tsx:55-66 | a dance request made while sitting leaves the character typing even after the seat timer and a repeated request |
| AnimatedCharacter.Character.constructor | src/components/3d/AnimatedCharacter.tsx:33-39 | starts in the initial state with no mixer |
| AnimatedCharacter.Character.StartEffect | src/components/3d/AnimatedCharacter.tsx:48-52 | applies `Start` and keeps the invariant |
| AnimatedCharacter.Character.DanceEffect | src/components/3d/AnimatedCharacter.tsx:55-66 | applies `ToggleDance` and keeps the invariant |
| AnimatedCharacter.Character.OnFrame | src/components/3d/AnimatedCharacter.tsx:113-170 | applies `Frame`, returns the callbacks made, and keeps the invariant |
| AnimatedCharacter.Character.OnSeatTimer | src/components/3d/AnimatedCharacter.tsx:136-142 | applies `SeatTimerFires`, returns the callbacks made, and keeps the invariant |
| AnimatedCharacter.Character.ClipEffect | src/components/3d/AnimatedCharacter.tsx:69-110 | without the walking model nothing happens; otherwise the mixer exists (created at most once) and the phase's clip plays |
| AnimatedCharacterOptimized.SameTransitionFunction | src/components/3d/AnimatedCharacterOptimized.tsx:67-183 | the GLB variant's start, dance, frame and seat-timer steps equal the FBX variant's on every state and event |
| AnimatedCharacterOptimized.SameClipMapping | src/components/3d/AnimatedCharacterOptimized.tsx:95-122 | the GLB variant chooses the same clip and loop mode for every phase |
| AnimatedCharacterOptimized.SameRuns | src/components/3d/AnimatedCharacterOptimized.tsx:67-183 | every run of events ends in the same state in both variants |
| AnimatedCharacterOptimized.OptimizedCharacter.constructor | src/components/3d/AnimatedCharacterOptimized.tsx:34-40 | starts in the shared initial state with no mixer |
| AnimatedCharacterOptimized.OptimizedCharacter.MixerEffect | src/components/3d/AnimatedCharacterOptimized.tsx:55-64 | creates the mixer once the clone is ready; at most one mixer is ever created |
| AnimatedCharacterOptimized.OptimizedCharacter.ClipEffect | src/components/3d/AnimatedCharacterOptimized.tsx:86-123 | plays the phase's clip only when the mixer and clone exist |
| AnimatedCharacterOptimized.OptimizedCharacter.StartEffect | src/components/3d/AnimatedCharacterOptimized.tsx:67-71 | applies the variant's start step and keeps the shared invariant |
| AnimatedCharacterOptimized.OptimizedCharacter.DanceEffect | src/components/3d/AnimatedCharacterOptimized.tsx:74-83 | applies the variant's dance step and keeps the shared invariant |
| AnimatedCharacterOptimized.OptimizedCharacter.OnFrame | src/components/3d/AnimatedCharacterOptimized.tsx:126-183 | applies the variant's frame step, returns the callbacks made, and keeps the shared invariant |
| AnimatedCharacterOptimized.OptimizedCharacter.OnSeatTimer | src/components/3d/AnimatedCharacterOptimized.tsx:149-155 | applies the variant's seat-timer step, returns the callbacks made, and keeps the shared invariant |
| Scene.EaseEndpoints | src/components/3d/Scene.tsx:175 | the ease-out maps 0 to 0 and 1 to 1 |
| Scene.EaseMonotone | src/components/3d/Scene.tsx:175 | on [0, 1] the ease-out stays within [0, 1] and never decreases |
| Scene.ApproachEffect | src/components/3d/Scene.tsx:85-98 | the approach starts only when requested, not yet done and no animation is running, at step 0.004 toward the approach viewpoint; otherwise nothing changes |
| Scene.ZoomEffect | src/components/3d/Scene.tsx:100-113 | before the first completion a zoom request always restarts progress at 0 toward the monitor at step 0.02, overriding a running approach |
| Scene.DanceEffect | src/components/3d/Scene.tsx:116-136 | ignored until the first completion; then dancing targets the dance viewpoint and not dancing the monitor, at the current speed |
| Scene.ResetEffect | src/components/3d/Scene.tsx:139-150 | a positive trigger after the first completion retargets the monitor; otherwise nothing changes |
| Scene.Frame | src/components/3d/Scene.tsx:152-179 | no effect unless animating with controls; otherwise progress advances by the step; at 1 or more it is clamped to 1, animation stops, the camera is on the target, and the monitor target sets `hasCompleted` and calls `onZoomComplete` while the dance target calls `onDanceCameraReady`; below 1 the camera is at the eased fraction |
| Scene.Orbit | src/components/3d/Scene.tsx:182-189 | a user move takes effect only at rest; during an animation the frame's interpolation overwrites the pose, so the model drops the move there |
| Scene.InitialCameraInvariant | src/components/3d/Scene.tsx:74-82 | the initial refs satisfy the controller invariant |
| Scene.CameraStepPreservesInvariant | src/components/3d/Scene.tsx:84-179 | every effect and frame keeps progress in [0, 1] (below 1 while animating), the speed one of the two steps, and the camera part-way only while animating |
| Scene.FlagsAreMonotone | src/components/3d/Scene.tsx:84-171 | `hasCompleted` and `hasApproached` never revert |
| Scene.ApproachAtMostOnce | src/components/3d/Scene.tsx:86-97 | over any run the approach animation starts at most once |
| Scene.FramesAdvance | src/components/3d/Scene.tsx:155-178 | after k frames of a fresh animation, progress is k times the step while that stays below 1 |
| Scene.FinishesAtFrame | src/components/3d/Scene.tsx:155-171 | an animation whose step goes into 1 exactly n times is still running after n - 1 frames and finishes on its target at frame n, making the target's callback |
| Scene.ZoomTakesFiftyFrames | src/components/3d/Scene.tsx:100-167 | the zoom to the monitor runs for exactly 50 frames, then sets `hasCompleted` and calls `onZoomComplete` |
| Scene.ApproachTakes250Frames | src/components/3d/Scene.tsx:85-171 | the approach runs for exactly 250 frames and calls nothing when it ends |
| Scene.CameraController.constructor | src/components/3d/Scene.tsx:74-82 | the refs start as the initial controller state |
| Scene.CameraController.OnApproachChanged | src/components/3d/Scene.tsx:85-98 | applies the approach effect and keeps the invariant |
| Scene.CameraController.OnZoomChanged | src/components/3d/Scene.tsx:100-113 | applies the zoom effect and keeps the invariant |
| Scene.CameraController.OnDancingChanged | src/components/3d/Scene.tsx:116-136 | applies the dance effect and keeps the invariant |
| Scene.CameraController.OnResetChanged | src/components/3d/Scene.tsx:139-150 | applies the reset effect and keeps the invariant |
| Scene.CameraController.OnFrame | src/components/3d/Scene.tsx:152-179 | applies the frame step, returns the callback made, and keeps the invariant |
| Scene.CameraController.OnUserOrbit | src/components/3d/Scene.tsx:182-189 | applies the orbit step and keeps the invariant |
| Scene.Poll | src/components/3d/Scene.tsx:368-392 | a tick after the interval is cleared, or without store state, does nothing; otherwise a value different from the last one is reported and remembered, and `onReady` is scheduled exactly the first time loading is inactive at 100, which also clears the interval |
| Scene.ReadyAtMostOnce | src/components/3d/Scene.tsx:383-388 | over any run of ticks and re-subscriptions, `onReady` is scheduled at most once |
| Scene.ProgressTracker.constructor | src/components/3d/Scene.tsx:364-365 | starts with last progress -1, not notified, polling |
| Scene.ProgressTracker.OnTick | src/components/3d/Scene.tsx:370-389 | performs one poll, returning what it reported and whether it scheduled `onReady` |
| Scene.SceneControls.constructor | src/components/3d/Scene.tsx:405-410 | the initial toggles: no reset, not dancing, no dance button, no desktop, boot GIF on, not full screen |
| Scene.SceneControls.HandleReset | src/components/3d/Scene.tsx:433-435 | increments the reset trigger by one and changes nothing else |
| Scene.SceneControls.HandleDanceBreak | src/components/3d/Scene.tsx:478-485 | sets dancing and changes nothing else |
| Scene.SceneControls.HandleBackToWork | src/components/3d/Scene.tsx:487-495 | clears dancing and changes nothing else |
| Scene.SceneControls.HandleZoomComplete | src/components/3d/Scene.tsx:437-455 | shows the dance button and the desktop, leaving the other flags as they were |
| Scene.SceneControls.BootGifTimer | src/components/3d/Scene.tsx:458-476 | the 2-second timer runs only while the desktop shows the boot GIF and ends the GIF |
| Scene.SceneControls.FullScreenTimer | src/components/3d/Scene.tsx:467-469 | once the GIF has ended, the desktop goes full screen |
| Scene.SceneControls.DanceButtonVisible | src/components/3d/Scene.tsx:645-656 | the "Dance Break!" button is never visible |
| LoadingScreen.BootLinesNonDecreasing | src/components/hero/LoadingScreen.tsx:12-22 | the boot-line delays never decrease along the array |
| LoadingScreen.DueIsPrefix | src/components/hero/LoadingScreen.tsx:36-48 | with non-decreasing delays, the lines whose timers have fired by any time form a prefix of the array |
| LoadingScreen.DueSplit | src/components/hero/LoadingScreen.tsx:36-48 | when exactly the first k lines are due by a time, the timeline at that time is the first k texts |
| LoadingScreen.TimersFireInArrayOrder | src/components/hero/LoadingScreen.tsx:12-46 | since the delays never decrease, the next timer to run (earliest deadline, ties in scheduling order) is that of the first line not yet shown |
| LoadingScreen.ShownLinesAreDue | src/components/hero/LoadingScreen.tsx:12-46 | once exactly the timers due by time t have run, the lines shown are the timeline's lines at t |
| LoadingScreen.CompletionFires | src/components/hero/LoadingScreen.tsx:29-58 | the completion effect calls `onComplete` exactly when the screen has just become fully ready and clicked |
| LoadingScreen.PromptsExclusive | src/components/hero/LoadingScreen.tsx:105-163 | the enter prompt excludes every other indicator, and the sound hint excludes "Preparing" |
| LoadingScreen.SomeIndicatorUntilComplete | src/components/hero/LoadingScreen.tsx:105-163 | some indicator is shown exactly until the screen is fully ready and clicked |
| LoadingScreen.LineFires | src/components/hero/LoadingScreen.tsx:36-46 | the timer of line i, when it is the next to run, appends that line's own text and leaves the pending set; the last line's timer also schedules boot completion; otherwise nothing changes |
| LoadingScreen.BootTimerFires | src/components/hero/LoadingScreen.tsx:42-44 | the 500 ms timer marks the boot text complete |
| LoadingScreen.InitialGateInvariant | src/components/hero/LoadingScreen.tsx:25-27 | the initial state satisfies the gate invariant |
| LoadingScreen.GateStepPreservesInvariant | src/components/hero/LoadingScreen.tsx:36-62 | the pending timers are those of the lines not shown, the lines shown are always the first boot texts in order, and the boot text completes only after the last line |
| LoadingScreen.FlagsAreMonotone | src/components/hero/LoadingScreen.tsx:25-62 | `hasClicked` and `bootTextComplete` never revert, and shown lines stay |
| LoadingScreen.CompletesExactlyOnce | src/components/hero/LoadingScreen.tsx:29-62 | while the assets do not revert, `onComplete` is called exactly once over a run that makes the screen ready and clicked, in any order (an early click is remembered), and never otherwise |
| LoadingScreen.LoadingGate.constructor | src/components/hero/LoadingScreen.tsx:25-27 | starts with no lines, every boot-line timer pending, the boot timer not scheduled, not complete and not clicked |
| LoadingScreen.LoadingGate.OnLineTimer | src/components/hero/LoadingScreen.tsx:37-46 | applies line i's timer, returns whether `onComplete` was called, keeps the invariant, and appends the first text not yet shown |
| LoadingScreen.LoadingGate.OnBootTimer | src/components/hero/LoadingScreen.tsx:42-44 | applies the boot timer, returns whether `onComplete` was called, and keeps the invariant |
| LoadingScreen.LoadingGate.OnClick | src/components/hero/LoadingScreen.tsx:60-62 | records the click, returns whether `onComplete` was called, and keeps the invariant |
| LoadingScreen.LoadingGate.OnAssetsChanged | src/components/hero/LoadingScreen.tsx:24-58 | takes the new `assetsReady` value, returns whether `onComplete` was called, and keeps the invariant |

## Left out

- Three.js, react-three-fiber and drei: the animation mixer's playback, the model loaders, the orbit controls' own motion, lighting and environment. These are foreign library calls; the model keeps only whether a mixer exists and which clip is requested.
- The character's per-frame walk step (square root, normalisation, `atan2`). Arrival is a boolean input to the frame, and the new position and heading are inputs too. Headings are kept in units of π.
- Camera interpolation: camera poses are named viewpoints, and a pose part-way is the target plus the eased fraction reached. The `lerpVectors` calls and the start pose refs are not modelled.
- Scene.FinishesAtFrame: progress is an exact real, so 0.02 and 0.004 add up exactly; with floating-point accumulation the last frame may come one frame earlier or later.
- Scene.ZoomTakesFiftyFrames: under floating point the zoom may take 49 or 51 frames.
- Scene.ApproachTakes250Frames: under floating point the approach may take 249 or 251 frames.
- Desktop.IeSize: the 0.85 factor is taken as the exact fraction 85/100; floating-point multiplication can differ from it by one pixel.
- Wall-clock timers (the 2500 ms seat timer, the boot-line delays, the 500 ms boot completion, the 2000 ms boot GIF, the 100 ms full-screen and ready delays, the 50 ms poll interval) are explicit events. A timer event with nothing scheduled does nothing. The ready callback's 100 ms delay is represented by the "scheduled" flag.
- React batching and stale closures: each handler, effect and frame callback is one atomic update of the current state. Effects are events that carry the current prop values. `AnimatedCharacter.Frame` acts on the phase current at that frame. The functional `setState` updaters therefore read the same state as the handler.
- The window's own `onClick={onFocus}` (src/components/os/Window.tsx:89) is covered by `DesktopShell.FocusWindow`. The double focus from a press followed by a click on the title bar is not modelled as one sequence.
- The parent's `onZoomComplete` callback, which `SceneControls.HandleZoomComplete` calls after showing the desktop (src/components/3d/Scene.tsx:437-455): it belongs to the page outside this model.
- Audio playback, autoplay rejection and the clean-up effects that stop audio: these are I/O.
- The `resize` listener itself: `DesktopShell.UpdateScreenSize` takes the new size as a parameter.
- The name/clock overlay, the loading overlay inside the canvas, the progress bar width and `Math.round` of the percentage: these are presentational only.
- Mobile camera positions and `isMobile` styling. The mobile and desktop monitor positions are equal, so the completion test is unaffected.
- Window contents, icons, the CRT effect, the hero overlay, the boot sequence and the page layout: these are presentational files.
- Desktop.ConfigFor: the ids that reach the lookup are the five table ids ("ie" from the auto-open effect, src/components/os/Desktop.tsx:151; "about", "projects", "experience" and "contact" from the start menu and the desktop icons, src/components/os/Taskbar.tsx:122-127 and src/components/os/Desktop.tsx:240-260), while the menu's "shutdown" is intercepted before it (src/components/os/Desktop.tsx:212-222) and the taskbar's window buttons pass only ids already open. The source's plain object lookup would also take inherited keys such as "constructor" or "toString" as present and append an undefined record; the model treats every id without its own table entry as unknown.
- Scene.Orbit: the controls' `enabled` flag is read at render time (src/components/3d/Scene.tsx:188), so it can be stale both ways. A move during an animation that began after the last render is dropped here, where the source applies it and the next frame overwrites it. A move at rest after an animation that ended without a re-render (the approach calls nothing when it ends, src/components/3d/Scene.tsx:171-172) is applied here, where the source's still-disabled controls ignore it.
- Dafny strings are sequences of characters and ids are compared as sequences; JavaScript's UTF-16 details play no part here.
