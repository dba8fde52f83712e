/**
 * The desktop shell's window manager (src/components/os/Desktop.tsx): the
 * table of openable windows, the placement rule for a new window, and the
 * component state (`windows`, `activeWindowId`, `nextZIndex`,
 * `showStartMenu`) that each handler updates as one atomic step.
 */
module Desktop {
  import opened Wrappers
  import opened WindowList

  /** Height of the taskbar, subtracted from the screen height. */
  const TaskbarHeight: int := 40

  /** Everything a `getWindowConfigs` entry holds. */
  datatype WindowConfig = WindowConfig(title: string, content: Content, size: Size)

  /** The ids that have an entry in the configuration table. */
  const KnownIds: set<string> := {"ie", "about", "projects", "experience", "contact"}

  /**
   * The size of the "ie" window: 85% of the screen width and of the height
   * left above the taskbar, rounded down.
   */
  function IeSize(screen: Size): (s: Size)
    ensures 100 * s.width <= 85 * screen.width < 100 * s.width + 100
    ensures 100 * s.height <= 85 * (screen.height - TaskbarHeight) < 100 * s.height + 100
  {
    Size(screen.width * 85 / 100, (screen.height - TaskbarHeight) * 85 / 100)
  }

  /** `getWindowConfigs(screenWidth, screenHeight)[id]`. */
  function ConfigFor(id: string, screen: Size): (c: Option<WindowConfig>)
    ensures c.Some? <==> id in KnownIds
    ensures id == "ie" ==> c == Some(WindowConfig("Aakash Yadav - Portfolio", IEHome, IeSize(screen)))
  {
    match id
    case "ie" => Some(WindowConfig("Aakash Yadav - Portfolio", IEHome, IeSize(screen)))
    case "about" => Some(WindowConfig("About Me", About, Size(450, 400)))
    case "projects" => Some(WindowConfig("My Projects", Projects, Size(550, 450)))
    case "experience" => Some(WindowConfig("Work Experience", Experience, Size(500, 420)))
    case "contact" => Some(WindowConfig("Contact", Contact, Size(400, 380)))
    case _ => None
  }

  /** Only the "ie" entry depends on the screen size. */
  lemma ConfigScreenIndependent(id: string, s1: Size, s2: Size)
    requires id != "ie"
    ensures ConfigFor(id, s1) == ConfigFor(id, s2)
  {
  }

  /**
   * `Math.round(n / 2)`: the integer nearest to n/2, halves rounded up, as
   * JavaScript's `Math.round` does.
   */
  function RoundHalf(n: int): (r: int)
    ensures r as real - 0.5 <= n as real / 2.0 < r as real + 0.5
  {
    (n + 1) / 2
  }

  /**
   * Where `openWindow` puts a new window: "ie" is centred in the area above
   * the taskbar, every other window cascades from (50, 30) by 30 pixels per
   * open window, wrapping after five.
   */
  function Placement(id: string, size: Size, screen: Size, count: nat): (p: Point)
  {
    if id == "ie" then
      Point(RoundHalf(screen.width - size.width), RoundHalf(screen.height - TaskbarHeight - size.height))
    else
      var offset := (count % 5) * 30;
      Point(50 + offset, 30 + offset)
  }

  /**
   * The "ie" window is centred: its left margin equals its right margin or
   * exceeds it by one pixel, and likewise top against bottom above the taskbar.
   */
  lemma IeCentred(size: Size, screen: Size, count: nat)
    ensures var p := Placement("ie", size, screen, count);
      var right := screen.width - (p.x + size.width);
      var bottom := screen.height - TaskbarHeight - (p.y + size.height);
      right <= p.x <= right + 1 && bottom <= p.y <= bottom + 1
  {
    var p := Placement("ie", size, screen, count);
    var n := screen.width - size.width;
    var m := screen.height - TaskbarHeight - size.height;
    assert n <= 2 * p.x <= n + 1 by { assert p.x == RoundHalf(n); }
    assert m <= 2 * p.y <= m + 1 by { assert p.y == RoundHalf(m); }
  }

  /** Other windows cascade: offsets 0, 30, 60, 90, 120, repeating every five windows. */
  lemma CascadeOffsets(id: string, size: Size, screen: Size, count: nat)
    requires id != "ie"
    ensures var p := Placement(id, size, screen, count);
      p.x - 50 == p.y - 30 == 30 * (count % 5) &&
      p.x - 50 in {0, 30, 60, 90, 120}
    ensures Placement(id, size, screen, count + 5) == Placement(id, size, screen, count)
  {
    assert (count + 5) % 5 == count % 5;
  }

  /** The record `openWindow` appends for an id with configuration `c`. */
  function NewRecord(id: string, c: WindowConfig, screen: Size, count: nat, z: int): (w: WindowRecord)
  {
    WindowRecord(id, c.title, false, false, z, c.content, Placement(id, c.size, screen, count), c.size)
  }

  /** The `Desktop` component's state. */
  class DesktopShell {
    var windows: seq<WindowRecord>
    var activeWindowId: Option<string>
    var showStartMenu: bool
    var nextZIndex: int
    var hasOpenedIE: bool
    var screen: Size
    var isScreenReady: bool

    ghost predicate Valid()
      reads this
    {
      nextZIndex >= 1 && Stacked(windows, nextZIndex) && ActiveOnTop(windows, activeWindowId, nextZIndex)
    }

    constructor ()
      ensures Valid()
      ensures windows == [] && activeWindowId == None && !showStartMenu && nextZIndex == 1
      ensures !hasOpenedIE && screen == Size(0, 0) && !isScreenReady
    {
      windows := [];
      activeWindowId := None;
      showStartMenu := false;
      nextZIndex := 1;
      hasOpenedIE := false;
      screen := Size(0, 0);
      isScreenReady := false;
    }

    /** The `resize` listener: record the viewport size. */
    method UpdateScreenSize(width: int, height: int)
      requires Valid()
      modifies this
      ensures Valid()
      ensures screen == Size(width, height) && isScreenReady
      ensures windows == old(windows) && activeWindowId == old(activeWindowId)
      ensures nextZIndex == old(nextZIndex) && showStartMenu == old(showStartMenu)
      ensures hasOpenedIE == old(hasOpenedIE)
    {
      screen := Size(width, height);
      isScreenReady := true;
    }

    /**
     * `openWindow(id)`. An id with a record is restored and raised without a
     * second record; an id outside the table changes nothing; otherwise a
     * new record is appended on top and the start menu closes.
     */
    method OpenWindow(id: string)
      requires Valid()
      modifies this
      ensures Valid()
      ensures screen == old(screen) && isScreenReady == old(isScreenReady)
      ensures hasOpenedIE == old(hasOpenedIE)
      ensures HasId(old(windows), id) ==>
        windows == Restored(old(windows), id, old(nextZIndex)) &&
        activeWindowId == Some(id) && nextZIndex == old(nextZIndex) + 1 &&
        showStartMenu == old(showStartMenu)
      ensures !HasId(old(windows), id) && id !in KnownIds ==>
        windows == old(windows) && activeWindowId == old(activeWindowId) &&
        nextZIndex == old(nextZIndex) && showStartMenu == old(showStartMenu)
      ensures !HasId(old(windows), id) && id in KnownIds ==>
        windows == old(windows) +
          [NewRecord(id, ConfigFor(id, old(screen)).value, old(screen), |old(windows)|, old(nextZIndex))] &&
        activeWindowId == Some(id) && nextZIndex == old(nextZIndex) + 1 && !showStartMenu
    {
      if HasId(windows, id) {
        RestoredStacksOnTop(windows, id, nextZIndex);
        windows := Restored(windows, id, nextZIndex);
        activeWindowId := Some(id);
        nextZIndex := nextZIndex + 1;
        return;
      }
      var config := ConfigFor(id, screen);
      if config.None? {
        return;
      }
      var w := NewRecord(id, config.value, screen, |windows|, nextZIndex);
      AppendedStacksOnTop(windows, w, nextZIndex);
      windows := windows + [w];
      activeWindowId := Some(id);
      nextZIndex := nextZIndex + 1;
      showStartMenu := false;
    }

    /** The mount effect: open "ie" once, as soon as the screen size is known. */
    method AutoOpenEffect()
      requires Valid()
      modifies this
      ensures Valid()
      ensures hasOpenedIE == (old(hasOpenedIE) || old(isScreenReady))
      ensures old(hasOpenedIE) || !old(isScreenReady) ==>
        windows == old(windows) && activeWindowId == old(activeWindowId) &&
        nextZIndex == old(nextZIndex) && showStartMenu == old(showStartMenu)
      ensures !old(hasOpenedIE) && old(isScreenReady) ==>
        activeWindowId == Some("ie") && nextZIndex == old(nextZIndex) + 1
      ensures !old(hasOpenedIE) && old(isScreenReady) && HasId(old(windows), "ie") ==>
        windows == Restored(old(windows), "ie", old(nextZIndex)) && showStartMenu == old(showStartMenu)
      ensures !old(hasOpenedIE) && old(isScreenReady) && !HasId(old(windows), "ie") ==>
        windows == old(windows) +
          [NewRecord("ie", ConfigFor("ie", old(screen)).value, old(screen), |old(windows)|, old(nextZIndex))] &&
        !showStartMenu
    {
      if !hasOpenedIE && isScreenReady {
        hasOpenedIE := true;
        OpenWindow("ie");
      }
    }

    /** `closeWindow(id)`: drop the id's records; no window stays active. */
    method CloseWindow(id: string)
      requires Valid()
      modifies this
      ensures Valid()
      ensures windows == Without(old(windows), id) && activeWindowId == None
      ensures nextZIndex == old(nextZIndex) && showStartMenu == old(showStartMenu)
      ensures screen == old(screen) && isScreenReady == old(isScreenReady) && hasOpenedIE == old(hasOpenedIE)
    {
      WithoutKeepsStack(windows, id, nextZIndex);
      windows := Without(windows, id);
      activeWindowId := None;
    }

    /** `minimizeWindow(id)`: set the flag; no window stays active. */
    method MinimizeWindow(id: string)
      requires Valid()
      modifies this
      ensures Valid()
      ensures windows == Minimized(old(windows), id) && activeWindowId == None
      ensures nextZIndex == old(nextZIndex) && showStartMenu == old(showStartMenu)
      ensures screen == old(screen) && isScreenReady == old(isScreenReady) && hasOpenedIE == old(hasOpenedIE)
    {
      MinimizedKeepsStack(windows, id, nextZIndex);
      windows := Minimized(windows, id);
      activeWindowId := None;
    }

    /** `maximizeWindow(id)`: flip the flag; the active id and z-indices stay. */
    method MaximizeWindow(id: string)
      requires Valid()
      modifies this
      ensures Valid()
      ensures windows == MaximizeToggled(old(windows), id) && activeWindowId == old(activeWindowId)
      ensures nextZIndex == old(nextZIndex) && showStartMenu == old(showStartMenu)
      ensures screen == old(screen) && isScreenReady == old(isScreenReady) && hasOpenedIE == old(hasOpenedIE)
    {
      MaximizeToggledKeepsStack(windows, id, activeWindowId, nextZIndex);
      windows := MaximizeToggled(windows, id);
    }

    /** `focusWindow(id)`: raise the id's record and make it active. */
    method FocusWindow(id: string)
      requires Valid()
      modifies this
      ensures Valid()
      ensures windows == Focused(old(windows), id, old(nextZIndex))
      ensures activeWindowId == Some(id) && nextZIndex == old(nextZIndex) + 1
      ensures showStartMenu == old(showStartMenu)
      ensures screen == old(screen) && isScreenReady == old(isScreenReady) && hasOpenedIE == old(hasOpenedIE)
    {
      FocusedStacksOnTop(windows, id, nextZIndex);
      windows := Focused(windows, id, nextZIndex);
      activeWindowId := Some(id);
      nextZIndex := nextZIndex + 1;
    }

    /**
     * `handleTaskbarWindowClick(id)`: nothing for an unknown id; a minimized
     * window is restored and raised; the active window is minimized; any
     * other window is focused.
     */
    method TaskbarWindowClick(id: string)
      requires Valid()
      modifies this
      ensures Valid()
      ensures showStartMenu == old(showStartMenu)
      ensures screen == old(screen) && isScreenReady == old(isScreenReady) && hasOpenedIE == old(hasOpenedIE)
      ensures !HasId(old(windows), id) ==>
        windows == old(windows) && activeWindowId == old(activeWindowId) && nextZIndex == old(nextZIndex)
      ensures HasId(old(windows), id) && Find(old(windows), id).value.isMinimized ==>
        windows == Restored(old(windows), id, old(nextZIndex)) &&
        activeWindowId == Some(id) && nextZIndex == old(nextZIndex) + 1
      ensures HasId(old(windows), id) && !Find(old(windows), id).value.isMinimized &&
              old(activeWindowId) == Some(id) ==>
        windows == Minimized(old(windows), id) && activeWindowId == None && nextZIndex == old(nextZIndex)
      ensures HasId(old(windows), id) && !Find(old(windows), id).value.isMinimized &&
              old(activeWindowId) != Some(id) ==>
        windows == Focused(old(windows), id, old(nextZIndex)) &&
        activeWindowId == Some(id) && nextZIndex == old(nextZIndex) + 1
    {
      var found := Find(windows, id);
      if found.None? {
        return;
      }
      if found.value.isMinimized {
        RestoredStacksOnTop(windows, id, nextZIndex);
        windows := Restored(windows, id, nextZIndex);
        activeWindowId := Some(id);
        nextZIndex := nextZIndex + 1;
      } else if activeWindowId == Some(id) {
        MinimizeWindow(id);
      } else {
        FocusWindow(id);
      }
    }

    /** `handleStartClick`: toggle the start menu. */
    method StartClick()
      requires Valid()
      modifies this
      ensures Valid()
      ensures showStartMenu == !old(showStartMenu)
      ensures windows == old(windows) && activeWindowId == old(activeWindowId) && nextZIndex == old(nextZIndex)
      ensures screen == old(screen) && isScreenReady == old(isScreenReady) && hasOpenedIE == old(hasOpenedIE)
    {
      showStartMenu := !showStartMenu;
    }

    /** `handleStartMenuItemClick(item)`: "shutdown" only closes the menu; anything else opens. */
    method StartMenuItemClick(item: string)
      requires Valid()
      modifies this
      ensures Valid()
      ensures screen == old(screen) && isScreenReady == old(isScreenReady) && hasOpenedIE == old(hasOpenedIE)
      ensures item == "shutdown" ==>
        !showStartMenu && windows == old(windows) &&
        activeWindowId == old(activeWindowId) && nextZIndex == old(nextZIndex)
      ensures item != "shutdown" && HasId(old(windows), item) ==>
        windows == Restored(old(windows), item, old(nextZIndex)) &&
        activeWindowId == Some(item) && nextZIndex == old(nextZIndex) + 1 &&
        showStartMenu == old(showStartMenu)
      ensures item != "shutdown" && !HasId(old(windows), item) && item !in KnownIds ==>
        windows == old(windows) && activeWindowId == old(activeWindowId) &&
        nextZIndex == old(nextZIndex) && showStartMenu == old(showStartMenu)
      ensures item != "shutdown" && !HasId(old(windows), item) && item in KnownIds ==>
        windows == old(windows) +
          [NewRecord(item, ConfigFor(item, old(screen)).value, old(screen), |old(windows)|, old(nextZIndex))] &&
        activeWindowId == Some(item) && nextZIndex == old(nextZIndex) + 1 && !showStartMenu
    {
      if item == "shutdown" {
        showStartMenu := false;
        return;
      }
      OpenWindow(item);
    }
  }
}
