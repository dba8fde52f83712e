/**
 * One draggable window (src/components/os/Window.tsx): a press on the title
 * bar records the drag origin, pointer moves reposition the window while the
 * drag lasts, and the release ends it. Positions are integer pixels.
 */
module Window {
  import opened Wrappers
  import opened WindowList

  /** `dragRef.current`: the pointer and the window position at the press. */
  datatype DragOrigin = DragOrigin(startX: int, startY: int, startPosX: int, startPosY: int)

  /** How the window's box is sized on screen. */
  datatype Extent = Pixels(size: Size) | FillDesktop

  /** The style the component renders: left, top, size and stacking order. */
  datatype Placed = Placed(left: int, top: int, extent: Extent, zIndex: int)

  function Max(a: int, b: int): int { if a < b then b else a }

  /**
   * The position `handleMouseMove` sets for a pointer at (clientX, clientY):
   * the window follows the pointer exactly horizontally, and vertically too
   * except that its top never goes above 0.
   */
  function Dragged(o: DragOrigin, clientX: int, clientY: int): (p: Point)
    ensures p.x == o.startPosX + (clientX - o.startX)
    ensures p.y >= 0
    ensures o.startPosY + (clientY - o.startY) >= 0 ==> p.y == o.startPosY + (clientY - o.startY)
    ensures o.startPosY + (clientY - o.startY) < 0 ==> p.y == 0
  {
    var dx := clientX - o.startX;
    var dy := clientY - o.startY;
    Point(o.startPosX + dx, Max(0, o.startPosY + dy))
  }

  /** Returning the pointer to where it was pressed puts a window with top >= 0 back. */
  lemma DragBackToStart(o: DragOrigin)
    requires o.startPosY >= 0
    ensures Dragged(o, o.startX, o.startY) == Point(o.startPosX, o.startPosY)
  {
  }

  /** While the top stays below the clamp, the window moves rigidly with the pointer. */
  lemma DragIsRigid(o: DragOrigin, x1: int, y1: int, x2: int, y2: int)
    requires o.startPosY + (y1 - o.startY) >= 0 && o.startPosY + (y2 - o.startY) >= 0
    ensures Dragged(o, x2, y2).x - Dragged(o, x1, y1).x == x2 - x1
    ensures Dragged(o, x2, y2).y - Dragged(o, x1, y1).y == y2 - y1
  {
  }

  /**
   * What the component renders: nothing when minimized; the whole desktop
   * area at (0, 0) when maximized; otherwise the stored position and size.
   */
  function Render(position: Point, size: Size, isMinimized: bool, isMaximized: bool, zIndex: int): (r: Option<Placed>)
    ensures r.None? <==> isMinimized
    ensures r.Some? ==> r.value.zIndex == zIndex
    ensures r.Some? && isMaximized ==> r.value.left == 0 && r.value.top == 0 && r.value.extent == FillDesktop
    ensures r.Some? && !isMaximized ==>
      r.value.left == position.x && r.value.top == position.y && r.value.extent == Pixels(size)
  {
    if isMinimized then None
    else if isMaximized then Some(Placed(0, 0, FillDesktop, zIndex))
    else Some(Placed(position.x, position.y, Pixels(size), zIndex))
  }

  /**
   * How a window is drawn from the desktop's record of it. The component
   * copies the record's position into its own state once, and a drag never
   * writes it back, so this is the drawing until the window's first drag.
   */
  function RenderRecord(w: WindowRecord): Option<Placed> {
    Render(w.position, w.size, w.isMinimized, w.isMaximized, w.zIndex)
  }

  /**
   * Maximizing a shown window draws it over the whole desktop whatever its
   * stored position and size, which the toggle keeps; toggling back draws
   * it exactly as before.
   */
  lemma MaximizeKeepsPosition(ws: seq<WindowRecord>, id: string, i: int)
    requires 0 <= i < |ws| && ws[i].id == id && !ws[i].isMinimized && !ws[i].isMaximized
    ensures var m := MaximizeToggled(ws, id)[i];
      && RenderRecord(m) == Some(Placed(0, 0, FillDesktop, ws[i].zIndex))
      && m.position == ws[i].position && m.size == ws[i].size
    ensures RenderRecord(MaximizeToggled(MaximizeToggled(ws, id), id)[i]) == RenderRecord(ws[i])
  {
    MaximizeTwiceIsIdentity(ws, id);
  }

  /** The `Window` component's own state: its position, its size and the drag in progress. */
  class DraggableWindow {
    var position: Point
    const size: Size
    var drag: Option<DragOrigin>

    constructor (initialPosition: Point, initialSize: Size)
      ensures position == initialPosition && size == initialSize && drag == None
    {
      position := initialPosition;
      size := initialSize;
      drag := None;
    }

    /**
     * `handleMouseDown` on the title bar. Returns how many times it called
     * `onFocus`: none for a maximized window, which does not start a drag.
     */
    method MouseDown(clientX: int, clientY: int, isMaximized: bool) returns (focusCalls: nat)
      modifies this
      ensures position == old(position)
      ensures isMaximized ==> focusCalls == 0 && drag == old(drag)
      ensures !isMaximized ==>
        focusCalls == 1 && drag == Some(DragOrigin(clientX, clientY, old(position).x, old(position).y))
    {
      if isMaximized {
        return 0;
      }
      focusCalls := 1;
      drag := Some(DragOrigin(clientX, clientY, position.x, position.y));
    }

    /** The document `mousemove` listener. */
    method MouseMove(clientX: int, clientY: int)
      modifies this
      ensures drag == old(drag)
      ensures old(drag).None? ==> position == old(position)
      ensures old(drag).Some? ==> position == Dragged(old(drag).value, clientX, clientY)
      ensures old(drag).Some? ==> position.y >= 0
    {
      if drag.None? {
        return;
      }
      position := Dragged(drag.value, clientX, clientY);
    }

    /** The document `mouseup` listener: the drag ends, so later moves change nothing. */
    method MouseUp()
      modifies this
      ensures drag == None && position == old(position)
    {
      drag := None;
    }

    /** The rendered box, given the flags the desktop passes in. */
    function Placement(isMinimized: bool, isMaximized: bool, zIndex: int): Option<Placed>
      reads this
    {
      Render(position, size, isMinimized, isMaximized, zIndex)
    }
  }
}
