/**
 * The list of window records kept by the desktop shell
 * (src/components/os/Desktop.tsx) and the per-record updates its handlers
 * apply with `map` and `filter`, together with the stacking invariant they
 * keep: ids are unique, z-indices are distinct and below the shared counter,
 * and the active window is the one on top.
 */
module WindowList {
  import opened Wrappers

  datatype Point = Point(x: int, y: int)
  datatype Size = Size(width: int, height: int)

  /** Which content panel a window shows (the source stores a rendered element). */
  datatype Content = IEHome | About | Projects | Experience | Contact

  /** The source's `WindowState`. */
  datatype WindowRecord = WindowRecord(
    id: string,
    title: string,
    isMinimized: bool,
    isMaximized: bool,
    zIndex: int,
    content: Content,
    position: Point,
    size: Size)

  predicate HasId(ws: seq<WindowRecord>, id: string) {
    exists i :: 0 <= i < |ws| && ws[i].id == id
  }

  /** Index of the first record with `id`, as `Array.prototype.find` searches. */
  function IndexOf(ws: seq<WindowRecord>, id: string): (r: Option<nat>)
    ensures r.Some? ==> r.value < |ws| && ws[r.value].id == id
    ensures r.Some? ==> forall j :: 0 <= j < r.value ==> ws[j].id != id
    ensures r.None? <==> !HasId(ws, id)
  {
    if |ws| == 0 then None
    else if ws[0].id == id then Some(0)
    else match IndexOf(ws[1..], id) {
      case None => None
      case Some(k) => Some(k + 1)
    }
  }

  /** `windows.find((w) => w.id === id)`: the first record with that id. */
  function Find(ws: seq<WindowRecord>, id: string): (r: Option<WindowRecord>)
    ensures r.None? <==> !HasId(ws, id)
    ensures r.Some? ==> r.value in ws && r.value.id == id
    ensures r.Some? ==> exists k :: 0 <= k < |ws| && ws[k] == r.value && forall j :: 0 <= j < k ==> ws[j].id != id
  {
    match IndexOf(ws, id) {
      case None => None
      case Some(k) => Some(ws[k])
    }
  }

  /**
   * The update shared by `openWindow` on an id that already has a record and
   * by the taskbar's restore branch: the record is un-minimized and raised to
   * z-index `z`; every other record, and every other field, is unchanged.
   */
  function Restored(ws: seq<WindowRecord>, id: string, z: int): (r: seq<WindowRecord>)
    ensures |r| == |ws|
    ensures forall i :: 0 <= i < |ws| && ws[i].id != id ==> r[i] == ws[i]
    ensures forall i :: 0 <= i < |ws| && ws[i].id == id ==>
              r[i] == ws[i].(isMinimized := false, zIndex := z)
  {
    seq(|ws|, i requires 0 <= i < |ws| =>
      if ws[i].id == id then ws[i].(isMinimized := false, zIndex := z) else ws[i])
  }

  /** `focusWindow`'s update: only the record's z-index changes. */
  function Focused(ws: seq<WindowRecord>, id: string, z: int): (r: seq<WindowRecord>)
    ensures |r| == |ws|
    ensures forall i :: 0 <= i < |ws| && ws[i].id != id ==> r[i] == ws[i]
    ensures forall i :: 0 <= i < |ws| && ws[i].id == id ==> r[i] == ws[i].(zIndex := z)
  {
    seq(|ws|, i requires 0 <= i < |ws| =>
      if ws[i].id == id then ws[i].(zIndex := z) else ws[i])
  }

  /** `minimizeWindow`'s update: only the record's `isMinimized` is set. */
  function Minimized(ws: seq<WindowRecord>, id: string): (r: seq<WindowRecord>)
    ensures |r| == |ws|
    ensures forall i :: 0 <= i < |ws| && ws[i].id != id ==> r[i] == ws[i]
    ensures forall i :: 0 <= i < |ws| && ws[i].id == id ==> r[i] == ws[i].(isMinimized := true)
  {
    seq(|ws|, i requires 0 <= i < |ws| =>
      if ws[i].id == id then ws[i].(isMinimized := true) else ws[i])
  }

  /** `maximizeWindow`'s update: only the record's `isMaximized` is flipped. */
  function MaximizeToggled(ws: seq<WindowRecord>, id: string): (r: seq<WindowRecord>)
    ensures |r| == |ws|
    ensures forall i :: 0 <= i < |ws| && ws[i].id != id ==> r[i] == ws[i]
    ensures forall i :: 0 <= i < |ws| && ws[i].id == id ==>
              r[i] == ws[i].(isMaximized := !ws[i].isMaximized)
  {
    seq(|ws|, i requires 0 <= i < |ws| =>
      if ws[i].id == id then ws[i].(isMaximized := !ws[i].isMaximized) else ws[i])
  }

  /** `closeWindow`'s `filter((w) => w.id !== id)`. */
  function Without(ws: seq<WindowRecord>, id: string): (r: seq<WindowRecord>)
    ensures |r| <= |ws|
    ensures !HasId(r, id)
    ensures forall w :: w in r <==> w in ws && w.id != id
  {
    if |ws| == 0 then []
    else if ws[0].id == id then Without(ws[1..], id)
    else [ws[0]] + Without(ws[1..], id)
  }

  // ---------------------------------------------------------------------
  // The stacking invariant.

  predicate UniqueIds(ws: seq<WindowRecord>) {
    forall i, j :: 0 <= i < j < |ws| ==> ws[i].id != ws[j].id
  }

  /** Every z-index is at least 1 and below the counter `next`. */
  predicate ZBelow(ws: seq<WindowRecord>, next: int) {
    forall i :: 0 <= i < |ws| ==> 1 <= ws[i].zIndex < next
  }

  predicate ZDistinct(ws: seq<WindowRecord>) {
    forall i, j :: 0 <= i < j < |ws| ==> ws[i].zIndex != ws[j].zIndex
  }

  predicate Stacked(ws: seq<WindowRecord>, next: int) {
    UniqueIds(ws) && ZBelow(ws, next) && ZDistinct(ws)
  }

  /** The active window, when it has a record, holds the last z-index handed out. */
  predicate ActiveOnTop(ws: seq<WindowRecord>, active: Option<string>, next: int) {
    active.Some? ==>
      forall i :: 0 <= i < |ws| && ws[i].id == active.value ==> ws[i].zIndex == next - 1
  }

  /** The taskbar button of `w` is drawn pressed (src/components/os/Taskbar.tsx:83). */
  predicate TaskbarPressed(active: Option<string>, w: WindowRecord) {
    active == Some(w.id) && !w.isMinimized
  }

  // ---------------------------------------------------------------------
  // Lemmas.

  /** Raising one record with the counter's value keeps the stack and puts it on top. */
  lemma RestoredStacksOnTop(ws: seq<WindowRecord>, id: string, next: int)
    requires Stacked(ws, next)
    ensures Stacked(Restored(ws, id, next), next + 1)
    ensures ActiveOnTop(Restored(ws, id, next), Some(id), next + 1)
  {
  }

  lemma FocusedStacksOnTop(ws: seq<WindowRecord>, id: string, next: int)
    requires Stacked(ws, next)
    ensures Stacked(Focused(ws, id, next), next + 1)
    ensures ActiveOnTop(Focused(ws, id, next), Some(id), next + 1)
  {
  }

  /** A new record appended with the counter's value keeps the stack and is on top. */
  lemma AppendedStacksOnTop(ws: seq<WindowRecord>, w: WindowRecord, next: int)
    requires Stacked(ws, next) && !HasId(ws, w.id) && w.zIndex == next && next >= 1
    ensures Stacked(ws + [w], next + 1)
    ensures ActiveOnTop(ws + [w], Some(w.id), next + 1)
  {
  }

  lemma MinimizedKeepsStack(ws: seq<WindowRecord>, id: string, next: int)
    requires Stacked(ws, next)
    ensures Stacked(Minimized(ws, id), next)
  {
  }

  /** Toggling maximization changes no z-index, so whoever was on top stays on top. */
  lemma MaximizeToggledKeepsStack(ws: seq<WindowRecord>, id: string, active: Option<string>, next: int)
    requires Stacked(ws, next) && ActiveOnTop(ws, active, next)
    ensures Stacked(MaximizeToggled(ws, id), next)
    ensures ActiveOnTop(MaximizeToggled(ws, id), active, next)
  {
  }

  lemma {:induction false} WithoutKeepsStack(ws: seq<WindowRecord>, id: string, next: int)
    requires Stacked(ws, next)
    ensures Stacked(Without(ws, id), next)
  {
    if |ws| > 0 {
      WithoutKeepsStack(ws[1..], id, next);
      var rest := Without(ws[1..], id);
      if ws[0].id != id {
        assert Without(ws, id) == [ws[0]] + rest;
        forall j | 0 <= j < |rest|
          ensures rest[j].id != ws[0].id && rest[j].zIndex != ws[0].zIndex
        {
          assert rest[j] in ws[1..];
        }
      }
    }
  }

  /** The window on top has a z-index strictly above every other record's. */
  lemma OnTopIsMaximum(ws: seq<WindowRecord>, active: string, next: int, k: nat)
    requires Stacked(ws, next) && ActiveOnTop(ws, Some(active), next)
    requires k < |ws| && ws[k].id == active
    ensures forall j :: 0 <= j < |ws| && j != k ==> ws[j].zIndex < ws[k].zIndex
  {
    forall j | 0 <= j < |ws| && j != k
      ensures ws[j].zIndex < ws[k].zIndex
    {
      if j < k { assert ws[j].zIndex != ws[k].zIndex; } else { assert ws[k].zIndex != ws[j].zIndex; }
    }
  }

  /** `maximizeWindow` applied twice is the identity. */
  lemma MaximizeTwiceIsIdentity(ws: seq<WindowRecord>, id: string)
    ensures MaximizeToggled(MaximizeToggled(ws, id), id) == ws
  {
    var r := MaximizeToggled(MaximizeToggled(ws, id), id);
    assert forall i :: 0 <= i < |ws| ==> r[i] == ws[i];
  }

  lemma {:induction false} WithoutAbsent(ws: seq<WindowRecord>, id: string)
    requires !HasId(ws, id)
    ensures Without(ws, id) == ws
  {
    if |ws| > 0 {
      assert ws[0].id != id;
      assert !HasId(ws[1..], id) by {
        forall j | 0 <= j < |ws[1..]| ensures ws[1..][j].id != id { assert ws[1..][j] == ws[j + 1]; }
      }
      WithoutAbsent(ws[1..], id);
      assert ws == [ws[0]] + ws[1..];
    }
  }

  /**
   * With unique ids, `closeWindow` removes exactly the one record with the id
   * and keeps the others in their order.
   */
  lemma {:induction false} WithoutRemovesExactlyOne(ws: seq<WindowRecord>, id: string, k: nat)
    requires UniqueIds(ws) && k < |ws| && ws[k].id == id
    ensures Without(ws, id) == ws[..k] + ws[k + 1..]
  {
    UniqueTail(ws);
    if k == 0 {
      UniqueHeadAbsentFromTail(ws);
      WithoutAbsent(ws[1..], id);
    } else {
      assert ws[0].id != ws[k].id;
      WithoutRemovesExactlyOne(ws[1..], id, k - 1);
      ConsSplit(ws, k);
    }
  }

  lemma UniqueTail(ws: seq<WindowRecord>)
    requires UniqueIds(ws) && |ws| > 0
    ensures UniqueIds(ws[1..])
  {
    var tail := ws[1..];
    forall i, j | 0 <= i < j < |tail| ensures tail[i].id != tail[j].id {
      assert tail[i] == ws[i + 1] && tail[j] == ws[j + 1];
    }
  }

  lemma UniqueHeadAbsentFromTail(ws: seq<WindowRecord>)
    requires UniqueIds(ws) && |ws| > 0
    ensures !HasId(ws[1..], ws[0].id)
  {
    var tail := ws[1..];
    forall j | 0 <= j < |tail| ensures tail[j].id != ws[0].id { assert tail[j] == ws[j + 1]; }
  }

  lemma ConsSplit(ws: seq<WindowRecord>, k: nat)
    requires 0 < k < |ws|
    ensures [ws[0]] + (ws[1..][..k - 1] + ws[1..][k..]) == ws[..k] + ws[k + 1..]
  {
    assert ws[1..][..k - 1] == ws[1..k];
    assert ws[1..][k..] == ws[k + 1..];
    assert ws[..k] == [ws[0]] + ws[1..k];
  }

  /** With unique ids, at most one taskbar button is drawn pressed. */
  lemma AtMostOnePressed(ws: seq<WindowRecord>, active: Option<string>, i: nat, j: nat)
    requires UniqueIds(ws) && i < |ws| && j < |ws|
    requires TaskbarPressed(active, ws[i]) && TaskbarPressed(active, ws[j])
    ensures i == j
  {
  }
}
