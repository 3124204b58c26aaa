/**
 The mouse-drag state machine of the Mercator map: the `dragRef` flag, the
 `lastMousePosRef` pointer and the `isDragging` state that drives the cursor.

 The source's mousemove handler reads `position` from the render it was
 registered in; the model assumes each move sees the position the previous
 move produced (a re-render between moves).
 */
module Drag {
  import opened Wrappers
  import opened Geo

  /** A pointer location in client pixels (`clientX`, `clientY`). */
  datatype Pointer = Pointer(x: real, y: real)

  /** `dragRef.current`, `lastMousePosRef.current` and the `isDragging` state. */
  datatype DragState = DragState(dragging: bool, last: Option<Pointer>, grabbing: bool)

  /** Camera position together with the drag bookkeeping. */
  datatype DragView = DragView(pos: Position, drag: DragState)

  /** The state on mount: no drag, no pointer recorded, grab cursor. */
  const Idle: DragState := DragState(false, None, false)

  /** Degrees of rotation per pixel of pointer movement. */
  const DragScale: real := 0.25

  /** The three pieces of drag bookkeeping agree: a pointer is recorded exactly while dragging. */
  predicate Consistent(s: DragState) {
    (s.dragging <==> s.last.Some?) && s.grabbing == s.dragging
  }

  /** `handleMouseDown`: start a drag at `at`; the camera does not move. */
  function OnMouseDown(v: DragView, at: Pointer): (w: DragView)
    ensures w.pos == v.pos
    ensures w.drag.dragging && w.drag.grabbing && w.drag.last == Some(at)
    ensures Consistent(w.drag)
  {
    DragView(v.pos, DragState(true, Some(at), true))
  }

  /**
   `handleMouseMove`: while a drag is active and a previous pointer is known,
   the pixel delta becomes a position delta of 0.25 degrees per pixel
   (longitude against the horizontal motion, latitude with the vertical one).
   */
  function OnMouseMove(v: DragView, at: Pointer): (w: DragView)
    ensures !v.drag.dragging || v.drag.last.None? ==> w == v
    ensures v.drag.dragging && v.drag.last.Some? ==>
      && w.pos.lon == v.pos.lon - DragScale * (at.x - v.drag.last.value.x)
      && w.pos.lat == v.pos.lat + DragScale * (at.y - v.drag.last.value.y)
      && w.drag == v.drag.(last := Some(at))
    ensures Consistent(v.drag) ==> Consistent(w.drag)
  {
    if !v.drag.dragging || v.drag.last.None? then v
    else
      var dx := at.x - v.drag.last.value.x;
      var dy := at.y - v.drag.last.value.y;
      DragView(LonLat(v.pos.lon - dx * DragScale, v.pos.lat + dy * DragScale),
               v.drag.(last := Some(at)))
  }

  /** `handleMouseUp`: end any drag; the camera does not move. */
  function OnMouseUp(v: DragView): (w: DragView)
    ensures w.pos == v.pos
    ensures !w.drag.dragging && !w.drag.grabbing && w.drag.last.None?
  {
    DragView(v.pos, Idle)
  }

  /** The pointer moves of one drag, applied in order. */
  function Moves(v: DragView, path: seq<Pointer>): DragView
    decreases |path|
  {
    if |path| == 0 then v else Moves(OnMouseMove(v, path[0]), path[1..])
  }

  /**
   Over a whole drag the per-move deltas telescope: the camera ends up offset
   by 0.25 degrees per pixel between the pointer where the drag stood and the
   last pointer of the path, whatever the path in between.
   */
  lemma {:induction false} DragTelescopes(v: DragView, path: seq<Pointer>)
    requires v.drag.dragging && v.drag.last.Some?
    requires |path| > 0
    ensures Moves(v, path).pos.lon == v.pos.lon - DragScale * (path[|path| - 1].x - v.drag.last.value.x)
    ensures Moves(v, path).pos.lat == v.pos.lat + DragScale * (path[|path| - 1].y - v.drag.last.value.y)
    ensures Moves(v, path).drag.last == Some(path[|path| - 1])
    decreases |path|
  {
    var w := OnMouseMove(v, path[0]);
    if |path| > 1 {
      DragTelescopes(w, path[1..]);
      assert path[1..][|path[1..]| - 1] == path[|path| - 1];
    }
  }

  /** Moves made without a drag in progress never change anything. */
  lemma {:induction false} MovesWithoutDragAreIgnored(v: DragView, path: seq<Pointer>)
    requires !v.drag.dragging
    ensures Moves(v, path) == v
    decreases |path|
  {
    if |path| > 0 {
      MovesWithoutDragAreIgnored(OnMouseMove(v, path[0]), path[1..]);
    }
  }

  /** Pressing, moving back to the press point and releasing leaves the camera where it was. */
  lemma DragBackToStart(v: DragView, at: Pointer, path: seq<Pointer>)
    requires |path| > 0 && path[|path| - 1] == at
    ensures OnMouseUp(Moves(OnMouseDown(v, at), path)).pos == v.pos
    ensures OnMouseUp(Moves(OnMouseDown(v, at), path)).drag == Idle
  {
    DragTelescopes(OnMouseDown(v, at), path);
  }
}
