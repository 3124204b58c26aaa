/**
 All user input the Mercator map reacts to, as one transition function over
 the camera position and the drag bookkeeping.
 */
module Input {
  import opened Geo
  import opened Camera
  import opened Drag

  datatype Event =
    | MouseDown(at: Pointer)
    | MouseMove(at: Pointer)
    | MouseUp
    | KeyDown(key: string)
    | ArrowButton(dir: Direction)
    | ResetButton

  /** The effect of one event on the view. */
  function Apply(v: DragView, e: Event): (w: DragView)
    ensures (e.KeyDown? || e.ArrowButton? || e.ResetButton?) ==> w.drag == v.drag
    ensures (e.MouseDown? || e.MouseUp?) ==> w.pos == v.pos
    ensures e.ResetButton? ==> w.pos == Origin
    ensures Consistent(v.drag) ==> Consistent(w.drag)
  {
    match e
    case MouseDown(at) => OnMouseDown(v, at)
    case MouseMove(at) => OnMouseMove(v, at)
    case MouseUp => OnMouseUp(v)
    case KeyDown(key) => DragView(OnKeyDown(v.pos, key), v.drag)
    case ArrowButton(d) => DragView(MoveMap(v.pos, d), v.drag)
    case ResetButton => DragView(Reset(v.pos), v.drag)
  }

  /** A sequence of events, applied in order. */
  function Run(v: DragView, events: seq<Event>): DragView
    decreases |events|
  {
    if |events| == 0 then v else Run(Apply(v, events[0]), events[1..])
  }

  /** From mount on, the drag flag, the recorded pointer and the cursor state always agree. */
  lemma {:induction false} RunKeepsConsistent(v: DragView, events: seq<Event>)
    requires Consistent(v.drag)
    ensures Consistent(Run(v, events).drag)
    decreases |events|
  {
    if |events| > 0 {
      RunKeepsConsistent(Apply(v, events[0]), events[1..]);
    }
  }

  /** Keys other than the four arrows are ignored, whatever else is going on. */
  lemma OtherKeysIgnored(v: DragView, key: string)
    requires key !in ArrowKeys
    ensures Apply(v, KeyDown(key)) == v
  {
    PreventedKeysAreMovingKeys(key);
  }
}
