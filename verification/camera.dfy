/**
 Camera stepping: `calculateNewPosition`, the arrow-key handler, the
 on-screen arrow buttons and the reset button of the Mercator map.
 */
module Camera {
  import opened Wrappers
  import opened Geo

  /** The four directions `calculateNewPosition` accepts. */
  datatype Direction = Up | Down | Left | Right {

    /** North/south moves change latitude, east/west moves change longitude. */
    predicate Vertical() {
      this == Up || this == Down
    }

    /** +1 for north and east, -1 for south and west. */
    function Sign(): real {
      if this == Up || this == Right then 1.0 else -1.0
    }

    /** The direction that undoes this one. */
    function Opposite(): (d: Direction)
      ensures d != this && d.Vertical() == Vertical()
      ensures d.Sign() == -Sign()
    {
      match this
      case Up => Down
      case Down => Up
      case Left => Right
      case Right => Left
    }
  }

  /** Degrees moved by one arrow-key press. */
  const KeyStep: real := 5.0
  /** Degrees moved by one click on an on-screen arrow button. */
  const ButtonStep: real := 10.0

  /** `calculateNewPosition`: move `step` degrees in direction `d`. */
  function Step(p: Position, d: Direction, step: real): (q: Position)
    ensures d.Vertical() ==> q.lon == p.lon && q.lat == p.lat + d.Sign() * step
    ensures !d.Vertical() ==> q.lat == p.lat && q.lon == p.lon + d.Sign() * step
  {
    match d
    case Up => LonLat(p.lon, p.lat + step)
    case Down => LonLat(p.lon, p.lat - step)
    case Right => LonLat(p.lon + step, p.lat)
    case Left => LonLat(p.lon - step, p.lat)
  }

  /** A step followed by the same step in the opposite direction returns to the start. */
  lemma StepThenOpposite(p: Position, d: Direction, step: real)
    ensures Step(Step(p, d, step), d.Opposite(), step) == p
  {
  }

  /** Two steps in one direction are one step of the summed length. */
  lemma StepsAdd(p: Position, d: Direction, a: real, b: real)
    ensures Step(Step(p, d, a), d, b) == Step(p, d, a + b)
  {
  }

  /** The `KeyboardEvent.key` value that moves in direction `d`. */
  function ArrowKeyName(d: Direction): string {
    match d
    case Up => "ArrowUp"
    case Down => "ArrowDown"
    case Left => "ArrowLeft"
    case Right => "ArrowRight"
  }

  /** The keys whose default (page scrolling) the handler suppresses. */
  const ArrowKeys: seq<string> := ["ArrowUp", "ArrowDown", "ArrowLeft", "ArrowRight"]

  /** The `switch (e.key)` of the keyboard handler: a direction for an arrow key, nothing otherwise. */
  function KeyDirection(key: string): (r: Option<Direction>)
    ensures r.Some? ==> ArrowKeyName(r.value) == key
    ensures forall d: Direction :: ArrowKeyName(d) == key ==> r == Some(d)
  {
    if key == "ArrowUp" then Some(Up)
    else if key == "ArrowDown" then Some(Down)
    else if key == "ArrowLeft" then Some(Left)
    else if key == "ArrowRight" then Some(Right)
    else None
  }

  /** Exactly the keys that move the map also have their default action prevented. */
  lemma PreventedKeysAreMovingKeys(key: string)
    ensures key in ArrowKeys <==> KeyDirection(key).Some?
  {
  }

  /** The keydown handler: an arrow key moves 5 degrees, any other key changes nothing. */
  function OnKeyDown(p: Position, key: string): (q: Position)
    ensures KeyDirection(key).None? ==> q == p
    ensures forall d: Direction :: key == ArrowKeyName(d) ==> q == Step(p, d, KeyStep)
  {
    match KeyDirection(key)
    case None => p
    case Some(d) => Step(p, d, KeyStep)
  }

  /** `moveMap`: an on-screen arrow button moves 10 degrees. */
  function MoveMap(p: Position, d: Direction): (q: Position)
    ensures d.Vertical() ==> q.lon == p.lon && q.lat == p.lat + d.Sign() * 10.0
    ensures !d.Vertical() ==> q.lat == p.lat && q.lon == p.lon + d.Sign() * 10.0
  {
    Step(p, d, ButtonStep)
  }

  /** `handleReset`: back to the origin, wherever the camera was. */
  function Reset(p: Position): (q: Position)
    ensures q.lon == 0.0 && q.lat == 0.0
  {
    Origin
  }

  /** Two presses of an arrow key move as far as one click on the matching button. */
  lemma TwoKeyPressesAreOneClick(p: Position, d: Direction)
    ensures OnKeyDown(OnKeyDown(p, ArrowKeyName(d)), ArrowKeyName(d)) == MoveMap(p, d)
  {
    StepsAdd(p, d, KeyStep, KeyStep);
  }
}
