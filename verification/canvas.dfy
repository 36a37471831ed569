/** The non-painting parts of `Canvas` (app.py lines 30-72): where its centre
    is, how a face's brightness becomes a colour value, and the pointer state
    the mouse handlers keep. */
module Canvas {

  import opened Optional

  /** A pointer position in integer pixels (`Point2D(e.pos().x(), e.pos().y())`). */
  datatype Pixel = Pixel(x: int, y: int)

  /** `Canvas.center`: (width // 2, height // 2).  Python's `//` rounds toward
      minus infinity; for the divisor 2 that is Dafny's `/` as well. */
  function Center(width: int, height: int): (c: Pixel)
    ensures 2 * c.x <= width < 2 * c.x + 2
    ensures 2 * c.y <= height < 2 * c.y + 2
  {
    Pixel(width / 2, height / 2)
  }

  /** `drawFace`: the HSV value channel for a face of the given brightness. */
  function Shade(brightness: real): (v: real)
    ensures 0.0 < brightness <= 1.0 ==> 55.0 < v <= 255.0
    ensures brightness <= 0.0 ==> v <= 55.0
  {
    brightness * 200.0 + 55.0
  }

  /** Whether the button is down, and the last position seen while it was. */
  datatype PointerState = PointerState(pressed: bool, position: Option<Pixel>)

  /** The state a new canvas starts in. */
  const Initial: PointerState := PointerState(false, None)

  datatype MouseEvent = Press(at: Pixel) | Move(at: Pixel) | Release

  /** `mousePressEvent`, `mouseMoveEvent` and `mouseReleaseEvent` as one
      transition function. */
  function Handle(s: PointerState, e: MouseEvent): (s': PointerState)
    ensures e.Press? ==> s' == PointerState(true, Some(e.at))
    ensures e.Move? && !s.pressed ==> s' == s
    ensures e.Move? && s.pressed ==> s'.pressed && s'.position == Some(e.at)
    ensures e.Release? ==> s' == Initial
  {
    match e
    case Press(p) => PointerState(true, Some(p))
    case Move(p) => if s.pressed then PointerState(s.pressed, Some(p)) else s
    case Release => PointerState(false, None)
  }

  /** The state after a sequence of events, oldest first. */
  function Run(s: PointerState, events: seq<MouseEvent>): PointerState
    decreases |events|
  {
    if |events| == 0 then s else Run(Handle(s, events[0]), events[1..])
  }

  /** A position is held exactly while the button is down. */
  ghost predicate Valid(s: PointerState) {
    s.position.None? <==> !s.pressed
  }

  /** Every handler keeps `Valid`. */
  lemma HandlePreservesValid(s: PointerState, e: MouseEvent)
    requires Valid(s)
    ensures Valid(Handle(s, e))
  {}

  /** From the initial state, any sequence of events leaves a valid state. */
  lemma {:induction false} RunPreservesValid(s: PointerState, events: seq<MouseEvent>)
    requires Valid(s)
    ensures Valid(Run(s, events))
    decreases |events|
  {
    if |events| > 0 {
      HandlePreservesValid(s, events[0]);
      RunPreservesValid(Handle(s, events[0]), events[1..]);
    }
  }

  lemma InitialIsValid()
    ensures Valid(Initial)
    ensures Valid(Run(Initial, []))
  {}

}
