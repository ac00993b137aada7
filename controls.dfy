/** The camera and clock controls as a state machine over plain values: the
    mouse button, mouse motion and keyboard handlers each map the current
    control state and an input event to the next state. The simulation's
    handler methods are proved to follow these functions. */
module Controls {

  /** Mouse button and button-state codes of the windowing toolkit; the
      wheel is reported as the extra buttons 3 and 4. */
  const LeftButton: int := 0
  const ButtonDown: int := 0
  const WheelIn: int := 3
  const WheelOut: int := 4

  const MinDistance: real := 5.0
  const MaxDistance: real := 50.0
  const HomeDistance: real := 15.0
  const ZoomStep: real := 1.0
  const PitchLimit: real := 89.0
  /** Degrees of camera turn per pixel of drag. */
  const DragScale: real := 0.5
  /** Factor by which `+` speeds time up and `-` slows it down. */
  const SpeedFactor: real := 1.5
  const Escape: char := '\U{1B}'

  /** The camera's distance, yaw (angle x) and pitch (angle y) in degrees,
      whether the left button is held, the last cursor position seen, and
      the time-speed multiplier. */
  datatype ControlState = ControlState(distance: real, yaw: real, pitch: real, dragging: bool,
                                       lastX: int, lastY: int, timeSpeed: real)

  /** The state at start-up. */
  const Initial: ControlState := ControlState(HomeDistance, 0.0, 0.0, false, 0, 0, 1.0)

  /** The clamping invariants: distance in [5, 50], pitch in [-89, 89] and a
      positive time speed. */
  predicate InRange(c: ControlState)
  {
    && MinDistance <= c.distance <= MaxDistance
    && -PitchLimit <= c.pitch <= PitchLimit
    && c.timeSpeed > 0.0
  }

  /** The larger of two numbers, the first one on a tie. */
  function Max(a: real, b: real): (r: real)
    ensures r >= a && r >= b && (r == a || r == b)
  {
    if a >= b then a else b
  }

  /** The smaller of two numbers, the first one on a tie. */
  function Min(a: real, b: real): (r: real)
    ensures r <= a && r <= b && (r == a || r == b)
  {
    if a <= b then a else b
  }

  /** One wheel step towards the origin: one unit closer, but never closer
      than the minimum distance. */
  function ZoomIn(d: real): (r: real)
    ensures r >= MinDistance
    ensures r == d - ZoomStep || r == MinDistance
    ensures d - ZoomStep >= MinDistance ==> r == d - ZoomStep
    ensures MinDistance <= d <= MaxDistance ==> MinDistance <= r <= d
  {
    Max(MinDistance, d - ZoomStep)
  }

  /** One wheel step away from the origin: one unit further, but never
      further than the maximum distance. */
  function ZoomOut(d: real): (r: real)
    ensures r <= MaxDistance
    ensures r == d + ZoomStep || r == MaxDistance
    ensures d + ZoomStep <= MaxDistance ==> r == d + ZoomStep
    ensures MinDistance <= d <= MaxDistance ==> d <= r <= MaxDistance
  {
    Min(MaxDistance, d + ZoomStep)
  }

  /** The pitch limited to [-89, 89]: values inside are kept, values outside
      go to the nearer bound. */
  function ClampPitch(p: real): (r: real)
    ensures -PitchLimit <= r <= PitchLimit
    ensures -PitchLimit <= p <= PitchLimit ==> r == p
    ensures p > PitchLimit ==> r == PitchLimit
    ensures p < -PitchLimit ==> r == -PitchLimit
  {
    Max(-PitchLimit, Min(PitchLimit, p))
  }

  /** A mouse button event. The left button starts a drag when pressed,
      recording the cursor, and ends it in any other state; the wheel
      buttons zoom; other buttons change nothing. */
  function Mouse(c: ControlState, button: int, state: int, x: int, y: int): (r: ControlState)
    ensures r.timeSpeed == c.timeSpeed && r.yaw == c.yaw && r.pitch == c.pitch
    ensures button == LeftButton ==> (r.dragging <==> state == ButtonDown) && r.distance == c.distance
    ensures button == LeftButton && state == ButtonDown ==> r.lastX == x && r.lastY == y
    ensures !(button == LeftButton && state == ButtonDown) ==> r.lastX == c.lastX && r.lastY == c.lastY
    ensures button != LeftButton ==> r.dragging == c.dragging
    ensures button == WheelIn ==> r.distance == ZoomIn(c.distance)
    ensures button == WheelOut ==> r.distance == ZoomOut(c.distance)
    ensures button != LeftButton && button != WheelIn && button != WheelOut ==> r == c
    ensures InRange(c) ==> InRange(r)
  {
    if button == LeftButton then
      if state == ButtonDown then c.(dragging := true, lastX := x, lastY := y)
      else c.(dragging := false)
    else if button == WheelIn then c.(distance := ZoomIn(c.distance))
    else if button == WheelOut then c.(distance := ZoomOut(c.distance))
    else c
  }

  /** A cursor move. While dragging, yaw turns by half the horizontal move
      (unbounded), pitch by half the vertical move (clamped), and the cursor
      is recorded; otherwise nothing changes. */
  function Motion(c: ControlState, x: int, y: int): (r: ControlState)
    ensures !c.dragging ==> r == c
    ensures c.dragging ==> r.yaw == c.yaw + (x - c.lastX) as real * DragScale
    ensures c.dragging ==> r.pitch == ClampPitch(c.pitch + (y - c.lastY) as real * DragScale)
    ensures c.dragging ==> -PitchLimit <= r.pitch <= PitchLimit
    ensures c.dragging ==> r.lastX == x && r.lastY == y
    ensures r.dragging == c.dragging && r.distance == c.distance && r.timeSpeed == c.timeSpeed
    ensures InRange(c) ==> InRange(r)
  {
    if c.dragging then
      var dx := x - c.lastX;
      var dy := y - c.lastY;
      c.(yaw := c.yaw + dx as real * DragScale,
         pitch := ClampPitch(c.pitch + dy as real * DragScale),
         lastX := x, lastY := y)
    else c
  }

  /** ASCII lower-casing: upper-case letters map to their lower-case
      counterparts and every other character is kept. */
  function Lower(ch: char): (r: char)
    ensures !('A' <= r <= 'Z')
    ensures 'A' <= ch <= 'Z' ==> r as int == ch as int + 32
    ensures !('A' <= ch <= 'Z') ==> r == ch
  {
    if 'A' <= ch <= 'Z' then (ch as int + 32) as char else ch
  }

  /** What a key press leads to: the program quits, or it carries on in a
      new state. */
  datatype Reaction = Quit | Continue(next: ControlState)

  /** A key press, matched after lower-casing: `q` and escape quit, `+` and
      `-` scale the time speed, `r` resets time speed and camera, any other
      key changes nothing. */
  function Keyboard(c: ControlState, key: char): (r: Reaction)
    ensures r.Quit? <==> key == 'q' || key == 'Q' || key == Escape
    ensures r.Continue? ==> r.next.dragging == c.dragging && r.next.lastX == c.lastX && r.next.lastY == c.lastY
    ensures r.Continue? && InRange(c) ==> InRange(r.next)
  {
    var k := Lower(key);
    if k == 'q' || k == Escape then Quit
    else if k == '+' then Continue(c.(timeSpeed := c.timeSpeed * SpeedFactor))
    else if k == '-' then Continue(c.(timeSpeed := c.timeSpeed / SpeedFactor))
    else if k == 'r' then Continue(c.(timeSpeed := 1.0, distance := HomeDistance, yaw := 0.0, pitch := 0.0))
    else Continue(c)
  }

  /** `r` and `R` restore the start-up time speed and camera whatever the
      state before, leaving the drag flag and last cursor alone. */
  lemma ResetRestoresHome(c: ControlState, key: char)
    requires key == 'r' || key == 'R'
    ensures Keyboard(c, key) == Continue(Initial.(dragging := c.dragging, lastX := c.lastX, lastY := c.lastY))
  {
  }

  /** `+` followed by `-`, or `-` followed by `+`, gives back the state
      (exactly, with reals for floats). */
  lemma SpeedKeysInverse(c: ControlState)
    ensures Keyboard(Keyboard(c, '+').next, '-') == Continue(c)
    ensures Keyboard(Keyboard(c, '-').next, '+') == Continue(c)
  {
  }

  /** A key that is none of q, Q, escape, +, -, r, R changes nothing. */
  lemma OtherKeysInert(c: ControlState, key: char)
    requires key !in {'q', 'Q', Escape, '+', '-', 'r', 'R'}
    ensures Keyboard(c, key) == Continue(c)
  {
  }

  /** `b` to the power `n`. */
  function Pow(b: real, n: nat): real
  {
    if n == 0 then 1.0 else b * Pow(b, n - 1)
  }

  /** The state after pressing `key` `n` times (a quit key ends the run). */
  function Presses(c: ControlState, key: char, n: nat): ControlState
  {
    if n == 0 then c
    else match Keyboard(Presses(c, key, n - 1), key)
      case Quit => Presses(c, key, n - 1)
      case Continue(next) => next
  }

  /** `n` presses of `+` multiply the time speed by 1.5 to the `n`, so from
      the start-up speed 1.0 it becomes 1.5 to the `n`; nothing else changes. */
  lemma {:induction false} PlusPressesCompound(c: ControlState, n: nat)
    ensures Presses(c, '+', n) == c.(timeSpeed := c.timeSpeed * Pow(SpeedFactor, n))
  {
    if n > 0 {
      PlusPressesCompound(c, n - 1);
      assert c.timeSpeed * Pow(SpeedFactor, n - 1) * SpeedFactor == c.timeSpeed * Pow(SpeedFactor, n);
    }
  }

  /** An input event as the windowing toolkit delivers it. */
  datatype Event =
    | Button(button: int, state: int, x: int, y: int)
    | Move(x: int, y: int)
    | Key(key: char)

  /** One event handled, by the handler the toolkit calls for it: only a
      quit key stops the program, and the clamping invariants are kept. */
  function Step(c: ControlState, e: Event): (r: Reaction)
    ensures r.Quit? <==> e.Key? && (e.key == 'q' || e.key == 'Q' || e.key == Escape)
    ensures r.Continue? && InRange(c) ==> InRange(r.next)
    ensures e.Move? && !c.dragging ==> r == Continue(c)
  {
    match e
    case Button(button, state, x, y) => Continue(Mouse(c, button, state, x, y))
    case Move(x, y) => Continue(Motion(c, x, y))
    case Key(key) => Keyboard(c, key)
  }

  /** The state after handling `events` in order, stopping at a quit key.
      Every sequence of events keeps the clamping invariants, and cursor moves
      alone, without a drag, change nothing. */
  function Run(c: ControlState, events: seq<Event>): (r: ControlState)
    ensures InRange(c) ==> InRange(r)
    ensures !c.dragging && (forall i :: 0 <= i < |events| ==> events[i].Move?) ==> r == c
    decreases |events|
  {
    if events == [] then c
    else match Step(c, events[0])
      case Quit => c
      case Continue(next) => Run(next, events[1..])
  }

  /** From start-up, whatever the user does, the camera distance stays in
      [5, 50], the pitch in [-89, 89] and the time speed positive. */
  lemma AlwaysInRange(events: seq<Event>)
    ensures MinDistance <= Run(Initial, events).distance <= MaxDistance
    ensures -PitchLimit <= Run(Initial, events).pitch <= PitchLimit
    ensures Run(Initial, events).timeSpeed > 0.0
  {
  }

  /** Releasing the left button ends the drag: a following cursor move
      changes nothing. */
  lemma ReleaseStopsDrag(c: ControlState, state: int, x: int, y: int, x2: int, y2: int)
    requires state != ButtonDown
    ensures Motion(Mouse(c, LeftButton, state, x, y), x2, y2) == Mouse(c, LeftButton, state, x, y)
  {
  }
}
