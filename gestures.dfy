/**
 Gesture resolution of the TiltMazes activity: how a fling velocity and a
 directional key press become (at most) one roll command for the ball.

 Screen coordinates are used throughout: x grows to the right and y grows
 downwards, so a fling with negative vertical velocity goes up.
 */
module Gestures {

  /** The roll directions. `NoDirection` is the source's `NONE`: a placeholder
      that is never handed to the engine. */
  datatype Direction = NoDirection | Up | Down | Left | Right

  /** An abstract key code: the four D-pad keys and every other key. */
  datatype Key = DpadLeft | DpadRight | DpadUp | DpadDown | OtherKey(code: int)

  function Abs(x: real): (r: real)
    ensures r >= 0.0 && (r == x || r == -x)
  {
    if x < 0.0 then -x else x
  }

  function Max(x: real, y: real): (r: real)
    ensures r >= x && r >= y && (r == x || r == y)
  {
    if x < y then y else x
  }

  predicate IsHorizontal(d: Direction) {
    d == Left || d == Right
  }

  /** The unit vector of a direction, in screen coordinates. */
  function UnitX(d: Direction): real {
    match d
    case Left => -1.0
    case Right => 1.0
    case _ => 0.0
  }

  function UnitY(d: Direction): real {
    match d
    case Up => -1.0
    case Down => 1.0
    case _ => 0.0
  }

  /** The component of the velocity (vx, vy) along direction d. */
  function Along(vx: real, vy: real, d: Direction): real {
    vx * UnitX(d) + vy * UnitY(d)
  }

  /** The direction a fling with velocity (vx, vy) rolls the ball: the axis
      with the strictly larger speed wins, a tie (the zero vector included)
      goes to the vertical axis, and on the chosen axis a negative component
      points left or up while zero counts as non-negative. */
  function ResolveFling(vx: real, vy: real): (d: Direction)
    ensures d != NoDirection
    ensures IsHorizontal(d) <==> Abs(vx) > Abs(vy)
    ensures Along(vx, vy, d) == Max(Abs(vx), Abs(vy))
  {
    if Abs(vx) > Abs(vy) then
      if vx < 0.0 then Left else Right
    else
      if vy < 0.0 then Up else Down
  }

  /** Horizontal flings: left for a negative x velocity, right otherwise. */
  lemma FlingHorizontal(vx: real, vy: real)
    requires Abs(vx) > Abs(vy)
    ensures ResolveFling(vx, vy) == (if vx < 0.0 then Left else Right)
  {
  }

  /** Vertical flings, ties included: up for a negative y velocity, down otherwise. */
  lemma FlingVertical(vx: real, vy: real)
    requires Abs(vx) <= Abs(vy)
    ensures ResolveFling(vx, vy) == (if vy < 0.0 then Up else Down)
  {
  }

  /** The two boundary cases: the zero vector rolls down, an exact up-left
      diagonal rolls up. */
  lemma FlingTieBreaks()
    ensures ResolveFling(0.0, 0.0) == Down
    ensures ResolveFling(-5.0, -5.0) == Up
    ensures ResolveFling(5.0, -5.0) == Up
    ensures ResolveFling(-5.0, 5.0) == Down
  {
  }

  /** The resolved direction is a closest one: no other direction has a larger
      component of the velocity along it, and when a horizontal direction does
      as well as a vertical one the vertical one is chosen. */
  lemma FlingIsClosestDirection(vx: real, vy: real, e: Direction)
    requires e != NoDirection
    ensures Along(vx, vy, e) <= Along(vx, vy, ResolveFling(vx, vy))
    ensures (e == Up || e == Down) && Along(vx, vy, e) == Along(vx, vy, ResolveFling(vx, vy))
            ==> !IsHorizontal(ResolveFling(vx, vy))
  {
  }

  /** The direction a key press rolls the ball; `NoDirection` for every key
      that is not a D-pad arrow. */
  function KeyDirection(k: Key): (d: Direction)
    ensures d == NoDirection <==> k.OtherKey?
  {
    match k
    case DpadLeft => Left
    case DpadRight => Right
    case DpadUp => Up
    case DpadDown => Down
    case OtherKey(_) => NoDirection
  }

  /** The D-pad key for each roll direction. */
  function KeyFor(d: Direction): (k: Key)
    requires d != NoDirection
    ensures !k.OtherKey?
  {
    match d
    case Left => DpadLeft
    case Right => DpadRight
    case Up => DpadUp
    case Down => DpadDown
  }

  /** Every roll direction has exactly one D-pad key, and that key yields it. */
  lemma KeyRoundTrip(d: Direction, k: Key)
    requires d != NoDirection
    ensures KeyDirection(KeyFor(d)) == d
    ensures KeyDirection(k) == d <==> k == KeyFor(d)
  {
  }

  /** A fling along the unit vector of a D-pad key's direction rolls the ball
      the same way as pressing that key. */
  lemma FlingAgreesWithKeys(k: Key)
    requires !k.OtherKey?
    ensures ResolveFling(UnitX(KeyDirection(k)), UnitY(KeyDirection(k))) == KeyDirection(k)
  {
  }
}
