/**
 * The vocabulary shared by both random-walk variants (scripts/MoveBehavior.js and
 * scripts/Agent.js): the eight compass names, their headings on screen, the wall
 * tests, and the uniform draws that stand for Math.random().
 */
module Motion {

  /**
   * A direction as the switch of getRandomMove sees it: one of the eight compass
   * names, or any other string, which matches no case.
   */
  datatype Direction = Top | TopLeft | Left | BottomLeft | Bottom | BottomRight | Right | TopRight
                     | Other(text: string)

  /** The string each direction stands for in the source. */
  function Label(d: Direction): (s: string)
    ensures d.Other? ==> s == d.text
  {
    match d
    case Top => "top"
    case TopLeft => "top-left"
    case Left => "left"
    case BottomLeft => "bottom-left"
    case Bottom => "bottom"
    case BottomRight => "bottom-right"
    case Right => "right"
    case TopRight => "top-right"
    case Other(text) => text
  }

  /** The string form is faithful: two directions with the same label are the same,
      as long as `Other` never carries one of the eight names. */
  predicate Canonical(d: Direction) {
    d.Other? ==> d.text !in {"top", "top-left", "left", "bottom-left", "bottom", "bottom-right", "right", "top-right"}
  }

  lemma LabelInjective(d: Direction, e: Direction)
    requires Canonical(d) && Canonical(e) && Label(d) == Label(e)
    ensures d == e
  {
  }

  /** The direction a source string stands for: the canonical one, so that a string
      naming one of the eight cases is never read as `Other`. */
  function Parse(s: string): (d: Direction)
    ensures Canonical(d) && Label(d) == s
  {
    if s == "top" then Top
    else if s == "top-left" then TopLeft
    else if s == "left" then Left
    else if s == "bottom-left" then BottomLeft
    else if s == "bottom" then Bottom
    else if s == "bottom-right" then BottomRight
    else if s == "right" then Right
    else if s == "top-right" then TopRight
    else Other(s)
  }

  /** The eight directions, in the order both classes list them. */
  const Names: seq<Direction> := [Top, TopLeft, Left, BottomLeft, Bottom, BottomRight, Right, TopRight]

  /** The empty string, the "no change yet" marker of the switch. JavaScript's
      `undefined`, read past the end of an empty direction list, is modelled by it
      too: both match no case. */
  const Empty: Direction := Other("")

  /** A component of a heading: -1, 0 or +1. */
  predicate IsUnit(s: int) { -1 <= s <= 1 }

  /**
   * The heading of a direction name on the canvas, whose y axis grows downwards:
   * "top" is (0, -1) and "bottom-right" is (1, 1). A name that is not one of the
   * eight has heading (0, 0).
   */
  function Heading(d: Direction): (h: (int, int))
    ensures IsUnit(h.0) && IsUnit(h.1)
    ensures h != (0, 0) <==> d in Names
  {
    match d
    case Top => (0, -1)
    case TopLeft => (-1, -1)
    case Left => (-1, 0)
    case BottomLeft => (-1, 1)
    case Bottom => (0, 1)
    case BottomRight => (1, 1)
    case Right => (1, 0)
    case TopRight => (1, -1)
    case Other(_) => (0, 0)
  }

  /** The direction name of a non-zero heading; the inverse of Heading. */
  function NameOf(sx: int, sy: int): (d: Direction)
    requires IsUnit(sx) && IsUnit(sy) && (sx, sy) != (0, 0)
    ensures d in Names && Heading(d) == (sx, sy)
  {
    if sx < 0 then (if sy < 0 then TopLeft else if sy == 0 then Left else BottomLeft)
    else if sx == 0 then (if sy < 0 then Top else Bottom)
    else (if sy < 0 then TopRight else if sy == 0 then Right else BottomRight)
  }

  /** Naming the heading of a named direction gives the direction back. */
  lemma NameOfHeading(d: Direction)
    requires d in Names
    ensures NameOf(Heading(d).0, Heading(d).1) == d
  {
  }

  /** `Math.floor(u * n)` for a draw u of Math.random(): an index into a list of length n. */
  function IndexDraw(u: real, n: nat): (k: nat)
    requires 0.0 <= u < 1.0
    ensures n > 0 ==> k < n
    ensures n == 0 ==> k == 0
  {
    var p := u * n as real;
    assert 0.0 <= p && (n > 0 ==> p < n as real) && (n == 0 ==> p == 0.0) by {
      if n > 0 {
        assert u * n as real < 1.0 * n as real;
      }
    }
    p.Floor
  }

  /** `directions[Math.floor(u * directions.length)]`: a uniformly drawn element, or
      `undefined` (Empty) when the list is empty. */
  function Pick(directions: seq<Direction>, u: real): (d: Direction)
    requires 0.0 <= u < 1.0
    ensures |directions| > 0 ==> d in directions
    ensures |directions| == 0 ==> d == Empty
  {
    var k := IndexDraw(u, |directions|);
    if k < |directions| then directions[k] else Empty
  }

  /** The position, radius and canvas size a move is computed from. */
  datatype Geometry = Geometry(x: real, y: real, radius: real, width: real, height: real)

  /** The three Math.random() results a call of getRandomMove may consume: the draw
      for the cooldown after a reflection (always taken), and, when the countdown
      has run out, the draws for the new countdown and for the new direction. */
  datatype Draws = Draws(border: real, iteration: real, direction: real)

  predicate ValidDraws(d: Draws) {
    0.0 <= d.border < 1.0 && 0.0 <= d.iteration < 1.0 && 0.0 <= d.direction < 1.0
  }

  /** What one call of getRandomMove returns and leaves in the two fields it updates. */
  datatype Outcome = Outcome(dx: real, dy: real, direction: Direction, iteration: int)

  /** Whether a heading with horizontal component sx points at a wall that is within
      `radius + speed * 2` of the position. */
  predicate NearXWall(sx: int, speed: real, g: Geometry) {
    (sx < 0 && g.x <= g.radius + speed * 2.0) || (sx > 0 && g.x >= g.width - g.radius - speed * 2.0)
  }

  /** The same test on the vertical axis ("top" is sy < 0). */
  predicate NearYWall(sy: int, speed: real, g: Geometry) {
    (sy < 0 && g.y <= g.radius + speed * 2.0) || (sy > 0 && g.y >= g.height - g.radius - speed * 2.0)
  }

  /** The agent is inside the canvas: each coordinate is at least the floored radius,
      the lowest value getRandomX and getRandomY return, and below the extent minus the
      radius. */
  predicate Inside(g: Geometry) {
    && g.radius.Floor as real <= g.x < g.width - g.radius
    && g.radius.Floor as real <= g.y < g.height - g.radius
  }

  /** A canvas with room to turn round: a positive speed and radius, and each extent
      larger than the diameter plus three steps. */
  predicate Roomy(speed: real, g: Geometry) {
    0.0 < speed && 0.0 < g.radius
    && 2.0 * g.radius + 3.0 * speed < g.width && 2.0 * g.radius + 3.0 * speed < g.height
  }

  /** The displacement on one axis: zero when the heading has no component there,
      otherwise speed in the heading's sense, turned round when near the wall. */
  function AxisMove(s: int, near: bool, speed: real): (m: real)
    requires IsUnit(s)
    ensures s == 0 ==> m == 0.0
    ensures s > 0 ==> m == if near then -speed else speed
    ensures s < 0 ==> m == if near then speed else -speed
  {
    if s == 0 then 0.0 else if (s < 0) == near then speed else -speed
  }
}
