/**
 * The newer random-walk policy of scripts/MoveBehavior.js: a direction that persists
 * for a countdown of calls, redrawn from an injected list when the countdown runs out,
 * and turned away from any wall the agent comes close to.
 */
module MoveBehavior {
  import opened Motion

  /** `Math.floor(Math.random() * 4) + 6`: a countdown in 6..9. */
  function CooldownDraw(u: real): (n: int)
    requires 0.0 <= u < 1.0
    ensures 6 <= n <= 9
  {
    (u * 4.0).Floor + 6
  }

  /** The countdown stage: when the counter has run out (is zero or below) a new
      counter and a new direction are drawn; otherwise the counter goes down by one. */
  function Countdown(direction: Direction, iteration: int, directions: seq<Direction>, d: Draws): (c: (Direction, int))
    requires ValidDraws(d)
  {
    if iteration <= 0 then (Pick(directions, d.direction), CooldownDraw(d.iteration))
    else (direction, iteration - 1)
  }

  /** Whether the current direction points at a wall within the margin. */
  predicate Reflects(current: Direction, speed: real, g: Geometry) {
    NearXWall(Heading(current).0, speed, g) || NearYWall(Heading(current).1, speed, g)
  }

  /**
   * The direction stored after a reflection. Turning round on the x axis keeps the
   * vertical component (turned round too if that wall is also near); turning round
   * on the y axis alone keeps only the new vertical component.
   */
  function Reflected(h: (int, int), hitX: bool, hitY: bool): (d: Direction)
    requires IsUnit(h.0) && IsUnit(h.1) && (hitX || hitY)
    requires (hitX ==> h.0 != 0) && (hitY ==> h.1 != 0)
    ensures d in Names
  {
    if hitX then NameOf(-h.0, if hitY then -h.1 else h.1) else NameOf(0, -h.1)
  }

  /**
   * The steering stage, from the direction and counter in force after the countdown:
   * on each axis the heading has a component on, the agent moves speed in its sense,
   * or turns round when that wall is near, in which case the reflected direction and
   * the cooldown `border` are stored. A name that is not one of the eight falls
   * through to the fallback move (speed, speed).
   */
  function Steer(current: Direction, count: int, speed: real, g: Geometry, border: int): Outcome {
    var h := Heading(current);
    if h == (0, 0) then Outcome(speed, speed, current, count)
    else
      var hitX := NearXWall(h.0, speed, g);
      var hitY := NearYWall(h.1, speed, g);
      var dx := AxisMove(h.0, hitX, speed);
      var dy := AxisMove(h.1, hitY, speed);
      if hitX || hitY then Outcome(dx, dy, Reflected(h, hitX, hitY), border)
      else Outcome(dx, dy, current, count)
  }

  /** One call of getRandomMove: the move and the new values of the two fields, given
      the fields before the call, the speed, the direction list, the geometry and the draws. */
  function Step(direction: Direction, iteration: int, speed: real, directions: seq<Direction>,
                g: Geometry, d: Draws): Outcome
    requires ValidDraws(d)
  {
    var (current, count) := Countdown(direction, iteration, directions, d);
    Steer(current, count, speed, g, CooldownDraw(d.border))
  }

  /**
   * The countdown rule: a counter at or below zero is replaced by a draw in 6..9 and
   * the direction is redrawn from the list; any other counter goes down by exactly
   * one. A reflection then overrides the counter with this call's border draw.
   */
  lemma CountdownRule(direction: Direction, iteration: int, speed: real, directions: seq<Direction>,
                      g: Geometry, d: Draws)
    requires ValidDraws(d)
    ensures var (current, count) := Countdown(direction, iteration, directions, d);
            var o := Step(direction, iteration, speed, directions, g, d);
            && (iteration <= 0 ==> current == Pick(directions, d.direction) && 6 <= count <= 9
                                   && count == CooldownDraw(d.iteration))
            && (iteration > 0 ==> current == direction && count == iteration - 1)
            && (Reflects(current, speed, g) ==> o.iteration == CooldownDraw(d.border) && 6 <= o.iteration <= 9)
            && (!Reflects(current, speed, g) ==> o.iteration == count && o.direction == current)
  {
  }

  /** One call keeps the counter in 0..9. */
  lemma StepIterationInRange(direction: Direction, iteration: int, speed: real, directions: seq<Direction>,
                             g: Geometry, d: Draws)
    requires ValidDraws(d) && iteration <= 9
    ensures 0 <= Step(direction, iteration, speed, directions, g, d).iteration <= 9
  {
  }

  /** A call stores a canonical direction when the list and the stored direction are. */
  lemma StepCanonical(direction: Direction, iteration: int, speed: real, directions: seq<Direction>,
                      g: Geometry, d: Draws)
    requires ValidDraws(d) && Canonical(direction)
    requires forall k :: 0 <= k < |directions| ==> Canonical(directions[k])
    ensures Canonical(Step(direction, iteration, speed, directions, g, d).direction)
  {
    if iteration <= 0 && |directions| > 0 {
      assert Pick(directions, d.direction) == directions[IndexDraw(d.direction, |directions|)];
    }
  }

  /** The arguments of one call of getRandomMove. */
  datatype Call = Call(g: Geometry, d: Draws)

  predicate ValidCalls(calls: seq<Call>) {
    forall k :: 0 <= k < |calls| ==> ValidDraws(calls[k].d)
  }

  /** The direction and counter after a sequence of calls. */
  function Replay(direction: Direction, iteration: int, speed: real, directions: seq<Direction>,
                  calls: seq<Call>): (Direction, int)
    requires ValidCalls(calls)
    decreases |calls|
  {
    if calls == [] then (direction, iteration)
    else
      var o := Step(direction, iteration, speed, directions, calls[0].g, calls[0].d);
      Replay(o.direction, o.iteration, speed, directions, calls[1..])
  }

  /** Starting anywhere in 0..9 (the constructor starts at 2), the counter stays in
      0..9 across any number of calls. */
  lemma {:induction false} ReplayIterationInRange(direction: Direction, iteration: int, speed: real,
                                                  directions: seq<Direction>, calls: seq<Call>)
    requires ValidCalls(calls) && 0 <= iteration <= 9
    ensures 0 <= Replay(direction, iteration, speed, directions, calls).1 <= 9
    decreases |calls|
  {
    if calls != [] {
      var o := Step(direction, iteration, speed, directions, calls[0].g, calls[0].d);
      StepIterationInRange(direction, iteration, speed, directions, calls[0].g, calls[0].d);
      assert ValidCalls(calls[1..]) by {
        forall k | 0 <= k < |calls[1..]| ensures ValidDraws(calls[1..][k].d) {
          assert calls[1..][k] == calls[k + 1];
        }
      }
      ReplayIterationInRange(o.direction, o.iteration, speed, directions, calls[1..]);
    }
  }

  /**
   * The shape of a move: each component is -speed, 0 or +speed, a non-zero speed never
   * gives the zero move, and a name that matches no case gives the fallback (speed, speed).
   */
  lemma MoveShape(direction: Direction, iteration: int, speed: real, directions: seq<Direction>,
                  g: Geometry, d: Draws)
    requires ValidDraws(d)
    ensures var o := Step(direction, iteration, speed, directions, g, d);
            && (o.dx == -speed || o.dx == 0.0 || o.dx == speed)
            && (o.dy == -speed || o.dy == 0.0 || o.dy == speed)
            && (speed != 0.0 ==> (o.dx, o.dy) != (0.0, 0.0))
            && (Countdown(direction, iteration, directions, d).0 !in Names ==> (o.dx, o.dy) == (speed, speed))
  {
  }

  /**
   * Wall avoidance: on each axis where the current direction points at a wall within
   * `radius + speed * 2`, the move on that axis is away from the wall; where it points
   * at a wall that is farther, the move keeps the direction's sense.
   */
  lemma WallAvoidance(direction: Direction, iteration: int, speed: real, directions: seq<Direction>,
                      g: Geometry, d: Draws)
    requires ValidDraws(d)
    ensures var h := Heading(Countdown(direction, iteration, directions, d).0);
            var o := Step(direction, iteration, speed, directions, g, d);
            && (h.1 < 0 ==> o.dy == (if g.y <= g.radius + 2.0 * speed then speed else -speed))
            && (h.1 > 0 ==> o.dy == (if g.y >= g.height - g.radius - 2.0 * speed then -speed else speed))
            && (h.0 < 0 ==> o.dx == (if g.x <= g.radius + 2.0 * speed then speed else -speed))
            && (h.0 > 0 ==> o.dx == (if g.x >= g.width - g.radius - 2.0 * speed then -speed else speed))
  {
  }

  /**
   * The reflection table for a diagonal direction: both walls near turn both
   * components round; the x wall alone turns the horizontal one; the y wall alone
   * leaves the vertical direction turned round.
   */
  lemma ReflectionTable(direction: Direction, iteration: int, speed: real, directions: seq<Direction>,
                        g: Geometry, d: Draws)
    requires ValidDraws(d)
    requires var h := Heading(Countdown(direction, iteration, directions, d).0); h.0 != 0 && h.1 != 0
    ensures var h := Heading(Countdown(direction, iteration, directions, d).0);
            var hitX, hitY := NearXWall(h.0, speed, g), NearYWall(h.1, speed, g);
            var o := Step(direction, iteration, speed, directions, g, d);
            && (hitX && hitY ==> o.direction == NameOf(-h.0, -h.1))
            && (hitX && !hitY ==> o.direction == NameOf(-h.0, h.1))
            && (!hitX && hitY ==> o.direction == NameOf(0, -h.1))
  {
  }

  /** The table written out for "top-left" with a countdown still running. */
  lemma TopLeftReflections(iteration: int, speed: real, directions: seq<Direction>, g: Geometry, d: Draws)
    requires ValidDraws(d) && iteration > 0
    ensures var top := g.y <= g.radius + speed * 2.0;
            var left := g.x <= g.radius + speed * 2.0;
            var o := Step(TopLeft, iteration, speed, directions, g, d);
            && (top && left ==> o.direction == BottomRight)
            && (!top && left ==> o.direction == TopRight)
            && (top && !left ==> o.direction == Bottom)
            && (!top && !left ==> o.direction == TopLeft && o.iteration == iteration - 1)
  {
  }

  /**
   * A named direction stays named: if the direction in force after the countdown is
   * one of the eight, so is the stored one, and each non-zero component of its heading
   * has the sign of the move on that axis.
   */
  lemma NamedStaysNamed(direction: Direction, iteration: int, speed: real, directions: seq<Direction>,
                        g: Geometry, d: Draws)
    requires ValidDraws(d) && speed > 0.0
    requires iteration > 0 ==> direction in Names
    requires iteration <= 0 ==> |directions| > 0 && forall k :: 0 <= k < |directions| ==> directions[k] in Names
    ensures var o := Step(direction, iteration, speed, directions, g, d);
            var h := Heading(o.direction);
            && o.direction in Names
            && (h.0 > 0 ==> o.dx > 0.0) && (h.0 < 0 ==> o.dx < 0.0)
            && (h.1 > 0 ==> o.dy > 0.0) && (h.1 < 0 ==> o.dy < 0.0)
  {
    var (current, count) := Countdown(direction, iteration, directions, d);
    assert current in Names;
  }

  /** Cardinal directions move along their own axis only. */
  lemma CardinalMoves(direction: Direction, iteration: int, speed: real, directions: seq<Direction>,
                      g: Geometry, d: Draws)
    requires ValidDraws(d)
    ensures var current := Countdown(direction, iteration, directions, d).0;
            var o := Step(direction, iteration, speed, directions, g, d);
            && (current == Top || current == Bottom ==> o.dx == 0.0 && (speed != 0.0 ==> o.dy != 0.0))
            && (current == Left || current == Right ==> o.dy == 0.0 && (speed != 0.0 ==> o.dx != 0.0))
  {
  }

  /** While the direction in force is one of the eight, a call keeps the position inside
      a roomy canvas; only the fallback move of a name that matches no case may leave it. */
  lemma StepStaysInside(direction: Direction, iteration: int, speed: real, directions: seq<Direction>,
                        g: Geometry, d: Draws)
    requires ValidDraws(d) && Roomy(speed, g) && Inside(g)
    ensures var o := Step(direction, iteration, speed, directions, g, d);
            Countdown(direction, iteration, directions, d).0 in Names ==> Inside(g.(x := g.x + o.dx, y := g.y + o.dy))
  {
  }

  class MoveBehavior {
    var directions: seq<Direction>
    var directionIteration: int
    var moveDirection: Direction
    var speed: real

    /** The countdown the class keeps between calls, and directions that stand for their
        source strings canonically (a string naming a case is never an `Other`). */
    ghost predicate Valid()
      reads this
    {
      && 0 <= directionIteration <= 9
      && Canonical(moveDirection)
      && Listed()
    }

    /** Every direction of the list is canonical. */
    ghost predicate Listed()
      reads this`directions
    {
      forall k :: 0 <= k < |directions| ==> Canonical(directions[k])
    }

    /** Stores the speed and the direction list and draws the first direction from it.
        The list is given in canonical form, as `Parse` yields it from the source strings. */
    constructor (speed: real, directions: seq<Direction>, u: real)
      requires 0.0 <= u < 1.0
      requires forall k :: 0 <= k < |directions| ==> Canonical(directions[k])
      ensures Valid()
      ensures this.speed == speed && this.directions == directions
      ensures directionIteration == 2 && moveDirection == Pick(directions, u)
    {
      this.speed := speed;
      this.directions := directions;
      directionIteration := 2;
      moveDirection := Pick(directions, u);
    }

    /**
     * The next move from (positionX, positionY). Only the stored direction and the
     * countdown change; the result and the new fields are those of Step.
     */
    method GetRandomMove(positionX: real, positionY: real, radius: real, canvasWidth: real,
                         canvasHeight: real, draws: Draws) returns (moveX: real, moveY: real)
      requires Valid() && ValidDraws(draws)
      modifies this`moveDirection, this`directionIteration
      ensures Valid()
      ensures Outcome(moveX, moveY, moveDirection, directionIteration)
           == Step(old(moveDirection), old(directionIteration), speed, directions,
                   Geometry(positionX, positionY, radius, canvasWidth, canvasHeight), draws)
    {
      ghost var g := Geometry(positionX, positionY, radius, canvasWidth, canvasHeight);
      ghost var before := (moveDirection, directionIteration);
      var randomBorderChangeDirection := CooldownDraw(draws.border);

      if directionIteration <= 0 {
        directionIteration := CooldownDraw(draws.iteration);
        moveDirection := Pick(directions, draws.direction);
      } else {
        directionIteration := directionIteration - 1;
      }
      assert (moveDirection, directionIteration) == Countdown(before.0, before.1, directions, draws);
      StepCanonical(before.0, before.1, speed, directions, g, draws);
      StepIterationInRange(before.0, before.1, speed, directions, g, draws);
      moveX, moveY := Switch(positionX, positionY, radius, canvasWidth, canvasHeight, randomBorderChangeDirection);
    }

    /** The switch of getRandomMove on the direction left by the countdown, and the
        fallback move after it. */
    method Switch(positionX: real, positionY: real, radius: real, canvasWidth: real,
                  canvasHeight: real, randomBorderChangeDirection: int) returns (moveX: real, moveY: real)
      modifies this`moveDirection, this`directionIteration
      ensures Outcome(moveX, moveY, moveDirection, directionIteration)
           == Steer(old(moveDirection), old(directionIteration), speed,
                    Geometry(positionX, positionY, radius, canvasWidth, canvasHeight), randomBorderChangeDirection)
    {
      ghost var target := Steer(moveDirection, directionIteration, speed,
                                Geometry(positionX, positionY, radius, canvasWidth, canvasHeight),
                                randomBorderChangeDirection);
      moveX := 0.0;
      moveY := 0.0;
      var directionChange := Empty;

      if moveDirection == Top {
        if positionY <= radius + speed * 2.0 {
          moveY := speed;
          directionChange := Bottom;
        } else {
          moveY := -speed;
        }
        if directionChange != Empty {
          moveDirection := directionChange;
          directionIteration := randomBorderChangeDirection;
        }
      } else if moveDirection == TopLeft {
        if positionY <= radius + speed * 2.0 {
          moveY := speed;
          directionChange := Bottom;
        } else {
          moveY := -speed;
        }
        if positionX <= radius + speed * 2.0 {
          moveX := speed;
          directionChange := if directionChange != Empty then BottomRight else TopRight;
        } else {
          moveX := -speed;
        }
        if directionChange != Empty {
          moveDirection := directionChange;
          directionIteration := randomBorderChangeDirection;
        }
      } else if moveDirection == Left {
        if positionX <= radius + speed * 2.0 {
          moveX := speed;
          directionChange := Right;
        } else {
          moveX := -speed;
        }
        if directionChange != Empty {
          moveDirection := directionChange;
          directionIteration := randomBorderChangeDirection;
        }
      } else if moveDirection == BottomLeft {
        if positionY >= canvasHeight - radius - speed * 2.0 {
          moveY := -speed;
          directionChange := Top;
        } else {
          moveY := speed;
        }
        if positionX <= radius + speed * 2.0 {
          moveX := speed;
          directionChange := if directionChange != Empty then TopRight else BottomRight;
        } else {
          moveX := -speed;
        }
        if directionChange != Empty {
          moveDirection := directionChange;
          directionIteration := randomBorderChangeDirection;
        }
      } else if moveDirection == Bottom {
        if positionY >= canvasHeight - radius - speed * 2.0 {
          moveY := -speed;
          directionChange := Top;
        } else {
          moveY := speed;
        }
        if directionChange != Empty {
          moveDirection := directionChange;
          directionIteration := randomBorderChangeDirection;
        }
      } else if moveDirection == BottomRight {
        if positionY >= canvasHeight - radius - speed * 2.0 {
          moveY := -speed;
          directionChange := Top;
        } else {
          moveY := speed;
        }
        if positionX >= canvasWidth - radius - speed * 2.0 {
          moveX := -speed;
          directionChange := if directionChange != Empty then TopLeft else BottomLeft;
        } else {
          moveX := speed;
        }
        if directionChange != Empty {
          moveDirection := directionChange;
          directionIteration := randomBorderChangeDirection;
        }
      } else if moveDirection == Right {
        if positionX >= canvasWidth - radius - speed * 2.0 {
          moveX := -speed;
          directionChange := Left;
        } else {
          moveX := speed;
        }
        if directionChange != Empty {
          moveDirection := directionChange;
          directionIteration := randomBorderChangeDirection;
        }
      } else if moveDirection == TopRight {
        if positionY <= radius + speed * 2.0 {
          moveY := speed;
          directionChange := Bottom;
        } else {
          moveY := -speed;
        }
        if positionX >= canvasWidth - radius - speed * 2.0 {
          moveX := -speed;
          directionChange := if directionChange != Empty then BottomLeft else TopLeft;
        } else {
          moveX := speed;
        }
        if directionChange != Empty {
          moveDirection := directionChange;
          directionIteration := randomBorderChangeDirection;
        }
      }

      // Always move.
      if moveX == 0.0 && moveY == 0.0 {
        moveX := speed;
        moveY := speed;
      }
      assert Outcome(moveX, moveY, moveDirection, directionIteration) == target;
    }
  }
}
