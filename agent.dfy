/**
 * scripts/Agent.js: an agent with a position on the canvas, a health state and its own
 * (older) random walk, plus the two counters the class keeps for all agents.
 */
module Agents {
  import opened Wrappers
  import opened Motion
  import MoveBehavior

  datatype State = Normal | Infected

  /** The one agent whose infection raises no event. */
  const Observer := "Ismael"

  /** A transmission happens when the draw is at least this (probability 0.8). */
  const TransmissionCutoff := 0.2

  // ---------------------------------------------------------------------------
  // The random walk of Agent.getRandomMove
  // ---------------------------------------------------------------------------

  /** `Math.floor(Math.random() * 6 - 2) + 2`: a countdown in 0..5. */
  function CooldownDraw(u: real): (n: int)
    requires 0.0 <= u < 1.0
    ensures 0 <= n <= 5
  {
    (u * 6.0 - 2.0).Floor + 2
  }

  /** The strings stored after a reflection on the x axis alone from a diagonal: none of
      the eight names. */
  const SentinelRight := Other("-right")
  const SentinelLeft := Other("-left")

  predicate IsSentinel(d: Direction) {
    d == SentinelRight || d == SentinelLeft
  }

  /** The countdown stage: a new counter and direction exactly when the counter is 0,
      otherwise one less (so a negative counter would only keep decreasing). */
  function Countdown(direction: Direction, iteration: int, d: Draws): (c: (Direction, int))
    requires ValidDraws(d)
  {
    if iteration == 0 then (Pick(Names, d.direction), CooldownDraw(d.iteration))
    else (direction, iteration - 1)
  }

  /**
   * The direction stored after a reflection. The y wall alone leaves the vertical
   * direction turned round. The x wall leaves the horizontal direction turned round
   * when the heading had no vertical component or the y wall was near too; from a
   * diagonal with only the x wall near it leaves that name prefixed with "-".
   */
  function Reflected(h: (int, int), hitX: bool, hitY: bool): (d: Direction)
    requires IsUnit(h.0) && IsUnit(h.1) && (hitX || hitY)
    requires (hitX ==> h.0 != 0) && (hitY ==> h.1 != 0)
    ensures d in Names || IsSentinel(d)
  {
    if hitX then
      (if h.1 == 0 || hitY then NameOf(-h.0, 0)
       else if -h.0 > 0 then SentinelRight else SentinelLeft)
    else NameOf(0, -h.1)
  }

  /** The steering stage, as in MoveBehavior but with the reflections above; a string
      that is none of the eight names (a sentinel) gives the move (0, 0): this variant
      has no fallback. */
  function Steer(current: Direction, count: int, speed: real, g: Geometry, border: int): Outcome {
    var h := Heading(current);
    if h == (0, 0) then Outcome(0.0, 0.0, current, count)
    else
      var hitX := NearXWall(h.0, speed, g);
      var hitY := NearYWall(h.1, speed, g);
      var dx := AxisMove(h.0, hitX, speed);
      var dy := AxisMove(h.1, hitY, speed);
      if hitX || hitY then Outcome(dx, dy, Reflected(h, hitX, hitY), border)
      else Outcome(dx, dy, current, count)
  }

  /** One call of Agent.getRandomMove. */
  function Step(direction: Direction, iteration: int, speed: real, g: Geometry, d: Draws): Outcome
    requires ValidDraws(d)
  {
    var (current, count) := Countdown(direction, iteration, d);
    Steer(current, count, speed, g, CooldownDraw(d.border))
  }

  /** `Math.floor(max(u * extent, 2 * radius) - radius)`: getRandomX and getRandomY. */
  function SpawnCoordinate(u: real, extent: real, radius: real): (c: int)
    requires 0.0 <= u < 1.0
    ensures c >= radius.Floor
    ensures 0.0 < extent && 2.0 * radius < extent ==> c as real < extent - radius
  {
    var v := u * extent;
    assert 0.0 < extent ==> v < extent by {
      if 0.0 < extent { assert u * extent < 1.0 * extent; }
    }
    var clamped := if v < radius * 2.0 then radius * 2.0 else v;
    assert (clamped - radius).Floor as real <= clamped - radius;
    (clamped - radius).Floor
  }

  // ---------------------------------------------------------------------------
  // Snapshots: the value of an agent's fields, on which the specification works
  // ---------------------------------------------------------------------------

  datatype Snapshot = Snapshot(id: int, name: string, state: State, x: real, y: real,
                               width: real, height: real, radius: real,
                               direction: Direction, iteration: int, speed: real)

  function Geo(a: Snapshot): Geometry {
    Geometry(a.x, a.y, a.radius, a.width, a.height)
  }

  /** run(): the agent moves by exactly the move of getRandomMove; only the position,
      the direction and the countdown change. */
  function Advance(a: Snapshot, d: Draws): (b: Snapshot)
    requires ValidDraws(d)
    ensures b == a.(x := b.x, y := b.y, direction := b.direction, iteration := b.iteration)
  {
    var o := Step(a.direction, a.iteration, a.speed, Geo(a), d);
    a.(x := a.x + o.dx, y := a.y + o.dy, direction := o.direction, iteration := o.iteration)
  }

  /** `Math.sqrt(dx * dx + dy * dy) < reach`, without the square root. */
  predicate WithinReach(dx: real, dy: real, reach: real) {
    0.0 < reach && dx * dx + dy * dy < reach * reach
  }

  /** The test agrees with the distance for any non-negative square root `dist`. */
  lemma WithinReachIsDistanceTest(dx: real, dy: real, reach: real, dist: real)
    requires 0.0 <= dist && dist * dist == dx * dx + dy * dy
    ensures WithinReach(dx, dy, reach) <==> dist < reach
  {
    if reach <= 0.0 {
      assert !WithinReach(dx, dy, reach) && !(dist < reach);
    } else if dist < reach {
      calc {
        dx * dx + dy * dy;
      ==
        dist * dist;
      <= { assert dist * dist <= dist * reach; }
        dist * reach;
      <
        reach * reach;
      }
    } else {
      calc {
        reach * reach;
      <=
        reach * dist;
      <= { assert reach * dist <= dist * dist; }
        dist * dist;
      ==
        dx * dx + dy * dy;
      }
    }
  }

  /** Whether an infected agent at (x, y) with radius r infects agent b with draw u. */
  predicate Transmits(x: real, y: real, r: real, b: Snapshot, u: real) {
    WithinReach(x - b.x, y - b.y, r + b.radius) && u >= TransmissionCutoff && b.state == Normal
  }

  /** Agent b after an infected agent at (x, y) with radius r has checked it with draw u. */
  function Contacted(x: real, y: real, r: real, b: Snapshot, u: real): Snapshot {
    if Transmits(x, y, r, b, u) then b.(state := Infected) else b
  }

  /** The event infectAgent raises for an agent with this name, as a list of names. */
  function InfectionEvent(name: string): (e: seq<string>)
    ensures e == [] <==> name == Observer
  {
    if name != Observer then [name] else []
  }

  /** What isColliding does to a list of agents: their new values, the names carried by
      the events raised, in order, and the number of infections. */
  datatype Contact = Contact(agents: seq<Snapshot>, events: seq<string>, infections: nat)

  function Collide(x: real, y: real, r: real, others: seq<Snapshot>, draws: seq<real>): (c: Contact)
    requires |draws| == |others|
    ensures |c.agents| == |others| && c.infections <= |others|
    decreases |others|
  {
    if others == [] then Contact([], [], 0)
    else
      var n := |others| - 1;
      var c := Collide(x, y, r, others[..n], draws[..n]);
      var b := others[n];
      if Transmits(x, y, r, b, draws[n]) then
        Contact(c.agents + [b.(state := Infected)], c.events + InfectionEvent(b.name), c.infections + 1)
      else
        Contact(c.agents + [b], c.events, c.infections)
  }

  /** The number of infected agents in a list. */
  function InfectedCount(s: seq<Snapshot>): (n: nat)
    ensures n <= |s|
    decreases |s|
  {
    if s == [] then 0
    else InfectedCount(s[..|s| - 1]) + (if s[|s| - 1].state == Infected then 1 else 0)
  }

  // ---------------------------------------------------------------------------
  // The two class-wide counters and the agents
  // ---------------------------------------------------------------------------

  /** The static fields `#numberOfAgents` and `#numberOfAgentsInfected`, shared by
      every agent through one object. */
  class Registry {
    var numberOfAgents: int
    var numberOfAgentsInfected: int

    constructor ()
      ensures numberOfAgents == 0 && numberOfAgentsInfected == 0
    {
      numberOfAgents := 0;
      numberOfAgentsInfected := 0;
    }

    /** restoreAgent(): both counters back to zero. */
    method RestoreAgent()
      modifies this
      ensures numberOfAgents == 0 && numberOfAgentsInfected == 0
    {
      numberOfAgents := 0;
      numberOfAgentsInfected := 0;
    }
  }

  /** The draws a construction consumes: one for each coordinate and one for the direction. */
  datatype Spawn = Spawn(x: real, y: real, heading: real)

  predicate ValidSpawn(s: Spawn) {
    0.0 <= s.x < 1.0 && 0.0 <= s.y < 1.0 && 0.0 <= s.heading < 1.0
  }

  /** A freshly constructed agent: normal, placed by getRandomX and getRandomY, heading
      the drawn direction, with the initial countdown 2 and speed 5. */
  function Newborn(id: int, name: string, width: real, height: real, radius: real, spawn: Spawn): Snapshot
    requires ValidSpawn(spawn)
  {
    Snapshot(id, name, Normal,
             SpawnCoordinate(spawn.x, width, radius) as real,
             SpawnCoordinate(spawn.y, height, radius) as real,
             width, height, radius, Pick(Names, spawn.heading), 2, 5.0)
  }

  function Snap(a: Agent): Snapshot
    reads a
  {
    Snapshot(a.id, a.name, a.state, a.positionX, a.positionY, a.canvasWidth, a.canvasHeight,
             a.radius, a.moveDirection, a.directionIteration, a.speed)
  }

  function Snaps(s: seq<Agent>): (r: seq<Snapshot>)
    reads s
    ensures |r| == |s|
  {
    seq(|s|, k requires 0 <= k < |s| reads s => Snap(s[k]))
  }

  predicate Distinct(s: seq<Agent>) {
    forall i, j :: 0 <= i < j < |s| ==> s[i] != s[j]
  }

  /** The snapshots of a list, one agent at a time. */
  lemma SnapsAre(s: seq<Agent>, r: seq<Snapshot>)
    requires |r| == |s| && forall j :: 0 <= j < |s| ==> Snap(s[j]) == r[j]
    ensures Snaps(s) == r
  {
  }

  class Agent {
    const registry: Registry
    const id: int
    const name: string
    var state: State
    var positionX: real
    var positionY: real
    var canvasWidth: real
    var canvasHeight: real
    var radius: real
    var moveDirection: Direction
    var directionIteration: int
    var speed: real

    /**
     * Takes the next id from the shared counter, places the agent with getRandomX and
     * getRandomY (which read the canvas size and radius just stored) and draws its
     * first direction. Loading the picture is left to the caller.
     */
    constructor (canvasWidth: real, canvasHeight: real, radius: real, name: string,
                 registry: Registry, spawn: Spawn)
      requires ValidSpawn(spawn)
      modifies registry
      ensures this.registry == registry
      ensures id == old(registry.numberOfAgents) + 1 && registry.numberOfAgents == id
      ensures registry.numberOfAgentsInfected == old(registry.numberOfAgentsInfected)
      ensures Snap(this) == Newborn(id, name, canvasWidth, canvasHeight, radius, spawn)
    {
      this.registry := registry;
      id := registry.numberOfAgents + 1;
      this.canvasWidth := canvasWidth;
      this.canvasHeight := canvasHeight;
      this.radius := radius;
      positionX := SpawnCoordinate(spawn.x, canvasWidth, radius) as real;
      positionY := SpawnCoordinate(spawn.y, canvasHeight, radius) as real;
      this.name := name;
      state := Normal;
      moveDirection := Pick(Names, spawn.heading);
      directionIteration := 2;
      speed := 5.0;
      new;
      registry.numberOfAgents := id;
    }

    /** run(): moves by the result of getRandomMove. (The check of the infected counter
        against 23 only writes to the console.) */
    method Run(d: Draws)
      requires ValidDraws(d)
      modifies this
      ensures Snap(this) == Advance(old(Snap(this)), d)
    {
      var moveX, moveY := GetRandomMove(d);
      positionX := positionX + moveX;
      positionY := positionY + moveY;
    }

    /**
     * Checks every agent of the list and infects those that are normal, overlap this
     * one and whose draw is at least 0.2. Only the infected agents' state changes.
     */
    method IsColliding(others: seq<Agent>, draws: seq<real>) returns (events: seq<string>)
      requires |draws| == |others| && Distinct(others)
      requires forall a :: a in others ==> a.registry == registry
      modifies others, registry`numberOfAgentsInfected
      ensures var c := Collide(old(positionX), old(positionY), old(radius), old(Snaps(others)), draws);
              && Snaps(others) == c.agents
              && events == c.events
              && registry.numberOfAgentsInfected == old(registry.numberOfAgentsInfected) + c.infections
    {
      ghost var s0 := Snaps(others);
      ghost var infected0 := registry.numberOfAgentsInfected;
      ghost var x, y, r := positionX, positionY, radius;
      events := [];
      var i := 0;
      while i < |others|
        invariant 0 <= i <= |others|
        invariant positionX == x && positionY == y && radius == r
        invariant forall k :: 0 <= k < i ==> Snap(others[k]) == Contacted(x, y, r, s0[k], draws[k])
        invariant forall k :: i <= k < |others| ==> Snap(others[k]) == s0[k]
        invariant events == Collide(x, y, r, s0[..i], draws[..i]).events
        invariant registry.numberOfAgentsInfected == infected0 + Collide(x, y, r, s0[..i], draws[..i]).infections
      {
        CollideStep(x, y, r, s0, draws, i);
        label Before:
        var event := Touch(others[i], draws[i]);
        events := events + event;
        forall k | 0 <= k < |others| && k != i ensures Snap(others[k]) == old@Before(Snap(others[k])) {
          assert others[k] != others[i];
        }
        i := i + 1;
      }
      assert s0[..|others|] == s0 && draws[..|others|] == draws;
      forall k | 0 <= k < |others| ensures Snaps(others)[k] == Collide(x, y, r, s0, draws).agents[k] {
        CollideAt(x, y, r, s0, draws, k);
      }
    }

    /** The body of isColliding's loop for one agent of the list: infects it when it is
        normal, overlaps this agent and the draw is at least 0.2. */
    method Touch(agent: Agent, u: real) returns (event: seq<string>)
      requires agent.registry == registry
      modifies agent`state, registry`numberOfAgentsInfected
      ensures var t := Transmits(positionX, positionY, radius, old(Snap(agent)), u);
              && Snap(agent) == Contacted(positionX, positionY, radius, old(Snap(agent)), u)
              && registry.numberOfAgentsInfected == old(registry.numberOfAgentsInfected) + (if t then 1 else 0)
              && event == if t then InfectionEvent(agent.name) else []
    {
      var dx := positionX - agent.positionX;
      var dy := positionY - agent.positionY;
      if WithinReach(dx, dy, radius + agent.radius) && u >= TransmissionCutoff && agent.state == Normal {
        event := agent.InfectAgent();
      } else {
        event := [];
      }
    }

    /** The radius setter. */
    method SetRadius(newRadius: real)
      modifies this`radius
      ensures Snap(this) == old(Snap(this)).(radius := newRadius)
    {
      radius := newRadius;
    }

    /** infectAgent(): the state becomes infected and the shared counter goes up by one,
        even for an agent that was infected already; an event names the agent unless it
        is the observer. */
    method InfectAgent() returns (event: seq<string>)
      modifies this`state, registry`numberOfAgentsInfected
      ensures state == Infected && Snap(this) == old(Snap(this)).(state := Infected)
      ensures registry.numberOfAgentsInfected == old(registry.numberOfAgentsInfected) + 1
      ensures event == InfectionEvent(name)
    {
      state := Infected;
      registry.numberOfAgentsInfected := registry.numberOfAgentsInfected + 1;
      if name != Observer {
        event := [name];
      } else {
        event := [];
      }
    }

    /** getRandomMove(): the same switch as MoveBehavior's, with the older countdown,
        the "-right"/"-left" sentinels and no fallback move. Each case sets each axis
        at most once, starting from zero, so the `+=` and `-=` of the source are
        written as plain assignments. */
    method GetRandomMove(d: Draws) returns (moveX: real, moveY: real)
      requires ValidDraws(d)
      modifies this`moveDirection, this`directionIteration
      ensures Outcome(moveX, moveY, moveDirection, directionIteration)
           == Step(old(moveDirection), old(directionIteration), speed,
                   Geometry(positionX, positionY, radius, canvasWidth, canvasHeight), d)
    {
      ghost var before := (moveDirection, directionIteration);
      moveX := 0.0;
      moveY := 0.0;
      var randomBorderChangeDirection := CooldownDraw(d.border);
      var directionChange := Empty;

      if directionIteration == 0 {
        directionIteration := CooldownDraw(d.iteration);
        moveDirection := Pick(Names, d.direction);
      } else {
        directionIteration := directionIteration - 1;
      }
      ghost var g := Geometry(positionX, positionY, radius, canvasWidth, canvasHeight);
      assert (moveDirection, directionIteration) == Countdown(before.0, before.1, d);
      ghost var target := Steer(moveDirection, directionIteration, speed, g, randomBorderChangeDirection);
      assert Step(before.0, before.1, speed, g, d) == target;

      if moveDirection == Top {
        if positionY <= radius + speed * 2.0 {
          moveY := speed;
          directionChange := Bottom;
        } else {
          moveY := -speed;
        }
        if directionChange != Empty {
          moveDirection := directionChange;
          directionIteration := randomBorderChangeDirection;
        }
        assert Outcome(moveX, moveY, moveDirection, directionIteration) == target;
      } else if moveDirection == TopLeft {
        if positionY <= radius + speed * 2.0 {
          moveY := speed;
          directionChange := Bottom;
        } else {
          moveY := -speed;
        }
        if positionX <= radius + speed * 2.0 {
          moveX := speed;
          if directionChange != Empty {
            directionChange := Right;
          } else {
            directionChange := SentinelRight;
          }
        } else {
          moveX := -speed;
        }
        if directionChange != Empty {
          moveDirection := directionChange;
          directionIteration := randomBorderChangeDirection;
        }
        assert Outcome(moveX, moveY, moveDirection, directionIteration) == target;
      } else if moveDirection == Left {
        if positionX <= radius + speed * 2.0 {
          moveX := speed;
          directionChange := Right;
        } else {
          moveX := -speed;
        }
        if directionChange != Empty {
          moveDirection := directionChange;
          directionIteration := randomBorderChangeDirection;
        }
        assert Outcome(moveX, moveY, moveDirection, directionIteration) == target;
      } else if moveDirection == BottomLeft {
        if positionY >= canvasHeight - radius - speed * 2.0 {
          moveY := -speed;
          directionChange := Top;
        } else {
          moveY := speed;
        }
        if positionX <= radius + speed * 2.0 {
          moveX := speed;
          if directionChange != Empty {
            directionChange := Right;
          } else {
            directionChange := SentinelRight;
          }
        } else {
          moveX := -speed;
        }
        if directionChange != Empty {
          moveDirection := directionChange;
          directionIteration := randomBorderChangeDirection;
        }
        assert Outcome(moveX, moveY, moveDirection, directionIteration) == target;
      } else if moveDirection == Bottom {
        if positionY >= canvasHeight - radius - speed * 2.0 {
          moveY := -speed;
          directionChange := Top;
        } else {
          moveY := speed;
        }
        if directionChange != Empty {
          moveDirection := directionChange;
          directionIteration := randomBorderChangeDirection;
        }
        assert Outcome(moveX, moveY, moveDirection, directionIteration) == target;
      } else if moveDirection == BottomRight {
        if positionY >= canvasHeight - radius - speed * 2.0 {
          moveY := -speed;
          directionChange := Top;
        } else {
          moveY := speed;
        }
        if positionX >= canvasWidth - radius - speed * 2.0 {
          moveX := -speed;
          if directionChange != Empty {
            directionChange := Left;
          } else {
            directionChange := SentinelLeft;
          }
        } else {
          moveX := speed;
        }
        if directionChange != Empty {
          moveDirection := directionChange;
          directionIteration := randomBorderChangeDirection;
        }
        assert Outcome(moveX, moveY, moveDirection, directionIteration) == target;
      } else if moveDirection == Right {
        if positionX >= canvasWidth - radius - speed * 2.0 {
          moveX := -speed;
          directionChange := Left;
        } else {
          moveX := speed;
        }
        if directionChange != Empty {
          moveDirection := directionChange;
          directionIteration := randomBorderChangeDirection;
        }
        assert Outcome(moveX, moveY, moveDirection, directionIteration) == target;
      } else if moveDirection == TopRight {
        if positionY <= radius + speed * 2.0 {
          moveY := speed;
          directionChange := Bottom;
        } else {
          moveY := -speed;
        }
        if positionX >= canvasWidth - radius - speed * 2.0 {
          moveX := -speed;
          if directionChange != Empty {
            directionChange := Left;
          } else {
            directionChange := SentinelLeft;
          }
        } else {
          moveX := speed;
        }
        if directionChange != Empty {
          moveDirection := directionChange;
          directionIteration := randomBorderChangeDirection;
        }
        assert Outcome(moveX, moveY, moveDirection, directionIteration) == target;
      }
      assert Outcome(moveX, moveY, moveDirection, directionIteration) == target;
    }
  }

  // ---------------------------------------------------------------------------
  // Properties
  // ---------------------------------------------------------------------------

  /** The collisions over one more element of the list. */
  lemma CollideStep(x: real, y: real, r: real, others: seq<Snapshot>, draws: seq<real>, i: nat)
    requires |draws| == |others| && i < |others|
    ensures var c := Collide(x, y, r, others[..i], draws[..i]);
            var t := Transmits(x, y, r, others[i], draws[i]);
            var c' := Collide(x, y, r, others[..i + 1], draws[..i + 1]);
            && c'.events == c.events + (if t then InfectionEvent(others[i].name) else [])
            && c'.infections == c.infections + (if t then 1 else 0)
  {
    assert others[..i + 1][..i] == others[..i] && draws[..i + 1][..i] == draws[..i];
  }

  /** isColliding changes an agent exactly when it is normal, overlaps the caller and
      its draw is at least 0.2; it then becomes infected and nothing else about it changes. */
  lemma {:induction false} CollideAt(x: real, y: real, r: real, others: seq<Snapshot>, draws: seq<real>, k: nat)
    requires |draws| == |others| && k < |others|
    ensures Collide(x, y, r, others, draws).agents[k] == Contacted(x, y, r, others[k], draws[k])
    decreases |others|
  {
    var n := |others| - 1;
    if k < n {
      CollideAt(x, y, r, others[..n], draws[..n], k);
    }
  }

  /** The collisions never cure anyone, and the infected count of the list grows by
      exactly the number of infections reported, which is the amount isColliding adds
      to the shared counter. */
  lemma {:induction false} CollideCount(x: real, y: real, r: real, others: seq<Snapshot>, draws: seq<real>)
    requires |draws| == |others|
    ensures var c := Collide(x, y, r, others, draws);
            InfectedCount(c.agents) == InfectedCount(others) + c.infections
    decreases |others|
  {
    if others != [] {
      var n := |others| - 1;
      var c := Collide(x, y, r, others[..n], draws[..n]);
      CollideCount(x, y, r, others[..n], draws[..n]);
      var b := others[n];
      var b' := Contacted(x, y, r, b, draws[n]);
      var c' := Collide(x, y, r, others, draws);
      assert c'.agents == c.agents + [b'];
      assert (c.agents + [b'])[..|c.agents|] == c.agents;
    }
  }

  lemma CollideNeverCures(x: real, y: real, r: real, others: seq<Snapshot>, draws: seq<real>, k: nat)
    requires |draws| == |others| && k < |others| && others[k].state == Infected
    ensures Collide(x, y, r, others, draws).agents[k] == others[k]
  {
    CollideAt(x, y, r, others, draws, k);
  }

  /** Two agents of radius 10 one pixel apart: with a draw of 0.5 the normal one is
      infected and one event names it; with a draw of 0.1 nothing happens. */
  lemma CollisionExample(b: Snapshot)
    requires b.x == 1.0 && b.y == 0.0 && b.radius == 10.0 && b.state == Normal && b.name == "Alice"
    ensures var c := Collide(0.0, 0.0, 10.0, [b], [0.5]);
            c.agents == [b.(state := Infected)] && c.events == ["Alice"] && c.infections == 1
    ensures Collide(0.0, 0.0, 10.0, [b], [0.1]) == Contact([b], [], 0)
  {
    assert [b][..0] == [];
    assert WithinReach(0.0 - b.x, 0.0 - b.y, 10.0 + b.radius);
  }

  /**
   * The countdown rule of this variant: a new direction among the eight and a new
   * counter in 0..5 exactly when the counter is 0; otherwise the counter goes down by
   * one, so a negative counter is never redrawn. A reflection then overrides the
   * counter with this call's border draw.
   */
  lemma CountdownRule(direction: Direction, iteration: int, speed: real, g: Geometry, d: Draws)
    requires ValidDraws(d)
    ensures var (current, count) := Countdown(direction, iteration, d);
            var o := Step(direction, iteration, speed, g, d);
            var h := Heading(current);
            && (iteration == 0 ==> current == Pick(Names, d.direction) && current in Names
                                   && count == CooldownDraw(d.iteration) && 0 <= count <= 5)
            && (iteration != 0 ==> current == direction && count == iteration - 1)
            && (NearXWall(h.0, speed, g) || NearYWall(h.1, speed, g) ==> o.iteration == CooldownDraw(d.border))
            && (!NearXWall(h.0, speed, g) && !NearYWall(h.1, speed, g) ==> o.iteration == count && o.direction == current)
  {
  }

  /** One call keeps the counter in 0..5. */
  lemma StepIterationInRange(direction: Direction, iteration: int, speed: real, g: Geometry, d: Draws)
    requires ValidDraws(d) && 0 <= iteration <= 5
    ensures 0 <= Step(direction, iteration, speed, g, d).iteration <= 5
  {
  }

  /**
   * A reflection on the x axis alone from a diagonal stores a sentinel ("-right" when
   * the agent was heading left); any other reflection stores one of the eight names,
   * and from both walls at once the stored name is the reversed horizontal one.
   */
  lemma SentinelReflections(direction: Direction, iteration: int, speed: real, g: Geometry, d: Draws)
    requires ValidDraws(d)
    ensures var current := Countdown(direction, iteration, d).0;
            var h := Heading(current);
            var hitX, hitY := NearXWall(h.0, speed, g), NearYWall(h.1, speed, g);
            var o := Step(direction, iteration, speed, g, d);
            && (h.0 != 0 && h.1 != 0 && hitX && !hitY ==> o.direction == (if h.0 < 0 then SentinelRight else SentinelLeft))
            && (h.0 != 0 && h.1 != 0 && hitX && hitY ==> o.direction == NameOf(-h.0, 0))
            && (!hitX && hitY ==> o.direction == NameOf(0, -h.1))
  {
  }

  /** A sentinel matches no case: while the countdown is running, the agent stands
      still and keeps the sentinel. */
  lemma SentinelStalls(direction: Direction, iteration: int, speed: real, g: Geometry, d: Draws)
    requires ValidDraws(d) && IsSentinel(direction) && iteration != 0
    ensures Step(direction, iteration, speed, g, d) == Outcome(0.0, 0.0, direction, iteration - 1)
  {
  }

  /** When the counter is 0 the new direction is one of the eight, so an agent with a
      positive speed moves. */
  lemma RedrawMoves(direction: Direction, speed: real, g: Geometry, d: Draws)
    requires ValidDraws(d) && speed > 0.0
    ensures var o := Step(direction, 0, speed, g, d);
            (o.dx, o.dy) != (0.0, 0.0)
  {
    var current := Countdown(direction, 0, d).0;
    assert current in Names;
  }

  /**
   * Up to the stored direction and counter, this walk moves like MoveBehavior's: for a
   * named direction whose countdown is still running, the two give the same move, and
   * the same stored direction unless a diagonal is reflected (where this variant
   * stores a sentinel or the horizontal name instead).
   */
  lemma AgreesWithMoveBehavior(direction: Direction, iteration: int, speed: real,
                               directions: seq<Direction>, g: Geometry, d: Draws)
    requires ValidDraws(d) && direction in Names && iteration > 0
    ensures var o := Step(direction, iteration, speed, g, d);
            var m := MoveBehavior.Step(direction, iteration, speed, directions, g, d);
            var h := Heading(direction);
            && o.dx == m.dx && o.dy == m.dy
            && (h.0 == 0 || h.1 == 0 || !MoveBehavior.Reflects(direction, speed, g) ==> o.direction == m.direction)
  {
  }

  predicate AllValid(ds: seq<Draws>) {
    forall k :: 0 <= k < |ds| ==> ValidDraws(ds[k])
  }

  /** The agent after one run() per element of ds. */
  function Walk(a: Snapshot, ds: seq<Draws>): Snapshot
    requires AllValid(ds)
    decreases |ds|
  {
    if ds == [] then a
    else
      Walk(Advance(a, ds[0]), ds[1..])
  }

  /** Any number of runs keeps the counter in 0..5 (the constructor starts it at 2)
      and changes nothing but the position, the direction and the counter. */
  lemma {:induction false} WalkInvariant(a: Snapshot, ds: seq<Draws>)
    requires AllValid(ds) && 0 <= a.iteration <= 5
    ensures var b := Walk(a, ds);
            && 0 <= b.iteration <= 5
            && b == a.(x := b.x, y := b.y, direction := b.direction, iteration := b.iteration)
    decreases |ds|
  {
    if ds != [] {
      StepIterationInRange(a.direction, a.iteration, a.speed, Geo(a), ds[0]);
      WalkInvariant(Advance(a, ds[0]), ds[1..]);
    }
  }

  /** An agent left with a sentinel and a counter of at least n stands still for n
      runs: the position and the sentinel stay, and the counter goes down by n. */
  lemma {:induction false} SentinelWalk(a: Snapshot, ds: seq<Draws>)
    requires AllValid(ds) && IsSentinel(a.direction) && a.iteration >= |ds|
    ensures Walk(a, ds) == a.(iteration := a.iteration - |ds|)
    decreases |ds|
  {
    if ds != [] {
      SentinelStalls(a.direction, a.iteration, a.speed, Geo(a), ds[0]);
      assert Advance(a, ds[0]) == a.(iteration := a.iteration - 1);
      SentinelWalk(a.(iteration := a.iteration - 1), ds[1..]);
    }
  }

  /** A run keeps an agent inside the canvas: turning round within `radius + speed * 2`
      of a wall leaves room for the step, and a sentinel does not move at all. */
  lemma StepStaysInside(direction: Direction, iteration: int, speed: real, g: Geometry, d: Draws)
    requires ValidDraws(d) && Roomy(speed, g) && Inside(g)
    ensures var o := Step(direction, iteration, speed, g, d);
            Inside(g.(x := g.x + o.dx, y := g.y + o.dy))
  {
  }

  /** A newborn agent on a canvas larger than its diameter starts inside it. */
  lemma NewbornInside(id: int, name: string, width: real, height: real, radius: real, spawn: Spawn)
    requires ValidSpawn(spawn) && 0.0 < radius && 2.0 * radius < width && 2.0 * radius < height
    ensures Inside(Geo(Newborn(id, name, width, height, radius, spawn)))
  {
  }

  /** Any number of runs keeps an agent inside a roomy canvas. */
  lemma {:induction false} WalkStaysInside(a: Snapshot, ds: seq<Draws>)
    requires AllValid(ds) && Roomy(a.speed, Geo(a)) && Inside(Geo(a))
    ensures Inside(Geo(Walk(a, ds)))
    decreases |ds|
  {
    if ds != [] {
      StepStaysInside(a.direction, a.iteration, a.speed, Geo(a), ds[0]);
      WalkStaysInside(Advance(a, ds[0]), ds[1..]);
    }
  }
}
