/**
 * scripts/index.js: the page script that builds the population of 23 agents, runs the
 * animation on a browser interval, and reacts to the start, restore, pause/resume,
 * size and speed controls.
 */
module Simulation {
  import opened Wrappers
  import opened Motion
  import opened Agents

  // ---------------------------------------------------------------------------
  // Slider conversion
  // ---------------------------------------------------------------------------

  const MinSize := 5.0
  const MaxSize := 35.0
  /** The animation period in milliseconds at slider value 1 and at slider value 100:
      the period shrinks as the slider goes up. */
  const MinSpeed := 100.0
  const MaxSpeed := 20.0

  /** The value at which restore puts both sliders back. */
  const DefaultPercentage := 50.0

  /** calculConversion: the value `percentage` (1..100) of the way from min to max. */
  function CalculConversion(min: real, max: real, percentage: real): (v: real)
    ensures percentage == 1.0 ==> v == min
    ensures percentage == 100.0 ==> v == max
  {
    min + ((percentage - 1.0) / (100.0 - 1.0)) * (max - min)
  }

  /** Every slider value in 1..100 maps between min and max, and the map keeps (for
      min <= max) or reverses (for min >= max) the order of slider values. */
  lemma ConversionBetween(min: real, max: real, p: real, q: real)
    requires 1.0 <= p <= q <= 100.0
    ensures min <= max ==> min <= CalculConversion(min, max, p) <= CalculConversion(min, max, q) <= max
    ensures max <= min ==> max <= CalculConversion(min, max, q) <= CalculConversion(min, max, p) <= min
  {
    var s, t := (p - 1.0) / 99.0, (q - 1.0) / 99.0;
    assert 0.0 <= s <= t <= 1.0;
    Interpolate(min, max - min, s, t, CalculConversion(min, max, p), CalculConversion(min, max, q));
  }

  /** The points a and b at fractions s <= t of the way along w from min. */
  lemma Interpolate(min: real, w: real, s: real, t: real, a: real, b: real)
    requires 0.0 <= s <= t <= 1.0 && a == min + s * w && b == min + t * w
    ensures 0.0 <= w ==> min <= a <= b <= min + w
    ensures w <= 0.0 ==> min + w <= b <= a <= min
  {
    assert t * w - s * w == (t - s) * w;
    assert w - t * w == (1.0 - t) * w;
    assert s * w == (s - 0.0) * w;
  }

  /** Moving the speed slider up never lengthens the animation period, which stays in
      20..100 milliseconds; the size stays in 5..35 pixels. */
  lemma SliderRanges(p: real, q: real)
    requires 1.0 <= p <= q <= 100.0
    ensures MaxSpeed <= CalculConversion(MinSpeed, MaxSpeed, q) <= CalculConversion(MinSpeed, MaxSpeed, p) <= MinSpeed
    ensures MinSize <= CalculConversion(MinSize, MaxSize, p) <= CalculConversion(MinSize, MaxSize, q) <= MaxSize
  {
    ConversionBetween(MinSpeed, MaxSpeed, p, q);
    ConversionBetween(MinSize, MaxSize, p, q);
  }

  // ---------------------------------------------------------------------------
  // The population
  // ---------------------------------------------------------------------------

  /** agentsNameAndImages, in the order Object.entries lists it: (name, picture). */
  const Roster: seq<(string, string)> := [
    ("Astadjam", "../images/ASTADJAM.png"),
    ("Romain", "../images/BALZANO.png"),
    ("Yahya", "../images/BATHILY.png"),
    ("Louiza", "../images/BELARIF.png"),
    ("Kaoutar", "../images/BENAMEUR.png"),
    ("Ilyas", "../images/BENSALEM.png"),
    ("ThomasB", "../images/BOVY.png"),
    ("CHAKER", "../images/CHAKER.png"),
    ("Anthony", "../images/COLIN.png"),
    ("Marie", "../images/EVEILLE.png"),
    ("Donat", "../images/FORTINI.png"),
    ("ThomasG", "../images/GARAU.png"),
    ("Livia", "../images/GRAZIETTI.png"),
    ("Yasmine", "../images/HAMADENE.png"),
    ("Ismael", "../images/ISMAEL.png"),
    ("Ambroise", "../images/KILIMOU.png"),
    ("Lucas", "../images/LECULIER.jpg"),
    ("Marchise", "../images/MARCHISELLI.png"),
    ("Antoine", "../images/MARECHAL.png"),
    ("Theo", "../images/PIACENTINI.png"),
    ("Vitali", "../images/RENKAS.png"),
    ("Pascal", "../images/VIGNEAU.png"),
    ("Paul-Antoine", "../images/VINCIGUERRA.png")
  ]

  /** The roster position of the agent infected at creation. */
  const PatientZero := 14

  /** The population has 23 agents with distinct names, and the one infected at
      creation is the observer, so the initial infection raises no event. */
  lemma RosterFacts()
    ensures |Roster| == 23
    ensures forall j, k :: 0 <= j < k < |Roster| ==> Roster[j].0 != Roster[k].0
    ensures Roster[PatientZero].0 == Observer
  {
  }

  /** The agent made for roster entry `next`, named `name`, under the given id: the
      patient zero is infected right after its construction. */
  function Entrant(name: string, next: nat, id: int, width: real, height: real, radius: real,
                   spawn: Spawn): (e: Snapshot)
    requires ValidSpawn(spawn)
    ensures e.state == Infected <==> next == PatientZero
    ensures e.id == id && e.name == name && e.radius == radius
  {
    var a := Newborn(id, name, width, height, radius, spawn);
    if next == PatientZero then a.(state := Infected) else a
  }

  /** What the creation loop ends with: the index after the last attempt, and the agents
      it added, in order. */
  datatype Made = Made(attempts: nat, agents: seq<Snapshot>)

  /**
   * createEnvironnement on values, from attempt `attempt` and roster entry `next` on,
   * `id` being the last id handed out. Every attempt constructs an agent, which takes
   * the next id; when its picture loads (loads[attempt]) the agent is kept and the
   * roster moves on, otherwise the same entry is tried again. The loop ends when the
   * roster is complete or the attempts run out.
   */
  function Creation(entries: seq<(string, string)>, loads: seq<bool>, spawns: seq<Spawn>, attempt: nat, next: nat, id: int,
                    width: real, height: real, radius: real): (m: Made)
    requires attempt <= |loads| == |spawns| && next <= |entries|
    requires forall k :: 0 <= k < |spawns| ==> ValidSpawn(spawns[k])
    ensures attempt <= m.attempts <= |loads| && next + |m.agents| <= |entries|
    decreases |loads| - attempt
  {
    if next == |entries| || attempt == |loads| then Made(attempt, [])
    else if loads[attempt] then
      var rest := Creation(entries, loads, spawns, attempt + 1, next + 1, id + 1, width, height, radius);
      Made(rest.attempts, [Entrant(entries[next].0, next, id + 1, width, height, radius, spawns[attempt])] + rest.agents)
    else Creation(entries, loads, spawns, attempt + 1, next, id + 1, width, height, radius)
  }

  /** Creation written the way the loop runs it: `made` holds the agents added so far. */
  function CreationFrom(entries: seq<(string, string)>, loads: seq<bool>, spawns: seq<Spawn>, attempt: nat, next: nat, id: int,
                        width: real, height: real, radius: real, made: seq<Snapshot>): (m: Made)
    requires attempt <= |loads| == |spawns| && next <= |entries|
    requires forall k :: 0 <= k < |spawns| ==> ValidSpawn(spawns[k])
    decreases |loads| - attempt
  {
    if next == |entries| || attempt == |loads| then Made(attempt, made)
    else if loads[attempt] then
      CreationFrom(entries, loads, spawns, attempt + 1, next + 1, id + 1, width, height, radius,
                   made + [Entrant(entries[next].0, next, id + 1, width, height, radius, spawns[attempt])])
    else CreationFrom(entries, loads, spawns, attempt + 1, next, id + 1, width, height, radius, made)
  }

  /** One turn of the loop's form: the entry's agent is added exactly when its picture
      loads, and only then does the loop move on to the next entry. */
  lemma CreationFromStep(entries: seq<(string, string)>, loads: seq<bool>, spawns: seq<Spawn>, attempt: nat, next: nat, id: int,
                         width: real, height: real, radius: real, made: seq<Snapshot>)
    requires attempt < |loads| == |spawns| && next < |entries|
    requires forall k :: 0 <= k < |spawns| ==> ValidSpawn(spawns[k])
    ensures loads[attempt] ==>
              CreationFrom(entries, loads, spawns, attempt + 1, next + 1, id + 1, width, height, radius,
                           made + [Entrant(entries[next].0, next, id + 1, width, height, radius, spawns[attempt])])
              == CreationFrom(entries, loads, spawns, attempt, next, id, width, height, radius, made)
    ensures !loads[attempt] ==>
              CreationFrom(entries, loads, spawns, attempt + 1, next, id + 1, width, height, radius, made)
              == CreationFrom(entries, loads, spawns, attempt, next, id, width, height, radius, made)
  {
  }

  /** Once the fold has run out of entries or attempts, what it has made is `Creation`. */
  lemma CreationFromDone(entries: seq<(string, string)>, loads: seq<bool>, spawns: seq<Spawn>, attempt: nat, next: nat, id: int,
                         start: int, width: real, height: real, radius: real, made: seq<Snapshot>)
    requires attempt <= |loads| == |spawns| && next <= |entries|
    requires forall k :: 0 <= k < |spawns| ==> ValidSpawn(spawns[k])
    requires next == |entries| || attempt == |loads|
    requires CreationFrom(entries, loads, spawns, attempt, next, id, width, height, radius, made)
             == CreationFrom(entries, loads, spawns, 0, 0, start, width, height, radius, [])
    ensures made == Creation(entries, loads, spawns, 0, 0, start, width, height, radius).agents
    ensures attempt == Creation(entries, loads, spawns, 0, 0, start, width, height, radius).attempts
  {
    var done := Creation(entries, loads, spawns, 0, 0, start, width, height, radius);
    CreationFromCreation(entries, loads, spawns, 0, 0, start, width, height, radius, []);
    assert [] + done.agents == done.agents;
  }

  /** The loop's form and the recursive definition agree. */
  lemma {:induction false} CreationFromCreation(entries: seq<(string, string)>, loads: seq<bool>, spawns: seq<Spawn>, attempt: nat, next: nat, id: int,
                                                width: real, height: real, radius: real, made: seq<Snapshot>)
    requires attempt <= |loads| == |spawns| && next <= |entries|
    requires forall k :: 0 <= k < |spawns| ==> ValidSpawn(spawns[k])
    ensures CreationFrom(entries, loads, spawns, attempt, next, id, width, height, radius, made)
            == Made(Creation(entries, loads, spawns, attempt, next, id, width, height, radius).attempts,
                    made + Creation(entries, loads, spawns, attempt, next, id, width, height, radius).agents)
    decreases |loads| - attempt
  {
    if next == |entries| || attempt == |loads| {
      assert made + [] == made;
    } else if loads[attempt] {
      var a := Entrant(entries[next].0, next, id + 1, width, height, radius, spawns[attempt]);
      CreationFromCreation(entries, loads, spawns, attempt + 1, next + 1, id + 1, width, height, radius, made + [a]);
      var rest := Creation(entries, loads, spawns, attempt + 1, next + 1, id + 1, width, height, radius);
      assert (made + [a]) + rest.agents == made + ([a] + rest.agents);
    } else {
      CreationFromCreation(entries, loads, spawns, attempt + 1, next, id + 1, width, height, radius, made);
    }
  }

  /** The number of successful loads. */
  function Loaded(loads: seq<bool>): (n: nat)
    ensures n <= |loads|
  {
    if loads == [] then 0 else (if loads[0] then 1 else 0) + Loaded(loads[1..])
  }

  /** The loop keeps one agent per successful load until the roster is complete; it
      stops early only when the roster is complete, and otherwise uses every attempt. */
  lemma {:induction false} CreationCounts(entries: seq<(string, string)>, loads: seq<bool>, spawns: seq<Spawn>, attempt: nat, next: nat, id: int,
                                          width: real, height: real, radius: real)
    requires attempt <= |loads| == |spawns| && next <= |entries|
    requires forall k :: 0 <= k < |spawns| ==> ValidSpawn(spawns[k])
    ensures var m := Creation(entries, loads, spawns, attempt, next, id, width, height, radius);
            var n := Loaded(loads[attempt..]);
            && |m.agents| == (if n < |entries| - next then n else |entries| - next)
            && (next + |m.agents| < |entries| ==> m.attempts == |loads|)
            && Loaded(loads[attempt..m.attempts]) == |m.agents|
    decreases |loads| - attempt
  {
    if next < |entries| && attempt < |loads| {
      var step := if loads[attempt] then next + 1 else next;
      var rest := Creation(entries, loads, spawns, attempt + 1, step, id + 1, width, height, radius);
      CreationCounts(entries, loads, spawns, attempt + 1, step, id + 1, width, height, radius);
      assert loads[attempt..][1..] == loads[attempt + 1..];
      assert loads[attempt..rest.attempts][1..] == loads[attempt + 1..rest.attempts];
    }
  }

  /**
   * The k-th agent the loop adds is roster entry next + k, with the current size; it is
   * infected exactly when it is the patient zero; its id is one of those the attempts
   * took, id + 1 to id + (number of attempts).
   */
  lemma {:induction false} CreationAgent(entries: seq<(string, string)>, loads: seq<bool>, spawns: seq<Spawn>, attempt: nat, next: nat, id: int,
                                         width: real, height: real, radius: real, k: nat)
    requires attempt <= |loads| == |spawns| && next <= |entries|
    requires forall j :: 0 <= j < |spawns| ==> ValidSpawn(spawns[j])
    requires k < |Creation(entries, loads, spawns, attempt, next, id, width, height, radius).agents|
    ensures var m := Creation(entries, loads, spawns, attempt, next, id, width, height, radius);
            && m.agents[k].name == entries[next + k].0 && m.agents[k].radius == radius
            && (m.agents[k].state == Infected <==> next + k == PatientZero)
            && id < m.agents[k].id <= id + (m.attempts - attempt)
    decreases |loads| - attempt
  {
    var m := Creation(entries, loads, spawns, attempt, next, id, width, height, radius);
    assert next < |entries| && attempt < |loads|;
    var step := if loads[attempt] then next + 1 else next;
    var rest := Creation(entries, loads, spawns, attempt + 1, step, id + 1, width, height, radius);
    if !loads[attempt] {
      assert m == rest;
      CreationAgent(entries, loads, spawns, attempt + 1, step, id + 1, width, height, radius, k);
    } else {
      var a := Entrant(entries[next].0, next, id + 1, width, height, radius, spawns[attempt]);
      assert m == Made(rest.attempts, [a] + rest.agents);
      if k > 0 {
        assert m.agents[k] == rest.agents[k - 1];
        CreationAgent(entries, loads, spawns, attempt + 1, step, id + 1, width, height, radius, k - 1);
      } else {
        assert m.agents[0] == a;
      }
    }
  }

  /** The ids of the agents the loop adds increase along the list. */
  lemma {:induction false} CreationIds(entries: seq<(string, string)>, loads: seq<bool>, spawns: seq<Spawn>, attempt: nat, next: nat, id: int,
                                       width: real, height: real, radius: real, j: nat, k: nat)
    requires attempt <= |loads| == |spawns| && next <= |entries|
    requires forall i :: 0 <= i < |spawns| ==> ValidSpawn(spawns[i])
    requires j < k < |Creation(entries, loads, spawns, attempt, next, id, width, height, radius).agents|
    ensures var m := Creation(entries, loads, spawns, attempt, next, id, width, height, radius);
            m.agents[j].id < m.agents[k].id
    decreases |loads| - attempt
  {
    var m := Creation(entries, loads, spawns, attempt, next, id, width, height, radius);
    var step := if loads[attempt] then next + 1 else next;
    var rest := Creation(entries, loads, spawns, attempt + 1, step, id + 1, width, height, radius);
    if !loads[attempt] {
      assert m == rest;
      CreationIds(entries, loads, spawns, attempt + 1, step, id + 1, width, height, radius, j, k);
    } else {
      assert m.agents[k] == rest.agents[k - 1];
      CreationAgent(entries, loads, spawns, attempt + 1, step, id + 1, width, height, radius, k - 1);
      if j > 0 {
        assert m.agents[j] == rest.agents[j - 1];
        CreationIds(entries, loads, spawns, attempt + 1, step, id + 1, width, height, radius, j - 1, k - 1);
      }
    }
  }

  /** Exactly one of the agents added is infected if the roster got past the patient
      zero, and none otherwise. */
  lemma CreationInfected(entries: seq<(string, string)>, loads: seq<bool>, spawns: seq<Spawn>, attempt: nat, next: nat, id: int,
                         width: real, height: real, radius: real)
    requires attempt <= |loads| == |spawns| && next <= |entries|
    requires forall k :: 0 <= k < |spawns| ==> ValidSpawn(spawns[k])
    ensures var m := Creation(entries, loads, spawns, attempt, next, id, width, height, radius);
            InfectedCount(m.agents) == if next <= PatientZero < next + |m.agents| then 1 else 0
  {
    var m := Creation(entries, loads, spawns, attempt, next, id, width, height, radius);
    var p := PatientZero - next;
    forall k | 0 <= k < |m.agents| ensures m.agents[k].state == Infected <==> k == p {
      CreationAgent(entries, loads, spawns, attempt, next, id, width, height, radius, k);
    }
    InfectedCountOne(m.agents, p);
  }

  /** A list in which at most the agent at index p is infected. */
  lemma {:induction false} InfectedCountOne(s: seq<Snapshot>, p: int)
    requires forall k :: 0 <= k < |s| ==> (s[k].state == Infected <==> k == p)
    ensures InfectedCount(s) == if 0 <= p < |s| then 1 else 0
    decreases |s|
  {
    if s != [] {
      InfectedCountOne(s[..|s| - 1], p);
    }
  }

  // ---------------------------------------------------------------------------
  // One tick of the animation, on values
  // ---------------------------------------------------------------------------

  /** The draws of one tick: for the k-th agent, one collision draw per agent of the
      list (used only if it is infected) and the draws of its move. */
  predicate TickDraws(n: nat, collisions: seq<seq<real>>, moves: seq<Draws>) {
    |collisions| == n && |moves| == n && AllValid(moves)
    && forall k :: 0 <= k < n ==> |collisions[k]| == n
  }

  datatype Tick = Tick(agents: seq<Snapshot>, events: seq<string>, infections: nat)

  /**
   * One turn of animateEnvironments' loop, for the agent at index k: if it is infected
   * it checks the whole list (isColliding), then it moves (run).
   */
  function Turn(agents: seq<Snapshot>, k: nat, draws: seq<real>, d: Draws): (c: Contact)
    requires k < |agents| && |draws| == |agents| && ValidDraws(d)
    ensures |c.agents| == |agents|
  {
    var c := Check(agents, k, draws);
    Contact(c.agents[k := Advance(c.agents[k], d)], c.events, c.infections)
  }

  /** The first half of a turn: the agent at index k checks the list only if it is
      infected. */
  function Check(agents: seq<Snapshot>, k: nat, draws: seq<real>): (c: Contact)
    requires k < |agents| && |draws| == |agents|
    ensures |c.agents| == |agents|
  {
    var a := agents[k];
    if a.state == Infected then Collide(a.x, a.y, a.radius, agents, draws)
    else Contact(agents, [], 0)
  }

  /** The tick t followed by the turn of the agent at index k. */
  function Next(t: Tick, k: nat, draws: seq<real>, d: Draws): (u: Tick)
    requires k < |t.agents| && |draws| == |t.agents| && ValidDraws(d)
    ensures |u.agents| == |t.agents|
  {
    var c := Turn(t.agents, k, draws, d);
    Tick(c.agents, t.events + c.events, t.infections + c.infections)
  }

  /** The tick t followed by the turns of the agents at indices j, j + 1, ... of the
      list, in list order, each on the list as the earlier turns left it. */
  function PassFrom(t: Tick, collisions: seq<seq<real>>, moves: seq<Draws>, j: nat): (u: Tick)
    requires TickDraws(|t.agents|, collisions, moves) && j <= |t.agents|
    ensures |u.agents| == |t.agents|
    decreases |t.agents| - j
  {
    if j == |t.agents| then t
    else PassFrom(Next(t, j, collisions[j], moves[j]), collisions, moves, j + 1)
  }

  /** animateEnvironments on values: every agent's turn, from the first to the last,
      starting with no events and no infections. */
  function Pass(s: seq<Snapshot>, collisions: seq<seq<real>>, moves: seq<Draws>): (t: Tick)
    requires TickDraws(|s|, collisions, moves)
    ensures |t.agents| == |s|
  {
    PassFrom(Tick(s, [], 0), collisions, moves, 0)
  }

  /** What a tick may change about an agent: its position, direction, countdown and
      state; the id, name, size, canvas and speed stay. */
  predicate SameAgent(a: Snapshot, b: Snapshot) {
    && a.id == b.id && a.name == b.name && a.radius == b.radius
    && a.width == b.width && a.height == b.height && a.speed == b.speed
  }

  /** The invariant a tick keeps for each agent: only those fields change, the countdown
      stays in 0..5, an infected agent stays infected, and an agent inside a roomy canvas
      stays inside it. */
  predicate Evolves(a: Snapshot, b: Snapshot) {
    SameAgent(a, b) && (0 <= a.iteration <= 5 ==> 0 <= b.iteration <= 5)
    && (a.state == Infected ==> b.state == Infected)
    && (Roomy(a.speed, Geo(a)) && Inside(Geo(a)) ==> Inside(Geo(b)))
  }

  /** Every agent of t evolved from the agent of s at the same index. */
  predicate AllEvolve(s: seq<Snapshot>, t: seq<Snapshot>) {
    |s| == |t| && forall j :: 0 <= j < |s| ==> Evolves(s[j], t[j])
  }

  /** Replacing one agent by one in the same state leaves the infected count alone. */
  lemma {:induction false} InfectedCountUpdate(s: seq<Snapshot>, k: nat, b: Snapshot)
    requires k < |s| && b.state == s[k].state
    ensures InfectedCount(s[k := b]) == InfectedCount(s)
    decreases |s|
  {
    var n := |s| - 1;
    assert s[k := b][..n] == if k < n then s[..n][k := b] else s[..n];
    if k < n {
      InfectedCountUpdate(s[..n], k, b);
    }
  }

  lemma EvolvesTransitive(a: Snapshot, b: Snapshot, c: Snapshot)
    requires Evolves(a, b) && Evolves(b, c)
    ensures Evolves(a, c)
  {
  }

  lemma EvolvesChain(s: seq<Snapshot>, t: seq<Snapshot>, u: seq<Snapshot>)
    requires AllEvolve(s, t) && AllEvolve(t, u)
    ensures AllEvolve(s, u)
  {
    forall j | 0 <= j < |s| ensures Evolves(s[j], u[j]) {
      EvolvesTransitive(s[j], t[j], u[j]);
    }
  }

  /** A move keeps the invariant. */
  lemma AdvanceEvolves(a: Snapshot, d: Draws)
    requires ValidDraws(d)
    ensures Evolves(a, Advance(a, d)) && Advance(a, d).state == a.state
  {
    if 0 <= a.iteration <= 5 {
      StepIterationInRange(a.direction, a.iteration, a.speed, Geo(a), d);
    }
    if Roomy(a.speed, Geo(a)) && Inside(Geo(a)) {
      StepStaysInside(a.direction, a.iteration, a.speed, Geo(a), d);
    }
  }

  /** An infected agent's check of the list keeps the invariant for every agent. */
  lemma CollideEvolves(x: real, y: real, r: real, others: seq<Snapshot>, draws: seq<real>)
    requires |draws| == |others|
    ensures var c := Collide(x, y, r, others, draws);
            forall j :: 0 <= j < |others| ==> Evolves(others[j], c.agents[j])
  {
    var c := Collide(x, y, r, others, draws);
    forall j | 0 <= j < |others| ensures Evolves(others[j], c.agents[j]) {
      CollideAt(x, y, r, others, draws, j);
    }
  }

  /** The check of a turn keeps the invariant for every agent and adds its infections
      to the infected count. */
  lemma CheckInvariant(agents: seq<Snapshot>, k: nat, draws: seq<real>)
    requires k < |agents| && |draws| == |agents|
    ensures var c := Check(agents, k, draws);
            && AllEvolve(agents, c.agents)
            && InfectedCount(c.agents) == InfectedCount(agents) + c.infections
  {
    var a := agents[k];
    if a.state == Infected {
      CollideCount(a.x, a.y, a.radius, agents, draws);
      CollideEvolves(a.x, a.y, a.radius, agents, draws);
    } else {
      forall j | 0 <= j < |agents| ensures Evolves(agents[j], agents[j]) {
      }
    }
  }

  /** Replacing one agent of t by a successor keeps t evolved from s. */
  lemma EvolvesUpdate(s: seq<Snapshot>, t: seq<Snapshot>, k: nat, b: Snapshot)
    requires k < |t| && Evolves(t[k], b) && AllEvolve(s, t)
    ensures AllEvolve(s, t[k := b])
  {
    EvolvesTransitive(s[k], t[k], b);
  }

  /** One turn keeps the invariant for every agent and adds its infections to the
      infected count. */
  lemma TurnInvariant(agents: seq<Snapshot>, k: nat, draws: seq<real>, d: Draws)
    requires k < |agents| && |draws| == |agents| && ValidDraws(d)
    ensures var c := Turn(agents, k, draws, d);
            && AllEvolve(agents, c.agents)
            && InfectedCount(c.agents) == InfectedCount(agents) + c.infections
  {
    var c := Check(agents, k, draws);
    CheckInvariant(agents, k, draws);
    var b := Advance(c.agents[k], d);
    AdvanceEvolves(c.agents[k], d);
    EvolvesUpdate(agents, c.agents, k, b);
    InfectedCountUpdate(c.agents, k, b);
  }

  /**
   * A tick never cures anyone, keeps every countdown in 0..5 and changes only the
   * position, direction, countdown and state of each agent; the infected count grows by
   * exactly the number of infections reported. Stated from any point of the tick: if
   * the list of t evolved from s so far, it still does at the end.
   */
  lemma {:induction false} PassFromInvariant(s: seq<Snapshot>, t: Tick, collisions: seq<seq<real>>, moves: seq<Draws>, j: nat)
    requires TickDraws(|s|, collisions, moves) && |t.agents| == |s| && j <= |s|
    requires AllEvolve(s, t.agents)
    requires InfectedCount(t.agents) == InfectedCount(s) + t.infections
    ensures var u := PassFrom(t, collisions, moves, j);
            && AllEvolve(s, u.agents)
            && InfectedCount(u.agents) == InfectedCount(s) + u.infections
    decreases |s| - j
  {
    if j < |s| {
      TurnInvariant(t.agents, j, collisions[j], moves[j]);
      var u := Next(t, j, collisions[j], moves[j]);
      EvolvesChain(s, t.agents, u.agents);
      PassFromInvariant(s, u, collisions, moves, j + 1);
    }
  }

  /** The state of the animation: `null`, "run" or "pause". */
  datatype RunState = Idle | Running | Paused

  /** Every countdown of the list is in 0..5. */
  predicate CountdownsInRange(s: seq<Snapshot>) {
    forall k :: 0 <= k < |s| ==> 0 <= s[k].iteration <= 5
  }

  /** A whole tick keeps the countdowns in range and adds exactly its infections to the
      infected count. */
  lemma TickKeepsPopulation(s: seq<Snapshot>, collisions: seq<seq<real>>, moves: seq<Draws>)
    requires TickDraws(|s|, collisions, moves) && CountdownsInRange(s)
    ensures var t := Pass(s, collisions, moves);
            && CountdownsInRange(t.agents)
            && InfectedCount(t.agents) == InfectedCount(s) + t.infections
  {
    TickEvolves(s, collisions, moves);
  }

  /** Across a tick no agent is cured, only its position, direction, countdown and state
      change, and an agent inside a roomy canvas stays inside it. */
  lemma TickEvolves(s: seq<Snapshot>, collisions: seq<seq<real>>, moves: seq<Draws>)
    requires TickDraws(|s|, collisions, moves)
    ensures forall i :: 0 <= i < |s| ==> Evolves(s[i], Pass(s, collisions, moves).agents[i])
    ensures InfectedCount(Pass(s, collisions, moves).agents) == InfectedCount(s) + Pass(s, collisions, moves).infections
  {
    forall i | 0 <= i < |s| ensures Evolves(s[i], s[i]) {
    }
    assert AllEvolve(s, s);
    PassFromInvariant(s, Tick(s, [], 0), collisions, moves, 0);
  }

  /**
   * One turn, read off the list as the earlier turns of the tick left it: the agent at
   * index k moves by its own draws, and it infects another agent j only if k is infected
   * at its turn and reaches j with j's draw. An agent infected earlier in the tick thus
   * spreads at its own later turn of the same tick.
   */
  lemma TurnEffects(t: Tick, k: nat, draws: seq<real>, d: Draws, j: nat)
    requires k < |t.agents| && |draws| == |t.agents| && ValidDraws(d) && j < |t.agents|
    ensures var a := t.agents[k];
            var u := Next(t, k, draws, d);
            && u.agents[k] == Advance(a, d)
            && (j != k ==> u.agents[j] == if a.state == Infected then Contacted(a.x, a.y, a.radius, t.agents[j], draws[j]) else t.agents[j])
  {
    var a := t.agents[k];
    if a.state == Infected {
      CollideAt(a.x, a.y, a.radius, t.agents, draws, k);
      CollideAt(a.x, a.y, a.radius, t.agents, draws, j);
    }
  }

  /** changeSize on values: every agent gets the new radius. */
  function Resized(s: seq<Snapshot>, radius: real): (r: seq<Snapshot>)
    ensures |r| == |s|
  {
    seq(|s|, k requires 0 <= k < |s| => s[k].(radius := radius))
  }

  /** Resizing infects and cures no one and leaves the countdowns alone. */
  lemma {:induction false} ResizedKeepsPopulation(s: seq<Snapshot>, radius: real)
    ensures InfectedCount(Resized(s, radius)) == InfectedCount(s)
    ensures CountdownsInRange(s) ==> CountdownsInRange(Resized(s, radius))
    decreases |s|
  {
    if s != [] {
      var n := |s| - 1;
      assert Resized(s, radius)[..n] == Resized(s[..n], radius);
      ResizedKeepsPopulation(s[..n], radius);
    }
  }

  lemma InfectedCountAppend(s: seq<Snapshot>, b: Snapshot)
    ensures InfectedCount(s + [b]) == InfectedCount(s) + (if b.state == Infected then 1 else 0)
  {
    assert (s + [b])[..|s|] == s;
  }

  /** Growing the list made so far by at most one agent keeps the sums apart. */
  lemma GrowStep(s0: seq<Snapshot>, made: seq<Snapshot>, tail: seq<Snapshot>)
    requires |tail| <= 1
    ensures (s0 + made) + tail == s0 + (made + tail)
    ensures InfectedCount(made + tail) == InfectedCount(made) + InfectedCount(tail)
  {
    if tail == [] {
      assert made + tail == made;
    } else {
      assert tail == [tail[0]] && tail[..0] == [];
      InfectedCountAppend(made, tail[0]);
    }
  }

  lemma AppendAssociative<T>(a: seq<T>, b: seq<T>, c: seq<T>)
    ensures (a + b) + c == a + (b + c)
  {
  }

  lemma SnapsAppend(s: seq<Agent>, a: Agent)
    ensures Snaps(s + [a]) == Snaps(s) + [Snap(a)]
  {
  }

  /** The ids of the list strictly increase, each agent's over its predecessor's. */
  predicate IdsIncreasing(s: seq<Agent>)
    decreases |s|
  {
    |s| <= 1 || (s[|s| - 2].id < s[|s| - 1].id && IdsIncreasing(s[..|s| - 1]))
  }

  /** Along a list with increasing ids, every earlier agent has a smaller id. */
  lemma {:induction false} IdsOrdered(s: seq<Agent>)
    requires IdsIncreasing(s)
    ensures forall j, k :: 0 <= j < k < |s| ==> s[j].id < s[k].id
    decreases |s|
  {
    if |s| > 1 {
      var p := s[..|s| - 1];
      IdsOrdered(p);
      assert forall j :: 0 <= j < |p| ==> s[j] == p[j];
    }
  }

  /** An agent whose id exceeds every id of the list may be appended. */
  lemma IdsAppend(s: seq<Agent>, a: Agent, n: int)
    requires IdsIncreasing(s) && (forall k :: 0 <= k < |s| ==> s[k].id <= n) && n < a.id
    ensures IdsIncreasing(s + [a])
  {
    assert (s + [a])[..|s|] == s;
  }

  /** Agents with strictly increasing ids are distinct objects. */
  lemma IdsDistinct(s: seq<Agent>)
    requires IdsIncreasing(s)
    ensures Distinct(s)
  {
    IdsOrdered(s);
  }

  /**
   * The page: the canvas size, the agents, the animation state and its interval, the
   * size and speed the sliders were last converted to, and the browser's table of live
   * intervals (handle to period), which setInterval and clearInterval update.
   */
  class Environment {
    const registry: Registry
    const canvasWidth: real
    const canvasHeight: real
    var agents: seq<Agent>
    var actualState: RunState
    var intervalAnimation: Option<nat>
    var timers: map<nat, real>
    var nextHandle: nat
    var size: real
    var speed: real

    /**
     * The agents share the counters, have increasing ids no greater than the id counter,
     * keep their countdowns in 0..5, and the infected counter counts the infected ones.
     * An interval is live exactly while the animation runs, it is the recorded one, and
     * it runs at the current speed.
     */
    ghost predicate Valid()
      reads this, registry, agents
    {
      && Population()
      && Timers()
      && Schedule()
    }

    /** The recorded interval exists exactly while the animation runs, at the current speed. */
    ghost predicate Schedule()
      reads this`intervalAnimation, this`actualState, this`timers, this`speed
    {
      && (intervalAnimation.Some? <==> actualState == Running)
      && (forall h :: h in timers ==> timers[h] == speed)
    }

    ghost predicate Population()
      reads this, registry, agents
    {
      && (forall k :: 0 <= k < |agents| ==> agents[k].registry == registry)
      && IdsIncreasing(agents) && 0 <= registry.numberOfAgents
      && (forall k :: 0 <= k < |agents| ==> 0 < agents[k].id <= registry.numberOfAgents)
      && CountdownsInRange(Snaps(agents))
      && registry.numberOfAgentsInfected == InfectedCount(Snaps(agents))
    }

    /** The only live interval, if any, is the recorded one; handles are positive and
        below the next one. */
    ghost predicate Timers()
      reads this`nextHandle, this`timers, this`intervalAnimation
    {
      && 0 < nextHandle
      && timers.Keys == (if intervalAnimation.Some? then {intervalAnimation.value} else {})
      && (forall h :: h in timers ==> 0 < h < nextHandle)
    }

    /** The script's start-up: no agents, no animation, fresh counters, and the size and
        speed converted from the sliders' initial values. */
    constructor (canvasWidth: real, canvasHeight: real, sizePercentage: real, speedPercentage: real)
      ensures Valid() && fresh(registry)
      ensures this.canvasWidth == canvasWidth && this.canvasHeight == canvasHeight
      ensures agents == [] && actualState == Idle && intervalAnimation == None && timers == map[]
      ensures registry.numberOfAgents == 0 && registry.numberOfAgentsInfected == 0
      ensures size == CalculConversion(MinSize, MaxSize, sizePercentage)
      ensures speed == CalculConversion(MinSpeed, MaxSpeed, speedPercentage)
    {
      registry := new Registry();
      this.canvasWidth := canvasWidth;
      this.canvasHeight := canvasHeight;
      agents := [];
      actualState := Idle;
      intervalAnimation := None;
      timers := map[];
      nextHandle := 1;
      size := CalculConversion(MinSize, MaxSize, sizePercentage);
      speed := CalculConversion(MinSpeed, MaxSpeed, speedPercentage);
    }

    /** setInterval: registers a period under a new handle; handles are positive. */
    method SetInterval(period: real) returns (handle: nat)
      requires Timers()
      modifies this`timers, this`nextHandle
      ensures 0 < handle && handle !in old(timers)
      ensures handle == old(nextHandle) && nextHandle == handle + 1
      ensures timers == old(timers)[handle := period]
    {
      handle := nextHandle;
      timers := timers[handle := period];
      nextHandle := nextHandle + 1;
    }

    /** clearInterval: forgets the handle; clearing `null` does nothing. */
    method ClearInterval(handle: Option<nat>)
      modifies this`timers
      ensures timers == if handle.Some? then old(timers) - {handle.value} else old(timers)
    {
      if handle.Some? {
        timers := timers - {handle.value};
      }
    }

    /** runAnimation: the state becomes "run", and an interval at the current speed is
        started unless one is live already. */
    method RunAnimation()
      requires Valid()
      modifies this`actualState, this`intervalAnimation, this`timers, this`nextHandle
      ensures Valid() && actualState == Running
      ensures old(intervalAnimation).Some? ==> intervalAnimation == old(intervalAnimation) && timers == old(timers)
      ensures old(intervalAnimation).None? ==>
                intervalAnimation == Some(old(nextHandle)) && timers == map[old(nextHandle) := speed]
    {
      actualState := Running;
      if intervalAnimation.None? {
        var handle := SetInterval(speed);
        intervalAnimation := Some(handle);
      }
    }

    /** pause: the interval is cleared and the state becomes "pause". */
    method Pause()
      requires Population() && Timers()
      modifies this`actualState, this`intervalAnimation, this`timers
      ensures Valid() && actualState == Paused && intervalAnimation == None && timers == map[]
    {
      ClearInterval(intervalAnimation);
      intervalAnimation := None;
      actualState := Paused;
    }

    /** resume: runAnimation, then the state is "run". */
    method Resume()
      requires Valid()
      modifies this`actualState, this`intervalAnimation, this`timers, this`nextHandle
      ensures Valid() && actualState == Running
      ensures old(intervalAnimation).Some? ==> intervalAnimation == old(intervalAnimation) && timers == old(timers)
      ensures old(intervalAnimation).None? ==>
                intervalAnimation == Some(old(nextHandle)) && timers == map[old(nextHandle) := speed]
    {
      RunAnimation();
      actualState := Running;
    }

    /** The start button: runs the animation unless it is paused (a paused animation is
        resumed only by the pause/resume button). */
    method Start()
      requires Valid()
      modifies this`actualState, this`intervalAnimation, this`timers, this`nextHandle
      ensures Valid()
      ensures old(actualState) == Paused ==> actualState == Paused && timers == old(timers) && intervalAnimation == None
      ensures old(actualState) != Paused ==> actualState == Running && |timers.Keys| == 1
    {
      if actualState != Paused {
        RunAnimation();
      }
    }

    /** The pause/resume button: toggles between "run" and "pause"; before the first
        start nothing happens. */
    method PauseResume()
      requires Valid()
      modifies this`actualState, this`intervalAnimation, this`timers, this`nextHandle
      ensures Valid()
      ensures old(actualState) == Running ==> actualState == Paused && timers == map[]
      ensures old(actualState) == Paused ==> actualState == Running && timers == map[old(nextHandle) := speed]
      ensures old(actualState) == Idle ==> actualState == Idle && timers == old(timers) == map[]
    {
      if actualState == Running {
        Pause();
      } else if actualState == Paused {
        Resume();
      }
    }

    /** The speed slider: the period is converted from the slider value (the same formula
        as calculConversion), and a running animation is paused, so the next interval
        uses the new period. */
    method SpeedInput(percentage: real)
      requires Valid()
      modifies this`speed, this`actualState, this`intervalAnimation, this`timers
      ensures Valid() && speed == CalculConversion(MinSpeed, MaxSpeed, percentage)
      ensures old(actualState) == Running ==> actualState == Paused && timers == map[]
      ensures old(actualState) != Running ==> actualState == old(actualState) && timers == old(timers) == map[]
    {
      speed := MinSpeed + ((percentage - 1.0) / (100.0 - 1.0)) * (MaxSpeed - MinSpeed);
      if actualState == Running {
        Pause();
      }
    }

    /** changeSize: pauses a running animation and gives every agent the new radius;
        nothing else about the agents changes. */
    method ChangeSize(newSize: real)
      requires Valid()
      modifies this`actualState, this`intervalAnimation, this`timers, agents
      ensures Valid() && agents == old(agents)
      ensures Snaps(agents) == Resized(old(Snaps(agents)), newSize)
      ensures old(actualState) == Running ==> actualState == Paused && timers == map[]
      ensures old(actualState) != Running ==> actualState == old(actualState) && timers == old(timers)
    {
      if actualState == Running {
        Pause();
      }
      ghost var s0 := Snaps(agents);
      ResizeAgents(newSize);
      ResizedKeepsPopulation(s0, newSize);
    }

    /** The loop of changeSize: the radius setter on every agent, in list order. */
    method ResizeAgents(newSize: real)
      requires IdsIncreasing(agents)
      modifies agents
      ensures Snaps(agents) == Resized(old(Snaps(agents)), newSize)
    {
      ghost var s0 := Snaps(agents);
      IdsDistinct(agents);
      for k := 0 to |agents|
        invariant forall j :: 0 <= j < k ==> Snap(agents[j]) == Resized(s0, newSize)[j]
        invariant forall j :: k <= j < |agents| ==> Snap(agents[j]) == s0[j]
      {
        label Before:
        agents[k].SetRadius(newSize);
        forall j | 0 <= j < |agents| && j != k ensures Snap(agents[j]) == old@Before(Snap(agents[j])) {
          assert agents[j] != agents[k];
        }
      }
      assert Snaps(agents) == Resized(s0, newSize);
    }

    /** The size slider: only when there are agents, the size is converted from the
        slider value and applied with changeSize; otherwise nothing changes, not even
        the size later agents are created with. */
    method SizeInput(percentage: real)
      requires Valid()
      modifies this`size, this`actualState, this`intervalAnimation, this`timers, agents
      ensures Valid() && agents == old(agents)
      ensures |agents| > 0 ==>
                size == CalculConversion(MinSize, MaxSize, percentage) && Snaps(agents) == Resized(old(Snaps(agents)), size)
      ensures |agents| > 0 && old(actualState) == Running ==> actualState == Paused && timers == map[]
      ensures |agents| > 0 && old(actualState) != Running ==> actualState == old(actualState) && timers == old(timers)
      ensures |agents| == 0 ==> size == old(size) && actualState == old(actualState) && timers == old(timers)
    {
      if |agents| > 0 {
        size := MinSize + ((percentage - 1.0) / (100.0 - 1.0)) * (MaxSize - MinSize);
        ChangeSize(size);
      }
    }

    /**
     * animateEnvironments, one call of the interval: every agent in list order checks
     * the list if it is infected, then moves. The agents, the events raised and the
     * infected counter are those of Pass; the population invariant is kept.
     */
    method AnimateEnvironments(collisions: seq<seq<real>>, moves: seq<Draws>) returns (events: seq<string>)
      requires Valid() && TickDraws(|agents|, collisions, moves)
      modifies agents, registry`numberOfAgentsInfected
      ensures Valid()
      ensures var t := Pass(old(Snaps(agents)), collisions, moves);
              && Snaps(agents) == t.agents && events == t.events
              && registry.numberOfAgentsInfected == old(registry.numberOfAgentsInfected) + t.infections
    {
      ghost var s0 := Snaps(agents);
      ghost var t := Pass(s0, collisions, moves);
      TickKeepsPopulation(s0, collisions, moves);
      events := PlayTurns(collisions, moves);
    }

    /** animateEnvironments' loop: the turns of the agents in list order. */
    method PlayTurns(collisions: seq<seq<real>>, moves: seq<Draws>) returns (events: seq<string>)
      requires TickDraws(|agents|, collisions, moves)
      requires IdsIncreasing(agents) && forall k :: 0 <= k < |agents| ==> agents[k].registry == registry
      modifies agents, registry`numberOfAgentsInfected
      ensures var t := Pass(old(Snaps(agents)), collisions, moves);
              && Snaps(agents) == t.agents && events == t.events
              && registry.numberOfAgentsInfected == old(registry.numberOfAgentsInfected) + t.infections
    {
      IdsDistinct(agents);
      ghost var s0 := Snaps(agents);
      ghost var n0 := registry.numberOfAgentsInfected;
      ghost var t := Tick(s0, [], 0);
      ghost var final := Pass(s0, collisions, moves);
      events := [];
      var i := 0;
      while i < |agents|
        invariant 0 <= i <= |agents| && |t.agents| == |agents| && PassFrom(t, collisions, moves, i) == final
        invariant Snaps(agents) == t.agents && events == t.events
        invariant registry.numberOfAgentsInfected == n0 + t.infections
        modifies agents, registry`numberOfAgentsInfected
      {
        ghost var u := Next(t, i, collisions[i], moves[i]);
        var event := PlayTurn(t.agents, i, collisions[i], moves[i]);
        t := u;
        events := events + event;
        i := i + 1;
      }
    }

    /** The body of animateEnvironments' loop for the agent at index k: isColliding
        over the whole list if it is infected, then run. */
    method PlayTurn(ghost s: seq<Snapshot>, k: nat, draws: seq<real>, d: Draws) returns (events: seq<string>)
      requires k < |agents| && |draws| == |agents| && ValidDraws(d)
      requires Distinct(agents) && forall a :: a in agents ==> a.registry == registry
      requires Snaps(agents) == s
      modifies agents, registry`numberOfAgentsInfected
      ensures var c := Turn(s, k, draws, d);
              && Snaps(agents) == c.agents && events == c.events
              && registry.numberOfAgentsInfected == old(registry.numberOfAgentsInfected) + c.infections
    {
      var agent := agents[k];
      if agent.state == Infected {
        events := agent.IsColliding(agents, draws);
      } else {
        events := [];
      }
      ghost var c := Snaps(agents);
      agent.Run(d);
      forall j | 0 <= j < |agents| ensures Snap(agents[j]) == c[k := Advance(c[k], d)][j] {
        assert j != k ==> agents[j] != agent;
      }
      SnapsAre(agents, c[k := Advance(c[k], d)]);
    }

    /**
     * createEnvironnement: one construction per attempt, in roster order; an agent whose
     * picture loads is added to the list (the patient zero infected first), and after a
     * failed load the same roster entry is tried again. The agents added, the ids taken
     * and the infected counter are those of Creation, and the infection of the patient
     * zero raises no event.
     */
    method CreateEnvironnement(loads: seq<bool>, spawns: seq<Spawn>) returns (events: seq<string>)
      requires Valid() && |spawns| == |loads| && forall k :: 0 <= k < |spawns| ==> ValidSpawn(spawns[k])
      modifies this`agents, registry
      ensures Valid() && events == []
      ensures Snaps(agents) == old(Snaps(agents)) + Creation(Roster, loads, spawns, 0, 0, old(registry.numberOfAgents), canvasWidth, canvasHeight, size).agents
      ensures registry.numberOfAgents == old(registry.numberOfAgents) + Creation(Roster, loads, spawns, 0, 0, old(registry.numberOfAgents), canvasWidth, canvasHeight, size).attempts
      ensures registry.numberOfAgentsInfected == old(registry.numberOfAgentsInfected) + InfectedCount(Creation(Roster, loads, spawns, 0, 0, old(registry.numberOfAgents), canvasWidth, canvasHeight, size).agents)
    {
      RosterFacts();
      events := Populate(Roster, loads, spawns);
    }

    /** createEnvironnement's loop over the entries of a roster whose patient zero, if
        it has one, is the observer. */
    method Populate(entries: seq<(string, string)>, loads: seq<bool>, spawns: seq<Spawn>) returns (events: seq<string>)
      requires Valid() == true && |spawns| == |loads| && forall k :: 0 <= k < |spawns| ==> ValidSpawn(spawns[k])
      requires PatientZero < |entries| ==> entries[PatientZero].0 == Observer
      modifies this`agents, registry
      ensures Valid() == true && events == []
      ensures Snaps(agents) == old(Snaps(agents)) + Creation(entries, loads, spawns, 0, 0, old(registry.numberOfAgents), canvasWidth, canvasHeight, size).agents
      ensures registry.numberOfAgents == old(registry.numberOfAgents) + Creation(entries, loads, spawns, 0, 0, old(registry.numberOfAgents), canvasWidth, canvasHeight, size).attempts
      ensures registry.numberOfAgentsInfected == old(registry.numberOfAgentsInfected) + InfectedCount(Creation(entries, loads, spawns, 0, 0, old(registry.numberOfAgents), canvasWidth, canvasHeight, size).agents)
    {
      ghost var s0 := Snaps(agents);
      ghost var n0 := registry.numberOfAgents;
      ghost var c0 := registry.numberOfAgentsInfected;
      ghost var width, height, radius := canvasWidth, canvasHeight, size;
      ghost var final := CreationFrom(entries, loads, spawns, 0, 0, n0, width, height, radius, []);
      ghost var made: seq<Snapshot> := [];
      ghost var nid := n0;
      events := [];
      var i: nat := 0;
      var attempt: nat := 0;
      while i < |entries| && attempt < |loads|
        invariant attempt <= |loads| && i <= |entries|
        invariant registry.numberOfAgents == nid == n0 + attempt
        invariant canvasWidth == width && canvasHeight == height && size == radius
        invariant CreationFrom(entries, loads, spawns, attempt, i, nid, width, height, radius, made) == final
        invariant Grown(s0, c0, made) == true && events == []
        decreases |loads| - attempt
      {
        events, i, made := Iterate(entries, loads, spawns, attempt, i, s0, c0, made, nid, width, height, radius, final);
        attempt := attempt + 1;
        nid := nid + 1;
      }
      CreationFromDone(entries, loads, spawns, attempt, i, nid, n0, width, height, radius, made);
    }

    /** The agent list extends `s0` by `made`, and the infected counter counts them.
        Where it is assumed and asserted across a call it is written `Grown(...) == true`,
        so that the verifier carries it as one fact instead of one goal per conjunct. */
    ghost predicate Grown(s0: seq<Snapshot>, c0: int, made: seq<Snapshot>)
      reads this, registry, agents
    {
      Valid() && Snaps(agents) == s0 + made && registry.numberOfAgentsInfected == c0 + InfectedCount(made)
    }

    /** One pass of createEnvironnement's loop: attempt `attempt` on roster entry `next`,
        which moves on to the following entry only when the picture loads. */
    method Iterate(entries: seq<(string, string)>, loads: seq<bool>, spawns: seq<Spawn>, attempt: nat, next: nat,
                ghost s0: seq<Snapshot>, ghost c0: int, ghost made: seq<Snapshot>, ghost id: int,
                ghost width: real, ghost height: real, ghost radius: real, ghost final: Made)
      returns (events: seq<string>, next': nat, ghost made': seq<Snapshot>)
      requires attempt < |loads| == |spawns| && next < |entries|
      requires forall k :: 0 <= k < |spawns| ==> ValidSpawn(spawns[k])
      requires PatientZero < |entries| ==> entries[PatientZero].0 == Observer
      requires Grown(s0, c0, made) == true && registry.numberOfAgents == id
      requires canvasWidth == width && canvasHeight == height && size == radius
      requires CreationFrom(entries, loads, spawns, attempt, next, id, width, height, radius, made) == final
      modifies this`agents, registry
      ensures Grown(s0, c0, made') == true && registry.numberOfAgents == id + 1 && events == []
      ensures next' <= |entries|
      ensures CreationFrom(entries, loads, spawns, attempt + 1, next', id + 1, width, height, radius, made') == final
    {
      CreationFromStep(entries, loads, spawns, attempt, next, id, width, height, radius, made);
      events, made' := Enroll(entries[next].0, next, loads[attempt], spawns[attempt], s0, c0, made, id, width, height, radius);
      next' := if loads[attempt] then next + 1 else next;
    }

    /** One attempt, as the creation loop's bookkeeping sees it. */
    method Enroll(name: string, next: nat, load: bool, spawn: Spawn, ghost s0: seq<Snapshot>, ghost c0: int,
                  ghost made: seq<Snapshot>, ghost id: int, ghost width: real, ghost height: real, ghost radius: real)
      returns (events: seq<string>, ghost made': seq<Snapshot>)
      requires Grown(s0, c0, made) == true && registry.numberOfAgents == id
      requires canvasWidth == width && canvasHeight == height && size == radius
      requires ValidSpawn(spawn) && (next == PatientZero ==> name == Observer)
      modifies this`agents, registry
      ensures load ==> made' == made + [Entrant(name, next, id + 1, width, height, radius, spawn)]
      ensures !load ==> made' == made
      ensures Grown(s0, c0, made') == true
      ensures registry.numberOfAgents == id + 1 && events == []
    {
      events := Attempt(name, next, load, spawn);
      ghost var tail := if load then [Entrant(name, next, id + 1, width, height, radius, spawn)] else [];
      GrowStep(s0, made, tail);
      made' := made + tail;
    }

    /** One attempt of createEnvironnement's loop, for roster entry `next` named `name`:
        the agent is constructed (taking the next id) and, only when its picture loads,
        infected if it is the patient zero and added to the list. */
    method Attempt(name: string, next: nat, load: bool, spawn: Spawn) returns (events: seq<string>)
      requires Valid() == true && ValidSpawn(spawn) && (next == PatientZero ==> name == Observer)
      modifies this`agents, registry
      ensures Valid() == true && events == []
      ensures registry.numberOfAgents == old(registry.numberOfAgents) + 1
      ensures Snaps(agents) == old(Snaps(agents)) + (if load then [Entrant(name, next, old(registry.numberOfAgents) + 1, canvasWidth, canvasHeight, old(size), spawn)] else [])
      ensures registry.numberOfAgentsInfected == old(registry.numberOfAgentsInfected) + (if load && next == PatientZero then 1 else 0)
    {
      var agent := Recruit(name, spawn);
      events := [];
      if load {
        events := Admit(agent, next == PatientZero);
      }
    }

    /** `new Agent(...)`: the id counter moves on, and nothing the environment holds
        changes. */
    method Recruit(name: string, spawn: Spawn) returns (agent: Agent)
      requires Population() == true && ValidSpawn(spawn)
      modifies registry
      ensures Population() == true && fresh(agent) && agent.registry == registry
      ensures 0 < agent.id == old(registry.numberOfAgents) + 1 == registry.numberOfAgents
      ensures forall k :: 0 <= k < |agents| ==> agents[k].id < agent.id
      ensures Snap(agent) == Newborn(agent.id, name, canvasWidth, canvasHeight, size, spawn)
      ensures Snaps(agents) == old(Snaps(agents))
      ensures registry.numberOfAgentsInfected == old(registry.numberOfAgentsInfected)
    {
      ghost var s0 := Snaps(agents);
      agent := new Agent(canvasWidth, canvasHeight, size, name, registry, spawn);
      assert Snaps(agents) == s0;
    }

    /** The image has loaded: the agent is infected when it is patient zero, and joins
        the list. */
    method Admit(agent: Agent, infect: bool) returns (events: seq<string>)
      requires Population() == true && agent.registry == registry && agent !in agents
      requires 0 < agent.id == registry.numberOfAgents
      requires forall k :: 0 <= k < |agents| ==> agents[k].id < agent.id
      requires 0 <= agent.directionIteration <= 5 && agent.state == Normal
      requires infect ==> agent.name == Observer
      modifies this`agents, agent`state, registry`numberOfAgentsInfected
      ensures Population() == true && events == [] && agents == old(agents) + [agent]
      ensures Snaps(agents) == old(Snaps(agents)) + [if infect then old(Snap(agent)).(state := Infected) else old(Snap(agent))]
      ensures registry.numberOfAgentsInfected == old(registry.numberOfAgentsInfected) + (if infect then 1 else 0)
    {
      ghost var s0 := Snaps(agents);
      events := [];
      if infect {
        events := agent.InfectAgent();
      }
      assert Snaps(agents) == s0;
      Enlist(agent);
    }

    /** Appends a newly constructed agent whose id is the latest one handed out and whose
        state the infected counter already counts. */
    method Enlist(agent: Agent)
      requires (forall k :: 0 <= k < |agents| ==> agents[k].registry == registry)
      requires IdsIncreasing(agents) && CountdownsInRange(Snaps(agents))
      requires forall k :: 0 <= k < |agents| ==> 0 < agents[k].id < agent.id
      requires agent.registry == registry && 0 < agent.id == registry.numberOfAgents
      requires 0 <= agent.directionIteration <= 5
      requires registry.numberOfAgentsInfected == InfectedCount(Snaps(agents)) + (if agent.state == Infected then 1 else 0)
      modifies this`agents
      ensures agents == old(agents) + [agent] && Population()
      ensures Snaps(agents) == old(Snaps(agents)) + [Snap(agent)]
    {
      ghost var before := agents;
      ghost var s0 := Snaps(agents);
      IdsAppend(agents, agent, agent.id - 1);
      agents := agents + [agent];
      SnapsAppend(before, agent);
      InfectedCountAppend(s0, Snap(agent));
      forall k | 0 <= k < |agents|
        ensures agents[k].registry == registry && 0 < agents[k].id <= registry.numberOfAgents
        ensures 0 <= Snaps(agents)[k].iteration <= 5
      {
        if k < |before| {
          assert agents[k] == before[k] && Snaps(agents)[k] == s0[k];
        }
      }
    }

    /** restore: clears the interval, puts size and speed back to the slider value 50,
        empties the agent list, forgets the state and zeroes both counters. (The
        re-creation that follows 50 ms later is a separate call of CreateEnvironnement.) */
    method Restore()
      requires Valid()
      modifies this, registry
      ensures Valid() && agents == [] && actualState == Idle && intervalAnimation == None && timers == map[]
      ensures registry.numberOfAgents == 0 && registry.numberOfAgentsInfected == 0
      ensures size == CalculConversion(MinSize, MaxSize, DefaultPercentage)
      ensures speed == CalculConversion(MinSpeed, MaxSpeed, DefaultPercentage)
      ensures nextHandle == old(nextHandle)
    {
      ClearInterval(intervalAnimation);
      size := CalculConversion(MinSize, MaxSize, DefaultPercentage);
      speed := CalculConversion(MinSpeed, MaxSpeed, DefaultPercentage);
      intervalAnimation := None;
      agents := [];
      actualState := Idle;
      registry.RestoreAgent();
    }
  }
}
