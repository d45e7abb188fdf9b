# A verified model of the multi-agent contagion simulation

The browser simulation places 23 named agents on a canvas. Each agent follows its own
random walk. An infected agent infects every normal agent it overlaps with probability
0.8. A page script drives the ticks on a browser interval and handles the start,
restore, pause/resume, size and speed controls.

This project models the three files that carry the logic:

- `scripts/MoveBehavior.js`, the newer random-walk class: `move_behavior.dfy`, module
  `MoveBehavior`.
- `scripts/Agent.js`, the agent class with its own older walk and two static counters:
  `agent.dfy`, module `Agents`.
- `scripts/index.js`, the page script: `simulation.dfy`, module `Simulation`.

`motion.dfy` (module `Motion`) holds what both walks share: the directions and their
headings, the wall tests, and the uniform draws. `wrappers.dfy` holds `Option`.

How the model is built:

- Every `Math.random()` result is a parameter: a real in [0, 1).
  - `Draws` holds the three draws of one `getRandomMove`.
  - `Spawn` holds the three draws of one construction.
  - `loads` gives, per attempt, whether the picture loaded.
  - One collision draw is given per agent checked.
- **The walks.** Each class is a Dafny `class` with the fields the source updates.
  - Each `getRandomMove` is a method that transliterates the source's `switch`.
  - The method is proved equal to a pure specification `Step`, written axis by axis. It
    tests the heading's components against `NearXWall`/`NearYWall` and names the
    reflected heading with `NameOf`.
  - The properties are lemmas about `Step`.
- **The older walk** in `scripts/Agent.js` is modelled as written:
  - the countdown is redrawn only when it is exactly 0;
  - both draws are `floor(u * 6 - 2) + 2`;
  - a diagonal reflected on the x axis alone stores `"-right"` or `"-left"`;
  - these sentinels match no case, and since this variant has no fallback move the agent
    stands still until the countdown reaches 0.
- **The static counters** `#numberOfAgents` and `#numberOfAgentsInfected` live in one
  shared `Registry` object. Every agent holds a reference to it.
- **Agents as values.** A `Snapshot` is the value of an agent's fields.
  - `Collide` is `isColliding` on a list of snapshots.
  - `Pass` is one call of `animateEnvironments`: each agent's turn is `Check` (collide if
    infected), then `Advance` (run). Each turn acts on the list as the earlier turns left
    it.
  - `Creation` is `createEnvironnement`'s loop.
  - The methods of `Environment` and `Agent` are proved against these functions.
- **The page state** is `Environment`: the agents, `actualState` (null, "run" or "pause"),
  `intervalAnimation`, `size` and `speed`.
  - The browser's table of live intervals is a map from handle to period, updated by the
    model's `SetInterval` and `ClearInterval`.
  - The invariant `Valid` ties the agents to the counters.
  - It also states that an interval is live exactly while the state is "run", that it is
    the recorded one, and that it ties the interval to the current speed.

- **Staying on the canvas.** `Inside` says the centre lies in
  [floor(r), W - r) x [floor(r), H - r), which is where getRandomX/getRandomY place an
  agent. `Roomy` says the speed and radius are positive and the canvas is wider and
  taller than 2r + 3 * speed. Both walks then keep an agent inside.
- **Direction names** are a datatype with one constructor per case of the switch and
  `Other(s)` for any other string. `Parse` maps a string to its canonical value, so
  `Other("top")` never arises from a source string. MoveBehavior's invariant requires
  its list and its stored direction to be canonical.

Where the repository's descriptions and the code disagree, the model follows the code:

- The comment on `createEnvironnement` speaks of 50 agents. The roster has 23 entries.
- `run` only writes to the console once the infected counter is at least 23, which
  changes no state. The scripts have no completion signal.
- The scripts have no virus or stationary source entities, no one-shot removal and no
  final tick. scripts/DrawVirus.js only draws.

## Model

| member | source | states |
|---|---|---|
| Motion.Heading | scripts/MoveBehavior.js:62-194 | each of the eight names has a unit heading on the canvas (y grows downwards); exactly the strings that match no case have heading (0, 0) |
| Motion.NameOf | scripts/MoveBehavior.js:62-194 | every non-zero unit heading is the heading of exactly one of the eight names (with Motion.NameOfHeading, the inverse of Heading) |
| Motion.NameOfHeading | scripts/MoveBehavior.js:7-16 | naming the heading of any of the eight names gives that name back |
| Motion.Parse | scripts/MoveBehavior.js:62-194 | every string has exactly one canonical direction, whose label is the string itself: an unknown string never stands for one of the eight cases |
| Motion.IndexDraw | scripts/MoveBehavior.js:53-55 | `Math.floor(random * length)` is a valid index of a non-empty list |
| Motion.Pick | scripts/MoveBehavior.js:29-30 | the drawn direction is an element of the list; an empty list gives the value that matches no case (JavaScript's undefined) |
| Motion.AxisMove | scripts/MoveBehavior.js:64-69 | on an axis the heading has no component the move is 0; otherwise it is speed in the heading's sense, or against it when that wall is near |
| MoveBehavior.CooldownDraw | scripts/MoveBehavior.js:45 | `Math.floor(random * 4) + 6` lies in 6..9 |
| MoveBehavior.Reflected | scripts/MoveBehavior.js:76-94 | any reflection of this variant stores one of the eight names |
| MoveBehavior.CountdownRule | scripts/MoveBehavior.js:45-59 | a counter at most 0 is replaced by a draw in 6..9 and the direction is redrawn from the injected list; otherwise the counter drops by exactly 1; any reflection then sets the counter to this call's border draw in 6..9, and without one the direction and counter stay as after the countdown |
| MoveBehavior.StepIterationInRange | scripts/MoveBehavior.js:49-74 | a call keeps a counter of at most 9 in 0..9 |
| MoveBehavior.ReplayIterationInRange | scripts/MoveBehavior.js:17 | from any counter in 0..9 (the initial value is 2), the counter stays in 0..9 across any number of calls |
| MoveBehavior.MoveShape | scripts/MoveBehavior.js:62-200 | each component is -speed, 0 or +speed; with a non-zero speed the move is never (0, 0); a direction that matches no case gives the fallback (speed, speed) |
| MoveBehavior.WallAvoidance | scripts/MoveBehavior.js:62-194 | top: y <= radius + 2*speed gives +speed, else -speed; bottom: y >= height - radius - 2*speed gives -speed, else +speed; left and right alike on x |
| MoveBehavior.ReflectionTable | scripts/MoveBehavior.js:76-194 | for a diagonal: both walls near reverse both components; the x wall alone reverses the horizontal one; the y wall alone gives the reversed vertical direction |
| MoveBehavior.TopLeftReflections | scripts/MoveBehavior.js:76-94 | "top-left" with both walls near becomes "bottom-right", with the left wall only "top-right", with the top wall only "bottom", and with neither it keeps its direction and the countdown drops by one |
| MoveBehavior.NamedStaysNamed | scripts/MoveBehavior.js:62-194 | from one of the eight names (or a redraw from a list of names) the stored direction is one of the eight names, and each non-zero axis of its heading has the sign of the returned move |
| MoveBehavior.StepCanonical | scripts/MoveBehavior.js:45-194 | from a canonical direction and a list of canonical directions, the stored direction stays canonical |
| MoveBehavior.StepStaysInside | scripts/MoveBehavior.js:62-194 | when the direction after the countdown is one of the eight names, an agent inside a canvas roomy for its speed stays inside it after the move |
| MoveBehavior.CardinalMoves | scripts/MoveBehavior.js:63-173 | "top"/"bottom" move only vertically and "left"/"right" only horizontally, with a non-zero move on their own axis |
| MoveBehavior.MoveBehavior.constructor | scripts/MoveBehavior.js:26-31 | stores speed and list (each string in the canonical form Motion.Parse gives it), draws the first direction from the list, and starts the counter at 2 |
| MoveBehavior.MoveBehavior.Switch | scripts/MoveBehavior.js:62-200 | the switch on the direction changes only the stored direction and counter; the move and their new values are those of Steer |
| MoveBehavior.MoveBehavior.GetRandomMove | scripts/MoveBehavior.js:42-203 | changes only the stored direction and the counter; the move and their new values are those of Step; the counter stays in 0..9 |
| Agents.CooldownDraw | scripts/Agent.js:144 | `Math.floor(random * 6 - 2) + 2` lies in 0..5 |
| Agents.Reflected | scripts/Agent.js:161-329 | a reflection of this variant stores one of the eight names or one of the two sentinels |
| Agents.CountdownRule | scripts/Agent.js:148-158 | exactly when the counter is 0, the direction is redrawn from the eight names with this call's direction draw and the counter becomes this call's cooldown draw in 0..5; otherwise the counter drops by one and the direction stays; a reflection sets it to the border draw |
| Agents.StepIterationInRange | scripts/Agent.js:144-158 | a call that starts with a counter in 0..5 leaves it in 0..5 |
| Agents.WalkInvariant | scripts/Agent.js:26 | from a counter in 0..5 (initially 2), any number of run() calls keep it in 0..5 and change only position, direction and counter |
| Agents.SentinelReflections | scripts/Agent.js:175-197 | a diagonal reflected on the x axis alone stores "-right" when heading left and "-left" when heading right; from both walls the reversed horizontal name; from the y wall alone the reversed vertical name |
| Agents.SentinelStalls | scripts/Agent.js:161-329 | a sentinel matches no case: a call returns (0, 0), keeps the sentinel and decrements the counter |
| Agents.SentinelWalk | scripts/Agent.js:148-158 | an agent with a sentinel and a counter of at least n stands still for n runs, keeping the sentinel, with the counter n lower |
| Agents.RedrawMoves | scripts/Agent.js:148-155 | when the counter reaches 0 a real direction is redrawn, so an agent with positive speed moves |
| Agents.AgreesWithMoveBehavior | scripts/Agent.js:161-329 | for a named direction with a running countdown the move equals MoveBehavior's, and so does the stored direction unless a diagonal is reflected |
| Agents.StepStaysInside | scripts/Agent.js:161-329 | an agent inside a canvas roomy for its speed stays inside it after one move, sentinels included |
| Agents.NewbornInside | scripts/Agent.js:337-357 | on a canvas larger than its diameter a new agent starts inside it |
| Agents.WalkStaysInside | scripts/Agent.js:94-102 | any number of run() calls keep an agent inside a roomy canvas |
| Agents.SpawnCoordinate | scripts/Agent.js:337-344 | `floor(max(u*W, 2r) - r)` is at least floor(r), and below W - r when W > 2r |
| Agents.Advance | scripts/Agent.js:94-102 | run() changes only position, direction and counter |
| Agents.WithinReachIsDistanceTest | scripts/Agent.js:111-114 | the squared test agrees with `Math.sqrt(dx*dx + dy*dy) < r1 + r2` for the non-negative root |
| Agents.InfectionEvent | scripts/Agent.js:130-133 | an event is raised exactly when the name is not "Ismael", and it carries the name |
| Agents.CollideAt | scripts/Agent.js:108-122 | after isColliding an agent is changed exactly when it is normal, strictly closer than the sum of radii and its draw is at least 0.2; it then becomes infected and nothing else about it changes |
| Agents.CollideNeverCures | scripts/Agent.js:108-122 | an infected agent, the caller included, is left unchanged |
| Agents.CollideCount | scripts/Agent.js:108-134 | the infected count of the list grows by exactly the number of infections, which is what the shared counter gains |
| Agents.CollisionExample | scripts/Agent.js:108-122 | two agents of radius 10 one pixel apart: draw 0.5 infects and raises one event; draw 0.1 changes nothing |
| Agents.Registry.constructor | scripts/Agent.js:28-29 | both counters start at 0 |
| Agents.Registry.RestoreAgent | scripts/Agent.js:376-379 | both counters become 0 |
| Agents.Agent.constructor | scripts/Agent.js:37-49 | pre-increments the agent counter and takes it as id; the agent is normal, placed by getRandomX/getRandomY, heading a drawn name, with counter 2 and speed 5 |
| Agents.Agent.Run | scripts/Agent.js:94-102 | the position moves by exactly the move of getRandomMove (Advance) |
| Agents.Agent.IsColliding | scripts/Agent.js:108-122 | the agents of the list become those of Collide, the events raised are Collide's in list order, and the infected counter grows by its infections |
| Agents.Agent.Touch | scripts/Agent.js:109-120 | one agent is infected exactly when Transmits holds; the counter and the event follow |
| Agents.Agent.InfectAgent | scripts/Agent.js:127-134 | the state becomes infected and the counter grows by exactly 1, even for an agent infected already; an event names the agent unless it is "Ismael" |
| Agents.Agent.SetRadius | scripts/Agent.js:447-449 | only the radius changes |
| Agents.Agent.GetRandomMove | scripts/Agent.js:141-330 | changes only the stored direction and counter; the move and their new values are those of Agents.Step |
| Simulation.CalculConversion | scripts/index.js:11-13 | slider value 1 gives min and 100 gives max |
| Simulation.ConversionBetween | scripts/index.js:11-13 | every slider value in 1..100 maps between min and max, keeping the order for min <= max and reversing it for min >= max |
| Simulation.SliderRanges | scripts/index.js:64-71 | the size lies in 5..35 and grows with the slider; the period lies in 20..100 ms and shrinks as the slider grows |
| Simulation.RosterFacts | scripts/index.js:15-39 | 23 distinct names; entry 14 is "Ismael", whose infection raises no event |
| Simulation.Entrant | scripts/index.js:201-203 | the agent made for a roster entry is infected exactly when the entry is index 14 |
| Simulation.CreationFromCreation | scripts/index.js:192-210 | the loop's accumulating form agrees with the recursive definition of the creation |
| Simulation.CreationCounts | scripts/index.js:192-210 | one agent per successful load until the roster is complete; the loop stops early only once the roster is complete |
| Simulation.CreationAgent | scripts/index.js:192-206 | the k-th agent added is roster entry k with the current size, infected exactly when it is entry 14, and its id is one of those the attempts consumed |
| Simulation.CreationIds | scripts/Agent.js:38 | the ids of the agents added strictly increase along the list |
| Simulation.CreationInfected | scripts/index.js:201-203 | exactly one agent is infected at creation if the roster got past entry 14, and none otherwise |
| Simulation.CheckInvariant | scripts/index.js:222-224 | an agent checks the list only if it is infected at its turn; the check cures no one and grows the infected count by its infections |
| Simulation.TurnInvariant | scripts/index.js:221-227 | a turn changes only position, direction, counter and state of each agent, cures no one, and grows the infected count by its infections |
| Simulation.TurnEffects | scripts/index.js:221-227 | at its turn the agent moves by its own draws, and it infects another agent only if it is infected at that turn, on the list the earlier turns left: an agent infected earlier in a tick spreads in the same tick |
| Simulation.PassFromInvariant | scripts/index.js:218-228 | from any point of a tick to its end, no agent is cured, counters stay in 0..5, and the infected count grows by exactly the infections reported |
| Simulation.TickEvolves | scripts/index.js:218-228 | across a whole tick no agent goes from infected to normal, ids, names and sizes stay, an agent inside a roomy canvas stays inside it, and the infected count grows by exactly the tick's infections |
| Simulation.TickKeepsPopulation | scripts/index.js:218-228 | a tick keeps every countdown in 0..5 |
| Simulation.ResizedKeepsPopulation | scripts/index.js:178-181 | resizing neither infects nor cures and keeps the countdowns |
| Simulation.IdsDistinct | scripts/Agent.js:38 | agents with strictly increasing ids are distinct objects |
| Simulation.Environment.constructor | scripts/index.js:58-71 | no agents, no state, no interval, counters 0, size and speed converted from the sliders |
| Simulation.Environment.SetInterval | scripts/index.js:236-238 | registers the period under a handle that is positive and was not live before; no other entry of the table changes |
| Simulation.Environment.ClearInterval | scripts/index.js:280 | forgets the handle; clearing null does nothing |
| Simulation.Environment.RunAnimation | scripts/index.js:233-240 | the state becomes "run"; an interval at the current speed is armed only when none is, so at most one exists and a repeated call changes nothing |
| Simulation.Environment.Pause | scripts/index.js:279-289 | the interval is cleared, none is live, and the state is "pause" |
| Simulation.Environment.Resume | scripts/index.js:294-303 | runAnimation, then the state is "run" |
| Simulation.Environment.Start | scripts/index.js:121-125 | runs the animation (one live interval) unless paused, in which case nothing changes |
| Simulation.Environment.PauseResume | scripts/index.js:137-143 | "run" becomes "pause" with no live interval, "pause" becomes "run" with one new interval at the current speed, and null stays null |
| Simulation.Environment.SpeedInput | scripts/index.js:159-166 | the period is the slider's conversion; a running animation is paused, otherwise nothing else changes |
| Simulation.Environment.ChangeSize | scripts/index.js:172-182 | pauses if running; every agent gets the new radius and nothing else about the agents changes |
| Simulation.Environment.ResizeAgents | scripts/index.js:178-181 | the radius setter on every agent, in list order, gives Resized |
| Simulation.Environment.SizeInput | scripts/index.js:148-154 | only when there are agents: the size becomes the slider's conversion and is applied with changeSize, a running animation becomes paused with no live interval, and any other state and the intervals stay; with no agents nothing changes |
| Simulation.Environment.AnimateEnvironments | scripts/index.js:218-228 | the agents, the events raised and the infected counter after one call are those of Pass; the population invariant is kept |
| Simulation.Environment.PlayTurns | scripts/index.js:221-227 | every agent takes exactly one turn, in list order, on the list as the earlier turns left it |
| Simulation.Environment.PlayTurn | scripts/index.js:222-226 | isColliding over the whole list only if the agent is infected, then run |
| Simulation.Environment.CreateEnvironnement | scripts/index.js:187-211 | appends the agents of Creation over the roster in roster order; each attempt consumes an id; a failed load retries the same entry; entry 14 is infected without an event; the invariant is kept |
| Simulation.Environment.Populate | scripts/index.js:192-210 | the loop over any roster whose entry 14 is "Ismael" gives Creation's agents, ids and infections |
| Simulation.Environment.Attempt | scripts/index.js:193-209 | one construction taking the next id; only when the picture loads is the agent infected if it is entry 14, and added |
| Simulation.Environment.Recruit | scripts/index.js:194-200 | the new agent takes the next id, larger than every id in the list, and nothing the page holds changes |
| Simulation.Environment.Admit | scripts/index.js:201-204 | the loaded agent is infected if it is entry 14, raising no event, and pushed onto the list |
| Simulation.Environment.Restore | scripts/index.js:245-274 | no interval and no agents, state null, both counters 0, size and speed back to the slider-50 conversion |

## Left out

- Drawing: `Agent.draw` (scripts/Agent.js:65-89), scripts/DrawPerson.js and scripts/DrawVirus.js are calls on the canvas context with no state to prove anything about. They are not part of this model. So is the `ctx.clearRect` of each handler.
- Image loading and the Promise the constructor returns (scripts/Agent.js:50-58) are browser I/O. Construction is synchronous, and whether the picture loaded is a `loads` parameter per attempt.
- Simulation.Environment.Populate: when pictures keep failing the source retries forever. The model bounds the attempts by the length of `loads`, so an unending run of failures is not modelled.
- DOM plumbing: `getElementById`, the modal and its `setTimeout`s, the button text and classes, and `console.log`/`console.error`. The `agentInfected` `CustomEvent` is modelled as the name it carries, returned in the list of events.
- Scheduling: `setInterval` and `setTimeout` timing, and the race between restore's delayed `createEnvironnement` and one still in flight. Both are concurrency concerns. Restore ends where the source schedules the re-creation, which is a separate call of CreateEnvironnement.
- Numbers: positions, radii, speed and periods are reals, with no IEEE rounding. `Math.sqrt` is replaced by the squared comparison, whose agreement is Agents.WithinReachIsDistanceTest. The slider values arrive as strings in the source and are reals here.
- Random draws: `Math.random()` results are parameters. isColliding evaluates `Math.random()` only when the distance test passes, because `&&` short-circuits. So the model's per-agent collision draw stands for a value that may never be drawn. The set of outcomes is the same.
- `getInfoAgent` and the plain getters and setters of scripts/Agent.js:363-479 are direct field access. Only the radius setter is used by the core, and it is Agents.Agent.SetRadius.
- Agents.Agent.IsColliding: requires the list to hold distinct agents, because the model does not cover the same agent at two indices. The page keeps ids strictly increasing, so its list satisfies this (Simulation.IdsDistinct).
- The check in `run` of the infected counter against 23 only logs, so the model has no state for it.
- MoveBehavior.StepStaysInside: holds only when the direction after the countdown is one of the eight names. A list with a string that matches no case leads to the fallback move (speed, speed), and that move can leave the canvas. The source has the same gap.
- `directions` of scripts/Agent.js is always the eight names in order, so Agents.Step draws from `Names` directly.
