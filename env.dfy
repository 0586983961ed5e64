/**
 * The grid environment `DroneSwarmSearch` (core/environment/env.py).
 *
 * Agents are the indices 0..n-1 (the source's keys "drone0", "drone1", ...).
 * A position is (x, y); the probability matrix is read as matrix[y][x].
 * The probability matrix and the person's cell come from a generator that
 * is not part of this model: each call that advances it takes the
 * generator's next output as a `Scene` parameter.
 */
module Env {
  import opened Results

  // Action codes (env.py: action_space).
  const LEFT := 0
  const RIGHT := 1
  const UP := 2
  const DOWN := 3
  const SEARCH := 4
  const IDLE := 5

  // Rewards and limits used by step.
  const STEP_REWARD := -1
  const PENALTY := -1000
  const SEARCH_COST := 100
  const COLLISION_PENALTY := -2000
  const TIMESTEP_LIMIT := 500

  /** A drone's position; `Unplaced` is the `[None, None]` a drone has until a reset places it. */
  datatype Cell = Unplaced | At(x: int, y: int)

  /** One output of the probability-matrix generator: the matrix and the person's cell. */
  datatype Scene = Scene(matrix: seq<seq<int>>, personX: int, personY: int)

  /** What one agent observes: its own position and the whole probability matrix. */
  datatype Observation = Observation(cell: Cell, matrix: seq<seq<int>>)

  datatype InitError = TooManyDrones | UnknownRenderMode

  datatype EnvError =
    | NotReset                  // step before any reset: `self.agents` does not exist yet
    | TooManyPositions          // more required positions than drones (IndexError)
    | MissingAction(agent: nat) // "Missing action for ..."
    | UnplacedDrone(agent: nat) // moving with a None coordinate (TypeError); a search with one is modelled as raising
    | SearchOffMatrix(agent: nat) // searching outside the matrix (IndexError)

  /** What step returns: observations, rewards with their total, terminations, truncations, and the agents given infos. */
  datatype StepResult = StepResult(observations: seq<Observation>, rewards: map<nat, int>, totalReward: int,
                                   terminations: map<nat, bool>, truncations: map<nat, bool>, infos: seq<nat>)

  function Range(n: nat): (r: seq<nat>)
    ensures |r| == n && forall i :: 0 <= i < n ==> r[i] == i
  {
    if n == 0 then [] else Range(n - 1) + [n - 1]
  }

  /** The argument checks of the constructor; on success, the number of drones. */
  function CheckArgs(gridSize: int, renderMode: string, nDrones: int): (r: Result<nat, InitError>)
    ensures r.Ok? <==> nDrones <= gridSize * gridSize && (renderMode == "ansi" || renderMode == "human")
    ensures r == Err(TooManyDrones) <==> nDrones > gridSize * gridSize
    ensures r.Ok? ==> r.value <= gridSize * gridSize && (nDrones >= 0 ==> r.value == nDrones)
  {
    if nDrones > gridSize * gridSize then Err(TooManyDrones)
    else if renderMode != "ansi" && renderMode != "human" then Err(UnknownRenderMode)
    else if nDrones < 0 then Ok(0)
    else Ok(nDrones)
  }

  /** The codes `step` has a branch for. */
  function ActionSpace(): (r: seq<int>)
    ensures |r| == 6
    ensures forall a :: a in r <==> LEFT <= a <= IDLE
  {
    [LEFT, RIGHT, UP, DOWN, SEARCH, IDLE]
  }

  function ObservationSpace(gridSize: int): (int, int)
  {
    (gridSize, gridSize)
  }

  predicate InGrid(c: Cell, g: int)
  {
    c.At? && 0 <= c.x < g && 0 <= c.y < g
  }

  predicate AllInGrid(cells: seq<Cell>, g: int)
  {
    forall k :: 0 <= k < |cells| ==> InGrid(cells[k], g)
  }

  // ---------------------------------------------------------------------
  // Placement on reset
  // ---------------------------------------------------------------------

  /** Where the row-major default placement puts the k-th agent (a non-positive grid size never wraps). */
  function DefaultCell(k: nat, g: int): Cell
  {
    if g > 0 then At(k % g, k / g) else At(0, k + 1)
  }

  function DefaultCells(n: nat, g: int): (r: seq<Cell>)
    ensures |r| == n && forall k :: 0 <= k < n ==> r[k] == DefaultCell(k, g)
  {
    seq(n, k requires 0 <= k => DefaultCell(k, g))
  }

  /** The placement when the caller gives positions: agent k takes given[k] when there is one. */
  function RequiredCells(cells: seq<Cell>, given: seq<(int, int)>): (r: seq<Cell>)
    ensures |r| == |cells|
    ensures forall k :: 0 <= k < |cells| && k < |given| ==> r[k] == At(given[k].0, given[k].1)
    ensures forall k :: |given| <= k < |cells| ==> r[k] == cells[k]
  {
    seq(|cells|, k requires 0 <= k < |cells| => if k < |given| then At(given[k].0, given[k].1) else cells[k])
  }

  /** With at most g*g drones the default placement is inside the grid and puts no two drones on one cell. */
  lemma DefaultPlacementInGridDistinct(n: nat, g: int)
    requires g > 0 && n <= g * g
    ensures AllInGrid(DefaultCells(n, g), g)
    ensures forall j, k :: 0 <= j < k < n ==> DefaultCell(j, g) != DefaultCell(k, g)
  {
    forall k | 0 <= k < n
      ensures InGrid(DefaultCell(k, g), g)
    {
      DivBelow(k, g);
    }
    forall j, k | 0 <= j < k < n
      ensures DefaultCell(j, g) != DefaultCell(k, g)
    {
      if DefaultCell(j, g) == DefaultCell(k, g) {
        DefaultCellInjective(j, k, g);
      }
    }
  }

  lemma DefaultCellInjective(j: nat, k: nat, g: int)
    requires g > 0 && DefaultCell(j, g) == DefaultCell(k, g)
    ensures j == k
  {
    var q, r := j / g, j % g;
    assert j == q * g + r;
    assert k == q * g + r;
  }

  lemma DivBelow(k: nat, g: int)
    requires g > 0 && k < g * g
    ensures k / g < g
  {
    var q := k / g;
    assert q * g + k % g == k;
    MulSign(q - g + 1, g);
    assert (q - g + 1) * g == q * g - g * g + g;
  }

  lemma MulSign(d: int, g: int)
    requires g > 0
    ensures d >= 1 ==> d * g >= g
    ensures d <= -1 ==> d * g <= -g
  {
  }

  lemma DivModOf(j: int, g: int, q: int, r: int)
    requires g > 0 && 0 <= r < g && q * g + r == j
    ensures q == j / g && r == j % g
  {
    var q0, r0 := j / g, j % g;
    assert q0 * g + r0 == j;
    assert (q - q0) * g == r0 - r;
    MulSign(q - q0, g);
  }

  // ---------------------------------------------------------------------
  // One step, as a specification: a fold over the live agents
  // ---------------------------------------------------------------------

  /** The state the per-agent loop of step works on (positions, the three dicts, and `self.agents`). */
  datatype Tick = Tick(cells: seq<Cell>, rewards: map<nat, int>, terminations: map<nat, bool>,
                       truncations: map<nat, bool>, live: seq<nat>)

  /** The per-agent loop's state after a prefix of agents, and the exception that stopped it, if any. */
  datatype Outcome = Outcome(tick: Tick, error: Option<EnvError>)

  /** The dicts step starts from: every live agent at reward -1, neither terminated nor truncated. */
  function StartTick(cells: seq<Cell>, live: seq<nat>): Tick
  {
    Tick(cells, map a | a in live :: STEP_REWARD, map a | a in live :: false, map a | a in live :: false, live)
  }

  predicate IsMove(a: int)
  {
    LEFT <= a <= DOWN
  }

  /** Whether move `a` from `c` would leave a grid of side g. */
  predicate AtEdge(c: Cell, a: int, g: int)
    requires c.At?
  {
    (a == LEFT && c.x <= 0) || (a == RIGHT && c.x >= g - 1) ||
    (a == UP && c.y <= 0) || (a == DOWN && c.y >= g - 1)
  }

  /** The cell one step away in direction `a` (UP decreases y). */
  function Moved(c: Cell, a: int): Cell
    requires c.At?
  {
    if a == LEFT then At(c.x - 1, c.y)
    else if a == RIGHT then At(c.x + 1, c.y)
    else if a == UP then At(c.x, c.y - 1)
    else if a == DOWN then At(c.x, c.y + 1)
    else c
  }

  /** Reward -1000, terminated and truncated. */
  function Penalize(t: Tick, i: nat): Tick
  {
    t.(rewards := t.rewards[i := PENALTY], terminations := t.terminations[i := true],
       truncations := t.truncations[i := true])
  }

  /** A move of drone i: one cell on, or the edge penalty when the move would leave the grid. */
  function MoveDrone(t: Tick, i: nat, a: int, g: int): (r: Tick)
    requires i < |t.cells| && t.cells[i].At?
    ensures |r.cells| == |t.cells| && r.live == t.live
    ensures forall k :: 0 <= k < |t.cells| && k != i ==> r.cells[k] == t.cells[k]
    ensures r.cells[i] == t.cells[i] || r.rewards == t.rewards
  {
    if AtEdge(t.cells[i], a, g) then Penalize(t, i) else t.(cells := t.cells[i := Moved(t.cells[i], a)])
  }

  /**
   * A search from cell c: the person found ends the episode for every live agent; otherwise matrix[y][x] - 100.
   * A search by an unplaced drone is modelled as raising.
   */
  function SearchCell(t: Tick, i: nat, c: Cell, scene: Scene): (r: Result<Tick, EnvError>)
    ensures r.Ok? ==> r.value.cells == t.cells
    ensures r.Ok? && r.value.live != [] ==> r.value.live == t.live && r.value.truncations == t.truncations
  {
    if c == At(scene.personX, scene.personY) then
      Ok(t.(rewards := map a | a in t.live :: 0, terminations := map a | a in t.live :: true,
            truncations := map a | a in t.live :: true, live := []))
    else if c.Unplaced? then Err(UnplacedDrone(i))
    else if 0 <= c.y < |scene.matrix| && 0 <= c.x < |scene.matrix[c.y]| then
      Ok(t.(rewards := t.rewards[i := scene.matrix[c.y][c.x] - SEARCH_COST]))
    else Err(SearchOffMatrix(i))
  }

  /** One iteration of step's loop over the agents, for agent i. */
  function ProcessAgent(g: int, scene: Scene, timestep: int, actions: map<nat, int>, t: Tick, i: nat)
    : (r: Result<Tick, EnvError>)
    requires i < |t.cells|
    ensures r.Ok? ==> |r.value.cells| == |t.cells|
  {
    if i !in actions then Err(MissingAction(i))
    else
      var a, c := actions[i], t.cells[i];
      if IsMove(a) && c.Unplaced? then Err(UnplacedDrone(i))
      else
        var moved := if IsMove(a) then MoveDrone(t, i, a, g) else t;
        var searched := if a == SEARCH then SearchCell(moved, i, c, scene) else Ok(moved);
        if searched.Err? then searched
        else if timestep > TIMESTEP_LIMIT then Ok(Penalize(searched.value, i).(live := []))
        else searched
  }

  predicate Below(order: seq<nat>, n: nat)
  {
    forall j :: 0 <= j < |order| ==> order[j] < n
  }

  /** step's loop over `order` (the live agents when the step began), stopping at the first exception. */
  function ProcessAgents(g: int, scene: Scene, timestep: int, actions: map<nat, int>, t0: Tick, order: seq<nat>)
    : (r: Outcome)
    requires Below(order, |t0.cells|)
    ensures |r.tick.cells| == |t0.cells|
    decreases |order|
  {
    if order == [] then Outcome(t0, None)
    else
      var prev := ProcessAgents(g, scene, timestep, actions, t0, order[..|order| - 1]);
      if prev.error.Some? then prev
      else Commit(ProcessAgent(g, scene, timestep, actions, prev.tick, order[|order| - 1]), prev.tick)
  }

  /** The loop's state after one more agent. */
  lemma FoldSnoc(g: int, scene: Scene, timestep: int, actions: map<nat, int>, t0: Tick, order: seq<nat>, j: nat)
    requires Below(order, |t0.cells|) && j < |order|
    requires ProcessAgents(g, scene, timestep, actions, t0, order[..j]).error.None?
    ensures var prev := ProcessAgents(g, scene, timestep, actions, t0, order[..j]).tick;
            ProcessAgents(g, scene, timestep, actions, t0, order[..j + 1])
            == Commit(ProcessAgent(g, scene, timestep, actions, prev, order[j]), prev)
  {
    assert order[..j + 1][..j] == order[..j];
  }

  /** The loop's state after one agent: the new state, or the old one with the agent's exception. */
  function Commit(r: Result<Tick, EnvError>, before: Tick): Outcome
  {
    match r
    case Ok(t) => Outcome(t, None)
    case Err(e) => Outcome(before, Some(e))
  }

  /** Once an agent raises, the agents after it are not processed. */
  lemma {:induction false} ErrorStops(g: int, scene: Scene, timestep: int, actions: map<nat, int>, t0: Tick,
                                      order: seq<nat>, j: nat)
    requires Below(order, |t0.cells|) && j <= |order|
    requires ProcessAgents(g, scene, timestep, actions, t0, order[..j]).error.Some?
    ensures ProcessAgents(g, scene, timestep, actions, t0, order) == ProcessAgents(g, scene, timestep, actions, t0, order[..j])
    decreases |order|
  {
    if j < |order| {
      var init := order[..|order| - 1];
      assert init[..j] == order[..j];
      ErrorStops(g, scene, timestep, actions, t0, init, j);
    } else {
      assert order[..j] == order;
    }
  }

  /** Agent k shares its cell with another agent. */
  predicate Collided(cells: seq<Cell>, k: nat)
    requires k < |cells|
  {
    exists j :: 0 <= j < |cells| && j != k && cells[j] == cells[k]
  }

  /** The colliding agents among the first `bound`. */
  function HitUpTo(cells: seq<Cell>, bound: nat): set<nat>
  {
    set k: nat | k < bound && k < |cells| && Collided(cells, k)
  }

  /** A dict after the collision check has visited the first `bound` agents (v: the value written on a collision). */
  function MarkUpTo<V>(cells: seq<Cell>, m: map<nat, V>, v: V, bound: nat): map<nat, V>
    decreases bound
  {
    if bound == 0 then m
    else
      var prev := MarkUpTo(cells, m, v, bound - 1);
      if bound - 1 < |cells| && Collided(cells, bound - 1) then prev[bound - 1 := v] else prev
  }

  /** After the collision check, each colliding agent holds v and every other entry is as before. */
  lemma {:induction false} CollisionMarks<V>(cells: seq<Cell>, m: map<nat, V>, v: V, bound: nat)
    ensures MarkUpTo(cells, m, v, bound).Keys == m.Keys + HitUpTo(cells, bound)
    ensures forall k :: k in HitUpTo(cells, bound) ==> MarkUpTo(cells, m, v, bound)[k] == v
    ensures forall k :: k in m && k !in HitUpTo(cells, bound) ==> MarkUpTo(cells, m, v, bound)[k] == m[k]
    decreases bound
  {
    if bound > 0 {
      CollisionMarks(cells, m, v, bound - 1);
      if bound - 1 < |cells| && Collided(cells, bound - 1) {
        assert HitUpTo(cells, bound) == HitUpTo(cells, bound - 1) + {bound - 1};
      } else {
        assert HitUpTo(cells, bound) == HitUpTo(cells, bound - 1);
      }
    } else {
      assert HitUpTo(cells, 0) == {};
    }
  }

  /** The collision check of step: every agent sharing its cell gets -2000 and is terminated and truncated. */
  function ApplyCollisions(t: Tick): Tick
  {
    t.(rewards := MarkUpTo(t.cells, t.rewards, COLLISION_PENALTY, |t.cells|),
       terminations := MarkUpTo(t.cells, t.terminations, true, |t.cells|),
       truncations := MarkUpTo(t.cells, t.truncations, true, |t.cells|))
  }

  /** The sum of the rewards dict's values, for a dict whose keys are agents below n. */
  function SumRewards(r: map<nat, int>, n: nat): int
  {
    if n == 0 then 0 else SumRewards(r, n - 1) + (if n - 1 in r then r[n - 1] else 0)
  }

  function Observe(cells: seq<Cell>, matrix: seq<seq<int>>): (r: seq<Observation>)
    ensures |r| == |cells| && forall k :: 0 <= k < |cells| ==> r[k] == Observation(cells[k], matrix)
  {
    seq(|cells|, k requires 0 <= k < |cells| => Observation(cells[k], matrix))
  }

  /** What a step that raised no exception returns, from the loop's final state and the generator's next scene. */
  function Finish(t: Tick, next: Scene): StepResult
  {
    var c := ApplyCollisions(t);
    StepResult(Observe(t.cells, next.matrix), c.rewards, SumRewards(c.rewards, |t.cells|),
               c.terminations, c.truncations, t.live)
  }

  // ---------------------------------------------------------------------
  // The environment object
  // ---------------------------------------------------------------------

  class DroneSwarmSearch {
    const gridSize: int
    const renderMode: string
    /** The number of drones; the agents are 0..n-1. */
    const n: nat
    /** `agents_positions`, one entry per drone, updated in place. */
    const positions: array<Cell>
    /** `self.agents`: every agent after reset, emptied when the episode ends. */
    var agents: seq<nat>
    var timestep: int
    /** Whether reset has been called (before that, `self.agents` does not exist). */
    var started: bool
    /** The generator's current matrix and person cell. */
    var scene: Scene

    ghost predicate Valid()
      reads this
    {
      positions.Length == n && (agents == [] || agents == Range(n))
    }

    constructor (gridSize: int, renderMode: string, nDrones: int, initial: Scene)
      requires CheckArgs(gridSize, renderMode, nDrones).Ok?
      ensures Valid() && fresh(positions)
      ensures this.gridSize == gridSize && this.renderMode == renderMode
      ensures n == CheckArgs(gridSize, renderMode, nDrones).value
      ensures forall k :: 0 <= k < n ==> positions[k] == Unplaced
      ensures !started && agents == [] && scene == initial
    {
      this.gridSize := gridSize;
      this.renderMode := renderMode;
      var count := CheckArgs(gridSize, renderMode, nDrones).value;
      n := count;
      positions := new Cell[count](_ => Unplaced);
      agents := [];
      timestep := 0;
      started := false;
      scene := initial;
    }

    /** Places the live agents row-major: the j-th at (j mod gridSize, j div gridSize). */
    method DefaultDronesPositions()
      requires Valid()
      modifies positions
      ensures agents == [] ==> positions[..] == old(positions[..])
      ensures agents != [] ==> positions[..] == DefaultCells(n, gridSize)
    {
      var counterX, counterY := 0, 0;
      var j := 0;
      while j < |agents|
        invariant 0 <= j <= |agents|
        invariant forall k :: 0 <= k < j ==> positions[k] == DefaultCell(k, gridSize)
        invariant forall k :: j <= k < n ==> positions[k] == old(positions[k])
        invariant gridSize > 0 ==> counterY * gridSize + counterX == j && 0 <= counterX <= gridSize
        invariant gridSize <= 0 ==> counterY == j && counterX == (if j == 0 then 0 else 1)
      {
        if counterX >= gridSize {
          counterX := 0;
          counterY := counterY + 1;
        }
        if gridSize > 0 {
          DivModOf(j, gridSize, counterY, counterX);
        }
        positions[agents[j]] := At(counterX, counterY);
        counterX := counterX + 1;
        j := j + 1;
      }
    }

    /** Gives agent i the position given[i] for each i; more positions than drones raise IndexError after the first n. */
    method RequiredDronePositions(given: seq<(int, int)>) returns (err: Option<EnvError>)
      requires Valid()
      modifies positions
      ensures err == (if |given| > n then Some(TooManyPositions) else None)
      ensures positions[..] == RequiredCells(old(positions[..]), given)
    {
      var i := 0;
      while i < |given|
        invariant 0 <= i <= |given| && i <= n
        invariant forall k :: 0 <= k < i ==> positions[k] == At(given[k].0, given[k].1)
        invariant forall k :: i <= k < n ==> positions[k] == old(positions[k])
      {
        if i >= n {
          return Some(TooManyPositions);
        }
        var (x, y) := given[i];
        positions[i] := At(x, y);
        i := i + 1;
      }
      return None;
    }

    /** Starts an episode: every agent live, timestep 0, drones placed, generator advanced, observations returned. */
    method Reset(dronesPositions: Option<seq<(int, int)>>, next: Scene) returns (r: Result<seq<Observation>, EnvError>)
      requires Valid()
      modifies this, positions
      ensures Valid() && started && agents == Range(n) && timestep == 0
      ensures dronesPositions.None? ==> positions[..] == DefaultCells(n, gridSize)
      ensures dronesPositions.Some? ==> positions[..] == RequiredCells(old(positions[..]), dronesPositions.value)
      ensures r.Err? <==> dronesPositions.Some? && |dronesPositions.value| > n
      ensures r.Err? ==> r.error == TooManyPositions && scene == old(scene)
      ensures r.Ok? ==> scene == next && r.value == Observe(positions[..], next.matrix)
    {
      agents := Range(n);
      timestep := 0;
      started := true;
      if dronesPositions.None? {
        if n == 0 {
          assert positions[..] == DefaultCells(n, gridSize);
        }
        DefaultDronesPositions();
      } else {
        var err := RequiredDronePositions(dronesPositions.value);
        if err.Some? {
          return Err(err.value);
        }
      }
      scene := next;
      r := Ok(Observe(positions[..], next.matrix));
    }

    /** The four move branches of step for agent i: one cell in the action's direction, or the edge penalty. */
    method MoveInPlace(i: nat, action: int, rewards: map<nat, int>, terminations: map<nat, bool>,
                       truncations: map<nat, bool>)
      returns (rewards': map<nat, int>, terminations': map<nat, bool>, truncations': map<nat, bool>)
      requires Valid() && i < n && IsMove(action) && positions[i].At?
      modifies positions
      ensures Tick(positions[..], rewards', terminations', truncations', agents)
              == MoveDrone(Tick(old(positions[..]), rewards, terminations, truncations, agents), i, action, gridSize)
    {
      rewards', terminations', truncations' := rewards, terminations, truncations;
      var cell := positions[i];
      if action == LEFT {
        if cell.x > 0 {
          positions[i] := At(cell.x - 1, cell.y);
        } else {
          rewards', terminations', truncations' := rewards'[i := PENALTY], terminations'[i := true], truncations'[i := true];
        }
      } else if action == RIGHT {
        if cell.x < gridSize - 1 {
          positions[i] := At(cell.x + 1, cell.y);
        } else {
          rewards', terminations', truncations' := rewards'[i := PENALTY], terminations'[i := true], truncations'[i := true];
        }
      } else if action == UP {
        if cell.y > 0 {
          positions[i] := At(cell.x, cell.y - 1);
        } else {
          rewards', terminations', truncations' := rewards'[i := PENALTY], terminations'[i := true], truncations'[i := true];
        }
      } else {
        if cell.y < gridSize - 1 {
          positions[i] := At(cell.x, cell.y + 1);
        } else {
          rewards', terminations', truncations' := rewards'[i := PENALTY], terminations'[i := true], truncations'[i := true];
        }
      }
    }

    /** One iteration of step's loop for agent i: moves positions[i] in place and returns the updated dicts. */
    method ProcessAgentInPlace(actions: map<nat, int>, i: nat, rewards: map<nat, int>,
                               terminations: map<nat, bool>, truncations: map<nat, bool>)
      returns (rewards': map<nat, int>, terminations': map<nat, bool>, truncations': map<nat, bool>,
               err: Option<EnvError>)
      requires Valid() && i < n
      modifies this`agents, positions
      ensures Valid()
      ensures var before := Tick(old(positions[..]), rewards, terminations, truncations, old(agents));
              var out := Commit(ProcessAgent(gridSize, scene, timestep, actions, before, i), before);
              err == out.error && positions[..] == out.tick.cells && agents == out.tick.live &&
              (err.None? ==> Tick(positions[..], rewards', terminations', truncations', agents) == out.tick)
    {
      rewards', terminations', truncations' := rewards, terminations, truncations;
      if i !in actions {
        return rewards', terminations', truncations', Some(MissingAction(i));
      }
      var action := actions[i];
      var cell := positions[i];
      var searching := false;
      if IsMove(action) && cell.Unplaced? {
        return rewards', terminations', truncations', Some(UnplacedDrone(i));
      }
      if IsMove(action) {
        rewards', terminations', truncations' := MoveInPlace(i, action, rewards', terminations', truncations');
      } else if action == SEARCH {
        searching := true;
      }

      if searching {
        rewards', terminations', truncations', err := SearchInPlace(i, cell, rewards', terminations', truncations');
        if err.Some? {
          return;
        }
      }

      if timestep > TIMESTEP_LIMIT {
        rewards', terminations', truncations' := rewards'[i := PENALTY], terminations'[i := true], truncations'[i := true];
        agents := [];
      }
      err := None;
    }

    /** The search branch of step for agent i, searching from `cell`. */
    method SearchInPlace(i: nat, cell: Cell, rewards: map<nat, int>, terminations: map<nat, bool>,
                         truncations: map<nat, bool>)
      returns (rewards': map<nat, int>, terminations': map<nat, bool>, truncations': map<nat, bool>,
               err: Option<EnvError>)
      requires Valid()
      modifies this`agents
      ensures Valid()
      ensures var before := Tick(positions[..], rewards, terminations, truncations, old(agents));
              var r := SearchCell(before, i, cell, scene);
              (r.Err? ==> err == Some(r.error) && agents == old(agents)) &&
              (r.Ok? ==> err.None? && r.value == Tick(positions[..], rewards', terminations', truncations', agents))
    {
      rewards', terminations', truncations' := rewards, terminations, truncations;
      err := None;
      if cell == At(scene.personX, scene.personY) {
        rewards' := map a | a in agents :: 0;
        terminations' := map a | a in agents :: true;
        truncations' := map a | a in agents :: true;
        agents := [];
      } else {
        if cell.Unplaced? {
          return rewards', terminations', truncations', Some(UnplacedDrone(i));
        }
        var matrix := scene.matrix;
        if !(0 <= cell.y < |matrix| && 0 <= cell.x < |matrix[cell.y]|) {
          return rewards', terminations', truncations', Some(SearchOffMatrix(i));
        }
        rewards' := rewards'[i := matrix[cell.y][cell.x] - SEARCH_COST];
      }
    }

    /** The transition function: every live agent acts, then collisions are penalized and the total is added. */
    method Step(actions: map<nat, int>, next: Scene) returns (r: Result<StepResult, EnvError>)
      requires Valid()
      modifies this, positions
      ensures Valid() && started == old(started)
      ensures !old(started) ==> r == Err(NotReset) && positions[..] == old(positions[..]) &&
                                agents == old(agents) && timestep == old(timestep) && scene == old(scene)
      ensures old(started) ==>
                var out := ProcessAgents(gridSize, old(scene), old(timestep), actions,
                                         StartTick(old(positions[..]), old(agents)), old(agents));
                positions[..] == out.tick.cells && agents == out.tick.live &&
                (out.error.Some? ==> r == Err(out.error.value) && timestep == old(timestep) && scene == old(scene)) &&
                (out.error.None? ==> r == Ok(Finish(out.tick, next)) && timestep == old(timestep) + 1 && scene == next)
    {
      if !started {
        return Err(NotReset);
      }
      var rewards, terminations, truncations, err := ProcessLiveAgents(actions);
      if err.Some? {
        return Err(err.value);
      }
      timestep := timestep + 1;
      scene := next;
      var observations := Observe(positions[..], next.matrix);
      var infos := agents;
      rewards, terminations, truncations := MarkCollisions(positions[..], rewards, terminations, truncations);
      r := Ok(StepResult(observations, rewards, SumRewards(rewards, n), terminations, truncations, infos));
    }

    /** step's loop over the live agents; an exception leaves the agents before it processed. */
    method ProcessLiveAgents(actions: map<nat, int>)
      returns (rewards: map<nat, int>, terminations: map<nat, bool>, truncations: map<nat, bool>,
               err: Option<EnvError>)
      requires Valid()
      modifies this`agents, positions
      ensures Valid()
      ensures var out := ProcessAgents(gridSize, scene, timestep, actions,
                                       StartTick(old(positions[..]), old(agents)), old(agents));
              positions[..] == out.tick.cells && agents == out.tick.live && err == out.error &&
              (err.None? ==> out.tick == Tick(positions[..], rewards, terminations, truncations, agents))
    {
      var order := agents;
      ghost var start := StartTick(positions[..], order);
      rewards := map a | a in order :: STEP_REWARD;
      terminations := map a | a in order :: false;
      truncations := map a | a in order :: false;
      var j := 0;
      while j < |order|
        invariant 0 <= j <= |order| && Valid()
        invariant ProcessAgents(gridSize, scene, timestep, actions, start, order[..j])
                  == Outcome(Tick(positions[..], rewards, terminations, truncations, agents), None)
      {
        rewards, terminations, truncations, err := Advance(actions, start, order, j, rewards, terminations, truncations);
        if err.Some? {
          return;
        }
        j := j + 1;
      }
      assert order[..|order|] == order;
      err := None;
    }

    /** One pass of step's loop, stated against the fold: either the fold's next state, or its final exception. */
    method Advance(actions: map<nat, int>, ghost start: Tick, order: seq<nat>, j: nat, rewards: map<nat, int>,
                   terminations: map<nat, bool>, truncations: map<nat, bool>)
      returns (rewards': map<nat, int>, terminations': map<nat, bool>, truncations': map<nat, bool>,
               err: Option<EnvError>)
      requires Valid() && |start.cells| == n && Below(order, n) && j < |order|
      requires ProcessAgents(gridSize, scene, timestep, actions, start, order[..j])
               == Outcome(Tick(positions[..], rewards, terminations, truncations, agents), None)
      modifies this`agents, positions
      ensures Valid()
      ensures err.None? ==> ProcessAgents(gridSize, scene, timestep, actions, start, order[..j + 1])
                            == Outcome(Tick(positions[..], rewards', terminations', truncations', agents), None)
      ensures err.Some? ==> var out := ProcessAgents(gridSize, scene, timestep, actions, start, order);
                            positions[..] == out.tick.cells && agents == out.tick.live && err == out.error
    {
      FoldSnoc(gridSize, scene, timestep, actions, start, order, j);
      rewards', terminations', truncations', err := ProcessAgentInPlace(actions, order[j], rewards, terminations, truncations);
      if err.Some? {
        ErrorStops(gridSize, scene, timestep, actions, start, order, j + 1);
      }
    }
  }

  /** The collision check's two nested loops over all agents. */
  method MarkCollisions(cells: seq<Cell>, rewards: map<nat, int>, terminations: map<nat, bool>,
                        truncations: map<nat, bool>)
    returns (rewards': map<nat, int>, terminations': map<nat, bool>, truncations': map<nat, bool>)
    ensures rewards' == MarkUpTo(cells, rewards, COLLISION_PENALTY, |cells|)
    ensures terminations' == MarkUpTo(cells, terminations, true, |cells|)
    ensures truncations' == MarkUpTo(cells, truncations, true, |cells|)
  {
    rewards', terminations', truncations' := rewards, terminations, truncations;
    var ki := 0;
    while ki < |cells|
      invariant 0 <= ki <= |cells|
      invariant rewards' == MarkUpTo(cells, rewards, COLLISION_PENALTY, ki)
      invariant terminations' == MarkUpTo(cells, terminations, true, ki)
      invariant truncations' == MarkUpTo(cells, truncations, true, ki)
    {
      rewards', terminations', truncations' := MarkIfShared(cells, ki, rewards', terminations', truncations');
      ki := ki + 1;
    }
  }

  /** The inner loop of the collision check: agent ki against every other agent. */
  method MarkIfShared(cells: seq<Cell>, ki: nat, rewards: map<nat, int>, terminations: map<nat, bool>,
                      truncations: map<nat, bool>)
    returns (rewards': map<nat, int>, terminations': map<nat, bool>, truncations': map<nat, bool>)
    requires ki < |cells|
    ensures Collided(cells, ki) ==> rewards' == rewards[ki := COLLISION_PENALTY] &&
                                    terminations' == terminations[ki := true] && truncations' == truncations[ki := true]
    ensures !Collided(cells, ki) ==> rewards' == rewards && terminations' == terminations && truncations' == truncations
  {
    rewards', terminations', truncations' := rewards, terminations, truncations;
    ghost var seen := false;
    var ke := 0;
    while ke < |cells|
      invariant 0 <= ke <= |cells|
      invariant seen <==> exists e :: 0 <= e < ke && e != ki && cells[e] == cells[ki]
      invariant seen ==> rewards' == rewards[ki := COLLISION_PENALTY] &&
                         terminations' == terminations[ki := true] && truncations' == truncations[ki := true]
      invariant !seen ==> rewards' == rewards && terminations' == terminations && truncations' == truncations
    {
      if ki != ke && cells[ki] == cells[ke] {
        rewards' := rewards'[ki := COLLISION_PENALTY];
        terminations' := terminations'[ki := true];
        truncations' := truncations'[ki := true];
        seen := true;
      }
      ke := ke + 1;
    }
  }


}
