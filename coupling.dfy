/**
 * How the trainer (reinforce_mult.py) and the environment (core/environment/env.py)
 * fit together: the feature size the trainer computes matches the environment's
 * observations, the shaping's "previous cell" undoes the environment's moves, and
 * the trainer's episode-ending flag is raised when a step ends the episode.
 *
 * The two files read the probability matrix differently: the environment as
 * matrix[y][x], the shaping as matrix[x][y]. On a square field both reads are
 * defined, so the lemmas below hold either way; the values compared are those
 * of the transposed cells.
 */
module Coupling {
  import opened Results
  import opened Env
  import opened EnvLemmas
  import opened ReinforceMult

  /** A g-by-g field. */
  predicate Square(m: seq<seq<int>>, g: int)
  {
    |m| == g && forall r :: 0 <= r < |m| ==> |m[r]| == g
  }

  /** The observations of a reset or a step with every drone in the grid give one feature vector of num_obs values per drone. */
  lemma FeaturesMatchNumObs(cells: seq<Cell>, matrix: seq<seq<int>>, g: nat, y: real, lr: real, episodes: int,
                            positions: Option<seq<(int, int)>>)
    requires AllInGrid(cells, g) && Square(matrix, g)
    ensures var agent := NewRLAgent(|cells|, g, y, lr, episodes, positions);
            var r := FlattenState(Observe(cells, matrix), |cells|);
            r.Ok? && forall k :: 0 <= k < |cells| ==> |r.value[k]| == agent.numObs
  {
    var obs := Observe(cells, matrix);
    var n := |cells|;
    assert forall j :: 0 <= j < n ==> InGrid(cells[j], g);
    FlattenStateSucceeds(obs, n);
    forall k | 0 <= k < n
      ensures |FlattenState(obs, n).value[k]| == 2 * n + g * g
    {
      FeatureLayout(obs, n, k, g, g);
    }
  }

  /** The shaping's previous cell is where the environment's move started. */
  lemma PreviousUndoesMove(c: Cell, a: int)
    requires c.At? && IsMove(a)
    ensures PreviousCell(Moved(c, a), a) == c
  {
  }

  /**
   * On a grid of side at least 2 with a g-by-g field, the shaping of a move the environment has just
   * processed, for a drone that starts the move inside the grid, is defined: after a real move the previous
   * cell is the start, after a blocked move at the edge it is the inward neighbour.
   */
  lemma ShapingDefinedAfterMove(g: int, scene: Scene, timestep: int, actions: map<nat, int>, t: Tick, i: nat,
                                m: seq<seq<int>>)
    requires g >= 2 && Square(m, g) && i < |t.cells| && i in actions && IsMove(actions[i]) && InGrid(t.cells[i], g)
    requires ProcessAgent(g, scene, timestep, actions, t, i).Ok?
    ensures var c := ProcessAgent(g, scene, timestep, actions, t, i).value.cells[i];
            var s := EnhanceReward(c, m, actions[i]);
            s.Ok? && s.value != 0 &&
            (c != t.cells[i] ==> PreviousCell(c, actions[i]) == t.cells[i])
  {
    var c0 := t.cells[i];
    var a := actions[i];
    MovedCell(g, scene, timestep, actions, t, i);
    var c := ProcessAgent(g, scene, timestep, actions, t, i).value.cells[i];
    if AtEdge(c0, a, g) {
      assert c == c0;
      assert InGrid(PreviousCell(c, a), g);
    } else {
      assert c == Moved(c0, a);
      PreviousUndoesMove(c0, a);
      assert InGrid(c, g);
    }
  }

  /**
   * A caller-given position is written without a check, so a drone can start outside the grid: from
   * (4, 0) on a 4-by-4 grid a LEFT move lands on (3, 0), inside the grid, and the shaping then looks
   * one row past the end of the field.
   */
  lemma OffGridStartBreaksShaping(scene: Scene)
    ensures var m := [[0, 0, 0, 0], [0, 0, 0, 0], [0, 0, 0, 0], [0, 0, 0, 0]];
            var cells := RequiredCells(DefaultCells(1, 4), [(4, 0)]);
            var t := StartTick(cells, [0]);
            var r := ProcessAgent(4, scene, 0, map[0 := LEFT], t, 0);
            cells == [At(4, 0)] && r.Ok? && r.value.cells == [At(3, 0)] &&
            EnhanceReward(r.value.cells[0], m, LEFT) == Err(PreviousOffField)
  {
    var cells := RequiredCells(DefaultCells(1, 4), [(4, 0)]);
    assert cells == [At(4, 0)];
  }

  /**
   * On a 1-by-1 grid a drone that moves LEFT stays where it is, and the shaping then looks one row past
   * the end of the field (an IndexError in the trainer).
   */
  lemma SingleCellGridBreaksShaping(v: int)
    ensures var t := Tick([At(0, 0)], map[0 := STEP_REWARD], map[0 := false], map[0 := false], [0]);
            var r := ProcessAgent(1, Scene([[v]], 5, 5), 0, map[0 := LEFT], t, 0);
            r.Ok? && r.value.cells[0] == At(0, 0) && r.value.rewards[0] == PENALTY &&
            EnhanceReward(r.value.cells[0], [[v]], LEFT) == Err(PreviousOffField)
  {
  }

  /** After the time limit, a step that processes some drone raises the trainer's `done`. */
  lemma TimeLimitRaisesDone(g: int, scene: Scene, timestep: int, actions: map<nat, int>, t0: Tick,
                            order: seq<nat>, next: Scene)
    requires Below(order, |t0.cells|) && order != [] && timestep > TIMESTEP_LIMIT
    requires ProcessAgents(g, scene, timestep, actions, t0, order).error.None?
    ensures AnyDone(Finish(ProcessAgents(g, scene, timestep, actions, t0, order).tick, next).truncations)
  {
    var t := ProcessAgents(g, scene, timestep, actions, t0, order).tick;
    var last := order[|order| - 1];
    TimeLimitEndsStep(g, scene, timestep, actions, t0, order);
    CollisionMarks(t.cells, t.truncations, true, |t.cells|);
    assert Finish(t, next).truncations[last];
  }

  /**
   * Whenever a step that raises nothing ends the episode (no agent is live after it), the trainer's `done`,
   * any of the returned truncations, is raised: after the time limit by the last processed agent,
   * before it by the first agent that searched on the person's cell.
   */
  lemma EpisodeEndRaisesDone(g: int, scene: Scene, timestep: int, actions: map<nat, int>, cells: seq<Cell>,
                             order: seq<nat>, next: Scene)
    requires Below(order, |cells|) && Distinct(order) && order != []
    requires var out := ProcessAgents(g, scene, timestep, actions, StartTick(cells, order), order);
             out.error.None? && out.tick.live == []
    ensures AnyDone(Finish(ProcessAgents(g, scene, timestep, actions, StartTick(cells, order), order).tick, next).truncations)
  {
    var t0 := StartTick(cells, order);
    if timestep > TIMESTEP_LIMIT {
      TimeLimitRaisesDone(g, scene, timestep, actions, t0, order, next);
    } else {
      if !exists k :: 0 <= k < |order| && Finds(actions, scene, cells, order[k]) {
        assert order[..|order|] == order;
        NoFinderKeepsLive(g, scene, timestep, actions, t0, order, |order|);
        assert false;
      }
      var k0 :| 0 <= k0 < |order| && Finds(actions, scene, cells, order[k0]);
      FindingTruncatesSomeAgent(g, scene, timestep, actions, cells, order, k0, next);
    }
  }

  /**
   * Two drones that both search on the person's cell leave a third drone with no reward entry: the second
   * finder rebuilds the dicts over the live list the first one emptied. In this 4-by-4 instance the step
   * raises nothing, and the trainer's lookup of drone 2's reward then raises a KeyError.
   */
  lemma SecondFinderBreaksShaping(next: Scene)
    ensures var scene := Scene([[0, 0, 0, 0], [0, 0, 0, 0], [0, 0, 0, 0], [0, 0, 0, 0]], 1, 1);
            var cells := [At(1, 1), At(1, 1), At(0, 0)];
            var out := ProcessAgents(4, scene, 0, map[0 := SEARCH, 1 := SEARCH, 2 := IDLE], StartTick(cells, [0, 1, 2]),
                                     [0, 1, 2]);
            var r := Finish(out.tick, next);
            out.error.None? && 2 !in r.rewards && 2 !in r.truncations &&
            ShapeRewards(r.observations, [SEARCH, SEARCH, IDLE], r.totalReward, r.rewards, 3) == Err(MissingReward(2))
  {
    var cells := [At(1, 1), At(1, 1), At(0, 0)];
    SecondFinderClears(cells);
    var r := Finish(Tick(cells, map[], map[], map[], []), next);
    SecondFinderCollisions(cells, next);
    NonMovesNeedRewards(r.observations, r.totalReward, r.rewards);
  }

  /** The collision pass of that instance marks drones 0 and 1 only. */
  lemma SecondFinderCollisions(cells: seq<Cell>, next: Scene)
    requires cells == [At(1, 1), At(1, 1), At(0, 0)]
    ensures var r := Finish(Tick(cells, map[], map[], map[], []), next);
            |r.observations| == 3 && r.rewards.Keys == {0, 1} && r.truncations.Keys == {0, 1}
  {
    CollisionMarks(cells, map[], COLLISION_PENALTY, 3);
    CollisionMarks(cells, map[], true, 3);
    assert !Collided(cells, 2);
    assert Collided(cells, 0) && Collided(cells, 1);
    assert HitUpTo(cells, 3) == {0, 1};
  }

  /** The loop of that instance: the second finder leaves all three dicts empty. */
  lemma SecondFinderClears(cells: seq<Cell>)
    requires cells == [At(1, 1), At(1, 1), At(0, 0)]
    ensures var scene := Scene([[0, 0, 0, 0], [0, 0, 0, 0], [0, 0, 0, 0], [0, 0, 0, 0]], 1, 1);
            ProcessAgents(4, scene, 0, map[0 := SEARCH, 1 := SEARCH, 2 := IDLE], StartTick(cells, [0, 1, 2]), [0, 1, 2])
            == Outcome(Tick(cells, map[], map[], map[], []), None)
  {
    var scene := Scene([[0, 0, 0, 0], [0, 0, 0, 0], [0, 0, 0, 0], [0, 0, 0, 0]], 1, 1);
    var actions := map[0 := SEARCH, 1 := SEARCH, 2 := IDLE];
    var t0 := StartTick(cells, [0, 1, 2]);
    var order: seq<nat> := [0, 1, 2];
    assert order[..2] == [0, 1] && [0, 1][..1] == [0] && [0][..0] == [];
    FindingEndsEpisode(4, scene, 0, actions, t0, 0);
    var t1 := ProcessAgent(4, scene, 0, actions, t0, 0).value;
    LateFinderClearsDicts(4, scene, 0, actions, t1, 1);
    var t2 := ProcessAgent(4, scene, 0, actions, t1, 1).value;
    assert ProcessAgent(4, scene, 0, actions, t2, 2) == Ok(t2);
  }

  /** Three drones that do not move need a step reward each; the third has none, so the composition raises. */
  lemma NonMovesNeedRewards(obs: seq<Observation>, total: int, rewards: map<nat, int>)
    requires |obs| == 3 && 0 in rewards && 1 in rewards && 2 !in rewards
    ensures ShapeRewards(obs, [SEARCH, SEARCH, IDLE], total, rewards, 3) == Err(MissingReward(2))
  {
    var acts := [SEARCH, SEARCH, IDLE];
    assert ShapingOf(obs, acts, 0) == Ok(0) && ShapingOf(obs, acts, 1) == Ok(0) && ShapingOf(obs, acts, 2) == Ok(0);
    assert ShapeRewards(obs, acts, total, rewards, 1).Ok?;
    assert ShapeRewards(obs, acts, total, rewards, 2).Ok?;
  }

  /** The agents reset makes live, 0..n-1, are distinct and below n, as the lemmas above need. */
  lemma LiveAgentsDistinct(n: nat)
    ensures Below(Range(n), n) && Distinct(Range(n))
  {
  }
}
