/**
 * Properties of the environment's step (core/environment/env.py), stated
 * about the specification functions of module Env that the class's methods
 * are proved against: one agent's turn, the loop over the live agents, the
 * collision check and the default placement of reset.
 */
module EnvLemmas {
  import opened Results
  import opened Env

  /** Two cells one move apart. */
  predicate Adjacent(c: Cell, d: Cell)
  {
    c.At? && d.At? &&
    ((c.x == d.x && (c.y - d.y == 1 || d.y - c.y == 1)) || (c.y == d.y && (c.x - d.x == 1 || d.x - c.x == 1)))
  }

  /** The matrix has a value for every cell of a grid of side g (read as matrix[y][x]). */
  predicate Covers(matrix: seq<seq<int>>, g: int)
  {
    g <= |matrix| && forall y :: 0 <= y < g ==> g <= |matrix[y]|
  }

  predicate Distinct(order: seq<nat>)
  {
    forall j, k :: 0 <= j < k < |order| ==> order[j] != order[k]
  }

  /** Agent i searches on the person's cell, given the drones' cells. */
  predicate Finds(actions: map<nat, int>, scene: Scene, cells: seq<Cell>, i: nat)
  {
    i in actions && actions[i] == SEARCH && i < |cells| && cells[i] == At(scene.personX, scene.personY)
  }

  // ---------------------------------------------------------------------
  // One agent's turn
  // ---------------------------------------------------------------------

  /** An agent's turn moves at most its own drone, and that one by at most one cell. */
  lemma OnlyOwnDroneMoves(g: int, scene: Scene, timestep: int, actions: map<nat, int>, t: Tick, i: nat)
    requires i < |t.cells| && ProcessAgent(g, scene, timestep, actions, t, i).Ok?
    ensures var r := ProcessAgent(g, scene, timestep, actions, t, i).value;
            (forall k :: 0 <= k < |t.cells| && k != i ==> r.cells[k] == t.cells[k]) &&
            (r.cells[i] == t.cells[i] || Adjacent(t.cells[i], r.cells[i]))
  {
  }

  /**
   * A move of a placed drone before the time limit: the drone moves iff the move stays inside the grid;
   * a move off the grid leaves it in place with reward -1000, terminated and truncated.
   */
  lemma MoveOrEdgePenalty(g: int, scene: Scene, timestep: int, actions: map<nat, int>, t: Tick, i: nat)
    requires i < |t.cells| && i in actions && IsMove(actions[i]) && t.cells[i].At? && timestep <= TIMESTEP_LIMIT
    ensures var r := ProcessAgent(g, scene, timestep, actions, t, i);
            r.Ok? && r.value.live == t.live &&
            (r.value.cells[i] != t.cells[i] <==> !AtEdge(t.cells[i], actions[i], g)) &&
            (AtEdge(t.cells[i], actions[i], g) ==>
               r.value.rewards == t.rewards[i := PENALTY] && r.value.terminations == t.terminations[i := true] &&
               r.value.truncations == t.truncations[i := true]) &&
            (!AtEdge(t.cells[i], actions[i], g) ==>
               Adjacent(t.cells[i], r.value.cells[i]) && r.value.rewards == t.rewards &&
               r.value.terminations == t.terminations && r.value.truncations == t.truncations)
  {
  }

  /** Where a move leaves a placed drone: one cell on, or where it was when the move would leave the grid. */
  lemma MovedCell(g: int, scene: Scene, timestep: int, actions: map<nat, int>, t: Tick, i: nat)
    requires i < |t.cells| && i in actions && IsMove(actions[i]) && t.cells[i].At?
    ensures var r := ProcessAgent(g, scene, timestep, actions, t, i);
            var c := t.cells[i];
            r.Ok? && r.value.cells[i] == if AtEdge(c, actions[i], g) then c else Moved(c, actions[i])
  {
  }

  /** A drone inside the grid stays inside it, whatever its agent does. */
  lemma AgentKeepsGrid(g: int, scene: Scene, timestep: int, actions: map<nat, int>, t: Tick, i: nat)
    requires i < |t.cells| && AllInGrid(t.cells, g) && ProcessAgent(g, scene, timestep, actions, t, i).Ok?
    ensures AllInGrid(ProcessAgent(g, scene, timestep, actions, t, i).value.cells, g)
  {
    var r := ProcessAgent(g, scene, timestep, actions, t, i).value;
    forall k | 0 <= k < |r.cells|
      ensures InGrid(r.cells[k], g)
    {
      assert InGrid(t.cells[k], g);
    }
  }

  /** A search that misses the person, before the time limit, scores the matrix value of the cell minus 100. */
  lemma SearchScores(g: int, scene: Scene, timestep: int, actions: map<nat, int>, t: Tick, i: nat)
    requires i < |t.cells| && i in actions && actions[i] == SEARCH && timestep <= TIMESTEP_LIMIT
    requires InGrid(t.cells[i], g) && Covers(scene.matrix, g) && t.cells[i] != At(scene.personX, scene.personY)
    ensures var r := ProcessAgent(g, scene, timestep, actions, t, i);
            var c := t.cells[i];
            r == Ok(t.(rewards := t.rewards[i := scene.matrix[c.y][c.x] - SEARCH_COST]))
  {
  }

  /**
   * A search on the person's cell ends the episode: the live list empties and every agent live at that
   * moment is given reward 0 (-1000 for the searcher after the time limit), terminated and truncated.
   */
  lemma FindingEndsEpisode(g: int, scene: Scene, timestep: int, actions: map<nat, int>, t: Tick, i: nat)
    requires i < |t.cells| && i in actions && actions[i] == SEARCH && t.cells[i] == At(scene.personX, scene.personY)
    ensures var r := ProcessAgent(g, scene, timestep, actions, t, i);
            r.Ok? && r.value.live == [] && r.value.cells == t.cells &&
            (forall a :: a in t.live ==> a in r.value.rewards && r.value.terminations[a] && r.value.truncations[a]) &&
            (forall a :: a in t.live && (a != i || timestep <= TIMESTEP_LIMIT) ==> r.value.rewards[a] == 0) &&
            (timestep <= TIMESTEP_LIMIT ==>
               r.value.rewards.Keys == (set a | a in t.live) && r.value.terminations.Keys == (set a | a in t.live) &&
               r.value.truncations.Keys == (set a | a in t.live))
  {
  }

  /**
   * A finder reached after the live list has emptied rebuilds the three dicts over nothing: every entry the
   * earlier turns wrote is dropped, and only the searcher's own -1000 survives after the time limit.
   */
  lemma LateFinderClearsDicts(g: int, scene: Scene, timestep: int, actions: map<nat, int>, t: Tick, i: nat)
    requires i < |t.cells| && i in actions && actions[i] == SEARCH && t.cells[i] == At(scene.personX, scene.personY)
    requires t.live == []
    ensures var r := ProcessAgent(g, scene, timestep, actions, t, i);
            r.Ok? &&
            (timestep <= TIMESTEP_LIMIT ==>
               r.value.rewards == map[] && r.value.terminations == map[] && r.value.truncations == map[]) &&
            (timestep > TIMESTEP_LIMIT ==>
               r.value.rewards == map[i := PENALTY] && r.value.truncations == map[i := true])
  {
  }

  /**
   * After the time limit, an agent that searches on the person's cell after another agent's turn drops that
   * agent's -1000: in this 4-by-4 instance agent 0 idles, agent 1 finds the person, and agent 0 is left
   * with no reward and no truncation entry.
   */
  lemma TimeLimitEntryDropped()
    ensures var scene := Scene([[0, 0, 0, 0], [0, 0, 0, 0], [0, 0, 0, 0], [0, 0, 0, 0]], 3, 3);
            var t0 := StartTick([At(0, 0), At(3, 3)], [0, 1]);
            var out := ProcessAgents(4, scene, 501, map[0 := IDLE, 1 := SEARCH], t0, [0, 1]);
            out.error.None? && out.tick.rewards == map[1 := PENALTY] && 0 !in out.tick.truncations
  {
    var scene := Scene([[0, 0, 0, 0], [0, 0, 0, 0], [0, 0, 0, 0], [0, 0, 0, 0]], 3, 3);
    var actions := map[0 := IDLE, 1 := SEARCH];
    var t0 := StartTick([At(0, 0), At(3, 3)], [0, 1]);
    var order: seq<nat> := [0, 1];
    assert order[..1] == [0] && [0][..0] == [];
    var t1 := ProcessAgent(4, scene, 501, actions, t0, 0).value;
    assert t1.live == [] && t1.cells == t0.cells;
    LateFinderClearsDicts(4, scene, 501, actions, t1, 1);
  }

  /** After the time limit every completed turn ends the episode and gives its agent -1000, terminated and truncated. */
  lemma TimeLimitEndsEpisode(g: int, scene: Scene, timestep: int, actions: map<nat, int>, t: Tick, i: nat)
    requires i < |t.cells| && timestep > TIMESTEP_LIMIT && ProcessAgent(g, scene, timestep, actions, t, i).Ok?
    ensures var r := ProcessAgent(g, scene, timestep, actions, t, i).value;
            r.live == [] && r.rewards[i] == PENALTY && r.terminations[i] && r.truncations[i]
  {
  }

  /**
   * A turn raises exactly when the agent has no action, moves with an unplaced drone, searches with one
   * (modelled as a raise), or searches off the matrix.
   */
  lemma AgentRaises(g: int, scene: Scene, timestep: int, actions: map<nat, int>, t: Tick, i: nat)
    requires i < |t.cells|
    ensures var r := ProcessAgent(g, scene, timestep, actions, t, i);
            var c := t.cells[i];
            r.Err? <==>
              i !in actions ||
              ((IsMove(actions[i]) || actions[i] == SEARCH) && c.Unplaced?) ||
              (actions[i] == SEARCH && c.At? && c != At(scene.personX, scene.personY) &&
               !(0 <= c.y < |scene.matrix| && 0 <= c.x < |scene.matrix[c.y]|))
  {
  }

  /** A turn of an agent with an action, from inside a grid the matrix covers, raises nothing. */
  lemma AgentSucceeds(g: int, scene: Scene, timestep: int, actions: map<nat, int>, t: Tick, i: nat)
    requires i < |t.cells| && i in actions && InGrid(t.cells[i], g) && Covers(scene.matrix, g)
    ensures ProcessAgent(g, scene, timestep, actions, t, i).Ok?
  {
    AgentRaises(g, scene, timestep, actions, t, i);
    var c := t.cells[i];
    assert 0 <= c.y < |scene.matrix| && 0 <= c.x < |scene.matrix[c.y]|;
  }

  /** Terminations and truncations are always written together, so a turn keeps them equal. */
  lemma AgentFlagsAgree(g: int, scene: Scene, timestep: int, actions: map<nat, int>, t: Tick, i: nat)
    requires i < |t.cells| && t.terminations == t.truncations && ProcessAgent(g, scene, timestep, actions, t, i).Ok?
    ensures var r := ProcessAgent(g, scene, timestep, actions, t, i).value;
            r.terminations == r.truncations
  {
  }

  /** A turn leaves the live list as it was or empties it. */
  lemma AgentLive(g: int, scene: Scene, timestep: int, actions: map<nat, int>, t: Tick, i: nat)
    requires i < |t.cells| && ProcessAgent(g, scene, timestep, actions, t, i).Ok?
    ensures var r := ProcessAgent(g, scene, timestep, actions, t, i).value;
            r.live == t.live || r.live == []
  {
  }

  /** Every dict key stays an agent below the number of drones. */
  lemma AgentKeysBelow(g: int, scene: Scene, timestep: int, actions: map<nat, int>, t: Tick, i: nat)
    requires i < |t.cells| && Below(t.live, |t.cells|) && ProcessAgent(g, scene, timestep, actions, t, i).Ok?
    requires forall a :: a in t.rewards ==> a < |t.cells|
    ensures var r := ProcessAgent(g, scene, timestep, actions, t, i).value;
            forall a :: a in r.rewards ==> a < |t.cells|
  {
  }

  /** Before the time limit, a turn that does not find the person keeps the live list and every other agent's flags. */
  lemma AgentNonFinder(g: int, scene: Scene, timestep: int, actions: map<nat, int>, t: Tick, i: nat)
    requires i < |t.cells| && timestep <= TIMESTEP_LIMIT && !Finds(actions, scene, t.cells, i)
    requires ProcessAgent(g, scene, timestep, actions, t, i).Ok?
    ensures var r := ProcessAgent(g, scene, timestep, actions, t, i).value;
            r.live == t.live &&
            forall a :: a in t.truncations && a != i ==> a in r.truncations && r.truncations[a] == t.truncations[a]
  {
  }

  // ---------------------------------------------------------------------
  // The loop over the live agents
  // ---------------------------------------------------------------------

  /** Running the loop over p and then over q is running it over p + q (an exception in p stops it). */
  lemma {:induction false} FoldAppend(g: int, scene: Scene, timestep: int, actions: map<nat, int>, t0: Tick,
                                      p: seq<nat>, q: seq<nat>)
    requires Below(p, |t0.cells|) && Below(q, |t0.cells|)
    ensures Below(p + q, |t0.cells|)
    ensures var mid := ProcessAgents(g, scene, timestep, actions, t0, p);
            ProcessAgents(g, scene, timestep, actions, t0, p + q)
            == if mid.error.Some? then mid else ProcessAgents(g, scene, timestep, actions, mid.tick, q)
    decreases |q|
  {
    if q == [] {
      assert p + q == p;
    } else {
      var q' := q[..|q| - 1];
      assert (p + q)[..|p + q| - 1] == p + q';
      assert (p + q)[|p + q| - 1] == q[|q| - 1];
      FoldAppend(g, scene, timestep, actions, t0, p, q');
    }
  }

  /** The loop moves no drone whose agent it does not visit. */
  lemma {:induction false} FoldUntouched(g: int, scene: Scene, timestep: int, actions: map<nat, int>, t0: Tick,
                                         order: seq<nat>, k: nat)
    requires Below(order, |t0.cells|) && k < |t0.cells| && k !in order
    ensures ProcessAgents(g, scene, timestep, actions, t0, order).tick.cells[k] == t0.cells[k]
    decreases |order|
  {
    if order != [] {
      var init := order[..|order| - 1];
      FoldUntouched(g, scene, timestep, actions, t0, init, k);
      var prev := ProcessAgents(g, scene, timestep, actions, t0, init);
      if prev.error.None? {
        var r := ProcessAgent(g, scene, timestep, actions, prev.tick, order[|order| - 1]);
        if r.Ok? {
          OnlyOwnDroneMoves(g, scene, timestep, actions, prev.tick, order[|order| - 1]);
        }
      }
    }
  }

  /** Drones inside the grid stay inside it through the whole loop. */
  lemma {:induction false} FoldKeepsGrid(g: int, scene: Scene, timestep: int, actions: map<nat, int>, t0: Tick,
                                         order: seq<nat>)
    requires Below(order, |t0.cells|) && AllInGrid(t0.cells, g)
    ensures AllInGrid(ProcessAgents(g, scene, timestep, actions, t0, order).tick.cells, g)
    decreases |order|
  {
    if order != [] {
      var init := order[..|order| - 1];
      FoldKeepsGrid(g, scene, timestep, actions, t0, init);
      var prev := ProcessAgents(g, scene, timestep, actions, t0, init);
      if prev.error.None? {
        var r := ProcessAgent(g, scene, timestep, actions, prev.tick, order[|order| - 1]);
        if r.Ok? {
          AgentKeepsGrid(g, scene, timestep, actions, prev.tick, order[|order| - 1]);
        }
      }
    }
  }

  /** The loop leaves the live list as it was or empties it. */
  lemma {:induction false} FoldLive(g: int, scene: Scene, timestep: int, actions: map<nat, int>, t0: Tick,
                                    order: seq<nat>)
    requires Below(order, |t0.cells|)
    ensures var live := ProcessAgents(g, scene, timestep, actions, t0, order).tick.live;
            live == t0.live || live == []
    decreases |order|
  {
    if order != [] {
      var init := order[..|order| - 1];
      FoldLive(g, scene, timestep, actions, t0, init);
      var prev := ProcessAgents(g, scene, timestep, actions, t0, init);
      if prev.error.None? {
        var r := ProcessAgent(g, scene, timestep, actions, prev.tick, order[|order| - 1]);
        if r.Ok? {
          AgentLive(g, scene, timestep, actions, prev.tick, order[|order| - 1]);
        }
      }
    }
  }

  /** Terminations and truncations agree after the loop when they agreed before it. */
  lemma {:induction false} FoldFlagsAgree(g: int, scene: Scene, timestep: int, actions: map<nat, int>, t0: Tick,
                                          order: seq<nat>)
    requires Below(order, |t0.cells|) && t0.terminations == t0.truncations
    ensures var t := ProcessAgents(g, scene, timestep, actions, t0, order).tick;
            t.terminations == t.truncations
    decreases |order|
  {
    if order != [] {
      var init := order[..|order| - 1];
      FoldFlagsAgree(g, scene, timestep, actions, t0, init);
      var prev := ProcessAgents(g, scene, timestep, actions, t0, init);
      if prev.error.None? {
        var r := ProcessAgent(g, scene, timestep, actions, prev.tick, order[|order| - 1]);
        if r.Ok? {
          AgentFlagsAgree(g, scene, timestep, actions, prev.tick, order[|order| - 1]);
        }
      }
    }
  }

  /** The loop's rewards dict has only agents below the number of drones as keys. */
  lemma {:induction false} FoldKeysBelow(g: int, scene: Scene, timestep: int, actions: map<nat, int>, t0: Tick,
                                         order: seq<nat>)
    requires Below(order, |t0.cells|) && Below(t0.live, |t0.cells|)
    requires forall a :: a in t0.rewards ==> a < |t0.cells|
    ensures var t := ProcessAgents(g, scene, timestep, actions, t0, order).tick;
            Below(t.live, |t0.cells|) && forall a :: a in t.rewards ==> a < |t0.cells|
    decreases |order|
  {
    if order != [] {
      var init := order[..|order| - 1];
      FoldKeysBelow(g, scene, timestep, actions, t0, init);
      var prev := ProcessAgents(g, scene, timestep, actions, t0, init);
      if prev.error.None? {
        var r := ProcessAgent(g, scene, timestep, actions, prev.tick, order[|order| - 1]);
        if r.Ok? {
          AgentKeysBelow(g, scene, timestep, actions, prev.tick, order[|order| - 1]);
          AgentLive(g, scene, timestep, actions, prev.tick, order[|order| - 1]);
        }
      }
    }
  }

  /** An agent in the loop without an action makes step raise. */
  lemma {:induction false} MissingActionRaises(g: int, scene: Scene, timestep: int, actions: map<nat, int>,
                                               t0: Tick, order: seq<nat>, k: nat)
    requires Below(order, |t0.cells|) && k < |order| && order[k] !in actions
    ensures ProcessAgents(g, scene, timestep, actions, t0, order).error.Some?
    decreases |order|
  {
    var init := order[..|order| - 1];
    if k < |order| - 1 {
      MissingActionRaises(g, scene, timestep, actions, t0, init, k);
    }
  }

  /**
   * With every drone inside the grid and a matrix covering it, the loop raises nothing exactly when every
   * agent it visits has an action.
   */
  lemma {:induction false} WellFormedStepSucceeds(g: int, scene: Scene, timestep: int, actions: map<nat, int>,
                                                  t0: Tick, order: seq<nat>)
    requires Below(order, |t0.cells|) && AllInGrid(t0.cells, g) && Covers(scene.matrix, g)
    ensures ProcessAgents(g, scene, timestep, actions, t0, order).error.None?
            <==> forall k :: 0 <= k < |order| ==> order[k] in actions
    decreases |order|
  {
    if forall k :: 0 <= k < |order| ==> order[k] in actions {
      if order != [] {
        var init := order[..|order| - 1];
        var last := order[|order| - 1];
        WellFormedStepSucceeds(g, scene, timestep, actions, t0, init);
        FoldKeepsGrid(g, scene, timestep, actions, t0, init);
        var prev := ProcessAgents(g, scene, timestep, actions, t0, init);
        assert forall k :: 0 <= k < |init| ==> init[k] in actions;
        AgentSucceeds(g, scene, timestep, actions, prev.tick, last);
      }
    } else {
      var k :| 0 <= k < |order| && order[k] !in actions;
      MissingActionRaises(g, scene, timestep, actions, t0, order, k);
    }
  }

  /** After the time limit, a loop that visits an agent and raises nothing ends the episode; the last agent has -1000. */
  lemma TimeLimitEndsStep(g: int, scene: Scene, timestep: int, actions: map<nat, int>, t0: Tick, order: seq<nat>)
    requires Below(order, |t0.cells|) && order != [] && timestep > TIMESTEP_LIMIT
    requires ProcessAgents(g, scene, timestep, actions, t0, order).error.None?
    ensures var t := ProcessAgents(g, scene, timestep, actions, t0, order).tick;
            var last := order[|order| - 1];
            t.live == [] && t.rewards[last] == PENALTY && t.terminations[last] && t.truncations[last]
  {
    var init := order[..|order| - 1];
    var prev := ProcessAgents(g, scene, timestep, actions, t0, init);
    TimeLimitEndsEpisode(g, scene, timestep, actions, prev.tick, order[|order| - 1]);
  }

  /** An empty live list stays empty through the loop. */
  lemma EndedStaysEnded(g: int, scene: Scene, timestep: int, actions: map<nat, int>, t0: Tick, order: seq<nat>)
    requires Below(order, |t0.cells|) && t0.live == []
    ensures ProcessAgents(g, scene, timestep, actions, t0, order).tick.live == []
  {
    FoldLive(g, scene, timestep, actions, t0, order);
  }

  /**
   * An agent that searches on the person's cell ends the episode: if the loop raises nothing, no agent is
   * live after it (the agent's drone has not been moved by the agents before it).
   */
  lemma FinderEndsStep(g: int, scene: Scene, timestep: int, actions: map<nat, int>, t0: Tick, order: seq<nat>,
                       k: nat)
    requires Below(order, |t0.cells|) && Distinct(order) && k < |order|
    requires order[k] in actions && actions[order[k]] == SEARCH && t0.cells[order[k]] == At(scene.personX, scene.personY)
    requires ProcessAgents(g, scene, timestep, actions, t0, order).error.None?
    ensures ProcessAgents(g, scene, timestep, actions, t0, order).tick.live == []
  {
    var before, rest := order[..k], order[k + 1..];
    var upto := order[..k + 1];
    assert order == upto + rest;
    FoldAppend(g, scene, timestep, actions, t0, upto, rest);
    var mid := ProcessAgents(g, scene, timestep, actions, t0, upto);
    if mid.error.Some? {
      assert false;
    }
    assert upto[..k] == before;
    var prev := ProcessAgents(g, scene, timestep, actions, t0, before);
    assert order[k] !in before;
    FoldUntouched(g, scene, timestep, actions, t0, before, order[k]);
    FindingEndsEpisode(g, scene, timestep, actions, prev.tick, order[k]);
    EndedStaysEnded(g, scene, timestep, actions, mid.tick, rest);
  }

  /** A loop that raises nothing raised nothing on any prefix either. */
  lemma PrefixOk(g: int, scene: Scene, timestep: int, actions: map<nat, int>, t0: Tick, order: seq<nat>,
                 j: nat, m: nat)
    requires Below(order, |t0.cells|) && j <= m <= |order|
    requires ProcessAgents(g, scene, timestep, actions, t0, order[..m]).error.None?
    ensures ProcessAgents(g, scene, timestep, actions, t0, order[..j]).error.None?
  {
    if ProcessAgents(g, scene, timestep, actions, t0, order[..j]).error.Some? {
      assert order[..m][..j] == order[..j];
      ErrorStops(g, scene, timestep, actions, t0, order[..m], j);
    }
  }

  /** Before the time limit, agents that do not find the person leave the live list as it was. */
  lemma {:induction false} NoFinderKeepsLive(g: int, scene: Scene, timestep: int, actions: map<nat, int>,
                                             t0: Tick, order: seq<nat>, k: nat)
    requires Below(order, |t0.cells|) && Distinct(order) && k <= |order| && timestep <= TIMESTEP_LIMIT
    requires forall idx :: 0 <= idx < k ==> !Finds(actions, scene, t0.cells, order[idx])
    requires ProcessAgents(g, scene, timestep, actions, t0, order[..k]).error.None?
    ensures ProcessAgents(g, scene, timestep, actions, t0, order[..k]).tick.live == t0.live
  {
    if k > 0 {
      PrefixOk(g, scene, timestep, actions, t0, order, k - 1, k);
      NoFinderKeepsLive(g, scene, timestep, actions, t0, order, k - 1);
      FoldSnoc(g, scene, timestep, actions, t0, order, k - 1);
      var prev := ProcessAgents(g, scene, timestep, actions, t0, order[..k - 1]).tick;
      var i := order[k - 1];
      assert i !in order[..k - 1];
      FoldUntouched(g, scene, timestep, actions, t0, order[..k - 1], i);
      AgentNonFinder(g, scene, timestep, actions, prev, i);
    }
  }

  /**
   * Finder f is on the person's cell and either truncated, or joined there by another agent that the
   * loop will not visit again (one of `pending` is still to come).
   */
  predicate Marked(u: Tick, f: nat, person: Cell, pending: seq<nat>)
  {
    f < |u.cells| && u.cells[f] == person &&
    ((f in u.truncations && u.truncations[f]) ||
     exists j :: 0 <= j < |u.cells| && j != f && j !in pending && u.cells[j] == person)
  }

  /** One more turn, by an agent other than the finder, keeps the finder marked. */
  lemma MarkedTurn(g: int, scene: Scene, timestep: int, actions: map<nat, int>, u: Tick, i: nat, f: nat,
                   pending: seq<nat>)
    requires i < |u.cells| && i != f && i !in pending && ProcessAgent(g, scene, timestep, actions, u, i).Ok?
    requires Marked(u, f, At(scene.personX, scene.personY), [i] + pending)
    ensures Marked(ProcessAgent(g, scene, timestep, actions, u, i).value, f, At(scene.personX, scene.personY), pending)
  {
    var person := At(scene.personX, scene.personY);
    var r := ProcessAgent(g, scene, timestep, actions, u, i).value;
    OnlyOwnDroneMoves(g, scene, timestep, actions, u, i);
    if Finds(actions, scene, u.cells, i) {
      FindingEndsEpisode(g, scene, timestep, actions, u, i);
      assert r.cells[i] == person;
    } else if f in u.truncations && u.truncations[f] {
      if timestep <= TIMESTEP_LIMIT {
        AgentNonFinder(g, scene, timestep, actions, u, i);
      }
    } else {
      var j :| 0 <= j < |u.cells| && j != f && j !in [i] + pending && u.cells[j] == person;
      assert r.cells[j] == person;
    }
  }

  /** Through the rest of the loop the finder stays marked. */
  lemma {:induction false} FinderStaysMarked(g: int, scene: Scene, timestep: int, actions: map<nat, int>,
                                             t: Tick, rest: seq<nat>, f: nat, m: nat)
    requires Below(rest, |t.cells|) && Distinct(rest) && f !in rest && m <= |rest|
    requires Marked(t, f, At(scene.personX, scene.personY), rest)
    requires ProcessAgents(g, scene, timestep, actions, t, rest[..m]).error.None?
    ensures Marked(ProcessAgents(g, scene, timestep, actions, t, rest[..m]).tick, f, At(scene.personX, scene.personY), rest[m..])
  {
    if m > 0 {
      PrefixOk(g, scene, timestep, actions, t, rest, m - 1, m);
      FinderStaysMarked(g, scene, timestep, actions, t, rest, f, m - 1);
      FoldSnoc(g, scene, timestep, actions, t, rest, m - 1);
      var u := ProcessAgents(g, scene, timestep, actions, t, rest[..m - 1]).tick;
      var i := rest[m - 1];
      DistinctSplit(rest, m - 1);
      assert i != f;
      assert ProcessAgent(g, scene, timestep, actions, u, i).Ok?;
      MarkedTurn(g, scene, timestep, actions, u, i, f, rest[m..]);
    }
  }

  /** In a list without repeats, the j-th agent does not come again after position j. */
  lemma DistinctSplit(order: seq<nat>, j: nat)
    requires Distinct(order) && j < |order|
    ensures order[j..] == [order[j]] + order[j + 1..] && order[j] !in order[j + 1..]
    ensures Distinct(order[j + 1..])
  {
    assert order[j..] == [order[j]] + order[j + 1..];
  }

  /** Some agent is the first finder in the loop's order. */
  lemma FirstFinder(actions: map<nat, int>, scene: Scene, cells: seq<Cell>, order: seq<nat>, k0: nat)
    returns (k: nat)
    requires k0 < |order| && Finds(actions, scene, cells, order[k0])
    ensures k <= k0 && Finds(actions, scene, cells, order[k])
    ensures forall idx :: 0 <= idx < k ==> !Finds(actions, scene, cells, order[idx])
  {
    k := 0;
    while !Finds(actions, scene, cells, order[k])
      invariant k <= k0 && forall idx :: 0 <= idx < k ==> !Finds(actions, scene, cells, order[idx])
      decreases k0 - k
    {
      k := k + 1;
    }
  }

  /** The first finder, reached with the live list intact, is marked once its turn is done. */
  lemma FirstFinderMarked(g: int, scene: Scene, timestep: int, actions: map<nat, int>, cells: seq<Cell>,
                          order: seq<nat>, k: nat)
    requires Below(order, |cells|) && Distinct(order) && timestep <= TIMESTEP_LIMIT && k < |order|
    requires Finds(actions, scene, cells, order[k])
    requires forall idx :: 0 <= idx < k ==> !Finds(actions, scene, cells, order[idx])
    requires ProcessAgents(g, scene, timestep, actions, StartTick(cells, order), order[..k + 1]).error.None?
    ensures Marked(ProcessAgents(g, scene, timestep, actions, StartTick(cells, order), order[..k + 1]).tick,
                   order[k], At(scene.personX, scene.personY), order[k + 1..])
  {
    var t0 := StartTick(cells, order);
    var f := order[k];
    PrefixOk(g, scene, timestep, actions, t0, order, k, k + 1);
    NoFinderKeepsLive(g, scene, timestep, actions, t0, order, k);
    FoldSnoc(g, scene, timestep, actions, t0, order, k);
    var prev := ProcessAgents(g, scene, timestep, actions, t0, order[..k]).tick;
    assert f !in order[..k];
    FoldUntouched(g, scene, timestep, actions, t0, order[..k], f);
    FindingEndsEpisode(g, scene, timestep, actions, prev, f);
    assert f in prev.live;
  }

  /** A marked finder is truncated after the collision check. */
  lemma MarkedIsTruncated(u: Tick, f: nat, person: Cell, next: Scene)
    requires Marked(u, f, person, [])
    ensures f in Finish(u, next).truncations && Finish(u, next).truncations[f]
  {
    CollisionMarks(u.cells, u.truncations, true, |u.cells|);
    if !(f in u.truncations && u.truncations[f]) {
      var j :| 0 <= j < |u.cells| && j != f && u.cells[j] == person;
      assert Collided(u.cells, f);
      assert f in HitUpTo(u.cells, |u.cells|);
    }
  }

  /**
   * Before the time limit, when some agent of a step that raises nothing searches on the person's cell,
   * some agent is truncated in what the step returns (the first finder; or, if a later finder emptied
   * the dicts, the first finder again through the collision check, both drones being on that cell).
   */
  lemma FindingTruncatesSomeAgent(g: int, scene: Scene, timestep: int, actions: map<nat, int>, cells: seq<Cell>,
                                  order: seq<nat>, k0: nat, next: Scene)
    requires Below(order, |cells|) && Distinct(order) && timestep <= TIMESTEP_LIMIT
    requires k0 < |order| && Finds(actions, scene, cells, order[k0])
    requires ProcessAgents(g, scene, timestep, actions, StartTick(cells, order), order).error.None?
    ensures var s := Finish(ProcessAgents(g, scene, timestep, actions, StartTick(cells, order), order).tick, next);
            exists f :: f in s.truncations && s.truncations[f]
  {
    var t0 := StartTick(cells, order);
    var k := FirstFinder(actions, scene, cells, order, k0);
    var f := order[k];
    var upto, rest := order[..k + 1], order[k + 1..];
    assert order == upto + rest;
    assert order[..|order|] == order;
    PrefixOk(g, scene, timestep, actions, t0, order, k + 1, |order|);
    FirstFinderMarked(g, scene, timestep, actions, cells, order, k);
    FoldAppend(g, scene, timestep, actions, t0, upto, rest);
    DistinctSplit(order, k);
    var mid := ProcessAgents(g, scene, timestep, actions, t0, upto).tick;
    MarkedFinderTruncated(g, scene, timestep, actions, mid, rest, f, next);
  }

  /** A finder marked before the rest of the loop is truncated in what the step returns. */
  lemma MarkedFinderTruncated(g: int, scene: Scene, timestep: int, actions: map<nat, int>, mid: Tick,
                              rest: seq<nat>, f: nat, next: Scene)
    requires Below(rest, |mid.cells|) && Distinct(rest) && f !in rest
    requires Marked(mid, f, At(scene.personX, scene.personY), rest)
    requires ProcessAgents(g, scene, timestep, actions, mid, rest).error.None?
    ensures var s := Finish(ProcessAgents(g, scene, timestep, actions, mid, rest).tick, next);
            f in s.truncations && s.truncations[f]
  {
    assert rest[..|rest|] == rest && rest[|rest|..] == [];
    FinderStaysMarked(g, scene, timestep, actions, mid, rest, f, |rest|);
    MarkedIsTruncated(ProcessAgents(g, scene, timestep, actions, mid, rest).tick, f,
                      At(scene.personX, scene.personY), next);
  }

  // ---------------------------------------------------------------------
  // The collision check and the whole step
  // ---------------------------------------------------------------------

  /**
   * After the collision check every drone sharing its cell with another has reward -2000 and is terminated
   * and truncated; every other agent keeps what the loop gave it.
   */
  lemma CollisionsPenalized(t: Tick, next: Scene)
    ensures var s := Finish(t, next);
            s.rewards.Keys == t.rewards.Keys + HitUpTo(t.cells, |t.cells|) &&
            (forall k :: 0 <= k < |t.cells| && Collided(t.cells, k) ==>
               k in s.rewards && s.rewards[k] == COLLISION_PENALTY &&
               k in s.terminations && s.terminations[k] && k in s.truncations && s.truncations[k]) &&
            (forall k :: k in t.rewards && !(k < |t.cells| && Collided(t.cells, k)) ==>
               k in s.rewards && s.rewards[k] == t.rewards[k])
  {
    CollisionMarks(t.cells, t.rewards, COLLISION_PENALTY, |t.cells|);
    CollisionMarks(t.cells, t.terminations, true, |t.cells|);
    CollisionMarks(t.cells, t.truncations, true, |t.cells|);
    forall k | 0 <= k < |t.cells| && Collided(t.cells, k)
      ensures k in HitUpTo(t.cells, |t.cells|)
    {
    }
  }

  /**
   * What a step returns has equal terminations and truncations (the trainer's `done` is the truncations),
   * and a rewards dict whose keys are all agents, so the total adds every entry once.
   */
  lemma StepFlagsAgreeKeysBelow(g: int, scene: Scene, timestep: int, actions: map<nat, int>, cells: seq<Cell>,
                                live: seq<nat>, next: Scene)
    requires Below(live, |cells|)
    requires ProcessAgents(g, scene, timestep, actions, StartTick(cells, live), live).error.None?
    ensures var s := Finish(ProcessAgents(g, scene, timestep, actions, StartTick(cells, live), live).tick, next);
            s.terminations == s.truncations && (forall a :: a in s.rewards ==> a < |cells|)
  {
    var t0 := StartTick(cells, live);
    FoldFlagsAgree(g, scene, timestep, actions, t0, live);
    FoldKeysBelow(g, scene, timestep, actions, t0, live);
    var t := ProcessAgents(g, scene, timestep, actions, t0, live).tick;
    CollisionMarks(t.cells, t.rewards, COLLISION_PENALTY, |t.cells|);
  }

  /** Changing one agent's reward changes the total by exactly the difference; other keys do not count. */
  lemma {:induction false} SumRewardsUpdate(r: map<nat, int>, n: nat, k: nat, v: int)
    ensures SumRewards(r[k := v], n) == SumRewards(r, n) + (if k < n then v - (if k in r then r[k] else 0) else 0)
  {
    if n > 0 {
      SumRewardsUpdate(r, n - 1, k, v);
    }
  }

  /** n agents that all have reward v total n * v (so a quiet step of n idle agents totals -n). */
  lemma {:induction false} SumRewardsConst(r: map<nat, int>, n: nat, v: int)
    requires forall k :: 0 <= k < n ==> k in r && r[k] == v
    ensures SumRewards(r, n) == n * v
  {
    if n > 0 {
      SumRewardsConst(r, n - 1, v);
    }
  }

  // ---------------------------------------------------------------------
  // Reset
  // ---------------------------------------------------------------------

  /** The default placement, with at most gridSize * gridSize drones, puts every drone in the grid and none on a shared cell. */
  lemma DefaultPlacementCollisionFree(n: nat, g: int)
    requires g > 0 && n <= g * g
    ensures AllInGrid(DefaultCells(n, g), g)
    ensures forall k :: 0 <= k < n ==> !Collided(DefaultCells(n, g), k)
  {
    DefaultPlacementInGridDistinct(n, g);
  }
}
