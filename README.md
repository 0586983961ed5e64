# Drone swarm search: the grid environment and the trainer's reward logic

This project models two cooperating pieces of the drone-swarm-search repository and proves properties
about them:

- **The grid environment** `DroneSwarmSearch` (core/environment/env.py), module `Env`.
  - n drones move on a grid of side `grid_size`, searching for a person.
  - `__init__` checks its arguments. `reset` places the drones, row-major by default or at the caller's
    positions.
  - `step` processes the live agents in order:
    - a move (actions 0 to 3) shifts the drone one cell, or leaves it in place with reward -1000,
      terminated and truncated, when the move would leave the grid;
    - a search (action 4) on the person's cell ends the episode for every live agent; elsewhere it scores
      `matrix[y][x] - 100`;
    - each turn after the limit (`timestep > 500`) gives its agent -1000, terminated and truncated, and
      empties the live list; a later finder in the same step can still drop that entry (see below).
  - After the loop, every drone sharing a cell with another gets -2000 and is terminated and truncated,
    and `total_reward` is the sum of the rewards.
  - The class keeps the positions in an array that the methods update in place.
  - Each method is proved against a pure specification of one step: `ProcessAgent` for one agent's turn,
    `ProcessAgents` for the loop as a left fold over the live agents, and `Finish` for the collision check
    and the total. Module `EnvLemmas` proves the environment's promises about those functions.
- **The trainer's sequential logic** (reinforce_mult.py), module `ReinforceMult`:
  - the sizes the agent derives (`num_obs`, `num_actions`);
  - the per-drone feature vectors of `flatten_state`;
  - the +500/-500/0 shaping of `enhance_reward`;
  - the replace-not-add composition of `get_reward_enhanced`;
  - the per-drone discounted returns computed after each episode;
  - the episode's `done` (any truncation flag);
  - the early stop after more than 100 episodes whose last 20 totals are all at least 100000.

  The discount factor and the returns are `real`, which means exact arithmetic.
- **How the two fit together**, module `Coupling`:
  - the feature length equals `num_obs`;
  - the shaping's "previous cell" undoes the environment's move;
  - on a grid of side at least 2, the shaping of a move the environment has just processed is always
    defined for a drone that starts the move inside the grid;
  - the trainer's `done` is raised whenever a step ends the episode.

Conventions:

- Agents are the indices 0..n-1; the source's keys are "drone0", "drone1", ....
- Dicts keyed by agent are `map<nat, _>`. Observation dicts and per-drone reward rows are sequences
  indexed by drone.
- A drone that has not been placed is `Unplaced`, the source's `[None, None]`. Moving with it raises; a
  search with it is modelled as raising.
- Each exception the source raises is an error value. In `step`, an exception leaves the earlier agents'
  moves in place, as the source does.
- The probability matrix and the person's cell come from a generator that is not part of this model. Every
  call that advances the generator takes its next output as a `Scene` parameter.
- The two files index the matrix differently:
  - the environment reads `matrix[y][x]` for position (x, y);
  - the shaping reads `matrix[pos[0]][pos[1]]`, which is `matrix[x][y]`, and bounds `pos[0]` by the number
    of rows and `pos[1]` by the first row's length.

  Each is modelled as written. On a square field both reads are defined, and the shaping compares the
  values of the transposed cells.

Behaviours of the code the model keeps:

- The shaping guard checks only the current cell. A move whose previous cell lies off the field raises
  instead of shaping to 0 (`ShapingEdgeRaises`).
  - On a grid of side at least 2 this never happens after a real step for a drone that starts the move
    inside the grid (`ShapingDefinedAfterMove`). That always holds after the default placement, and the
    loop keeps it (`FoldKeepsGrid`).
  - Caller-given positions are written without a check (core/environment/env.py:75-78). A drone placed
    just outside the grid can move into it, and the shaping then reads past the field
    (`OffGridStartBreaksShaping`).
  - On a 1-by-1 grid, every move is blocked at the edge, so the shaping reads past the field
    (`SingleCellGridBreaksShaping`).
- A search on the person's cell rebuilds the three dicts over `self.agents` (core/environment/env.py:160-164).
  When an earlier turn of the same step has already emptied that list, the rebuild drops every entry the
  earlier turns wrote (`LateFinderClearsDicts`).
  - After the time limit, an earlier agent's -1000 disappears (`TimeLimitEntryDropped`).
  - Before it, two drones that both search on the person's cell can leave a third drone with no reward
    and no truncation entry, when that drone comes after them and neither collides nor hits an edge.
    The trainer looks up `current_reward[drone]` (reinforce_mult.py:86) only when the drone's shaping is
    0, which happens when it did not move or its cell is outside the field. In that case the lookup
    raises (`SecondFinderBreaksShaping`).
- `flatten_state` also fails on an unplaced drone and on a ragged field, not only on a missing key.
- `step` returns observations, rewards, terminations, truncations and infos. The trainer's `done` is the
  fourth of these, the truncations, which always equal the terminations.
- The trainer calls `reset(..., vector=...)` (reinforce_mult.py:119-121) and builds the environment with
  `timestep_limit=` (reinforce_mult.py:221). The environment's signatures (core/environment/env.py:16-23,
  core/environment/env.py:80) accept neither. Each file is modelled against its own interface. The
  environment keeps its fixed limit of 500.

## Model

| member | source | states |
|---|---|---|
| Env.CheckArgs | core/environment/env.py:26-29 | construction succeeds iff n_drones <= grid_size² and the render mode is "ansi" or "human"; TooManyDrones exactly when there are too many drones (that check comes first) |
| Env.ActionSpace | core/environment/env.py:303-305 | six actions, exactly the codes 0..5 that step has branches for |
| Env.Range | core/environment/env.py:36-41 | the possible agents are 0..n-1 in order |
| Env.RequiredCells | core/environment/env.py:75-78 | agent i gets the i-th given position for each one given; every other agent keeps its position |
| Env.DefaultCells | core/environment/env.py:65-73 | n cells, the k-th at (k mod g, k div g) as the counter loop places it |
| Env.Observe | core/environment/env.py:99-105 | one observation per drone: its position and the generator's current matrix |
| Env.DefaultPlacementInGridDistinct | core/environment/env.py:65-73 | with 0 < g and n <= g², the row-major placement (k mod g, k div g) is inside the grid, and no two agents share a cell |
| Env.StartTick | core/environment/env.py:110-112 | the loop's starting state: every live agent at reward -1, not terminated, not truncated; the partner facts are FoldFlagsAgree and FoldKeysBelow |
| Env.MoveDrone | core/environment/env.py:125-153 | a move changes no other drone and not the live list, and either leaves the drone in place or leaves the rewards alone; MoveOrEdgePenalty and MovedCell state the rest |
| Env.SearchCell | core/environment/env.py:155-168 | a search moves no drone, and unless it ends the episode it keeps the live list and the truncations; AgentRaises and SearchScores state when it raises and what it scores |
| Env.ProcessAgent | core/environment/env.py:114-175 | one turn keeps the number of drones; its errors, moves, scores and flags are stated by AgentRaises, AgentSucceeds, MoveOrEdgePenalty, SearchScores, FindingEndsEpisode and TimeLimitEndsEpisode |
| Env.ProcessAgents | core/environment/env.py:114-175 | the loop as a left fold over the agents live when step began, keeping the number of drones and stopping at the first exception; FoldAppend and ErrorStops give its structure |
| Env.ErrorStops | core/environment/env.py:114-116 | once an agent raises, no later agent is processed and the earlier agents' effects stay |
| Env.CollisionMarks | core/environment/env.py:185-191 | the collision pass adds exactly the colliding agents as keys and writes them the collision value; every other entry is unchanged |
| Env.SumRewards | core/environment/env.py:192 | total_reward, the sum of the rewards of agents below n; SumRewardsUpdate and SumRewardsConst state how it responds to the entries |
| Env.Finish | core/environment/env.py:176-197 | the step's result from the loop's state: observations of the new positions, the collision pass over the three dicts, total_reward, infos over the live agents; CollisionsPenalized and StepFlagsAgreeKeysBelow state its properties |
| Env.DroneSwarmSearch.constructor | core/environment/env.py:16-41 | n drones, all unplaced; no agent live before reset |
| Env.DroneSwarmSearch.DefaultDronesPositions | core/environment/env.py:65-73 | the counter loop puts the k-th live agent at (k mod g, k div g), as DefaultCells states |
| Env.DroneSwarmSearch.RequiredDronePositions | core/environment/env.py:75-78 | given positions are written in order; more positions than drones raise TooManyPositions after the first n are written |
| Env.DroneSwarmSearch.Reset | core/environment/env.py:80-90 | every agent live, timestep 0, drones placed by default or as given, generator advanced, observations returned; an IndexError from the given positions is returned as an error |
| Env.DroneSwarmSearch.MoveInPlace | core/environment/env.py:125-153 | updates the position array in place exactly as MoveDrone: one cell on, or the -1000 edge penalty with both flags set |
| Env.DroneSwarmSearch.SearchInPlace | core/environment/env.py:155-168 | the search branch as SearchCell states: the episode ends on the person's cell, otherwise matrix[y][x] - 100, an off-matrix cell raises, and an unplaced drone is modelled as raising |
| Env.DroneSwarmSearch.ProcessAgentInPlace | core/environment/env.py:114-175 | one loop iteration equals ProcessAgent on the current state, and an exception leaves that state in place |
| Env.DroneSwarmSearch.Advance | core/environment/env.py:114-175 | one iteration continues the fold: the fold's next state, or the fold's final exception |
| Env.DroneSwarmSearch.ProcessLiveAgents | core/environment/env.py:110-175 | the loop over the agents live at the start of step equals the fold ProcessAgents: positions, live list, dicts and first exception |
| Env.DroneSwarmSearch.Step | core/environment/env.py:109-197 | step before reset raises and changes nothing; otherwise the new positions and live list are the fold's; an exception leaves the timestep unchanged; a normal step returns Finish of the fold, advances the timestep by exactly 1 and the generator once |
| Env.MarkCollisions | core/environment/env.py:184-191 | the nested collision loops give exactly MarkUpTo over all agents for the three dicts |
| Env.MarkIfShared | core/environment/env.py:186-191 | the inner loop marks agent ki (-2000, both flags) iff some other agent is on its cell, and otherwise changes nothing |
| EnvLemmas.OnlyOwnDroneMoves | core/environment/env.py:118-153 | an agent's turn moves only its own drone, and that by at most one cell |
| EnvLemmas.MoveOrEdgePenalty | core/environment/env.py:125-153 | before the time limit, a placed drone moves iff the move stays in the grid; a blocked move gives -1000, terminated and truncated; a real move changes one coordinate by 1 and no dict |
| EnvLemmas.MovedCell | core/environment/env.py:125-153 | after a move, the drone is one cell on, or where it was if the move would leave the grid |
| EnvLemmas.AgentKeepsGrid | core/environment/env.py:125-153 | a drone inside the grid stays inside after any turn |
| EnvLemmas.SearchScores | core/environment/env.py:166-168 | before the time limit, a search that misses the person, from inside a covered grid, sets only the searcher's reward to matrix[y][x] - 100 |
| EnvLemmas.FindingEndsEpisode | core/environment/env.py:160-164 | a search on the person's cell empties the live list; every agent live then is in the rewards with 0 (-1000 for the searcher after the time limit), terminated and truncated; before the limit each of the three dicts holds exactly those agents |
| EnvLemmas.LateFinderClearsDicts | core/environment/env.py:160-175 | a finder reached after the live list emptied leaves all three dicts empty, or only its own -1000 and truncation after the time limit |
| EnvLemmas.TimeLimitEntryDropped | core/environment/env.py:160-175 | after the time limit, agent 0's -1000 and truncation are dropped when agent 1 then finds the person in the same step |
| EnvLemmas.TimeLimitEndsEpisode | core/environment/env.py:171-175 | after timestep 500 every completed turn gives its agent -1000, terminated and truncated, and empties the live list |
| EnvLemmas.AgentRaises | core/environment/env.py:114-168 | a turn raises iff the agent has no action, moves with an unplaced drone, searches with one (modelled as a raise), or searches a cell off the matrix that is not the person's |
| EnvLemmas.AgentSucceeds | core/environment/env.py:114-168 | a turn with an action, from inside a grid the matrix covers, raises nothing |
| EnvLemmas.AgentFlagsAgree | core/environment/env.py:110-175 | terminations and truncations are always written together, so a turn keeps them equal |
| EnvLemmas.AgentLive | core/environment/env.py:160-175 | a turn keeps the live list or empties it |
| EnvLemmas.AgentKeysBelow | core/environment/env.py:110-175 | a turn writes reward keys only for agents below n |
| EnvLemmas.AgentNonFinder | core/environment/env.py:155-175 | before the time limit, a turn that does not find the person keeps the live list and every other agent's truncation flag |
| EnvLemmas.FoldAppend | core/environment/env.py:114-176 | running the loop over p + q is running it over p and then over q from there; an exception in p stops it |
| EnvLemmas.FoldUntouched | core/environment/env.py:114-153 | the loop moves no drone whose agent it does not visit |
| EnvLemmas.FoldKeepsGrid | core/environment/env.py:114-153 | drones inside the grid before the loop are inside it after the loop |
| EnvLemmas.FoldLive | core/environment/env.py:114-175 | the loop keeps the live list or empties it |
| EnvLemmas.FoldFlagsAgree | core/environment/env.py:110-175 | equal terminations and truncations stay equal through the loop |
| EnvLemmas.FoldKeysBelow | core/environment/env.py:110-175 | the loop keeps live agents and reward keys below n |
| EnvLemmas.MissingActionRaises | core/environment/env.py:114-116 | an agent the loop visits without an action makes the step raise |
| EnvLemmas.WellFormedStepSucceeds | core/environment/env.py:114-168 | with every drone in the grid and the matrix covering it, the loop raises nothing iff every visited agent has an action |
| EnvLemmas.TimeLimitEndsStep | core/environment/env.py:170-175 | after timestep 500, a loop that raises nothing ends the episode, and its last agent has -1000, terminated and truncated |
| EnvLemmas.EndedStaysEnded | core/environment/env.py:114-175 | an empty live list stays empty through the loop |
| EnvLemmas.FinderEndsStep | core/environment/env.py:160-164 | an agent that searches on the person's cell ends the episode: no agent is live after a loop that raises nothing |
| EnvLemmas.NoFinderKeepsLive | core/environment/env.py:155-175 | before the time limit, agents that do not find the person leave the live list unchanged |
| EnvLemmas.FinderStaysMarked | core/environment/env.py:155-175 | through the rest of the loop, the first finder stays truncated or joined on its cell |
| EnvLemmas.FirstFinderMarked | core/environment/env.py:160-164 | the first finder, reached with the live list intact, is truncated after its turn |
| EnvLemmas.MarkedIsTruncated | core/environment/env.py:184-191 | a marked finder is truncated in what the step returns, directly or through the collision check |
| EnvLemmas.MarkedFinderTruncated | core/environment/env.py:155-191 | a finder marked before the rest of the loop is truncated in what the step returns |
| EnvLemmas.FindingTruncatesSomeAgent | core/environment/env.py:155-191 | before the time limit, when some agent searches on the person's cell and the step raises nothing, some agent is truncated in the result |
| EnvLemmas.CollisionsPenalized | core/environment/env.py:184-191 | after the collision check, every drone sharing its cell has -2000 and both flags set; every other agent keeps the loop's reward; the keys grow by the colliding agents only |
| EnvLemmas.StepFlagsAgreeKeysBelow | core/environment/env.py:110-192 | a step's terminations equal its truncations, and every reward key is an agent below n, so the total counts each agent's reward once |
| EnvLemmas.SumRewardsUpdate | core/environment/env.py:192 | changing one agent's reward changes total_reward by exactly the difference |
| EnvLemmas.SumRewardsConst | core/environment/env.py:192 | n agents that all have reward v make total_reward n * v |
| EnvLemmas.DefaultPlacementCollisionFree | core/environment/env.py:65-73 | the default placement of at most g² drones is inside the grid and has no collision |
| ReinforceMult.NewRLAgent | reinforce_mult.py:9-22 | num_obs = 2 * num_agents + grid_size², num_actions = 6 |
| ReinforceMult.FlattenState | reinforce_mult.py:24-48 | on success, one feature vector per drone |
| ReinforceMult.FlattenStateSucceeds | reinforce_mult.py:24-48 | flatten_state succeeds iff every drone has an observation, a placed drone and a rectangular field |
| ReinforceMult.FlattenLayout | reinforce_mult.py:31-33 | a field of width w flattens to rows*w values, with row r, column c at index r*w + c |
| ReinforceMult.OthersLayout | reinforce_mult.py:34-42 | the others' coordinates hold two values per other drone, in ascending index with self skipped |
| ReinforceMult.Feature | reinforce_mult.py:27-46 | one drone's feature vector; FeatureLayout states its layout and length |
| ReinforceMult.FeatureLayout | reinforce_mult.py:27-46 | a feature vector has length 2N + H*W: own x and y, each other drone's x and y in ascending order, then the field row-major |
| ReinforceMult.EnhanceReward | reinforce_mult.py:50-76 | the shaping is always 0, +500 or -500, or an error |
| ReinforceMult.ShapingZero | reinforce_mult.py:51-52 | the shaping is 0 iff the action is not a move or the position is outside [0, rows) × [0, len(M[0])) |
| ReinforceMult.ShapingSign | reinforce_mult.py:53-74 | for a move inside the field, +500 iff M[current] > M[previous], -500 otherwise, with the previous cell undoing the move |
| ReinforceMult.ShapingIgnoresMagnitude | reinforce_mult.py:71-74 | fields that order the two cells alike give the same shaping, whatever the size of the difference |
| ReinforceMult.ShapingEdgeRaises | reinforce_mult.py:53-66 | on a rectangular field, a move whose previous cell lies past the first or last row or column raises instead of shaping |
| ReinforceMult.Shapings | reinforce_mult.py:82-85 | the drones' shapings in drone order, one per drone, up to the first exception |
| ReinforceMult.ShapeRewards | reinforce_mult.py:78-90 | get_reward_enhanced over the first j drones; ShapeRewardsRaises and ShapeRewardsValues state when it raises and what it returns |
| ReinforceMult.ShapeRewardsRaises | reinforce_mult.py:78-90 | the composition raises iff some shaping raises or a drone with shaping 0 has no step reward |
| ReinforceMult.ShapeRewardsValues | reinforce_mult.py:78-90 | each new reward is the shaping when it is nonzero and the step reward otherwise; the total is the step total plus the shapings only |
| ReinforceMult.TotalKeepsReplaced | reinforce_mult.py:86-89 | the returned total grows over the step's total by the new per-drone rewards' sum minus the old ones' sum plus the rewards the shaping replaced, which stay counted in the total |
| ReinforceMult.ShapeErrorStops | reinforce_mult.py:82-86 | once a drone raises, later drones do not change the outcome |
| ReinforceMult.GetRewardEnhanced | reinforce_mult.py:78-90 | the loop returns exactly the composition ShapeRewards over all drones, including its first error |
| ReinforceMult.PowerSum | reinforce_mult.py:185-188 | Σ_k y^k · rs[j+k], the generator sum over a suffix; PowerSumHead gives its recurrence |
| ReinforceMult.Return | reinforce_mult.py:178-191 | G[t][d], drone d's discounted return from step t; ReturnRecurrence and UndiscountedReturn state its properties |
| ReinforceMult.DiscountedReturns | reinforce_mult.py:178-191 | one row per timestep with one value per drone, G[t][d] = Σ_k y^k · r[t+k][d] over drone d's own rewards |
| ReinforceMult.SuffixSum | reinforce_mult.py:185-188 | the generator sum adds y^k · rs[k] for k = 0, 1, ... |
| ReinforceMult.PowerSumHead | reinforce_mult.py:185-188 | Σ_k y^k rs[k] = rs[0] + y · Σ_k y^k rs[k+1] |
| ReinforceMult.ReturnRecurrence | reinforce_mult.py:178-191 | G[t][d] = r[t][d] + y · G[t+1][d], and G[T-1][d] = r[T-1][d] |
| ReinforceMult.UndiscountedIsSum | reinforce_mult.py:185-188 | with y = 1 the power sum is the plain sum |
| ReinforceMult.UndiscountedReturn | reinforce_mult.py:178-191 | with y = 1, G[t][d] is the suffix sum of drone d's rewards |
| ReinforceMult.AnyDone | reinforce_mult.py:157 | `any(done.values())`: some drone's flag is true |
| ReinforceMult.Rollout | reinforce_mult.py:127-157 | the episode runs to the first step where any drone is done; count_actions = n · steps and total_reward is the sum of the steps' shaped totals |
| ReinforceMult.ShouldStop | reinforce_mult.py:163-164 | more than 100 totals recorded and the last 20 all at least 100000 |
| ReinforceMult.EpisodesRun | reinforce_mult.py:114-166 | never more episodes than the budget |
| ReinforceMult.RunEpisodes | reinforce_mult.py:114-166 | the episode loop with its break runs exactly EpisodesRun episodes of the budget episodes + 1 |
| ReinforceMult.RunsStay | reinforce_mult.py:114-116 | once training has stopped, a larger budget runs no more episodes |
| ReinforceMult.EarlyStopMeaning | reinforce_mult.py:163-166 | training runs at least min(budget, 101) episodes, and it stops early only when more than 100 totals are recorded and the last 20 are all >= 100000 |
| ReinforceMult.EpisodesRunIsFirstStop | reinforce_mult.py:114-164 | the episodes run are exactly the first k at which the stop rule holds of the first k totals, or the whole budget when it holds at no earlier k |
| ReinforceMult.StopsWhenDue | reinforce_mult.py:114-116 | once the rule holds after k episodes, within the budget, no more than k episodes run |
| Coupling.FeaturesMatchNumObs | reinforce_mult.py:17-21 | for drones in a g×g grid, flattening the environment's observations succeeds and every vector has length num_obs |
| Coupling.PreviousUndoesMove | reinforce_mult.py:53-62 | the shaping's previous cell of the environment's move is where the move started |
| Coupling.ShapingDefinedAfterMove | reinforce_mult.py:50-74 | on a grid of side >= 2 with a square field, the shaping of a move the environment processed, for a drone that starts the move inside the grid, is defined and nonzero; after a real move, its previous cell is the start |
| Coupling.SingleCellGridBreaksShaping | reinforce_mult.py:55-66 | on a 1×1 grid a LEFT move is blocked with -1000, and the shaping then reads one row past the field and raises |
| Coupling.SecondFinderBreaksShaping | reinforce_mult.py:82-87 | in one 4-by-4 instance with three drones, two of which search on the person's cell and the third idles, the step raises nothing but drops drone 2's reward and truncation, and get_reward_enhanced then raises MissingReward(2) |
| Coupling.OffGridStartBreaksShaping | reinforce_mult.py:53-66 | a caller-given start (4, 0) on a 4-by-4 grid passes reset, a LEFT move lands on (3, 0), and the shaping then raises PreviousOffField |
| Coupling.TimeLimitRaisesDone | reinforce_mult.py:157 | after timestep 500 any step that processes an agent raises the trainer's done |
| Coupling.EpisodeEndRaisesDone | reinforce_mult.py:157 | whenever a step that raises nothing leaves no agent live, the trainer's done (any truncation) is raised |
| Coupling.LiveAgentsDistinct | core/environment/env.py:81 | the agents reset makes live are distinct and below n |

## Left out

- The probability-matrix generator and `generate_map` (core/environment/env.py:44-49, 94-97) are not part
  of this model. Their outputs are `Scene` parameters of the constructor, `Reset` and `Step`.
- Scene: probability values are modelled as integers. Only their order and the `- 100` matter to the
  model; the source's values are floats.
- Rendering: pygame setup, `enable_render`, `render`, `draw`, `close`, `render_probability_matrix` and
  the render calls inside reset, create_observations and step (core/environment/env.py:52-62, 86-87, 106,
  194-195, 199-294). These are UI only. This also leaves out the division of the window size by
  `grid_size`, which raises for a grid size of 0.
- `observation_space` (core/environment/env.py:298-301) is a library wrapper. It is taken as the pair
  (grid_size, grid_size). `get_agents` and the `__main__` API test are left out.
- core/draw_probability_matrix.py is plotting only.
- The policy network, sampling, log-probabilities, loss and the Adam optimizer
  (reinforce_mult.py:100-108, 130-133, 193-205) are floating-point library code.
- `get_random_speed_vector` (reinforce_mult.py:92-97) is random floats. The `vector` it passes to reset
  is not accepted by the environment's reset.
- The progress prints, the reporting lists and the statistics rows (reinforce_mult.py:159-176, except the
  early stop) are left out, as is the module-level script with its config, `torch.save` and CSV export
  (reinforce_mult.py:211-235). These are I/O.
- `lr` is only stored; it matters only to the optimizer.
- No step-level promise that every live agent ends the step with a reward and a truncation entry: the code
  does not keep one when a later finder rebuilds the dicts (`LateFinderClearsDicts`). For the same reason
  `TimeLimitEndsStep` states the -1000 of the step's last agent only.
- Env.SearchCell: a search at a negative coordinate, possible with caller-given positions, would wrap
  around in Python. The model raises SearchOffMatrix instead.
- Env.DroneSwarmSearch.SearchInPlace: the same negative-index wrap is modelled as SearchOffMatrix.
- Env.SearchCell: a search by an unplaced drone raises UnplacedDrone in the model. In the source the
  person check `None == person_x` is False, and `prob_matrix[None][None] - 100`
  (core/environment/env.py:167-168) on the generator's NumPy array adds axes instead of raising. The step
  then stores an array as the reward. The same holds for Env.DroneSwarmSearch.SearchInPlace and for the
  search case of EnvLemmas.AgentRaises.
- Env.DroneSwarmSearch.SearchInPlace: like Env.SearchCell, it raises UnplacedDrone where the source's NumPy
  indexing gives an array.
- EnvLemmas.AgentRaises: its unplaced-searcher case is the modelled UnplacedDrone raise, not a raise in the
  source (see Env.SearchCell).
- Coupling.ShapingDefinedAfterMove: it covers only drones that start the move inside the grid. A
  caller-given position outside the grid (core/environment/env.py:75-78) can make the shaping raise after
  a move that lands inside it (`OffGridStartBreaksShaping`).
- ReinforceMult.EnhanceReward: a previous cell at index -1 (RIGHT on row 0, DOWN on column 0) would wrap
  to the last row or column in Python. The model raises PreviousOffField, as it does past the far end.
- ReinforceMult.FlattenState: the tensor library's distinct exceptions are grouped into three kinds.
  These are a missing key, a None coordinate and a ragged field. Tensor dtypes are not modelled.
- Env.DroneSwarmSearch.Step: `infos` is modelled as the list of its keys, because every value is an empty
  dict. Observation and reward dicts are indexed by drone number instead of "droneK" strings.
- Env.DroneSwarmSearch.constructor: its arguments must pass CheckArgs. The two exceptions themselves are
  modelled by Env.CheckArgs.
- Env.DroneSwarmSearch.Reset: the unused `seed`, `return_info` and `options` arguments are dropped.
- ReinforceMult.Rollout: the steps' truncation dicts and shaped totals are inputs. In the source they
  depend on the sampled actions.
- ReinforceMult.RunEpisodes: each episode's total is an input. In the source it depends on the network.
