/**
 * The trainer's sequential logic (reinforce_mult.py): the agent's sizes, the
 * feature vectors built from the environment's observations, the reward
 * shaping, the per-drone discounted returns, the episode's end and the early
 * stop of training. The network, sampling and optimizer are not modelled.
 *
 * An observation dict is a sequence indexed by drone number (Env.Observation);
 * the shaping reads a field as matrix[pos[0]][pos[1]], i.e. matrix[x][y].
 */
module ReinforceMult {
  import opened Results
  import opened Env

  datatype TrainError =
    | MissingObservation          // the observations have no entry for a drone (KeyError)
    | UnplacedPosition            // a None coordinate reaches torch.tensor or a comparison (TypeError)
    | RaggedField                 // torch.tensor of a field whose rows differ in length (ValueError)
    | PreviousOffField            // the cell a move came from is outside the field (IndexError; -1 is not wrapped)
    | CurrentOffField             // the current cell is beyond the end of its row (IndexError)
    | MissingReward(agent: nat)   // the step's rewards have no entry for a drone whose shaping is 0 (KeyError)

  // ---------------------------------------------------------------------
  // The agent
  // ---------------------------------------------------------------------

  /** The trainer's fixed parameters and the sizes it derives from the environment. */
  datatype RLAgent = RLAgent(y: real, lr: real, episodes: int, dronesInitialPositions: Option<seq<(int, int)>>,
                             numAgents: nat, numObs: int, numActions: nat)

  /**
   * The constructor: one agent per possible agent of an environment with n drones on a grid of side
   * gridSize; the input size counts two coordinates per drone and one value per observed cell.
   */
  function NewRLAgent(n: nat, gridSize: int, y: real, lr: real, episodes: int,
                      dronesInitialPositions: Option<seq<(int, int)>>): (r: RLAgent)
    ensures r.numAgents == n && r.numObs == 2 * n + gridSize * gridSize && r.numActions == 6
  {
    var space := ObservationSpace(gridSize);
    RLAgent(y, lr, episodes, dronesInitialPositions, n, 2 * n + space.0 * space.1, |ActionSpace()|)
  }

  // ---------------------------------------------------------------------
  // Feature vectors (flatten_state)
  // ---------------------------------------------------------------------

  predicate Rectangular(m: seq<seq<int>>)
  {
    forall r :: 0 <= r < |m| ==> |m[r]| == |m[0]|
  }

  /** Every row has exactly `width` entries. */
  predicate HasWidth(m: seq<seq<int>>, width: nat)
  {
    forall r :: 0 <= r < |m| ==> |m[r]| == width
  }

  /** torch.flatten of a field: its rows one after another. */
  function FlattenField(m: seq<seq<int>>): seq<int>
  {
    if m == [] then [] else FlattenField(m[..|m| - 1]) + m[|m| - 1]
  }

  /** Every drone among the first n has an observation and a placed drone. */
  predicate Placed(obs: seq<Observation>, n: nat)
  {
    n <= |obs| && forall j :: 0 <= j < n ==> obs[j].cell.At?
  }

  /** The coordinates of the drones below m other than drone k, in drone order. */
  function Others(obs: seq<Observation>, k: nat, m: nat): seq<int>
    requires Placed(obs, m)
  {
    if m == 0 then []
    else
      var c := obs[m - 1].cell;
      Others(obs, k, m - 1) + (if m - 1 == k then [] else [c.x, c.y])
  }

  /** Drone k's feature vector: its own coordinates, the others' coordinates, then its field row by row. */
  function Feature(obs: seq<Observation>, n: nat, k: nat): seq<int>
    requires Placed(obs, n) && k < n
  {
    [obs[k].cell.x, obs[k].cell.y] + Others(obs, k, n) + FlattenField(obs[k].matrix)
  }

  /**
   * flatten_state: one feature vector per drone, or the exception the first failing tensor raises
   * (drone 0's position and field are converted before the other drones' positions, those before
   * the other drones' fields).
   */
  function FlattenState(obs: seq<Observation>, n: nat): (r: Result<seq<seq<int>>, TrainError>)
    ensures r.Ok? ==> |r.value| == n
  {
    if n == 0 then Ok([])
    else if |obs| == 0 then Err(MissingObservation)
    else if obs[0].cell.Unplaced? then Err(UnplacedPosition)
    else if !Rectangular(obs[0].matrix) then Err(RaggedField)
    else if n > |obs| then Err(MissingObservation)
    else if exists j :: 0 <= j < n && obs[j].cell.Unplaced? then Err(UnplacedPosition)
    else if exists j :: 0 <= j < n && !Rectangular(obs[j].matrix) then Err(RaggedField)
    else Ok(seq(n, k requires 0 <= k < n => Feature(obs, n, k)))
  }

  /** flatten_state succeeds exactly when every drone has an observation, a placed drone and a rectangular field. */
  lemma FlattenStateSucceeds(obs: seq<Observation>, n: nat)
    ensures FlattenState(obs, n).Ok? <==> Placed(obs, n) && forall j :: 0 <= j < n ==> Rectangular(obs[j].matrix)
  {
  }

  lemma MulMono(a: int, b: int, w: int)
    requires a <= b && w >= 0
    ensures a * w <= b * w
  {
  }

  /** A field of width w flattens to |m| * w values, with row r, column c at r * w + c. */
  lemma {:induction false} FlattenLayout(m: seq<seq<int>>, w: nat)
    requires HasWidth(m, w)
    ensures |FlattenField(m)| == |m| * w
    ensures forall r, c :: 0 <= r < |m| && 0 <= c < w ==> FlattenField(m)[r * w + c] == m[r][c]
  {
    if m != [] {
      var init := m[..|m| - 1];
      FlattenLayout(init, w);
      var h := |m| - 1;
      assert |FlattenField(m)| == h * w + w;
      forall r, c | 0 <= r < |m| && 0 <= c < w
        ensures FlattenField(m)[r * w + c] == m[r][c]
      {
        if r < h {
          MulMono(r + 1, h, w);
          assert r * w + c < h * w;
          assert init[r] == m[r];
        } else {
          assert r * w + c == h * w + c;
        }
      }
    }
  }

  /** The others' coordinates: two per drone below m except k, drone j's pair at its rank among them. */
  lemma {:induction false} OthersLayout(obs: seq<Observation>, k: nat, m: nat)
    requires Placed(obs, m)
    ensures |Others(obs, k, m)| == 2 * (if k < m then m - 1 else m)
    ensures forall j :: 0 <= j < m && j != k ==>
              var p := if j < k then j else j - 1;
              Others(obs, k, m)[2 * p] == obs[j].cell.x && Others(obs, k, m)[2 * p + 1] == obs[j].cell.y
  {
    if m > 0 {
      OthersLayout(obs, k, m - 1);
      var prev := Others(obs, k, m - 1);
      var c := obs[m - 1].cell;
      var tail: seq<int> := if m - 1 == k then [] else [c.x, c.y];
      var all := Others(obs, k, m);
      assert all == prev + tail;
      forall j | 0 <= j < m && j != k
        ensures var p := if j < k then j else j - 1;
                all[2 * p] == obs[j].cell.x && all[2 * p + 1] == obs[j].cell.y
      {
        var p := if j < k then j else j - 1;
        if j < m - 1 {
          assert 2 * p + 1 < |prev|;
          assert all[2 * p] == prev[2 * p] && all[2 * p + 1] == prev[2 * p + 1];
        } else {
          assert 2 * p == |prev|;
        }
      }
    }
  }

  /**
   * Drone k's feature vector has 2n values for the positions and one per field cell: its own x and y,
   * then each other drone's x and y in ascending drone order, then the field in row-major order
   * (laid out as FlattenLayout states).
   */
  lemma FeatureLayout(obs: seq<Observation>, n: nat, k: nat, h: nat, w: nat)
    requires Placed(obs, n) && k < n && |obs[k].matrix| == h && HasWidth(obs[k].matrix, w)
    ensures |Feature(obs, n, k)| == 2 * n + h * w
    ensures var f := Feature(obs, n, k);
            f[0] == obs[k].cell.x && f[1] == obs[k].cell.y &&
            (forall j :: 0 <= j < n && j != k ==>
               var p := if j < k then j else j - 1;
               f[2 + 2 * p] == obs[j].cell.x && f[3 + 2 * p] == obs[j].cell.y) &&
            f[2 * n..] == FlattenField(obs[k].matrix)
  {
    OthersLayout(obs, k, n);
    FlattenLayout(obs[k].matrix, w);
    var f := Feature(obs, n, k);
    var others := Others(obs, k, n);
    forall j | 0 <= j < n && j != k
      ensures var p := if j < k then j else j - 1;
              f[2 + 2 * p] == obs[j].cell.x && f[3 + 2 * p] == obs[j].cell.y
    {
      var p := if j < k then j else j - 1;
      assert f[2 + 2 * p] == others[2 * p];
      assert f[3 + 2 * p] == others[2 * p + 1];
    }
  }

  // ---------------------------------------------------------------------
  // Reward shaping (enhance_reward)
  // ---------------------------------------------------------------------

  const SHAPING := 500

  /** The cell a move came from: the move undone. */
  function PreviousCell(c: Cell, action: int): Cell
    requires c.At?
  {
    if action == LEFT then At(c.x + 1, c.y)
    else if action == RIGHT then At(c.x - 1, c.y)
    else if action == UP then At(c.x, c.y + 1)
    else At(c.x, c.y - 1)
  }

  /** The field has a value at matrix[c.x][c.y]. */
  predicate OnField(c: Cell, m: seq<seq<int>>)
    requires c.At?
  {
    0 <= c.x < |m| && 0 <= c.y < |m[c.x]|
  }

  /** The shaping guard's bounds: rows bound x, the first row's length bounds y. */
  predicate InFieldBounds(c: Cell, m: seq<seq<int>>)
    requires c.At?
  {
    0 <= c.x < |m| && 0 <= c.y < |m[0]|
  }

  /**
   * enhance_reward: 0 for a non-move or a position outside the field's bounds; otherwise +500 when the
   * current cell's value exceeds the previous cell's and -500 when it does not.
   */
  function EnhanceReward(pos: Cell, m: seq<seq<int>>, action: int): (r: Result<int, TrainError>)
    ensures r.Ok? ==> r.value == 0 || r.value == SHAPING || r.value == -SHAPING
  {
    if !IsMove(action) then Ok(0)
    else if pos.Unplaced? then Err(UnplacedPosition)
    else if !InFieldBounds(pos, m) then Ok(0)
    else
      var prev := PreviousCell(pos, action);
      if !OnField(prev, m) then Err(PreviousOffField)
      else if !OnField(pos, m) then Err(CurrentOffField)
      else if m[pos.x][pos.y] > m[prev.x][prev.y] then Ok(SHAPING)
      else Ok(-SHAPING)
  }

  /** The shaping is 0 exactly for a non-move or a position outside the field's bounds. */
  lemma ShapingZero(pos: Cell, m: seq<seq<int>>, action: int)
    requires EnhanceReward(pos, m, action).Ok?
    ensures EnhanceReward(pos, m, action).value == 0 <==> !IsMove(action) || !InFieldBounds(pos, m)
  {
  }

  /** For a move inside the field, +500 exactly when the value rose, -500 exactly when it did not. */
  lemma ShapingSign(pos: Cell, m: seq<seq<int>>, action: int)
    requires pos.At? && IsMove(action) && OnField(pos, m) && OnField(PreviousCell(pos, action), m)
    requires InFieldBounds(pos, m)
    ensures var prev := PreviousCell(pos, action);
            EnhanceReward(pos, m, action) == Ok(if m[pos.x][pos.y] > m[prev.x][prev.y] then SHAPING else -SHAPING)
  {
  }

  /** Only the order of the two values matters: fields that order them alike give the same shaping. */
  lemma ShapingIgnoresMagnitude(pos: Cell, m1: seq<seq<int>>, m2: seq<seq<int>>, action: int)
    requires pos.At? && IsMove(action) && |m1| == |m2| && forall r :: 0 <= r < |m1| ==> |m1[r]| == |m2[r]|
    requires var prev := PreviousCell(pos, action);
             OnField(pos, m1) && OnField(prev, m1) &&
             (m1[pos.x][pos.y] > m1[prev.x][prev.y] <==> m2[pos.x][pos.y] > m2[prev.x][prev.y])
    ensures EnhanceReward(pos, m1, action) == EnhanceReward(pos, m2, action)
  {
    assert |m1| > 0;
  }

  /** On a rectangular field, a move whose previous cell lies past the first or the last row or column raises. */
  lemma ShapingEdgeRaises(pos: Cell, m: seq<seq<int>>, action: int)
    requires pos.At? && Rectangular(m) && InFieldBounds(pos, m)
    requires (action == LEFT && pos.x == |m| - 1) || (action == RIGHT && pos.x == 0) ||
             (action == UP && pos.y == |m[0]| - 1) || (action == DOWN && pos.y == 0)
    ensures EnhanceReward(pos, m, action) == Err(PreviousOffField)
  {
  }

  // ---------------------------------------------------------------------
  // Composing shaped and raw rewards (get_reward_enhanced)
  // ---------------------------------------------------------------------

  /** The shaping of drone k, or the KeyError of a missing observation. */
  function ShapingOf(obs: seq<Observation>, actions: seq<int>, k: nat): Result<int, TrainError>
    requires k < |actions|
  {
    if k >= |obs| then Err(MissingObservation) else EnhanceReward(obs[k].cell, obs[k].matrix, actions[k])
  }

  /** The shapings of drones 0..j-1, stopping at the first exception. */
  function Shapings(obs: seq<Observation>, actions: seq<int>, j: nat): (r: Result<seq<int>, TrainError>)
    requires j <= |actions|
    ensures r.Ok? ==> |r.value| == j
  {
    if j == 0 then Ok([])
    else
      var prev := Shapings(obs, actions, j - 1);
      var s := ShapingOf(obs, actions, j - 1);
      if prev.Err? then prev
      else if s.Err? then Err(s.error)
      else Ok(prev.value + [s.value])
  }

  function Sum(s: seq<int>): int
  {
    if s == [] then 0 else Sum(s[..|s| - 1]) + s[|s| - 1]
  }

  /** What get_reward_enhanced returns: the total (also stored as "total_reward") and the drones' new rewards. */
  datatype Shaped = Shaped(total: int, rewards: seq<int>)

  /** get_reward_enhanced over drones 0..j-1, from the step's total and per-drone rewards. */
  function ShapeRewards(obs: seq<Observation>, actions: seq<int>, total: int, rewards: map<nat, int>, j: nat)
    : Result<Shaped, TrainError>
    requires j <= |actions|
  {
    if j == 0 then Ok(Shaped(total, []))
    else
      var prev := ShapeRewards(obs, actions, total, rewards, j - 1);
      var s := ShapingOf(obs, actions, j - 1);
      if prev.Err? then prev
      else if s.Err? then Err(s.error)
      else if s.value != 0 then Ok(Shaped(prev.value.total + s.value, prev.value.rewards + [s.value]))
      else if j - 1 !in rewards then Err(MissingReward(j - 1))
      else Ok(Shaped(prev.value.total, prev.value.rewards + [rewards[j - 1]]))
  }

  /** The composition raises exactly when a shaping raises or a drone whose shaping is 0 has no reward. */
  lemma {:induction false} ShapeRewardsRaises(obs: seq<Observation>, actions: seq<int>, total: int,
                                              rewards: map<nat, int>, j: nat)
    requires j <= |actions|
    ensures ShapeRewards(obs, actions, total, rewards, j).Ok? <==>
            Shapings(obs, actions, j).Ok? &&
            forall k :: 0 <= k < j && Shapings(obs, actions, j).value[k] == 0 ==> k in rewards
  {
    if j > 0 {
      ShapeRewardsRaises(obs, actions, total, rewards, j - 1);
      var s := Shapings(obs, actions, j);
      var sp := Shapings(obs, actions, j - 1);
      if s.Ok? {
        assert forall k :: 0 <= k < j - 1 ==> s.value[k] == sp.value[k];
      }
    }
  }

  /** Each new per-drone reward is the drone's shaping when that is nonzero, its step reward otherwise. */
  predicate Entries(rewards: map<nat, int>, r: seq<int>, s: seq<int>)
  {
    |r| == |s| &&
    forall k :: 0 <= k < |s| ==> if s[k] != 0 then r[k] == s[k] else k in rewards && r[k] == rewards[k]
  }

  lemma EntriesSnoc(rewards: map<nat, int>, r: seq<int>, s: seq<int>, sk: int, last: int)
    requires Entries(rewards, r, s)
    requires if sk != 0 then last == sk else |s| in rewards && last == rewards[|s|]
    ensures Entries(rewards, r + [last], s + [sk])
  {
  }

  lemma SumSnoc(s: seq<int>, x: int)
    ensures Sum(s + [x]) == Sum(s) + x
  {
    assert (s + [x])[..|s|] == s;
  }

  /**
   * Replace, not add: a nonzero shaping replaces the drone's reward and a zero one keeps it, and the total
   * grows by the shapings alone.
   */
  lemma ShapeRewardsValues(obs: seq<Observation>, actions: seq<int>, total: int, rewards: map<nat, int>, j: nat)
    requires j <= |actions| && ShapeRewards(obs, actions, total, rewards, j).Ok?
    ensures Shapings(obs, actions, j).Ok?
    ensures var r := ShapeRewards(obs, actions, total, rewards, j).value;
            var s := Shapings(obs, actions, j).value;
            r.total == total + Sum(s) && Entries(rewards, r.rewards, s)
  {
    ShapeRewardsTotal(obs, actions, total, rewards, j);
    ShapeRewardsEntries(obs, actions, total, rewards, j);
  }

  /** The total half of ShapeRewardsValues. */
  lemma {:induction false} ShapeRewardsTotal(obs: seq<Observation>, actions: seq<int>, total: int,
                                             rewards: map<nat, int>, j: nat)
    requires j <= |actions| && ShapeRewards(obs, actions, total, rewards, j).Ok?
    ensures Shapings(obs, actions, j).Ok?
    ensures ShapeRewards(obs, actions, total, rewards, j).value.total == total + Sum(Shapings(obs, actions, j).value)
  {
    if j > 0 {
      ShapeStep(obs, actions, total, rewards, j);
      ShapeRewardsTotal(obs, actions, total, rewards, j - 1);
      var sp := Shapings(obs, actions, j - 1).value;
      var sk := ShapingOf(obs, actions, j - 1).value;
      assert Shapings(obs, actions, j).value == sp + [sk];
      SumSnoc(sp, sk);
    }
  }

  /** The per-drone half of ShapeRewardsValues. */
  lemma {:induction false} ShapeRewardsEntries(obs: seq<Observation>, actions: seq<int>, total: int,
                                               rewards: map<nat, int>, j: nat)
    requires j <= |actions| && ShapeRewards(obs, actions, total, rewards, j).Ok?
    ensures Shapings(obs, actions, j).Ok?
    ensures Entries(rewards, ShapeRewards(obs, actions, total, rewards, j).value.rewards, Shapings(obs, actions, j).value)
  {
    if j > 0 {
      ShapeStep(obs, actions, total, rewards, j);
      ShapeRewardsEntries(obs, actions, total, rewards, j - 1);
      var sp := Shapings(obs, actions, j - 1).value;
      var sk := ShapingOf(obs, actions, j - 1).value;
      var rp := ShapeRewards(obs, actions, total, rewards, j - 1).value;
      assert Shapings(obs, actions, j).value == sp + [sk];
      EntriesSnoc(rewards, rp.rewards, sp, sk, if sk != 0 then sk else rewards[j - 1]);
    }
  }

  /** One drone of the composition, when the whole of it succeeds. */
  lemma ShapeStep(obs: seq<Observation>, actions: seq<int>, total: int, rewards: map<nat, int>, j: nat)
    requires 0 < j <= |actions| && ShapeRewards(obs, actions, total, rewards, j).Ok?
    ensures ShapeRewards(obs, actions, total, rewards, j - 1).Ok? && ShapingOf(obs, actions, j - 1).Ok?
    ensures var rp := ShapeRewards(obs, actions, total, rewards, j - 1).value;
            var sk := ShapingOf(obs, actions, j - 1).value;
            (sk == 0 ==> j - 1 in rewards) &&
            ShapeRewards(obs, actions, total, rewards, j).value ==
              Shaped(rp.total + (if sk != 0 then sk else 0), rp.rewards + [if sk != 0 then sk else rewards[j - 1]])
  {
  }

  /** The step's per-drone rewards for drones 0..j-1 that a nonzero shaping replaced. */
  function Replaced(rewards: map<nat, int>, s: seq<int>, j: nat): int
    requires j <= |s|
  {
    if j == 0 then 0
    else Replaced(rewards, s, j - 1) + (if s[j - 1] != 0 && j - 1 in rewards then rewards[j - 1] else 0)
  }

  /**
   * When the step's total is the sum of the drones' rewards, the returned total exceeds the sum of the
   * new per-drone rewards by the rewards the shaping replaced: those stay counted in the total.
   */
  lemma {:induction false} TotalKeepsReplaced(obs: seq<Observation>, actions: seq<int>, total: int,
                                              rewards: map<nat, int>, j: nat)
    requires j <= |actions| && ShapeRewards(obs, actions, total, rewards, j).Ok?
    ensures Shapings(obs, actions, j).Ok?
    ensures var r := ShapeRewards(obs, actions, total, rewards, j).value;
            var s := Shapings(obs, actions, j).value;
            r.total - total == Sum(r.rewards) - SumRewards(rewards, j) + Replaced(rewards, s, j)
  {
    ShapeRewardsValues(obs, actions, total, rewards, j);
    ShapeRewardsRaises(obs, actions, total, rewards, j);
    if j > 0 {
      ShapeRewardsValues(obs, actions, total, rewards, j - 1);
      TotalKeepsReplaced(obs, actions, total, rewards, j - 1);
      var r := ShapeRewards(obs, actions, total, rewards, j).value;
      var prev := ShapeRewards(obs, actions, total, rewards, j - 1).value;
      var s := Shapings(obs, actions, j).value;
      var sp := Shapings(obs, actions, j - 1).value;
      assert s[..j - 1] == sp;
      assert r.rewards[..j - 1] == prev.rewards;
      assert Replaced(rewards, s, j - 1) == Replaced(rewards, sp, j - 1) by {
        ReplacedPrefix(rewards, s, sp, j - 1);
      }
    }
  }

  lemma {:induction false} ReplacedPrefix(rewards: map<nat, int>, s: seq<int>, s': seq<int>, j: nat)
    requires j <= |s| && j <= |s'| && s[..j] == s'[..j]
    ensures Replaced(rewards, s, j) == Replaced(rewards, s', j)
  {
    if j > 0 {
      assert s[..j - 1] == s[..j][..j - 1];
      assert s'[..j - 1] == s'[..j][..j - 1];
      assert s[j - 1] == s[..j][j - 1];
      assert s'[j - 1] == s'[..j][j - 1];
      ReplacedPrefix(rewards, s, s', j - 1);
    }
  }

  /** Once a drone raises, the drones after it are not looked at. */
  lemma {:induction false} ShapeErrorStops(obs: seq<Observation>, actions: seq<int>, total: int,
                                           rewards: map<nat, int>, j: nat, m: nat)
    requires j <= m <= |actions| && ShapeRewards(obs, actions, total, rewards, j).Err?
    ensures ShapeRewards(obs, actions, total, rewards, m) == ShapeRewards(obs, actions, total, rewards, j)
    decreases m
  {
    if m > j {
      ShapeErrorStops(obs, actions, total, rewards, j, m - 1);
    }
  }

  /** The composition one drone further, from its state so far. */
  lemma ShapeNext(obs: seq<Observation>, actions: seq<int>, total: int, rewards: map<nat, int>, k: nat,
                  reward: int, newRewards: seq<int>)
    requires k < |actions| && ShapeRewards(obs, actions, total, rewards, k) == Ok(Shaped(reward, newRewards))
    ensures var s := ShapingOf(obs, actions, k);
            ShapeRewards(obs, actions, total, rewards, k + 1) ==
              if s.Err? then Err(s.error)
              else if s.value != 0 then Ok(Shaped(reward + s.value, newRewards + [s.value]))
              else if k !in rewards then Err(MissingReward(k))
              else Ok(Shaped(reward, newRewards + [rewards[k]]))
  {
  }

  /** get_reward_enhanced's loop over the drones in the actions dict's order (drone 0 first). */
  method GetRewardEnhanced(obs: seq<Observation>, actions: seq<int>, total: int, rewards: map<nat, int>)
    returns (r: Result<Shaped, TrainError>)
    ensures r == ShapeRewards(obs, actions, total, rewards, |actions|)
  {
    var reward := total;
    var newRewards: seq<int> := [];
    var k := 0;
    while k < |actions|
      invariant 0 <= k <= |actions|
      invariant ShapeRewards(obs, actions, total, rewards, k) == Ok(Shaped(reward, newRewards))
    {
      ShapeNext(obs, actions, total, rewards, k, reward, newRewards);
      if k >= |obs| {
        ShapeErrorStops(obs, actions, total, rewards, k + 1, |actions|);
        return Err(MissingObservation);
      }
      var o := obs[k];
      var shaping := EnhanceReward(o.cell, o.matrix, actions[k]);
      if shaping.Err? {
        ShapeErrorStops(obs, actions, total, rewards, k + 1, |actions|);
        return Err(shaping.error);
      }
      var s := shaping.value;
      if s == 0 && k !in rewards {
        ShapeErrorStops(obs, actions, total, rewards, k + 1, |actions|);
        return Err(MissingReward(k));
      }
      newRewards := newRewards + [if s != 0 then s else rewards[k]];
      reward := reward + (if s != 0 then s else 0);
      k := k + 1;
    }
    return Ok(Shaped(reward, newRewards));
  }

  // ---------------------------------------------------------------------
  // Discounted returns (train, the block after each episode)
  // ---------------------------------------------------------------------

  function Pow(y: real, k: nat): real
  {
    if k == 0 then 1.0 else y * Pow(y, k - 1)
  }

  /** The sum of y^k * rs[k] over k < j, in the order Python's sum adds them. */
  function PowerSum(rs: seq<int>, y: real, j: nat): real
    requires j <= |rs|
  {
    if j == 0 then 0.0 else PowerSum(rs, y, j - 1) + Pow(y, j - 1) * rs[j - 1] as real
  }

  function Discounted(rs: seq<int>, y: real): real
  {
    PowerSum(rs, y, |rs|)
  }

  /** Drone d's reward at every step of the episode. */
  function Column(rewards: seq<seq<int>>, d: nat): (c: seq<int>)
    requires forall t :: 0 <= t < |rewards| ==> d < |rewards[t]|
    ensures |c| == |rewards| && forall t :: 0 <= t < |rewards| ==> c[t] == rewards[t][d]
  {
    seq(|rewards|, t requires 0 <= t < |rewards| => rewards[t][d])
  }

  /** Every step's reward row has an entry for each of the n drones. */
  predicate Table(rewards: seq<seq<int>>, n: nat)
  {
    forall t :: 0 <= t < |rewards| ==> n <= |rewards[t]|
  }

  /** The return of drone d from step t on: its own rewards from t, discounted by y per step. */
  function Return(rewards: seq<seq<int>>, n: nat, t: nat, d: nat, y: real): real
    requires Table(rewards, n) && t <= |rewards| && d < n
  {
    Discounted(Column(rewards, d)[t..], y)
  }

  /** The returns of every step for every drone, computed with the nested loops of train. */
  method DiscountedReturns(rewards: seq<seq<int>>, n: nat, y: real) returns (g: seq<seq<real>>)
    requires Table(rewards, n)
    ensures |g| == |rewards|
    ensures forall t :: 0 <= t < |rewards| ==> |g[t]| == n && forall d :: 0 <= d < n ==> g[t][d] == Return(rewards, n, t, d, y)
  {
    g := [];
    var t := 0;
    while t < |rewards|
      invariant 0 <= t <= |rewards| && |g| == t
      invariant forall u :: 0 <= u < t ==> |g[u]| == n && forall d :: 0 <= d < n ==> g[u][d] == Return(rewards, n, u, d, y)
    {
      var row: seq<real> := [];
      var d := 0;
      while d < n
        invariant 0 <= d <= n && |row| == d
        invariant forall e :: 0 <= e < d ==> row[e] == Return(rewards, n, t, e, y)
      {
        var agentRewards := Column(rewards, d);
        var ret := SuffixSum(agentRewards[t..], y);
        row := row + [ret];
        d := d + 1;
      }
      g := g + [row];
      t := t + 1;
    }
  }

  /** The generator expression's sum: y^k * rs[k] added for k = 0, 1, ... */
  method SuffixSum(rs: seq<int>, y: real) returns (s: real)
    ensures s == Discounted(rs, y)
  {
    s := 0.0;
    var power := 1.0;
    var k := 0;
    while k < |rs|
      invariant 0 <= k <= |rs| && power == Pow(y, k) && s == PowerSum(rs, y, k)
    {
      s := s + power * rs[k] as real;
      power := power * y;
      k := k + 1;
    }
  }

  /** Peeling off the first reward: the sum of y^k * rs[k] is rs[0] plus y times the sum over the rest. */
  lemma {:induction false} PowerSumHead(rs: seq<int>, y: real, j: nat)
    requires 1 <= j <= |rs|
    ensures PowerSum(rs, y, j) == rs[0] as real + y * PowerSum(rs[1..], y, j - 1)
  {
    if j > 1 {
      PowerSumHead(rs, y, j - 1);
      var a := PowerSum(rs[1..], y, j - 2);
      var b := Pow(y, j - 2) * rs[j - 1] as real;
      assert rs[1..][j - 2] == rs[j - 1];
      assert PowerSum(rs[1..], y, j - 1) == a + b;
      assert Pow(y, j - 1) * rs[j - 1] as real == y * b;
      assert PowerSum(rs, y, j) == rs[0] as real + y * a + y * b;
    }
  }

  /** The return recurrence: G[t] = r[t] + y * G[t+1], and the last step's return is its reward. */
  lemma ReturnRecurrence(rewards: seq<seq<int>>, n: nat, t: nat, d: nat, y: real)
    requires Table(rewards, n) && t < |rewards| && d < n
    ensures t + 1 < |rewards| ==>
              Return(rewards, n, t, d, y) == rewards[t][d] as real + y * Return(rewards, n, t + 1, d, y)
    ensures t + 1 == |rewards| ==> Return(rewards, n, t, d, y) == rewards[t][d] as real
  {
    var c := Column(rewards, d);
    PowerSumHead(c[t..], y, |c| - t);
    assert c[t..][1..] == c[t + 1..];
    if t + 1 == |rewards| {
      assert PowerSum(c[t + 1..], y, 0) == 0.0;
    }
  }

  /** Without discounting the return is the plain sum of the remaining rewards. */
  lemma {:induction false} UndiscountedIsSum(rs: seq<int>, j: nat)
    requires j <= |rs|
    ensures PowerSum(rs, 1.0, j) == Sum(rs[..j]) as real
  {
    if j > 0 {
      UndiscountedIsSum(rs, j - 1);
      PowOne(j - 1);
      assert rs[..j][..j - 1] == rs[..j - 1];
    }
  }

  lemma {:induction false} PowOne(k: nat)
    ensures Pow(1.0, k) == 1.0
  {
    if k > 0 {
      PowOne(k - 1);
    }
  }

  /** With y = 1, G[t][d] is the sum of drone d's rewards from step t to the end. */
  lemma UndiscountedReturn(rewards: seq<seq<int>>, n: nat, t: nat, d: nat)
    requires Table(rewards, n) && t <= |rewards| && d < n
    ensures Return(rewards, n, t, d, 1.0) == Sum(Column(rewards, d)[t..]) as real
  {
    var rs := Column(rewards, d)[t..];
    UndiscountedIsSum(rs, |rs|);
    assert rs[..|rs|] == rs;
  }

  // ---------------------------------------------------------------------
  // The episode's end and the early stop
  // ---------------------------------------------------------------------

  /** `any(done.values())`: some drone is done. */
  predicate AnyDone(flags: map<nat, bool>)
  {
    exists k :: k in flags && flags[k]
  }

  /**
   * One episode's `while not done` loop, fed the truncations dict and the shaped total of each step the
   * environment would return; it runs up to the first step with a done drone (or to the end of the input).
   */
  method Rollout(stepFlags: seq<map<nat, bool>>, stepTotals: seq<int>, n: nat)
    returns (steps: nat, countActions: int, totalReward: int, ended: bool)
    requires |stepTotals| == |stepFlags|
    ensures steps <= |stepFlags| && countActions == n * steps && totalReward == Sum(stepTotals[..steps])
    ensures forall k :: 0 <= k < steps - 1 ==> !AnyDone(stepFlags[k])
    ensures ended <==> steps > 0 && AnyDone(stepFlags[steps - 1])
    ensures !ended ==> steps == |stepFlags|
  {
    steps, countActions, totalReward, ended := 0, 0, 0, false;
    while !ended && steps < |stepFlags|
      invariant steps <= |stepFlags| && countActions == n * steps && totalReward == Sum(stepTotals[..steps])
      invariant forall k :: 0 <= k < steps - 1 ==> !AnyDone(stepFlags[k])
      invariant ended <==> steps > 0 && AnyDone(stepFlags[steps - 1])
      decreases |stepFlags| - steps, if ended then 0 else 1
    {
      assert stepTotals[..steps + 1][..steps] == stepTotals[..steps];
      countActions := countActions + n;
      totalReward := totalReward + stepTotals[steps];
      ended := AnyDone(stepFlags[steps]);
      steps := steps + 1;
    }
  }

  const STOP_WINDOW := 20
  const STOP_MIN_EPISODES := 100
  const STOP_THRESHOLD := 100000

  /** The early-stop rule over the recorded episode totals. */
  predicate ShouldStop(history: seq<int>)
  {
    |history| > STOP_MIN_EPISODES &&
    forall k :: |history| - STOP_WINDOW <= k < |history| ==> history[k] >= STOP_THRESHOLD
  }

  /** How many episodes run within a budget, given each episode's total: the loop stops after the first stopping episode. */
  function EpisodesRun(totals: seq<int>, budget: nat): (r: nat)
    requires budget <= |totals|
    ensures r <= budget
  {
    if budget == 0 then 0
    else
      var prev := EpisodesRun(totals, budget - 1);
      if prev < budget - 1 then prev
      else if ShouldStop(totals[..budget - 1]) then budget - 1
      else budget
  }

  /** The episode loop of train: episodes 0..episodes, unless the early stop breaks it. */
  method RunEpisodes(totals: seq<int>, episodes: int) returns (run: nat)
    requires episodes + 1 <= |totals|
    ensures run == EpisodesRun(totals, if episodes < 0 then 0 else episodes + 1)
  {
    var budget := if episodes < 0 then 0 else episodes + 1;
    var allRewards: seq<int> := [];
    var stop := false;
    var i := 0;
    while i < budget
      invariant 0 <= i <= budget && allRewards == totals[..i]
      invariant stop == ShouldStop(allRewards)
      invariant stop ==> EpisodesRun(totals, budget) == i
      invariant !stop ==> EpisodesRun(totals, i) == i
    {
      if stop {
        break;
      }
      allRewards := allRewards + [totals[i]];
      assert allRewards == totals[..i + 1];
      stop := ShouldStop(allRewards);
      if stop {
        RunsStay(totals, i + 1, budget);
      }
      i := i + 1;
    }
    run := i;
  }

  /** Once the loop has stopped, a larger budget runs no more episodes. */
  lemma {:induction false} RunsStay(totals: seq<int>, stopAt: nat, budget: nat)
    requires 0 < stopAt <= budget <= |totals|
    requires EpisodesRun(totals, stopAt) == stopAt && ShouldStop(totals[..stopAt])
    ensures EpisodesRun(totals, budget) == stopAt
  {
    if budget > stopAt {
      RunsStay(totals, stopAt, budget - 1);
    }
  }

  /** Training never stops before 101 episodes, and stops early only after 20 totals of at least 100000. */
  lemma {:induction false} EarlyStopMeaning(totals: seq<int>, budget: nat)
    requires budget <= |totals|
    ensures EpisodesRun(totals, budget) >= (if budget < 101 then budget else 101)
    ensures var r := EpisodesRun(totals, budget);
            r < budget ==> r > STOP_MIN_EPISODES && forall k :: r - STOP_WINDOW <= k < r ==> totals[k] >= STOP_THRESHOLD
  {
    if budget > 0 {
      EarlyStopMeaning(totals, budget - 1);
      var prev := EpisodesRun(totals, budget - 1);
      if prev == budget - 1 && ShouldStop(totals[..budget - 1]) {
        forall k | prev - STOP_WINDOW <= k < prev
          ensures totals[k] >= STOP_THRESHOLD
        {
          assert totals[..budget - 1][k] == totals[k];
        }
      }
    }
  }

  /**
   * The loop stops exactly at the first stopping point: the number of episodes run is the first k whose
   * recorded totals satisfy the stop rule, or the whole budget when no k before it does.
   */
  lemma {:induction false} EpisodesRunIsFirstStop(totals: seq<int>, budget: nat)
    requires budget <= |totals|
    ensures var r := EpisodesRun(totals, budget);
            (r == budget || ShouldStop(totals[..r])) && forall k :: 0 <= k < r ==> !ShouldStop(totals[..k])
  {
    if budget > 0 {
      EpisodesRunIsFirstStop(totals, budget - 1);
    }
  }

  /** Once the rule holds after episode k, within the budget, training runs no more than k episodes. */
  lemma StopsWhenDue(totals: seq<int>, budget: nat, k: nat)
    requires k < budget <= |totals| && ShouldStop(totals[..k])
    ensures EpisodesRun(totals, budget) <= k
  {
    EpisodesRunIsFirstStop(totals, budget);
  }
}
