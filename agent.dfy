/** FootballAgent.cs: the learning agent of one team. The ML-Agents base
    class is reduced to what the agent hands it: the observation buffer
    (`observations`, AddVectorObs), the reward accumulator (`reward`,
    AddReward) and the text observations (SetTextObs). */
module Agent {
  import opened Geometry
  import opened Util
  import opened Timers
  import opened Stats
  import opened Events
  import opened BallController
  import opened Rods
  import opened Teams

  /** GhostTrainerMatchState. */
  datatype MatchState = Win | Loss | Play

  function MatchStateText(m: MatchState): string
  {
    match m
    case Win => "win"
    case Loss => "loss"
    case Play => "play"
  }

  /** The text observation "<opponent id>|<match state>". */
  datatype TextObs = TextObs(opponentId: int, state: MatchState)

  /** Inspector defaults of the reward parameters. */
  const DefaultGoalScoredReward: real := 1.0
  const DefaultGoalConcededPenalty: real := 1.0
  const DefaultShotRewardMultiplier: real := 0.1
  const DefaultMaxSpinPenalty: real := 0.01

  /** The inspector ranges of the reward parameters. */
  predicate ParametersInRange(goalScored: real, goalConceded: real, shotMultiplier: real, maxSpin: real)
  {
    0.0 <= goalScored <= 1.0 && 0.0 <= goalConceded <= 1.0 &&
    0.0 <= shotMultiplier <= 0.25 && 0.0 <= maxSpin <= 0.1
  }

  lemma DefaultsInRange()
    ensures ParametersInRange(DefaultGoalScoredReward, DefaultGoalConcededPenalty,
                              DefaultShotRewardMultiplier, DefaultMaxSpinPenalty)
  {
  }

  // ---------------------------------------------------------------------
  // Observation layout

  /** A horizontal coordinate as the agent's team sees it: multiplied by
      the team sign, so that both teams play towards positive z. */
  function Mirror(sign: real, x: real): real
  {
    x * sign
  }

  /** The ball's normalised readings: the 2D ones and the 3D ones. */
  datatype BallReading = BallReading(vel2: Vec2, pos2: Vec2, vel3: Vec2, pos3: Vec3)

  /** The ball part of the observation vector, mirrored by the team sign.
      In 3D mode the velocity is the Vector2 widened back to a Vector3, so
      its third entry is 0. */
  function BallObs(use2D: bool, sign: real, b: BallReading): (r: seq<real>)
    ensures |r| == if use2D then 10 else 12
    ensures use2D ==> r[0] == Mirror(sign, b.vel2.x) && r[1] == Mirror(sign, b.vel2.y)
    ensures use2D ==> r[2..6] == DecimalPlaces(Mirror(sign, b.pos2.x), 4) &&
                      r[6..] == DecimalPlaces(Mirror(sign, b.pos2.y), 4)
    ensures !use2D ==> r[0] == Mirror(sign, b.vel3.x) && r[1] == b.vel3.y && r[2] == 0.0
    ensures !use2D ==> r[3..7] == DecimalPlaces(Mirror(sign, b.pos3.x), 4) && r[7] == b.pos3.y &&
                       r[8..] == DecimalPlaces(Mirror(sign, b.pos3.z), 4)
  {
    if use2D then
      [Mirror(sign, b.vel2.x), Mirror(sign, b.vel2.y)] +
      DecimalPlaces(Mirror(sign, b.pos2.x), 4) + DecimalPlaces(Mirror(sign, b.pos2.y), 4)
    else
      var nv := To3(b.vel3);
      [Mirror(sign, nv.x), nv.y, Mirror(sign, nv.z)] +
      DecimalPlaces(Mirror(sign, b.pos3.x), 4) + [b.pos3.y] + DecimalPlaces(Mirror(sign, b.pos3.z), 4)
  }

  /** What an own rod contributes: velocity, spin, and the position and the
      angle split into three decimal places each. */
  function OwnRodObs(s: RodState): (r: seq<real>)
    requires s.limit != 0.0
    ensures |r| == 8
    ensures r[0] == NormVelocity(s.velocity.x, s.sign) && r[1] == NormAngularVelocity(s.angularVelocity.x, s.sign)
    ensures r[2..5] == DecimalPlaces(NormPosition(s.localPosition.x, s.limit), 3)
    ensures r[5..] == DecimalPlaces(NormAngle(s.signedAngle, s.sign), 3)
  {
    [NormVelocity(s.velocity.x, s.sign), NormAngularVelocity(s.angularVelocity.x, s.sign)] +
    DecimalPlaces(NormPosition(s.localPosition.x, s.limit), 3) +
    DecimalPlaces(NormAngle(s.signedAngle, s.sign), 3)
  }

  predicate Limited(ss: seq<RodState>)
  {
    forall k :: 0 <= k < |ss| ==> ss[k].limit != 0.0
  }

  function OwnObs(ss: seq<RodState>): seq<real>
    requires Limited(ss)
  {
    if ss == [] then [] else OwnObs(ss[..|ss| - 1]) + OwnRodObs(ss[|ss| - 1])
  }

  /** The spin sum: the absolute spin observations of the own rods. */
  function SpinSum(ss: seq<RodState>): real
  {
    if ss == [] then 0.0
    else SpinSum(ss[..|ss| - 1]) + Abs(NormAngularVelocity(ss[|ss| - 1].angularVelocity.x, ss[|ss| - 1].sign))
  }

  /** CollectObservations' vector: ball, own rods, opponent rods. */
  function ObservationVector(use2D: bool, sign: real, b: BallReading,
                             own: seq<RodState>, opp: seq<RodState>): seq<real>
    requires Limited(own) && Limited(opp)
  {
    BallObs(use2D, sign, b) + OwnObs(own) + TeamObs(opp)
  }

  lemma {:induction false} OwnObsLayout(ss: seq<RodState>)
    requires Limited(ss)
    ensures |OwnObs(ss)| == 8 * |ss|
    ensures forall k :: 0 <= k < |ss| ==> OwnObs(ss)[8 * k..8 * k + 8] == OwnRodObs(ss[k])
  {
    if ss != [] {
      var init := ss[..|ss| - 1];
      OwnObsLayout(init);
      var prev := OwnObs(init);
      assert OwnObs(ss) == prev + OwnRodObs(ss[|ss| - 1]);
      forall k | 0 <= k < |ss|
        ensures OwnObs(ss)[8 * k..8 * k + 8] == OwnRodObs(ss[k])
      {
        if k < |ss| - 1 {
          assert OwnObs(ss)[8 * k..8 * k + 8] == prev[8 * k..8 * k + 8];
          assert init[k] == ss[k];
        }
      }
    }
  }

  lemma OwnRodObsParts(s: RodState, v: real, spin: real, pos: seq<real>, angle: seq<real>)
    requires s.limit != 0.0
    requires v == NormVelocity(s.velocity.x, s.sign) && spin == NormAngularVelocity(s.angularVelocity.x, s.sign)
    requires pos == DecimalPlaces(NormPosition(s.localPosition.x, s.limit), 3)
    requires angle == DecimalPlaces(NormAngle(s.signedAngle, s.sign), 3)
    ensures [v, spin] + pos + angle == OwnRodObs(s)
  {
  }

  lemma OwnObsSnoc(ss: seq<RodState>, s: RodState)
    requires Limited(ss) && s.limit != 0.0
    ensures Limited(ss + [s]) && OwnObs(ss + [s]) == OwnObs(ss) + OwnRodObs(s)
  {
    assert (ss + [s])[..|ss|] == ss;
  }

  lemma SpinSumSnoc(ss: seq<RodState>, s: RodState)
    ensures SpinSum(ss + [s]) == SpinSum(ss) + Abs(NormAngularVelocity(s.angularVelocity.x, s.sign))
  {
    assert (ss + [s])[..|ss|] == ss;
  }

  /** The vector's length; with four rods a side it is 58 in 2D mode and 60
      in 3D mode. */
  lemma ObservationLength(use2D: bool, sign: real, b: BallReading, own: seq<RodState>, opp: seq<RodState>)
    requires Limited(own) && Limited(opp)
    ensures |ObservationVector(use2D, sign, b, own, opp)| == (if use2D then 10 else 12) + 8 * |own| + 4 * |opp|
    ensures |own| == 4 && |opp| == 4 ==> |ObservationVector(use2D, sign, b, own, opp)| == if use2D then 58 else 60
  {
    OwnObsLayout(own);
    TeamObsLayout(opp);
  }

  /** In 3D mode the third ball-velocity entry is always 0, and the height
      entry is not mirrored. */
  lemma ThreeDVelocityLosesZ(sign: real, b: BallReading, own: seq<RodState>, opp: seq<RodState>)
    requires Limited(own) && Limited(opp)
    ensures ObservationVector(false, sign, b, own, opp)[2] == 0.0
    ensures ObservationVector(false, sign, b, own, opp)[7] == b.pos3.y
  {
    var v := ObservationVector(false, sign, b, own, opp);
    assert v[..12] == BallObs(false, sign, b);
  }

  lemma {:induction false} SpinSumBounds(ss: seq<RodState>)
    requires forall k :: 0 <= k < |ss| ==>
               -1.0 <= NormAngularVelocity(ss[k].angularVelocity.x, ss[k].sign) <= 1.0
    ensures 0.0 <= SpinSum(ss) <= |ss| as real
  {
    if ss != [] {
      SpinSumBounds(ss[..|ss| - 1]);
    }
  }

  // ---------------------------------------------------------------------
  // Reward arithmetic

  /** AddSpinPenalty's penalty; 0.25 spreads it over four rods. */
  function SpinPenaltyValue(maxSpin: real, spinSum: real): (r: real)
    ensures 0.0 <= maxSpin && 0.0 <= spinSum <= 4.0 ==> 0.0 <= r <= maxSpin
  {
    PenaltyWithin(maxSpin, spinSum);
    maxSpin * spinSum * 0.25
  }

  lemma PenaltyWithin(maxSpin: real, spinSum: real)
    ensures 0.0 <= maxSpin && 0.0 <= spinSum <= 4.0 ==> 0.0 <= maxSpin * spinSum * 0.25 <= maxSpin
  {
    if 0.0 <= maxSpin && 0.0 <= spinSum <= 4.0 {
      MulMonotone(maxSpin, spinSum, 4.0);
      assert 0.0 <= maxSpin * spinSum;
    }
  }

  /** With four rods spinning at most at the normalised maximum, the recorded
      value -penalty lies in [-maxSpinPenalty, 0]. */
  lemma SpinPenaltyBound(maxSpin: real, ss: seq<RodState>)
    requires maxSpin >= 0.0 && |ss| == 4
    requires forall k :: 0 <= k < |ss| ==>
               -1.0 <= NormAngularVelocity(ss[k].angularVelocity.x, ss[k].sign) <= 1.0
    ensures -maxSpin <= -SpinPenaltyValue(maxSpin, SpinSum(ss)) <= 0.0
  {
    SpinSumBounds(ss);
    var t := SpinSum(ss);
    assert maxSpin * t <= maxSpin * 4.0;
  }

  /** AddShotReward's reward: the ball velocity's component towards the
      opponent goal, scaled; `len` is the magnitude of `toGoal`. */
  function ShotRewardValue(multiplier: real, toGoal: Vec3, len: real, v: Vec3): (r: real)
    requires len >= 0.0 && len * len == SqMagnitude(toGoal)
    ensures len > NormalizeEpsilon ==> r * len == multiplier * Dot(toGoal, v)
    ensures len <= NormalizeEpsilon ==> r == 0.0
  {
    if len > NormalizeEpsilon then
      DotScaleLeft(1.0 / len, toGoal, v);
      InverseScaled(multiplier, Dot(toGoal, v), len);
      multiplier * Dot(Normalized(toGoal, len), v)
    else
      multiplier * Dot(Normalized(toGoal, len), v)
  }

  lemma InverseScaled(k: real, d: real, len: real)
    requires len > 0.0
    ensures k * ((1.0 / len) * d) * len == k * d
  {
    assert (1.0 / len) * len == 1.0;
  }

  /** The shot reward never exceeds multiplier * speed in magnitude, and for
      a positive multiplier it is positive exactly when the ball moves
      towards the goal. */
  lemma ShotRewardLaw(multiplier: real, toGoal: Vec3, len: real, v: Vec3)
    requires len >= 0.0 && len * len == SqMagnitude(toGoal)
    ensures var r := ShotRewardValue(multiplier, toGoal, len, v);
            r * r <= multiplier * multiplier * SqMagnitude(v)
    ensures multiplier > 0.0 && len > NormalizeEpsilon ==>
              (ShotRewardValue(multiplier, toGoal, len, v) > 0.0 <==> Dot(toGoal, v) > 0.0)
  {
    var u := Normalized(toGoal, len);
    var d := Dot(u, v);
    DotSquaredBound(u, v);
    SqMagnitudeNonNegative(v);
    if len > NormalizeEpsilon {
      assert SqMagnitude(u) == 1.0;
      DotScaleLeft(1.0 / len, toGoal, v);
      assert d == Dot(toGoal, v) / len;
    } else {
      assert d == 0.0;
    }
    assert d * d <= SqMagnitude(v);
    assert (multiplier * d) * (multiplier * d) == (multiplier * multiplier) * (d * d);
    MulMonotone(multiplier * multiplier, d * d, SqMagnitude(v));
  }

  lemma MulMonotone(k: real, a: real, b: real)
    requires k >= 0.0 && a <= b
    ensures k * a <= k * b
  {
  }

  /** OnGoal's reward: the scored reward, or the conceded penalty negated. */
  function GoalReward(hasScored: bool, goalScored: real, goalConceded: real): (r: real)
    requires goalScored >= 0.0 && goalConceded >= 0.0
    ensures hasScored ==> r >= 0.0
    ensures !hasScored ==> r <= 0.0
    ensures -1.0 <= r <= 1.0 <== goalScored <= 1.0 && goalConceded <= 1.0
  {
    if hasScored then goalScored else -goalConceded
  }

  /** The entry the reward queue of shots receives in a step. */
  function ShotEntry(hasBall: bool, multiplier: real, toGoal: Vec3, len: real, v: Vec3): real
    requires len >= 0.0 && len * len == SqMagnitude(toGoal)
  {
    if hasBall then ShotRewardValue(multiplier, toGoal, len, v) else 0.0
  }

  /** The loop body of CollectObservations for one own rod: its eight
      observations and its spin observation. */
  method ObserveOwnRod(pp: PlayerPosition) returns (rod: seq<real>, spin: real)
    requires pp.limit != 0.0
    ensures rod == OwnRodObs(pp.State())
    ensures spin == NormAngularVelocity(pp.State().angularVelocity.x, pp.State().sign)
  {
    var v := pp.GetNormalizedVelocity();
    spin := pp.GetNormalizedAngularVelocity();
    var pos := SplitDecimalPlaces(pp.GetNormalizedPosition(), 3);
    var angle := SplitDecimalPlaces(pp.GetNormalizedAngle(), 3);
    rod := [v, spin] + pos + angle;
    OwnRodObsParts(pp.State(), v, spin, pos, angle);
  }

  /** CollectObservations' loop over the own rods: their observations rod
      by rod, and the sum of their absolute spin observations. */
  method ObserveOwnRods(ps: seq<PlayerPosition>) returns (obs: seq<real>, spinSum: real)
    requires Limited(StatesOf(ps))
    ensures obs == OwnObs(StatesOf(ps)) && spinSum == SpinSum(StatesOf(ps))
  {
    assert forall k :: 0 <= k < |ps| ==> ps[k].limit != 0.0 by {
      forall k | 0 <= k < |ps| ensures ps[k].limit != 0.0 {
        assert StatesOf(ps)[k] == ps[k].State();
      }
    }
    spinSum := 0.0;
    obs := [];
    ghost var done: seq<RodState> := [];
    for i := 0 to |ps|
      invariant |done| == i && forall k :: 0 <= k < i ==> done[k] == ps[k].State()
      invariant Limited(done)
      invariant obs == OwnObs(done) && spinSum == SpinSum(done)
    {
      var pp := ps[i];
      var rod, spin := ObserveOwnRod(pp);
      OwnObsSnoc(done, pp.State());
      SpinSumSnoc(done, pp.State());
      spinSum := spinSum + Abs(spin);
      obs := obs + rod;
      done := done + [pp.State()];
    }
    assert done == StatesOf(ps);
  }

  /** The reward queues after CollectObservations: the shot entry queued
    when the shot reward is on, then the negated spin penalty when the spin
    penalty is on. */
  function Rewarded(q: seq<seq<real>>, useShot: bool, shot: real, useSpin: bool, penalty: real): (r: seq<seq<real>>)
    requires |q| == NumRewardTypes && forall i :: 0 <= i < |q| ==> |q[i]| <= QueueSize
    ensures |r| == NumRewardTypes
    ensures r[ShotReward] == if useShot then Enqueued(q[ShotReward], shot) else q[ShotReward]
    ensures r[SpinPenalty] == if useSpin then Enqueued(q[SpinPenalty], -penalty) else q[SpinPenalty]
  {
    var q1 := if useShot then q[ShotReward := Enqueued(q[ShotReward], shot)] else q;
    if useSpin then q1[SpinPenalty := Enqueued(q1[SpinPenalty], -penalty)] else q1
  }

  /** What CollectObservations adds to the agent's reward. */
  function RewardDelta(useShot: bool, shot: real, useSpin: bool, penalty: real): real
  {
    (if useShot then shot else 0.0) + (if useSpin then -penalty else 0.0)
  }

  class FootballAgent {
    const id: int
    const agentTeam: Team
    const opponentTeam: Team
    const ball: Ball
    const use2DBallObs: bool
    const goalScoredReward: real
    const goalConcededPenalty: real
    const shotRewardMultiplier: real
    const maxSpinPenalty: real
    /** The opponent agent's id when a ghost-trainer opponent is assigned. */
    const opponentAgentId: Option<int>

    var stats: AgentStats?
    var gameCount: int
    var useShotReward: bool
    var useSpinPenalty: bool
    var useGhostTrainer: bool
    var matchState: MatchState
    var observations: seq<real>
    var textObs: seq<TextObs>
    var reward: real

    ghost predicate Valid()
      reads this, stats, agentTeam, opponentTeam
      reads if stats != null then {stats.rewardQueues} else {}
    {
      stats != null && stats.Valid() && agentTeam.Valid() && opponentTeam.Valid() &&
      (useGhostTrainer ==> opponentAgentId.Some?) &&
      ParametersInRange(goalScoredReward, goalConcededPenalty, shotRewardMultiplier, maxSpinPenalty)
    }

    ghost function StatsRepr(): set<object>
      reads this, stats
      requires stats != null
    {
      {stats, stats.gameTimer, stats.ballTimer, stats.rewardQueues}
    }

    constructor (id: int, agentTeam: Team, opponentTeam: Team, ball: Ball, use2DBallObs: bool,
                 goalScoredReward: real, goalConcededPenalty: real,
                 shotRewardMultiplier: real, maxSpinPenalty: real, opponentAgentId: Option<int>)
      requires ParametersInRange(goalScoredReward, goalConcededPenalty, shotRewardMultiplier, maxSpinPenalty)
      ensures this.id == id && this.agentTeam == agentTeam && this.opponentTeam == opponentTeam
      ensures this.ball == ball && this.use2DBallObs == use2DBallObs
      ensures this.goalScoredReward == goalScoredReward && this.goalConcededPenalty == goalConcededPenalty
      ensures this.shotRewardMultiplier == shotRewardMultiplier && this.maxSpinPenalty == maxSpinPenalty
      ensures this.opponentAgentId == opponentAgentId
      ensures stats == null && gameCount == 0 && observations == [] && textObs == [] && reward == 0.0
      ensures !useShotReward && !useSpinPenalty && !useGhostTrainer && matchState == Play
    {
      this.id, this.agentTeam, this.opponentTeam, this.ball := id, agentTeam, opponentTeam, ball;
      this.use2DBallObs := use2DBallObs;
      this.goalScoredReward, this.goalConcededPenalty := goalScoredReward, goalConcededPenalty;
      this.shotRewardMultiplier, this.maxSpinPenalty := shotRewardMultiplier, maxSpinPenalty;
      this.opponentAgentId := opponentAgentId;
      stats := null;
      gameCount := 0;
      useShotReward, useSpinPenalty, useGhostTrainer := false, false, false;
      matchState := Play;
      observations, textObs, reward := [], [], 0.0;
    }

    /** InitializeAgent: fresh statistics named after the team, the team
      initialised from its orientation, and the feature flags. Subscribing
      to the ball's events is HandleBallEvent below. */
    method InitializeAgent(teamName: string, eulerY: real)
      requires agentTeam.Valid() && opponentTeam.Valid()
      requires ParametersInRange(goalScoredReward, goalConcededPenalty, shotRewardMultiplier, maxSpinPenalty)
      modifies this, agentTeam, agentTeam.Rods()
      ensures Valid() && fresh(stats) && fresh(stats.gameTimer) && fresh(stats.ballTimer) && fresh(stats.rewardQueues)
      ensures stats.name == teamName && stats.Times() == Clocks(Fresh, Fresh) && stats.Queues() == [[], []]
      ensures agentTeam.sign == TeamSign(eulerY) && agentTeam.positions == old(agentTeam.positions)
      ensures forall k :: 0 <= k < |agentTeam.positions| ==>
                agentTeam.positions[k].State() ==
                  RodInitialized(old(agentTeam.positions[k].State()), agentTeam.sign, agentTeam.positions[k].jointLimit)
      ensures useShotReward <==> shotRewardMultiplier > 0.0
      ensures useSpinPenalty <==> maxSpinPenalty > 0.0
      ensures useGhostTrainer <==> opponentAgentId.Some?
      ensures gameCount == old(gameCount) && matchState == old(matchState) && reward == old(reward)
      ensures observations == old(observations) && textObs == old(textObs)
    {
      stats := new AgentStats(teamName);
      agentTeam.Initialize(eulerY);
      useShotReward := shotRewardMultiplier > 0.0;
      useSpinPenalty := maxSpinPenalty > 0.0;
      useGhostTrainer := opponentAgentId.Some?;
    }

    /** AgentReset: a new game; the team and the statistics are reset. The
      ball is reset by the academy, not here. */
    method AgentReset()
      requires Valid()
      modifies this`gameCount, this`matchState, agentTeam.Rods(), StatsRepr()
      ensures Valid() && stats == old(stats)
      ensures gameCount == old(gameCount) + 1 && matchState == Play
      ensures useShotReward == old(useShotReward) && useSpinPenalty == old(useSpinPenalty)
      ensures useGhostTrainer == old(useGhostTrainer)
      ensures forall k :: 0 <= k < |agentTeam.positions| ==>
                agentTeam.positions[k].State() == RodReset(old(agentTeam.positions[k].State()))
      ensures stats.goalsScored == 0 && stats.Queues() == [[], []]
      ensures stats.Times() == ResetClocks(old(stats.Times()))
      ensures stats.totalGoalsCount == old(stats.totalGoalsCount)
      ensures stats.totalGoalsScored == old(stats.totalGoalsScored)
      ensures reward == old(reward) && observations == old(observations) && textObs == old(textObs)
    {
      gameCount := gameCount + 1;
      agentTeam.ReSet();
      stats.Reset();
      matchState := Play;
    }

    /** AgentAction: the action vector drives the team's rods. */
    method AgentAction(vectorAction: seq<real>)
      requires Valid() && |vectorAction| >= 2 * |agentTeam.positions|
      modifies agentTeam.Rods()
      ensures forall k :: 0 <= k < |agentTeam.positions| ==>
                agentTeam.positions[k].State() ==
                  RodStepped(old(agentTeam.positions[k].State()), agentTeam.positions[k].axisX,
                             vectorAction[2 * k], vectorAction[2 * k + 1])
    {
      agentTeam.StepUpdate(vectorAction);
    }

    function Reading(): (r: BallReading)
      reads ball
      requires ball.fieldWidth > 0.0 && ball.fieldLength > 0.0
      ensures -1.0 < r.vel2.x < 1.0 && -1.0 < r.vel2.y < 1.0 && -1.0 < r.vel3.x < 1.0 && -1.0 < r.vel3.y < 1.0
      ensures r.pos2 == Vec2(r.pos3.x, r.pos3.z)
    {
      BallReading(ball.GetNormalizedVelocity2D(), ball.GetNormalizedPosition2D(),
                  ball.GetNormalizedVelocity3D(), ball.GetNormalizedPosition3D())
    }

    /** The ball part of CollectObservations. */
    method BallObservations() returns (obs: seq<real>)
      requires ball.fieldWidth > 0.0 && ball.fieldLength > 0.0
      ensures obs == BallObs(use2DBallObs, agentTeam.sign, Reading())
    {
      var sign := agentTeam.sign;
      var b := Reading();
      if use2DBallObs {
        var v := Vec2(Mirror(sign, b.vel2.x), Mirror(sign, b.vel2.y));
        var np := Vec2(Mirror(sign, b.pos2.x), Mirror(sign, b.pos2.y));
        var xs := SplitDecimalPlaces(np.x, 4);
        var ys := SplitDecimalPlaces(np.y, 4);
        obs := [v.x, v.y] + xs + ys;
      } else {
        var nv := To3(b.vel3);
        obs := [Mirror(sign, nv.x), nv.y, Mirror(sign, nv.z)];
        var np := b.pos3;
        var xs := SplitDecimalPlaces(Mirror(sign, np.x), 4);
        obs := obs + xs + [np.y];
        var zs := SplitDecimalPlaces(Mirror(sign, np.z), 4);
        obs := obs + zs;
      }
    }

    /** The observation vector CollectObservations appends, and the spin sum
      its rod loop accumulates for the spin penalty. */
    method Observe() returns (obs: seq<real>, spinSum: real)
      requires ball.fieldWidth > 0.0 && ball.fieldLength > 0.0
      requires Limited(agentTeam.States()) && Limited(opponentTeam.States())
      ensures obs == ObservationVector(use2DBallObs, agentTeam.sign, Reading(),
                                       agentTeam.States(), opponentTeam.States())
      ensures spinSum == SpinSum(agentTeam.States())
    {
      var ballObs := BallObservations();
      var ownObs, spin := ObserveOwnRods(agentTeam.positions);
      var opp := opponentTeam.GetNormalizedObs();
      obs := ballObs + ownObs + opp;
      spinSum := spin;
    }

    /** The reward part of CollectObservations: the shot reward, then the
      spin penalty, each only when enabled. */
    method AddRewards(ballWorld: Vec3, goalWorld: Vec3, toGoalLen: real, spinSum: real)
      requires Valid()
      requires toGoalLen >= 0.0 && toGoalLen * toGoalLen == SqMagnitude(Sub(goalWorld, ballWorld))
      modifies this`reward, stats.rewardQueues
      ensures Valid()
      ensures var shot := old(ShotEntry(stats.HasBall(), shotRewardMultiplier, Sub(goalWorld, ballWorld), toGoalLen, ball.velocity));
              var penalty := SpinPenaltyValue(maxSpinPenalty, spinSum);
              stats.Queues() == Rewarded(old(stats.Queues()), useShotReward, shot, useSpinPenalty, penalty) &&
              reward == old(reward) + RewardDelta(useShotReward, shot, useSpinPenalty, penalty)
    {
      if useShotReward {
        AddShotReward(ballWorld, goalWorld, toGoalLen);
      }
      if useSpinPenalty {
        AddSpinPenalty(spinSum);
      }
    }

    /** CollectObservations: ball, own rods (with split decimal places) and
      opponent rods; the opponent id and match state for a ghost trainer;
      then the shot reward and spin penalty. */
    method CollectObservations(ballWorld: Vec3, goalWorld: Vec3, toGoalLen: real)
      requires Valid()
      requires ball.fieldWidth > 0.0 && ball.fieldLength > 0.0
      requires Limited(agentTeam.States()) && Limited(opponentTeam.States())
      requires toGoalLen >= 0.0 && toGoalLen * toGoalLen == SqMagnitude(Sub(goalWorld, ballWorld))
      modifies this`observations, this`textObs, this`matchState, this`reward, stats.rewardQueues
      ensures Valid()
      ensures observations == old(observations) +
                old(ObservationVector(use2DBallObs, agentTeam.sign, Reading(), agentTeam.States(), opponentTeam.States()))
      ensures useGhostTrainer ==>
                textObs == old(textObs) + [TextObs(opponentAgentId.value, old(matchState))] && matchState == Play
      ensures !useGhostTrainer ==> textObs == old(textObs) && matchState == old(matchState)
      ensures var shot := old(ShotEntry(stats.HasBall(), shotRewardMultiplier, Sub(goalWorld, ballWorld), toGoalLen, ball.velocity));
              var penalty := old(SpinPenaltyValue(maxSpinPenalty, SpinSum(agentTeam.States())));
              stats.Queues() == Rewarded(old(stats.Queues()), useShotReward, shot, useSpinPenalty, penalty) &&
              reward == old(reward) + RewardDelta(useShotReward, shot, useSpinPenalty, penalty)
    {
      var spinSum := AppendObservations();
      AddRewards(ballWorld, goalWorld, toGoalLen, spinSum);
    }

    /** The observation part of CollectObservations: the vector, then the
      text observation for a ghost trainer; returns the spin sum. */
    method AppendObservations() returns (spinSum: real)
      requires Valid()
      requires ball.fieldWidth > 0.0 && ball.fieldLength > 0.0
      requires Limited(agentTeam.States()) && Limited(opponentTeam.States())
      modifies this`observations, this`textObs, this`matchState
      ensures Valid()
      ensures observations == old(observations) +
                old(ObservationVector(use2DBallObs, agentTeam.sign, Reading(), agentTeam.States(), opponentTeam.States()))
      ensures useGhostTrainer ==>
                textObs == old(textObs) + [TextObs(opponentAgentId.value, old(matchState))] && matchState == Play
      ensures !useGhostTrainer ==> textObs == old(textObs) && matchState == old(matchState)
      ensures spinSum == old(SpinSum(agentTeam.States()))
    {
      var obs;
      obs, spinSum := Observe();
      observations, textObs, matchState :=
        observations + obs,
        if useGhostTrainer then textObs + [TextObs(opponentAgentId.value, matchState)] else textObs,
        if useGhostTrainer then Play else matchState;
    }

    method AddShotReward(ballWorld: Vec3, goalWorld: Vec3, toGoalLen: real)
      requires Valid()
      requires toGoalLen >= 0.0 && toGoalLen * toGoalLen == SqMagnitude(Sub(goalWorld, ballWorld))
      modifies this`reward, stats.rewardQueues
      ensures Valid()
      ensures var shot := old(ShotEntry(stats.HasBall(), shotRewardMultiplier, Sub(goalWorld, ballWorld), toGoalLen, ball.velocity));
              stats.Queues() == old(stats.Queues())[ShotReward := Enqueued(old(stats.Queues())[ShotReward], shot)] &&
              reward == old(reward) + shot
    {
      var r := 0.0;
      if stats.HasBall() {
        var delta := Sub(goalWorld, ballWorld);
        r := shotRewardMultiplier * Dot(Normalized(delta, toGoalLen), ball.velocity);
      }
      assert r == ShotEntry(stats.HasBall(), shotRewardMultiplier, Sub(goalWorld, ballWorld), toGoalLen, ball.velocity);
      stats.AddReward(ShotReward, r);
      reward := reward + r;
    }

    method AddSpinPenalty(spinSum: real)
      requires Valid()
      modifies this`reward, stats.rewardQueues
      ensures Valid()
      ensures var penalty := SpinPenaltyValue(maxSpinPenalty, spinSum);
              stats.Queues() == old(stats.Queues())[SpinPenalty := Enqueued(old(stats.Queues())[SpinPenalty], -penalty)] &&
              reward == old(reward) - penalty
    {
      var penalty := maxSpinPenalty * spinSum * 0.25;
      stats.AddReward(SpinPenalty, -penalty);
      reward := reward - penalty;
    }

    method OnAutoKick(now: real)
      requires Valid()
      modifies stats.gameTimer, stats.ballTimer
      ensures Valid()
      ensures stats.Times() == AutoKickClocks(old(stats.Times()), now)
    {
      stats.OnAutoKick(now);
    }

    /** Possession only changes when a player lets go of the ball (Exit). */
    method OnPlayerContact(e: BallEvent, now: real)
      requires Valid()
      modifies stats.gameTimer, stats.ballTimer
      ensures Valid()
      ensures e.state == Exit ==>
                stats.Times() == ContactClocks(old(stats.Times()), e.team == Some(agentTeam.objectId), now)
      ensures e.state != Exit ==> stats.Times() == old(stats.Times())
    {
      if e.state == Exit {
        var isAgentTeam := e.team == Some(agentTeam.objectId);
        stats.OnPlayerContact(isAgentTeam, now);
      }
    }

    /** A goal in the opponent's goal is a win, any other a loss. */
    method OnGoal(e: BallEvent, now: real)
      requires Valid()
      modifies this`reward, this`matchState, stats, stats.gameTimer, stats.ballTimer
      ensures Valid()
      ensures var hasScored := e.obj == Some(opponentTeam.goal);
              stats.Times() == GoalClocks(old(stats.Times()), now) &&
              stats.goalsScored == old(stats.goalsScored) + (if hasScored then 1 else 0) &&
              stats.totalGoalsScored == old(stats.totalGoalsScored) + (if hasScored then 1 else 0) &&
              stats.totalGoalsCount == old(stats.totalGoalsCount) + 1 &&
              reward == old(reward) + GoalReward(hasScored, goalScoredReward, goalConcededPenalty) &&
              matchState == (if hasScored then Win else Loss)
      ensures stats.Queues() == old(stats.Queues())
    {
      var hasScored := e.obj == Some(opponentTeam.goal);
      stats.OnGoal(hasScored, now);
      reward := reward + (if hasScored then goalScoredReward else -goalConcededPenalty);
      matchState := if hasScored then Win else Loss;
    }

    /** The three handlers InitializeAgent subscribes to the ball: auto-kick,
      player contact and goal; the other channels reach other listeners. */
    method HandleBallEvent(d: Dispatch, now: real)
      requires Valid()
      modifies this`reward, this`matchState, stats, stats.gameTimer, stats.ballTimer
      ensures Valid()
      ensures stats.Queues() == old(stats.Queues())
      ensures d.channel !in {AutoKickChannel, PlayerContactChannel, GoalChannel} ==>
                stats.Times() == old(stats.Times())
      ensures d.channel == AutoKickChannel ==> stats.Times() == AutoKickClocks(old(stats.Times()), now)
      ensures d.channel == PlayerContactChannel ==>
                stats.Times() == if d.event.state == Exit
                                 then ContactClocks(old(stats.Times()), d.event.team == Some(agentTeam.objectId), now)
                                 else old(stats.Times())
      ensures d.channel != GoalChannel ==>
                reward == old(reward) && matchState == old(matchState) &&
                stats.goalsScored == old(stats.goalsScored) &&
                stats.totalGoalsScored == old(stats.totalGoalsScored) &&
                stats.totalGoalsCount == old(stats.totalGoalsCount)
      ensures d.channel == GoalChannel ==>
                var hasScored := d.event.obj == Some(opponentTeam.goal);
                stats.Times() == GoalClocks(old(stats.Times()), now) &&
                stats.goalsScored == old(stats.goalsScored) + (if hasScored then 1 else 0) &&
                stats.totalGoalsScored == old(stats.totalGoalsScored) + (if hasScored then 1 else 0) &&
                stats.totalGoalsCount == old(stats.totalGoalsCount) + 1 &&
                reward == old(reward) + GoalReward(hasScored, goalScoredReward, goalConcededPenalty) &&
                matchState == (if hasScored then Win else Loss)
    {
      match d.channel {
        case AutoKickChannel => OnAutoKick(now);
        case PlayerContactChannel => OnPlayerContact(d.event, now);
        case GoalChannel => OnGoal(d.event, now);
        case _ =>
      }
    }
  }
}
