/** Per-agent statistics: goals, ball possession measured by two timers, and
    short queues of recent shot rewards and spin penalties. */
module Stats {
  import opened Timers
  import opened Geometry

  /** Reward types: indices into the reward queues. */
  const ShotReward: int := 0
  const SpinPenalty: int := 1
  const NumRewardTypes: int := 2

  /** A reward queue keeps the most recent QueueSize values. */
  const QueueSize: int := 5

  // ---------------------------------------------------------------------
  // Reward queues

  /** The last n entries of s (all of s when it is shorter). */
  function LastN(s: seq<real>, n: nat): (r: seq<real>)
    ensures |r| <= n && |r| <= |s|
    ensures r == s[|s| - |r|..]
    ensures |s| <= n ==> r == s
  {
    if |s| <= n then s else s[|s| - n..]
  }

  /** Enqueue, then drop the oldest entry once the queue is over capacity. */
  function Enqueued(q: seq<real>, v: real): (r: seq<real>)
    requires |q| <= QueueSize
    ensures |r| <= QueueSize
    ensures r == LastN(q + [v], QueueSize)
  {
    var longer := q + [v];
    if |longer| > QueueSize then longer[1..] else longer
  }

  /** Adding the values xs one at a time, oldest first. */
  function EnqueuedAll(q: seq<real>, xs: seq<real>): seq<real>
    requires |q| <= QueueSize
    decreases |xs|
  {
    if xs == [] then q else EnqueuedAll(Enqueued(q, xs[0]), xs[1..])
  }

  /** However many values are added, the queue holds the last five values of
      its old contents followed by the new ones. */
  lemma {:induction false} EnqueuedAllKeepsLast(q: seq<real>, xs: seq<real>)
    requires |q| <= QueueSize
    ensures EnqueuedAll(q, xs) == LastN(q + xs, QueueSize)
    decreases |xs|
  {
    if xs != [] {
      var q' := Enqueued(q, xs[0]);
      EnqueuedAllKeepsLast(q', xs[1..]);
      var all := q + xs;
      assert q + [xs[0]] + xs[1..] == all;
      assert q' + xs[1..] == LastN(q + [xs[0]], QueueSize) + xs[1..];
      LastNOfSuffix(q + [xs[0]], xs[1..]);
    }
  }

  /** Trimming before appending does not change the last five entries. */
  lemma LastNOfSuffix(s: seq<real>, t: seq<real>)
    ensures LastN(LastN(s, QueueSize) + t, QueueSize) == LastN(s + t, QueueSize)
  {
    var u := LastN(s, QueueSize);
    if |s| > QueueSize {
      assert u + t == (s + t)[|s| - QueueSize..];
    }
  }

  /** Seven rewards into an empty queue leave the last five. */
  lemma SevenRewardsKeepFive(xs: seq<real>)
    requires |xs| == 7
    ensures EnqueuedAll([], xs) == xs[2..]
  {
    EnqueuedAllKeepsLast([], xs);
    assert [] + xs == xs;
  }

  function Sum(q: seq<real>): real
  {
    if q == [] then 0.0 else q[0] + Sum(q[1..])
  }

  /** Queue.Average(), or 0 for an empty queue, as GetReward returns it. */
  function Mean(q: seq<real>): real
  {
    if |q| > 0 then Sum(q) / (|q| as real) else 0.0
  }

  lemma {:induction false} SumBounds(q: seq<real>, lo: real, hi: real)
    requires forall i :: 0 <= i < |q| ==> lo <= q[i] <= hi
    ensures (|q| as real) * lo <= Sum(q) <= (|q| as real) * hi
  {
    if q != [] {
      SumBounds(q[1..], lo, hi);
      assert lo <= q[0] <= hi;
    }
  }

  /** The mean of values in [lo, hi] lies in [lo, hi]; of no values it is 0. */
  lemma MeanBounds(q: seq<real>, lo: real, hi: real)
    requires forall i :: 0 <= i < |q| ==> lo <= q[i] <= hi
    ensures |q| > 0 ==> lo <= Mean(q) <= hi
    ensures |q| == 0 ==> Mean(q) == 0.0
  {
    if |q| > 0 {
      SumBounds(q, lo, hi);
      var n := |q| as real;
      assert Sum(q) / n >= lo by {
        assert Sum(q) >= n * lo;
      }
      assert Sum(q) / n <= hi by {
        assert Sum(q) <= n * hi;
      }
    }
  }

  // ---------------------------------------------------------------------
  // Ball possession

  /** The game timer and the ball timer together. */
  datatype Clocks = Clocks(game: TimerState, ball: TimerState)

  /** What the events below keep at time `now`: both timers well formed, the
      ball timer only open inside an open game interval that started no
      later, and never more possession time than game time. */
  predicate PossessionInv(c: Clocks, now: real)
  {
    TimerInv(c.game, now) && TimerInv(c.ball, now) &&
    (c.ball.running ==> c.game.running && c.game.startTime <= c.ball.startTime) &&
    Elapsed(c.ball, now) <= Elapsed(c.game, now)
  }

  /** GetBallPossession: possession time over game time, at least one second. */
  function Possession(c: Clocks, now: real): (r: real)
    ensures PossessionInv(c, now) ==> 0.0 <= r <= 1.0
  {
    var b, m := Elapsed(c.ball, now), Max(1.0, Elapsed(c.game, now));
    assert PossessionInv(c, now) ==> 0.0 <= b <= m;
    RatioInUnit(b, m);
    b / m
  }

  lemma RatioInUnit(b: real, m: real)
    requires m >= 1.0
    ensures 0.0 <= b <= m ==> 0.0 <= b / m <= 1.0
  {
    if 0.0 <= b <= m {
      assert b / m <= m / m;
    }
  }

  /** Reset: both timers cleared. */
  function ResetClocks(c: Clocks): (r: Clocks)
    ensures !r.game.running && !r.ball.running
    ensures r.game.intervalSum == 0.0 && r.ball.intervalSum == 0.0
  {
    Clocks(Cleared(c.game), Cleared(c.ball))
  }

  /** OnGoal: the game interval is stopped unconditionally, possession only
      when the agent has the ball. */
  function GoalClocks(c: Clocks, now: real): (r: Clocks)
    ensures !r.game.running && !r.ball.running
    ensures Elapsed(r.ball, now) == Elapsed(c.ball, now)
    ensures c.game.running ==> Elapsed(r.game, now) == Elapsed(c.game, now)
  {
    Clocks(Stopped(c.game, now), if c.ball.running then Stopped(c.ball, now) else c.ball)
  }

  /** OnPlayerContact: the game interval opens on the first touch; any
      possession ends; a touch by the agent's own team starts a new one. */
  function ContactClocks(c: Clocks, isAgentTeam: bool, now: real): (r: Clocks)
    ensures r.game.running && (r.ball.running <==> isAgentTeam)
    ensures c.game.running ==> r.game == c.game
    ensures !c.game.running ==> r.game.startTime == now
    ensures isAgentTeam ==> r.ball.startTime == now
    ensures Elapsed(r.game, now) == Elapsed(c.game, now) && Elapsed(r.ball, now) == Elapsed(c.ball, now)
  {
    var game := if !c.game.running then Started(c.game, now) else c.game;
    var ball := if c.ball.running then Stopped(c.ball, now) else c.ball;
    Clocks(game, if isAgentTeam then Started(ball, now) else ball)
  }

  /** OnAutoKick: both intervals close if open. */
  function AutoKickClocks(c: Clocks, now: real): (r: Clocks)
    ensures !r.game.running && !r.ball.running
    ensures Elapsed(r.game, now) == Elapsed(c.game, now) && Elapsed(r.ball, now) == Elapsed(c.ball, now)
  {
    Clocks(if c.game.running then Stopped(c.game, now) else c.game,
           if c.ball.running then Stopped(c.ball, now) else c.ball)
  }

  lemma FreshClocksInv(now: real)
    requires now >= 0.0
    ensures PossessionInv(Clocks(Fresh, Fresh), now)
    ensures Possession(Clocks(Fresh, Fresh), now) == 0.0
  {
  }

  /** The invariant holds on at every later time. */
  lemma PossessionInvLater(c: Clocks, now: real, later: real)
    requires PossessionInv(c, now) && now <= later
    ensures PossessionInv(c, later)
  {
    ElapsedAdvances(c.game, now, later);
    ElapsedAdvances(c.ball, now, later);
  }

  lemma ResetKeepsInv(c: Clocks, now: real)
    requires PossessionInv(c, now)
    ensures PossessionInv(ResetClocks(c), now)
    ensures Possession(ResetClocks(c), now) == 0.0
  {
  }

  /** A goal keeps the invariant and ends possession. */
  lemma GoalKeepsInv(c: Clocks, now: real)
    requires PossessionInv(c, now)
    ensures PossessionInv(GoalClocks(c, now), now)
    ensures !GoalClocks(c, now).game.running && !GoalClocks(c, now).ball.running
    ensures Elapsed(GoalClocks(c, now).ball, now) == Elapsed(c.ball, now)
  {
  }

  /** A player contact keeps the invariant and the readings at `now`, leaves
      the game running and gives possession exactly to a touch by the agent's
      team. */
  lemma ContactKeepsInv(c: Clocks, isAgentTeam: bool, now: real)
    requires PossessionInv(c, now)
    ensures PossessionInv(ContactClocks(c, isAgentTeam, now), now)
    ensures ContactClocks(c, isAgentTeam, now).game.running
    ensures ContactClocks(c, isAgentTeam, now).ball.running == isAgentTeam
    ensures Elapsed(ContactClocks(c, isAgentTeam, now).game, now) == Elapsed(c.game, now)
    ensures Elapsed(ContactClocks(c, isAgentTeam, now).ball, now) == Elapsed(c.ball, now)
  {
  }

  /** An auto-kick keeps the invariant and the readings and stops both. */
  lemma AutoKickKeepsInv(c: Clocks, now: real)
    requires PossessionInv(c, now)
    ensures PossessionInv(AutoKickClocks(c, now), now)
    ensures !AutoKickClocks(c, now).game.running && !AutoKickClocks(c, now).ball.running
    ensures Elapsed(AutoKickClocks(c, now).game, now) == Elapsed(c.game, now)
    ensures Elapsed(AutoKickClocks(c, now).ball, now) == Elapsed(c.ball, now)
  {
  }

  /** GetOverallScoreRate: goals scored over goals counted, at least one. */
  function ScoreRate(scored: int, count: int): (r: real)
    ensures 0 <= scored <= count ==> 0.0 <= r <= 1.0
    ensures count >= 1 ==> r * (count as real) == scored as real
  {
    RatioInUnit(scored as real, Max(1.0, count as real));
    (scored as real) / Max(1.0, count as real)
  }

  /** AgentStats.cs. */
  class AgentStats {
    const name: string
    const gameTimer: Timer
    const ballTimer: Timer
    const rewardQueues: array<seq<real>>
    var goalsScored: int
    var totalGoalsCount: int
    var totalGoalsScored: int

    ghost predicate Valid()
      reads this, rewardQueues
    {
      gameTimer != ballTimer &&
      rewardQueues.Length == NumRewardTypes &&
      (forall i :: 0 <= i < rewardQueues.Length ==> |rewardQueues[i]| <= QueueSize) &&
      0 <= goalsScored <= totalGoalsScored <= totalGoalsCount
    }

    function Times(): Clocks
      reads gameTimer, ballTimer
    {
      Clocks(gameTimer.State(), ballTimer.State())
    }

    function Queues(): seq<seq<real>>
      reads rewardQueues
    {
      rewardQueues[..]
    }

    /** HasBall: the possession timer is open. */
    function HasBall(): (r: bool)
      reads ballTimer
      ensures r <==> ballTimer.IsRunning()
    {
      ballTimer.running
    }

    constructor (name: string)
      ensures Valid()
      ensures this.name == name
      ensures fresh(gameTimer) && fresh(ballTimer) && fresh(rewardQueues)
      ensures Times() == Clocks(Fresh, Fresh)
      ensures Queues() == [[], []]
      ensures goalsScored == 0 && totalGoalsCount == 0 && totalGoalsScored == 0
    {
      this.name := name;
      gameTimer := new Timer();
      ballTimer := new Timer();
      var queues := new seq<real>[NumRewardTypes];
      for i := 0 to NumRewardTypes
        modifies queues
        invariant forall j :: 0 <= j < i ==> queues[j] == []
      {
        queues[i] := [];
      }
      rewardQueues := queues;
      goalsScored, totalGoalsCount, totalGoalsScored := 0, 0, 0;
    }

    /** GetReward: the mean of the queued rewards of one type. */
    method GetReward(rewardType: int) returns (r: real)
      requires Valid() && 0 <= rewardType < NumRewardTypes
      ensures r == Mean(Queues()[rewardType])
    {
      var q := rewardQueues[rewardType];
      if |q| > 0 {
        r := Sum(q) / (|q| as real);
      } else {
        r := 0.0;
      }
    }

    method GetBallPossession(now: real) returns (r: real)
      ensures r == Possession(Times(), now)
    {
      var ball := ballTimer.EllapsedTotal(now);
      var game := gameTimer.EllapsedTotal(now);
      r := ball / Max(1.0, game);
    }

    method GetOverallScoreRate() returns (r: real)
      requires Valid()
      ensures 0.0 <= r <= 1.0
      ensures r == ScoreRate(totalGoalsScored, totalGoalsCount)
    {
      r := (totalGoalsScored as real) / Max(1.0, totalGoalsCount as real);
    }

    method Reset()
      requires Valid()
      modifies this, gameTimer, ballTimer, rewardQueues
      ensures Valid()
      ensures goalsScored == 0
      ensures totalGoalsCount == old(totalGoalsCount) && totalGoalsScored == old(totalGoalsScored)
      ensures Times() == ResetClocks(old(Times()))
      ensures Queues() == [[], []]
    {
      goalsScored := 0;
      gameTimer.Reset();
      ballTimer.Reset();
      for i := 0 to NumRewardTypes
        modifies rewardQueues
        invariant forall j :: 0 <= j < i ==> rewardQueues[j] == []
      {
        rewardQueues[i] := [];
      }
    }

    method AddReward(rewardType: int, value: real)
      requires Valid() && 0 <= rewardType < NumRewardTypes
      modifies rewardQueues
      ensures Valid()
      ensures Queues() == old(Queues())[rewardType := Enqueued(old(Queues()[rewardType]), value)]
    {
      var q := rewardQueues[rewardType] + [value];
      if |q| > QueueSize {
        q := q[1..];
      }
      rewardQueues[rewardType] := q;
    }

    method OnGoal(hasScored: bool, now: real)
      requires Valid()
      modifies this, gameTimer, ballTimer
      ensures Valid()
      ensures Times() == GoalClocks(old(Times()), now)
      ensures goalsScored == old(goalsScored) + (if hasScored then 1 else 0)
      ensures totalGoalsScored == old(totalGoalsScored) + (if hasScored then 1 else 0)
      ensures totalGoalsCount == old(totalGoalsCount) + 1
      ensures Queues() == old(Queues())
    {
      gameTimer.StopInterval(now);
      if HasBall() {
        ballTimer.StopInterval(now);
      }
      if hasScored {
        goalsScored := goalsScored + 1;
        totalGoalsScored := totalGoalsScored + 1;
      }
      totalGoalsCount := totalGoalsCount + 1;
    }

    method OnPlayerContact(isAgentTeam: bool, now: real)
      requires Valid()
      modifies gameTimer, ballTimer
      ensures Valid()
      ensures Times() == ContactClocks(old(Times()), isAgentTeam, now)
    {
      if !gameTimer.IsRunning() {
        gameTimer.StartInterval(now);
      }
      if HasBall() {
        ballTimer.StopInterval(now);
      }
      if isAgentTeam {
        ballTimer.StartInterval(now);
      }
    }

    method OnAutoKick(now: real)
      requires Valid()
      modifies gameTimer, ballTimer
      ensures Valid()
      ensures Times() == AutoKickClocks(old(Times()), now)
    {
      if gameTimer.IsRunning() {
        gameTimer.StopInterval(now);
      }
      if HasBall() {
        ballTimer.StopInterval(now);
      }
    }
  }
}
