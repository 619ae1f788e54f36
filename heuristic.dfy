/** DumbHeuristic.cs: a scripted opponent that steers each of its team's four
    rods towards the ball. The world x of every player figure, the ball's
    position, the clock and Mathf.Sin are inputs: the physics engine and the
    engine's clock own them. */
module Heuristic {
  import opened Geometry
  import opened Rods
  import opened Teams

  /** The number of rods the heuristic drives and the size of its action
      buffer. */
  const NumRods: nat := 4
  const NumActions: nat := 8

  /** Among the first n players of xs, player i is nearest to x and every
      earlier player is strictly farther away. */
  predicate NearestAmong(xs: seq<real>, x: real, n: nat, i: nat)
  {
    i < n <= |xs| &&
    (forall j :: 0 <= j < n ==> Abs(x - xs[i]) <= Abs(x - xs[j])) &&
    (forall j :: 0 <= j < i ==> Abs(x - xs[j]) > Abs(x - xs[i]))
  }

  /** Player i of xs is the earliest of those nearest to x. */
  predicate EarliestNearest(xs: seq<real>, x: real, i: nat)
  {
    NearestAmong(xs, x, |xs|, i)
  }

  /** At most one player satisfies EarliestNearest. */
  lemma EarliestNearestUnique(xs: seq<real>, x: real, i: nat, j: nat)
    requires EarliestNearest(xs, x, i) && EarliestNearest(xs, x, j)
    ensures i == j
  {
    assert Abs(x - xs[i]) <= Abs(x - xs[j]);
    assert Abs(x - xs[j]) <= Abs(x - xs[i]);
  }

  /** The player GetDeltaX has settled on after the first n: the first,
      replaced by a later player only when that one is strictly nearer. */
  function NearestUpTo(xs: seq<real>, x: real, n: nat): (i: nat)
    requires 1 <= n <= |xs|
    ensures NearestAmong(xs, x, n, i)
    decreases n
  {
    if n == 1 then 0
    else
      var j := NearestUpTo(xs, x, n - 1);
      if Abs(x - xs[n - 1]) < Abs(x - xs[j]) then n - 1 else j
  }

  function NearestIndex(xs: seq<real>, x: real): (i: nat)
    requires |xs| > 0
    ensures EarliestNearest(xs, x, i)
  {
    NearestUpTo(xs, x, |xs|)
  }

  /** GetDeltaX: the signed x offset from the nearest player to x. The source
      reads players[0] unguarded, so the list must not be empty. */
  method GetDeltaX(players: seq<real>, x: real) returns (delta: real)
    requires |players| > 0
    ensures delta == x - players[NearestIndex(players, x)]
  {
    delta := x - players[0];
    ghost var best: nat := 0;
    for i := 1 to |players|
      invariant best == NearestUpTo(players, x, i)
      invariant delta == x - players[best]
    {
      var d := x - players[i];
      if Abs(d) < Abs(delta) {
        delta := d;
        best := i;
      }
    }
  }

  /** The distance in z between the ball and a rod, the rod's z taken in the
      team's frame. */
  function DeltaZ(ballZ: real, rodZ: real, sign: real): (dz: real)
    ensures dz >= 0.0
  {
    Abs(ballZ - rodZ * sign)
  }

  /** The move action: the scaled x offset, faded out linearly with the z
      distance and cut off at 0.5. */
  function MoveAction(dx: real, dz: real): (r: real)
    ensures dz >= 0.5 ==> r == 0.0
  {
    dx * Max(0.0, 0.5 - dz)
  }

  /** The turn action: 0.05 at the rod, fading to 0 at a z distance of 0.5. */
  function TurnAction(dz: real): (r: real)
    ensures dz >= 0.0 ==> 0.0 <= r <= 0.05
  {
    Max(0.0, 0.05 - dz * 0.1)
  }

  /** A rod's x offset command: the nearest player's offset to the ball in
      the team's frame, times 5, plus a noise term of amplitude 0.15 that
      follows sin(10 t + i). */
  function RodDeltaX(players: seq<real>, ballX: real, sign: real, noise: real): real
    requires |players| > 0
  {
    (ballX - players[NearestIndex(players, ballX)]) * sign * 5.0 + noise
  }

  function Noise(sin: real -> real, time: real, i: nat): (r: real)
    ensures -1.0 <= sin(time * 10.0 + i as real) <= 1.0 ==> -0.15 <= r <= 0.15
  {
    sin(time * 10.0 + i as real) * 0.15
  }

  lemma TurnActionBounded(dz: real)
    requires dz >= 0.0
    ensures 0.0 <= TurnAction(dz) <= 0.05
    ensures TurnAction(dz) == 0.0 <==> dz >= 0.5
  {
  }

  lemma MoveActionFar(dx: real, dz: real)
    requires dz >= 0.5
    ensures MoveAction(dx, dz) == 0.0
  {
  }

  /** Near the rod the move is dx times a factor in (0, 0.5]: same sign as
      dx, at most half its size. */
  lemma MoveActionNear(dx: real, dz: real)
    requires 0.0 <= dz < 0.5
    ensures Abs(MoveAction(dx, dz)) <= Abs(dx) * 0.5
    ensures dx > 0.0 ==> MoveAction(dx, dz) > 0.0
    ensures dx < 0.0 ==> MoveAction(dx, dz) < 0.0
  {
    var f := 0.5 - dz;
    assert MoveAction(dx, dz) == dx * f;
    FractionOf(dx, f);
  }

  lemma FractionOf(x: real, f: real)
    requires 0.0 < f <= 0.5
    ensures Abs(x * f) <= Abs(x) * 0.5
    ensures x > 0.0 ==> x * f > 0.0
    ensures x < 0.0 ==> x * f < 0.0
  {
    if x >= 0.0 {
      assert x * (0.5 - f) >= 0.0;
    } else {
      assert (-x) * (0.5 - f) >= 0.0;
      assert (-x) * f > 0.0;
    }
  }

  predicate Inputs(players: seq<seq<real>>)
  {
    |players| == NumRods && forall i :: 0 <= i < NumRods ==> |players[i]| > 0
  }

  /** Entries 2i and 2i + 1 of a are rod i's move and turn. */
  predicate RodFilled(a: seq<real>, i: nat, ballX: real, ballZ: real, sign: real, noise: real,
                      players: seq<real>, rodZ: real)
    requires |players| > 0 && 2 * i + 1 < |a|
  {
    var dz := DeltaZ(ballZ, rodZ, sign);
    a[2 * i] == MoveAction(RodDeltaX(players, ballX, sign, noise), dz) &&
    a[2 * i + 1] == TurnAction(dz)
  }

  /** The action vector FixedUpdate hands to Team.StepUpdate: entry 2i is rod
      i's move and entry 2i + 1 its turn. */
  predicate HeuristicActions(a: seq<real>, ballX: real, ballZ: real, sign: real, noise: seq<real>,
                             players: seq<seq<real>>, rodZ: seq<real>)
    requires Inputs(players) && |noise| == NumRods && |rodZ| == NumRods
  {
    |a| == NumActions &&
    forall i :: 0 <= i < NumRods ==> RodFilled(a, i, ballX, ballZ, sign, noise[i], players[i], rodZ[i])
  }

  /** Every turn entry of the heuristic's action vector is within [0, 0.05],
      and a move entry is 0 for a rod 0.5 or more from the ball in z. */
  lemma HeuristicActionsBounded(a: seq<real>, ballX: real, ballZ: real, sign: real, noise: seq<real>,
                                players: seq<seq<real>>, rodZ: seq<real>, i: nat)
    requires Inputs(players) && |noise| == NumRods && |rodZ| == NumRods && i < NumRods
    requires HeuristicActions(a, ballX, ballZ, sign, noise, players, rodZ)
    ensures 0.0 <= a[2 * i + 1] <= 0.05
    ensures DeltaZ(ballZ, rodZ[i], sign) >= 0.5 ==> a[2 * i] == 0.0
  {
    var dz := DeltaZ(ballZ, rodZ[i], sign);
    assert RodFilled(a, i, ballX, ballZ, sign, noise[i], players[i], rodZ[i]);
    TurnActionBounded(dz);
    if dz >= 0.5 {
      MoveActionFar(RodDeltaX(players[i], ballX, sign, noise[i]), dz);
    }
  }

  function RodZs(ss: seq<RodState>): (r: seq<real>)
    ensures |r| == |ss|
    ensures forall k :: 0 <= k < |ss| ==> r[k] == ss[k].localPosition.z
  {
    seq(|ss|, (k: int) requires 0 <= k < |ss| => ss[k].localPosition.z)
  }

  function Noises(sin: real -> real, time: real): (r: seq<real>)
    ensures |r| == NumRods
    ensures forall k :: 0 <= k < NumRods ==> r[k] == Noise(sin, time, k)
  {
    seq(NumRods, (k: int) requires 0 <= k => Noise(sin, time, k))
  }

  class DumbHeuristic {
    const team: Team
    const actions: array<real>

    ghost predicate Valid()
      reads this, team
    {
      actions.Length == NumActions && |team.positions| == NumRods && team.Valid()
    }

    constructor (team: Team)
      requires |team.positions| == NumRods && team.Valid()
      ensures this.team == team && Valid() && fresh(actions)
      ensures forall k :: 0 <= k < NumActions ==> actions[k] == 0.0
    {
      this.team := team;
      actions := new real[NumActions] (_ => 0.0);
    }

    /** FixedUpdate: fills the action buffer rod by rod and steps the team. */
    method FixedUpdate(ballX: real, ballZ: real, sin: real -> real, time: real, players: seq<seq<real>>)
      requires Valid() && Inputs(players)
      modifies actions, team.Rods()
      ensures Valid()
      ensures HeuristicActions(actions[..], ballX, ballZ, old(team.sign), Noises(sin, time), players,
                               RodZs(old(team.States())))
      ensures forall k :: 0 <= k < NumRods ==>
                team.positions[k].State() ==
                  RodStepped(old(team.positions[k].State()), team.positions[k].axisX, actions[2 * k], actions[2 * k + 1])
    {
      var sign := team.sign;
      var noise := Noises(sin, time);
      var rodZ := RodZs(team.States());
      Fill(ballX, ballZ, sin, time, players, sign, noise, rodZ);
      team.StepUpdate(actions[..]);
    }

    /** The loop of FixedUpdate: writes entries 2i and 2i + 1 for rod i. */
    method Fill(ballX: real, ballZ: real, sin: real -> real, time: real, players: seq<seq<real>>,
                sign: real, noise: seq<real>, rodZ: seq<real>)
      requires Valid() && Inputs(players)
      requires sign == team.sign && noise == Noises(sin, time) && rodZ == RodZs(team.States())
      modifies actions
      ensures HeuristicActions(actions[..], ballX, ballZ, sign, noise, players, rodZ)
    {
      for i := 0 to NumRods
        invariant forall k :: 0 <= k < i ==>
                    RodFilled(actions[..], k, ballX, ballZ, sign, noise[k], players[k], rodZ[k])
      {
        var move, turn := RodActions(i, ballX, ballZ, sin, time, players[i], sign);
        assert team.States()[i] == team.positions[i].State();
        ghost var before := actions[..];
        actions[i * 2], actions[i * 2 + 1] := move, turn;
        assert forall k :: 0 <= k < i ==> actions[..][2 * k] == before[2 * k] && actions[..][2 * k + 1] == before[2 * k + 1];
      }
    }

    /** One iteration's reads and arithmetic: rod i's move and turn. */
    method RodActions(i: nat, ballX: real, ballZ: real, sin: real -> real, time: real, players: seq<real>, sign: real)
        returns (move: real, turn: real)
      requires Valid() && i < NumRods && |players| > 0
      ensures var dz := DeltaZ(ballZ, team.positions[i].localPosition.z, sign);
              move == MoveAction(RodDeltaX(players, ballX, sign, Noise(sin, time, i)), dz) &&
              turn == TurnAction(dz)
    {
      var pp := team.positions[i];
      var noise := sin(time * 10.0 + i as real) * 0.15;
      var d := GetDeltaX(players, ballX);
      var dx := d * sign * 5.0 + noise;
      var dz := Abs(ballZ - pp.localPosition.z * sign);
      move := dx * Max(0.0, 0.5 - dz);
      turn := Max(0.0, 0.05 - dz * 0.1);
    }
  }
}
