/** Team.cs: a team's rods, their shared sign and their observations. The
    goal and reset highlight effects are not part of this model. */
module Teams {
  import opened Geometry
  import opened Events
  import opened Rods

  /** Sign from the team's y rotation (localEulerAngles.y, in [0, 360)): the
      team rotated by 180 degrees gets -1 so that both teams observe the
      table the same way. */
  function TeamSign(eulerY: real): (s: real)
    ensures IsSign(s)
    ensures s == 1.0 <==> eulerY < 90.0
  {
    if eulerY < 90.0 then 1.0 else -1.0
  }

  lemma OpposedTeamsOpposedSigns()
    ensures TeamSign(0.0) == 1.0 && TeamSign(180.0) == -1.0
  {
  }

  /** The observations of a list of rods: four per rod, in list order. */
  function TeamObs(ss: seq<RodState>): seq<real>
    requires forall k :: 0 <= k < |ss| ==> ss[k].limit != 0.0
  {
    if ss == [] then [] else TeamObs(ss[..|ss| - 1]) + RodObs(ss[|ss| - 1])
  }

  /** Entries 4k .. 4k+3 are rod k's velocity, spin, position and angle. */
  lemma {:induction false} TeamObsLayout(ss: seq<RodState>)
    requires forall k :: 0 <= k < |ss| ==> ss[k].limit != 0.0
    ensures |TeamObs(ss)| == 4 * |ss|
    ensures forall k :: 0 <= k < |ss| ==> TeamObs(ss)[4 * k..4 * k + 4] == RodObs(ss[k])
  {
    if ss != [] {
      var init := ss[..|ss| - 1];
      TeamObsLayout(init);
      var prev := TeamObs(init);
      assert TeamObs(ss) == prev + RodObs(ss[|ss| - 1]);
      forall k | 0 <= k < |ss|
        ensures TeamObs(ss)[4 * k..4 * k + 4] == RodObs(ss[k])
      {
        if k < |ss| - 1 {
          assert TeamObs(ss)[4 * k..4 * k + 4] == prev[4 * k..4 * k + 4];
          assert init[k] == ss[k];
        }
      }
    }
  }

  function StatesOf(ps: seq<PlayerPosition>): (r: seq<RodState>)
    reads set k | 0 <= k < |ps| :: ps[k]
    ensures |r| == |ps|
    ensures forall k :: 0 <= k < |ps| ==> r[k] == ps[k].State()
    decreases |ps|
  {
    if ps == [] then [] else StatesOf(ps[..|ps| - 1]) + [ps[|ps| - 1].State()]
  }

  lemma StatesOfSnoc(ps: seq<PlayerPosition>, i: int)
    requires 0 <= i < |ps|
    ensures StatesOf(ps[..i + 1]) == StatesOf(ps[..i]) + [ps[i].State()]
  {
    assert ps[..i + 1][..i] == ps[..i];
  }

  class Team {
    var positions: seq<PlayerPosition>
    var sign: real
    /** The team's own game object, as events name it. */
    const objectId: ObjectId
    /** The goal this team defends. */
    const goal: ObjectId

    /** The rods are distinct objects. The source never states this; it
      lets each rod's update be framed apart from the others. */
    ghost predicate Valid()
      reads this
    {
      forall a, b :: 0 <= a < b < |positions| ==> positions[a] != positions[b]
    }

    ghost function Rods(): set<PlayerPosition>
      reads this
    {
      set k | 0 <= k < |positions| :: positions[k]
    }

    function States(): seq<RodState>
      reads this, set k | 0 <= k < |positions| :: positions[k]
    {
      StatesOf(positions)
    }

    constructor (objectId: ObjectId, positions: seq<PlayerPosition>, goal: ObjectId)
      requires forall a, b :: 0 <= a < b < |positions| ==> positions[a] != positions[b]
      ensures Valid() && this.positions == positions && sign == 0.0
      ensures this.objectId == objectId && this.goal == goal
    {
      this.objectId := objectId;
      this.positions := positions;
      this.goal := goal;
      sign := 0.0;
    }

    /** Initialize: the sign from the orientation, handed to every rod. */
    method Initialize(eulerY: real)
      requires Valid()
      modifies this, Rods()
      ensures Valid() && positions == old(positions)
      ensures sign == TeamSign(eulerY)
      ensures forall k :: 0 <= k < |positions| ==>
                positions[k].State() == RodInitialized(old(positions[k].State()), sign, positions[k].jointLimit)
    {
      sign := if eulerY < 90.0 then 1.0 else -1.0;
      for i := 0 to |positions|
        modifies Rods()
        invariant forall k :: 0 <= k < i ==>
                    positions[k].State() == RodInitialized(old(positions[k].State()), sign, positions[k].jointLimit)
        invariant forall k :: i <= k < |positions| ==> positions[k].State() == old(positions[k].State())
      {
        positions[i].Initialize(sign);
      }
    }

    method ReSet()
      requires Valid()
      modifies Rods()
      ensures forall k :: 0 <= k < |positions| ==>
                positions[k].State() == RodReset(old(positions[k].State()))
    {
      for i := 0 to |positions|
        modifies Rods()
        invariant forall k :: 0 <= k < i ==>
                    positions[k].State() == RodReset(old(positions[k].State()))
        invariant forall k :: i <= k < |positions| ==> positions[k].State() == old(positions[k].State())
      {
        positions[i].ReSet();
      }
    }

    /** StepUpdate: the action vector is consumed two entries per rod, rod k
      taking entry 2k as its move and 2k+1 as its turn; entries past
      2 * |positions| are ignored. */
    method StepUpdate(actions: seq<real>)
      requires Valid() && |actions| >= 2 * |positions|
      modifies Rods()
      ensures forall k :: 0 <= k < |positions| ==>
                positions[k].State() ==
                  RodStepped(old(positions[k].State()), positions[k].axisX, actions[2 * k], actions[2 * k + 1])
    {
      var i := 0;
      for k := 0 to |positions|
        modifies Rods()
        invariant i == 2 * k
        invariant forall j :: 0 <= j < k ==>
                    positions[j].State() ==
                      RodStepped(old(positions[j].State()), positions[j].axisX, actions[2 * j], actions[2 * j + 1])
        invariant forall j :: k <= j < |positions| ==> positions[j].State() == old(positions[j].State())
      {
        var move := actions[i];
        i := i + 1;
        var turn := actions[i];
        i := i + 1;
        positions[k].StepUpdate(move, turn);
      }
    }

    /** GetNormalizedObs: four entries per rod, appended rod by rod. */
    method GetNormalizedObs() returns (obs: seq<real>)
      requires forall k :: 0 <= k < |positions| ==> positions[k].limit != 0.0
      ensures obs == TeamObs(States())
      ensures |obs| == 4 * |positions|
      ensures forall k :: 0 <= k < |positions| ==> obs[4 * k..4 * k + 4] == RodObs(positions[k].State())
    {
      obs := [];
      for i := 0 to |positions|
        invariant obs == TeamObs(StatesOf(positions[..i]))
      {
        var pp := positions[i];
        assert StatesOf(positions[..i + 1]) == StatesOf(positions[..i]) + [pp.State()];
        obs := obs + [pp.GetNormalizedVelocity(), pp.GetNormalizedAngularVelocity(),
                      pp.GetNormalizedPosition(), pp.GetNormalizedAngle()];
      }
      assert positions[..|positions|] == positions;
      TeamObsLayout(States());
    }
  }
}
