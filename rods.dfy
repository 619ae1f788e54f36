/** PlayerPosition.cs: one player rod (keeper, defence, midfield or attack).
    The rod's rigid body and joint are abstract fields. Forces are applied
    as velocity changes (ForceMode.VelocityChange) along the rod's local x
    axis; the team is rotated about y by 0 or 180 degrees, so that axis is
    world x or its opposite, recorded as `axisX`. The signed rod angle
    (Vector3.SignedAngle of the rod's up axis) is a field kept up to date by
    the physics engine. */
module Rods {
  import opened Geometry

  const MoveForce: real := 1.0
  const TurnForce: real := 25.0
  const MaxAngularVelocity: real := 25.0
  /** The measured maximum rod speed. */
  const MaxVelocity: real := 3.4

  predicate IsSign(s: real)
  {
    s == 1.0 || s == -1.0
  }

  /** The rod's fields and the parts of its body and joint the core sets. */
  datatype RodState = RodState(
    sign: real, limit: real, defPos: Vec3, defRot: Quaternion,
    localPosition: Vec3, localRotation: Quaternion,
    velocity: Vec3, angularVelocity: Vec3,
    targetPosition: Vec3, targetRotation: Quaternion,
    maxAngularVelocity: real, signedAngle: real)

  /** Initialize: stores the team sign, the start pose, the angular velocity
      cap and the joint's linear limit. */
  function RodInitialized(s: RodState, sign: real, jointLimit: real): (r: RodState)
    ensures r.sign == sign && r.limit == jointLimit && r.maxAngularVelocity == MaxAngularVelocity
    ensures r.defPos == s.localPosition && r.defRot == s.localRotation
    ensures r.(sign := s.sign, limit := s.limit, defPos := s.defPos, defRot := s.defRot,
               maxAngularVelocity := s.maxAngularVelocity) == s
    ensures RodReset(r).localPosition == s.localPosition && RodReset(r).localRotation == s.localRotation
  {
    s.(sign := sign, defPos := s.localPosition, defRot := s.localRotation,
       maxAngularVelocity := MaxAngularVelocity, limit := jointLimit)
  }

  /** StepUpdate: velocity changes of move * 1 and turn * 25 along the local
      x axis, which is world x times axisX. */
  function RodStepped(s: RodState, axisX: real, move: real, turn: real): (r: RodState)
    ensures r.velocity == Vec3(s.velocity.x + axisX * move, s.velocity.y, s.velocity.z)
    ensures r.angularVelocity == Vec3(s.angularVelocity.x + axisX * turn * TurnForce,
                                      s.angularVelocity.y, s.angularVelocity.z)
    ensures r.(velocity := s.velocity, angularVelocity := s.angularVelocity) == s
  {
    s.(velocity := Add(s.velocity, Vec3(axisX * move * MoveForce, 0.0, 0.0)),
       angularVelocity := Add(s.angularVelocity, Vec3(axisX * turn * TurnForce, 0.0, 0.0)))
  }

  /** ReSet: start pose, neutral joint targets, at rest. */
  function RodReset(s: RodState): (r: RodState)
    ensures r.localPosition == s.defPos && r.localRotation == s.defRot
    ensures r.velocity == Zero3 && r.angularVelocity == Zero3
    ensures r.targetPosition == Zero3 && r.targetRotation == Identity
    ensures r.defPos == s.defPos && r.defRot == s.defRot
    ensures r.(localPosition := s.localPosition, localRotation := s.localRotation,
               targetPosition := s.targetPosition, targetRotation := s.targetRotation,
               velocity := s.velocity, angularVelocity := s.angularVelocity) == s
  {
    s.(localPosition := s.defPos, localRotation := s.defRot,
       targetPosition := Zero3, targetRotation := Identity,
       velocity := Zero3, angularVelocity := Zero3)
  }

  // ---------------------------------------------------------------------
  // Observations

  /** GetNormalizedAngle. */
  function NormAngle(angle: real, sign: real): (r: real)
    ensures r * 180.0 == angle * sign
    ensures IsSign(sign) && -180.0 <= angle <= 180.0 ==> -1.0 <= r <= 1.0
  {
    angle * sign / 180.0
  }

  /** GetNormalizedPosition: the rod's slide over the joint limit; no sign. */
  function NormPosition(x: real, limit: real): (r: real)
    requires limit != 0.0
    ensures r * limit == x
    ensures limit > 0.0 && -limit <= x <= limit ==> -1.0 <= r <= 1.0
  {
    x / limit
  }

  /** GetNormalizedVelocity. */
  function NormVelocity(vx: real, sign: real): (r: real)
    ensures r * MaxVelocity == vx * sign
    ensures IsSign(sign) && -MaxVelocity <= vx <= MaxVelocity ==> -1.0 <= r <= 1.0
  {
    vx * sign / MaxVelocity
  }

  /** GetNormalizedAngularVelocity. */
  function NormAngularVelocity(wx: real, sign: real): (r: real)
    ensures r * MaxAngularVelocity == wx * sign
    ensures IsSign(sign) && -MaxAngularVelocity <= wx <= MaxAngularVelocity ==> -1.0 <= r <= 1.0
  {
    wx * sign / MaxAngularVelocity
  }

  /** The four observations Team.GetNormalizedObs takes from a rod, in order. */
  function RodObs(s: RodState): (r: seq<real>)
    requires s.limit != 0.0
    ensures |r| == 4
  {
    [NormVelocity(s.velocity.x, s.sign), NormAngularVelocity(s.angularVelocity.x, s.sign),
     NormPosition(s.localPosition.x, s.limit), NormAngle(s.signedAngle, s.sign)]
  }

  /** Flipping the sign negates the velocity, spin and angle observations and
      leaves the position observation alone. */
  lemma RodObsSignFlip(s: RodState)
    requires s.limit != 0.0
    ensures var a, b := RodObs(s), RodObs(s.(sign := -s.sign));
            b[0] == -a[0] && b[1] == -a[1] && b[2] == a[2] && b[3] == -a[3]
  {
  }

  /** A step on a rod whose local x axis agrees with its sign (as the scene
      sets it up for both teams) moves the velocity observation by
      move / 3.4 and the spin observation by turn, for either team. */
  lemma StepObservedWithoutSign(s: RodState, axisX: real, move: real, turn: real)
    requires IsSign(s.sign) && axisX == s.sign && s.limit != 0.0
    ensures RodObs(RodStepped(s, axisX, move, turn))[0] == RodObs(s)[0] + move / MaxVelocity
    ensures RodObs(RodStepped(s, axisX, move, turn))[1] == RodObs(s)[1] + turn
    ensures RodObs(RodStepped(s, axisX, move, turn))[2..] == RodObs(s)[2..]
  {
    assert axisX * axisX == 1.0;
  }

  /** The spin observation stays within [-1, 1] while the physics engine
      keeps the angular speed under the cap set by Initialize. */
  lemma SpinObsBoundedByCap(s: RodState)
    requires IsSign(s.sign) && s.limit != 0.0
    requires -s.maxAngularVelocity <= s.angularVelocity.x <= s.maxAngularVelocity
    requires s.maxAngularVelocity == MaxAngularVelocity
    ensures -1.0 <= RodObs(s)[1] <= 1.0
  {
  }

  class PlayerPosition {
    /** World x of the rod's local x axis, +1 or -1. */
    const axisX: real
    /** The joint's configured linear limit. */
    const jointLimit: real

    var sign: real
    var limit: real
    var defPos: Vec3
    var defRot: Quaternion
    var localPosition: Vec3
    var localRotation: Quaternion
    var velocity: Vec3
    var angularVelocity: Vec3
    var targetPosition: Vec3
    var targetRotation: Quaternion
    var maxAngularVelocity: real
    var signedAngle: real

    function State(): RodState
      reads this
    {
      RodState(sign, limit, defPos, defRot, localPosition, localRotation, velocity,
               angularVelocity, targetPosition, targetRotation, maxAngularVelocity, signedAngle)
    }

    constructor (axisX: real, jointLimit: real, localPosition: Vec3, localRotation: Quaternion)
      requires IsSign(axisX)
      ensures this.axisX == axisX && this.jointLimit == jointLimit
      ensures State() == RodState(0.0, 0.0, Zero3, Identity, localPosition, localRotation,
                                  Zero3, Zero3, Zero3, Identity, 0.0, 0.0)
    {
      this.axisX, this.jointLimit := axisX, jointLimit;
      sign, limit := 0.0, 0.0;
      defPos, defRot := Zero3, Identity;
      this.localPosition, this.localRotation := localPosition, localRotation;
      velocity, angularVelocity := Zero3, Zero3;
      targetPosition, targetRotation := Zero3, Identity;
      maxAngularVelocity, signedAngle := 0.0, 0.0;
    }

    method Initialize(sign: real)
      modifies this
      ensures State() == RodInitialized(old(State()), sign, jointLimit)
    {
      this.sign := sign;
      defPos := localPosition;
      defRot := localRotation;
      maxAngularVelocity := MaxAngularVelocity;
      limit := jointLimit;
    }

    method StepUpdate(move: real, turn: real)
      modifies this
      ensures State() == RodStepped(old(State()), axisX, move, turn)
    {
      velocity := Add(velocity, Vec3(axisX * move * MoveForce, 0.0, 0.0));
      angularVelocity := Add(angularVelocity, Vec3(axisX * turn * TurnForce, 0.0, 0.0));
    }

    method ReSet()
      modifies this
      ensures State() == RodReset(old(State()))
    {
      localPosition := defPos;
      localRotation := defRot;
      targetPosition := Zero3;
      targetRotation := Identity;
      velocity := Zero3;
      angularVelocity := Zero3;
    }

    function GetNormalizedAngle(): real
      reads this
    {
      NormAngle(signedAngle, sign)
    }

    function GetNormalizedPosition(): real
      reads this
      requires limit != 0.0
    {
      NormPosition(localPosition.x, limit)
    }

    function GetNormalizedVelocity(): real
      reads this
    {
      NormVelocity(velocity.x, sign)
    }

    function GetNormalizedAngularVelocity(): real
      reads this
    {
      NormAngularVelocity(angularVelocity.x, sign)
    }
  }
}
