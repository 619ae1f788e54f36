/** Ball.cs: the ball controller. Rigid-body integration is outside the
    model: the body's position and velocities are fields that the physics
    engine (the caller) may change between events, and an impulse handed to
    AddForce is recorded rather than applied. Unity's Invoke scheduling is
    the `pending` schedule and C# event dispatch is the `dispatched` log. */
module BallController {
  import opened Geometry
  import opened Util
  import opened Events

  /** Consecutive slow samples (one per second) that trigger an auto-kick. */
  const IdleTimeout: int := 1
  const KickForce: real := 0.25
  const VelocityThreshold: real := 0.1
  const CenterRadius: real := 0.2
  const WallBounce: real := 0.9
  const MinY: real := 0.065
  const YRange: real := 0.11
  const InitialFieldWidth: real := 0.762
  const InitialFieldLength: real := 1.4224
  /** Half the size of the watchdog box (0.8, 0.4, 1.5) centred at the origin. */
  const BoundsExtent: Vec3 := Vec3(0.4, 0.2, 0.75)
  const AutoKickDelay: real := 0.5
  const CheckVelocityDelay: real := 1.0
  const CheckVelocityRate: real := 1.0

  datatype Routine = AutoKickRoutine | CheckVelocityRoutine

  /** A scheduled call: Invoke (once) or InvokeRepeating. */
  datatype Invocation =
    | Once(routine: Routine, delay: real)
    | Repeating(routine: Routine, delay: real, rate: real)

  /** The five event handlers of the ball. */
  datatype Channel = ResetChannel | AutoKickChannel | GoalChannel | PlayerContactChannel | TableContactChannel

  datatype Dispatch = Dispatch(channel: Channel, event: BallEvent)

  // ---------------------------------------------------------------------
  // Idle detection

  /** `rb.velocity.magnitude < velocityThreshold`, compared on squares. */
  function Slow(v: Vec3): (r: bool)
    ensures v == Zero3 ==> r
    ensures r ==> Abs(v.x) < VelocityThreshold && Abs(v.y) < VelocityThreshold && Abs(v.z) < VelocityThreshold
  {
    SquareBelow(v.x, v.y * v.y + v.z * v.z, VelocityThreshold);
    SquareBelow(v.y, v.x * v.x + v.z * v.z, VelocityThreshold);
    SquareBelow(v.z, v.x * v.x + v.y * v.y, VelocityThreshold);
    SqMagnitude(v) < VelocityThreshold * VelocityThreshold
  }

  /** A square below t * t, even with something non-negative added, puts
      the number within (-t, t). */
  lemma SquareBelow(x: real, rest: real, t: real)
    requires t > 0.0
    ensures rest >= 0.0 && x * x + rest < t * t ==> Abs(x) < t
  {
    if Abs(x) >= t {
      assert Abs(x) * Abs(x) >= t * Abs(x) >= t * t;
      assert x * x == Abs(x) * Abs(x);
    }
  }

  datatype IdleOutcome = IdleOutcome(count: int, kick: bool)

  /** CheckVelocity's counter step: a slow sample pre-increments the counter
      and kicks when it reaches the timeout; a fast one clears it. */
  function IdleStep(count: int, slow: bool): (r: IdleOutcome)
    ensures r.kick ==> slow && r.count == IdleTimeout
    ensures !slow ==> r.count == 0 && !r.kick
    ensures slow ==> r.count == count + 1 && (r.kick <==> count + 1 == IdleTimeout)
    ensures 0 <= count < IdleTimeout ==> (r.kick || 0 <= r.count < IdleTimeout)
  {
    if slow then IdleOutcome(count + 1, count + 1 == IdleTimeout)
    else IdleOutcome(0, false)
  }

  /** With a timeout of one, every slow sample kicks. */
  lemma OneSlowSampleKicks(count: int, slow: bool)
    requires 0 <= count < IdleTimeout
    ensures IdleStep(count, slow).kick == slow
    ensures count == 0
  {
  }

  // ---------------------------------------------------------------------
  // Auto-kick

  /** The kick direction for a sample p of the unit disk: outward along p from
      near the centre; from farther than CenterRadius (magnitudes compared on
      squares), towards the point CenterRadius * p. */
  function KickDirection(pos: Vec3, p: Vec2): (r: Vec3)
    ensures SqMagnitude(pos) <= CenterRadius * CenterRadius ==> r == Vec3(p.x, 0.0, p.y)
    ensures SqMagnitude(pos) > CenterRadius * CenterRadius ==>
              Add(pos, r) == Vec3(CenterRadius * p.x, 0.0, CenterRadius * p.y)
  {
    if SqMagnitude(pos) > CenterRadius * CenterRadius then
      Sub(Vec3(CenterRadius * p.x, 0.0, CenterRadius * p.y), pos)
    else
      Vec3(p.x, 0.0, p.y)
  }

  /** The impulse `dir.normalized * kickForce`, given |dir|. */
  function KickImpulse(dir: Vec3, len: real): (r: Vec3)
    requires len >= 0.0 && len * len == SqMagnitude(dir)
    ensures len > NormalizeEpsilon ==> SqMagnitude(r) == KickForce * KickForce
    ensures len <= NormalizeEpsilon ==> r == Zero3
  {
    var u := Normalized(dir, len);
    SqMagnitudeScale(KickForce, u);
    Scale(KickForce, u)
  }

  /** Near the centre the kick is horizontal and points along the sample,
      read in the (x, z) plane. */
  lemma KickNearCentre(pos: Vec3, p: Vec2)
    requires SqMagnitude(pos) <= CenterRadius * CenterRadius
    ensures KickDirection(pos, p).y == 0.0
    ensures Dot(KickDirection(pos, p), Vec3(p.x, 0.0, p.y)) == SqMagnitude2(p)
    ensures SqMagnitude(KickDirection(pos, p)) == SqMagnitude2(p)
  {
  }

  /** Away from the centre the kick points back towards it: its component
      along the ball's position is negative. */
  lemma KickHeadsInward(pos: Vec3, p: Vec2)
    requires SqMagnitude2(p) <= 1.0
    requires SqMagnitude(pos) > CenterRadius * CenterRadius
    ensures Dot(KickDirection(pos, p), pos) < 0.0
  {
    var q := Vec3(CenterRadius * p.x, 0.0, CenterRadius * p.y);
    assert SqMagnitude(q) == CenterRadius * CenterRadius * SqMagnitude2(p);
    assert SqMagnitude(q) <= CenterRadius * CenterRadius;
    var d := Sub(q, pos);
    SqMagnitudeNonNegative(d);
    assert SqMagnitude(d) == SqMagnitude(q) - 2.0 * Dot(q, pos) + SqMagnitude(pos);
    assert Dot(d, pos) == Dot(q, pos) - SqMagnitude(pos);
  }

  // ---------------------------------------------------------------------
  // Wall bounce

  /** The wall normal picked from the wall's local position: the end walls
      (|z| > 0.5) face along z, the side walls along x; Mathf.Sign(0) is 1. */
  function WallNormal(p: Vec3): (n: Vec3)
    ensures SqMagnitude(n) == 1.0
    ensures Abs(p.z) > 0.5 ==> n == Vec3(0.0, 0.0, -Sign(p.z))
    ensures Abs(p.z) <= 0.5 ==> n == Vec3(-Sign(p.x), 0.0, 0.0)
  {
    if Abs(p.z) > 0.5 then Vec3(0.0, 0.0, -Sign(p.z)) else Vec3(-Sign(p.x), 0.0, 0.0)
  }

  /** The velocity after hitting a wall: the incoming velocity
      (-relativeVelocity) reflected about the wall normal and damped. */
  function BounceVelocity(wallPos: Vec3, relativeVelocity: Vec3): (r: Vec3)
    ensures SqMagnitude(r) == WallBounce * WallBounce * SqMagnitude(relativeVelocity)
  {
    DampedReflection(WallBounce, Neg(relativeVelocity), WallNormal(wallPos));
    SqMagnitudeNeg(relativeVelocity);
    Scale(WallBounce, Reflect(Neg(relativeVelocity), WallNormal(wallPos)))
  }

  /** A bounce keeps 81% of the kinetic energy, reverses the normal component
      and damps the tangential one by the same factor. */
  lemma BounceLaw(wallPos: Vec3, rel: Vec3)
    ensures var n, v := WallNormal(wallPos), Neg(rel);
            SqMagnitude(BounceVelocity(wallPos, rel)) == WallBounce * WallBounce * SqMagnitude(rel) &&
            Dot(BounceVelocity(wallPos, rel), n) == -WallBounce * Dot(v, n)
  {
    var n := WallNormal(wallPos);
    DampedReflection(WallBounce, Neg(rel), n);
    SqMagnitudeNeg(rel);
  }

  lemma DampedReflection(k: real, v: Vec3, n: Vec3)
    requires SqMagnitude(n) == 1.0
    ensures SqMagnitude(Scale(k, Reflect(v, n))) == k * k * SqMagnitude(v)
    ensures Dot(Scale(k, Reflect(v, n)), n) == -k * Dot(v, n)
  {
    var r := Reflect(v, n);
    ReflectLaw(v, n);
    SqMagnitudeScale(k, r);
    DotScaleLeft(k, r, n);
  }

  // ---------------------------------------------------------------------
  // Watchdog and field size

  /** Bounds.Contains for the watchdog box: a closed box. */
  function InBounds(p: Vec3): (r: bool)
    ensures p == Zero3 ==> r
    ensures r ==> SqMagnitude(p) <= BoundsExtent.x * BoundsExtent.x + BoundsExtent.y * BoundsExtent.y +
                                     BoundsExtent.z * BoundsExtent.z
  {
    SquareWithin(p.x, BoundsExtent.x);
    SquareWithin(p.y, BoundsExtent.y);
    SquareWithin(p.z, BoundsExtent.z);
    Abs(p.x) <= BoundsExtent.x && Abs(p.y) <= BoundsExtent.y && Abs(p.z) <= BoundsExtent.z
  }

  lemma SquareWithin(x: real, t: real)
    requires t >= 0.0
    ensures Abs(x) <= t ==> x * x <= t * t
  {
    if Abs(x) <= t {
      assert x * x == Abs(x) * Abs(x);
      assert Abs(x) * Abs(x) <= t * Abs(x) <= t * t;
    }
  }

  /** Initialize's field-size update: half the extent minus the ball size. */
  function HalfExtent(w: real, r: real): real
  {
    (w - r) * 0.5
  }

  /** Initialize is not idempotent: a second call halves the field again
      (for any ball size that leaves a positive field). */
  lemma InitializeTwiceShrinks(w: real, r: real)
    requires HalfExtent(w, r) > 0.0 && r >= 0.0
    ensures HalfExtent(HalfExtent(w, r), r) < HalfExtent(w, r)
  {
  }

  /** The playing field after one Initialize lies inside the watchdog box. */
  lemma FieldInsideBounds(r: real)
    requires 0.0 <= r < InitialFieldWidth
    ensures 0.0 < HalfExtent(InitialFieldWidth, r) <= BoundsExtent.x
    ensures 0.0 < HalfExtent(InitialFieldLength, r) <= BoundsExtent.z
  {
  }

  class Ball {
    var position: Vec3
    var velocity: Vec3
    var angularVelocity: Vec3
    var defPos: Vec3
    var idleCount: int
    var fieldWidth: real
    var fieldLength: real
    /** Scheduled calls not yet cancelled. */
    var pending: seq<Invocation>
    /** Events handed to the handlers, oldest first. */
    var dispatched: seq<Dispatch>
    /** Impulses handed to the physics engine, oldest first. */
    var impulses: seq<Vec3>

    ghost predicate Valid()
      reads this
    {
      0 <= idleCount < IdleTimeout && |pending| <= 1
    }

    constructor (position: Vec3)
      ensures Valid()
      ensures this.position == position && velocity == Zero3 && angularVelocity == Zero3
      ensures fieldWidth == InitialFieldWidth && fieldLength == InitialFieldLength
      ensures pending == [] && dispatched == [] && impulses == []
      ensures defPos == Zero3 && idleCount == 0
    {
      this.position := position;
      velocity, angularVelocity := Zero3, Zero3;
      defPos := Zero3;
      idleCount := 0;
      fieldWidth, fieldLength := InitialFieldWidth, InitialFieldLength;
      pending, dispatched, impulses := [], [], [];
    }

    /** Initialize: remembers the start position and shrinks the field by the
      ball size `r` (transform.localScale.x). */
    method Initialize(r: real)
      modifies this
      ensures defPos == old(position)
      ensures fieldWidth == HalfExtent(old(fieldWidth), r)
      ensures fieldLength == HalfExtent(old(fieldLength), r)
      ensures position == old(position) && velocity == old(velocity)
      ensures angularVelocity == old(angularVelocity) && idleCount == old(idleCount)
      ensures pending == old(pending) && dispatched == old(dispatched) && impulses == old(impulses)
    {
      defPos := position;
      fieldWidth := (fieldWidth - r) * 0.5;
      fieldLength := (fieldLength - r) * 0.5;
    }

    method ReSet()
      requires Valid()
      modifies this
      ensures Valid()
      ensures dispatched == old(dispatched) + [Dispatch(ResetChannel, NoEvent)]
      ensures position == old(defPos) && velocity == Zero3 && angularVelocity == Zero3
      ensures pending == [Once(AutoKickRoutine, AutoKickDelay)]
      ensures defPos == old(defPos) && idleCount == old(idleCount) && impulses == old(impulses)
      ensures fieldWidth == old(fieldWidth) && fieldLength == old(fieldLength)
    {
      dispatched := dispatched + [Dispatch(ResetChannel, NoEvent)];
      SetToCenter();
    }

    /** Back to the start position at rest, with an auto-kick as the only
      scheduled call. */
    method SetToCenter()
      requires Valid()
      modifies this
      ensures Valid()
      ensures position == old(defPos) && velocity == Zero3 && angularVelocity == Zero3
      ensures pending == [Once(AutoKickRoutine, AutoKickDelay)]
      ensures defPos == old(defPos) && idleCount == old(idleCount)
      ensures dispatched == old(dispatched) && impulses == old(impulses)
      ensures fieldWidth == old(fieldWidth) && fieldLength == old(fieldLength)
    {
      position := defPos;
      velocity := Zero3;
      angularVelocity := Zero3;
      pending := [];                                          // CancelInvoke
      pending := pending + [Once(AutoKickRoutine, AutoKickDelay)];
    }

    /** AutoKick, given the unit-disk sample `p` and the magnitude of the
      kick direction. */
    method AutoKick(p: Vec2, dirLen: real)
      requires dirLen >= 0.0 && dirLen * dirLen == SqMagnitude(KickDirection(position, p))
      modifies this
      ensures Valid()
      ensures dispatched == old(dispatched) + [Dispatch(AutoKickChannel, NoEvent)]
      ensures impulses == old(impulses) + [KickImpulse(KickDirection(old(position), p), dirLen)]
      ensures idleCount == 0
      ensures pending == [Repeating(CheckVelocityRoutine, CheckVelocityDelay, CheckVelocityRate)]
      ensures position == old(position) && velocity == old(velocity)
      ensures angularVelocity == old(angularVelocity) && defPos == old(defPos)
      ensures fieldWidth == old(fieldWidth) && fieldLength == old(fieldLength)
    {
      dispatched := dispatched + [Dispatch(AutoKickChannel, NoEvent)];
      var dir := Vec3(p.x, 0.0, p.y);
      if SqMagnitude(position) > CenterRadius * CenterRadius {
        var q := Vec2(CenterRadius * p.x, CenterRadius * p.y);
        dir := Sub(Vec3(q.x, 0.0, q.y), position);
      }
      impulses := impulses + [KickImpulse(dir, dirLen)];
      idleCount := 0;
      pending := [];                                          // CancelInvoke
      pending := pending + [Repeating(CheckVelocityRoutine, CheckVelocityDelay, CheckVelocityRate)];
    }

    /** The once-a-second idle check; `p` and `dirLen` feed the auto-kick it
      may fire. */
    method CheckVelocity(p: Vec2, dirLen: real)
      requires Valid()
      requires dirLen >= 0.0 && dirLen * dirLen == SqMagnitude(KickDirection(position, p))
      modifies this
      ensures Valid() && idleCount == 0
      ensures Slow(old(velocity)) ==>
                dispatched == old(dispatched) + [Dispatch(AutoKickChannel, NoEvent)] &&
                impulses == old(impulses) + [KickImpulse(KickDirection(old(position), p), dirLen)] &&
                pending == [Repeating(CheckVelocityRoutine, CheckVelocityDelay, CheckVelocityRate)]
      ensures !Slow(old(velocity)) ==>
                dispatched == old(dispatched) && impulses == old(impulses) && pending == old(pending)
      ensures position == old(position) && velocity == old(velocity)
      ensures angularVelocity == old(angularVelocity) && defPos == old(defPos)
      ensures fieldWidth == old(fieldWidth) && fieldLength == old(fieldLength)
    {
      var outcome := IdleStep(idleCount, Slow(velocity));
      idleCount := outcome.count;
      if outcome.kick {
        AutoKick(p, dirLen);
      }
    }

    /** The out-of-bounds watchdog. */
    method Update()
      requires Valid()
      modifies this
      ensures Valid()
      ensures InBounds(old(position)) ==>
                position == old(position) && velocity == old(velocity) &&
                angularVelocity == old(angularVelocity) && pending == old(pending)
      ensures !InBounds(old(position)) ==>
                position == old(defPos) && velocity == Zero3 && angularVelocity == Zero3 &&
                pending == [Once(AutoKickRoutine, AutoKickDelay)]
      ensures defPos == old(defPos) && idleCount == old(idleCount)
      ensures dispatched == old(dispatched) && impulses == old(impulses)
      ensures fieldWidth == old(fieldWidth) && fieldLength == old(fieldLength)
    {
      if !InBounds(position) {
        SetToCenter();
      }
    }

    /** A goal trigger dispatches the goal event, then recentres. */
    method OnTriggerEnter(sc: Scene, o: ObjectId)
      requires Valid()
      requires HasTag(sc, o, GoalTag) ==> HasParent(sc, o)
      modifies this
      ensures Valid()
      ensures HasTag(sc, o, GoalTag) ==>
                dispatched == old(dispatched) + [Dispatch(GoalChannel, FromObject(sc, o))] &&
                position == old(defPos) && velocity == Zero3 && angularVelocity == Zero3 &&
                pending == [Once(AutoKickRoutine, AutoKickDelay)]
      ensures !HasTag(sc, o, GoalTag) ==>
                dispatched == old(dispatched) && position == old(position) &&
                velocity == old(velocity) && angularVelocity == old(angularVelocity) &&
                pending == old(pending)
      ensures defPos == old(defPos) && idleCount == old(idleCount) && impulses == old(impulses)
      ensures fieldWidth == old(fieldWidth) && fieldLength == old(fieldLength)
    {
      if HasTag(sc, o, GoalTag) {
        dispatched := dispatched + [Dispatch(GoalChannel, FromObject(sc, o))];
        SetToCenter();
      }
    }

    method OnCollisionEnter(sc: Scene, c: Collision)
      requires Attributable(sc, c.collider)
      modifies this
      ensures OnCollisionEffect(sc, FromCollision(sc, c, Enter), old(velocity), old(dispatched))
      ensures Unchanged(old(position), old(angularVelocity), old(defPos), old(idleCount),
                        old(pending), old(impulses), old(fieldWidth), old(fieldLength))
    {
      OnCollision(sc, FromCollision(sc, c, Enter));
    }

    method OnCollisionExit(sc: Scene, c: Collision)
      requires Attributable(sc, c.collider)
      modifies this
      ensures OnCollisionEffect(sc, FromCollision(sc, c, Exit), old(velocity), old(dispatched))
      ensures Unchanged(old(position), old(angularVelocity), old(defPos), old(idleCount),
                        old(pending), old(impulses), old(fieldWidth), old(fieldLength))
    {
      OnCollision(sc, FromCollision(sc, c, Exit));
    }

    /** The fields OnCollision leaves alone. */
    ghost predicate Unchanged(pos: Vec3, ang: Vec3, def: Vec3, idle: int, pend: seq<Invocation>,
                              imp: seq<Vec3>, w: real, l: real)
      reads this
    {
      position == pos && angularVelocity == ang && defPos == def && idleCount == idle &&
      pending == pend && impulses == imp && fieldWidth == w && fieldLength == l
    }

    /** OnCollision's effect on velocity and the event log: player contacts
      are only dispatched; table contacts are dispatched and, on Enter, set
      the bounced velocity; anything else is ignored. */
    ghost predicate OnCollisionEffect(sc: Scene, e: BallEvent, v0: Vec3, log0: seq<Dispatch>)
      reads this
    {
      e.obj.Some? && e.collision.Some? &&
      (var o := e.obj.value;
       if HasTag(sc, o, PlayerTag) then
         dispatched == log0 + [Dispatch(PlayerContactChannel, e)] && velocity == v0
       else if HasTag(sc, o, TableTag) then
         dispatched == log0 + [Dispatch(TableContactChannel, e)] &&
         velocity == (if e.state == Enter
                      then BounceVelocity(sc.objects[o].localPosition, e.collision.value.relativeVelocity)
                      else v0)
       else
         dispatched == log0 && velocity == v0)
    }

    method OnCollision(sc: Scene, e: BallEvent)
      requires e.obj.Some? && e.collision.Some?
      modifies this
      ensures OnCollisionEffect(sc, e, old(velocity), old(dispatched))
      ensures Unchanged(old(position), old(angularVelocity), old(defPos), old(idleCount),
                        old(pending), old(impulses), old(fieldWidth), old(fieldLength))
    {
      var o := e.obj.value;
      if HasTag(sc, o, PlayerTag) {
        dispatched := dispatched + [Dispatch(PlayerContactChannel, e)];
      } else if HasTag(sc, o, TableTag) {
        dispatched := dispatched + [Dispatch(TableContactChannel, e)];
        if e.state == Enter {
          var p := sc.objects[o].localPosition;
          var normal := if Abs(p.z) > 0.5 then Vec3(0.0, 0.0, -1.0 * Sign(p.z))
                        else Vec3(-1.0 * Sign(p.x), 0.0, 0.0);
          velocity := Scale(WallBounce, Reflect(Neg(e.collision.value.relativeVelocity), normal));
        }
      }
    }

    // -------------------------------------------------------------------
    // Observations

    /** GetNormalizedPosition2D: (x, z) over the field's half extents. */
    function GetNormalizedPosition2D(): (r: Vec2)
      reads this
      requires fieldWidth > 0.0 && fieldLength > 0.0
      ensures Abs(position.x) <= fieldWidth ==> -1.0 <= r.x <= 1.0
      ensures Abs(position.z) <= fieldLength ==> -1.0 <= r.y <= 1.0
      ensures r.x * fieldWidth == position.x && r.y * fieldLength == position.z
    {
      Vec2(position.x / fieldWidth, position.z / fieldLength)
    }

    /** GetNormalizedPosition3D: as in 2D, plus the height mapped from
      [minY, minY + yRange] onto [-1, 1]. */
    function GetNormalizedPosition3D(): (r: Vec3)
      reads this
      requires fieldWidth > 0.0 && fieldLength > 0.0
      ensures To2(r).x == GetNormalizedPosition2D().x && r.z == GetNormalizedPosition2D().y
      ensures MinY <= position.y <= MinY + YRange ==> -1.0 <= r.y <= 1.0
      ensures position.y == MinY ==> r.y == -1.0
      ensures position.y == MinY + YRange ==> r.y == 1.0
    {
      Vec3(position.x / fieldWidth,
           ((position.y - MinY) / YRange) * 2.0 - 1.0,
           position.z / fieldLength)
    }

    /** GetNormalizedVelocity2D: the horizontal velocity (x, z), squashed. */
    function GetNormalizedVelocity2D(): (r: Vec2)
      reads this
      ensures -1.0 < r.x < 1.0 && -1.0 < r.y < 1.0
      ensures r.x == Sigmoid(velocity.x) && r.y == Sigmoid(velocity.z)
    {
      Vec2(Sigmoid(velocity.x), Sigmoid(velocity.z))
    }

    /** GetNormalizedVelocity3D: the squashed 3D velocity narrowed to a
      Vector2, so the z component is lost and y takes its place. */
    function GetNormalizedVelocity3D(): (r: Vec2)
      reads this
      ensures -1.0 < r.x < 1.0 && -1.0 < r.y < 1.0
      ensures r == Vec2(Sigmoid(velocity.x), Sigmoid(velocity.y))
    {
      To2(SigmoidVec(velocity))
    }
  }
}
