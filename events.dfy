/** Ball events and the scene they are attributed in. A game object is an
    identifier; the scene says for each object its tag, its parent in the
    transform hierarchy and its local position. Players sit under their rod
    (a PlayerPosition), rods under their team; a goal sits under the team it
    belongs to. */
module Events {
  import opened Geometry

  type ObjectId = nat

  datatype Option<T> = None | Some(value: T)

  /** The tags the core compares against; any other tag is Untagged. */
  datatype Tag = PlayerTag | TableTag | GoalTag | Untagged

  datatype SceneObject = SceneObject(tag: Tag, parent: Option<ObjectId>, localPosition: Vec3)

  datatype Scene = Scene(objects: map<ObjectId, SceneObject>)

  /** BallEvent.CollisionState; Enter is the enum's default value. */
  datatype CollisionState = Enter | Stay | Exit

  /** The parts of Unity's Collision the core reads. */
  datatype Collision = Collision(collider: ObjectId, relativeVelocity: Vec3)

  /** BallEvent: set once by one of its three constructors. */
  datatype BallEvent = BallEvent(
    collision: Option<Collision>,
    state: CollisionState,
    obj: Option<ObjectId>,
    team: Option<ObjectId>,
    position: Option<ObjectId>,
    player: Option<ObjectId>)

  predicate HasTag(sc: Scene, o: ObjectId, t: Tag)
  {
    o in sc.objects && sc.objects[o].tag == t
  }

  /** `o.transform.parent` exists. */
  predicate HasParent(sc: Scene, o: ObjectId)
  {
    o in sc.objects && sc.objects[o].parent.Some?
  }

  function Parent(sc: Scene, o: ObjectId): ObjectId
    requires HasParent(sc, o)
  {
    sc.objects[o].parent.value
  }

  /** Dereferencing the attribution chain of a collider succeeds: a player
      has a rod, and the rod has a team. */
  predicate Attributable(sc: Scene, o: ObjectId)
  {
    HasTag(sc, o, PlayerTag) ==> HasParent(sc, o) && HasParent(sc, Parent(sc, o))
  }

  /** What every event promises about its attribution fields: a player comes
      with its rod and team, read off the hierarchy; a team without a player
      is the parent of a goal; a position never comes alone. */
  predicate Consistent(sc: Scene, e: BallEvent)
  {
    (e.player.Some? ==>
       e.obj == e.player && HasParent(sc, e.player.value) &&
       e.position == Some(Parent(sc, e.player.value)) &&
       HasParent(sc, e.position.value) &&
       e.team == Some(Parent(sc, e.position.value))) &&
    (e.player.None? ==> e.position.None?) &&
    (e.player.None? && e.team.Some? ==>
       e.obj.Some? && HasTag(sc, e.obj.value, GoalTag) && HasParent(sc, e.obj.value) &&
       e.team == Some(Parent(sc, e.obj.value)))
  }

  /** BallEvent(Collision, CollisionState). */
  function FromCollision(sc: Scene, c: Collision, state: CollisionState): (e: BallEvent)
    requires Attributable(sc, c.collider)
    ensures Consistent(sc, e)
    ensures e.collision == Some(c) && e.state == state && e.obj == Some(c.collider)
    ensures e.player.Some? <==> HasTag(sc, c.collider, PlayerTag)
    ensures !HasTag(sc, c.collider, PlayerTag) ==> e.team.None?
  {
    var o := c.collider;
    if HasTag(sc, o, PlayerTag) then
      var pos := Parent(sc, o);
      BallEvent(Some(c), state, Some(o), Some(Parent(sc, pos)), Some(pos), Some(o))
    else
      BallEvent(Some(c), state, Some(o), None, None, None)
  }

  /** BallEvent(GameObject): a goal is attributed to its parent team. */
  function FromObject(sc: Scene, o: ObjectId): (e: BallEvent)
    requires HasTag(sc, o, GoalTag) ==> HasParent(sc, o)
    ensures Consistent(sc, e)
    ensures e.obj == Some(o) && e.collision.None? && e.state == Enter && e.player.None?
    ensures e.team.Some? <==> HasTag(sc, o, GoalTag)
  {
    if HasTag(sc, o, GoalTag) then
      BallEvent(None, Enter, Some(o), Some(Parent(sc, o)), None, None)
    else
      BallEvent(None, Enter, Some(o), None, None, None)
  }

  /** BallEvent(): nothing attached. */
  const NoEvent: BallEvent := BallEvent(None, Enter, None, None, None, None)

  lemma NoEventConsistent(sc: Scene)
    ensures Consistent(sc, NoEvent)
    ensures NoEvent.obj.None? && NoEvent.team.None? && NoEvent.state == Enter
  {
  }

  /** A collision with a player names the player's team and rod. */
  lemma PlayerCollisionAttribution(sc: Scene, c: Collision, state: CollisionState)
    requires HasTag(sc, c.collider, PlayerTag) && Attributable(sc, c.collider)
    ensures FromCollision(sc, c, state).player == Some(c.collider)
    ensures FromCollision(sc, c, state).position == Some(Parent(sc, c.collider))
    ensures FromCollision(sc, c, state).team == Some(Parent(sc, Parent(sc, c.collider)))
  {
  }
}
