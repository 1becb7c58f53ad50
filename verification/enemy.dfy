/**
 * The patrolling enemy: how it is built, and the per-tick movement system
 * that casts a ray ahead of each enemy, turns it around when a wall is
 * close, and (re)sets its horizontal drive force.
 */
module Enemy {
  import opened Ecs
  import opened Physic

  /** Range of the patrol ray. */
  const MAX_TOI: real := 60.0
  /** A hit strictly closer than this reverses the enemy. */
  const REVERSE_DISTANCE: real := 50.0
  /** Magnitude of the horizontal drive force. */
  const DRIVE_FORCE: real := 4000000.0
  const ENEMY_LINEAR_DAMPING: real := 5.0
  const ENEMY_RADIUS: real := 25.0
  const ENEMY_SPAWN: Vec2 := Vec2(0.0, -150.0)

  /** The groups the enemy's collider carries: a pawn that meets all four groups. */
  const ENEMY_GROUPS: CollisionGroups :=
    CollisionGroups(PAWN_GROUP, AllGameGroups())

  /** The filter of the patrol ray: it queries as a pawn and sees only world and invisible walls. */
  const PATROL_RAY_GROUPS: CollisionGroups :=
    CollisionGroups(PAWN_GROUP, WORLD_GROUP | INVISIBLE_WALL_GROUP)

  /** A patrol direction: the engine keeps it as a float that is only ever 1 or its negation. */
  predicate IsDirection(d: int) {
    d == 1 || d == -1
  }

  /** The gameplay-relevant components of a freshly built enemy. */
  datatype EnemyBundle = EnemyBundle(
    direction: int,
    position: Vec2,
    radius: real,
    linearDamping: real,
    force: Vec2,
    groups: CollisionGroups)

  function NewEnemyBundle(): (b: EnemyBundle)
    ensures b.direction == 1 && IsDirection(b.direction)
    ensures b.position == ENEMY_SPAWN && b.force == ZERO
    ensures b.radius == 25.0 && b.linearDamping == 5.0
    ensures b.groups.memberships == PAWN_GROUP
    ensures forall i :: 0 <= i < |GAME_GROUPS| ==> Includes(b.groups.filters, GAME_GROUPS[i])
    ensures b.groups == CollisionGroups(PAWN_GROUP, AllGameGroups())
    ensures b.groups.filters & !(PLAYER_GROUP | PAWN_GROUP | WORLD_GROUP | INVISIBLE_WALL_GROUP) == 0
  {
    EnemyBundle(1, ENEMY_SPAWN, ENEMY_RADIUS, ENEMY_LINEAR_DAMPING, ZERO, ENEMY_GROUPS)
  }

  /** What the movement system's query yields per enemy: transform, external force, direction. */
  datatype EnemyEntity = EnemyEntity(position: Vec2, force: Vec2, direction: int)

  function Spawn(b: EnemyBundle): (e: EnemyEntity)
    ensures e.direction == b.direction && e.position == b.position && e.force == b.force
  {
    EnemyEntity(b.position, b.force, b.direction)
  }

  /**
   * The physics context's ray cast, seen from the movement system: origin,
   * direction, maximum distance, solidity and filter give the distance to the
   * first hit, if any. The world does not move while the system runs, so one
   * function serves the whole tick.
   */
  type RayCast = (Vec2, Vec2, real, bool, CollisionGroups) -> Option<real>

  datatype RapierContext = RapierContext(castRay: RayCast)

  /** The ray an enemy casts: from its position, along its direction, 60 long, solid, patrol filter. */
  function PatrolRay(e: EnemyEntity, castRay: RayCast): Option<real> {
    castRay(e.position, Vec2(e.direction as real, 0.0), MAX_TOI, true, PATROL_RAY_GROUPS)
  }

  /** A hit reverses the enemy exactly when it is strictly closer than 50. */
  predicate Reverses(hit: Option<real>) {
    hit.Some? && hit.value < REVERSE_DISTANCE
  }

  /** One enemy's update within a tick. */
  function PatrolStep(e: EnemyEntity, castRay: RayCast): (r: EnemyEntity)
    ensures r.position == e.position
    ensures r.direction == e.direction || r.direction == -e.direction
    ensures IsDirection(e.direction) ==> IsDirection(r.direction) && r.direction != 0
    ensures r.force == Vec2(r.direction as real * DRIVE_FORCE, 0.0)
  {
    var direction := if Reverses(PatrolRay(e, castRay)) then -e.direction else e.direction;
    e.(direction := direction, force := Vec2(direction as real * DRIVE_FORCE, 0.0))
  }

  /** A hit closer than 50 turns the enemy around and drives it the other way. */
  lemma CloseHitReverses(e: EnemyEntity, castRay: RayCast)
    requires PatrolRay(e, castRay).Some? && PatrolRay(e, castRay).value < 50.0
    ensures PatrolStep(e, castRay).direction == -e.direction
    ensures PatrolStep(e, castRay).force == Vec2(-(e.direction as real) * 4000000.0, 0.0)
  {
  }

  /** No hit, or a hit at 50 or farther (the bound is exclusive), leaves the direction alone. */
  lemma FarOrNoHitKeepsDirection(e: EnemyEntity, castRay: RayCast)
    requires PatrolRay(e, castRay).None? || PatrolRay(e, castRay).value >= 50.0
    ensures PatrolStep(e, castRay).direction == e.direction
    ensures PatrolStep(e, castRay).force == Vec2(e.direction as real * 4000000.0, 0.0)
  {
  }

  /** The drive force is overwritten: the previous force has no influence on the step. */
  lemma ForceOverwritten(e: EnemyEntity, previous: Vec2, castRay: RayCast)
    ensures PatrolStep(e.(force := previous), castRay) == PatrolStep(e, castRay)
  {
  }

  /** Each enemy in the query order updated by PatrolStep with the same ray cast. */
  function PatrolAll(enemies: seq<EnemyEntity>, castRay: RayCast): seq<EnemyEntity>
    decreases |enemies|
  {
    if enemies == [] then [] else [PatrolStep(enemies[0], castRay)] + PatrolAll(enemies[1..], castRay)
  }

  /** The movement system on the enemies' state: a no-op unless there is exactly one physics context. */
  function MovementSystem(enemies: seq<EnemyEntity>, contexts: seq<RapierContext>): seq<EnemyEntity> {
    match Single(contexts)
    case None => enemies
    case Some(context) => PatrolAll(enemies, context.castRay)
  }

  /** Enemy i is updated from its own state only, and the count of enemies is unchanged. */
  lemma {:induction false} PatrolAllAt(enemies: seq<EnemyEntity>, castRay: RayCast, i: nat)
    requires i < |enemies|
    ensures |PatrolAll(enemies, castRay)| == |enemies|
    ensures PatrolAll(enemies, castRay)[i] == PatrolStep(enemies[i], castRay)
  {
    PatrolAllLength(enemies, castRay);
    if i > 0 {
      PatrolAllAt(enemies[1..], castRay, i - 1);
    }
  }

  lemma {:induction false} PatrolAllLength(enemies: seq<EnemyEntity>, castRay: RayCast)
    ensures |PatrolAll(enemies, castRay)| == |enemies|
  {
    if enemies != [] {
      PatrolAllLength(enemies[1..], castRay);
    }
  }

  /** Without exactly one physics context, no enemy's direction or force changes. */
  lemma NoContextNoChange(enemies: seq<EnemyEntity>, contexts: seq<RapierContext>)
    requires |contexts| != 1
    ensures MovementSystem(enemies, contexts) == enemies
  {
  }

  /**
   * The result for enemy i is a function of enemy i alone: two queries that
   * agree on enemy i yield the same enemy i, whatever the other enemies are.
   */
  lemma EnemiesIndependent(a: seq<EnemyEntity>, b: seq<EnemyEntity>, contexts: seq<RapierContext>, i: nat)
    requires i < |a| && i < |b| && a[i] == b[i]
    ensures |MovementSystem(a, contexts)| == |a| && |MovementSystem(b, contexts)| == |b|
    ensures MovementSystem(a, contexts)[i] == MovementSystem(b, contexts)[i]
  {
    if |contexts| == 1 {
      PatrolAllAt(a, contexts[0].castRay, i);
      PatrolAllAt(b, contexts[0].castRay, i);
    }
  }

  predicate AllDirections(enemies: seq<EnemyEntity>) {
    forall i :: 0 <= i < |enemies| ==> IsDirection(enemies[i].direction)
  }

  /** A tick keeps every enemy's direction in {-1, +1}. */
  lemma MovementSystemKeepsDirections(enemies: seq<EnemyEntity>, contexts: seq<RapierContext>)
    requires AllDirections(enemies)
    ensures AllDirections(MovementSystem(enemies, contexts))
    ensures |MovementSystem(enemies, contexts)| == |enemies|
  {
    if |contexts| == 1 {
      var r := MovementSystem(enemies, contexts);
      PatrolAllLength(enemies, contexts[0].castRay);
      forall i | 0 <= i < |r|
        ensures IsDirection(r[i].direction)
      {
        PatrolAllAt(enemies, contexts[0].castRay, i);
      }
    }
  }

  /** The enemies' state after a run of ticks, one sequence of physics contexts per tick. */
  function RunTicks(enemies: seq<EnemyEntity>, ticks: seq<seq<RapierContext>>): seq<EnemyEntity>
    decreases |ticks|
  {
    if ticks == [] then enemies else RunTicks(MovementSystem(enemies, ticks[0]), ticks[1..])
  }

  /** Enemies built from the bundle have direction +1 or -1, never 0, after any number of ticks. */
  lemma {:induction false} DirectionAlwaysUnit(enemies: seq<EnemyEntity>, ticks: seq<seq<RapierContext>>)
    requires forall i :: 0 <= i < |enemies| ==> enemies[i] == Spawn(NewEnemyBundle())
    ensures AllDirections(RunTicks(enemies, ticks))
    ensures forall i :: 0 <= i < |RunTicks(enemies, ticks)| ==> RunTicks(enemies, ticks)[i].direction != 0
  {
    RunTicksKeepsDirections(enemies, ticks);
  }

  lemma {:induction false} RunTicksKeepsDirections(enemies: seq<EnemyEntity>, ticks: seq<seq<RapierContext>>)
    requires AllDirections(enemies)
    ensures AllDirections(RunTicks(enemies, ticks))
    decreases |ticks|
  {
    if ticks != [] {
      MovementSystemKeepsDirections(enemies, ticks[0]);
      RunTicksKeepsDirections(MovementSystem(enemies, ticks[0]), ticks[1..]);
    }
  }

  /**
   * The movement system as it runs on the query's components: when the
   * physics context is present, each enemy in turn casts its ray, possibly
   * reverses, and gets its drive force overwritten.
   */
  method EnemyMovementSystem(query: array<EnemyEntity>, contexts: seq<RapierContext>)
    modifies query
    ensures query[..] == MovementSystem(old(query[..]), contexts)
    ensures |contexts| != 1 ==> query[..] == old(query[..])
    ensures |contexts| == 1 ==> forall i :: 0 <= i < query.Length ==>
      query[i] == PatrolStep(old(query[i]), contexts[0].castRay)
  {
    var context := Single(contexts);
    if context.None? {
      return;
    }
    var castRay := context.value.castRay;
    var i := 0;
    while i < query.Length
      invariant 0 <= i <= query.Length
      invariant forall k :: 0 <= k < i ==> query[k] == PatrolStep(old(query[k]), castRay)
      invariant forall k :: i <= k < query.Length ==> query[k] == old(query[k])
    {
      var enemy := query[i];
      var hit := castRay(enemy.position, Vec2(enemy.direction as real, 0.0), MAX_TOI, true, PATROL_RAY_GROUPS);
      var direction := enemy.direction;
      if hit.Some? && hit.value < REVERSE_DISTANCE {
        direction := -direction;
      }
      query[i] := enemy.(direction := direction, force := Vec2(direction as real * DRIVE_FORCE, 0.0));
      i := i + 1;
    }
    ghost var before := old(query[..]);
    PatrolAllLength(before, castRay);
    forall k | 0 <= k < query.Length
      ensures query[..][k] == PatrolAll(before, castRay)[k]
    {
      PatrolAllAt(before, castRay, k);
    }
  }

  /** The patrol ray's filter shares no bit with the player or pawn groups. */
  lemma PatrolRayMaskExcludesPlayerAndPawn()
    ensures Disjoint(PATROL_RAY_GROUPS.filters, PLAYER_GROUP)
    ensures Disjoint(PATROL_RAY_GROUPS.filters, PAWN_GROUP)
    ensures Includes(PATROL_RAY_GROUPS.filters, WORLD_GROUP)
    ensures Includes(PATROL_RAY_GROUPS.filters, INVISIBLE_WALL_GROUP)
  {
  }

  /**
   * The patrol ray never hits a collider that belongs only to the player
   * and/or pawn groups; in particular it never hits the enemy itself or
   * another enemy.
   */
  lemma PatrolRayIgnoresPlayersAndPawns(collider: CollisionGroups)
    requires collider.memberships & !(PLAYER_GROUP | PAWN_GROUP) == 0
    ensures !InteractionTest(PATROL_RAY_GROUPS, collider)
    ensures !InteractionTest(PATROL_RAY_GROUPS, ENEMY_GROUPS)
  {
    FilterExcludes(PATROL_RAY_GROUPS, collider, PLAYER_GROUP | PAWN_GROUP);
    FilterExcludes(PATROL_RAY_GROUPS, ENEMY_GROUPS, PLAYER_GROUP | PAWN_GROUP);
  }

  /** The patrol ray does see world and invisible-wall colliders that accept pawns. */
  lemma PatrolRaySeesWalls(collider: CollisionGroups)
    requires Includes(collider.filters, PAWN_GROUP)
    requires collider.memberships == WORLD_GROUP || collider.memberships == INVISIBLE_WALL_GROUP
    ensures InteractionTest(PATROL_RAY_GROUPS, collider)
  {
  }
}
