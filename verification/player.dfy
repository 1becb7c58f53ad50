/**
 * The player: how it is built, and the two fixed-step control systems that
 * turn the player's action state into a horizontal drive force and a jump
 * impulse.
 */
module Player {
  import opened Ecs
  import opened Physic
  import Enemy

  const RUN_STRENGTH: real := 9000000.0
  const JUMP_STRENGTH: real := 1000000.0
  const PLAYER_LINEAR_DAMPING: real := 5.0
  const PLAYER_RESTITUTION: real := 0.1
  const PLAYER_ADDITIONAL_MASS: real := 0.1
  const PLAYER_RADIUS: real := 25.0
  const PLAYER_SPAWN: Vec2 := Vec2(0.0, 0.0)

  /** The groups of the ground collider the level is set up with: world, meeting world, player and pawns. */
  const GROUND_GROUPS: CollisionGroups := CollisionGroups(WORLD_GROUP, WORLD_GROUP | PLAYER_GROUP | PAWN_GROUP)

  /** Run is a virtual axis from a negative and a positive key; Jump is one key. */
  datatype PlayerInputMap = PlayerInputMap(runNegative: KeyCode, runPositive: KeyCode, jump: KeyCode)

  /**
   * The gameplay-relevant components of a freshly built player. `groups` is
   * the collider's `CollisionGroups` component, None when the bundle has none.
   */
  datatype PlayerBundle = PlayerBundle(
    runStrength: real,
    jumpStrength: real,
    linearDamping: real,
    restitution: real,
    additionalMass: real,
    radius: real,
    position: Vec2,
    force: Vec2,
    impulse: Vec2,
    inputMap: PlayerInputMap,
    groups: Option<CollisionGroups>)

  function NewPlayerBundle(): (b: PlayerBundle)
    ensures b.runStrength == 9000000.0 && b.jumpStrength == 1000000.0
    ensures b.linearDamping == 5.0 && b.position == Vec2(0.0, 0.0)
    ensures b.restitution == 0.1 && b.additionalMass == 0.1 && b.radius == 25.0
    ensures b.force == ZERO && b.impulse == ZERO
    ensures b.inputMap == PlayerInputMap(KeyA, KeyD, Space)
    ensures b.groups.None?
  {
    PlayerBundle(RUN_STRENGTH, JUMP_STRENGTH, PLAYER_LINEAR_DAMPING, PLAYER_RESTITUTION,
                 PLAYER_ADDITIONAL_MASS, PLAYER_RADIUS, PLAYER_SPAWN, ZERO, ZERO,
                 PlayerInputMap(KeyA, KeyD, Space), None)
  }

  /** The groups the physics engine gives the player's collider. */
  function ColliderGroups(b: PlayerBundle): (g: CollisionGroups)
    ensures b.groups.Some? ==> g == b.groups.value
    ensures b.groups.None? ==> g.memberships == ALL_GROUPS && g.filters == ALL_GROUPS
  {
    match b.groups
    case None => DEFAULT_COLLISION_GROUPS
    case Some(g) => g
  }

  /** What the player's action state offers the control systems this tick. */
  datatype PlayerActionState = PlayerActionState(runAxis: Option<real>, jumpJustPressed: bool)

  /** What the control systems' queries yield for a player entity. */
  datatype PlayerEntity = PlayerEntity(
    actions: PlayerActionState,
    runStrength: real,
    jumpStrength: real,
    force: Vec2,
    impulse: Vec2)

  function Spawn(b: PlayerBundle, actions: PlayerActionState): (p: PlayerEntity)
    ensures p.runStrength == b.runStrength && p.jumpStrength == b.jumpStrength
    ensures p.force == b.force && p.impulse == b.impulse && p.actions == actions
  {
    PlayerEntity(actions, b.runStrength, b.jumpStrength, b.force, b.impulse)
  }

  predicate InUnitRange(v: real) {
    -1.0 <= v <= 1.0
  }

  /** The drive force after the run step: overwritten from the axis when there is axis data. */
  function RunForce(runAxis: Option<real>, runStrength: real, force: Vec2): (f: Vec2)
    ensures runAxis.None? ==> f == force
    ensures runAxis.Some? ==> f.y == 0.0
    ensures runAxis.Some? && InUnitRange(runAxis.value) && runStrength >= 0.0 ==>
      -runStrength <= f.x <= runStrength
  {
    match runAxis
    case None => force
    case Some(axis) => Vec2(axis * runStrength, 0.0)
  }

  /** The impulse after the jump step: overwritten only on a just-pressed jump. */
  function JumpImpulse(jumpJustPressed: bool, jumpStrength: real, impulse: Vec2): (i: Vec2)
    ensures !jumpJustPressed ==> i == impulse
    ensures jumpJustPressed ==> i.x == 0.0 && i.y == jumpStrength
  {
    if jumpJustPressed then Vec2(0.0, jumpStrength) else impulse
  }

  /** The run step on the player query: nothing happens unless it matches exactly one player. */
  function MovePlayers(players: seq<PlayerEntity>): seq<PlayerEntity> {
    match Single(players)
    case None => players
    case Some(p) => [p.(force := RunForce(p.actions.runAxis, p.runStrength, p.force))]
  }

  /** The jump step on the player query: nothing happens unless it matches exactly one player. */
  function JumpPlayers(players: seq<PlayerEntity>): seq<PlayerEntity> {
    match Single(players)
    case None => players
    case Some(p) => [p.(impulse := JumpImpulse(p.actions.jumpJustPressed, p.jumpStrength, p.impulse))]
  }

  /** The run step applied in place to the components of the matched player. */
  method MovePlayer(query: array<PlayerEntity>)
    modifies query
    ensures query[..] == MovePlayers(old(query[..]))
    ensures query.Length != 1 ==> query[..] == old(query[..])
    ensures query.Length == 1 && old(query[0]).actions.runAxis.None? ==> query[0] == old(query[0])
    ensures query.Length == 1 && old(query[0]).actions.runAxis.Some? ==>
      query[0] == old(query[0]).(force := Vec2(old(query[0]).actions.runAxis.value * old(query[0]).runStrength, 0.0))
  {
    if query.Length == 1 {
      var player := query[0];
      assert query[..] == [player];
      match player.actions.runAxis {
        case None =>
        case Some(axis) =>
          query[0] := player.(force := Vec2(axis * player.runStrength, 0.0));
          assert query[..] == [query[0]];
          assert RunForce(player.actions.runAxis, player.runStrength, player.force) == query[0].force;
          assert Single([player]) == Some(player);
      }
    }
  }

  /** The jump step applied in place to the components of the matched player. */
  method JumpPlayer(query: array<PlayerEntity>)
    modifies query
    ensures query[..] == JumpPlayers(old(query[..]))
    ensures query.Length != 1 || !old(query[0]).actions.jumpJustPressed ==> query[..] == old(query[..])
    ensures query.Length == 1 && old(query[0]).actions.jumpJustPressed ==>
      query[0] == old(query[0]).(impulse := Vec2(0.0, old(query[0]).jumpStrength))
  {
    if query.Length == 1 {
      var player := query[0];
      if !player.actions.jumpJustPressed {
        return;
      }
      query[0] := player.(impulse := Vec2(0.0, player.jumpStrength));
    }
  }

  /** The run step never touches anything but the force, and leaves the vertical force 0 whenever it acts. */
  lemma MovePlayersOnlyForce(players: seq<PlayerEntity>)
    ensures |MovePlayers(players)| == |players|
    ensures |players| == 1 && players[0].actions.runAxis.Some? ==>
      MovePlayers(players)[0].force.y == 0.0 &&
      MovePlayers(players)[0] == players[0].(force := MovePlayers(players)[0].force)
  {
  }

  /** The jump impulse is the same whatever the impulse was before: no accumulation, no grounded check. */
  lemma JumpIgnoresPreviousImpulse(p: PlayerEntity, previous: Vec2)
    requires p.actions.jumpJustPressed
    ensures JumpPlayers([p.(impulse := previous)]) == JumpPlayers([p])
    ensures JumpPlayers([p])[0].impulse == Vec2(0.0, p.jumpStrength)
  {
  }

  /** The drive force after a run of ticks, one axis reading per tick. */
  function ForceAfterTicks(axes: seq<Option<real>>, runStrength: real, force: Vec2): Vec2
    decreases |axes|
  {
    if axes == [] then force else ForceAfterTicks(axes[1..], runStrength, RunForce(axes[0], runStrength, force))
  }

  predicate AxesInRange(axes: seq<Option<real>>) {
    forall k :: 0 <= k < |axes| ==> axes[k].Some? ==> InUnitRange(axes[k].value)
  }

  /**
   * Force never accumulates: after any run of ticks with axis readings in
   * [-1, 1], the force is either the one the player started with (no tick
   * had axis data) or horizontal and at most the run strength in size.
   */
  lemma {:induction false} ForceNeverAccumulates(axes: seq<Option<real>>, runStrength: real, force: Vec2)
    requires runStrength >= 0.0
    requires AxesInRange(axes)
    ensures var f := ForceAfterTicks(axes, runStrength, force);
      f == force || (f.y == 0.0 && -runStrength <= f.x <= runStrength)
    decreases |axes|
  {
    if axes != [] {
      var next := RunForce(axes[0], runStrength, force);
      assert AxesInRange(axes[1..]) by {
        forall k | 0 <= k < |axes[1..]| ensures axes[1..][k].Some? ==> InUnitRange(axes[1..][k].value) {
          assert axes[1..][k] == axes[k + 1];
        }
      }
      ForceNeverAccumulates(axes[1..], runStrength, next);
    }
  }

  /**
   * A freshly spawned player, run for any number of ticks with axis readings
   * in [-1, 1], has a horizontal drive force of at most 9000000 in size, and
   * its first jump gives an upward impulse of exactly 1000000.
   */
  lemma SpawnedPlayerBounded(actions: PlayerActionState, axes: seq<Option<real>>)
    requires AxesInRange(axes)
    ensures var p := Spawn(NewPlayerBundle(), actions);
      var f := ForceAfterTicks(axes, p.runStrength, p.force);
      f.y == 0.0 && -9000000.0 <= f.x <= 9000000.0
    ensures actions.jumpJustPressed ==>
      JumpPlayers([Spawn(NewPlayerBundle(), actions)])[0].impulse == Vec2(0.0, 1000000.0)
  {
    var p := Spawn(NewPlayerBundle(), actions);
    ForceNeverAccumulates(axes, p.runStrength, p.force);
  }

  /**
   * The player as spawned carries no collision groups, so its collider has the
   * engine default (member of every group) and the enemy's patrol ray, whose
   * filter accepts world and invisible walls, is not kept off it.
   */
  lemma PatrolRayAdmitsSpawnedPlayer()
    ensures InteractionTest(Enemy.PATROL_RAY_GROUPS, ColliderGroups(NewPlayerBundle()))
  {
  }

  /**
   * The groups the player is evidently meant to carry: member of the player
   * group, meeting world, pawns and invisible walls. With them the patrol ray
   * ignores the player, while the player still meets the enemy and the
   * ground, whose groups are GROUND_GROUPS.
   */
  function IntendedPlayerGroups(): (g: CollisionGroups)
    ensures g.memberships == PLAYER_GROUP
    ensures Includes(g.filters, WORLD_GROUP) && Includes(g.filters, PAWN_GROUP)
    ensures Includes(g.filters, INVISIBLE_WALL_GROUP)
    ensures !InteractionTest(Enemy.PATROL_RAY_GROUPS, g)
    ensures InteractionTest(g, Enemy.ENEMY_GROUPS)
    ensures InteractionTest(g, GROUND_GROUPS)
  {
    var g := CollisionGroups(PLAYER_GROUP, WORLD_GROUP | PAWN_GROUP | INVISIBLE_WALL_GROUP);
    Enemy.PatrolRayIgnoresPlayersAndPawns(g);
    g
  }
}
