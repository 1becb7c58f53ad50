# bevy_platformer gameplay rules in Dafny

This project models the per-tick decision rules of a small 2D platformer built on an ECS engine with a rigid-body physics engine. It covers:

- the enemy's patrol. Each tick, each enemy casts a ray 60 units ahead, filtered to world and invisible-wall colliders. A hit strictly closer than 50 turns the enemy around. Its horizontal drive force is then overwritten with `direction * 4000000`.
- the player's two control systems. The run axis overwrites the drive force with `(axis * run_strength, 0)`. A just-pressed jump overwrites the impulse with `(0, jump_strength)`. Both do nothing unless the query matches exactly one player.
- the end screens (GameOver and Victory). The handler runs only in those two states. Per marked entity, Restart requests InGame and skips that entity's Quit check; otherwise Quit writes a successful exit. Entering an end state spawns one marked root entity bound to R/Q, and leaving it despawns every marked entity.
- the game state: three phases, with InGame as the default.
- the four single-bit collision groups and the masks built from them.

The ECS is reduced to plain state:

- A system's query is an `array` of component records. Enemy and player records are datatypes, and the system methods overwrite them in place.
- Engine resources (`NextState`, the exit-message writer, the world's entities) are fields of the class `Ui.App`.
- Each method is proved against a specification function on sequences or maps. Lemmas state the promised properties about those functions.
- Forces, distances and strengths are `real`. These values are exact at the sizes involved. The enemy direction, an `f32` that is only ever `1.` or its negation, is an `int`.

Files: `ecs.dfy` (Option, Vec2, key codes, singleton-query semantics), `physic.dfy`, `state.dfy`, `enemy.dfy`, `player.dfy`, `ui.dfy`.

Notes on what the code does:

- The player systems have no run condition on the game state. They act whenever exactly one player entity exists.
- The player systems emit no dust requests.
- The stomp rule and the InGame scene lifecycle are not in the modelled files.

## Model

| member | source | states |
|---|---|---|
| `Physic.GroupsAreSingleBits` | src/physic.rs:3-6 | PLAYER, PAWN, WORLD and INVISIBLE_WALL are the single bits 1<<0 … 1<<3 (GROUP_1..GROUP_4) |
| `Physic.GroupsPairwiseDisjoint` | src/physic.rs:3-6 | no two of the four groups share a bit |
| `Physic.AllGameGroups` | src/enemy.rs:60 | the union of the four groups includes each of them and nothing beyond bits 0..3 |
| `Physic.FilterExcludes` | src/enemy.rs:79-80 | under the engine's interaction test, a query whose filter is disjoint from a set of groups never reaches a collider that belongs only to those groups |
| `Ecs.Single` | src/player.rs:91-92 | a singleton query yields a value exactly when there is one match, and that value is the match |
| `State.DefaultState` | src/state.rs:3-6 | the default game state is InGame, neither GameOver nor Victory |
| `State.AllStates` | src/state.rs:4-9 | the game state has three distinct values |
| `State.EveryStateListed` | src/state.rs:4-9 | every game state is InGame, GameOver or Victory; there is no fourth |
| `Enemy.NewEnemyBundle` | src/enemy.rs:41-65 | a new enemy has direction +1 and sits at (0,-150) with zero force, radius 25 and damping 5; it belongs to PAWN only, and its filter is exactly PLAYER\|WORLD\|PAWN\|INVISIBLE_WALL: every game group and no other bit |
| `Enemy.PatrolStep` | src/enemy.rs:74-91 | one enemy's step keeps its position; the new direction is the old one or its negation, and is ±1 whenever the old one was; the force is exactly (new direction * 4000000, 0) |
| `Enemy.CloseHitReverses` | src/enemy.rs:82-87 | a ray hit with toi < 50 negates the direction and drives the enemy the other way |
| `Enemy.FarOrNoHitKeepsDirection` | src/enemy.rs:77-88 | no hit, or a hit with toi >= 50 (the bound is exclusive), leaves the direction unchanged and the force along it |
| `Enemy.ForceOverwritten` | src/enemy.rs:90 | the step's result does not depend on the previous force (overwrite, not accumulation) |
| `Enemy.PatrolAllAt` | src/enemy.rs:74-91 | the loop over the query keeps the number of enemies, and enemy i becomes PatrolStep of enemy i |
| `Enemy.PatrolAllLength` | src/enemy.rs:74 | the loop over the query neither adds nor removes enemies |
| `Enemy.NoContextNoChange` | src/enemy.rs:70-72 | without exactly one physics context, no enemy's direction or force changes |
| `Enemy.EnemiesIndependent` | src/enemy.rs:74-91 | enemy i's result depends only on enemy i; other enemies do not influence it |
| `Enemy.MovementSystemKeepsDirections` | src/enemy.rs:67-92 | a tick of the movement system keeps every direction in {-1,+1} |
| `Enemy.RunTicksKeepsDirections` | src/enemy.rs:86 | directions in {-1,+1} stay there over any number of ticks |
| `Enemy.DirectionAlwaysUnit` | src/enemy.rs:49 | enemies built from the bundle have direction ±1, never 0, after any number of ticks |
| `Enemy.EnemyMovementSystem` | src/enemy.rs:67-92 | the in-place system leaves the query unchanged without a single context; otherwise it sets every enemy to its PatrolStep with that context's ray cast |
| `Enemy.PatrolRayMaskExcludesPlayerAndPawn` | src/enemy.rs:79-80 | the patrol ray's filter WORLD\|INVISIBLE_WALL shares no bit with PLAYER or PAWN and includes WORLD and INVISIBLE_WALL |
| `Enemy.PatrolRayIgnoresPlayersAndPawns` | src/enemy.rs:79-80 | the patrol ray never reaches a collider that belongs only to PLAYER and/or PAWN, nor the enemy's own collider |
| `Enemy.PatrolRaySeesWalls` | src/enemy.rs:79-80 | the patrol ray does reach a world or invisible-wall collider whose filter accepts pawns |
| `Player.NewPlayerBundle` | src/player.rs:57-86 | a new player has run strength 9,000,000, jump strength 1,000,000, damping 5, restitution 0.1, extra mass 0.1, radius 25, position (0,0), zero force and impulse, keys A/D/Space, and no collision-groups component |
| `Player.ColliderGroups` | src/player.rs:31-55 | a bundle without a collision-groups component gets the engine default: member of every group, filtering every group |
| `Player.Spawn` | src/player.rs:88-90 | a spawned player carries the bundle's strengths, force and impulse |
| `Player.RunForce` | src/player.rs:93-94 | without axis data the force is unchanged; with it the vertical force is 0, and an axis in [-1,1] with non-negative strength gives \|force.x\| ≤ strength whatever the previous force was |
| `Player.JumpImpulse` | src/player.rs:104-108 | without a just-pressed jump the impulse is unchanged; with one it is exactly (0, jump_strength) |
| `Player.MovePlayer` | src/player.rs:88-97 | with other than one player nothing changes; with one, missing axis data changes nothing, and otherwise only the force is overwritten with (axis * run_strength, 0) |
| `Player.JumpPlayer` | src/player.rs:99-110 | with other than one player, or no just-pressed jump, nothing changes; otherwise only the impulse is overwritten with (0, jump_strength) |
| `Player.MovePlayersOnlyForce` | src/player.rs:91-95 | the run step keeps the query's size and, when it acts, changes only the force and leaves its vertical component 0 |
| `Player.JumpIgnoresPreviousImpulse` | src/player.rs:108 | the jump impulse does not depend on the prior impulse (no accumulation, no grounded check) |
| `Player.ForceNeverAccumulates` | src/player.rs:94 | after any run of ticks with axis readings in [-1,1], the force is either the initial one or horizontal with \|x\| ≤ run strength |
| `Player.SpawnedPlayerBounded` | src/player.rs:88-108 | a freshly spawned player's drive force stays horizontal with \|x\| ≤ 9000000 over any run of ticks with axis readings in [-1,1], and its first jump gives impulse (0, 1000000) |
| `Player.PatrolRayAdmitsSpawnedPlayer` | src/player.rs:68-84 | as written, the player's collider (engine-default groups) passes the enemy patrol ray's filter |
| `Player.IntendedPlayerGroups` | src/physic.rs:3 | with groups (PLAYER, WORLD\|PAWN\|INVISIBLE_WALL) the patrol ray ignores the player, while the player's filter still includes world, pawns and invisible walls and the player meets the enemy and the ground collider of src/main.rs:42 |
| `Ui.EndScreenRoot` | src/ui.rs:29-35 | the spawned root carries the marker, binds Restart to R and Quit to Q, and has nothing pressed |
| `Ui.HandlerRunsOutsideDefault` | src/ui.rs:15-16 | the handler's run condition (GameOver or Victory) holds exactly in the non-default states |
| `Ui.UiUpdate` | src/ui.rs:113-126 | the pending state becomes InGame, the default, exactly when some entity has Restart just pressed, and is otherwise kept; one successful exit is appended per entity with Quit but not Restart, and nothing else |
| `Ui.ExitCountAppend` | src/ui.rs:116-124 | an entity added at the end of the query adds one exit exactly when it has Quit and not Restart |
| `Ui.ExitCountBound` | src/ui.rs:116-125 | at most one exit per entity, and none exactly when no entity has Quit without Restart |
| `Ui.RestartSkipsQuit` | src/ui.rs:117-120 | an entity with Restart just pressed, added at the end of any query, makes the handler request InGame and adds no exit, even with Quit pressed |
| `Ui.QuitWritesOneExit` | src/ui.rs:122-124 | an entity with Quit and not Restart, added at the end of any query, adds exactly one exit and leaves the state request as the rest of the query makes it |
| `Ui.NoPressNoEffect` | src/ui.rs:116-125 | if no entity has Restart or Quit just pressed, no state is requested and no exit written |
| `Ui.WithoutMarkers` | src/ui.rs:64-69 | after cleanup no marked entity remains, and every unmarked entity is kept unchanged |
| `Ui.WithoutMarkersIdempotent` | src/ui.rs:106-111 | cleanup run twice equals cleanup run once; with no marked entity it changes nothing |
| `Ui.ScreenFor` | src/ui.rs:11-13 | GameOver shows the game-over screen, Victory the victory screen |
| `Ui.App.constructor` | src/state.rs:5-6 | the application starts in the default state InGame, with nothing pending and no exit written |
| `Ui.App.RequestState` | src/ui.rs:118 | a state request makes that state pending |
| `Ui.App.SpawnEndScreen` | src/ui.rs:34-35 | one root entity under a fresh id is added; every other entity stays; the marked set grows by exactly that id |
| `Ui.App.SetupGameOverUi` | src/ui.rs:29-62 | entering GameOver adds exactly one new marked root (bound R/Q) and changes no other entity |
| `Ui.App.SetupVictoryUi` | src/ui.rs:71-104 | entering Victory adds exactly one new marked root (bound R/Q) and changes no other entity |
| `Ui.App.DespawnMarked` | src/ui.rs:66-68 | the despawn loop removes exactly the marked entities |
| `Ui.App.CleanupGameOverUi` | src/ui.rs:64-69 | leaving GameOver leaves no marked entity and every other entity unchanged |
| `Ui.App.CleanupVictoryUi` | src/ui.rs:106-111 | leaving Victory leaves no marked entity and every other entity unchanged |
| `Ui.App.QueryActions` | src/ui.rs:113 | the handler's query reads each listed marked entity's action state |
| `Ui.App.Update` | src/ui.rs:15-16 | outside GameOver/Victory the handler does not run and nothing changes; inside, the effect is that of UiUpdate over the marked entities' action states |
| `Ui.App.ApplyStateTransition` | src/ui.rs:11-14 | a pending state is committed. Leaving an end state despawns the marked entities. Entering an end state then spawns one new root for that screen, and only then is an entity id used up. Without a pending state nothing changes |

## Findings

| source | as written | input that shows it | evidently intended | confidence | as-written member | corrected member |
|---|---|---|---|---|---|---|
| src/player.rs:68-84 | the player bundle has no `CollisionGroups`, so its collider takes the physics engine's default: a member of every group | a player standing level with an enemy, less than 60 units ahead. The collider's groups (ALL, ALL) pass the patrol ray's filter (PAWN, WORLD\|INVISIBLE_WALL), so the ray can report the player, and a toi below 50 turns the enemy around | the player belongs to PLAYER_GROUP only. The patrol ray, filtered to world and invisible walls, then never sees it. PLAYER_GROUP is defined and used in filters but assigned to no collider in src/player.rs or src/main.rs | medium, not executed; depends on the engine's default groups being "all" | `Player.PatrolRayAdmitsSpawnedPlayer` | `Player.IntendedPlayerGroups` |

The model keeps the bundle as written (`Player.NewPlayerBundle`). The enemy step takes the ray cast as a parameter, so neither version of the player's groups feeds into it. The intended property is proved about `Player.IntendedPlayerGroups`.

## Left out

- Physics integration (forces and impulses turning into motion, the engine clearing impulses after a step) and the ray cast's implementation. The ray cast is the function field of the physics context, which the enemy system receives. The world does not move while the system runs, so one function serves the whole tick. The model does not constrain the returned toi to [0, 60]; the reversal rule depends only on `toi < 50`.
- Floating point: f32 values are modelled as reals. This is exact for ±1, 4000000, 9000000 and 1000000. An axis value times the run strength may round in f32, which the model does not capture.
- Input mapping: the player's action state (`runAxis`, `jumpJustPressed`) and the end screens' just-pressed actions are inputs. `Ui.App.ReadInput` stands in for the input manager's per-frame refresh.
- Query iteration order: the engine chooses it, so `Ui.App.Update` takes the marked entities in an order the caller supplies. Every exit message is the same `Success`, so only their number matters.
- Deferred commands: spawns and despawns take effect at once in the model, not at the end of the system.
- The end-screen root's two text children, and the engine despawning them with the root: the model keeps one root entity per screen and records which screen it shows.
- Node layout, text, fonts, colours, meshes, materials, z-order, `RigidBody`, `LockedAxes` and bloom.
- The hooks of InGame (the gameplay scene's spawn and teardown), the cleanup marker type from `crate::utils`, and the collision/stomp resolution. `crate::utils` is not part of this model, and none of these appear in the modelled files. Entering InGame therefore spawns nothing in the model.
- `Ui.App.ApplyStateTransition`: a request for the state the game is already in runs the exit and enter hooks. The handler only ever requests InGame from an end state, so this case never arises from the modelled systems.
- Scheduling: the enemy system runs in `Update` and the player systems in `FixedUpdate`. The model has no clock and treats each system run as one step.
- Camera following, particles, the debug inspector and the application wiring in `src/main.rs`.
