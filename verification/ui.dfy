/**
 * The end screens (GameOver and Victory): the handler that turns the
 * Restart and Quit actions into a state request or an exit message, the
 * spawning and despawning of the screen's root entity, and the wiring of
 * these to the game state's transitions.
 */
module Ui {
  import opened Ecs
  import opened State

  datatype UiAction = Restart | Quit

  /** Which key each end-screen action is bound to. */
  datatype UiInputMap = UiInputMap(restart: KeyCode, quit: KeyCode)

  const END_SCREEN_INPUT_MAP: UiInputMap := UiInputMap(KeyR, KeyQ)

  /** The end-screen actions that were just pressed on an entity this frame. */
  datatype UiActionState = UiActionState(justPressed: set<UiAction>)

  /** The exit message the end screen writes: always a successful exit. */
  datatype AppExit = Success

  /** The pending-transition resource of the game state. */
  datatype NextState = Unchanged | Pending(state: GameState)

  /** Which screen a root entity shows (the title its text children carry). */
  datatype EndScreen = GameOverScreen | VictoryScreen

  /** The components of an entity, as far as the end screens are concerned. */
  datatype EntityData = EntityData(
    endScreenMarker: bool,
    inputMap: Option<UiInputMap>,
    actions: UiActionState,
    screen: Option<EndScreen>)

  /** The root entity an end-screen setup spawns: marked, bound R/Q, nothing pressed yet. */
  function EndScreenRoot(screen: EndScreen): (d: EntityData)
    ensures d.endScreenMarker && d.screen == Some(screen)
    ensures d.inputMap == Some(UiInputMap(KeyR, KeyQ)) && d.actions.justPressed == {}
  {
    EntityData(true, Some(END_SCREEN_INPUT_MAP), UiActionState({}), Some(screen))
  }

  /** The run condition of the end-screen handler: the game is in GameOver or in Victory. */
  predicate HandlerRuns(s: GameState) {
    s == GameOver || s == Victory
  }

  /** The handler runs exactly in the two states that are not the default. */
  lemma HandlerRunsOutsideDefault(s: GameState)
    ensures HandlerRuns(s) <==> s != DefaultState()
    ensures HandlerRuns(s) <==> s in AllStates() - {InGame}
  {
    EveryStateListed(s);
  }

  predicate RestartPressed(a: UiActionState) {
    Restart in a.justPressed
  }

  /** An entity whose Quit is examined and found pressed: Quit without Restart. */
  predicate QuitOnly(a: UiActionState) {
    Quit in a.justPressed && Restart !in a.justPressed
  }

  predicate RestartRequested(query: seq<UiActionState>) {
    exists i :: 0 <= i < |query| && RestartPressed(query[i])
  }

  /** The number of entities in the query whose Quit leads to an exit message. */
  function ExitCount(query: seq<UiActionState>): nat
    decreases |query|
  {
    if query == [] then 0 else (if QuitOnly(query[0]) then 1 else 0) + ExitCount(query[1..])
  }

  /** n successful-exit messages. */
  function Exits(n: nat): (r: seq<AppExit>)
    ensures |r| == n
    ensures forall k :: 0 <= k < n ==> r[k] == Success
  {
    seq(n, _ => Success)
  }

  lemma {:induction false} ExitCountAppend(query: seq<UiActionState>, a: UiActionState)
    ensures ExitCount(query + [a]) == ExitCount(query) + (if QuitOnly(a) then 1 else 0)
    decreases |query|
  {
    if query != [] {
      assert (query + [a])[1..] == query[1..] + [a];
      ExitCountAppend(query[1..], a);
    }
  }

  /** At most one exit message per entity. */
  lemma {:induction false} ExitCountBound(query: seq<UiActionState>)
    ensures ExitCount(query) <= |query|
    ensures ExitCount(query) == 0 <==> forall i :: 0 <= i < |query| ==> !QuitOnly(query[i])
    decreases |query|
  {
    if query != [] {
      ExitCountBound(query[1..]);
      if ExitCount(query[1..]) == 0 {
        assert forall i :: 1 <= i < |query| ==> query[i] == query[1..][i - 1];
      } else {
        var j :| 0 <= j < |query[1..]| && QuitOnly(query[1..][j]);
        assert QuitOnly(query[j + 1]);
      }
    }
  }

  /**
   * An entity with Restart pressed, wherever it sits in the query, makes the
   * handler request InGame and adds no exit, even if Quit is pressed too.
   */
  lemma RestartSkipsQuit(query: seq<UiActionState>, a: UiActionState)
    requires RestartPressed(a)
    ensures RestartRequested(query + [a])
    ensures ExitCount(query + [a]) == ExitCount(query)
  {
    assert RestartPressed((query + [a])[|query|]);
    ExitCountAppend(query, a);
  }

  /**
   * An entity with Quit pressed and Restart not adds exactly one exit and
   * leaves the state request as the rest of the query makes it.
   */
  lemma QuitWritesOneExit(query: seq<UiActionState>, a: UiActionState)
    requires QuitOnly(a)
    ensures RestartRequested(query + [a]) <==> RestartRequested(query)
    ensures ExitCount(query + [a]) == ExitCount(query) + 1
  {
    if RestartRequested(query) {
      var i :| 0 <= i < |query| && RestartPressed(query[i]);
      assert (query + [a])[i] == query[i];
    }
    if RestartRequested(query + [a]) {
      var i :| 0 <= i < |query + [a]| && RestartPressed((query + [a])[i]);
      assert i < |query| && query[i] == (query + [a])[i];
    }
    ExitCountAppend(query, a);
  }

  /** If no entity has Restart or Quit just pressed, nothing is requested and nothing written. */
  lemma NoPressNoEffect(query: seq<UiActionState>)
    requires forall i :: 0 <= i < |query| ==> query[i].justPressed * {Restart, Quit} == {}
    ensures !RestartRequested(query) && ExitCount(query) == 0
  {
    forall i | 0 <= i < |query|
      ensures !RestartPressed(query[i]) && !QuitOnly(query[i])
    {
      assert Restart !in query[i].justPressed * {Restart, Quit};
      assert Quit !in query[i].justPressed * {Restart, Quit};
    }
    ExitCountBound(query);
  }

  /**
   * The end-screen handler over the query's action states: a Restart
   * requests InGame and skips that entity's Quit; otherwise a Quit writes a
   * successful exit.
   */
  method UiUpdate(query: seq<UiActionState>, nextState: NextState, exits: seq<AppExit>)
    returns (nextState': NextState, exits': seq<AppExit>)
    ensures nextState' == if RestartRequested(query) then Pending(DefaultState()) else nextState
    ensures exits' == exits + Exits(ExitCount(query))
    ensures |exits'| <= |exits| + |query|
  {
    nextState', exits' := nextState, exits;
    var i := 0;
    while i < |query|
      invariant 0 <= i <= |query|
      invariant nextState' == if RestartRequested(query[..i]) then Pending(InGame) else nextState
      invariant exits' == exits + Exits(ExitCount(query[..i]))
    {
      var actionState := query[i];
      assert query[..i + 1] == query[..i] + [actionState];
      ExitCountAppend(query[..i], actionState);
      if Restart in actionState.justPressed {
        nextState' := Pending(InGame);
        assert RestartPressed(query[..i + 1][i]);
      } else {
        if Quit in actionState.justPressed {
          exits' := exits' + [Success];
        }
        assert RestartRequested(query[..i + 1]) ==> RestartRequested(query[..i]) by {
          if RestartRequested(query[..i + 1]) {
            var j :| 0 <= j < i + 1 && RestartPressed(query[..i + 1][j]);
            assert j < i && query[..i][j] == query[..i + 1][j];
          }
        }
      }
      i := i + 1;
    }
    assert query[..i] == query;
    ExitCountBound(query);
  }

  /** The entity map with every end-screen root removed and every other entity kept. */
  function WithoutMarkers(entities: map<nat, EntityData>): (r: map<nat, EntityData>)
    ensures forall e :: e in r ==> !r[e].endScreenMarker
    ensures forall e :: e in entities && !entities[e].endScreenMarker ==> e in r && r[e] == entities[e]
    ensures r.Keys <= entities.Keys
  {
    map e | e in entities && !entities[e].endScreenMarker :: entities[e]
  }

  /** Despawning the end screens again changes nothing; with no end screen it changes nothing. */
  lemma WithoutMarkersIdempotent(entities: map<nat, EntityData>)
    ensures WithoutMarkers(WithoutMarkers(entities)) == WithoutMarkers(entities)
    ensures (forall e :: e in entities ==> !entities[e].endScreenMarker) ==> WithoutMarkers(entities) == entities
  {
  }

  function MarkerIds(entities: map<nat, EntityData>): set<nat> {
    set e | e in entities && entities[e].endScreenMarker
  }

  /** The screen an end state shows. */
  function ScreenFor(s: GameState): (screen: EndScreen)
    requires HandlerRuns(s)
    ensures s == GameOver <==> screen == GameOverScreen
  {
    if s == GameOver then GameOverScreen else VictoryScreen
  }

  /**
   * The part of the application the end screens live in: the game state and
   * its pending transition, the exit messages written so far, and the
   * entities of the world by id.
   */
  class App {
    var state: GameState
    var nextState: NextState
    var exits: seq<AppExit>
    var entities: map<nat, EntityData>
    var nextEntity: nat

    /** Every entity id was handed out before: a fresh id is never in use. */
    ghost predicate Valid()
      reads this
    {
      forall e :: e in entities ==> e < nextEntity
    }

    /** An application in the default state over a world that other plugins have populated. */
    constructor (world: map<nat, EntityData>, firstFree: nat)
      requires forall e :: e in world ==> e < firstFree
      ensures Valid()
      ensures state == DefaultState() && nextState == Unchanged && exits == []
      ensures entities == world && nextEntity == firstFree
    {
      state := InGame;
      nextState := Unchanged;
      exits := [];
      entities := world;
      nextEntity := firstFree;
    }

    /** A request for a state change (`NextState::set`), as gameplay systems issue it. */
    method RequestState(s: GameState)
      modifies this`nextState
      ensures nextState == Pending(s)
    {
      nextState := Pending(s);
    }

    /** The input manager's refresh of an entity's end-screen action state for this frame. */
    method ReadInput(id: nat, justPressed: set<UiAction>)
      requires Valid() && id in entities
      modifies this`entities
      ensures Valid()
      ensures entities == old(entities)[id := old(entities)[id].(actions := UiActionState(justPressed))]
    {
      entities := entities[id := entities[id].(actions := UiActionState(justPressed))];
    }

    /** Spawns one new end-screen root under a fresh id. */
    method SpawnEndScreen(screen: EndScreen)
      requires Valid()
      modifies this`entities, this`nextEntity
      ensures Valid()
      ensures old(nextEntity) !in old(entities)
      ensures entities == old(entities)[old(nextEntity) := EndScreenRoot(screen)]
      ensures nextEntity == old(nextEntity) + 1
      ensures MarkerIds(entities) == MarkerIds(old(entities)) + {old(nextEntity)}
    {
      entities := entities[nextEntity := EndScreenRoot(screen)];
      nextEntity := nextEntity + 1;
    }

    /** On entering GameOver: one new root, bound Restart to R and Quit to Q. */
    method SetupGameOverUi()
      requires Valid()
      modifies this`entities, this`nextEntity
      ensures Valid()
      ensures old(nextEntity) !in old(entities) && nextEntity == old(nextEntity) + 1
      ensures entities == old(entities)[old(nextEntity) := EndScreenRoot(GameOverScreen)]
      ensures MarkerIds(entities) == MarkerIds(old(entities)) + {old(nextEntity)}
    {
      SpawnEndScreen(GameOverScreen);
    }

    /** On entering Victory: one new root, bound Restart to R and Quit to Q. */
    method SetupVictoryUi()
      requires Valid()
      modifies this`entities, this`nextEntity
      ensures Valid()
      ensures old(nextEntity) !in old(entities) && nextEntity == old(nextEntity) + 1
      ensures entities == old(entities)[old(nextEntity) := EndScreenRoot(VictoryScreen)]
      ensures MarkerIds(entities) == MarkerIds(old(entities)) + {old(nextEntity)}
    {
      SpawnEndScreen(VictoryScreen);
    }

    /** Despawns each entity the marker query yields, one at a time. */
    method DespawnMarked()
      requires Valid()
      modifies this`entities
      ensures Valid()
      ensures entities == WithoutMarkers(old(entities))
      ensures MarkerIds(entities) == {}
    {
      var query := MarkerIds(entities);
      var remaining := query;
      while remaining != {}
        invariant remaining <= query
        invariant entities == map e | e in old(entities) && e !in query - remaining :: old(entities)[e]
        decreases remaining
      {
        var e :| e in remaining;
        entities := entities - {e};
        remaining := remaining - {e};
      }
      assert entities == WithoutMarkers(old(entities));
    }

    /** On leaving GameOver: no end-screen root remains; every other entity is kept. */
    method CleanupGameOverUi()
      requires Valid()
      modifies this`entities
      ensures Valid()
      ensures entities == WithoutMarkers(old(entities))
      ensures MarkerIds(entities) == {}
    {
      DespawnMarked();
    }

    /** On leaving Victory: no end-screen root remains; every other entity is kept. */
    method CleanupVictoryUi()
      requires Valid()
      modifies this`entities
      ensures Valid()
      ensures entities == WithoutMarkers(old(entities))
      ensures MarkerIds(entities) == {}
    {
      DespawnMarked();
    }

    /** `ids` is the marker query: every marked entity, each once, in the engine's order. */
    ghost predicate IsMarkerQuery(ids: seq<nat>)
      reads this
    {
      && (forall i :: 0 <= i < |ids| ==> ids[i] in MarkerIds(entities))
      && (forall i, j :: 0 <= i < j < |ids| ==> ids[i] != ids[j])
      && (forall e :: e in MarkerIds(entities) ==> e in ids)
    }

    function QueryActions(ids: seq<nat>): (r: seq<UiActionState>)
      reads this
      requires forall i :: 0 <= i < |ids| ==> ids[i] in entities
      ensures |r| == |ids|
      ensures forall i :: 0 <= i < |ids| ==> r[i] == entities[ids[i]].actions
    {
      var world := entities;
      seq(|ids|, i requires 0 <= i < |ids| => world[ids[i]].actions)
    }

    /** One frame of the Update schedule: the handler runs only in GameOver or Victory. */
    method Update(ids: seq<nat>)
      requires Valid() && IsMarkerQuery(ids)
      modifies this`nextState, this`exits
      ensures !HandlerRuns(state) ==> nextState == old(nextState) && exits == old(exits)
      ensures HandlerRuns(state) ==>
        nextState == (if RestartRequested(QueryActions(ids)) then Pending(InGame) else old(nextState)) &&
        exits == old(exits) + Exits(ExitCount(QueryActions(ids)))
    {
      if state == GameOver || state == Victory {
        nextState, exits := UiUpdate(QueryActions(ids), nextState, exits);
      }
    }

    /**
     * Commits a pending state change: the leaving state's exit hook, then the
     * entered state's enter hook, as the plugin registers them.
     */
    method ApplyStateTransition()
      requires Valid()
      modifies this
      ensures Valid()
      ensures exits == old(exits)
      ensures old(nextState) == Unchanged ==>
        state == old(state) && nextState == Unchanged && entities == old(entities)
      ensures old(nextState).Pending? ==> state == old(nextState).state && nextState == Unchanged
      ensures old(nextState).Pending? && !HandlerRuns(state) ==>
        entities == (if HandlerRuns(old(state)) then WithoutMarkers(old(entities)) else old(entities))
      ensures !(old(nextState).Pending? && HandlerRuns(state)) ==> nextEntity == old(nextEntity)
      ensures old(nextState).Pending? && HandlerRuns(state) ==>
        old(nextEntity) == nextEntity - 1 &&
        entities == (if HandlerRuns(old(state)) then WithoutMarkers(old(entities)) else old(entities))
                      [old(nextEntity) := EndScreenRoot(ScreenFor(state))]
    {
      match nextState {
        case Unchanged =>
        case Pending(entered) =>
          nextState := Unchanged;
          if state == GameOver {
            CleanupGameOverUi();
          } else if state == Victory {
            CleanupVictoryUi();
          }
          state := entered;
          if entered == GameOver {
            SetupGameOverUi();
          } else if entered == Victory {
            SetupVictoryUi();
          }
      }
    }
  }

  /**
   * A round of the end screen: the game is lost, the screen appears, R is
   * pressed, and after the next transition the game is back in InGame with
   * no end-screen root left and the other entities as they were.
   */
  method RestartRound(world: map<nat, EntityData>, firstFree: nat)
    requires forall e :: e in world ==> e < firstFree && !world[e].endScreenMarker
  {
    var app := new App(world, firstFree);
    app.RequestState(GameOver);
    app.ApplyStateTransition();
    assert app.state == GameOver;
    assert MarkerIds(app.entities) == {firstFree};
    app.ReadInput(firstFree, {Restart, Quit});
    assert MarkerIds(app.entities) == {firstFree};
    app.Update([firstFree]);
    assert RestartRequested(app.QueryActions([firstFree])) by {
      assert RestartPressed(app.QueryActions([firstFree])[0]);
    }
    assert app.nextState == Pending(InGame) && app.exits == [];
    app.ApplyStateTransition();
    assert app.state == InGame && MarkerIds(app.entities) == {};
    assert app.entities == world;
  }
}
