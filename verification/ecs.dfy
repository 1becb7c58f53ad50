/**
 * The small part of the engine vocabulary that the gameplay systems use:
 * optional values, 2D vectors, key codes and the "exactly one match"
 * semantics of a singleton query.
 */
module Ecs {

  datatype Option<+T> = None | Some(value: T)

  /** A 2D vector of the engine (Vec2); coordinates are modelled as reals. */
  datatype Vec2 = Vec2(x: real, y: real)

  const ZERO: Vec2 := Vec2(0.0, 0.0)

  /** The keys that the input maps of the game bind. */
  datatype KeyCode = KeyA | KeyD | Space | KeyR | KeyQ

  /**
   * `Query::single` / `single_mut` and `ReadRapierContext::single`: the one
   * matching item when there is exactly one, and no item otherwise (none or
   * several matches).
   */
  function Single<T>(items: seq<T>): (r: Option<T>)
    ensures r.Some? <==> |items| == 1
    ensures r.Some? ==> r.value == items[0] && r.value in items
  {
    if |items| == 1 then Some(items[0]) else None
  }
}
