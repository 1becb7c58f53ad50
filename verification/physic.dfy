/**
 * Collision groups of the game: four single-bit masks over the physics
 * engine's 32-bit group bitset, the membership/filter pair every collider
 * (or scene query) carries, and the engine's rule that decides whether two
 * such pairs may interact.
 */
module Physic {

  /** A 32-bit group bitset (the engine's `Group`). */
  type Group = bv32

  const GROUP_1: Group := 1
  const GROUP_2: Group := 2
  const GROUP_3: Group := 4
  const GROUP_4: Group := 8
  const ALL_GROUPS: Group := 0xFFFF_FFFF

  const PLAYER_GROUP: Group := GROUP_1
  const PAWN_GROUP: Group := GROUP_2
  const WORLD_GROUP: Group := GROUP_3
  const INVISIBLE_WALL_GROUP: Group := GROUP_4

  /** The four groups the game defines, in declaration order. */
  const GAME_GROUPS: seq<Group> := [PLAYER_GROUP, PAWN_GROUP, WORLD_GROUP, INVISIBLE_WALL_GROUP]

  /** What a collider belongs to, and which groups it accepts contacts with. */
  datatype CollisionGroups = CollisionGroups(memberships: Group, filters: Group)

  /** The groups of a collider spawned without a `CollisionGroups` component. */
  const DEFAULT_COLLISION_GROUPS: CollisionGroups := CollisionGroups(ALL_GROUPS, ALL_GROUPS)

  predicate IsSingleBit(g: Group) {
    g != 0 && g & (g - 1) == 0
  }

  predicate Disjoint(a: Group, b: Group) {
    a & b == 0
  }

  predicate Includes(mask: Group, g: Group) {
    mask & g == g
  }

  /**
   * The engine's (default, "and") interaction test: each side must be a
   * member of a group the other side's filter accepts.
   */
  predicate InteractionTest(a: CollisionGroups, b: CollisionGroups) {
    a.memberships & b.filters != 0 && b.memberships & a.filters != 0
  }

  /** The union of the four game groups. */
  function AllGameGroups(): (mask: Group)
    ensures forall i :: 0 <= i < |GAME_GROUPS| ==> Includes(mask, GAME_GROUPS[i])
    ensures mask & !(GROUP_1 | GROUP_2 | GROUP_3 | GROUP_4) == 0
  {
    PLAYER_GROUP | WORLD_GROUP | PAWN_GROUP | INVISIBLE_WALL_GROUP
  }

  /** PLAYER, PAWN, WORLD and INVISIBLE_WALL are the single bits 0, 1, 2 and 3. */
  lemma GroupsAreSingleBits()
    ensures forall i :: 0 <= i < |GAME_GROUPS| ==> IsSingleBit(GAME_GROUPS[i])
    ensures PLAYER_GROUP == 1 << 0 && PAWN_GROUP == 1 << 1
    ensures WORLD_GROUP == 1 << 2 && INVISIBLE_WALL_GROUP == 1 << 3
  {
  }

  /** No two of the four game groups share a bit. */
  lemma GroupsPairwiseDisjoint()
    ensures forall i, j :: 0 <= i < j < |GAME_GROUPS| ==> Disjoint(GAME_GROUPS[i], GAME_GROUPS[j])
  {
  }

  /**
   * A collider whose memberships lie inside `excluded` never passes the test
   * against a query whose filter is disjoint from `excluded`.
   */
  lemma FilterExcludes(query: CollisionGroups, collider: CollisionGroups, excluded: Group)
    requires Disjoint(query.filters, excluded)
    requires collider.memberships & !excluded == 0
    ensures !InteractionTest(query, collider)
  {
  }
}
