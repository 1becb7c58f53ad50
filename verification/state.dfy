/** The game's single authoritative phase. */
module State {

  datatype GameState = InGame | GameOver | Victory

  /** The derived default of the state type: the game starts in InGame. */
  function DefaultState(): (s: GameState)
    ensures s.InGame?
    ensures !s.GameOver? && !s.Victory?
  {
    InGame
  }

  /** Every phase the game can be in: three distinct values. */
  function AllStates(): (r: set<GameState>)
    ensures |r| == 3
    ensures InGame in r && GameOver in r && Victory in r
  {
    {InGame, GameOver, Victory}
  }

  /** There is no fourth phase. */
  lemma EveryStateListed(s: GameState)
    ensures s in AllStates()
    ensures s == InGame || s == GameOver || s == Victory
  {
  }
}
