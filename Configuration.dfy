/** The immutable parameters of a game (GameConfiguration.java). */
module GameConfigurations {

  datatype GameConfiguration = GameConfiguration(boardWidth: int, boardHeight: int, fleetDefinition: string)

  /** defaultConfig: a 10 x 10 board; the fleet text is stored as it is and never parsed. */
  function DefaultConfig(): (c: GameConfiguration)
    ensures c.boardWidth == 10 && c.boardHeight == 10
    ensures c.fleetDefinition == "2x2,2x3,1x4,1x5"
  {
    GameConfiguration(10, 10, "2x2,2x3,1x4,1x5")
  }
}
