/** One fired shot as recorded in a game's log (Shot.java). */
module Shots {
  import opened Coordinates
  import opened Players
  import opened Boards

  datatype ShotResult = Miss | Hit | Sunk | AlreadyShot

  /** `targetBoard` is a reference: two shots are on the same board when they name the same Board object. */
  datatype Shot = Shot(coordinate: Coordinate, result: ShotResult, shooter: Player, targetBoard: Board)
}
