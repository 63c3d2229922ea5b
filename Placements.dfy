/** A ship bound to a start cell and an orientation, and the run of cells it covers (ShipPlacement.java). */
module Placements {
  import opened Coordinates
  import opened Ships

  datatype Orientation = Horizontal | Vertical

  /** The constructor stores ship, start and orientation as given. */
  datatype ShipPlacement = ShipPlacement(ship: Ship, start: Coordinate, orientation: Orientation)

  /** The i-th covered cell: x advances for HORIZONTAL, y advances for VERTICAL. */
  function CellAt(start: Coordinate, orientation: Orientation, i: int): Coordinate
  {
    Coordinate(start.x + (if orientation == Horizontal then i else 0),
               start.y + (if orientation == Vertical then i else 0))
  }

  /** What getCoveredCoordinates returns: ship.getSize() cells, in order of i. */
  function CoveredCells(p: ShipPlacement): seq<Coordinate>
  {
    seq(p.ship.Size(), i => CellAt(p.start, p.orientation, i))
  }

  /** getCoveredCoordinates, with the source's for loop; it only reads the placement. */
  method GetCoveredCoordinates(p: ShipPlacement) returns (coords: seq<Coordinate>)
    ensures coords == CoveredCells(p)
  {
    coords := [];
    var size := p.ship.Size();
    for i := 0 to size
      invariant |coords| == i
      invariant forall k :: 0 <= k < i ==> coords[k] == CellAt(p.start, p.orientation, k)
    {
      var x := p.start.x + (if p.orientation == Horizontal then i else 0);
      var y := p.start.y + (if p.orientation == Vertical then i else 0);
      coords := coords + [Coordinate(x, y)];
    }
  }

  /** Exactly ship.getSize() cells; cell i lies i steps from start along the orientation. */
  lemma CoveredCellsShape(p: ShipPlacement, i: int)
    requires 0 <= i < p.ship.Size()
    ensures |CoveredCells(p)| == p.ship.Size()
    ensures p.orientation == Horizontal ==> CoveredCells(p)[i] == Coordinate(p.start.x + i, p.start.y)
    ensures p.orientation == Vertical ==> CoveredCells(p)[i] == Coordinate(p.start.x, p.start.y + i)
  {
  }

  /** The first covered cell is the start cell. */
  lemma FirstCellIsStart(p: ShipPlacement)
    ensures |CoveredCells(p)| > 0 && CoveredCells(p)[0] == p.start
  {
  }

  /** A placement never covers a cell twice. */
  lemma CoveredCellsDistinct(p: ShipPlacement, i: int, j: int)
    requires 0 <= i < j < |CoveredCells(p)|
    ensures CoveredCells(p)[i] != CoveredCells(p)[j]
  {
  }

  /** All cells of a horizontal ship share start.y; all cells of a vertical ship share start.x. */
  lemma CoveredCellsStayInLine(p: ShipPlacement, c: Coordinate)
    requires c in CoveredCells(p)
    ensures p.orientation == Horizontal ==> c.y == p.start.y && p.start.x <= c.x < p.start.x + p.ship.Size()
    ensures p.orientation == Vertical ==> c.x == p.start.x && p.start.y <= c.y < p.start.y + p.ship.Size()
  {
  }
}
