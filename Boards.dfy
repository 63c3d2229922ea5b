/** One player's grid and the ships placed on it (Board.java). */
module Boards {
  import opened Wrappers
  import opened Coordinates
  import opened Ships
  import opened Placements
  import opened Players

  predicate InBounds(width: int, height: int, c: Coordinate)
  {
    0 <= c.x < width && 0 <= c.y < height
  }

  predicate AllInBounds(width: int, height: int, cells: seq<Coordinate>)
  {
    forall k :: 0 <= k < |cells| ==> InBounds(width, height, cells[k])
  }

  /** Some cell lies in both runs of cells. */
  predicate SharesCell(a: seq<Coordinate>, b: seq<Coordinate>)
  {
    exists c :: c in a && c in b
  }

  /** The overlap stream of canPlaceShip: some cell covered by an existing placement is a candidate cell. */
  function Overlaps(placements: seq<ShipPlacement>, cells: seq<Coordinate>): (r: bool)
    ensures r <==> exists i :: 0 <= i < |placements| && SharesCell(CoveredCells(placements[i]), cells)
  {
    if placements == [] then false
    else
      var rest := Overlaps(placements[1..], cells);
      assert forall i :: 0 < i < |placements| ==> placements[i] == placements[1..][i - 1];
      SharesCell(CoveredCells(placements[0]), cells) || rest
  }

  /** What canPlaceShip decides: the candidate lies on the board and overlaps no existing placement. */
  predicate Placeable(width: int, height: int, placements: seq<ShipPlacement>, candidate: ShipPlacement)
  {
    AllInBounds(width, height, CoveredCells(candidate)) && !Overlaps(placements, CoveredCells(candidate))
  }

  /** The board invariant: every placement on the board, no two placements sharing a cell. */
  predicate PlacementsValid(width: int, height: int, placements: seq<ShipPlacement>)
  {
    && (forall i :: 0 <= i < |placements| ==> AllInBounds(width, height, CoveredCells(placements[i])))
    && (forall i, j :: 0 <= i < |placements| && 0 <= j < |placements| && i != j ==>
          !SharesCell(CoveredCells(placements[i]), CoveredCells(placements[j])))
  }

  /** canPlaceShip fails exactly when some candidate cell is off the board or is covered by an
      existing placement. */
  lemma PlaceableIff(width: int, height: int, placements: seq<ShipPlacement>, candidate: ShipPlacement)
    ensures Placeable(width, height, placements, candidate) <==>
      && (forall c :: c in CoveredCells(candidate) ==> 0 <= c.x < width && 0 <= c.y < height)
      && (forall i, c :: 0 <= i < |placements| && c in CoveredCells(placements[i]) ==> c !in CoveredCells(candidate))
  {
    var cells := CoveredCells(candidate);
    if AllInBounds(width, height, cells) {
      forall c | c in cells ensures 0 <= c.x < width && 0 <= c.y < height {
        var k :| 0 <= k < |cells| && cells[k] == c;
      }
    }
  }

  /** A placement accepted onto a valid board leaves it valid. */
  lemma PlacingKeepsValid(width: int, height: int, placements: seq<ShipPlacement>, candidate: ShipPlacement)
    requires PlacementsValid(width, height, placements)
    requires Placeable(width, height, placements, candidate)
    ensures PlacementsValid(width, height, placements + [candidate])
  {
    var ps := placements + [candidate];
    forall i, j | 0 <= i < |ps| && 0 <= j < |ps| && i != j
      ensures !SharesCell(CoveredCells(ps[i]), CoveredCells(ps[j]))
    {
      if j == |placements| {
        assert ps[i] == placements[i];
      } else if i == |placements| {
        assert ps[j] == placements[j];
      }
    }
  }

  /** Overlap against one more placement is overlap against the old ones or against the new one. */
  lemma OverlapsAppend(placements: seq<ShipPlacement>, p: ShipPlacement, cells: seq<Coordinate>)
    ensures Overlaps(placements + [p], cells) <==> Overlaps(placements, cells) || SharesCell(CoveredCells(p), cells)
  {
    var ps := placements + [p];
    if Overlaps(ps, cells) {
      var i :| 0 <= i < |ps| && SharesCell(CoveredCells(ps[i]), cells);
      if i < |placements| {
        assert ps[i] == placements[i];
      }
    }
    if Overlaps(placements, cells) {
      var i :| 0 <= i < |placements| && SharesCell(CoveredCells(placements[i]), cells);
      assert ps[i] == placements[i];
    }
    assert ps[|placements|] == p;
  }

  /** The overlap test is symmetric, so the order in which two ships are placed does not decide legality. */
  lemma PlacementOrderIrrelevant(width: int, height: int, placements: seq<ShipPlacement>, p: ShipPlacement, q: ShipPlacement)
    ensures (Placeable(width, height, placements, p) && Placeable(width, height, placements + [p], q))
        <==> (Placeable(width, height, placements, q) && Placeable(width, height, placements + [q], p))
  {
    OverlapsAppend(placements, p, CoveredCells(q));
    OverlapsAppend(placements, q, CoveredCells(p));
    assert SharesCell(CoveredCells(p), CoveredCells(q)) <==> SharesCell(CoveredCells(q), CoveredCells(p));
  }

  /** Board.placeShip's IllegalStateException. */
  datatype PlacementError = CannotPlaceShip

  class Board {
    /** The persistence id used by the service's lookups. */
    const id: nat
    const width: int
    const height: int
    const owner: Player
    var placements: seq<ShipPlacement>

    ghost predicate Valid()
      reads this
    {
      PlacementsValid(width, height, placements)
    }

    constructor (id: nat, width: int, height: int, owner: Player)
      ensures this.id == id && this.width == width && this.height == height && this.owner == owner
      ensures placements == []
      ensures Valid()
    {
      this.id := id;
      this.width := width;
      this.height := height;
      this.owner := owner;
      placements := [];
    }

    /** canPlaceShip: the bounds loop with its early return, then the overlap test; it changes nothing. */
    method CanPlaceShip(ship: Ship, start: Coordinate, orientation: Orientation) returns (ok: bool)
      ensures ok == Placeable(width, height, placements, ShipPlacement(ship, start, orientation))
    {
      var candidate := ShipPlacement(ship, start, orientation);
      var newCoords := GetCoveredCoordinates(candidate);
      for k := 0 to |newCoords|
        invariant forall j :: 0 <= j < k ==> InBounds(width, height, newCoords[j])
      {
        var c := newCoords[k];
        if c.x < 0 || c.x >= width || c.y < 0 || c.y >= height {
          return false;
        }
      }
      var overlaps := Overlaps(placements, newCoords);
      if overlaps {
        return false;
      }
      return true;
    }

    /** placeShip: validate, then append the new placement and return it; on rejection nothing changes. */
    method PlaceShip(ship: Ship, start: Coordinate, orientation: Orientation)
      returns (r: Result<ShipPlacement, PlacementError>)
      modifies this
      ensures var p := ShipPlacement(ship, start, orientation);
        if Placeable(width, height, old(placements), p)
        then r == Success(p) && placements == old(placements) + [p]
        else r == Failure(CannotPlaceShip) && placements == old(placements)
      ensures old(Valid()) ==> Valid()
    {
      var ok := CanPlaceShip(ship, start, orientation);
      if !ok {
        return Failure(CannotPlaceShip);
      }
      var placement := ShipPlacement(ship, start, orientation);
      if Valid() {
        PlacingKeepsValid(width, height, placements, placement);
      }
      placements := placements + [placement];
      return Success(placement);
    }
  }
}
