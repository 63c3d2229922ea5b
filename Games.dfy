/** A match: its players, boards, shot log and status, and how a shot is resolved (Game.java). */
module Games {
  import opened Coordinates
  import opened Placements
  import opened Players
  import opened Boards
  import opened Shots
  import opened GameConfigurations

  datatype GameStatus = Waiting | Running

  /** The already-shot stream: some logged shot targeted this board object at this cell. */
  function AnyShotAt(shots: seq<Shot>, board: Board, c: Coordinate): (r: bool)
    ensures r <==> exists i :: 0 <= i < |shots| && shots[i].targetBoard == board && shots[i].coordinate == c
  {
    if shots == [] then false
    else
      var last := shots[|shots| - 1];
      var rest := AnyShotAt(shots[..|shots| - 1], board, c);
      assert forall i :: 0 <= i < |shots| - 1 ==> shots[i] == shots[..|shots| - 1][i];
      rest || (last.targetBoard == board && last.coordinate == c)
  }

  /** The hit stream: some placement covers the cell. */
  function AnyCovers(placements: seq<ShipPlacement>, c: Coordinate): (r: bool)
    ensures r <==> exists i :: 0 <= i < |placements| && c in CoveredCells(placements[i])
  {
    if placements == [] then false
    else
      var rest := AnyCovers(placements[1..], c);
      assert forall i :: 0 < i < |placements| ==> placements[i] == placements[1..][i - 1];
      c in CoveredCells(placements[0]) || rest
  }

  /** k is the position of the first placement that covers c. */
  predicate IsFirstCovering(placements: seq<ShipPlacement>, c: Coordinate, k: int)
  {
    && 0 <= k < |placements|
    && c in CoveredCells(placements[k])
    && forall j :: 0 <= j < k ==> c !in CoveredCells(placements[j])
  }

  /** The findFirst of the hit placement; the source's orElseThrow cannot fire after a hit. */
  function FirstCovering(placements: seq<ShipPlacement>, c: Coordinate): (k: nat)
    requires AnyCovers(placements, c)
    ensures IsFirstCovering(placements, c, k)
  {
    if c in CoveredCells(placements[0]) then 0
    else
      var k := FirstCovering(placements[1..], c);
      assert forall j :: 0 < j < |placements| ==> placements[j] == placements[1..][j - 1];
      k + 1
  }

  /** The sunk test: every cell of the ship was shot on this board before, or is the current cell. */
  predicate AllCellsShot(cells: seq<Coordinate>, shots: seq<Shot>, board: Board, c: Coordinate)
  {
    forall k :: 0 <= k < |cells| ==> AnyShotAt(shots, board, cells[k]) || cells[k] == c
  }

  /** The sunk test read over the cells as a set rather than by position. */
  lemma AllCellsShotByMembership(cells: seq<Coordinate>, shots: seq<Shot>, board: Board, c: Coordinate)
    ensures AllCellsShot(cells, shots, board, c) <==>
      forall cell :: cell in cells ==> cell == c || AnyShotAt(shots, board, cell)
  {
    if AllCellsShot(cells, shots, board, c) {
      forall cell | cell in cells ensures cell == c || AnyShotAt(shots, board, cell) {
        var k :| 0 <= k < |cells| && cells[k] == cell;
      }
    }
    if forall cell :: cell in cells ==> cell == c || AnyShotAt(shots, board, cell) {
      forall k | 0 <= k < |cells| ensures AnyShotAt(shots, board, cells[k]) || cells[k] == c {
        assert cells[k] in cells;
      }
    }
  }

  /** The outcome Game.fireShot records, from the log before the shot and the target's placements. */
  function Resolve(shots: seq<Shot>, board: Board, placements: seq<ShipPlacement>, c: Coordinate): (r: ShotResult)
    ensures r == Miss ==> forall i :: 0 <= i < |placements| ==> c !in CoveredCells(placements[i])
    ensures r in {Hit, Sunk} ==> exists i :: 0 <= i < |placements| && c in CoveredCells(placements[i])
    ensures r != AlreadyShot ==>
      forall i :: 0 <= i < |shots| && shots[i].targetBoard == board ==> shots[i].coordinate != c
  {
    if AnyShotAt(shots, board, c) then AlreadyShot
    else if !AnyCovers(placements, c) then Miss
    else if AllCellsShot(CoveredCells(placements[FirstCovering(placements, c)]), shots, board, c) then Sunk
    else Hit
  }

  /** The shots of the log that target this board object, in log order. */
  function ShotsOn(shots: seq<Shot>, board: Board): (r: seq<Shot>)
    ensures |r| <= |shots|
    ensures forall i :: 0 <= i < |r| ==> r[i] in shots && r[i].targetBoard == board
    ensures forall i :: 0 <= i < |shots| && shots[i].targetBoard == board ==> shots[i] in r
  {
    if shots == [] then []
    else
      var last := shots[|shots| - 1];
      var rest := ShotsOn(shots[..|shots| - 1], board);
      assert shots == shots[..|shots| - 1] + [last];
      if last.targetBoard == board then rest + [last] else rest
  }

  /** The positions in the log of the shots that target this board object: increasing, and every
      such position is listed. This fixes them uniquely, independently of ShotsOn. */
  function BoardShotIndices(shots: seq<Shot>, board: Board): (idx: seq<nat>)
    ensures forall k :: 0 <= k < |idx| ==> idx[k] < |shots| && shots[idx[k]].targetBoard == board
    ensures forall k, l :: 0 <= k < l < |idx| ==> idx[k] < idx[l]
    ensures forall i :: 0 <= i < |shots| && shots[i].targetBoard == board ==> i in idx
  {
    if shots == [] then []
    else
      var init := shots[..|shots| - 1];
      var rest := BoardShotIndices(init, board);
      assert forall i :: 0 <= i < |init| ==> init[i] == shots[i];
      if shots[|shots| - 1].targetBoard == board then rest + [|shots| - 1] else rest
  }

  /** ShotsOn is filter(...).toList(): exactly the log's shots at this board, each once, in log order. */
  lemma {:induction false} ShotsOnIsOrderedFilter(shots: seq<Shot>, board: Board)
    ensures var r, idx := ShotsOn(shots, board), BoardShotIndices(shots, board);
      |r| == |idx| && forall k :: 0 <= k < |r| ==> r[k] == shots[idx[k]]
  {
    if shots != [] {
      var init, last := shots[..|shots| - 1], shots[|shots| - 1];
      ShotsOnIsOrderedFilter(init, board);
      var r0, idx0 := ShotsOn(init, board), BoardShotIndices(init, board);
      forall k | 0 <= k < |r0| ensures r0[k] == shots[idx0[k]] {
        assert init[idx0[k]] == shots[idx0[k]];
      }
      if last.targetBoard == board {
        assert ShotsOn(shots, board) == r0 + [last];
        assert BoardShotIndices(shots, board) == idx0 + [|shots| - 1];
      } else {
        assert ShotsOn(shots, board) == r0;
        assert BoardShotIndices(shots, board) == idx0;
      }
    }
  }

  class Game {
    var status: GameStatus
    const gameCode: string
    const config: GameConfiguration
    var players: seq<Player>
    var boards: seq<Board>
    var shots: seq<Shot>

    constructor (gameCode: string, config: GameConfiguration)
      ensures status == Waiting && this.gameCode == gameCode && this.config == config
      ensures players == [] && boards == [] && shots == []
    {
      status := Waiting;
      this.gameCode := gameCode;
      this.config := config;
      players, boards, shots := [], [], [];
    }

    method AddPlayer(player: Player)
      modifies this
      ensures players == old(players) + [player]
      ensures status == old(status) && boards == old(boards) && shots == old(shots)
    {
      players := players + [player];
    }

    method AddBoard(board: Board)
      modifies this
      ensures boards == old(boards) + [board]
      ensures status == old(status) && players == old(players) && shots == old(shots)
    {
      boards := boards + [board];
    }

    method AddShot(shot: Shot)
      modifies this
      ensures shots == old(shots) + [shot]
      ensures status == old(status) && players == old(players) && boards == old(boards)
    {
      shots := shots + [shot];
    }

    /** fireShot: resolve against the log and the target's placements, then log exactly one shot in
        every branch. No status, membership or bounds check happens here. */
    method FireShot(shooter: Player, targetBoard: Board, coordinate: Coordinate) returns (shot: Shot)
      modifies this
      ensures shot.coordinate == coordinate && shot.shooter == shooter && shot.targetBoard == targetBoard
      ensures shot.result == Resolve(old(shots), targetBoard, targetBoard.placements, coordinate)
      ensures shots == old(shots) + [shot]
      ensures status == old(status) && players == old(players) && boards == old(boards)
    {
      var alreadyShot := AnyShotAt(shots, targetBoard, coordinate);
      if alreadyShot {
        shot := Shot(coordinate, AlreadyShot, shooter, targetBoard);
        AddShot(shot);
        return;
      }
      var hit := AnyCovers(targetBoard.placements, coordinate);
      if !hit {
        shot := Shot(coordinate, Miss, shooter, targetBoard);
        AddShot(shot);
        return;
      }
      var hitPlacement := targetBoard.placements[FirstCovering(targetBoard.placements, coordinate)];
      var allCoordsOfShipHit := AllCellsShot(CoveredCells(hitPlacement), shots, targetBoard, coordinate);
      var result := if allCoordsOfShipHit then Sunk else Hit;
      shot := Shot(coordinate, result, shooter, targetBoard);
      AddShot(shot);
    }
  }

  /** ALREADY_SHOT exactly when an earlier shot, by anyone, targeted this board at this cell. */
  lemma AlreadyShotIff(shots: seq<Shot>, board: Board, placements: seq<ShipPlacement>, c: Coordinate)
    ensures Resolve(shots, board, placements, c) == AlreadyShot <==>
      exists i :: 0 <= i < |shots| && shots[i].targetBoard == board && shots[i].coordinate == c
  {
  }

  /** MISS exactly when the cell is fresh on this board and no placement covers it. */
  lemma MissIff(shots: seq<Shot>, board: Board, placements: seq<ShipPlacement>, c: Coordinate)
    ensures Resolve(shots, board, placements, c) == Miss <==>
      && (forall i :: 0 <= i < |shots| && shots[i].targetBoard == board ==> shots[i].coordinate != c)
      && (forall i :: 0 <= i < |placements| ==> c !in CoveredCells(placements[i]))
  {
  }

  /** SUNK exactly when the cell is fresh, some placement covers it, and every cell of the first
      covering placement was shot on this board before or is the current cell; HIT in the remaining
      covered case. */
  lemma SunkOrHitIff(shots: seq<Shot>, board: Board, placements: seq<ShipPlacement>, c: Coordinate)
    ensures Resolve(shots, board, placements, c) == Sunk <==>
      && !AnyShotAt(shots, board, c)
      && exists k :: IsFirstCovering(placements, c, k) &&
           forall cell :: cell in CoveredCells(placements[k]) ==>
             cell == c || exists i :: 0 <= i < |shots| && shots[i].targetBoard == board && shots[i].coordinate == cell
    ensures Resolve(shots, board, placements, c) == Hit <==>
      && !AnyShotAt(shots, board, c)
      && exists k :: IsFirstCovering(placements, c, k) &&
           exists cell :: cell in CoveredCells(placements[k]) && cell != c && !AnyShotAt(shots, board, cell)
  {
    if AnyCovers(placements, c) {
      var k := FirstCovering(placements, c);
      FirstCoveringUnique(placements, c, k);
      AllCellsShotByMembership(CoveredCells(placements[k]), shots, board, c);
    }
  }

  lemma FirstCoveringUnique(placements: seq<ShipPlacement>, c: Coordinate, k: int)
    requires IsFirstCovering(placements, c, k)
    ensures forall k' :: IsFirstCovering(placements, c, k') ==> k' == k
  {
  }

  /** On a board whose placements are pairwise disjoint the covering ship is unique, so a shot at a
      fresh cell of ship j sinks it exactly when all its other cells were shot before, in any order. */
  lemma SunkIffShipComplete(shots: seq<Shot>, board: Board, placements: seq<ShipPlacement>, c: Coordinate, j: int)
    requires forall a, b :: 0 <= a < |placements| && 0 <= b < |placements| && a != b ==>
      !SharesCell(CoveredCells(placements[a]), CoveredCells(placements[b]))
    requires 0 <= j < |placements| && c in CoveredCells(placements[j])
    requires !AnyShotAt(shots, board, c)
    ensures Resolve(shots, board, placements, c) in {Hit, Sunk}
    ensures Resolve(shots, board, placements, c) == Sunk <==>
      forall cell :: cell in CoveredCells(placements[j]) ==> cell == c || AnyShotAt(shots, board, cell)
  {
    var k := FirstCovering(placements, c);
    assert k == j;
    AllCellsShotByMembership(CoveredCells(placements[j]), shots, board, c);
  }

  /** Firing again where the log already has a shot on the same board records ALREADY_SHOT. */
  lemma RepeatShotIsAlreadyShot(shots: seq<Shot>, s: Shot, placements: seq<ShipPlacement>)
    ensures Resolve(shots + [s], s.targetBoard, placements, s.coordinate) == AlreadyShot
  {
    var log := shots + [s];
    assert log[|log| - 1] == s;
  }

  /** Shots on other boards never matter to the already-shot test. */
  lemma {:induction false} AnyShotAtOnlySeesBoard(shots: seq<Shot>, board: Board, c: Coordinate)
    ensures AnyShotAt(ShotsOn(shots, board), board, c) == AnyShotAt(shots, board, c)
  {
    if shots != [] {
      var init := shots[..|shots| - 1];
      var last := shots[|shots| - 1];
      assert shots == init + [last];
      AnyShotAtOnlySeesBoard(init, board, c);
      var filtered := ShotsOn(init, board);
      if last.targetBoard == board {
        var log := filtered + [last];
        assert log[..|log| - 1] == filtered;
      }
    }
  }

  /** The outcome depends only on the shots at this board, whoever fired them. */
  lemma ResolveOnlySeesBoard(shots: seq<Shot>, board: Board, placements: seq<ShipPlacement>, c: Coordinate)
    ensures Resolve(ShotsOn(shots, board), board, placements, c) == Resolve(shots, board, placements, c)
  {
    AnyShotAtOnlySeesBoard(shots, board, c);
    if AnyCovers(placements, c) {
      var cells := CoveredCells(placements[FirstCovering(placements, c)]);
      forall k | 0 <= k < |cells|
        ensures AnyShotAt(ShotsOn(shots, board), board, cells[k]) == AnyShotAt(shots, board, cells[k])
      {
        AnyShotAtOnlySeesBoard(shots, board, cells[k]);
      }
    }
  }

  /** Logging one more shot extends this board's view by that shot when it targets this board,
      and leaves it alone otherwise. */
  lemma ShotsOnAppend(shots: seq<Shot>, s: Shot, board: Board)
    ensures ShotsOn(shots + [s], board) == ShotsOn(shots, board) + (if s.targetBoard == board then [s] else [])
  {
    var log := shots + [s];
    assert log[..|log| - 1] == shots;
  }
}
