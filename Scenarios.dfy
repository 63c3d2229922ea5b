/** The scenarios the unit tests walk through, replayed against the model. */
module Scenarios {
  import opened Wrappers
  import opened Coordinates
  import opened ShipTypes
  import opened Ships
  import opened Placements
  import opened Players
  import opened Boards
  import opened Shots
  import opened GameConfigurations
  import opened Games
  import opened GameServices

  /** On an empty 10 x 10 board a destroyer fits at (3,3) both ways; a battleship from (8,5)
      horizontally or from (5,8) vertically does not; a destroyer crossing a cruiser does not. */
  method PlacementScenario() returns (fitsHorizontal: bool, fitsVertical: bool,
                                      pastRight: bool, pastBottom: bool, overlapping: bool)
    ensures fitsHorizontal && fitsVertical
    ensures !pastRight && !pastBottom && !overlapping
  {
    var board := new Board(1, 10, 10, Player(1, "TestPlayer"));
    fitsHorizontal := board.CanPlaceShip(Ship(Destroyer), Coordinate(3, 3), Horizontal);
    fitsVertical := board.CanPlaceShip(Ship(Destroyer), Coordinate(3, 3), Vertical);
    pastRight := board.CanPlaceShip(Ship(Battleship), Coordinate(8, 5), Horizontal);
    assert CoveredCells(ShipPlacement(Ship(Battleship), Coordinate(8, 5), Horizontal))[2] == Coordinate(10, 5);
    pastBottom := board.CanPlaceShip(Ship(Battleship), Coordinate(5, 8), Vertical);
    assert CoveredCells(ShipPlacement(Ship(Battleship), Coordinate(5, 8), Vertical))[2] == Coordinate(5, 10);
    overlapping := OverlapScenario();
  }

  /** A cruiser placed at (2,2) horizontally blocks a destroyer from (3,1) vertically: they share (3,2). */
  method OverlapScenario() returns (overlapping: bool)
    ensures !overlapping
  {
    var board := new Board(1, 10, 10, Player(1, "TestPlayer"));
    var placed := board.PlaceShip(Ship(Cruiser), Coordinate(2, 2), Horizontal);
    overlapping := board.CanPlaceShip(Ship(Destroyer), Coordinate(3, 1), Vertical);
    var cruiser := ShipPlacement(Ship(Cruiser), Coordinate(2, 2), Horizontal);
    var destroyer := ShipPlacement(Ship(Destroyer), Coordinate(3, 1), Vertical);
    assert board.placements == [cruiser];
    assert CoveredCells(cruiser) == [Coordinate(2, 2), Coordinate(3, 2), Coordinate(4, 2)];
    assert CoveredCells(destroyer) == [Coordinate(3, 1), Coordinate(3, 2)];
    assert Coordinate(3, 2) in CoveredCells(cruiser) && Coordinate(3, 2) in CoveredCells(destroyer);
    assert SharesCell(CoveredCells(board.placements[0]), CoveredCells(destroyer));
  }

  function Destroyer33(): ShipPlacement
  {
    ShipPlacement(Ship(Destroyer), Coordinate(3, 3), Horizontal)
  }

  /** The four outcomes of the shooting test, one step of the log at a time. */
  lemma ShootingOutcomes(board: Board, attacker: Player)
    ensures var ship := [Destroyer33()];
      var s1 := Shot(Coordinate(3, 3), Hit, attacker, board);
      var s2 := Shot(Coordinate(4, 3), Sunk, attacker, board);
      var s3 := Shot(Coordinate(3, 3), AlreadyShot, attacker, board);
      && Resolve([], board, ship, Coordinate(3, 3)) == Hit
      && Resolve([s1], board, ship, Coordinate(4, 3)) == Sunk
      && Resolve([s1, s2], board, ship, Coordinate(3, 3)) == AlreadyShot
      && Resolve([s1, s2, s3], board, ship, Coordinate(0, 0)) == Miss
  {
    var ship := [Destroyer33()];
    assert CoveredCells(Destroyer33()) == [Coordinate(3, 3), Coordinate(4, 3)];
    var s1 := Shot(Coordinate(3, 3), Hit, attacker, board);
    var s2 := Shot(Coordinate(4, 3), Sunk, attacker, board);
    var s3 := Shot(Coordinate(3, 3), AlreadyShot, attacker, board);
    SunkIffShipComplete([], board, ship, Coordinate(3, 3), 0);
    assert Coordinate(4, 3) in CoveredCells(Destroyer33());
    SunkIffShipComplete([s1], board, ship, Coordinate(4, 3), 0);
    assert AnyShotAt([s1, s2], board, Coordinate(3, 3)) by {
      assert [s1, s2][0].coordinate == Coordinate(3, 3);
    }
    MissIff([s1, s2, s3], board, ship, Coordinate(0, 0));
  }

  /** A destroyer at (3,3)-(4,3): (3,3) hits, (4,3) sinks, (3,3) again is already shot, (0,0) misses;
      the log holds every attempt. */
  method ShootingScenario() returns (results: seq<ShotResult>, logSize: nat)
    ensures results == [Hit, Sunk, AlreadyShot, Miss]
    ensures logSize == 4
  {
    var game := new Game("TEST-CODE", DefaultConfig());
    var attacker := Player(1, "Attacker");
    var defender := Player(2, "Defender");
    game.AddPlayer(attacker);
    game.AddPlayer(defender);
    var board := new Board(3, 10, 10, defender);
    var placed := board.PlaceShip(Ship(Destroyer), Coordinate(3, 3), Horizontal);
    game.AddBoard(board);
    assert board.placements == [Destroyer33()];
    ShootingOutcomes(board, attacker);
    var first := game.FireShot(attacker, board, Coordinate(3, 3));
    assert first == Shot(Coordinate(3, 3), Hit, attacker, board) && game.shots == [first];
    var second := game.FireShot(attacker, board, Coordinate(4, 3));
    assert second == Shot(Coordinate(4, 3), Sunk, attacker, board) && game.shots == [first, second];
    var third := game.FireShot(attacker, board, Coordinate(3, 3));
    assert third == Shot(Coordinate(3, 3), AlreadyShot, attacker, board) && game.shots == [first, second, third];
    var fourth := game.FireShot(attacker, board, Coordinate(0, 0));
    assert fourth.result == Miss && |game.shots| == 4;
    results := [first.result, second.result, third.result, fourth.result];
    logSize := |game.shots|;
  }

  /** The shooting tests' fixture: a fresh game with an attacker and a defender, and the defender's
      default-sized board holding a destroyer at (3,3)-(4,3). */
  method ShootingGame() returns (game: Game, attacker: Player, defenderBoard: Board)
    ensures fresh(game) && fresh(defenderBoard)
    ensures game.players == [attacker, Player(2, "Defender")] && game.boards == [defenderBoard]
    ensures game.shots == [] && defenderBoard.placements == [Destroyer33()]
  {
    game := new Game("TEST-CODE", DefaultConfig());
    attacker := Player(1, "Attacker");
    var defender := Player(2, "Defender");
    game.AddPlayer(attacker);
    game.AddPlayer(defender);
    defenderBoard := new Board(3, game.config.boardWidth, game.config.boardHeight, defender);
    var placed := defenderBoard.PlaceShip(Ship(Destroyer), Coordinate(3, 3), Horizontal);
    game.AddBoard(defenderBoard);
  }

  /** The three shooting tests, each on a fresh fixture: (0,0) misses; (3,3) hits without sinking;
      (0,0) twice gives MISS, then ALREADY_SHOT; every shot is logged. */
  method ShootingTests() returns (miss: ShotResult, missLog: nat, hit: ShotResult, hitLog: nat,
                                  first: ShotResult, second: ShotResult, repeatLog: nat)
    ensures miss == Miss && missLog == 1
    ensures hit == Hit && hitLog == 1
    ensures first == Miss && second == AlreadyShot && repeatLog == 2
  {
    assert CoveredCells(Destroyer33()) == [Coordinate(3, 3), Coordinate(4, 3)];
    var game, attacker, board := ShootingGame();
    MissIff([], board, [Destroyer33()], Coordinate(0, 0));
    var shot := game.FireShot(attacker, board, Coordinate(0, 0));
    miss, missLog := shot.result, |game.shots|;

    game, attacker, board := ShootingGame();
    SunkIffShipComplete([], board, [Destroyer33()], Coordinate(3, 3), 0);
    assert Coordinate(4, 3) in CoveredCells(Destroyer33()) && !AnyShotAt([], board, Coordinate(4, 3));
    shot := game.FireShot(attacker, board, Coordinate(3, 3));
    hit, hitLog := shot.result, |game.shots|;

    game, attacker, board := ShootingGame();
    MissIff([], board, [Destroyer33()], Coordinate(0, 0));
    var s1 := game.FireShot(attacker, board, Coordinate(0, 0));
    RepeatShotIsAlreadyShot([], s1, [Destroyer33()]);
    var s2 := game.FireShot(attacker, board, Coordinate(0, 0));
    first, second, repeatLog := s1.result, s2.result, |game.shots|;
  }

  /** The code the service scenarios create their game under. */
  function ScenarioCode(): (code: string)
    ensures IsUuidText(code)
  {
    var a, b, c, d, e := "123e4567", "e89b", "12d3", "a456", "426614174000";
    var code := a + "-" + b + "-" + c + "-" + d + "-" + e;
    assert code[..8] == a && code[9..13] == b && code[14..18] == c;
    assert code[19..23] == d && code[24..] == e;
    code
  }

  /** A new game is WAITING; the first join keeps it WAITING with one player and one board, the
      second starts it with two of each, and a third is rejected because the game is no longer
      WAITING. */
  method JoinScenario() returns (afterFirst: GameStatus, afterSecond: GameStatus,
                                 third: Result<Game, ServiceError>, players: nat, boards: nat)
    ensures afterFirst == Waiting && afterSecond == Running
    ensures third == Failure(NotWaiting) && third.error.Kind() == IllegalState
    ensures players == 2 && boards == 2
  {
    var service := new GameService(map[]);
    var code := ScenarioCode();
    var game := service.CreateNewGame(code);
    assert service.repository[code] == game;
    var first := service.JoinGame(code, "A", 1, 11);
    assert JoinCheck(Waiting, 0) == None;
    assert first == Success(game) && |game.players| == 1 && |game.boards| == 1;
    afterFirst := game.status;
    assert afterFirst == Waiting;
    var second := service.JoinGame(code, "B", 2, 12);
    assert JoinCheck(Waiting, 1) == None;
    assert second == Success(game) && |game.players| == 2 && |game.boards| == 2;
    afterSecond := game.status;
    assert afterSecond == Running;
    third := service.JoinGame(code, "C", 3, 13);
    assert JoinCheck(Running, 2) == Some(NotWaiting);
    players := |game.players|;
    boards := |game.boards|;
  }

  /** A service game that players 1 ("A", board 11) and 2 ("B", board 12) have joined; a shot
      fired between the two joins is rejected because the game is not yet running. */
  method StartedGame() returns (service: GameService, code: string, game: Game,
                                early: Result<Shot, ServiceError>)
    ensures fresh(service) && fresh(game) && service.repository == map[code := game]
    ensures IsUuidText(code)
    ensures game.status == Running && game.shots == []
    ensures game.players == [Player(1, "A"), Player(2, "B")] && |game.boards| == 2
    ensures fresh(game.boards[0]) && fresh(game.boards[1])
    ensures game.boards[0].id == 11 && game.boards[1].id == 12
    ensures game.boards[0].owner == Player(1, "A") && game.boards[1].owner == Player(2, "B")
    ensures game.boards[0].width == 10 && game.boards[0].height == 10 && game.boards[0].placements == []
    ensures game.boards[1].width == 10 && game.boards[1].height == 10 && game.boards[1].placements == []
    ensures early == Failure(NotRunning)
  {
    service := new GameService(map[]);
    code := ScenarioCode();
    game := service.CreateNewGame(code);
    var first := service.JoinGame(code, "A", 1, 11);
    assert JoinCheck(Waiting, 0) == None;
    assert game.status == Waiting && game.shots == [];
    early := service.FireShot(code, 1, 12, 0, 0);
    assert game.status == Waiting && game.players == [Player(1, "A")];
    var second := service.JoinGame(code, "B", 2, 12);
    assert JoinCheck(Waiting, 1) == None;
  }

  /** The fire gates on a running service game: an unknown game, an unknown shooter, an unknown
      board, the shooter's own board and the cell (width, 0) are each rejected, and none of them
      touches the shot log. */
  method FireGatesScenario() returns (early: Result<Shot, ServiceError>, unknownGame: Result<Shot, ServiceError>,
                                      unknownShooter: Result<Shot, ServiceError>, unknownBoard: Result<Shot, ServiceError>,
                                      ownBoard: Result<Shot, ServiceError>, outside: Result<Shot, ServiceError>,
                                      game: Game)
    ensures game.shots == []
    ensures early == Failure(NotRunning)
    ensures unknownGame == Failure(GameNotFound)
    ensures unknownShooter == Failure(ShooterNotInGame)
    ensures unknownBoard == Failure(BoardNotInGame)
    ensures ownBoard == Failure(OwnBoard)
    ensures outside == Failure(OutOfBounds) && outside.error.Kind() == IllegalArgument
  {
    var service, code;
    service, code, game, early := StartedGame();
    var players, boards := game.players, game.boards;
    assert "UNKNOWN" != code by {
      assert |"UNKNOWN"| != |code|;
    }
    unknownGame := service.FireShot("UNKNOWN", 1, 12, 0, 0);
    assert FirstIndexOf(PlayerIds(players), 7) == None;
    unknownShooter := service.FireShot(code, 7, 12, 0, 0);
    assert FirstIndexOf(PlayerIds(players), 1) == Some(0) && FirstIndexOf(BoardIds(boards), 17) == None;
    unknownBoard := service.FireShot(code, 1, 17, 0, 0);
    assert FirstIndexOf(BoardIds(boards), 11) == Some(0);
    ownBoard := service.FireShot(code, 1, 11, 0, 0);
    assert FirstIndexOf(BoardIds(boards), 12) == Some(1);
    outside := service.FireShot(code, 1, 12, 10, 0);
    assert game.shots == [];
  }

  /** A hand-built game with two players and two boards that is still WAITING: a third join passes
      the status gate and is rejected as full, leaving the game as it was. */
  method FullGameScenario() returns (third: Result<Game, ServiceError>, players: nat, boards: nat)
    ensures third == Failure(GameFull) && third.error.Kind() == IllegalState
    ensures players == 2 && boards == 2
  {
    var game := new Game("TEST-CODE", DefaultConfig());
    var p1, p2 := Player(1, "Player1"), Player(2, "Player2");
    game.AddPlayer(p1);
    game.AddPlayer(p2);
    var b1 := new Board(11, 10, 10, p1);
    var b2 := new Board(12, 10, 10, p2);
    game.AddBoard(b1);
    game.AddBoard(b2);
    var service := new GameService(map["TEST-CODE" := game]);
    assert JoinCheck(Waiting, 2) == Some(GameFull);
    third := service.JoinGame("TEST-CODE", "Player3", 3, 13);
    players := |game.players|;
    boards := |game.boards|;
  }

  /** Once running, with a destroyer placed on player 2's board at (3,3)-(4,3), player 1's shot at
      (3,3) is accepted as a HIT by player 1 on that board and becomes the only entry of the log. */
  method LegalShotScenario() returns (legal: Result<Shot, ServiceError>, logSize: nat, game: Game)
    ensures legal.Success? && legal.value.result == Hit && legal.value.coordinate == Coordinate(3, 3)
    ensures legal.Success? ==> legal.value.shooter == Player(1, "A") && legal.value.targetBoard.id == 12
    ensures |game.boards| == 2
    ensures legal.Success? ==> legal.value.targetBoard == game.boards[1]
    ensures logSize == 1
  {
    var service, code, early;
    service, code, game, early := StartedGame();
    var defenderBoard := game.boards[1];
    var placed := defenderBoard.PlaceShip(Ship(Destroyer), Coordinate(3, 3), Horizontal);
    assert defenderBoard.placements == [Destroyer33()];
    ShootingOutcomes(defenderBoard, Player(1, "A"));
    assert Resolve([], defenderBoard, defenderBoard.placements, Coordinate(3, 3)) == Hit;
    assert FirstIndexOf(PlayerIds(game.players), 1) == Some(0) && FirstIndexOf(BoardIds(game.boards), 12) == Some(1);
    assert FireCheck(Running, game.players, game.boards, 1, 12, 3, 3) == Success((Player(1, "A"), defenderBoard));
    legal := service.FireShot(code, 1, 12, 3, 3);
    logSize := |game.shots|;
  }
}
