/** The application service: create, join, fire and board-state queries over a repository of games
    keyed by game code (GameService.java). */
module GameServices {
  import opened Wrappers
  import opened Coordinates
  import opened Placements
  import opened Players
  import opened Boards
  import opened Shots
  import opened GameConfigurations
  import opened Games

  /** The exception classes the service throws; the web layer turns them into status codes. */
  datatype ExceptionKind = EntityNotFound | IllegalState | IllegalArgument

  /** Every way a service call is rejected, one constructor per throw in the source. */
  datatype ServiceError =
    | GameNotFound
    | NotWaiting
    | GameFull
    | NotRunning
    | ShooterNotInGame
    | BoardNotInGame
    | OwnBoard
    | OutOfBounds
  {
    function Kind(): (k: ExceptionKind)
      ensures k == EntityNotFound <==> this == GameNotFound
      ensures k == IllegalArgument <==> this == OutOfBounds
    {
      match this
      case GameNotFound => EntityNotFound
      case OutOfBounds => IllegalArgument
      case _ => IllegalState
    }
  }

  /** What getBoardState reports about one board. */
  datatype BoardState = BoardState(
    boardId: nat, width: int, height: int, ownerId: nat, ownerUsername: string,
    ships: seq<ShipPlacement>, shotsOnThisBoard: seq<Shot>)

  // ---------------------------------------------------------------------------------------------
  // Game codes: the text of UUID.randomUUID(), eight-four-four-four-twelve lower-case hex digits.

  predicate IsHexDigit(ch: char)
  {
    '0' <= ch <= '9' || 'a' <= ch <= 'f'
  }

  predicate AllHex(s: string)
  {
    forall ch :: ch in s ==> IsHexDigit(ch)
  }

  predicate IsUuidText(s: string)
  {
    && |s| == 36
    && s[8] == '-' && s[13] == '-' && s[18] == '-' && s[23] == '-'
    && AllHex(s[..8]) && AllHex(s[9..13]) && AllHex(s[14..18]) && AllHex(s[19..23]) && AllHex(s[24..])
  }

  /** The ASCII characters Java's Character.isWhitespace accepts. */
  predicate IsWhitespace(ch: char)
  {
    ch == ' ' || ch == '\t' || ch == '\n' || ch == '\r' || ch == '\U{0B}' || ch == '\U{0C}'
      || '\U{1C}' <= ch <= '\U{1F}'
  }

  /** String.isBlank. */
  predicate IsBlank(s: string)
  {
    forall i :: 0 <= i < |s| ==> IsWhitespace(s[i])
  }

  /** A generated game code is never blank. */
  lemma UuidTextIsNotBlank(s: string)
    requires IsUuidText(s)
    ensures !IsBlank(s)
  {
    assert s[0] in s[..8];
  }

  // ---------------------------------------------------------------------------------------------
  // The lookups by id: stream().filter(Objects.equals(id, ...)).findFirst().

  /** findFirst over the ids of a list: none iff no entry has the id, else the first position with it. */
  function FirstIndexOf(ids: seq<nat>, id: nat): (r: Option<nat>)
    ensures r.None? <==> forall i :: 0 <= i < |ids| ==> ids[i] != id
    ensures r.Some? ==>
      && r.value < |ids| && ids[r.value] == id
      && forall j :: 0 <= j < r.value ==> ids[j] != id
  {
    if ids == [] then None
    else if ids[0] == id then Some(0)
    else
      var rest := FirstIndexOf(ids[1..], id);
      assert forall j :: 0 < j < |ids| ==> ids[j] == ids[1..][j - 1];
      match rest
      case None => None
      case Some(k) => Some(k + 1)
  }

  /** The ids of the players, position by position. */
  function PlayerIds(players: seq<Player>): (ids: seq<nat>)
    ensures |ids| == |players| && forall i :: 0 <= i < |ids| ==> ids[i] == players[i].id
  {
    seq(|players|, i requires 0 <= i < |players| => players[i].id)
  }

  /** The persistence ids of the boards, position by position. */
  function BoardIds(boards: seq<Board>): (ids: seq<nat>)
    ensures |ids| == |boards| && forall i :: 0 <= i < |ids| ==> ids[i] == boards[i].id
  {
    seq(|boards|, i requires 0 <= i < |boards| => boards[i].id)
  }

  // ---------------------------------------------------------------------------------------------
  // The gates of joinGame and fireShot, evaluated on the game as found.

  /** joinGame's checks after the lookup: WAITING first, then fewer than two players. */
  function JoinCheck(status: GameStatus, playerCount: nat): (r: Option<ServiceError>)
    ensures r.Some? ==> r.value in {NotWaiting, GameFull} && r.value.Kind() == IllegalState
    ensures r.None? ==> status == Waiting && playerCount + 1 <= 2
  {
    if status != Waiting then Some(NotWaiting)
    else if playerCount >= 2 then Some(GameFull)
    else None
  }

  /** fireShot's checks after the lookup, first failure wins; on success the shooter and the target. */
  function FireCheck(status: GameStatus, players: seq<Player>, boards: seq<Board>,
                     shooterId: nat, targetBoardId: nat, x: int, y: int): (r: Result<(Player, Board), ServiceError>)
    ensures r.Failure? ==> r.error != GameNotFound && r.error !in {NotWaiting, GameFull}
    ensures r.Success? ==>
      && status == Running
      && r.value.0 in players && r.value.0.id == shooterId
      && r.value.1 in boards && r.value.1.id == targetBoardId
      && (exists i :: 0 <= i < |players| && players[i] == r.value.0
                      && forall j :: 0 <= j < i ==> players[j].id != shooterId)
      && (exists i :: 0 <= i < |boards| && boards[i] == r.value.1
                      && forall j :: 0 <= j < i ==> boards[j].id != targetBoardId)
      && r.value.1.owner.id != shooterId
      && 0 <= x < r.value.1.width && 0 <= y < r.value.1.height
  {
    if status != Running then Failure(NotRunning)
    else match FirstIndexOf(PlayerIds(players), shooterId)
      case None => Failure(ShooterNotInGame)
      case Some(si) =>
        match FirstIndexOf(BoardIds(boards), targetBoardId)
        case None => Failure(BoardNotInGame)
        case Some(bi) =>
          var targetBoard := boards[bi];
          if targetBoard.owner.id == shooterId then Failure(OwnBoard)
          else if x < 0 || x >= targetBoard.width || y < 0 || y >= targetBoard.height then Failure(OutOfBounds)
          else Success((players[si], targetBoard))
  }

  lemma JoinCheckOrder(status: GameStatus, playerCount: nat)
    ensures JoinCheck(status, playerCount) == Some(NotWaiting) <==> status != Waiting
    ensures JoinCheck(status, playerCount) == Some(GameFull) <==> status == Waiting && playerCount >= 2
    ensures JoinCheck(status, playerCount) == None <==> status == Waiting && playerCount < 2
  {
  }

  /** The six gates of fireShot in their order, and what a passing call hands to Game.fireShot. */
  lemma FireCheckOrder(status: GameStatus, players: seq<Player>, boards: seq<Board>,
                       shooterId: nat, targetBoardId: nat, x: int, y: int)
    ensures var r := FireCheck(status, players, boards, shooterId, targetBoardId, x, y);
      && (r == Failure(NotRunning) <==> status != Running)
      && (r == Failure(ShooterNotInGame) <==>
            status == Running && forall i :: 0 <= i < |players| ==> players[i].id != shooterId)
      && (r == Failure(BoardNotInGame) <==>
            && status == Running
            && (exists i :: 0 <= i < |players| && players[i].id == shooterId)
            && forall i :: 0 <= i < |boards| ==> boards[i].id != targetBoardId)
      && (r.Failure? && r.error in {OwnBoard, OutOfBounds} ==>
            && status == Running
            && (exists i :: 0 <= i < |players| && players[i].id == shooterId)
            && (exists i :: 0 <= i < |boards| && boards[i].id == targetBoardId))
      && (r.Success? ==>
            && status == Running
            && r.value.0.id == shooterId && r.value.0 in players
            && r.value.1.id == targetBoardId && r.value.1 in boards
            && r.value.1.owner.id != shooterId
            && InBounds(r.value.1.width, r.value.1.height, Coordinate(x, y)))
  {
  }

  /** With the shooter and the board found, the last two gates: own board, then bounds. */
  lemma FireCheckLastGates(status: GameStatus, players: seq<Player>, boards: seq<Board>,
                           shooterId: nat, targetBoardId: nat, x: int, y: int, b: int)
    requires status == Running
    requires exists i :: 0 <= i < |players| && players[i].id == shooterId
    requires 0 <= b < |boards| && boards[b].id == targetBoardId
    requires forall j :: 0 <= j < b ==> boards[j].id != targetBoardId
    ensures var r := FireCheck(status, players, boards, shooterId, targetBoardId, x, y);
      && (r == Failure(OwnBoard) <==> boards[b].owner.id == shooterId)
      && (r == Failure(OutOfBounds) <==>
            boards[b].owner.id != shooterId && !InBounds(boards[b].width, boards[b].height, Coordinate(x, y)))
      && (r.Success? <==>
            boards[b].owner.id != shooterId && InBounds(boards[b].width, boards[b].height, Coordinate(x, y)))
      && (r.Success? ==> r.value.1 == boards[b])
  {
    assert FirstIndexOf(BoardIds(boards), targetBoardId) == Some(b);
  }

  /** `state` reports board `b`: its id, size and owner, its placements in order, and exactly the
      log's shots at `b` in log order. */
  ghost predicate BoardStateOf(b: Board, shots: seq<Shot>, state: BoardState)
    reads b
  {
    && state.boardId == b.id && state.width == b.width && state.height == b.height
    && state.ownerId == b.owner.id && state.ownerUsername == b.owner.username
    && state.ships == b.placements
    && state.shotsOnThisBoard == ShotsOn(shots, b)
  }

  // ---------------------------------------------------------------------------------------------
  // The invariant the service keeps for every game it manages.

  /** Seat i of a game: its board is configuration-sized, owned by its player and valid. */
  ghost predicate SeatFits(config: GameConfiguration, board: Board, player: Player)
    reads board
  {
    board.owner == player && board.width == config.boardWidth && board.height == config.boardHeight
    && board.Valid()
  }

  /** A logged shot was fired by a player of the game at another player's board of the game. */
  predicate ShotLegal(players: seq<Player>, boards: seq<Board>, s: Shot)
  {
    s.targetBoard in boards && s.shooter in players && s.targetBoard.owner.id != s.shooter.id
  }

  /** The game uses the default configuration, the only one the source can build; players and
      boards pair up, at most two of them, in seats that fit; RUNNING exactly with two players;
      every logged shot is legal. */
  ghost predicate Consistent(g: Game)
    reads g, g.boards
    ensures Consistent(g) ==> g.config == DefaultConfig() && |g.boards| <= 2
    ensures Consistent(g) && g.status == Waiting ==> |g.players| < 2
  {
    && g.config == DefaultConfig()
    && |g.players| == |g.boards| <= 2
    && (forall i {:trigger SeatFits(g.config, g.boards[i], g.players[i])} :: 0 <= i < |g.boards| ==>
          SeatFits(g.config, g.boards[i], g.players[i]))
    && (g.status == Running <==> |g.players| == 2)
    && (forall i {:trigger ShotLegal(g.players, g.boards, g.shots[i])} :: 0 <= i < |g.shots| ==>
          ShotLegal(g.players, g.boards, g.shots[i]))
  }

  /** In a consistent game the "full" gate of joinGame never fires: a WAITING game has fewer than
      two players, so a join is either accepted or rejected as not WAITING. */
  lemma ConsistentGameNeverFull(g: Game)
    requires Consistent(g)
    ensures JoinCheck(g.status, |g.players|) != Some(GameFull)
    ensures g.status == Waiting ==> JoinCheck(g.status, |g.players|) == None
  {
  }

  class GameService {
    /** The repository's content: the game stored under each code. `save` changes nothing else. */
    var repository: map<string, Game>

    /** The service works on the repository it is given. */
    constructor (repository: map<string, Game>)
      ensures this.repository == repository
    {
      this.repository := repository;
    }

    /** getByGameCode: the repository lookup. */
    function GetByGameCode(code: string): (r: Option<Game>)
      reads this
      ensures r.Some? <==> code in repository
      ensures r.Some? ==> r.value == repository[code]
    {
      if code in repository then Some(repository[code]) else None
    }

    /** createNewGame: `code` is the generated UUID text; the new game is WAITING, empty, and uses the
        default configuration. */
    method CreateNewGame(code: string) returns (game: Game)
      requires IsUuidText(code) && code !in repository
      modifies this
      ensures fresh(game) && repository == old(repository)[code := game]
      ensures game.status == Waiting && game.gameCode == code && !IsBlank(game.gameCode)
      ensures game.config == DefaultConfig()
      ensures game.players == [] && game.boards == [] && game.shots == []
      ensures Consistent(game)
    {
      UuidTextIsNotBlank(code);
      var config := DefaultConfig();
      game := new Game(code, config);
      repository := repository[code := game];
    }

    /** joinGame: not found, then not WAITING, then full; a rejected join changes nothing. A join
        appends the player, then a configuration-sized board it owns, and starts the game on the
        second join. `playerId` and `boardId` stand for the ids the persistence layer assigns. */
    method JoinGame(code: string, username: string, playerId: nat, boardId: nat)
      returns (r: Result<Game, ServiceError>)
      modifies if code in repository then {repository[code]} else {}
      ensures code !in repository ==> r == Failure(GameNotFound)
      ensures code in repository ==>
        var g := repository[code];
        match JoinCheck(old(g.status), |old(g.players)|)
        case Some(e) => r == Failure(e) && unchanged(g)
        case None =>
          && r == Success(g)
          && g.players == old(g.players) + [Player(playerId, username)]
          && |g.boards| == |old(g.boards)| + 1
          && g.boards[..|old(g.boards)|] == old(g.boards)
          && fresh(g.boards[|old(g.boards)|])
          && g.boards[|old(g.boards)|].id == boardId
          && g.boards[|old(g.boards)|].width == g.config.boardWidth
          && g.boards[|old(g.boards)|].height == g.config.boardHeight
          && g.boards[|old(g.boards)|].owner == Player(playerId, username)
          && g.boards[|old(g.boards)|].placements == []
          && g.status == (if |old(g.players)| + 1 == 2 then Running else Waiting)
          && g.shots == old(g.shots)
      ensures code in repository && old(Consistent(repository[code])) ==> Consistent(repository[code])
    {
      if code !in repository {
        return Failure(GameNotFound);
      }
      var game := repository[code];
      if game.status != Waiting {
        return Failure(NotWaiting);
      }
      var currentPlayers := |game.players|;
      if currentPlayers >= 2 {
        return Failure(GameFull);
      }
      ghost var wasConsistent := Consistent(game);
      ghost var oldPlayers, oldBoards := game.players, game.boards;
      var player := Player(playerId, username);
      game.AddPlayer(player);
      var board := new Board(boardId, game.config.boardWidth, game.config.boardHeight, player);
      game.AddBoard(board);
      if currentPlayers + 1 == 2 {
        game.status := Running;
      }
      if wasConsistent {
        forall i | 0 <= i < |game.shots|
          ensures ShotLegal(game.players, game.boards, game.shots[i])
        {
          assert ShotLegal(oldPlayers, oldBoards, game.shots[i]);
        }
      }
      r := Success(game);
    }

    /** fireShot: the six gates in order, then Game.fireShot with the found shooter and board; a
        rejected shot changes nothing. */
    method FireShot(code: string, shooterId: nat, targetBoardId: nat, x: int, y: int)
      returns (r: Result<Shot, ServiceError>)
      modifies if code in repository then {repository[code]} else {}
      ensures code !in repository ==> r == Failure(GameNotFound)
      ensures code in repository ==>
        var g := repository[code];
        match FireCheck(old(g.status), old(g.players), old(g.boards), shooterId, targetBoardId, x, y)
        case Failure(e) => r == Failure(e) && unchanged(g)
        case Success(found) =>
          && r == Success(Shot(Coordinate(x, y),
                               Resolve(old(g.shots), found.1, found.1.placements, Coordinate(x, y)),
                               found.0, found.1))
          && g.shots == old(g.shots) + [r.value]
          && g.status == old(g.status) && g.players == old(g.players) && g.boards == old(g.boards)
      ensures code in repository && old(Consistent(repository[code])) ==> Consistent(repository[code])
    {
      if code !in repository {
        return Failure(GameNotFound);
      }
      var game := repository[code];
      if game.status != Running {
        return Failure(NotRunning);
      }
      var si := FirstIndexOf(PlayerIds(game.players), shooterId);
      if si.None? {
        return Failure(ShooterNotInGame);
      }
      var shooter := game.players[si.value];
      var bi := FirstIndexOf(BoardIds(game.boards), targetBoardId);
      if bi.None? {
        return Failure(BoardNotInGame);
      }
      var targetBoard := game.boards[bi.value];
      if targetBoard.owner.id == shooterId {
        return Failure(OwnBoard);
      }
      if x < 0 || x >= targetBoard.width || y < 0 || y >= targetBoard.height {
        return Failure(OutOfBounds);
      }
      var coordinate := Coordinate(x, y);
      var shot := game.FireShot(shooter, targetBoard, coordinate);
      r := Success(shot);
    }

    /** getBoardState: reads only; the board's placements in order and the log's shots at that
        board in log order. */
    function GetBoardState(code: string, boardId: nat): (r: Result<BoardState, ServiceError>)
      reads this, repository.Values
      reads if code in repository then repository[code].boards else []
      ensures code !in repository ==> r == Failure(GameNotFound)
      ensures code in repository ==>
        var g := repository[code];
        && (r.Failure? ==> r.error == BoardNotInGame)
        && (r == Failure(BoardNotInGame) <==> forall i :: 0 <= i < |g.boards| ==> g.boards[i].id != boardId)
        && (r.Success? <==> exists i :: 0 <= i < |g.boards| && g.boards[i].id == boardId)
        && (r.Success? ==>
              exists k ::
                && 0 <= k < |g.boards| && g.boards[k].id == boardId
                && (forall j :: 0 <= j < k ==> g.boards[j].id != boardId)
                && BoardStateOf(g.boards[k], g.shots, r.value))
    {
      if code !in repository then Failure(GameNotFound)
      else
        var game := repository[code];
        match FirstIndexOf(BoardIds(game.boards), boardId)
        case None => Failure(BoardNotInGame)
        case Some(k) =>
          var board := game.boards[k];
          Success(BoardState(board.id, board.width, board.height, board.owner.id, board.owner.username,
                             board.placements, ShotsOn(game.shots, board)))
    }
  }
}
