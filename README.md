# Battleship backend: the rules engine and the game service

A Dafny model of the core of a two-player Battleship backend, a Spring service with JPA entities.
The model covers its parts in turn:

- the value types: coordinates, ship types, ships and ship placements;
- the board, which places ships with a bounds and overlap check;
- the game, which keeps a shot log and resolves every shot to MISS, HIT, SUNK or ALREADY_SHOT;
- the game service, which creates games, lets two players join, fires shots through six ordered
  gates and reports one board's state.

The entities the source mutates in place are classes: `Boards.Board`, `Games.Game` and
`GameServices.GameService`. Each method states its whole new state with `old` and `modifies`.
The others are datatypes: `Coordinate`, `ShipType`, `Ship`, `ShipPlacement`, `Player`,
`Shot` and `GameConfiguration`.

Two points of identity follow the source:

- A board object has no value equality in the source. The model compares boards by reference:
  `Shot.targetBoard` is a `Board` reference.
- The entity ids are generated by the persistence layer, and the game code is drawn by the
  service with `UUID.randomUUID()`. Both become parameters: `JoinGame` takes the player's and
  board's ids, and `CreateNewGame` takes the generated code.

The repository is a `map<string, Game>` held by the service. `save` is identity on it.

Every stream pipeline of the source is a function whose contract says what it finds. Most are
recursive:

- `anyMatch` becomes `AnyShotAt`, `AnyCovers` and `Overlaps`;
- `filter(...).findFirst()` becomes `FirstCovering`, and `FirstIndexOf` over the players' or the boards' ids;
- `filter(...).toList()` becomes `ShotsOn`;
- the `allMatch` of the sunk test is the quantified predicate `AllCellsShot`.

The loops of `getCoveredCoordinates` and `canPlaceShip` are methods with loop invariants. They
are proved against the specification functions `CoveredCells` and `Placeable`.

One result of the model concerns the GameFull gate of `joinGame`.

- `GameServices.Consistent` is the invariant the service keeps: the default configuration,
  paired players and boards, at most two of them, RUNNING exactly with two players, and legal shots.
- Under that invariant the gate never fires (`ConsistentGameNeverFull`). The status check comes
  first, and a game with two players is already RUNNING.
- So a third join through the service is rejected as NotWaiting (`JoinScenario`).
- The source's unit test reaches the "already has 2 players" exception on a two-player game that
  is still WAITING. Only a game built by hand can be in that state.

## Model

| member | source | states |
|---|---|---|
| Coordinates.Equals | src/main/java/ch/battleship/battleshipbackend/domain/Coordinate.java:27-32 | equals is true only for a Coordinate argument |
| Coordinates.EqualsIsValueEquality | src/main/java/ch/battleship/battleshipbackend/domain/Coordinate.java:27-32 | on a Coordinate argument, equals holds exactly when x and y agree (structural equality) |
| Coordinates.EqualsReflexive | src/main/java/ch/battleship/battleshipbackend/domain/Coordinate.java:29 | every coordinate equals itself |
| Coordinates.EqualsSymmetric | src/main/java/ch/battleship/battleshipbackend/domain/Coordinate.java:27-32 | equals is symmetric |
| Coordinates.EqualsTransitive | src/main/java/ch/battleship/battleshipbackend/domain/Coordinate.java:27-32 | equals is transitive |
| Coordinates.NeverEqualsNonCoordinate | src/main/java/ch/battleship/battleshipbackend/domain/Coordinate.java:30 | null and objects of other classes are never equal to a coordinate |
| Coordinates.WrapInt32 | src/main/java/ch/battleship/battleshipbackend/domain/Coordinate.java:36 | Java int arithmetic: the result is in the 32-bit range and congruent to the exact value modulo 2^32 |
| Coordinates.HashCode | src/main/java/ch/battleship/battleshipbackend/domain/Coordinate.java:34-37 | 31*x+y in 32-bit arithmetic, always a Java int |
| Coordinates.HashConsistentWithEquals | src/main/java/ch/battleship/battleshipbackend/domain/Coordinate.java:27-37 | equal coordinates have equal hash codes |
| ShipTypes.ShipType.Size | src/main/java/ch/battleship/battleshipbackend/domain/enums/ShipType.java:4-17 | every ship size lies between 2 and 5 |
| ShipTypes.ShipType.Ordinal | src/main/java/ch/battleship/battleshipbackend/domain/enums/ShipType.java:3-7 | the position of the constant in the declared order DESTROYER, CRUISER, BATTLESHIP, CARRIER |
| ShipTypes.DeclaredSizes | src/main/java/ch/battleship/battleshipbackend/domain/enums/ShipType.java:4-7 | DESTROYER 2, CRUISER 3, BATTLESHIP 4, CARRIER 5 |
| ShipTypes.SizesIncreaseWithOrdinal | src/main/java/ch/battleship/battleshipbackend/domain/enums/ShipType.java:4-7 | a later-declared type is strictly larger |
| ShipTypes.SizeDeterminesType | src/main/java/ch/battleship/battleshipbackend/domain/enums/ShipType.java:4-7 | no two types share a size |
| Ships.Ship.Size | src/main/java/ch/battleship/battleshipbackend/domain/Ship.java:24-28 | a ship's size is its type's size, between 2 and 5 |
| Ships.Ship.WithType | src/main/java/ch/battleship/battleshipbackend/domain/Ship.java:16-22 | the type setter replaces the type |
| Ships.SizeFollowsType | src/main/java/ch/battleship/battleshipbackend/domain/Ship.java:16-28 | after setType the size is the new type's size, since size is derived and never stored |
| Placements.GetCoveredCoordinates | src/main/java/ch/battleship/battleshipbackend/domain/ShipPlacement.java:43-54 | the loop returns exactly CoveredCells: size cells, the i-th one i steps along the orientation |
| Placements.CoveredCellsShape | src/main/java/ch/battleship/battleshipbackend/domain/ShipPlacement.java:43-54 | ship.getSize() cells; cell i is (x+i, y) when horizontal and (x, y+i) when vertical |
| Placements.FirstCellIsStart | src/main/java/ch/battleship/battleshipbackend/domain/ShipPlacement.java:47-50 | the list is never empty and begins at the start cell |
| Placements.CoveredCellsDistinct | src/main/java/ch/battleship/battleshipbackend/domain/ShipPlacement.java:47-50 | no cell is listed twice |
| Placements.CoveredCellsStayInLine | src/main/java/ch/battleship/battleshipbackend/domain/ShipPlacement.java:47-50 | every covered cell lies on the start's row (horizontal) or column (vertical), within size steps |
| Boards.Overlaps | src/main/java/ch/battleship/battleshipbackend/domain/Board.java:62-66 | the overlap stream is true iff some existing placement shares a cell with the candidate's cells |
| Boards.PlaceableIff | src/main/java/ch/battleship/battleshipbackend/domain/Board.java:49-73 | canPlaceShip's verdict holds iff every candidate cell is on the board and no existing placement covers any of them |
| Boards.PlacingKeepsValid | src/main/java/ch/battleship/battleshipbackend/domain/Board.java:79-87 | appending a placeable candidate to a board whose ships are on the board and pairwise disjoint keeps it so |
| Boards.OverlapsAppend | src/main/java/ch/battleship/battleshipbackend/domain/Board.java:62-66 | overlap with one more placement = overlap with the old ones or with the new one |
| Boards.PlacementOrderIrrelevant | src/main/java/ch/battleship/battleshipbackend/domain/Board.java:49-87 | placing p then q is legal iff placing q then p is legal |
| Boards.Board.constructor | src/main/java/ch/battleship/battleshipbackend/domain/Board.java:39-43 | stores width, height and owner; no placements yet; the board invariant holds |
| Boards.Board.CanPlaceShip | src/main/java/ch/battleship/battleshipbackend/domain/Board.java:49-73 | the bounds loop with early return plus the overlap test compute exactly Placeable for the candidate, changing nothing |
| Boards.Board.PlaceShip | src/main/java/ch/battleship/battleshipbackend/domain/Board.java:79-87 | a placeable ship is appended and returned; otherwise CannotPlaceShip and placements unchanged; the board invariant is preserved |
| GameConfigurations.DefaultConfig | src/main/java/ch/battleship/battleshipbackend/domain/GameConfiguration.java:30-36 | the default is 10 x 10 with fleet text "2x2,2x3,1x4,1x5" |
| Games.AnyShotAt | src/main/java/ch/battleship/battleshipbackend/domain/Game.java:64-66 | true iff some logged shot targeted this board object at this cell |
| Games.AnyCovers | src/main/java/ch/battleship/battleshipbackend/domain/Game.java:75-77 | true iff some placement of the target covers the cell |
| Games.FirstCovering | src/main/java/ch/battleship/battleshipbackend/domain/Game.java:86-89 | after a hit, the index of the first placement covering the cell; orElseThrow cannot fire |
| Games.AllCellsShotByMembership | src/main/java/ch/battleship/battleshipbackend/domain/Game.java:92-98 | the allMatch over the ship's cells holds iff every cell of the ship was shot on this board or is the current cell |
| Games.ShotsOn | src/main/java/ch/battleship/battleshipbackend/service/GameService.java:119-122 | keeps only this board's shots, and every one of them, within the log's length |
| Games.BoardShotIndices | src/main/java/ch/battleship/battleshipbackend/service/GameService.java:119-120 | the log positions whose shot targets this board object: strictly increasing and complete, hence unique |
| Games.ShotsOnIsOrderedFilter | src/main/java/ch/battleship/battleshipbackend/service/GameService.java:119-122 | the filtered list is the log at exactly those positions, in log order: each shot at the board once, nothing else, no reordering |
| Games.Game.constructor | src/main/java/ch/battleship/battleshipbackend/domain/Game.java:44-48 | a new game is WAITING with the code and configuration given and empty lists |
| Games.Game.AddPlayer | src/main/java/ch/battleship/battleshipbackend/domain/Game.java:50-52 | appends the player, nothing else changes |
| Games.Game.AddBoard | src/main/java/ch/battleship/battleshipbackend/domain/Game.java:54-56 | appends the board, nothing else changes |
| Games.Game.AddShot | src/main/java/ch/battleship/battleshipbackend/domain/Game.java:58-60 | appends the shot, nothing else changes |
| Games.Game.FireShot | src/main/java/ch/battleship/battleshipbackend/domain/Game.java:62-104 | logs exactly one shot with the given coordinate, shooter and board, whose result is Resolve of the log before it; status, players and boards unchanged |
| Games.Resolve | src/main/java/ch/battleship/battleshipbackend/domain/Game.java:63-100 | a MISS lands on no ship, a HIT or SUNK lands on one, and anything other than ALREADY_SHOT is a cell not shot on this board before |
| Games.AlreadyShotIff | src/main/java/ch/battleship/battleshipbackend/domain/Game.java:63-72 | ALREADY_SHOT iff an earlier shot, by anyone, hit this board object at this cell |
| Games.MissIff | src/main/java/ch/battleship/battleshipbackend/domain/Game.java:74-83 | MISS iff the cell is fresh on this board and no placement covers it |
| Games.SunkOrHitIff | src/main/java/ch/battleship/battleshipbackend/domain/Game.java:85-100 | SUNK iff fresh, covered, and every cell of the first covering ship was shot before or is this cell; HIT iff fresh, covered and some other cell of that ship is unshot |
| Games.FirstCoveringUnique | src/main/java/ch/battleship/battleshipbackend/domain/Game.java:86-89 | the first covering placement is unique |
| Games.SunkIffShipComplete | src/main/java/ch/battleship/battleshipbackend/domain/Game.java:85-100 | on a board with disjoint ships, a fresh shot into ship j is HIT or SUNK, and SUNK iff all of j's other cells were shot |
| Games.RepeatShotIsAlreadyShot | src/main/java/ch/battleship/battleshipbackend/domain/Game.java:63-72 | firing again at a logged shot's board and cell records ALREADY_SHOT, whatever the placements |
| Games.AnyShotAtOnlySeesBoard | src/main/java/ch/battleship/battleshipbackend/domain/Game.java:64-66 | the already-shot test gives the same answer on the log and on its shots at this board |
| Games.ResolveOnlySeesBoard | src/main/java/ch/battleship/battleshipbackend/domain/Game.java:62-104 | the outcome depends only on the shots at the target board |
| Games.ShotsOnAppend | src/main/java/ch/battleship/battleshipbackend/domain/Game.java:58-60 | one more logged shot extends a board's view by that shot exactly when it targets the board |
| GameServices.ServiceError.Kind | src/main/java/ch/battleship/battleshipbackend/service/GameService.java:40-113 | only a missing game is EntityNotFound, only out-of-bounds is IllegalArgument, all other rejections IllegalState |
| GameServices.UuidTextIsNotBlank | src/main/java/ch/battleship/battleshipbackend/service/GameService.java:29-34 | a generated game code is never blank |
| GameServices.FirstIndexOf | src/main/java/ch/battleship/battleshipbackend/service/GameService.java:78-86 | findFirst by id: none iff no entry has the id, else the first position with it; used for players and for boards |
| GameServices.JoinCheck | src/main/java/ch/battleship/battleshipbackend/service/GameService.java:44-51 | a rejection is not WAITING or full, both IllegalState; a pass means WAITING with room for one more player |
| GameServices.FireCheck | src/main/java/ch/battleship/battleshipbackend/service/GameService.java:74-97 | never a join or lookup error; a pass means RUNNING and hands over the first player of the game with the shooter id and the first board of the game with the board id, owned by someone else, with the cell on it |
| GameServices.JoinCheckOrder | src/main/java/ch/battleship/battleshipbackend/service/GameService.java:44-51 | join is rejected as not WAITING iff the status is not WAITING; as full iff WAITING with two or more players; accepted otherwise |
| GameServices.FireCheckOrder | src/main/java/ch/battleship/battleshipbackend/service/GameService.java:74-97 | the gates in order: not RUNNING, unknown shooter, unknown board, then own board/bounds; a pass hands over a game shooter and board with the ids, another owner and an in-bounds cell |
| GameServices.FireCheckLastGates | src/main/java/ch/battleship/battleshipbackend/service/GameService.java:88-97 | with the shooter and first board found: own board iff the owner has the shooter's id, out of bounds iff not own and outside, passing iff neither |
| GameServices.Consistent | src/main/java/ch/battleship/battleshipbackend/service/GameService.java:29-104 | the invariant: default configuration, at most two boards, and a WAITING game has fewer than two players |
| GameServices.ConsistentGameNeverFull | src/main/java/ch/battleship/battleshipbackend/service/GameService.java:44-65 | in a game the service keeps consistent the full gate never fires, and a WAITING game always accepts a join |
| GameServices.GameService.constructor | src/main/java/ch/battleship/battleshipbackend/service/GameService.java:25-27 | the service works on the repository it is given |
| GameServices.GameService.GetByGameCode | src/main/java/ch/battleship/battleshipbackend/service/GameService.java:36-38 | present iff the code is stored, and then the stored game |
| GameServices.GameService.CreateNewGame | src/main/java/ch/battleship/battleshipbackend/service/GameService.java:29-34 | a fresh WAITING game with a non-blank code, the default configuration and empty lists, stored under its code, and consistent |
| GameServices.GameService.JoinGame | src/main/java/ch/battleship/battleshipbackend/service/GameService.java:40-68 | not found; else the JoinCheck verdict with nothing changed; else the player and a fresh board of configuration size owned by them are appended, RUNNING on the second join; consistency is preserved |
| GameServices.GameService.FireShot | src/main/java/ch/battleship/battleshipbackend/service/GameService.java:70-104 | not found; else the FireCheck verdict with nothing changed; else the shot Game.fireShot resolves is returned and logged; consistency is preserved |
| GameServices.GameService.GetBoardState | src/main/java/ch/battleship/battleshipbackend/service/GameService.java:106-133 | not found; otherwise only board not in game can fail, exactly when no board has the id, and Success exactly when one has; then the first board with the id, its placements and exactly its shots in log order |
| Scenarios.PlacementScenario | src/test/java/ch/battleship/battleshipbackend/application/service/BoardTest.java:19-81 | a destroyer fits at (3,3) both ways; a battleship past the right or bottom edge does not; a destroyer crossing a cruiser does not |
| Scenarios.OverlapScenario | src/test/java/ch/battleship/battleshipbackend/application/service/BoardTest.java:64-81 | after a cruiser is placed at (2,2) horizontally, a destroyer from (3,1) vertically cannot be placed, since both cover (3,2) |
| Scenarios.ShootingOutcomes | src/main/java/ch/battleship/battleshipbackend/domain/Game.java:62-104 | against a destroyer at (3,3)-(4,3), on logs that grow by one shot: HIT, SUNK, ALREADY_SHOT, MISS in turn |
| Scenarios.ShootingScenario | src/main/java/ch/battleship/battleshipbackend/domain/Game.java:62-104 | the same four shots through Game.fireShot on one game, each logged |
| Scenarios.ShootingGame | src/test/java/ch/battleship/battleshipbackend/application/service/GameShootingTest.java:21-44 | the fixture: attacker and defender in a fresh game, and the defender's board holding a destroyer at (3,3)-(4,3) |
| Scenarios.ShootingTests | src/test/java/ch/battleship/battleshipbackend/application/service/GameShootingTest.java:54-107 | each on a fresh fixture: (0,0) is a MISS with one logged shot; (3,3) is a HIT with one; (0,0) twice is MISS, then ALREADY_SHOT, with two |
| Scenarios.ScenarioCode | src/main/java/ch/battleship/battleshipbackend/service/GameService.java:30 | a sample code with the text shape of a random UUID |
| Scenarios.JoinScenario | src/test/java/ch/battleship/battleshipbackend/application/service/GameServiceTest.java:109-163 | first join keeps WAITING, second starts RUNNING with two players and boards, a third through the service is rejected as not WAITING (IllegalState) |
| Scenarios.FullGameScenario | src/test/java/ch/battleship/battleshipbackend/application/service/GameServiceTest.java:165-187 | a hand-built two-player game still WAITING rejects a third join as full (IllegalState), and keeps two players and two boards |
| Scenarios.StartedGame | src/test/java/ch/battleship/battleshipbackend/application/service/GameServiceTest.java:275-288 | a shot between the two joins is rejected as not RUNNING; after them the game is RUNNING with two empty 10 x 10 boards |
| Scenarios.FireGatesScenario | src/test/java/ch/battleship/battleshipbackend/application/service/GameServiceTest.java:263-380 | unknown game, unknown shooter, unknown board, own board and out-of-bounds are each rejected with their own error, and the shot log stays empty |
| Scenarios.LegalShotScenario | src/test/java/ch/battleship/battleshipbackend/application/service/GameServiceTest.java:206-260 | with a destroyer at (3,3) on the defender's board, the attacker's shot at (3,3) through the service is a HIT by the attacker on that board, and the log holds one shot |

## Left out

- Persistence is not modelled: the JPA-generated entity ids, `save`, cascades, `@Transactional` rollback and concurrent requests. The repository is a map, and ids and codes are parameters.
- GameServices.GameService.CreateNewGame: requires an unused, UUID-shaped code. It stands for `UUID.randomUUID()`, whose randomness and uniqueness are outside the model.
- Placements.GetCoveredCoordinates: does not model 32-bit wrap-around of `start.x + i` and `start.y + i`. A wrapped value is negative, so canPlaceShip rejects the candidate either way; only the listed cells of an absurd start would differ.
- Coordinate fields, board sizes and shot coordinates are unbounded integers. The model does not restrict them to Java int.
- Every other integer is unbounded as well. Only `hashCode` is written in 32-bit arithmetic, because there the wrapped value is the result itself; no decision of the core depends on it, since the `HashSet` of canPlaceShip decides membership by `equals`.
- Null references and JPA's protected no-argument constructors do not exist in the model; every entity is fully built.
- Lombok setters the core never calls are left out, for usernames, width, height, owner, placements, the game's code, configuration and lists, and every setter of Shot and ShipPlacement, which are immutable values here. `setStatus` is an assignment in `JoinGame`, and `setType` is `Ship.WithType`. Entity ids have no setter at all; the tests set them by reflection, and the model takes them as parameters.
- Ship identity is left out: a Ship is a value, because nothing in the core compares ships by reference.
- The GameConfiguration constructor is private in the source, so `defaultConfig` is its only producer. In the model the datatype is public and `Games.Game.constructor` accepts any configuration; `GameServices.Consistent` requires the default one, and every game the service creates has it. The fleet text is stored and never parsed, as in the source.
- GameServices.GameService.GetBoardState: returns the domain placements and shots; the conversion to `ShipPlacementDto`, `ShotDto` and `BoardStateDto` is not part of this model.
- The web layer is not part of this model: the controller, the DTOs and the mapping of exceptions to HTTP status codes.
- `IsBlank` covers only the ASCII characters of Java's whitespace test, which is all a UUID text can contain.
