# Battleship backend: a Dafny model of the game, matchmaking and delivery core

This project models the core of a two-player battleship backend:

- **Coordinates and the fleet catalog.** `A1`-style cell names are parsed and formatted. The catalog has five ship types.
- **Placing a fleet.** The fleet is validated and laid out on a 10x10 grid. The board is stored and a `ships_placed` notification is announced.
- **Attacks.** An attack is checked and recorded as a hit or a miss. The model works out which ships are sunk and whether the game is won, then cleans up the room at game over.
- **The matchmaking queue.** Players join and leave the main queue, confirm into the start queue, are paired into rooms, and can ask for their status.
- **The in-process delivery registries.** The general hub holds one lobby connection per player. Game rooms fan messages out, and the room hub caches rooms.
- **One round of the notification worker.** It relays `ships_placed` and starts the game once both boards are stored.

The Redis server becomes one in-memory keyspace (`Store.Store`):

- Each key holds a set, a list (head at index 0) or a decoded JSON value.
- A log records the pub/sub publications.
- Redis's own rules are kept:
  - an emptied set or list disappears;
  - a command on a key of the wrong kind fails;
  - `LPUSH a b` leaves `b` at the head;
  - `LREM key 0 v` removes every `v`.

Each service operation numbers its store commands in its doc comment and takes a set `faults` of the numbers that fail. A failing command reports an error and changes nothing. With this, every error branch and every compensating rollback of the code is part of the model.

Each module follows one source file:

| module | file | source |
|---|---|---|
| `GameModel` | `game_model.dfy` | `internal/game/model.go` |
| `Placement` | `placement.dfy` | validation and layout of `PlaceShips` |
| `Store` | `store.dfy` | the Redis commands used |
| `GameService` | `game_service.dfy` | `internal/game/service.go` |
| `MatchService` | `match.dfy` | `internal/match/service.go` |
| `Delivery` | `delivery.dfy` | `pkg/websocket/general_hub.go`, `room.go`, `hub.go`, `client.go` |
| `Relay` | `relay.dfy` | `internal/ws/notification.go` |

Code that updates state step by step is modelled as classes with methods:

- the store;
- the services, whose `store` is a field;
- the hubs and rooms, whose maps are fields;
- the clients, whose send queues are fields.

Each method is proved against a specification function where the code has a pure core, for example:

- `Layout` for the grid loop;
- `SunkShips` for the sunk-ship scan;
- `HitCount` for the victory count;
- `MatchOutcome` for pairing.

The properties of that core are then proved as lemmas.

## Model

| member | source | states |
|---|---|---|
| GameModel.CatalogShape | internal/game/model.go:33-39 | The catalog holds exactly five types: Carrier 5, Battleship 4, Cruiser 3, Submarine 3, Destroyer 2. Every size is between 2 and 5 and the sizes total 17. |
| GameModel.ParseCoordinate | internal/game/model.go:42-60 | Strings shorter than 2 fail as too short, and a first letter outside A-J (either case) fails as an invalid row. If `%d` scanning of the rest fails, the column is invalid; a scanned number outside 1..10 fails as column out of bounds. Parsing succeeds exactly when the letter is valid and the scanned number is 1..10. The result is then row = letter - 'A' (after upper-casing) and col = number - 1, both in 0..9. |
| GameModel.ScanDecimal | internal/game/model.go:52 | `%d` scanning of a decimal rendering returns its number (up to the int64 range). |
| GameModel.FormatCoordinate | internal/game/model.go:63-65 | The name is the letter 'A'+row followed by the decimal rendering of col+1. |
| GameModel.FormatThenParse | internal/game/model.go:42-65 | Parsing a formatted cell gives back its row and column (round trip). |
| GameModel.FormatCoordinateInjective | internal/game/model.go:63-65 | Two cells get the same name exactly when they are the same cell. |
| GameModel.LowerCaseParsesAlike | internal/game/model.go:46 | A lower-case row letter parses like its upper-case form, yet the string is not a canonical cell name. |
| Placement.Tally | internal/game/service.go:231-241 | Returns the first ship, in order, with an unknown type or a wrong size. Otherwise it returns a map from each type present to its exact number of ships. |
| Placement.FirstCatalogErrorMeaning | internal/game/service.go:232-239 | No catalog error is reported exactly when every ship has a catalog type and that type's size. |
| Placement.TallyMeansDistinct | internal/game/service.go:242-246 | A count of one for every type present is the same as no type occurring twice. |
| Placement.ValidateFleet | internal/game/service.go:228-246 | The validation loop returns the same verdict as the fleet check. |
| Placement.FleetCheckMeaning | internal/game/service.go:228-246 | A fleet passes exactly when it has 5 ships, each a catalog ship, with no type repeated. |
| Placement.FleetTypeCounts | internal/game/service.go:228-246 | A passing fleet has exactly one ship of each catalog type. |
| Placement.FleetCoversCatalog | internal/game/service.go:228-246 | A passing fleet's types are exactly the catalog's, each occurring once, and its sizes total 17. |
| Placement.Run | internal/game/service.go:265-274 | The j-th cell of a run is the cell j steps right of the start (horizontal) or below it (otherwise), and there are n cells. |
| Placement.DrawRun | internal/game/service.go:265-274 | The append loop builds exactly that run. |
| Placement.RunDistinct | internal/game/service.go:265-274 | A run's cells are pairwise distinct canonical names. |
| Placement.ComputeCells | internal/game/service.go:256-277 | The cell loop of one ship gives the ship's cells or the error the code reports: invalid start, out of bounds, or invalid orientation. |
| Placement.ShipCellsDistinct | internal/game/service.go:255-277 | A drawable ship's cells are distinct and canonical, and there are as many as its size (none for a negative size). |
| Placement.ClaimSucceeds | internal/game/service.go:280-285 | Claiming a ship's cells succeeds exactly when they repeat nothing and none is on the grid yet. |
| Placement.ClaimAdds | internal/game/service.go:280-285 | A successful claim adds exactly the ship's cells, mapped to its type, to the grid. |
| Placement.LayOut | internal/game/service.go:255-287 | The grid-filling loop computes the layout function. |
| Placement.LayoutFromSucceeds | internal/game/service.go:255-287 | Laying out from a disjoint start succeeds exactly when every ship can be drawn and all drawn ships are pairwise disjoint. |
| Placement.LayoutFromResult | internal/game/service.go:255-287 | A successful layout appends the drawn ships and returns the grid of exactly their cells. |
| Placement.LayoutMeaning | internal/game/service.go:249-287 | A layout succeeds exactly when all ships can be drawn without overlap. The grid then holds exactly the ships' cells, each mapped to its ship's type, and its size is the total cell count. |
| Placement.GridOfKeys | internal/game/service.go:284 | A cell is on the grid exactly when some placed ship covers it. |
| Placement.GridOfSize | internal/game/service.go:284 | The grid of disjoint ships has as many cells as the ships have in total. |
| Placement.DrawnCellCount | internal/game/service.go:255-287 | Drawn ships have as many cells as their sizes add up to. |
| Placement.FleetGrid | internal/game/service.go:228-287 | A fleet that passes validation and lays out occupies exactly 17 cells, each canonical and mapped to a catalog type. |
| Placement.BoardFor | internal/game/service.go:227-287 | A board is built exactly when the fleet passes validation and lays out, and validation errors take precedence. The board carries the ids, the drawn ships and a 17-cell grid of canonical names. |
| Placement.BuildBoard | internal/game/service.go:227-287 | The validation and layout loops compute `BoardFor`. |
| Store.RemoveAllMeaning | internal/match/service.go:55 | `LREM key 0 v` keeps every element other than `v`, each as often as before, and removes all `v`. |
| GameService.OpponentInPair | internal/game/service.go:106-112 | In a room of two that holds the player, the opponent found is the other member. |
| GameService.SunkShipsMeaning | internal/game/service.go:148-166 | A type is reported sunk exactly when some ship of that type has every cell attacked. There are at most as many reports as ships. |
| GameService.FindSunk | internal/game/service.go:148-166 | The nested sunk-ship loops compute the sunk list in ship order. |
| GameService.CountHits | internal/game/service.go:176-181 | The hit-count loop counts exactly the attacked cells that are on the board. |
| GameService.VictoryIffAllCellsHit | internal/game/service.go:182 | On a 17-cell board, at least 17 hits means every occupied cell has been attacked, and conversely. The count never exceeds 17. |
| GameService.NonCanonicalMisses | internal/game/service.go:127 | A coordinate that is not a canonical cell name never hits a placed board. |
| GameService.LowerCaseNeverHits | internal/game/service.go:73-127 | A lower-case attack such as `a1` passes the coordinate check but never hits. |
| GameService.StatsOrDefault | internal/game/service.go:350-358 | A player without a stats row starts at 0 wins, 0 losses and Elo 1500. |
| GameService.StatsAfterGame | internal/game/service.go:371-381 | The rows written after a game: the winner has one more win and the same losses, the loser one more loss and the same wins, so each has played one more game. A player without a row ends at 1-0 (winner) or 0-1 (loser). |
| GameService.StatsCountGames | internal/game/service.go:345-381 | Over any history of games between two different players, each player's wins and losses grow by exactly the games they won and lost, whatever the Elo ratings. |
| GameService.NextTurnInRoom | internal/game/service.go:124-132 | The next turn (the attacker on a hit, the opponent on a miss) is always a member of the room. |
| GameService.GameService.InitializeGame | internal/game/service.go:34-63 | Succeeds exactly when the member set is read, has exactly two members, and the write succeeds. It then stores a game state whose turn is one of the two members, and nothing else. On failure the keyspace is unchanged. |
| GameService.GameService.PlaceShips | internal/game/service.go:220-344 | Errors come in the code's order: not a member, then the fleet errors, then the board write. After that, exactly the board key is written and the `ships_placed` notice is published unless publishing fails. The result is the board, or the error of reading the members or checking the opponent's board. |
| GameService.GameService.SaveBoard | internal/game/service.go:289-343 | Storing, announcing and the opponent check: their exact effects, and when each error is returned. |
| GameService.GameService.AttackCheck | internal/game/service.go:66-122 | The attack checks in the code's order: membership, coordinate, game state and turn, earlier attack, members, opponent board. On success it returns what they read. |
| GameService.GameService.CheckAttack | internal/game/service.go:66-122 | The checking code computes `AttackCheck` with the opponent it finds. That opponent is the other room member. |
| GameService.GameService.DeleteKeys | internal/game/service.go:192-200 | Deleting the scanned keys removes exactly those keys. |
| GameService.GameService.ProcessAttack | internal/game/service.go:66-217 | A failed check changes nothing. Otherwise the attack is recorded and the result is hit or miss with the sunk ships. At 17 hits the game is over and the room's prefixed keys are deleted. Otherwise the turn passes to the opponent on a miss and stays on a hit. Each failing command leaves exactly the state the code leaves. |
| MatchService.QueueNamesDistinct | internal/match/service.go:32-35 | The main queue, start queue and queued-player set are three different keys. |
| MatchService.MatchService.AddToQueue | internal/match/service.go:39-59 | An already-queued player is refused and the state is unchanged. Otherwise the player is pushed on the main list and added to the set. If the set write fails, the push is rolled back and the list is restored. Queue consistency (list and set hold the same players, none twice) is preserved. |
| MatchService.MatchService.RemoveFromQueue | internal/match/service.go:61-70 | On success the player is in neither the main list nor the set, every other player is kept, and consistency is preserved. On a failure, exactly the commands before it have taken effect. |
| MatchService.MatchService.StartMatching | internal/match/service.go:72-92 | Only a queued player is moved. On success they leave the main queue, are pushed on the start list, and their id is published. If publishing fails, they are removed again and are then in no queue. If the set removal fails, they are off the main list but still in the queued set, so the main queue is left inconsistent; every other outcome keeps it consistent. |
| MatchService.MatchService.CancelMatching | internal/match/service.go:94-100 | The player leaves the start list and nothing else changes. |
| MatchService.MatchService.MatchPlayers | internal/match/service.go:102-125 | Pairing changes the store exactly as `MatchOutcome` says, including its rollbacks, and publishes nothing. |
| MatchService.MatchPairsOldest | internal/match/service.go:102-124 | A successful pairing needs two waiting players. It pairs the two who pressed start first, removes exactly them from the start list, and adds both to the room set. |
| MatchService.MatchNeedsTwo | internal/match/service.go:103-111 | With fewer than two waiting players, pairing fails and, once the push-back succeeds, leaves the store as it was. |
| MatchService.MatchSucceeds | internal/match/service.go:102-124 | Pairing succeeds exactly when two players wait and the pops and the room write succeed. |
| MatchService.MatchFailureKeepsPlayers | internal/match/service.go:107-120 | A failed pairing whose push-backs succeed leaves the same players in the start list. |
| MatchService.MatchFailureStoresNoRoom | internal/match/service.go:113-120 | A failed pairing leaves every set unchanged. |
| MatchService.MatchKeepsQueue | internal/match/service.go:102-125 | Pairing changes neither the main queue nor the queued set and keeps them consistent. |
| MatchService.MatchmakerPairsOldest | internal/match/service.go:139-154 | A matchmaker round with fewer than two waiting players changes nothing. With two or more and no failure, it yields the pair of the two oldest. |
| MatchService.MatchService.MatchmakerStep | internal/match/service.go:139-154 | A matchmaker round reads the start-list length, pairs only at two or more, and changes the store as `MatchmakerOutcome` says. |
| MatchService.MatchService.GetMatchStatus | internal/match/service.go:158-191 | The status follows the code's precedence: unreadable start list, then waiting (a scan hit), then room scan failure, then matched (the room id is the key minus `room:`, and the room holds the player), then in queue, then not found. Each answer holds exactly under its conditions. |
| MatchService.MatchService.QueueLength | internal/match/service.go:193-195 | The main list's length. With a consistent queue, it equals the number of queued players. |
| Delivery.Offered | pkg/websocket/general_hub.go:45-50 | A non-blocking send appends the message exactly when the queue has room, and otherwise leaves it unchanged, so it never takes a queue past its capacity. |
| Delivery.GeneralClient.Offer | pkg/websocket/general_hub.go:45-50 | Accepts exactly when the queue has room, and the queue becomes the offered queue. |
| Delivery.GeneralHub.AddClient | pkg/websocket/general_hub.go:19-25 | Registers the connection under its id, replacing any earlier one, and keeps every connection under its own id. |
| Delivery.GeneralHub.RemoveClient | pkg/websocket/general_hub.go:27-33 | Removes the entry under the connection's id, even a newer connection's, and keeps all others. |
| Delivery.GeneralHub.SendToClient | pkg/websocket/general_hub.go:35-51 | True exactly when a connection is registered under the id and its queue has room. Only that queue gains the message, and the registry is unchanged. |
| Delivery.Room.constructor | pkg/websocket/room.go:12-17 | A new room has the given id and no connections. |
| Delivery.Room.AddClient | pkg/websocket/room.go:26-30 | Registers the connection under its id and points it back at this room. |
| Delivery.Room.Broadcast | pkg/websocket/room.go:19-25 | Every connection except the sender's gets the message appended, no other queue changes, and the room's map is unchanged. With an empty sender id, every connection gets it. |
| Delivery.Hub.GetRoom | pkg/websocket/hub.go:25-48 | Returns a cached room without reading the store. Otherwise, when the store's member set cannot be read or is empty, it returns none and caches nothing. Otherwise a fresh empty room with that id is cached and returned. Cached rooms are never evicted or replaced. |
| Relay.StartNeedsBothBoards | internal/ws/notification.go:58-87 | A game starts only for a room of exactly two members who have both stored a board. |
| Relay.StartRepeats | internal/ws/notification.go:81-87 | Storing the game state keeps the start condition, so every later `ships_placed` restarts the game and overwrites the turn. |
| Relay.AfterRound | internal/ws/notification.go:46-107 | A round adds at most two messages to a connection's queue, after what it held, and none when the payload does not decode. |
| Relay.NotificationWorker.CheckBoards | internal/ws/notification.go:66-80 | The readiness loop is true exactly when every member's board key exists. A failing lookup counts as not ready, and a room without members is vacuously ready. |
| Relay.NotificationWorker.AnnounceStart | internal/ws/notification.go:101-107 | Each member's lobby connection is offered `game_start`, and no other queue or registry entry changes. |
| Relay.NotificationWorker.Step | internal/ws/notification.go:32-110 | An undecodable payload changes nothing. Every decoded payload is forwarded to its player. The game starts exactly under `StartsGame`, by storing only a game state with one of the members to move, and then every member is offered `game_start`. |

## Left out

- JSON encoding and decoding:
  - Boards and game states are stored in decoded form.
  - The worker's decoded notification is a parameter (`None` for a payload that fails to decode).
  - Message strings are built without JSON escaping of ids.
  - Marshalling errors, which cannot occur for these types, are not modelled.
- Key expiry: the 24-hour TTL on boards and game state and the one-hour `EXPIRE` on room sets are not modelled, so nothing in the model ever expires.
- The Elo update uses floating point and `math.Pow`, and the stats rows live in SQL. Only the win and loss counters and the 1500 default are modelled, in `StatsAfterGame`; the new ratings are parameters. The update is not called from `ProcessAttack`, whose result does not depend on it.
- Concurrency: the mutexes, the goroutines, the read-then-write races on the turn field and the websocket read and write loops are left out. Each operation runs alone.
- Store faults are per command number: a numbered command fails every time it is issued in that call. A lookup inside a loop that fails only on a later pass is not modelled.
- `GameService.GameService.DeleteKeys`: a single failure flag covers the whole batch of `DEL` commands, so deleting some keys but not others is not modelled.
- The room id is a SHA-1 hex digest of the two player ids. It is a function-valued field of the matchmaking service and is otherwise uninterpreted.
- The random first turn is a nondeterministic choice between the two members. The clock is a parameter.
- `KEYS room:*` is modelled as a prefix match, so glob metacharacters inside room ids are not modelled.
- Strings are sequences of characters. Go's byte indexing of a multi-byte first character in `ParseCoordinate` is not modelled.
- Logging is left out. A pub/sub receive error ends the round like a message that does not decode.
- The lobby send channel's readiness is modelled as a capacity: a non-blocking send succeeds exactly while the queue is below it. A receiver waiting on an unbuffered channel is therefore represented by free capacity.
- A room connection's send blocks until it is taken, so `Broadcast` is modelled as an unconditional append. A design that allows a bounded best-effort queue here is not what the code does.
- `pkg/websocket/client.go` declares no room field, yet `Room.AddClient` sets one. The model gives the room connection an optional room id.
- `RunMatchmaker` is modelled one message at a time (`MatchmakerStep`). The send on its result channel becomes the returned `Some(pair)`.
- `MatchService.MatchFailureKeepsPlayers`: it states that the same players remain, not their order. The code pushes the popped players back at the head of the start list, so after a failed pairing the oldest players wait at the newest end.
