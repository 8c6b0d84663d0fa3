/**
 * The game service of internal/game/service.go over the shared store:
 * placing ships, starting a game, and playing one attack.
 *
 * Store keys of a room R: "room:R" (the set of its players), "room:R:game"
 * (the game state), "room:R:board:P" (P's board) and "room:R:attacks:P" (the
 * cells P has attacked).
 */
module GameService {
  import opened Wrappers
  import opened GameModel
  import opened Placement
  import opened Store

  function RoomKey(roomId: string): string { "room:" + roomId }
  function RoomPrefix(roomId: string): string { "room:" + roomId + ":" }
  function GameKey(roomId: string): string { RoomPrefix(roomId) + "game" }
  function BoardKey(roomId: string, playerId: string): string { RoomPrefix(roomId) + "board:" + playerId }
  function AttackKey(roomId: string, playerId: string): string { RoomPrefix(roomId) + "attacks:" + playerId }

  /** The keys of one room are all different, and all but the member set share the room prefix. */
  lemma RoomKeys(roomId: string, p: string, q: string)
    ensures RoomKey(roomId) != GameKey(roomId) && RoomKey(roomId) != BoardKey(roomId, p)
    ensures RoomKey(roomId) != AttackKey(roomId, p)
    ensures GameKey(roomId) != BoardKey(roomId, p) && GameKey(roomId) != AttackKey(roomId, p)
    ensures BoardKey(roomId, p) != AttackKey(roomId, q)
    ensures HasPrefix(GameKey(roomId), RoomPrefix(roomId)) && HasPrefix(AttackKey(roomId, p), RoomPrefix(roomId))
    ensures HasPrefix(BoardKey(roomId, p), RoomPrefix(roomId)) && !HasPrefix(RoomKey(roomId), RoomPrefix(roomId))
  {
    var n := |RoomPrefix(roomId)|;
    assert GameKey(roomId)[n] == 'g';
    assert BoardKey(roomId, p)[n] == 'b';
    assert AttackKey(roomId, q)[n] == 'a' && AttackKey(roomId, p)[n] == 'a';
    assert GameKey(roomId)[..n] == RoomPrefix(roomId);
    assert BoardKey(roomId, p)[..n] == RoomPrefix(roomId);
    assert AttackKey(roomId, p)[..n] == RoomPrefix(roomId);
  }

  /** The payload PlaceShips publishes on "notifications" (JSON, fields not escaped). */
  function ShipsPlacedMessage(roomId: string, playerId: string): string
  {
    "{\"type\":\"ships_placed\",\"roomId\":\"" + roomId + "\",\"player\":\"" + playerId + "\"}"
  }

  /** The member of the room a player plays against: any other member, or "" when there is none. */
  predicate OpponentOf(members: set<string>, player: string, opponent: string)
  {
    if members <= {player} then opponent == "" else opponent in members && opponent != player
  }

  /** In a room of two, the opponent of a member is the other member, and the two are the room. */
  lemma OpponentInPair(members: set<string>, player: string, opponent: string)
    requires |members| == 2 && player in members
    requires OpponentOf(members, player, opponent)
    ensures opponent in members && opponent != player
    ensures members == {player, opponent}
  {
    var rest := members - {player};
    assert members == rest + {player} && rest * {player} == {};
    assert |rest| == 1;
    assert opponent in rest;
    var others := rest - {opponent};
    assert rest == others + {opponent} && others * {opponent} == {};
    assert others == {};
  }

  // ---------------------------------------------------------------------------
  // Sunk ships and hit count
  // ---------------------------------------------------------------------------

  /** Every cell of the ship has been attacked. */
  predicate Sunk(ship: Ship, attacks: set<string>)
  {
    forall c :: c in ship.cells ==> c in attacks
  }

  /** The types of the sunk ships, in board order. */
  function SunkShips(ships: seq<Ship>, attacks: set<string>): seq<string>
  {
    if ships == [] then []
    else
      var last := ships[|ships| - 1];
      SunkShips(ships[..|ships| - 1], attacks) + (if Sunk(last, attacks) then [last.shipType] else [])
  }

  /** A type is reported sunk exactly when some ship of that type has all its cells attacked. */
  lemma {:induction false} SunkShipsMeaning(ships: seq<Ship>, attacks: set<string>)
    ensures forall t :: t in SunkShips(ships, attacks) <==>
      exists i :: 0 <= i < |ships| && ships[i].shipType == t && Sunk(ships[i], attacks)
    ensures |SunkShips(ships, attacks)| <= |ships|
  {
    if ships != [] {
      var init := ships[..|ships| - 1];
      SunkShipsMeaning(init, attacks);
      assert forall i :: 0 <= i < |init| ==> init[i] == ships[i];
    }
  }

  /** The sunk-ship loop of ProcessAttack. */
  method FindSunk(ships: seq<Ship>, attacks: set<string>) returns (sunk: seq<string>)
    ensures sunk == SunkShips(ships, attacks)
  {
    sunk := [];
    for i := 0 to |ships|
      invariant sunk == SunkShips(ships[..i], attacks)
    {
      var ship := ships[i];
      var isSunk := true;
      for j := 0 to |ship.cells|
        invariant isSunk <==> forall k :: 0 <= k < j ==> ship.cells[k] in attacks
      {
        if ship.cells[j] !in attacks {
          isSunk := false;
          break;
        }
      }
      assert isSunk <==> Sunk(ship, attacks);
      assert ships[..i + 1][..i] == ships[..i];
      if isSunk {
        sunk := sunk + [ship.shipType];
      }
    }
    assert ships[..|ships|] == ships;
  }

  /** The number of attacked cells that are occupied on the board. */
  function HitCount(grid: map<string, string>, attacks: set<string>): nat
  {
    |attacks * grid.Keys|
  }

  /** Counting one more attacked cell: moving `a` from the pending to the counted attacks. */
  lemma CountOneMore(attacks: set<string>, pending: set<string>, a: string, cells: set<string>)
    requires a in pending
    ensures |(attacks - (pending - {a})) * cells|
      == |(attacks - pending) * cells| + (if a in cells && a in attacks then 1 else 0)
  {
    var done := attacks - pending;
    if a in cells && a in attacks {
      assert (attacks - (pending - {a})) * cells == (done * cells) + {a};
    } else {
      assert (attacks - (pending - {a})) * cells == done * cells;
    }
  }

  /** The hit-count loop of ProcessAttack. */
  method CountHits(grid: map<string, string>, attacks: set<string>) returns (n: nat)
    ensures n == HitCount(grid, attacks)
  {
    n := 0;
    var pending := attacks;
    while pending != {}
      invariant pending <= attacks
      invariant n == |(attacks - pending) * grid.Keys|
      decreases pending
    {
      var a :| a in pending;
      CountOneMore(attacks, pending, a, grid.Keys);
      if a in grid {
        n := n + 1;
      }
      pending := pending - {a};
    }
    assert attacks - pending == attacks;
  }

  /** On a board of 17 occupied cells, 17 hits means every occupied cell has been attacked. */
  lemma VictoryIffAllCellsHit(grid: map<string, string>, attacks: set<string>)
    requires |grid| == 17
    ensures HitCount(grid, attacks) >= 17 <==> grid.Keys <= attacks
    ensures HitCount(grid, attacks) <= 17
  {
    var hits := attacks * grid.Keys;
    assert |grid.Keys| == 17;
    assert |hits| + |grid.Keys - hits| == |grid.Keys| by {
      assert grid.Keys == hits + (grid.Keys - hits);
    }
    if |hits| >= 17 {
      assert grid.Keys - hits == {};
      assert grid.Keys <= attacks by {
        forall c | c in grid.Keys ensures c in attacks {
          assert c !in grid.Keys - hits;
        }
      }
    }
    if grid.Keys <= attacks {
      assert hits == grid.Keys;
    }
  }

  /** A board whose cells are canonical never holds a coordinate that is not canonical. */
  lemma NonCanonicalMisses(board: Board, coord: string)
    requires forall c :: c in board.grid ==> IsCanonical(c)
    requires !IsCanonical(coord)
    ensures coord !in board.grid
  {
  }

  /**
   * A lower-case attack such as "a1" passes the coordinate check but, being
   * looked up as written, never hits a placed board.
   */
  lemma LowerCaseNeverHits(board: Board, c: char, rest: string)
    requires forall cell :: cell in board.grid ==> IsCanonical(cell)
    requires 'a' <= c <= 'j'
    ensures ParseCoordinate([c] + rest) == ParseCoordinate([Upper(c)] + rest)
    ensures [c] + rest !in board.grid
  {
    LowerCaseParsesAlike(c, rest);
    NonCanonicalMisses(board, [c] + rest);
  }

  // ---------------------------------------------------------------------------
  // Player statistics (counters only)
  // ---------------------------------------------------------------------------

  datatype PlayerStats = PlayerStats(playerId: string, wins: int, losses: int, elo: int)

  /** The row a player starts from: the stored one, or zero wins and losses at Elo 1500. */
  function StatsOrDefault(row: Option<PlayerStats>, playerId: string): (s: PlayerStats)
    ensures row.None? ==> s == PlayerStats(playerId, 0, 0, 1500)
    ensures row.Some? ==> s == row.value
  {
    if row.Some? then row.value else PlayerStats(playerId, 0, 0, 1500)
  }

  /**
   * The rows updatePlayerStats writes: one more win for the winner, one more
   * loss for the loser, each with the Elo rating computed for it.
   */
  function StatsAfterGame(winnerRow: Option<PlayerStats>, loserRow: Option<PlayerStats>,
                          winnerId: string, loserId: string, winnerElo: int, loserElo: int)
    : (rows: (PlayerStats, PlayerStats))
    ensures
      var (w, l) := rows;
      var w0, l0 := StatsOrDefault(winnerRow, winnerId), StatsOrDefault(loserRow, loserId);
      && w.playerId == winnerId && l.playerId == loserId
      && w.wins + w.losses == w0.wins + w0.losses + 1 && w.wins == w0.wins + 1 && w.losses == w0.losses
      && l.wins + l.losses == l0.wins + l0.losses + 1 && l.losses == l0.losses + 1 && l.wins == l0.wins
    ensures winnerRow.None? ==> rows.0.wins == 1 && rows.0.losses == 0
    ensures loserRow.None? ==> rows.1.wins == 0 && rows.1.losses == 1
  {
    var w := StatsOrDefault(winnerRow, winnerId);
    var l := StatsOrDefault(loserRow, loserId);
    (PlayerStats(winnerId, w.wins + 1, w.losses, winnerElo), PlayerStats(loserId, l.wins, l.losses + 1, loserElo))
  }

  /** A finished game: who won and who lost. */
  datatype GameRecord = GameRecord(winner: string, loser: string)

  /** The stored stats row of a player, if any. */
  function RowOf(rows: map<string, PlayerStats>, playerId: string): Option<PlayerStats>
  {
    if playerId in rows then Some(rows[playerId]) else None
  }

  /**
   * The stats table after updatePlayerStats ran for each game in turn; `elo`
   * stands for the Elo computation, which gives the two new ratings.
   */
  function AfterGames(rows: map<string, PlayerStats>, games: seq<GameRecord>,
                      elo: (PlayerStats, PlayerStats) -> (int, int)): map<string, PlayerStats>
  {
    if games == [] then rows
    else
      var before := AfterGames(rows, games[..|games| - 1], elo);
      var g := games[|games| - 1];
      var w0, l0 := StatsOrDefault(RowOf(before, g.winner), g.winner), StatsOrDefault(RowOf(before, g.loser), g.loser);
      var (w, l) := StatsAfterGame(RowOf(before, g.winner), RowOf(before, g.loser), g.winner, g.loser,
                                   elo(w0, l0).0, elo(w0, l0).1);
      before[g.winner := w][g.loser := l]
  }

  /** The number of games in the history the player won. */
  function WinsIn(games: seq<GameRecord>, playerId: string): nat
  {
    if games == [] then 0
    else WinsIn(games[..|games| - 1], playerId) + (if games[|games| - 1].winner == playerId then 1 else 0)
  }

  /** The number of games in the history the player lost. */
  function LossesIn(games: seq<GameRecord>, playerId: string): nat
  {
    if games == [] then 0
    else LossesIn(games[..|games| - 1], playerId) + (if games[|games| - 1].loser == playerId then 1 else 0)
  }

  /**
   * Over any history of games between two different players, a player's wins
   * and losses grow by exactly the games it won and lost; a player without a
   * row starts from zero.
   */
  lemma {:induction false} StatsCountGames(rows: map<string, PlayerStats>, games: seq<GameRecord>,
                                           elo: (PlayerStats, PlayerStats) -> (int, int), playerId: string)
    requires forall i :: 0 <= i < |games| ==> games[i].winner != games[i].loser
    ensures
      var s := StatsOrDefault(RowOf(AfterGames(rows, games, elo), playerId), playerId);
      var s0 := StatsOrDefault(RowOf(rows, playerId), playerId);
      s.wins == s0.wins + WinsIn(games, playerId) && s.losses == s0.losses + LossesIn(games, playerId)
  {
    if games != [] {
      var init := games[..|games| - 1];
      assert forall i :: 0 <= i < |init| ==> init[i] == games[i];
      StatsCountGames(rows, init, elo, playerId);
      var before := AfterGames(rows, init, elo);
      var g := games[|games| - 1];
      var w0, l0 := StatsOrDefault(RowOf(before, g.winner), g.winner), StatsOrDefault(RowOf(before, g.loser), g.loser);
      var (w, l) := StatsAfterGame(RowOf(before, g.winner), RowOf(before, g.loser), g.winner, g.loser,
                                   elo(w0, l0).0, elo(w0, l0).1);
      var after := before[g.winner := w][g.loser := l];
      assert AfterGames(rows, games, elo) == after;
      if playerId == g.loser {
        assert RowOf(after, playerId) == Some(l);
      } else if playerId == g.winner {
        assert RowOf(after, playerId) == Some(w);
      } else {
        assert RowOf(after, playerId) == RowOf(before, playerId);
      }
    }
  }

  // ---------------------------------------------------------------------------
  // The service
  // ---------------------------------------------------------------------------

  datatype InitError = PlayersUnavailable | WrongPlayerCount(count: nat) | GameNotStored

  datatype AttackError =
    | NotInRoom
    | InvalidCoordinate(reason: CoordError)
    | GameStateUnavailable
    | NotYourTurn
    | AttackCheckFailed
    | AlreadyAttacked
    | RoomMembersUnavailable
    | BoardUnavailable
    | RecordFailed
    | AttacksUnavailable
    | TurnNotSaved

  datatype Attack = Attack(coordinate: string, result: string)
  datatype GameOver = GameOver(winner: string, loser: string)
  datatype AttackOutcome = AttackOutcome(attack: Attack, sunk: seq<string>, gameOver: Option<GameOver>)

  /** What the checks of an attack read: the game state, the opponent and the opponent's board. */
  datatype Prepared = Prepared(state: GameState, opponent: string, board: Board)

  /** The outcome of an attack that passed its checks, given the attacked cells after recording it. */
  function OutcomeOf(coord: string, player: string, p: Prepared, attacks: set<string>): AttackOutcome
  {
    var hit := coord in p.board.grid;
    AttackOutcome(
      Attack(coord, if hit then "hit" else "miss"),
      if hit then SunkShips(p.board.ships, attacks) else [],
      if hit && HitCount(p.board.grid, attacks) >= 17 then Some(GameOver(player, p.opponent)) else None)
  }

  /** The keyspace without the keys of a room other than its member set. */
  function WithoutRoom(d: map<string, Entry>, roomId: string): map<string, Entry>
  {
    d - set k | k in d && HasPrefix(k, RoomPrefix(roomId))
  }

  class GameService {
    const store: Store

    constructor (store: Store)
      ensures this.store == store
    {
      this.store := store;
    }

    /**
     * Initializes the game once the room has its two players: the first turn
     * goes to either member. Commands: 1 SMEMBERS room, 2 SET game.
     */
    method InitializeGame(roomId: string, now: int, faults: Faults) returns (r: Result<(), InitError>)
      modifies store
      ensures r.Ok? <==>
        1 !in faults && old(store.HoldsSet(RoomKey(roomId))) && |old(store.Members(RoomKey(roomId)))| == 2
        && 2 !in faults
      ensures r.Err? ==> store.data == old(store.data)
      ensures r.Ok? ==> exists turn :: (turn in old(store.Members(RoomKey(roomId))) &&
        store.data == old(store.data)[GameKey(roomId) := StringEntry(GameJson(GameState(roomId, turn, now)))])
      ensures store.published == old(store.published)
    {
      var players := store.SMembers(RoomKey(roomId), 1 in faults);
      if players.Err? {
        return Err(PlayersUnavailable);
      }
      if |players.value| != 2 {
        return Err(WrongPlayerCount(|players.value|));
      }
      var turn :| turn in players.value;
      var ok := store.Set(GameKey(roomId), GameJson(GameState(roomId, turn, now)), 2 in faults);
      if !ok {
        return Err(GameNotStored);
      }
      return Ok(());
    }

    /**
     * Validates a player's fleet, lays it out and stores the board, then
     * announces it and looks for the opponent's board.
     * Commands: 1 SISMEMBER room, 2 SET board, 3 PUBLISH, 4 SMEMBERS room, 5 EXISTS.
     */
    method PlaceShips(roomId: string, playerId: string, ships: seq<Ship>, faults: Faults)
      returns (r: Result<Board, PlaceError>)
      modifies store
      ensures old(store.SIsMember(RoomKey(roomId), playerId, 1 in faults)) != Ok(true) ==>
        r == Err(NotMember) && store.data == old(store.data) && store.published == old(store.published)
      ensures old(store.SIsMember(RoomKey(roomId), playerId, 1 in faults)) == Ok(true) ==>
        var planned := BoardFor(roomId, playerId, ships);
        if planned.Err? then
          r == planned && store.data == old(store.data) && store.published == old(store.published)
        else if 2 in faults then
          r == Err(BoardNotStored) && store.data == old(store.data) && store.published == old(store.published)
        else
          && store.data == old(store.data)[BoardKey(roomId, playerId) := StringEntry(BoardJson(planned.value))]
          && store.published == old(store.published)
               + (if 3 in faults then [] else [Publication("notifications", ShipsPlacedMessage(roomId, playerId))])
          && (r.Ok? ==> 4 !in faults)
          && (4 !in faults && (5 !in faults || old(store.Members(RoomKey(roomId))) <= {playerId, ""}) ==> r.Ok?)
          && (r.Ok? ==> r == planned)
          && (r.Err? ==> r.error == (if 4 in faults then MembersNotRead else OpponentBoardNotChecked))
    {
      var isMember := store.SIsMember(RoomKey(roomId), playerId, 1 in faults);
      if isMember != Ok(true) {
        return Err(NotMember);
      }
      var built := BuildBoard(roomId, playerId, ships);
      if built.Err? {
        return built;
      }
      r := SaveBoard(roomId, playerId, built.value, faults);
    }

    /**
     * The second half of PlaceShips: stores the board, announces it and looks
     * for the opponent's board, with PlaceShips's command numbers 2 to 5.
     */
    method SaveBoard(roomId: string, playerId: string, board: Board, faults: Faults)
      returns (r: Result<Board, PlaceError>)
      modifies store
      ensures 2 in faults ==>
        r == Err(BoardNotStored) && store.data == old(store.data) && store.published == old(store.published)
      ensures 2 !in faults ==>
        && store.data == old(store.data)[BoardKey(roomId, playerId) := StringEntry(BoardJson(board))]
        && store.published == old(store.published)
             + (if 3 in faults then [] else [Publication("notifications", ShipsPlacedMessage(roomId, playerId))])
        && (r.Ok? ==> 4 !in faults)
        && (r.Ok? ==> old(store.HoldsSet(RoomKey(roomId))))
        && ((4 !in faults && old(store.HoldsSet(RoomKey(roomId)))
             && (5 !in faults || old(store.Members(RoomKey(roomId))) <= {playerId, ""})) ==> r.Ok?)
        && (r.Ok? ==> r == Ok(board))
        && (r.Err? ==> r.error == (if 4 in faults || !old(store.HoldsSet(RoomKey(roomId))) then MembersNotRead
                                   else OpponentBoardNotChecked))
    {
      RoomKeys(roomId, playerId, playerId);
      ghost var members := store.Members(RoomKey(roomId));
      ghost var roomIsSet := store.HoldsSet(RoomKey(roomId));
      var stored := store.Set(BoardKey(roomId, playerId), BoardJson(board), 2 in faults);
      if !stored {
        return Err(BoardNotStored);
      }
      assert store.Members(RoomKey(roomId)) == members && store.HoldsSet(RoomKey(roomId)) == roomIsSet;
      var _ := store.Publish("notifications", ShipsPlacedMessage(roomId, playerId), 3 in faults);
      var players := store.SMembers(RoomKey(roomId), 4 in faults);
      if players.Err? {
        return Err(MembersNotRead);
      }
      var opponentId := "";
      if !(players.value <= {playerId}) {
        opponentId :| opponentId in players.value && opponentId != playerId;
      }
      if opponentId != "" {
        var exists_ := store.Exists(BoardKey(roomId, opponentId), 5 in faults);
        if exists_.Err? {
          return Err(OpponentBoardNotChecked);
        }
        // a stored opponent board is only logged; the game is started by the notification worker
      }
      return Ok(board);
    }

    /** The checks of ProcessAttack, against `opponent` as the other member. */
    function AttackCheck(roomId: string, player: string, coord: string, faults: Faults, opponent: string)
      : (r: Result<Prepared, AttackError>)
      reads store
      ensures store.SIsMember(RoomKey(roomId), player, 1 in faults) != Ok(true) ==> r == Err(NotInRoom)
      ensures store.SIsMember(RoomKey(roomId), player, 1 in faults) == Ok(true) && ParseCoordinate(coord).Err? ==>
        r == Err(InvalidCoordinate(ParseCoordinate(coord).error))
      ensures r.Ok? ==>
        && player in store.Members(RoomKey(roomId))
        && ParseCoordinate(coord).Ok?
        && store.Get(GameKey(roomId), false) == Ok(GameJson(r.value.state)) && r.value.state.turn == player
        && store.HoldsSet(AttackKey(roomId, player)) && coord !in store.Members(AttackKey(roomId, player))
        && store.Get(BoardKey(roomId, opponent), false) == Ok(BoardJson(r.value.board))
        && r.value.opponent == opponent
        && 1 !in faults && 2 !in faults && 3 !in faults && 4 !in faults && 5 !in faults
      ensures r == Err(NotYourTurn) ==>
        exists s :: store.Get(GameKey(roomId), false) == Ok(GameJson(s)) && s.turn != player
      ensures r == Err(AlreadyAttacked) ==> coord in store.Members(AttackKey(roomId, player))
    {
      if store.SIsMember(RoomKey(roomId), player, 1 in faults) != Ok(true) then Err(NotInRoom)
      else if ParseCoordinate(coord).Err? then Err(InvalidCoordinate(ParseCoordinate(coord).error))
      else match store.Get(GameKey(roomId), 2 in faults)
        case Err(_) => Err(GameStateUnavailable)
        case Ok(v) =>
          if !v.GameJson? then Err(GameStateUnavailable)
          else if v.state.turn != player then Err(NotYourTurn)
          else match store.SIsMember(AttackKey(roomId, player), coord, 3 in faults)
            case Err(_) => Err(AttackCheckFailed)
            case Ok(attacked) =>
              if attacked then Err(AlreadyAttacked)
              else if store.SMembers(RoomKey(roomId), 4 in faults).Err? then Err(RoomMembersUnavailable)
              else match store.Get(BoardKey(roomId, opponent), 5 in faults)
                case Err(_) => Err(BoardUnavailable)
                case Ok(b) => if !b.BoardJson? then Err(BoardUnavailable) else Ok(Prepared(v.state, opponent, b.board))
    }

    /** The checking half of ProcessAttack: reads only, picks the opponent. */
    method CheckAttack(roomId: string, player: string, coord: string, faults: Faults)
      returns (opponent: string, r: Result<Prepared, AttackError>)
      ensures r == AttackCheck(roomId, player, coord, faults, opponent)
      ensures r.Ok? || r == Err(BoardUnavailable) ==>
        OpponentOf(store.Members(RoomKey(roomId)), player, opponent)
    {
      opponent := "";
      var isMember := store.SIsMember(RoomKey(roomId), player, 1 in faults);
      if isMember != Ok(true) {
        return opponent, Err(NotInRoom);
      }
      var parsed := ParseCoordinate(coord);
      if parsed.Err? {
        return opponent, Err(InvalidCoordinate(parsed.error));
      }
      var game := store.Get(GameKey(roomId), 2 in faults);
      if game.Err? || !game.value.GameJson? {
        return opponent, Err(GameStateUnavailable);
      }
      var state := game.value.state;
      if state.turn != player {
        return opponent, Err(NotYourTurn);
      }
      var attacked := store.SIsMember(AttackKey(roomId, player), coord, 3 in faults);
      if attacked.Err? {
        return opponent, Err(AttackCheckFailed);
      }
      if attacked.value {
        return opponent, Err(AlreadyAttacked);
      }
      var players := store.SMembers(RoomKey(roomId), 4 in faults);
      if players.Err? {
        return opponent, Err(RoomMembersUnavailable);
      }
      if !(players.value <= {player}) {
        opponent :| opponent in players.value && opponent != player;
      }
      var boardValue := store.Get(BoardKey(roomId, opponent), 5 in faults);
      if boardValue.Err? || !boardValue.value.BoardJson? {
        return opponent, Err(BoardUnavailable);
      }
      return opponent, Ok(Prepared(state, opponent, boardValue.value.board));
    }

    /** Deletes the given keys, one command each; a failing DEL changes nothing. */
    method DeleteKeys(keys: set<string>, fail: bool)
      modifies store
      ensures store.data == if fail then old(store.data) else old(store.data) - keys
      ensures store.published == old(store.published)
    {
      var pending := keys;
      while pending != {}
        invariant pending <= keys
        invariant store.data == if fail then old(store.data) else old(store.data) - (keys - pending)
        invariant store.published == old(store.published)
        decreases pending
      {
        var key :| key in pending;
        var _ := store.Del(key, fail);
        pending := pending - {key};
      }
    }

    /**
     * Plays one attack. After the checks (AttackCheck) the cell is recorded;
     * a hit keeps the turn and a miss passes it to the opponent; on a hit the
     * sunk ships are listed and 17 hits end the game, which deletes the room's
     * keys instead of saving the turn.
     * Commands: 1 SISMEMBER room, 2 GET game, 3 SISMEMBER attacks, 4 SMEMBERS room,
     * 5 GET board, 6 SADD attack, 7 and 8 SMEMBERS attacks, 9 KEYS, 10 DEL, 11 SET game.
     */
    method ProcessAttack(roomId: string, player: string, coord: string, faults: Faults)
      returns (r: Result<AttackOutcome, AttackError>, ghost opponent: string)
      modifies store
      ensures store.published == old(store.published)
      ensures (old(AttackCheck(roomId, player, coord, faults, opponent)).Ok?
           || old(AttackCheck(roomId, player, coord, faults, opponent)) == Err(BoardUnavailable)) ==>
        OpponentOf(old(store.Members(RoomKey(roomId))), player, opponent)
      ensures old(AttackCheck(roomId, player, coord, faults, opponent)).Err? ==>
        r == Err(old(AttackCheck(roomId, player, coord, faults, opponent)).error) && store.data == old(store.data)
      ensures old(AttackCheck(roomId, player, coord, faults, opponent)).Ok? ==>
        var p := old(AttackCheck(roomId, player, coord, faults, opponent)).value;
        var attacks := old(store.Members(AttackKey(roomId, player))) + {coord};
        var recorded := PutSet(old(store.data), AttackKey(roomId, player), attacks);
        var outcome := OutcomeOf(coord, player, p, attacks);
        var hit := coord in p.board.grid;
        var saved := recorded[GameKey(roomId) :=
          StringEntry(GameJson(p.state.(turn := if hit then player else p.opponent)))];
        if 6 in faults then
          r == Err(RecordFailed) && store.data == old(store.data)
        else if hit && (7 in faults || 8 in faults) then
          r == Err(AttacksUnavailable) && store.data == recorded
        else if outcome.gameOver.Some? then
          r == Ok(outcome)
          && store.data == (if 9 in faults || 10 in faults then recorded else WithoutRoom(recorded, roomId))
        else if 11 in faults then
          r == Err(TurnNotSaved) && store.data == recorded
        else
          r == Ok(outcome) && store.data == saved
    {
      var opp, check := CheckAttack(roomId, player, coord, faults);
      opponent := opp;
      if check.Err? {
        return Err(check.error), opponent;
      }
      var p := check.value;
      RoomKeys(roomId, player, opp);
      var attackKey := AttackKey(roomId, player);
      var hit := coord in p.board.grid;
      var nextTurn := if hit then player else opp;
      ghost var attacks := store.Members(attackKey) + {coord};
      var recordedOk := store.SAdd(attackKey, {coord}, 6 in faults);
      if !recordedOk {
        return Err(RecordFailed), opponent;
      }
      assert store.Members(attackKey) == attacks;
      var sunk: seq<string> := [];
      var gameOver: Option<GameOver> := None;
      if hit {
        var read := store.SMembers(attackKey, 7 in faults);
        if read.Err? {
          return Err(AttacksUnavailable), opponent;
        }
        sunk := FindSunk(p.board.ships, read.value);
        var reread := store.SMembers(attackKey, 8 in faults);
        if reread.Err? {
          return Err(AttacksUnavailable), opponent;
        }
        var hits := CountHits(p.board.grid, reread.value);
        if hits >= 17 {
          gameOver := Some(GameOver(player, opp));
          // updatePlayerStats runs here; its SQL is not part of the store (see StatsAfterGame)
          var keys := store.Keys(RoomPrefix(roomId), 9 in faults);
          if keys.Ok? {
            DeleteKeys(keys.value, 10 in faults);
          }
        }
      }
      if gameOver.None? {
        var saved := store.Set(GameKey(roomId), GameJson(p.state.(turn := nextTurn)), 11 in faults);
        if !saved {
          return Err(TurnNotSaved), opponent;
        }
      }
      r := Ok(AttackOutcome(Attack(coord, if hit then "hit" else "miss"), sunk, gameOver));
    }
  }

  /**
   * In a room of two, the turn ProcessAttack saves stays with the attacker on
   * a hit and goes to the other member on a miss, so it is always a member.
   */
  lemma NextTurnInRoom(members: set<string>, player: string, opponent: string, hit: bool)
    requires |members| == 2 && player in members
    requires OpponentOf(members, player, opponent)
    ensures (if hit then player else opponent) in members
    ensures !hit ==> opponent != player && members == {player, opponent}
  {
    OpponentInPair(members, player, opponent);
  }
}
