/**
 * One round of the notification worker: it takes a message published on the
 * `notifications` channel, forwards it to the player it names through the
 * general hub and, for a `ships_placed` message, starts the game once every
 * member of the room has stored a board, announcing `game_start` to the
 * members.
 */
module Relay {
  import opened Wrappers
  import opened GameModel
  import opened Store
  import opened Delivery
  import GameService

  /** The fields the worker decodes from a notification payload. */
  datatype Notification = Notification(kind: string, roomId: string, player: string)

  /** The `game_start` announcement for a room. */
  function GameStartMessage(roomId: string): string
  {
    "{\"type\":\"game_start\",\"roomId\":\"" + roomId + "\"}"
  }

  /** Every member of the room has a board under its board key. */
  predicate BoardsStored(d: map<string, Entry>, roomId: string, members: set<string>)
  {
    forall p :: p in members ==> GameService.BoardKey(roomId, p) in d
  }

  /**
   * Whether a notification starts the game. Store commands of the round: 1
   * SMEMBERS room, 2 EXISTS board (every lookup), then InitializeGame's two
   * commands as 3 and 4. A failing board lookup counts as "not ready"; a room
   * without members passes the board check but InitializeGame then refuses it.
   */
  predicate StartsGame(d: map<string, Entry>, n: Notification, faults: Faults)
  {
    var members := SetAt(d, GameService.RoomKey(n.roomId));
    && n.kind == "ships_placed"
    && 1 !in faults && SetKind(d, GameService.RoomKey(n.roomId))
    && (2 in faults ==> |members| == 0)
    && BoardsStored(d, n.roomId, members)
    && |members| == 2
    && 3 !in faults && 4 !in faults
  }

  /** A game starts only for a room of two members that have both stored their boards. */
  lemma StartNeedsBothBoards(d: map<string, Entry>, n: Notification, faults: Faults)
    requires StartsGame(d, n, faults)
    ensures exists p, q :: (p != q && SetAt(d, GameService.RoomKey(n.roomId)) == {p, q}
      && GameService.BoardKey(n.roomId, p) in d && GameService.BoardKey(n.roomId, q) in d)
  {
    var members := SetAt(d, GameService.RoomKey(n.roomId));
    var p :| p in members;
    assert |members - {p}| == 1;
    var q :| q in members - {p};
    assert members == {p, q} by {
      assert |members - {p, q}| == 0;
    }
  }

  /**
   * Storing the game state does not change what decides a start, so every
   * later `ships_placed` for the room starts the game again and overwrites
   * the turn.
   */
  lemma StartRepeats(d: map<string, Entry>, n: Notification, faults: Faults, state: GameState)
    requires StartsGame(d, n, faults)
    ensures StartsGame(d[GameService.GameKey(n.roomId) := StringEntry(GameJson(state))], n, faults)
  {
    var e := d[GameService.GameKey(n.roomId) := StringEntry(GameJson(state))];
    var members := SetAt(d, GameService.RoomKey(n.roomId));
    GameService.RoomKeys(n.roomId, "", "");
    assert SetAt(e, GameService.RoomKey(n.roomId)) == members;
    forall p | p in members ensures GameService.BoardKey(n.roomId, p) in e {
      GameService.RoomKeys(n.roomId, p, p);
    }
  }

  /** What a connection's queue holds after the round: the forwarded payload, then `game_start`. */
  function AfterRound(queue: seq<string>, capacity: nat, id: string, payload: string,
                      parsed: Option<Notification>, d: map<string, Entry>, started: bool): (r: seq<string>)
    ensures |queue| <= |r| <= |queue| + 2 && r[..|queue|] == queue
    ensures parsed.None? ==> r == queue
  {
    match parsed
    case None => queue
    case Some(n) =>
      var forwarded := if id == n.player then Offered(queue, capacity, payload) else queue;
      if started && id in SetAt(d, GameService.RoomKey(n.roomId)) then Offered(forwarded, capacity, GameStartMessage(n.roomId))
      else forwarded
  }

  class NotificationWorker {
    const store: Store
    const hub: GeneralHub
    const games: GameService.GameService

    constructor (store: Store, hub: GeneralHub, games: GameService.GameService)
      ensures this.store == store && this.hub == hub && this.games == games
    {
      this.store := store;
      this.hub := hub;
      this.games := games;
    }

    /**
     * One received message: `payload` as published and `parsed`, its decoded
     * fields, or None when it does not decode. Returns whether the game was
     * started; `now` is the clock reading InitializeGame stores.
     */
    method Step(payload: string, parsed: Option<Notification>, now: int, faults: Faults) returns (started: bool)
      requires hub.Valid() && games.store == store
      modifies store, hub.Connections()
      ensures hub.clients == old(hub.clients) && hub.Valid()
      ensures store.published == old(store.published)
      ensures started <==> parsed.Some? && StartsGame(old(store.data), parsed.value, faults)
      ensures !started ==> store.data == old(store.data)
      ensures started ==>
        var roomId := parsed.value.roomId;
        exists turn :: turn in old(store.Members(GameService.RoomKey(roomId))) &&
          store.data == old(store.data)[GameService.GameKey(roomId) := StringEntry(GameJson(GameState(roomId, turn, now)))]
      ensures forall id :: id in hub.clients ==>
        hub.clients[id].pending == AfterRound(old(hub.clients[id].pending), hub.clients[id].capacity, id, payload, parsed,
                                              old(store.data), started)
    {
      if parsed.None? {
        return false;
      }
      var n := parsed.value;
      var _ := hub.SendToClient(n.player, payload);
      if n.kind != "ships_placed" {
        return false;
      }
      var players := store.SMembers(GameService.RoomKey(n.roomId), 1 in faults);
      if players.Err? {
        return false;
      }
      var members := players.value;
      var bothReady := CheckBoards(n.roomId, members, 2 in faults);
      if !bothReady {
        return false;
      }
      var init := games.InitializeGame(n.roomId, now, Shift(faults, 2));
      assert 3 in faults <==> 1 in Shift(faults, 2);
      assert 4 in faults <==> 2 in Shift(faults, 2);
      if init.Err? {
        return false;
      }
      started := true;
      AnnounceStart(n.roomId, members);
    }

    /**
     * The readiness check: looks up the board of each member in turn and stops
     * at the first that is missing or whose lookup fails (`fail`).
     */
    method CheckBoards(roomId: string, members: set<string>, fail: bool) returns (ready: bool)
      ensures ready == ((fail ==> |members| == 0) && BoardsStored(store.data, roomId, members))
    {
      var todo := members;
      while todo != {}
        invariant todo <= members
        invariant fail ==> todo == members
        invariant forall p :: p in members && p !in todo ==> GameService.BoardKey(roomId, p) in store.data
        decreases todo
      {
        var p :| p in todo;
        var stored := store.Exists(GameService.BoardKey(roomId, p), fail);
        if stored.Err? || !stored.value {
          return false;
        }
        todo := todo - {p};
      }
      return true;
    }

    /** Sends `game_start` to each member of the room over the general hub. */
    method AnnounceStart(roomId: string, members: set<string>)
      requires hub.Valid()
      modifies hub.Connections()
      ensures hub.clients == old(hub.clients) && hub.Valid()
      ensures forall id :: id in hub.clients ==>
        hub.clients[id].pending == if id in members
                                   then Offered(old(hub.clients[id].pending), hub.clients[id].capacity, GameStartMessage(roomId))
                                   else old(hub.clients[id].pending)
    {
      var message := GameStartMessage(roomId);
      var todo := members;
      while todo != {}
        invariant todo <= members
        invariant hub.clients == old(hub.clients) && hub.Valid()
        invariant forall id :: id in hub.clients ==>
          hub.clients[id].pending == if id in members && id !in todo
                                     then Offered(old(hub.clients[id].pending), hub.clients[id].capacity, message)
                                     else old(hub.clients[id].pending)
        decreases todo
      {
        var p :| p in todo;
        var _ := hub.SendToClient(p, message);
        todo := todo - {p};
      }
    }
  }
}
