/**
 * The in-process delivery registries of the websocket package: the general
 * hub that reaches a player's lobby connection by player id, the game rooms
 * that fan a message out to their connections, and the hub that caches rooms
 * once the store knows them.
 *
 * A connection's `Send` channel is a queue of messages. The lobby connection's
 * channel accepts a message without blocking only while it holds fewer than
 * `capacity` messages; a room connection's blocking send always succeeds in
 * the end, so there it is an append.
 */
module Delivery {
  import opened Wrappers
  import opened Store
  import GameService

  /** A non-blocking send: the queue takes the message only while it has room for it. */
  function Offered(queue: seq<string>, capacity: nat, message: string): (r: seq<string>)
    ensures |queue| < capacity ==> r == queue + [message]
    ensures |queue| >= capacity ==> r == queue
    ensures |queue| <= capacity ==> |r| <= capacity
  {
    if |queue| < capacity then queue + [message] else queue
  }

  // ---------------------------------------------------------------------------
  // General hub: one lobby connection per player id
  // ---------------------------------------------------------------------------

  /** A player's lobby connection: its id and the messages waiting in its send channel. */
  class GeneralClient {
    const id: string
    const capacity: nat
    var pending: seq<string>

    constructor (id: string, capacity: nat)
      ensures this.id == id && this.capacity == capacity && pending == []
    {
      this.id := id;
      this.capacity := capacity;
      pending := [];
    }

    /** `select { case Send <- message: ... default: ... }`. */
    method Offer(message: string) returns (accepted: bool)
      modifies this
      ensures accepted == (|old(pending)| < capacity)
      ensures pending == Offered(old(pending), capacity, message)
    {
      accepted := |pending| < capacity;
      pending := Offered(pending, capacity, message);
    }
  }

  class GeneralHub {
    var clients: map<string, GeneralClient>

    constructor ()
      ensures clients == map[]
    {
      clients := map[];
    }

    /** Every connection is registered under its own id, so different ids reach different connections. */
    ghost predicate Valid()
      reads this, clients.Values
    {
      forall id :: id in clients ==> clients[id].id == id
    }

    /** The connections the hub can send to. */
    ghost function Connections(): set<GeneralClient>
      reads this
    {
      set id | id in clients :: clients[id]
    }

    /** Registers the connection under its id, replacing any earlier connection with that id. */
    method AddClient(c: GeneralClient)
      requires Valid()
      modifies this
      ensures clients == old(clients)[c.id := c]
      ensures Valid()
    {
      clients := clients[c.id := c];
    }

    /** Forgets whatever connection is registered under `c`'s id, even a newer one than `c`. */
    method RemoveClient(c: GeneralClient)
      requires Valid()
      modifies this
      ensures clients == old(clients) - {c.id}
      ensures Valid()
    {
      clients := clients - {c.id};
    }

    /**
     * Offers the message to the player's connection without blocking: true
     * exactly when a connection is registered and took the message. No other
     * connection and not the registry changes.
     */
    method SendToClient(playerId: string, message: string) returns (sent: bool)
      requires Valid()
      modifies Connections()
      ensures clients == old(clients) && Valid()
      ensures sent == (playerId in clients && |old(clients[playerId].pending)| < clients[playerId].capacity)
      ensures forall id :: id in clients ==>
        clients[id].pending == if id == playerId then Offered(old(clients[id].pending), clients[id].capacity, message)
                               else old(clients[id].pending)
    {
      if playerId !in clients {
        return false;
      }
      var client := clients[playerId];
      sent := client.Offer(message);
    }
  }

  // ---------------------------------------------------------------------------
  // Game rooms
  // ---------------------------------------------------------------------------

  /** A connection to a game room: its player id, the room it joined, and its send channel. */
  class Client {
    const id: string
    var room: Option<string>
    var sent: seq<string>

    constructor (id: string)
      ensures this.id == id && room == None && sent == []
    {
      this.id := id;
      room := None;
      sent := [];
    }
  }

  class Room {
    const id: string
    var clients: map<string, Client>

    /** A room with the given id and no connections. */
    constructor (id: string)
      ensures this.id == id && clients == map[]
    {
      this.id := id;
      clients := map[];
    }

    /** Every connection is registered under its own player id. */
    ghost predicate Valid()
      reads this, clients.Values
    {
      forall id :: id in clients ==> clients[id].id == id
    }

    ghost function Connections(): set<Client>
      reads this
    {
      set id | id in clients :: clients[id]
    }

    /** Registers the connection under its id and points it back at this room. */
    method AddClient(c: Client)
      requires Valid()
      modifies this, c
      ensures clients == old(clients)[c.id := c]
      ensures c.room == Some(id) && c.sent == old(c.sent)
      ensures Valid()
    {
      clients := clients[c.id := c];
      c.room := Some(id);
    }

    /** Sends the message to every connection of the room except the sender's. */
    method Broadcast(senderId: string, message: string)
      requires Valid()
      modifies Connections()
      ensures clients == old(clients) && Valid()
      ensures forall id :: id in clients ==>
        clients[id].sent == old(clients[id].sent) + (if id == senderId then [] else [message])
      ensures senderId == "" && "" !in clients ==>
        forall id :: id in clients ==> clients[id].sent == old(clients[id].sent) + [message]
    {
      var todo := clients.Keys;
      while todo != {}
        invariant clients == old(clients) && todo <= clients.Keys
        invariant forall id :: id in todo ==> clients[id].sent == old(clients[id].sent)
        invariant forall id :: id in clients && id !in todo ==>
          clients[id].sent == old(clients[id].sent) + (if id == senderId then [] else [message])
        decreases todo
      {
        var id :| id in todo;
        if id != senderId {
          var client := clients[id];
          client.sent := client.sent + [message];
        }
        todo := todo - {id};
      }
    }
  }

  // ---------------------------------------------------------------------------
  // Room hub: rooms cached once the store knows them
  // ---------------------------------------------------------------------------

  class Hub {
    var rooms: map<string, Room>
    const store: Store

    constructor (store: Store)
      ensures rooms == map[] && this.store == store && Valid()
    {
      rooms := map[];
      this.store := store;
    }

    /** Every cached room is cached under its own id. */
    ghost predicate Valid()
      reads this, rooms.Values
    {
      forall id :: id in rooms ==> rooms[id].id == id
    }

    /**
     * The room with this id: the cached one if any; otherwise, when the store
     * holds a non-empty member set for it (SMEMBERS fails when `fail` is set),
     * a fresh empty room that is cached from then on.
     */
    method GetRoom(roomId: string, fail: bool) returns (room: Room?, found: bool)
      requires Valid()
      modifies this
      ensures Valid()
      ensures found <==> room != null
      ensures found ==> room.id == roomId
      ensures roomId in old(rooms) ==> room == old(rooms)[roomId] && rooms == old(rooms)
      ensures roomId !in old(rooms) ==>
        var members := store.SMembers(GameService.RoomKey(roomId), fail);
        if members.Err? || |members.value| == 0 then
          room == null && rooms == old(rooms)
        else
          room != null && fresh(room) && room.id == roomId && room.clients == map[]
          && rooms == old(rooms)[roomId := room]
      ensures forall id :: id in old(rooms) ==> id in rooms && rooms[id] == old(rooms)[id]
    {
      if roomId in rooms {
        return rooms[roomId], true;
      }
      var members := store.SMembers(GameService.RoomKey(roomId), fail);
      if members.Err? || |members.value| == 0 {
        return null, false;
      }
      room := new Room(roomId);
      rooms := rooms[roomId := room];
      found := true;
    }
  }
}
