/**
 * The matchmaking queues (internal/match/service.go). Three store keys hold
 * them: the list of players who joined ("matchmaking_queue"), the set of the
 * same players ("queued_players"), and the list of players who pressed start
 * ("match_start_queue"). New entries go to the head of a list and pairing pops
 * from the tail, so the tail holds the player who has waited longest. A pair
 * becomes a room: the set "room:{id}" of its two players.
 */
module MatchService {
  import opened Wrappers
  import opened GameModel
  import opened Store
  import GameService

  const MainQueue := "matchmaking_queue"
  const StartQueue := "match_start_queue"
  const QueuedSet := "queued_players"
  const Channel := "matchmaking_channel"
  const RoomKeyPrefix := "room:"

  /** The three queue keys are different keys. */
  lemma QueueNamesDistinct()
    ensures MainQueue != StartQueue && MainQueue != QueuedSet && StartQueue != QueuedSet
  {
    assert MainQueue[5] != StartQueue[5];
    assert MainQueue[0] != QueuedSet[0] && StartQueue[0] != QueuedSet[0];
  }

  /** A room key never names one of the three queue keys. */
  lemma QueueKeysDistinct(roomId: string)
    ensures GameService.RoomKey(roomId) != MainQueue
    ensures GameService.RoomKey(roomId) != StartQueue
    ensures GameService.RoomKey(roomId) != QueuedSet
  {
    assert GameService.RoomKey(roomId)[0] == 'r';
  }

  /** LREM of a value the list does not hold gives the list back. */
  lemma {:induction false} RemoveAbsent(items: seq<string>, v: string)
    requires v !in items
    ensures RemoveAll(items, v) == items
  {
    if items != [] {
      RemoveAbsent(items[1..], v);
      assert items == [items[0]] + items[1..];
    }
  }

  /** Removing every occurrence of `v` leaves no repeats behind if there were none. */
  lemma {:induction false} RemoveKeepsNoRepeats(items: seq<string>, v: string)
    requires NoRepeats(items)
    ensures NoRepeats(RemoveAll(items, v))
  {
    var r := RemoveAll(items, v);
    if items != [] {
      var rest := RemoveAll(items[1..], v);
      RemoveKeepsNoRepeats(items[1..], v);
      RemoveAllMeaning(items[1..], v);
      assert r == (if items[0] == v then [] else [items[0]]) + rest;
      forall a, b | 0 <= a < b < |r|
        ensures r[a] != r[b]
      {
        if items[0] != v && a == 0 {
          assert r[b] == rest[b - 1] && r[b] in rest;
          assert items[0] !in items[1..];
        }
      }
    }
  }

  /** A list holding each player of `members` exactly once. */
  ghost predicate SameQueue(items: seq<string>, members: set<string>)
  {
    NoRepeats(items) && forall p :: p in items <==> p in members
  }

  /** Pushing the last element back at the head keeps the players; a one-player list is restored. */
  lemma RequeueOne(q: seq<string>)
    requires |q| >= 1
    ensures multiset([q[|q| - 1]] + q[..|q| - 1]) == multiset(q)
    ensures |q| == 1 ==> [q[|q| - 1]] + q[..|q| - 1] == q
  {
    assert q == q[..|q| - 1] + [q[|q| - 1]];
  }

  /** Pushing the last two elements back at the head keeps the players. */
  lemma RequeuePair(q: seq<string>)
    requires |q| >= 2
    ensures multiset([q[|q| - 2], q[|q| - 1]] + q[..|q| - 2]) == multiset(q)
  {
    assert q == q[..|q| - 2] + [q[|q| - 2], q[|q| - 1]];
  }

  /** In keyspace `d`, the main queue and the queued set name the same players, each once in the list. */
  ghost predicate ConsistentIn(d: map<string, Entry>)
  {
    && ListKind(d, MainQueue)
    && SetKind(d, QueuedSet)
    && SameQueue(ListAt(d, MainQueue), SetAt(d, QueuedSet))
  }

  datatype MatchError =
    | SetCheckFailed
    | AlreadyInQueue
    | QueuePushFailed
    | QueueSetAddFailed
    | QueueRemoveFailed
    | SetRemoveFailed
    | NotInQueue
    | RemoveFailed(cause: MatchError)
    | StartPushFailed
    | PublishFailed
    | StartRemoveFailed
    | NotEnoughPlayers
    | RoomNotStored
    | StartQueueUnreadable
    | RoomScanFailed

  /** A pair taken off the start queue: `player1` had waited longer. */
  datatype MatchResult = MatchResult(player1: string, player2: string, roomId: string)

  /** The answers of a status query: "waiting", "matched" with the room id, "in_queue", "not_found". */
  datatype MatchStatus = Waiting | Matched(roomId: string) | InQueue | NotFound

  /**
   * What MatchPlayers answers and leaves in keyspace `d`, command by command:
   * pop the tail twice, then record the room; a failed second pop pushes the
   * first player back, a failed room write pushes both back.
   */
  function MatchOutcome(d: map<string, Entry>, faults: Faults, generateRoomId: (string, string) -> string)
    : (Result<MatchResult, MatchError>, map<string, Entry>)
  {
    var q := ListAt(d, StartQueue);
    if 1 in faults || !ListKind(d, StartQueue) || |q| == 0 then (Err(NotEnoughPlayers), d)
    else
      var first := q[|q| - 1];
      var popped1 := PutList(d, StartQueue, q[..|q| - 1]);
      var rest := ListAt(popped1, StartQueue);
      if 2 in faults || |rest| == 0 then
        (Err(NotEnoughPlayers), if 3 in faults then popped1 else PutList(popped1, StartQueue, [first] + rest))
      else
        var second := rest[|rest| - 1];
        var popped2 := PutList(popped1, StartQueue, rest[..|rest| - 1]);
        var key := GameService.RoomKey(generateRoomId(first, second));
        if 4 in faults || !SetKind(popped2, key) then
          (Err(RoomNotStored),
           if 5 in faults then popped2 else PutList(popped2, StartQueue, [second, first] + ListAt(popped2, StartQueue)))
        else
          (Ok(MatchResult(first, second, generateRoomId(first, second))),
           PutSet(popped2, key, SetAt(popped2, key) + {first, second}))
  }

  /**
   * A successful pairing takes the two longest-waiting players off the tail of
   * the start queue, in that order, and records both in their room's set.
   */
  lemma MatchPairsOldest(d: map<string, Entry>, faults: Faults, generateRoomId: (string, string) -> string)
    ensures var (r, after) := MatchOutcome(d, faults, generateRoomId);
      var q := ListAt(d, StartQueue);
      r.Ok? ==>
        && |q| >= 2
        && r.value == MatchResult(q[|q| - 1], q[|q| - 2], generateRoomId(q[|q| - 1], q[|q| - 2]))
        && ListAt(after, StartQueue) == q[..|q| - 2]
        && SetAt(after, GameService.RoomKey(r.value.roomId))
           == SetAt(d, GameService.RoomKey(r.value.roomId)) + {r.value.player1, r.value.player2}
  {
    var q := ListAt(d, StartQueue);
    if |q| >= 2 {
      PopTwice(d);
      QueueKeysDistinct(generateRoomId(q[|q| - 1], q[|q| - 2]));
    }
  }

  /** The two pops of a start queue with at least two players: the last two entries, oldest first. */
  lemma PopTwice(d: map<string, Entry>)
    requires |ListAt(d, StartQueue)| >= 2
    ensures var q := ListAt(d, StartQueue);
      var rest := ListAt(PutList(d, StartQueue, q[..|q| - 1]), StartQueue);
      && rest == q[..|q| - 1]
      && rest[|rest| - 1] == q[|q| - 2]
      && rest[..|rest| - 1] == q[..|q| - 2]
  {
  }

  /**
   * Pairing needs two waiting players: an empty start queue is left alone, and
   * a single player is popped and pushed back, leaving the store as it was.
   */
  lemma MatchNeedsTwo(d: map<string, Entry>, faults: Faults, generateRoomId: (string, string) -> string)
    requires |ListAt(d, StartQueue)| <= 1 && 3 !in faults
    ensures MatchOutcome(d, faults, generateRoomId) == (Err(NotEnoughPlayers), d)
  {
    var q := ListAt(d, StartQueue);
    if |q| == 1 && 1 !in faults && ListKind(d, StartQueue) {
      var popped1 := PutList(d, StartQueue, q[..0]);
      assert [q[0]] + ListAt(popped1, StartQueue) == q;
      PutListTwice(d, StartQueue, q[..0], q);
      PutListSame(d, StartQueue);
    }
  }

  /** Pairing succeeds exactly when two players wait and none of its required commands fails. */
  lemma MatchSucceeds(d: map<string, Entry>, faults: Faults, generateRoomId: (string, string) -> string)
    ensures var q := ListAt(d, StartQueue);
      MatchOutcome(d, faults, generateRoomId).0.Ok? <==>
        && 1 !in faults && 2 !in faults && 4 !in faults
        && ListKind(d, StartQueue) && |q| >= 2
        && SetKind(d, GameService.RoomKey(generateRoomId(q[|q| - 1], q[|q| - 2])))
  {
    var q := ListAt(d, StartQueue);
    if |q| >= 2 {
      PopTwice(d);
      QueueKeysDistinct(generateRoomId(q[|q| - 1], q[|q| - 2]));
    }
  }

  /** A failed pairing loses no one: when the push-backs succeed, the start queue holds the same players as before. */
  lemma MatchFailureKeepsPlayers(d: map<string, Entry>, faults: Faults, generateRoomId: (string, string) -> string)
    requires 3 !in faults && 5 !in faults
    ensures var (r, after) := MatchOutcome(d, faults, generateRoomId);
      r.Err? ==> multiset(ListAt(after, StartQueue)) == multiset(ListAt(d, StartQueue))
  {
    var q := ListAt(d, StartQueue);
    var n := |q|;
    var (r, after) := MatchOutcome(d, faults, generateRoomId);
    if r.Err? && 1 !in faults && ListKind(d, StartQueue) && n >= 1 {
      var popped1 := PutList(d, StartQueue, q[..n - 1]);
      if 2 in faults || n == 1 {
        assert after == PutList(popped1, StartQueue, [q[n - 1]] + q[..n - 1]);
        RequeueOne(q);
      } else {
        PopTwice(d);
        var popped2 := PutList(popped1, StartQueue, q[..n - 2]);
        assert after == PutList(popped2, StartQueue, [q[n - 2], q[n - 1]] + q[..n - 2]);
        RequeuePair(q);
      }
    }
  }

  /** A failed pairing stores no room: every set keeps its members. */
  lemma MatchFailureStoresNoRoom(d: map<string, Entry>, faults: Faults, generateRoomId: (string, string) -> string)
    ensures var (r, after) := MatchOutcome(d, faults, generateRoomId);
      r.Err? ==> forall k :: SetAt(after, k) == SetAt(d, k)
  {
    var q := ListAt(d, StartQueue);
    if |q| >= 2 {
      PopTwice(d);
    }
  }

  /**
   * One round of the matchmaker after a start announcement: it pairs only when
   * LLEN (command 1) reports at least two waiting players; MatchPlayers's
   * commands follow from 2 on.
   */
  function MatchmakerOutcome(d: map<string, Entry>, faults: Faults, generateRoomId: (string, string) -> string)
    : (Option<MatchResult>, map<string, Entry>)
  {
    if 1 in faults || !ListKind(d, StartQueue) || |ListAt(d, StartQueue)| < 2 then (None, d)
    else
      var (m, after) := MatchOutcome(d, Shift(faults, 1), generateRoomId);
      (if m.Ok? then Some(m.value) else None, after)
  }

  /**
   * With two or more players waiting and no failing command, a matchmaker round
   * pairs the two who pressed start first; with fewer it changes nothing.
   */
  lemma MatchmakerPairsOldest(d: map<string, Entry>, faults: Faults, generateRoomId: (string, string) -> string)
    ensures var (r, after) := MatchmakerOutcome(d, faults, generateRoomId);
      var q := ListAt(d, StartQueue);
      && (|q| < 2 ==> r == None && after == d)
      && (faults == {} && |q| >= 2 && ListKind(d, StartQueue)
          && SetKind(d, GameService.RoomKey(generateRoomId(q[|q| - 1], q[|q| - 2]))) ==>
            && r == Some(MatchResult(q[|q| - 1], q[|q| - 2], generateRoomId(q[|q| - 1], q[|q| - 2])))
            && ListAt(after, StartQueue) == q[..|q| - 2])
  {
    var q := ListAt(d, StartQueue);
    if faults == {} && |q| >= 2 && ListKind(d, StartQueue) {
      assert Shift(faults, 1) == {};
      MatchSucceeds(d, Shift(faults, 1), generateRoomId);
      MatchPairsOldest(d, Shift(faults, 1), generateRoomId);
    }
  }

  /** Pairing touches neither the main queue nor the queued set. */
  lemma MatchKeepsQueue(d: map<string, Entry>, faults: Faults, generateRoomId: (string, string) -> string)
    ensures var after := MatchOutcome(d, faults, generateRoomId).1;
      && ListAt(after, MainQueue) == ListAt(d, MainQueue)
      && SetAt(after, QueuedSet) == SetAt(d, QueuedSet)
      && (ConsistentIn(d) ==> ConsistentIn(after))
  {
    QueueNamesDistinct();
    var q := ListAt(d, StartQueue);
    if |q| >= 2 {
      QueueKeysDistinct(generateRoomId(q[|q| - 1], q[|q| - 2]));
    }
  }

  class MatchService {
    const store: Store
    /** The room id of a pair; SHA-1 of "p1:p2" in hex, taken here as given. */
    const generateRoomId: (string, string) -> string

    constructor (store: Store, generateRoomId: (string, string) -> string)
      ensures this.store == store && this.generateRoomId == generateRoomId
    {
      this.store := store;
      this.generateRoomId := generateRoomId;
    }

    /** The main queue and the queued set name the same players, each once in the list. */
    ghost predicate QueueConsistent()
      reads store
    {
      ConsistentIn(store.data)
    }

    /**
     * Joins the queue. Store commands: 1 SISMEMBER queued set, 2 LPUSH main
     * queue, 3 SADD queued set, 4 LREM main queue (the undo of 2 when 3 fails).
     */
    method AddToQueue(player: string, faults: Faults) returns (r: Result<(), MatchError>)
      modifies store
      ensures store.published == old(store.published)
      ensures old(store.SIsMember(QueuedSet, player, 1 in faults)).Err? ==>
        r == Err(SetCheckFailed) && store.data == old(store.data)
      ensures old(store.SIsMember(QueuedSet, player, 1 in faults)) == Ok(true) ==>
        r == Err(AlreadyInQueue) && store.data == old(store.data)
      ensures old(store.SIsMember(QueuedSet, player, 1 in faults)) == Ok(false) ==>
        var pushed := PutList(old(store.data), MainQueue, [player] + old(store.Items(MainQueue)));
        if 2 in faults || !old(store.HoldsList(MainQueue)) then
          r == Err(QueuePushFailed) && store.data == old(store.data)
        else if 3 in faults then
          && r == Err(QueueSetAddFailed)
          && store.data == (if 4 in faults then pushed
                            else PutList(old(store.data), MainQueue, RemoveAll([player] + old(store.Items(MainQueue)), player)))
        else
          r == Ok(()) && store.data == PutSet(pushed, QueuedSet, old(store.Members(QueuedSet)) + {player})
      ensures r.Ok? ==> store.Items(MainQueue) == [player] + old(store.Items(MainQueue))
      ensures r.Ok? ==> store.Members(QueuedSet) == old(store.Members(QueuedSet)) + {player}
      ensures r == Err(QueueSetAddFailed) && 4 !in faults && old(QueueConsistent()) ==>
        store.Items(MainQueue) == old(store.Items(MainQueue))
      ensures old(QueueConsistent()) && (r.Ok? || 4 !in faults) ==> QueueConsistent()
    {
      QueueNamesDistinct();
      var queued := store.SIsMember(QueuedSet, player, 1 in faults);
      if queued.Err? {
        return Err(SetCheckFailed);
      }
      if queued.value {
        return Err(AlreadyInQueue);
      }
      ghost var items := store.Items(MainQueue);
      ghost var consistent := QueueConsistent();
      assert Reversed([player]) == [player] by {
        assert Reversed([player]) == Reversed([player][1..]) + [player];
      }
      var pushed := store.LPush(MainQueue, [player], 2 in faults);
      if !pushed {
        return Err(QueuePushFailed);
      }
      assert store.Items(MainQueue) == [player] + items;
      var added := store.SAdd(QueuedSet, {player}, 3 in faults);
      if !added {
        var undone := store.LRem(MainQueue, player, 4 in faults);
        PutListTwice(old(store.data), MainQueue, [player] + items, RemoveAll([player] + items, player));
        if undone && consistent {
          RemoveAbsent(items, player);
          assert ([player] + items)[1..] == items;
          assert store.Items(MainQueue) == items;
        }
        return Err(QueueSetAddFailed);
      }
      r := Ok(());
      if consistent {
        assert player !in items;
        assert NoRepeats([player] + items) by {
          forall a, b | 0 <= a < b < |[player] + items|
            ensures ([player] + items)[a] != ([player] + items)[b]
          {
            if a == 0 {
              assert ([player] + items)[b] == items[b - 1];
            }
          }
        }
      }
    }

    /**
     * Leaves the queue: every occurrence in the main list, and the set entry.
     * Store commands: 1 LREM main queue, 2 SREM queued set.
     */
    method RemoveFromQueue(player: string, faults: Faults) returns (r: Result<(), MatchError>)
      modifies store
      ensures store.published == old(store.published)
      ensures 1 in faults || !old(store.HoldsList(MainQueue)) ==>
        r == Err(QueueRemoveFailed) && store.data == old(store.data)
      ensures !(1 in faults || !old(store.HoldsList(MainQueue))) ==>
        var removed := PutList(old(store.data), MainQueue, RemoveAll(old(store.Items(MainQueue)), player));
        if 2 in faults || !old(store.HoldsSet(QueuedSet)) then
          r == Err(SetRemoveFailed) && store.data == removed
        else
          r == Ok(()) && store.data == PutSet(removed, QueuedSet, old(store.Members(QueuedSet)) - {player})
      ensures r.Ok? ==> player !in store.Items(MainQueue) && player !in store.Members(QueuedSet)
      ensures old(QueueConsistent()) && r.Ok? ==> QueueConsistent()
    {
      QueueNamesDistinct();
      ghost var items := store.Items(MainQueue);
      var removed := store.LRem(MainQueue, player, 1 in faults);
      if !removed {
        return Err(QueueRemoveFailed);
      }
      assert store.HoldsSet(QueuedSet) == old(store.HoldsSet(QueuedSet));
      assert store.Members(QueuedSet) == old(store.Members(QueuedSet));
      var dropped := store.SRem(QueuedSet, player, 2 in faults);
      if !dropped {
        return Err(SetRemoveFailed);
      }
      r := Ok(());
      assert store.Items(MainQueue) == RemoveAll(items, player);
      assert player !in store.Items(MainQueue) by {
        RemoveAllMeaning(items, player);
      }
      assert old(QueueConsistent()) ==> QueueConsistent() by {
        RemoveAllMeaning(items, player);
        if old(QueueConsistent()) {
          RemoveKeepsNoRepeats(items, player);
        }
      }
    }

    /**
     * Moves a queued player to the start queue and announces it. Store
     * commands: 1 SISMEMBER queued set, 2 and 3 those of RemoveFromQueue,
     * 4 LPUSH start queue, 5 PUBLISH, 6 LREM start queue (the undo of 4 when 5 fails).
     */
    method StartMatching(player: string, faults: Faults) returns (r: Result<(), MatchError>)
      modifies store
      ensures old(store.SIsMember(QueuedSet, player, 1 in faults)) != Ok(true) ==>
        r == Err(NotInQueue) && store.data == old(store.data) && store.published == old(store.published)
      ensures old(store.SIsMember(QueuedSet, player, 1 in faults)) == Ok(true) ==>
        if 2 in faults || !old(store.HoldsList(MainQueue)) then
          r == Err(RemoveFailed(QueueRemoveFailed)) && store.data == old(store.data)
          && store.published == old(store.published)
        else
          var dequeued := PutSet(PutList(old(store.data), MainQueue, RemoveAll(old(store.Items(MainQueue)), player)),
                                 QueuedSet, old(store.Members(QueuedSet)) - {player});
          var started := PutList(dequeued, StartQueue, [player] + old(store.Items(StartQueue)));
          if 3 in faults then
            && r == Err(RemoveFailed(SetRemoveFailed)) && store.published == old(store.published)
            && store.data == PutList(old(store.data), MainQueue, RemoveAll(old(store.Items(MainQueue)), player))
          else if 4 in faults || !old(store.HoldsList(StartQueue)) then
            r == Err(StartPushFailed) && store.data == dequeued && store.published == old(store.published)
          else if 5 in faults then
            && r == Err(PublishFailed)
            && store.published == old(store.published)
            && store.data == (if 6 in faults then started
                              else PutList(dequeued, StartQueue, RemoveAll([player] + old(store.Items(StartQueue)), player)))
          else
            && r == Ok(())
            && store.data == started
            && store.published == old(store.published) + [Publication(Channel, player)]
      ensures r.Ok? ==>
        && player !in store.Items(MainQueue)
        && player !in store.Members(QueuedSet)
        && store.Items(StartQueue) == [player] + old(store.Items(StartQueue))
      ensures r == Err(PublishFailed) && 6 !in faults ==>
        player !in store.Items(MainQueue) && player !in store.Members(QueuedSet) && player !in store.Items(StartQueue)
      ensures old(QueueConsistent()) && r != Err(RemoveFailed(SetRemoveFailed)) ==> QueueConsistent()
      ensures r == Err(RemoveFailed(SetRemoveFailed)) ==>
        player !in store.Items(MainQueue) && player in store.Members(QueuedSet) && !QueueConsistent()
    {
      QueueNamesDistinct();
      var queued := store.SIsMember(QueuedSet, player, 1 in faults);
      if queued != Ok(true) {
        return Err(NotInQueue);
      }
      ghost var start := store.Items(StartQueue);
      ghost var dequeued := PutSet(PutList(store.data, MainQueue, RemoveAll(store.Items(MainQueue), player)),
                                   QueuedSet, store.Members(QueuedSet) - {player});
      assert 1 in Shift(faults, 1) <==> 2 in faults;
      assert 2 in Shift(faults, 1) <==> 3 in faults;
      ghost var waiting := store.Items(MainQueue);
      var removed := RemoveFromQueue(player, Shift(faults, 1));
      if removed.Err? {
        if removed.error == SetRemoveFailed {
          assert store.Items(MainQueue) == RemoveAll(waiting, player);
          RemoveAllMeaning(waiting, player);
          assert store.Members(QueuedSet) == old(store.Members(QueuedSet));
        }
        return Err(RemoveFailed(removed.error));
      }
      assert store.data == dequeued;
      assert store.Items(StartQueue) == start;
      assert Reversed([player]) == [player] by {
        assert Reversed([player]) == Reversed([player][1..]) + [player];
      }
      var pushed := store.LPush(StartQueue, [player], 4 in faults);
      if !pushed {
        return Err(StartPushFailed);
      }
      ghost var started := store.data;
      assert started == PutList(dequeued, StartQueue, [player] + start);
      var sent := store.Publish(Channel, player, 5 in faults);
      if !sent {
        var undone := store.LRem(StartQueue, player, 6 in faults);
        PutListTwice(dequeued, StartQueue, [player] + start, RemoveAll([player] + start, player));
        assert undone ==> player !in store.Items(StartQueue) by {
          RemoveAllMeaning([player] + start, player);
        }
        return Err(PublishFailed);
      }
      r := Ok(());
    }

    /** Withdraws from the start queue. Store command: 1 LREM start queue. */
    method CancelMatching(player: string, faults: Faults) returns (r: Result<(), MatchError>)
      modifies store
      ensures store.published == old(store.published)
      ensures r.Ok? <==> 1 !in faults && old(store.HoldsList(StartQueue))
      ensures r.Err? ==> r == Err(StartRemoveFailed) && store.data == old(store.data)
      ensures r.Ok? ==> store.data == PutList(old(store.data), StartQueue, RemoveAll(old(store.Items(StartQueue)), player))
      ensures r.Ok? ==> player !in store.Items(StartQueue)
      ensures store.Items(MainQueue) == old(store.Items(MainQueue))
      ensures store.Members(QueuedSet) == old(store.Members(QueuedSet))
      ensures old(QueueConsistent()) ==> QueueConsistent()
    {
      QueueNamesDistinct();
      var removed := store.LRem(StartQueue, player, 1 in faults);
      if !removed {
        return Err(StartRemoveFailed);
      }
      r := Ok(());
      assert player !in store.Items(StartQueue) by {
        RemoveAllMeaning(old(store.Items(StartQueue)), player);
      }
    }

    /**
     * Pairs the two players who pressed start earliest and records their room.
     * Store commands: 1 and 2 the two RPOPs of the start queue, 3 LPUSH of the
     * first player back (when 2 finds nothing), 4 SADD room set, 5 LPUSH of both
     * players back (when 4 fails).
     */
    method MatchPlayers(faults: Faults) returns (r: Result<MatchResult, MatchError>)
      modifies store
      ensures (r, store.data) == MatchOutcome(old(store.data), faults, generateRoomId)
      ensures store.published == old(store.published)
    {
      var p1 := store.RPop(StartQueue, 1 in faults);
      if p1.Err? {
        return Err(NotEnoughPlayers);
      }
      var first := p1.value;
      var p2 := store.RPop(StartQueue, 2 in faults);
      if p2.Err? {
        ReversedOne(first);
        var back := store.LPush(StartQueue, [first], 3 in faults);
        return Err(NotEnoughPlayers);
      }
      var second := p2.value;
      var roomId := generateRoomId(first, second);
      var stored := store.SAdd(GameService.RoomKey(roomId), {first, second}, 4 in faults);
      if !stored {
        ReversedTwo(first, second);
        var back := store.LPush(StartQueue, [first, second], 5 in faults);
        return Err(RoomNotStored);
      }
      r := Ok(MatchResult(first, second, roomId));
    }

    /** Some room-prefixed set key of the store holds the player. */
    ghost predicate InSomeRoom(player: string)
      reads store
    {
      exists k :: k in store.data && HasPrefix(k, RoomKeyPrefix) && store.SIsMember(k, player, false) == Ok(true)
    }

    /** The start queue is readable and a scan of it finds the player. */
    predicate FoundWaiting(player: string, faults: Faults)
      reads store
    {
      store.LLen(StartQueue, 1 in faults).Ok? && 2 !in faults && player in store.Items(StartQueue)
    }

    /**
     * Where a player stands. Store commands: 1 LLEN start queue, 2 LINDEX start
     * queue, 3 KEYS room:*, 4 SISMEMBER on a room key, 5 SISMEMBER queued set.
     */
    method GetMatchStatus(player: string, faults: Faults) returns (r: Result<MatchStatus, MatchError>)
      ensures store.LLen(StartQueue, 1 in faults).Err? <==> r == Err(StartQueueUnreadable)
      ensures r == Ok(Waiting) <==> FoundWaiting(player, faults)
      ensures r == Err(RoomScanFailed) <==>
        store.LLen(StartQueue, 1 in faults).Ok? && !FoundWaiting(player, faults) && 3 in faults
      ensures r.Ok? && r.value.Matched? ==>
        && !FoundWaiting(player, faults)
        && 3 !in faults && 4 !in faults
        && GameService.RoomKey(r.value.roomId) in store.data
        && store.SIsMember(GameService.RoomKey(r.value.roomId), player, false) == Ok(true)
      ensures store.LLen(StartQueue, 1 in faults).Ok? && !FoundWaiting(player, faults) && 3 !in faults ==>
        (r.Ok? && r.value.Matched? <==> 4 !in faults && InSomeRoom(player))
      ensures r == Ok(InQueue) <==>
        && store.LLen(StartQueue, 1 in faults).Ok? && !FoundWaiting(player, faults) && 3 !in faults
        && !(4 !in faults && InSomeRoom(player))
        && store.SIsMember(QueuedSet, player, 5 in faults) == Ok(true)
      ensures r == Ok(NotFound) <==>
        && store.LLen(StartQueue, 1 in faults).Ok? && !FoundWaiting(player, faults) && 3 !in faults
        && !(4 !in faults && InSomeRoom(player))
        && store.SIsMember(QueuedSet, player, 5 in faults) != Ok(true)
    {
      var length := store.LLen(StartQueue, 1 in faults);
      if length.Err? {
        return Err(StartQueueUnreadable);
      }
      ghost var items := store.Items(StartQueue);
      for i: nat := 0 to length.value
        invariant 2 in faults || player !in items[..i]
      {
        var entry := store.LIndex(StartQueue, i, 2 in faults);
        if entry.Ok? && entry.value == player {
          return Ok(Waiting);
        }
        assert 2 in faults || items[..i + 1] == items[..i] + [items[i]];
      }
      assert items[..|items|] == items;
      var keys := store.Keys(RoomKeyPrefix, 3 in faults);
      if keys.Err? {
        return Err(RoomScanFailed);
      }
      var pending := keys.value;
      while pending != {}
        invariant pending <= keys.value
        invariant forall k :: k in keys.value && k !in pending ==> store.SIsMember(k, player, 4 in faults) != Ok(true)
        decreases |pending|
      {
        var k :| k in pending;
        var member := store.SIsMember(k, player, 4 in faults);
        if member == Ok(true) {
          assert k == RoomKeyPrefix + k[5..] by {
            assert k[..5] == RoomKeyPrefix;
          }
          return Ok(Matched(k[5..]));
        }
        pending := pending - {k};
      }
      forall k | k in store.data && HasPrefix(k, RoomKeyPrefix)
        ensures 4 in faults || store.SIsMember(k, player, false) != Ok(true)
      {
        assert k in keys.value;
      }
      var queued := store.SIsMember(QueuedSet, player, 5 in faults);
      if queued == Ok(true) {
        return Ok(InQueue);
      }
      return Ok(NotFound);
    }

    /** The length of the main queue; with a consistent queue, the number of queued players. */
    method QueueLength(fail: bool) returns (r: Result<nat, StoreError>)
      ensures r.Ok? <==> !fail && store.HoldsList(MainQueue)
      ensures r.Ok? ==> r.value == |store.Items(MainQueue)|
      ensures r.Ok? && QueueConsistent() ==> r.value == |store.Members(QueuedSet)|
    {
      r := store.LLen(MainQueue, fail);
      if r.Ok? && QueueConsistent() {
        NoRepeatsCard(store.Items(MainQueue));
        assert (set x | x in store.Items(MainQueue)) == store.Members(QueuedSet);
      }
    }

    /**
     * One round of the matchmaker after a start announcement: pair only when at
     * least two players are waiting. Store commands: 1 LLEN start queue, then
     * those of MatchPlayers from 2 on.
     */
    method MatchmakerStep(faults: Faults) returns (r: Option<MatchResult>)
      modifies store
      ensures (r, store.data) == MatchmakerOutcome(old(store.data), faults, generateRoomId)
      ensures store.published == old(store.published)
    {
      var length := store.LLen(StartQueue, 1 in faults);
      if length.Err? || length.value < 2 {
        return None;
      }
      var matched := MatchPlayers(Shift(faults, 1));
      if matched.Err? {
        return None;
      }
      r := Some(matched.value);
    }
  }
}
