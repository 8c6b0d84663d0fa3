/**
 * The shared Redis store, as far as the game and the matchmaker use it: one
 * keyspace whose keys hold a set, a list (head at index 0) or a string value,
 * plus the log of messages published on pub/sub channels.
 *
 * Redis rules kept here: a set or list that becomes empty disappears, a command
 * applied to a key of the wrong kind fails with WRONGTYPE, LPUSH of several
 * values leaves the last one at the head, LREM with count 0 removes every
 * occurrence. Each command takes a `fail` flag standing for a connection error:
 * a failed command reports an error and changes nothing.
 */
module Store {
  import opened Wrappers
  import opened GameModel

  /** A JSON document stored under a string key, kept in decoded form. */
  datatype Value = BoardJson(board: Board) | GameJson(state: GameState)

  datatype Entry = SetEntry(members: set<string>) | ListEntry(items: seq<string>) | StringEntry(value: Value)

  datatype Publication = Publication(channel: string, payload: string)

  /** Connection error, WRONGTYPE, or go-redis's `redis.Nil` for a missing key or element. */
  datatype StoreError = Unavailable | WrongType | Nil

  /**
   * Which store commands of one operation fail. Each operation numbers the
   * commands in its code from 1 (see its doc comment); a command whose number
   * is in the set fails every time it is issued.
   */
  type Faults = set<nat>

  /** The faults of a callee whose command k is the caller's command k + n. */
  function Shift(faults: Faults, n: nat): (r: Faults)
    ensures forall k: nat :: k in r <==> k + n in faults
  {
    set k | k in faults && k >= n :: k - n
  }

  predicate HasPrefix(s: string, prefix: string)
  {
    |prefix| <= |s| && s[..|prefix|] == prefix
  }

  /** The list under `key` in keyspace `d`, or the empty list. */
  function ListAt(d: map<string, Entry>, key: string): seq<string>
  {
    if key in d && d[key].ListEntry? then d[key].items else []
  }

  /** The set under `key` in keyspace `d`, or the empty set. */
  function SetAt(d: map<string, Entry>, key: string): set<string>
  {
    if key in d && d[key].SetEntry? then d[key].members else {}
  }

  /** In keyspace `d`, `key` is absent or holds a list. */
  predicate ListKind(d: map<string, Entry>, key: string)
  {
    key !in d || d[key].ListEntry?
  }

  /** In keyspace `d`, `key` is absent or holds a set. */
  predicate SetKind(d: map<string, Entry>, key: string)
  {
    key !in d || d[key].SetEntry?
  }

  /** The keyspace after storing set `s` under `key`; an empty set removes the key. */
  function PutSet(d: map<string, Entry>, key: string, s: set<string>): (r: map<string, Entry>)
    ensures forall k :: SetAt(r, k) == if k == key then s else SetAt(d, k)
    ensures forall k :: ListAt(r, k) == if k == key then [] else ListAt(d, k)
    ensures forall k :: SetKind(r, k) == (k == key || SetKind(d, k))
    ensures forall k :: ListKind(r, k) == if k == key then |s| == 0 else ListKind(d, k)
  {
    if |s| == 0 then d - {key} else d[key := SetEntry(s)]
  }

  /** The keyspace after storing list `items` under `key`; an empty list removes the key. */
  function PutList(d: map<string, Entry>, key: string, items: seq<string>): (r: map<string, Entry>)
    ensures forall k :: ListAt(r, k) == if k == key then items else ListAt(d, k)
    ensures forall k :: SetAt(r, k) == if k == key then {} else SetAt(d, k)
    ensures forall k :: ListKind(r, k) == (k == key || ListKind(d, k))
    ensures forall k :: SetKind(r, k) == if k == key then |items| == 0 else SetKind(d, k)
  {
    if |items| == 0 then d - {key} else d[key := ListEntry(items)]
  }

  /** A second write of a list under the same key overrides the first. */
  lemma PutListTwice(d: map<string, Entry>, key: string, first: seq<string>, second: seq<string>)
    ensures PutList(PutList(d, key, first), key, second) == PutList(d, key, second)
  {
    var once := PutList(d, key, first);
    assert forall k :: k in PutList(once, key, second) <==> k in PutList(d, key, second);
  }

  /** Writing back the list a key already holds leaves the keyspace as it was. */
  lemma PutListSame(d: map<string, Entry>, key: string)
    requires |ListAt(d, key)| > 0
    ensures PutList(d, key, ListAt(d, key)) == d
  {
    assert forall k :: k in PutList(d, key, ListAt(d, key)) <==> k in d;
  }

  /** `LREM key 0 v`: the list without any occurrence of `v`, other elements in order. */
  function RemoveAll(items: seq<string>, v: string): (r: seq<string>)
    ensures |r| <= |items|
  {
    if items == [] then []
    else (if items[0] == v then [] else [items[0]]) + RemoveAll(items[1..], v)
  }

  /** Each value other than `v` occurs in `LREM key 0 v`'s result as often as in the list. */
  lemma {:induction false} RemoveAllCounts(items: seq<string>, v: string)
    ensures forall x :: multiset(RemoveAll(items, v))[x] == if x == v then 0 else multiset(items)[x]
  {
    if items != [] {
      RemoveAllCounts(items[1..], v);
      assert items == [items[0]] + items[1..];
      var head := if items[0] == v then [] else [items[0]];
      assert RemoveAll(items, v) == head + RemoveAll(items[1..], v);
    }
  }

  /** LREM with count 0 keeps exactly the elements other than `v`, each as often as before. */
  lemma RemoveAllMeaning(items: seq<string>, v: string)
    ensures multiset(RemoveAll(items, v)) == multiset(items)[v := 0]
    ensures forall x :: x in RemoveAll(items, v) <==> x in items && x != v
  {
    RemoveAllCounts(items, v);
    assert multiset(RemoveAll(items, v)) == multiset(items)[v := 0];
    forall x ensures x in RemoveAll(items, v) <==> x in items && x != v {
      assert x in RemoveAll(items, v) <==> multiset(RemoveAll(items, v))[x] > 0;
      assert x in items <==> multiset(items)[x] > 0;
    }
  }

  /** The values of a multi-value LPUSH, in the order they end up at the head. */
  function Reversed(vs: seq<string>): (r: seq<string>)
    ensures |r| == |vs| && multiset(r) == multiset(vs)
  {
    if vs == [] then [] else
      assert vs == [vs[0]] + vs[1..];
      Reversed(vs[1..]) + [vs[0]]
  }

  lemma ReversedOne(x: string)
    ensures Reversed([x]) == [x]
  {
    assert Reversed([x]) == Reversed([x][1..]) + [x];
  }

  lemma ReversedTwo(x: string, y: string)
    ensures Reversed([x, y]) == [y, x]
  {
    assert Reversed([x, y]) == Reversed([x, y][1..]) + [x];
    ReversedOne(y);
  }

  class Store {
    var data: map<string, Entry>
    var published: seq<Publication>

    constructor ()
      ensures data == map[] && published == []
    {
      data := map[];
      published := [];
    }

    /** The key is absent or holds a set. */
    predicate HoldsSet(key: string)
      reads this
    {
      SetKind(data, key)
    }

    /** The key is absent or holds a list. */
    predicate HoldsList(key: string)
      reads this
    {
      ListKind(data, key)
    }

    /** The members of the set under `key`, or none. */
    function Members(key: string): set<string>
      reads this
    {
      SetAt(data, key)
    }

    /** The list under `key`, or the empty list. */
    function Items(key: string): seq<string>
      reads this
    {
      ListAt(data, key)
    }

    function SIsMember(key: string, m: string, fail: bool): Result<bool, StoreError>
      reads this
    {
      if fail then Err(Unavailable)
      else if !HoldsSet(key) then Err(WrongType)
      else Ok(m in Members(key))
    }

    function SMembers(key: string, fail: bool): Result<set<string>, StoreError>
      reads this
    {
      if fail then Err(Unavailable)
      else if !HoldsSet(key) then Err(WrongType)
      else Ok(Members(key))
    }

    function LLen(key: string, fail: bool): Result<nat, StoreError>
      reads this
    {
      if fail then Err(Unavailable)
      else if !HoldsList(key) then Err(WrongType)
      else Ok(|Items(key)|)
    }

    function LIndex(key: string, i: nat, fail: bool): Result<string, StoreError>
      reads this
    {
      if fail then Err(Unavailable)
      else if !HoldsList(key) then Err(WrongType)
      else if i < |Items(key)| then Ok(Items(key)[i])
      else Err(Nil)
    }

    function Get(key: string, fail: bool): Result<Value, StoreError>
      reads this
    {
      if fail then Err(Unavailable)
      else if key !in data then Err(Nil)
      else if !data[key].StringEntry? then Err(WrongType)
      else Ok(data[key].value)
    }

    function Exists(key: string, fail: bool): Result<bool, StoreError>
      reads this
    {
      if fail then Err(Unavailable) else Ok(key in data)
    }

    /** `KEYS prefix*`. */
    function Keys(prefix: string, fail: bool): Result<set<string>, StoreError>
      reads this
    {
      if fail then Err(Unavailable) else Ok(set k | k in data && HasPrefix(k, prefix))
    }

    method SAdd(key: string, ms: set<string>, fail: bool) returns (ok: bool)
      modifies this
      ensures ok == (!fail && old(HoldsSet(key)))
      ensures data == if ok then PutSet(old(data), key, old(Members(key)) + ms) else old(data)
      ensures published == old(published)
    {
      ok := !fail && HoldsSet(key);
      if ok {
        data := PutSet(data, key, Members(key) + ms);
      }
    }

    method SRem(key: string, m: string, fail: bool) returns (ok: bool)
      modifies this
      ensures ok == (!fail && old(HoldsSet(key)))
      ensures data == if ok then PutSet(old(data), key, old(Members(key)) - {m}) else old(data)
      ensures published == old(published)
    {
      ok := !fail && HoldsSet(key);
      if ok {
        data := PutSet(data, key, Members(key) - {m});
      }
    }

    /** `LPUSH key vs...`: each value in turn goes to the head. */
    method LPush(key: string, vs: seq<string>, fail: bool) returns (ok: bool)
      modifies this
      ensures ok == (!fail && old(HoldsList(key)))
      ensures data == if ok then PutList(old(data), key, Reversed(vs) + old(Items(key))) else old(data)
      ensures published == old(published)
    {
      ok := !fail && HoldsList(key);
      if ok {
        data := PutList(data, key, Reversed(vs) + Items(key));
      }
    }

    /** `LREM key 0 v`. */
    method LRem(key: string, v: string, fail: bool) returns (ok: bool)
      modifies this
      ensures ok == (!fail && old(HoldsList(key)))
      ensures data == if ok then PutList(old(data), key, RemoveAll(old(Items(key)), v)) else old(data)
      ensures published == old(published)
    {
      ok := !fail && HoldsList(key);
      if ok {
        data := PutList(data, key, RemoveAll(Items(key), v));
      }
    }

    /** `RPOP key`: removes and returns the last element. */
    method RPop(key: string, fail: bool) returns (r: Result<string, StoreError>)
      modifies this
      ensures old(LLen(key, fail)).Err? ==> r == Err(old(LLen(key, fail)).error) && data == old(data)
      ensures old(LLen(key, fail)) == Ok(0) ==> r == Err(Nil) && data == old(data)
      ensures r.Ok? <==> old(LLen(key, fail)).Ok? && old(LLen(key, fail)).value > 0
      ensures r.Ok? ==>
        var items := old(Items(key));
        && r.value == items[|items| - 1]
        && data == PutList(old(data), key, items[..|items| - 1])
      ensures published == old(published)
    {
      var len := LLen(key, fail);
      if len.Err? {
        return Err(len.error);
      }
      var items := Items(key);
      if |items| == 0 {
        return Err(Nil);
      }
      r := Ok(items[|items| - 1]);
      data := PutList(data, key, items[..|items| - 1]);
    }

    /** `SET key v` replaces whatever the key held. */
    method Set(key: string, v: Value, fail: bool) returns (ok: bool)
      modifies this
      ensures ok == !fail
      ensures data == if ok then old(data)[key := StringEntry(v)] else old(data)
      ensures published == old(published)
    {
      ok := !fail;
      if ok {
        data := data[key := StringEntry(v)];
      }
    }

    method Del(key: string, fail: bool) returns (ok: bool)
      modifies this
      ensures ok == !fail
      ensures data == if ok then old(data) - {key} else old(data)
      ensures published == old(published)
    {
      ok := !fail;
      if ok {
        data := data - {key};
      }
    }

    method Publish(channel: string, payload: string, fail: bool) returns (ok: bool)
      modifies this
      ensures ok == !fail
      ensures data == old(data)
      ensures published == if ok then old(published) + [Publication(channel, payload)] else old(published)
    {
      ok := !fail;
      if ok {
        published := published + [Publication(channel, payload)];
      }
    }
  }
}
