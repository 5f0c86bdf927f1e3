/** The response cache (internal/cache/cache.go): an LRU map with expiry, and the guarantee
    an LRU order is for. */
module LruCache {
  import opened Bytes

  type Key = string

  datatype Item = Item(val: bytes, expiresAt: int)

  datatype Lookup = Hit(val: bytes) | NotFound | Expired

  datatype Cache = Cache(capacity: nat, items: map<Key, Item>, order: seq<Key>)

  // ---------------------------------------------------------------- the order

  predicate NoRepeats(s: seq<Key>) {
    forall i, j :: 0 <= i < j < |s| ==> s[i] != s[j]
  }

  function Keys(s: seq<Key>): set<Key> { set k | k in s }

  /** removeOrder: s without the first k. */
  function Remove(s: seq<Key>, k: Key): seq<Key> {
    if s == [] then [] else if s[0] == k then s[1..] else [s[0]] + Remove(s[1..], k)
  }

  /** The keys used more recently than k. */
  function KeysAfter(s: seq<Key>, k: Key): set<Key> {
    if s == [] then {} else if s[0] == k then Keys(s[1..]) else KeysAfter(s[1..], k)
  }

  lemma {:induction false} RemoveFacts(s: seq<Key>, k: Key)
    requires NoRepeats(s)
    ensures NoRepeats(Remove(s, k)) && Keys(Remove(s, k)) == Keys(s) - {k}
    ensures |Remove(s, k)| == |s| - if k in s then 1 else 0
  {
    if s != [] {
      HeadApart(s[0], s[1..]);
      assert s == [s[0]] + s[1..];
      RemoveFacts(s[1..], k);
      if s[0] != k {
        var r := Remove(s[1..], k);
        assert s[0] !in Keys(r);
        HeadApart(s[0], r);
      }
    }
  }

  /** A key in front of others: it is apart from them exactly when nothing repeats. */
  lemma HeadApart(head: Key, rest: seq<Key>)
    requires NoRepeats(rest)
    ensures Keys([head] + rest) == {head} + Keys(rest)
    ensures NoRepeats([head] + rest) <==> head !in Keys(rest)
  {
    var s := [head] + rest;
    assert forall x :: x in s <==> x == head || x in rest;
    if head in rest {
      var i :| 0 <= i < |rest| && rest[i] == head;
      assert s[0] == s[i + 1];
    }
  }

  lemma {:induction false} CountKeys(s: seq<Key>)
    requires NoRepeats(s)
    ensures |Keys(s)| == |s|
  {
    if s != [] {
      CountKeys(s[1..]);
      assert Keys(s) == {s[0]} + Keys(s[1..]);
    }
  }

  /** Moving j to the back, or adding it there, puts at most j behind another key. */
  lemma {:induction false} MoveToBack(s: seq<Key>, j: Key, k: Key)
    requires NoRepeats(s) && j != k && k in s
    ensures KeysAfter(Remove(s, j) + [j], k) <= KeysAfter(s, k) + {j}
  {
    var t := Remove(s, j) + [j];
    if s[0] == j {
      assert t == s[1..] + [j];
      AddToBack(s[1..], j, k);
    } else {
      assert t == [s[0]] + (Remove(s[1..], j) + [j]);
      assert t[1..] == Remove(s[1..], j) + [j];
      if s[0] == k {
        RemoveFacts(s[1..], j);
        assert forall x :: x in Remove(s[1..], j) ==> x in Keys(Remove(s[1..], j));
      } else {
        MoveToBack(s[1..], j, k);
      }
    }
  }

  lemma {:induction false} AddToBack(s: seq<Key>, j: Key, k: Key)
    requires k in s
    ensures KeysAfter(s + [j], k) == KeysAfter(s, k) + {j}
  {
    assert (s + [j])[1..] == s[1..] + [j];
    if s[0] != k {
      AddToBack(s[1..], j, k);
    }
  }

  /** Nothing is behind the key at the back. */
  lemma {:induction false} NothingAfterBack(s: seq<Key>, k: Key)
    requires k !in s
    ensures KeysAfter(s + [k], k) == {}
  {
    if s == [] {
      assert s + [k] == [k];
    } else {
      assert (s + [k])[1..] == s[1..] + [k];
      NothingAfterBack(s[1..], k);
    }
  }

  // ---------------------------------------------------------------- the operations

  /** order lists the keys of items without repeats and stays within capacity. */
  ghost predicate Valid(c: Cache) {
    c.capacity > 0 && NoRepeats(c.order) && Keys(c.order) == c.items.Keys && |c.order| <= c.capacity
  }

  function Touch(c: Cache, k: Key): Cache {
    c.(order := Remove(c.order, k) + [k])
  }

  function Find(c: Cache, k: Key, now: int): Lookup {
    if k !in c.items then NotFound else if now > c.items[k].expiresAt then Expired else Hit(c.items[k].val)
  }

  function AfterGet(c: Cache, k: Key, now: int): Cache {
    match Find(c, k, now)
    case NotFound => c
    case Expired => AfterDelete(c, k)
    case Hit(_) => Touch(c, k)
  }

  function AfterDelete(c: Cache, k: Key): Cache {
    c.(items := c.items - {k}, order := Remove(c.order, k))
  }

  /** A full cache drops exactly its least recently used key to make room for a new one. */
  function MakeRoom(c: Cache): Cache {
    if |c.items| >= c.capacity && c.order != [] then c.(items := c.items - {c.order[0]}, order := c.order[1..]) else c
  }

  function AfterSet(c: Cache, k: Key, item: Item): Cache {
    if k in c.items then Touch(c, k).(items := c.items[k := item])
    else
      var room := MakeRoom(c);
      room.(items := room.items[k := item], order := room.order + [k])
  }

  datatype Op =
    | Get(key: Key, now: int)
    | Set(key: Key, val: bytes, now: int, ttl: int)
    | Delete(key: Key)
    | Close

  function Apply(c: Cache, op: Op): Cache {
    match op
    case Get(k, now) => AfterGet(c, k, now)
    case Set(k, val, now, ttl) => AfterSet(c, k, Item(val, now + ttl))
    case Delete(k) => AfterDelete(c, k)
    case Close => c.(items := map[], order := [])
  }

  function Empty(capacity: nat): Cache { Cache(capacity, map[], []) }

  function Run(capacity: nat, ops: seq<Op>): Cache {
    if ops == [] then Empty(capacity) else Apply(Run(capacity, ops[..|ops| - 1]), ops[|ops| - 1])
  }

  lemma SizeOfItems(c: Cache)
    requires Valid(c)
    ensures |c.items| == |c.order|
  {
    CountKeys(c.order);
    assert |c.items| == |c.items.Keys|;
  }

  lemma TouchFacts(c: Cache, k: Key)
    requires Valid(c) && k in c.items
    ensures Valid(Touch(c, k))
  {
    RemoveFacts(c.order, k);
    assert forall x :: x in c.order <==> x in Keys(c.order);
    assert forall x :: x in Remove(c.order, k) <==> x in Keys(Remove(c.order, k));
  }

  lemma RoomFacts(c: Cache)
    requires Valid(c)
    ensures var room := MakeRoom(c);
            && Valid(room) && |room.order| < c.capacity && room.items.Keys <= c.items.Keys
            && (forall k :: k in room.items ==> room.items[k] == c.items[k])
            && (forall k :: k in c.items && k !in room.items ==> |c.order| == c.capacity && k == c.order[0])
            && (forall k :: k in room.items ==> KeysAfter(room.order, k) == KeysAfter(c.order, k))
  {
    SizeOfItems(c);
    if c.order != [] {
      DropFirst(c.order);
      assert forall k :: k in c.items <==> k in c.order;
    }
  }

  lemma DropFirst(s: seq<Key>)
    requires s != [] && NoRepeats(s)
    ensures NoRepeats(s[1..]) && s[0] !in s[1..]
    ensures Keys(s[1..]) == Keys(s) - {s[0]}
    ensures forall k :: k in Keys(s[1..]) ==> KeysAfter(s[1..], k) == KeysAfter(s, k)
  {
    assert forall x :: x in s[1..] ==> x != s[0];
    assert Keys(s) == {s[0]} + Keys(s[1..]);
  }

  lemma SetKeepsValid(c: Cache, k: Key, item: Item)
    requires Valid(c)
    ensures Valid(AfterSet(c, k, item))
  {
    if k in c.items {
      TouchFacts(c, k);
    } else {
      RoomFacts(c);
      AppendKeepsValid(MakeRoom(c), k, item);
    }
  }

  lemma AppendKeepsValid(c: Cache, k: Key, item: Item)
    requires Valid(c) && |c.order| < c.capacity && k !in c.items
    ensures Valid(Cache(c.capacity, c.items[k := item], c.order + [k]))
  {
    assert k !in Keys(c.order);
    AppendFacts(c.order, k);
  }

  lemma AppendFacts(s: seq<Key>, k: Key)
    requires NoRepeats(s) && k !in s
    ensures NoRepeats(s + [k]) && Keys(s + [k]) == Keys(s) + {k}
  {
  }

  /** One eviction makes room. */
  lemma EvictOnce(c: Cache)
    requires Valid(c) && |c.items| >= c.capacity && c.order != []
    ensures |MakeRoom(c).items| < c.capacity
  {
    RoomFacts(c);
    SizeOfItems(MakeRoom(c));
  }

  lemma ApplyKeepsValid(c: Cache, op: Op)
    requires Valid(c)
    ensures Valid(Apply(c, op))
  {
    match op
    case Get(k, now) =>
      RemoveFacts(c.order, k);
      if k in c.items {
        TouchFacts(c, k);
      }
    case Set(k, val, now, ttl) => SetKeepsValid(c, k, Item(val, now + ttl));
    case Delete(k) => RemoveFacts(c.order, k);
    case Close =>
  }

  lemma {:induction false} RunIsValid(capacity: nat, ops: seq<Op>)
    requires capacity > 0
    ensures Valid(Run(capacity, ops)) && Run(capacity, ops).capacity == capacity
  {
    if ops != [] {
      RunIsValid(capacity, ops[..|ops| - 1]);
      ApplyKeepsValid(Run(capacity, ops[..|ops| - 1]), ops[|ops| - 1]);
    }
  }

  // ---------------------------------------------------------------- what a history promises

  /** The item the last Set of k stored. */
  function LatestSet(ops: seq<Op>, k: Key): Option<Item> {
    if ops == [] then None
    else
      match ops[|ops| - 1]
      case Set(j, val, now, ttl) => if j == k then Some(Item(val, now + ttl)) else LatestSet(ops[..|ops| - 1], k)
      case _ => LatestSet(ops[..|ops| - 1], k)
  }

  /** The other keys touched (set or hit) since k itself was last touched. None when k never
      was, or when it was deleted, closed or looked up in vain since. */
  function TouchedSince(capacity: nat, ops: seq<Op>, k: Key): Option<set<Key>> {
    if ops == [] then None
    else
      var init := ops[..|ops| - 1];
      var since := TouchedSince(capacity, init, k);
      match ops[|ops| - 1]
      case Set(j, _, _, _) => if j == k then Some({}) else if since.Some? then Some(since.value + {j}) else None
      case Get(j, now) =>
        var hit := Find(Run(capacity, init), j, now).Hit?;
        if j == k then (if hit then Some({}) else None)
        else if since.Some? then Some(if hit then since.value + {j} else since.value) else None
      case Delete(j) => if j == k then None else since
      case Close => None
  }

  /** What the cache knows of one key, against what the history says of it. */
  ghost predicate Tracks(c: Cache, since: Option<set<Key>>, latest: Option<Item>, k: Key) {
    && (k in c.items ==> since.Some? && latest == Some(c.items[k]) && KeysAfter(c.order, k) <= since.value)
    && (since.Some? && |since.value| < c.capacity ==> k in c.items)
  }

  lemma SetTracks(c: Cache, since: Option<set<Key>>, latest: Option<Item>, k: Key, j: Key, item: Item)
    requires Valid(c) && j != k && Tracks(c, since, latest, k)
    ensures Tracks(AfterSet(c, j, item), if since.Some? then Some(since.value + {j}) else None, latest, k)
  {
    if since.Some? {
      Grows(since.value, j);
    }
    assert k in c.items ==> k in Keys(c.order);
    if j in c.items {
      if k in c.items {
        MoveToBack(c.order, j, k);
      }
    } else {
      RoomFacts(c);
      var room := MakeRoom(c);
      if k in room.items {
        assert k in Keys(room.order);
        AddToBack(room.order, j, k);
      } else if k in c.items {
        EvictedIsCold(c, since.value, k, j);
      }
    }
  }

  lemma Grows(s: set<Key>, j: Key)
    ensures |s| <= |s + {j}|
  {
    if j in s {
      assert s + {j} == s;
    }
  }

  /** A key is only evicted when at least capacity distinct other keys came after it. */
  lemma EvictedIsCold(c: Cache, since: set<Key>, k: Key, j: Key)
    requires Valid(c) && |c.order| == c.capacity && c.order[0] == k && j !in c.items
    requires KeysAfter(c.order, k) <= since
    ensures |since + {j}| >= c.capacity
  {
    var younger := c.order[1..];
    CountKeys(younger);
    assert j !in Keys(c.order);
    assert |Keys(younger) + {j}| == c.capacity;
    Subset(Keys(younger) + {j}, since + {j});
  }

  lemma {:induction false} Subset(a: set<Key>, b: set<Key>)
    requires a <= b
    ensures |a| <= |b|
  {
    assert b == a + (b - a);
  }

  lemma GetTracks(c: Cache, since: Option<set<Key>>, latest: Option<Item>, k: Key, j: Key, now: int)
    requires Valid(c) && j != k && Tracks(c, since, latest, k)
    ensures var hit := Find(c, j, now).Hit?;
            Tracks(AfterGet(c, j, now), if since.None? then None else Some(if hit then since.value + {j} else since.value), latest, k)
  {
    assert k in c.items ==> k in Keys(c.order);
    assert j in c.items ==> j in Keys(c.order);
    if since.Some? {
      Grows(since.value, j);
    }
    if k in c.items {
      match Find(c, j, now)
      case Hit(_) => MoveToBack(c.order, j, k);
      case Expired => DeleteTracks(c, since, latest, k, j);
      case NotFound =>
    }
  }

  lemma DeleteTracks(c: Cache, since: Option<set<Key>>, latest: Option<Item>, k: Key, j: Key)
    requires Valid(c) && j != k && Tracks(c, since, latest, k)
    ensures Tracks(AfterDelete(c, j), since, latest, k)
  {
    if k in c.items {
      assert k in Keys(c.order);
      RemoveShrinks(c.order, j, k);
    }
  }

  lemma {:induction false} RemoveShrinks(s: seq<Key>, j: Key, k: Key)
    requires NoRepeats(s) && j != k && k in s
    ensures KeysAfter(Remove(s, j), k) <= KeysAfter(s, k)
  {
    if s[0] != j {
      assert Remove(s, j)[1..] == Remove(s[1..], j);
      if s[0] == k {
        RemoveFacts(s[1..], j);
      } else {
        RemoveShrinks(s[1..], j, k);
      }
    }
  }

  lemma OwnTouch(c: Cache, k: Key, item: Item)
    requires Valid(c)
    ensures KeysAfter(AfterSet(c, k, item).order, k) == {}
    ensures k in c.items ==> KeysAfter(Touch(c, k).order, k) == {}
  {
    RemoveFacts(c.order, k);
    RoomFacts(c);
    assert forall s: seq<Key>, x :: x in s <==> x in Keys(s);
    if k in c.items {
      assert k !in Keys(Remove(c.order, k));
      NothingAfterBack(Remove(c.order, k), k);
    } else {
      assert k !in Keys(MakeRoom(c).order);
      NothingAfterBack(MakeRoom(c).order, k);
    }
  }

  /** After any history the cache knows of every key what the history says. */
  lemma {:induction false} RunTracks(capacity: nat, ops: seq<Op>, k: Key)
    requires capacity > 0
    ensures Tracks(Run(capacity, ops), TouchedSince(capacity, ops, k), LatestSet(ops, k), k)
  {
    if ops == [] {
      return;
    }
    var init, op := ops[..|ops| - 1], ops[|ops| - 1];
    var c, since, latest := Run(capacity, init), TouchedSince(capacity, init, k), LatestSet(init, k);
    RunIsValid(capacity, init);
    RunTracks(capacity, init, k);
    match op
    case Set(j, val, now, ttl) =>
      if j == k {
        OwnTouch(c, k, Item(val, now + ttl));
      } else {
        SetTracks(c, since, latest, k, j, Item(val, now + ttl));
      }
    case Get(j, now) =>
      if j == k {
        OwnTouch(c, k, Item([], 0));
      } else {
        GetTracks(c, since, latest, k, j, now);
      }
    case Delete(j) =>
      if j != k {
        DeleteTracks(c, since, latest, k, j);
      }
    case Close =>
  }

  /** The stack-distance guarantee: a key touched before, and since then neither deleted nor
      looked up in vain, with fewer than capacity distinct other keys touched since, is a hit
      on its latest value until that value expires. */
  lemma StackDistance(capacity: nat, ops: seq<Op>, k: Key, now: int)
    requires capacity > 0
    requires TouchedSince(capacity, ops, k).Some? && |TouchedSince(capacity, ops, k).value| < capacity
    ensures LatestSet(ops, k).Some?
    ensures now <= LatestSet(ops, k).value.expiresAt ==>
              Find(Run(capacity, ops), k, now) == Hit(LatestSet(ops, k).value.val)
  {
    RunTracks(capacity, ops, k);
    RunIsValid(capacity, ops);
  }

  /** The other keys touched since k was, look-ups of k that found nothing left aside. None when k
      was never touched, or was deleted or closed away since. */
  function Touched(capacity: nat, ops: seq<Op>, k: Key): Option<set<Key>> {
    if ops == [] then None
    else
      var init := ops[..|ops| - 1];
      var since := Touched(capacity, init, k);
      match ops[|ops| - 1]
      case Set(j, _, _, _) => if j == k then Some({}) else if since.Some? then Some(since.value + {j}) else None
      case Get(j, now) =>
        if !Find(Run(capacity, init), j, now).Hit? then since
        else if j == k then Some({})
        else if since.Some? then Some(since.value + {j}) else None
      case Delete(j) => if j == k then None else since
      case Close => None
  }

  predicate NoneLater(ops: seq<Op>, now: int) {
    forall i :: 0 <= i < |ops| ==> (ops[i].Get? ==> ops[i].now <= now)
  }

  lemma {:induction false} TouchedAgrees(capacity: nat, ops: seq<Op>, k: Key, now: int)
    requires capacity > 0 && NoneLater(ops, now)
    requires LatestSet(ops, k).Some? && now <= LatestSet(ops, k).value.expiresAt
    ensures Touched(capacity, ops, k).Some? ==>
              || TouchedSince(capacity, ops, k) == Touched(capacity, ops, k)
              || |Touched(capacity, ops, k).value| >= capacity
  {
    var init, op := ops[..|ops| - 1], ops[|ops| - 1];
    if !(op.Set? && op.key == k) {
      TouchedAgrees(capacity, init, k, now);
      if op.Get? && op.key == k {
        LooksUpInVain(capacity, init, k, op.now, now);
      } else if Touched(capacity, init, k).Some? && (op.Get? || op.Set?) {
        Grows(Touched(capacity, init, k).value, op.key);
      }
    }
  }

  /** A look-up in vain of a value that has not expired means the key was pushed out. */
  lemma LooksUpInVain(capacity: nat, ops: seq<Op>, k: Key, at: int, now: int)
    requires capacity > 0 && at <= now && LatestSet(ops, k).Some? && now <= LatestSet(ops, k).value.expiresAt
    requires Touched(capacity, ops, k).Some? ==>
               || TouchedSince(capacity, ops, k) == Touched(capacity, ops, k)
               || |Touched(capacity, ops, k).value| >= capacity
    ensures Touched(capacity, ops, k).Some? && |Touched(capacity, ops, k).value| < capacity ==>
              Find(Run(capacity, ops), k, at).Hit?
  {
    if Touched(capacity, ops, k).Some? && |Touched(capacity, ops, k).value| < capacity {
      StackDistance(capacity, ops, k, at);
    }
  }

  /** The guarantee as a caller sees it: a key that was not deleted, has not expired, and had
      fewer than capacity distinct other keys touched since its own last touch is a hit. */
  lemma RecentIsHit(capacity: nat, ops: seq<Op>, k: Key, now: int)
    requires capacity > 0 && NoneLater(ops, now)
    requires Touched(capacity, ops, k).Some? && |Touched(capacity, ops, k).value| < capacity
    requires LatestSet(ops, k).Some? && now <= LatestSet(ops, k).value.expiresAt
    ensures Find(Run(capacity, ops), k, now) == Hit(LatestSet(ops, k).value.val)
  {
    TouchedAgrees(capacity, ops, k, now);
    StackDistance(capacity, ops, k, now);
  }

  /** Every hit, however old, returns the latest value set, and never an expired one. */
  lemma HitIsLatest(capacity: nat, ops: seq<Op>, k: Key, now: int)
    requires capacity > 0 && Find(Run(capacity, ops), k, now).Hit?
    ensures LatestSet(ops, k).Some? && now <= LatestSet(ops, k).value.expiresAt
    ensures Find(Run(capacity, ops), k, now).val == LatestSet(ops, k).value.val
  {
    RunTracks(capacity, ops, k);
  }

  // ---------------------------------------------------------------- the cache itself

  const DEFAULT_CAPACITY: nat := 1000

  class LRUCache {
    const capacity: nat
    var items: map<Key, Item>
    var order: seq<Key>

    function C(): Cache
      reads this
    {
      Cache(capacity, items, order)
    }

    constructor (capacity: int)
      ensures C() == Empty(if capacity <= 0 then DEFAULT_CAPACITY else capacity) && Valid(C())
    {
      this.capacity := if capacity <= 0 then DEFAULT_CAPACITY else capacity;
      items, order := map[], [];
    }

    method Get(key: Key, now: int) returns (r: Lookup)
      requires Valid(C())
      modifies this
      ensures C() == Apply(old(C()), Op.Get(key, now)) && Valid(C())
      ensures r == Find(old(C()), key, now)
    {
      ApplyKeepsValid(C(), Op.Get(key, now));
      if key !in items {
        return NotFound;
      }
      if now > items[key].expiresAt {
        items := items - {key};
        RemoveOrder(key);
        return Expired;
      }
      RemoveOrder(key);
      order := order + [key];
      return Hit(items[key].val);
    }

    /** The eviction loop removes at most one key. */
    method Set(key: Key, val: bytes, now: int, ttl: int)
      requires Valid(C())
      modifies this
      ensures C() == Apply(old(C()), Op.Set(key, val, now, ttl)) && Valid(C())
    {
      ApplyKeepsValid(C(), Op.Set(key, val, now, ttl));
      if key in items {
        items := items[key := Item(val, now + ttl)];
        RemoveOrder(key);
        order := order + [key];
        return;
      }
      Evict();
      items := items[key := Item(val, now + ttl)];
      order := order + [key];
    }

    /** The eviction loop. */
    method Evict()
      requires Valid(C())
      modifies this
      ensures C() == MakeRoom(old(C()))
    {
      while |items| >= capacity && |order| > 0
        invariant C() == old(C()) || (C() == MakeRoom(old(C())) && |items| < capacity)
        decreases |order|
      {
        EvictOnce(C());
        var oldest := order[0];
        items := items - {oldest};
        order := order[1..];
      }
    }

    method Delete(key: Key)
      requires Valid(C())
      modifies this
      ensures C() == Apply(old(C()), Op.Delete(key)) && Valid(C())
    {
      ApplyKeepsValid(C(), Op.Delete(key));
      items := items - {key};
      RemoveOrder(key);
    }

    method Close()
      requires Valid(C())
      modifies this
      ensures C() == Apply(old(C()), Op.Close) && Valid(C())
    {
      items, order := map[], [];
    }

    /** removeOrder: splices the first occurrence out. */
    method RemoveOrder(key: Key)
      modifies `order
      ensures order == Remove(old(order), key)
    {
      for i := 0 to |order|
        invariant order == old(order) && key !in order[..i]
      {
        if order[i] == key {
          RemoveAt(order, i);
          order := order[..i] + order[i + 1..];
          return;
        }
      }
      assert order[..|order|] == order;
      RemoveAbsent(order, key);
    }
  }

  lemma {:induction false} RemoveAt(s: seq<Key>, i: nat)
    requires i < |s| && s[i] !in s[..i]
    ensures Remove(s, s[i]) == s[..i] + s[i + 1..]
  {
    if i > 0 {
      assert s[0] in s[..i] && s[1..][i - 1] == s[i] && s[1..][..i - 1] == s[..i][1..];
      RemoveAt(s[1..], i - 1);
      assert s[..i] == [s[0]] + s[1..][..i - 1] && s[1..][i - 1 + 1..] == s[i + 1..];
    }
  }

  lemma {:induction false} RemoveAbsent(s: seq<Key>, k: Key)
    requires k !in s
    ensures Remove(s, k) == s
  {
    if s != [] {
      assert s[0] in s;
      RemoveAbsent(s[1..], k);
    }
  }
}
