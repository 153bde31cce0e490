/**
 * The content-addressed result cache (src/utils/cache.ts).
 *
 * The store is a JavaScript `Map`, so it is modelled as a sequence of slots in
 * insertion order with pairwise distinct keys. The key is the content itself:
 * the SHA-256 digest the source keys on is taken to be injective. The clock
 * (`Date.now()`) is the `now` parameter of the operations that read it.
 */
module ResultCache {
  import opened Wrappers

  /** The `maxSize` the constructor falls back to when given none. */
  const DefaultMaxSize: int := 100

  /** A stored result with the time it was stored and its optional time-to-live. */
  datatype CacheEntry = CacheEntry(value: string, timestamp: int, ttl: Option<int>)

  /** One key/entry pair of the store. */
  datatype Slot = Slot(key: string, entry: CacheEntry)

  /** `isExpired`: a missing or zero ttl never expires; otherwise strictly more than ttl must have elapsed. */
  predicate IsExpired(e: CacheEntry, now: int) {
    e.ttl.Some? && e.ttl.value != 0 && now - e.timestamp > e.ttl.value
  }

  /** A `Map` never holds a key twice. */
  ghost predicate KeysDistinct(s: seq<Slot>) {
    forall i, j :: 0 <= i < j < |s| ==> s[i].key != s[j].key
  }

  /** The position of key `k` in the store, if it is there. */
  function IndexOf(s: seq<Slot>, k: string): (r: Option<nat>)
    ensures r.Some? ==> r.value < |s| && s[r.value].key == k
    ensures r.Some? ==> forall j :: 0 <= j < r.value ==> s[j].key != k
    ensures r.None? ==> forall j :: 0 <= j < |s| ==> s[j].key != k
  {
    if s == [] then None
    else if s[0].key == k then Some(0)
    else match IndexOf(s[1..], k)
      case None => None
      case Some(i) => Some(i + 1)
  }

  /** `Map.get` */
  function Lookup(s: seq<Slot>, k: string): Option<CacheEntry> {
    match IndexOf(s, k)
    case None => None
    case Some(i) => Some(s[i].entry)
  }

  /** The store without the slot at position `i`; the others keep their order. */
  function RemoveAt(s: seq<Slot>, i: nat): seq<Slot>
    requires i < |s|
  {
    s[..i] + s[i + 1..]
  }

  /** `Map.delete` */
  function Delete(s: seq<Slot>, k: string): seq<Slot> {
    match IndexOf(s, k)
    case None => s
    case Some(i) => RemoveAt(s, i)
  }

  /** `Map.set`: an existing key keeps its position and gets the new entry; a new key goes last. */
  function Put(s: seq<Slot>, k: string, e: CacheEntry): seq<Slot> {
    match IndexOf(s, k)
    case None => s + [Slot(k, e)]
    case Some(i) => s[i := Slot(k, e)]
  }

  /**
   * The slot `evictOldest` picks: the head of the entries stably sorted by
   * timestamp, that is, the first slot in insertion order among those with the
   * smallest timestamp.
   */
  function OldestIndex(s: seq<Slot>): (i: nat)
    requires |s| > 0
    ensures i < |s|
    ensures forall j :: 0 <= j < |s| ==> s[i].entry.timestamp <= s[j].entry.timestamp
    ensures forall j :: 0 <= j < i ==> s[j].entry.timestamp > s[i].entry.timestamp
  {
    if |s| == 1 then 0
    else
      var k := OldestIndex(s[1..]) + 1;
      if s[0].entry.timestamp <= s[k].entry.timestamp then 0 else k
  }

  /** What `get` returns. */
  function GetResult(s: seq<Slot>, k: string, now: int): Option<string> {
    match Lookup(s, k)
    case None => None
    case Some(e) => if IsExpired(e, now) then None else Some(e.value)
  }

  /** The store after `get`: an expired entry is deleted by the read that finds it. */
  function AfterGet(s: seq<Slot>, k: string, now: int): seq<Slot> {
    match Lookup(s, k)
    case None => s
    case Some(e) => if IsExpired(e, now) then Delete(s, k) else s
  }

  /**
   * The store after `evictOldest`, or `None` where it throws: at capacity with an
   * empty store (`maxSize <= 0`) the sorted array has no first element.
   */
  function AfterEvict(s: seq<Slot>, maxSize: int): Option<seq<Slot>> {
    if |s| >= maxSize then
      if |s| == 0 then None else Some(RemoveAt(s, OldestIndex(s)))
    else Some(s)
  }

  /** The store after `set`, or `None` where `set` throws. */
  function AfterSet(s: seq<Slot>, maxSize: int, k: string, v: string, ttl: Option<int>, now: int): Option<seq<Slot>> {
    match AfterEvict(s, maxSize)
    case None => None
    case Some(s1) => Some(Put(s1, k, CacheEntry(v, now, ttl)))
  }

  class Cache {
    /** `store`: the slots in insertion order. */
    var store: seq<Slot>
    /** `maxSize`: fixed by the constructor. */
    const maxSize: int

    ghost predicate Valid()
      reads this
    {
      KeysDistinct(store)
    }

    /** `new Cache(maxSize)`; an undefined `maxSize` falls back to 100. */
    constructor (maxSize: Option<int>)
      ensures Valid() && store == []
      ensures this.maxSize == maxSize.GetOr(DefaultMaxSize)
    {
      store := [];
      this.maxSize := maxSize.GetOr(DefaultMaxSize);
    }

    /** `evictOldest`; `ok` is false where the source throws, and the store is then untouched. */
    method EvictOldest() returns (ok: bool)
      requires Valid()
      modifies this
      ensures Valid()
      ensures ok == AfterEvict(old(store), maxSize).Some?
      ensures store == AfterEvict(old(store), maxSize).GetOr(old(store))
    {
      if |store| >= maxSize {
        if |store| == 0 {
          return false;
        }
        var oldest := OldestIndex(store);
        RemoveAtKeepsKeysDistinct(store, oldest);
        store := RemoveAt(store, oldest);
      }
      return true;
    }

    /** `get`: `None` for a missing or expired entry; an expired entry is deleted. */
    method Get(content: string, now: int) returns (r: Option<string>)
      requires Valid()
      modifies this
      ensures Valid()
      ensures r == GetResult(old(store), content, now)
      ensures store == AfterGet(old(store), content, now)
    {
      var entry := Lookup(store, content);
      if entry.None? {
        return None;
      }
      if IsExpired(entry.value, now) {
        DeleteKeepsKeysDistinct(store, content);
        store := Delete(store, content);
        return None;
      }
      return Some(entry.value.value);
    }

    /** `set`: evict at capacity, then store `value` stamped with `now`; `ok` is false where the source throws. */
    method Set(content: string, value: string, ttl: Option<int>, now: int) returns (ok: bool)
      requires Valid()
      modifies this
      ensures Valid()
      ensures ok == AfterSet(old(store), maxSize, content, value, ttl, now).Some?
      ensures store == AfterSet(old(store), maxSize, content, value, ttl, now).GetOr(old(store))
    {
      ok := EvictOldest();
      if !ok {
        return;
      }
      PutKeepsKeysDistinct(store, content, CacheEntry(value, now, ttl));
      store := Put(store, content, CacheEntry(value, now, ttl));
    }

    /** `clear` */
    method Clear()
      modifies this
      ensures Valid() && store == []
    {
      store := [];
    }

    /** `size` */
    method Size() returns (n: nat)
      ensures n == |store|
    {
      n := |store|;
    }
  }

  // ---------------------------------------------------------------------------
  // Facts about the store operations.

  /** With distinct keys, every slot is what a lookup of its key finds. */
  lemma LookupAt(s: seq<Slot>, i: nat)
    requires KeysDistinct(s) && i < |s|
    ensures IndexOf(s, s[i].key) == Some(i)
    ensures Lookup(s, s[i].key) == Some(s[i].entry)
  {
  }

  lemma RemoveAtKeepsKeysDistinct(s: seq<Slot>, i: nat)
    requires KeysDistinct(s) && i < |s|
    ensures KeysDistinct(RemoveAt(s, i))
  {
    var t := RemoveAt(s, i);
    forall a, b | 0 <= a < b < |t| ensures t[a].key != t[b].key {
      var a', b' := if a < i then a else a + 1, if b < i then b else b + 1;
      assert t[a] == s[a'] && t[b] == s[b'];
    }
  }

  lemma DeleteKeepsKeysDistinct(s: seq<Slot>, k: string)
    requires KeysDistinct(s)
    ensures KeysDistinct(Delete(s, k))
  {
    if IndexOf(s, k).Some? {
      RemoveAtKeepsKeysDistinct(s, IndexOf(s, k).value);
    }
  }

  lemma PutKeepsKeysDistinct(s: seq<Slot>, k: string, e: CacheEntry)
    requires KeysDistinct(s)
    ensures KeysDistinct(Put(s, k, e))
  {
  }

  /**
   * Looking up key `q` after removing the slot at `i`: the removed key is gone,
   * every other key is found as before, and the store is one shorter.
   */
  lemma LookupRemoveAt(s: seq<Slot>, i: nat, q: string)
    requires KeysDistinct(s) && i < |s|
    ensures |RemoveAt(s, i)| == |s| - 1
    ensures Lookup(RemoveAt(s, i), q) == if q == s[i].key then None else Lookup(s, q)
  {
    var t := RemoveAt(s, i);
    RemoveAtKeepsKeysDistinct(s, i);
    if IndexOf(s, q).Some? {
      var j := IndexOf(s, q).value;
      LookupAt(s, j);
      if j != i {
        var j2 := if j < i then j else j - 1;
        assert t[j2] == s[j];
        LookupAt(t, j2);
      }
    }
    if IndexOf(t, q).Some? {
      var j := IndexOf(t, q).value;
      var j' := if j < i then j else j + 1;
      assert t[j] == s[j'];
      LookupAt(s, j');
    }
  }

  /** Looking up key `q` after `Map.set(k, e)`, and the size the store then has. */
  lemma LookupPut(s: seq<Slot>, k: string, e: CacheEntry, q: string)
    requires KeysDistinct(s)
    ensures |Put(s, k, e)| == if Lookup(s, k).None? then |s| + 1 else |s|
    ensures Lookup(Put(s, k, e), q) == if q == k then Some(e) else Lookup(s, q)
  {
    var t := Put(s, k, e);
    PutKeepsKeysDistinct(s, k, e);
    match IndexOf(s, k)
    case None =>
      assert t[|s|] == Slot(k, e);
      LookupAt(t, |s|);
      if q != k {
        match IndexOf(s, q)
        case None =>
        case Some(j) =>
          assert t[j] == s[j];
          LookupAt(t, j);
      }
    case Some(i) =>
      LookupAt(t, i);
      if q != k {
        match IndexOf(s, q)
        case None =>
        case Some(j) =>
          assert j != i && t[j] == s[j];
          LookupAt(t, j);
      }
  }

  // ---------------------------------------------------------------------------
  // What the cache promises.

  /** A `set` followed by a `get` of the same content, before the ttl has run out, returns the value and keeps the store. */
  lemma SetThenGetHits(s: seq<Slot>, maxSize: int, k: string, v: string, ttl: Option<int>, t: int, t': int)
    requires KeysDistinct(s)
    requires AfterSet(s, maxSize, k, v, ttl, t).Some?
    requires ttl.None? || ttl.value == 0 || t' - t <= ttl.value
    ensures var s' := AfterSet(s, maxSize, k, v, ttl, t).value;
      GetResult(s', k, t') == Some(v) && AfterGet(s', k, t') == s'
  {
    var s1 := AfterEvict(s, maxSize).value;
    if |s| >= maxSize {
      RemoveAtKeepsKeysDistinct(s, OldestIndex(s));
    }
    LookupPut(s1, k, CacheEntry(v, t, ttl), k);
  }

  /**
   * Expiry only depends on elapsed time and never reverses: an entry expired
   * at `now` is expired at every later time, and one with an undefined or zero
   * ttl is never expired.
   */
  lemma ExpiryIsPermanent(e: CacheEntry, now: int, later: int)
    requires now <= later
    ensures IsExpired(e, now) ==> IsExpired(e, later)
    ensures e.ttl.None? || e.ttl == Some(0) ==> !IsExpired(e, now)
  {
  }

  /** A read of an absent content misses and leaves the store alone. */
  lemma GetAbsentMisses(s: seq<Slot>, k: string, now: int)
    requires forall i :: 0 <= i < |s| ==> s[i].key != k
    ensures GetResult(s, k, now) == None && AfterGet(s, k, now) == s
  {
  }

  /**
   * A stored entry is a hit exactly while it has not expired: never for a
   * missing or zero ttl, and up to and including `now - timestamp == ttl`
   * otherwise. A hit leaves the store as it was.
   */
  lemma GetHitIffFresh(s: seq<Slot>, k: string, e: CacheEntry, now: int)
    requires Lookup(s, k) == Some(e)
    ensures GetResult(s, k, now) == Some(e.value) <==> (e.ttl.None? || e.ttl.value == 0 || now - e.timestamp <= e.ttl.value)
    ensures GetResult(s, k, now).Some? ==> AfterGet(s, k, now) == s
  {
  }

  /** Reading an expired entry misses and deletes exactly that entry. */
  lemma ExpiredGetDeletesOnlyThatKey(s: seq<Slot>, k: string, now: int)
    requires KeysDistinct(s)
    requires Lookup(s, k).Some? && IsExpired(Lookup(s, k).value, now)
    ensures GetResult(s, k, now) == None
    ensures |AfterGet(s, k, now)| == |s| - 1
    ensures Lookup(AfterGet(s, k, now), k) == None
    ensures forall q :: q != k ==> Lookup(AfterGet(s, k, now), q) == Lookup(s, q)
  {
    var i := IndexOf(s, k).value;
    forall q ensures Lookup(RemoveAt(s, i), q) == if q == k then None else Lookup(s, q) {
      LookupRemoveAt(s, i, q);
    }
    LookupRemoveAt(s, i, k);
  }

  /** With room for at least one entry, `set` never throws and never takes the store over `maxSize`. */
  lemma SetKeepsSizeBound(s: seq<Slot>, maxSize: int, k: string, v: string, ttl: Option<int>, now: int)
    requires KeysDistinct(s)
    requires 1 <= maxSize && |s| <= maxSize
    ensures AfterSet(s, maxSize, k, v, ttl, now).Some?
    ensures KeysDistinct(AfterSet(s, maxSize, k, v, ttl, now).value)
    ensures |AfterSet(s, maxSize, k, v, ttl, now).value| <= maxSize
  {
    var s1 := AfterEvict(s, maxSize).value;
    if |s| >= maxSize {
      LookupRemoveAt(s, OldestIndex(s), k);
      RemoveAtKeepsKeysDistinct(s, OldestIndex(s));
    }
    LookupPut(s1, k, CacheEntry(v, now, ttl), k);
    PutKeepsKeysDistinct(s1, k, CacheEntry(v, now, ttl));
  }

  /** `set` throws exactly when the store is empty and `maxSize` is not positive. */
  lemma SetThrowsIffNoRoom(s: seq<Slot>, maxSize: int, k: string, v: string, ttl: Option<int>, now: int)
    ensures AfterSet(s, maxSize, k, v, ttl, now).None? <==> (|s| == 0 && maxSize <= 0)
  {
  }

  /**
   * `set` at capacity evicts exactly one entry, the one with the smallest
   * timestamp (the earliest inserted among equal timestamps), and leaves every
   * other entry as it was before storing the new one.
   */
  lemma SetAtCapacityEvictsOldest(s: seq<Slot>, maxSize: int, k: string, v: string, ttl: Option<int>, now: int)
    requires KeysDistinct(s)
    requires |s| >= maxSize && |s| >= 1
    ensures var o := OldestIndex(s);
      && (forall j :: 0 <= j < |s| ==> s[o].entry.timestamp <= s[j].entry.timestamp)
      && (forall j :: 0 <= j < o ==> s[j].entry.timestamp > s[o].entry.timestamp)
      && var s' := AfterSet(s, maxSize, k, v, ttl, now).value;
      && Lookup(s', k) == Some(CacheEntry(v, now, ttl))
      && (s[o].key != k ==> Lookup(s', s[o].key) == None)
      && (forall q :: q != k && q != s[o].key ==> Lookup(s', q) == Lookup(s, q))
      && |s'| == if Lookup(s, k).Some? && s[o].key != k then |s| - 1 else |s|
  {
    var o := OldestIndex(s);
    var s1 := RemoveAt(s, o);
    var e := CacheEntry(v, now, ttl);
    RemoveAtKeepsKeysDistinct(s, o);
    forall q ensures Lookup(Put(s1, k, e), q) == if q == k then Some(e) else if q == s[o].key then None else Lookup(s, q) {
      LookupRemoveAt(s, o, q);
      LookupPut(s1, k, e, q);
    }
    LookupRemoveAt(s, o, k);
    LookupPut(s1, k, e, k);
  }

  /** An emptied cache misses on every content. */
  lemma ClearedCacheMisses(k: string, now: int)
    ensures GetResult([], k, now) == None && AfterGet([], k, now) == []
  {
  }

  /** Two distinct contents stored one after the other, with room for both, each read back their own value. */
  lemma DistinctContentsDoNotCollide(s: seq<Slot>, maxSize: int, k1: string, v1: string, t1: int, k2: string, v2: string, t2: int, now: int)
    requires KeysDistinct(s) && k1 != k2
    requires |s| + 2 <= maxSize
    ensures AfterSet(s, maxSize, k1, v1, None, t1).Some?
    ensures var s1 := AfterSet(s, maxSize, k1, v1, None, t1).value;
      && AfterSet(s1, maxSize, k2, v2, None, t2).Some?
      && var s2 := AfterSet(s1, maxSize, k2, v2, None, t2).value;
      && GetResult(s2, k1, now) == Some(v1)
      && GetResult(s2, k2, now) == Some(v2)
  {
    var e1, e2 := CacheEntry(v1, t1, None), CacheEntry(v2, t2, None);
    LookupPut(s, k1, e1, k1);
    var s1 := Put(s, k1, e1);
    PutKeepsKeysDistinct(s, k1, e1);
    LookupPut(s1, k2, e2, k1);
    LookupPut(s1, k2, e2, k2);
  }

  /**
   * The eviction scenario of a two-entry cache: three contents stored at
   * non-decreasing times (equal times included) leave the first one evicted and
   * the other two readable.
   */
  lemma ThirdInsertEvictsFirst(k1: string, k2: string, k3: string, t1: int, t2: int, t3: int, now: int)
    requires k1 != k2 && k2 != k3 && k1 != k3
    requires t1 <= t2 <= t3
    ensures AfterSet([], 2, k1, "processed1", None, t1).Some?
    ensures var s1 := AfterSet([], 2, k1, "processed1", None, t1).value;
      && AfterSet(s1, 2, k2, "processed2", None, t2).Some?
      && var s2 := AfterSet(s1, 2, k2, "processed2", None, t2).value;
      && AfterSet(s2, 2, k3, "processed3", None, t3).Some?
      && var s3 := AfterSet(s2, 2, k3, "processed3", None, t3).value;
      && GetResult(s3, k1, now) == None
      && GetResult(s3, k2, now) == Some("processed2")
      && GetResult(s3, k3, now) == Some("processed3")
  {
    var e1, e2, e3 := CacheEntry("processed1", t1, None), CacheEntry("processed2", t2, None), CacheEntry("processed3", t3, None);
    var s1 := [Slot(k1, e1)];
    assert Put([], k1, e1) == s1;
    var s2 := s1 + [Slot(k2, e2)];
    assert IndexOf(s1, k2) == None;
    assert Put(s1, k2, e2) == s2;
    assert OldestIndex(s2) == 0;
    var s2' := RemoveAt(s2, 0);
    assert s2' == [Slot(k2, e2)];
    assert IndexOf(s2', k3) == None;
    var s3 := s2' + [Slot(k3, e3)];
    assert Put(s2', k3, e3) == s3;
    assert IndexOf(s3, k1) == None;
    assert IndexOf(s3, k2) == Some(0);
    assert IndexOf(s3[1..], k3) == Some(0);
  }
}
