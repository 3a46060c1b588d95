/**
 * The change-aware screenshot cache: a bounded map from screen hash to
 * encoded payload, a recency list of the same keys (oldest first) with
 * evict-oldest, a `last_hash` fast path for an unchanged screen, and the
 * request and hit counters.
 *
 * Capturing, optimising and encoding the screen and hashing its corner are
 * foreign calls: the caller passes in their results (the hash taken before
 * capture, the capture outcome, the hash taken after capture).
 */
module ScreenshotCache {

  import opened Wrappers
  import opened Stats

  /** Hash key to base64 payload. */
  type Cache = map<string, string>

  /** The keys of the map are exactly the entries of the recency list. */
  ghost predicate KeysMatch(cache: Cache, order: seq<string>) {
    forall k :: k in cache <==> k in order
  }

  /** No key occurs twice in the recency list. */
  ghost predicate NoDup(order: seq<string>) {
    forall i, j :: 0 <= i < j < |order| ==> order[i] != order[j]
  }

  /** `list.remove(x)`: drop the first occurrence of `x`. */
  function RemoveFirst(s: seq<string>, x: string): (r: seq<string>)
    ensures x in s ==> |r| == |s| - 1
    ensures x !in s ==> r == s
  {
    if s == [] then []
    else if s[0] == x then s[1..]
    else [s[0]] + RemoveFirst(s[1..], x)
  }

  /** The recency list after `key` is used: removed if present, then appended. */
  function Touch(order: seq<string>, key: string): (t: seq<string>)
    ensures |t| > 0 && t[|t| - 1] == key
    ensures |t| == if key in order then |order| else |order| + 1
  {
    (if key in order then RemoveFirst(order, key) else order) + [key]
  }

  /** Removing the first occurrence from a list without duplicates removes exactly that key. */
  lemma {:induction false} RemoveFirstExact(s: seq<string>, x: string)
    requires NoDup(s)
    ensures NoDup(RemoveFirst(s, x))
    ensures forall y :: y in RemoveFirst(s, x) <==> y in s && y != x
    decreases |s|
  {
    if s != [] && s[0] != x {
      assert NoDup(s[1..]) by {
        forall i, j | 0 <= i < j < |s[1..]| ensures s[1..][i] != s[1..][j] {
          assert s[1..][i] == s[i + 1] && s[1..][j] == s[j + 1];
        }
      }
      RemoveFirstExact(s[1..], x);
      var r := RemoveFirst(s[1..], x);
      assert s[0] !in r;
      forall i, j | 0 <= i < j < |[s[0]] + r| ensures ([s[0]] + r)[i] != ([s[0]] + r)[j] {
        if i > 0 {
          assert ([s[0]] + r)[i] == r[i - 1] && ([s[0]] + r)[j] == r[j - 1];
        } else {
          assert ([s[0]] + r)[j] in r;
        }
      }
      forall y ensures y in [s[0]] + r <==> y in s && y != x {
        assert y in s <==> y == s[0] || y in s[1..];
      }
    } else if s != [] {
      forall i, j | 0 <= i < j < |s[1..]| ensures s[1..][i] != s[1..][j] {
        assert s[1..][i] == s[i + 1] && s[1..][j] == s[j + 1];
      }
      forall y ensures y in s[1..] <==> y in s && y != x {
        if y in s[1..] {
          var j :| 0 <= j < |s[1..]| && s[1..][j] == y;
          assert s[j + 1] == y;
        }
        assert y in s <==> y == s[0] || y in s[1..];
      }
    }
  }

  /**
   * After a touch the key occurs exactly once, at the newest end, the list
   * still has no duplicates, and it holds the old keys plus this one.
   */
  lemma TouchPlacesKeyLast(order: seq<string>, key: string)
    requires NoDup(order)
    ensures var t := Touch(order, key);
      && NoDup(t) && |t| > 0 && t[|t| - 1] == key
      && key !in t[..|t| - 1]
      && forall y :: y in t <==> y in order || y == key
  {
    var base := if key in order then RemoveFirst(order, key) else order;
    if key in order {
      RemoveFirstExact(order, key);
    }
    var t := base + [key];
    assert t[..|t| - 1] == base;
    forall i, j | 0 <= i < j < |t| ensures t[i] != t[j] {
      if j == |t| - 1 {
        assert t[i] == base[i];
      } else {
        assert t[i] == base[i] && t[j] == base[j];
      }
    }
  }

  /**
   * The eviction loop: while the map holds more than `size` entries, pop the
   * oldest key and delete it from the map if it is there. It stops early
   * only when the list runs out, which is where `pop(0)` would raise.
   */
  function EvictState(cache: Cache, order: seq<string>, size: int): (r: (Cache, seq<string>))
    ensures |r.0| > size ==> r.1 == []
    decreases |order|
  {
    if |cache| <= size || order == [] then (cache, order)
    else EvictState(cache - {order[0]}, order[1..], size)
  }

  /** The eviction loop ends by popping from an empty list. */
  predicate EvictFails(cache: Cache, order: seq<string>, size: int) {
    |EvictState(cache, order, size).0| > size
  }

  /**
   * `o` is a suffix of `order`, and `c` keeps exactly the entries of `cache`
   * whose keys are not in the prefix before it, with their payloads.
   */
  ghost predicate PoppedPrefix(cache: Cache, order: seq<string>, c: Cache, o: seq<string>) {
    && |o| <= |order| && o == order[|order| - |o|..]
    && (forall k :: k in c <==> k in cache && k !in order[..|order| - |o|])
    && (forall k :: k in c ==> c[k] == cache[k])
  }

  /**
   * Eviction removes the oldest keys: what is left of the list is a suffix
   * of it, and the map keeps exactly the entries whose keys are not in the
   * popped prefix, with their payloads unchanged.
   */
  lemma {:induction false} EvictRemovesOldest(cache: Cache, order: seq<string>, size: int)
    ensures PoppedPrefix(cache, order, EvictState(cache, order, size).0, EvictState(cache, order, size).1)
    decreases |order|
  {
    if |cache| > size && order != [] {
      EvictRemovesOldest(cache - {order[0]}, order[1..], size);
      var r := EvictState(cache - {order[0]}, order[1..], size);
      PopPrefixStep(cache, order, r.0, r.1);
    } else {
      assert order[..0] == [];
    }
  }

  /** The popped prefix after one more pop at the front. */
  lemma PopPrefixStep(cache: Cache, order: seq<string>, c: Cache, o: seq<string>)
    requires order != [] && PoppedPrefix(cache - {order[0]}, order[1..], c, o)
    ensures PoppedPrefix(cache, order, c, o)
  {
    var n := |order| - 1 - |o|;
    assert order[1..][n..] == order[n + 1..];
    assert order[..n + 1] == [order[0]] + order[1..][..n];
    forall k
      ensures k in c <==> k in cache && k !in order[..n + 1]
    {
      assert k in order[..n + 1] <==> k == order[0] || k in order[1..][..n];
    }
  }

  /** One pop keeps the map and the list in step and shrinks the map by one entry. */
  lemma PopKeepsInvariant(cache: Cache, order: seq<string>)
    requires KeysMatch(cache, order) && NoDup(order) && order != []
    ensures KeysMatch(cache - {order[0]}, order[1..]) && NoDup(order[1..])
    ensures |cache - {order[0]}| == |cache| - 1
  {
    var c' := cache - {order[0]};
    var o' := order[1..];
    forall k ensures k in c' <==> k in o' {
      assert k in order <==> k == order[0] || k in o';
    }
    forall i, j | 0 <= i < j < |o'| ensures o'[i] != o'[j] {
      assert o'[i] == order[i + 1] && o'[j] == order[j + 1];
    }
    assert c'.Keys == cache.Keys - {order[0]};
  }

  /**
   * Eviction keeps the map and the list in step; with a bound of zero or more
   * it never pops from an empty list and leaves at most `size` entries, and
   * with a negative bound it empties both and then fails.
   */
  lemma {:induction false} EvictKeepsInvariant(cache: Cache, order: seq<string>, size: int)
    requires KeysMatch(cache, order) && NoDup(order)
    ensures var (c, o) := EvictState(cache, order, size);
      && KeysMatch(c, o) && NoDup(o)
      && (size >= 0 ==> !EvictFails(cache, order, size) && |c| <= size)
      && (size < 0 ==> EvictFails(cache, order, size) && c == map[] && o == [])
    decreases |order|
  {
    if order == [] {
      assert cache.Keys == {};
    } else if |cache| > size {
      PopKeepsInvariant(cache, order);
      EvictKeepsInvariant(cache - {order[0]}, order[1..], size);
    }
  }

  /** A map at most one entry over a non-negative bound loses at most its oldest entry. */
  lemma EvictAtMostOne(cache: Cache, order: seq<string>, size: int)
    requires KeysMatch(cache, order) && NoDup(order)
    requires 0 <= size && |cache| <= size + 1
    ensures |EvictState(cache, order, size).1| + 1 >= |order|
    ensures |cache| <= size ==> EvictState(cache, order, size) == (cache, order)
  {
    if |cache| > size && order != [] {
      PopKeepsInvariant(cache, order);
      assert EvictState(cache, order, size) == (cache - {order[0]}, order[1..]);
    }
  }

  /** What `_update_cache` does to the map and the list. */
  function UpdateState(cache: Cache, order: seq<string>, key: string, payload: string, size: int): (Cache, seq<string>) {
    EvictState(cache[key := payload], Touch(order, key), size)
  }

  /** `_update_cache` ends by popping from an empty list (only when the bound is negative). */
  predicate UpdateFails(cache: Cache, order: seq<string>, key: string, payload: string, size: int) {
    EvictFails(cache[key := payload], Touch(order, key), size)
  }

  /** A map in step with a one-entry list has one entry. */
  lemma SingleKey(cache: Cache, order: seq<string>)
    requires KeysMatch(cache, order) && |order| == 1
    ensures |cache| == 1
  {
    assert cache.Keys == {order[0]};
  }

  /** With a bound of at least one, eviction after a touch never drops the key just touched. */
  lemma EvictKeepsNewest(cache: Cache, order: seq<string>, size: int, key: string)
    requires KeysMatch(cache, order) && NoDup(order)
    requires 1 <= size && |cache| <= size + 1
    requires order != [] && order[|order| - 1] == key
    ensures var (c, o) := EvictState(cache, order, size);
      key in c && c[key] == cache[key] && o != [] && o[|o| - 1] == key
  {
    if |cache| > size {
      if |order| == 1 {
        SingleKey(cache, order);
        assert false;
      }
      assert order[0] != order[|order| - 1];
      PopKeepsInvariant(cache, order);
      var c', o' := cache - {order[0]}, order[1..];
      assert EvictState(c', o', size) == (c', o');
      assert key in o' && o'[|o'| - 1] == key;
    }
  }

  /**
   * `_update_cache` keeps the cache invariant. With a bound of at least one,
   * the new key is stored with its payload and sits at the newest end of the
   * list, the map stays within the bound, and nothing fails; with a negative
   * bound it fails.
   */
  lemma UpdateKeepsInvariant(cache: Cache, order: seq<string>, key: string, payload: string, size: int)
    requires KeysMatch(cache, order) && NoDup(order)
    requires size >= 0 ==> |cache| <= size
    ensures var (c, o) := UpdateState(cache, order, key, payload, size);
      && KeysMatch(c, o) && NoDup(o)
      && (size >= 0 ==> !UpdateFails(cache, order, key, payload, size) && |c| <= size)
      && (size < 0 ==> UpdateFails(cache, order, key, payload, size))
      && (size >= 1 ==> key in c && c[key] == payload && o != [] && o[|o| - 1] == key)
  {
    var c0 := cache[key := payload];
    var o0 := Touch(order, key);
    StoreKeepsInvariant(cache, order, key, payload);
    EvictKeepsInvariant(c0, o0, size);
    if size >= 1 {
      EvictKeepsNewest(c0, o0, size, key);
    }
  }

  /** Storing a payload and touching its key keeps the map and the list in step, one entry larger at most. */
  lemma StoreKeepsInvariant(cache: Cache, order: seq<string>, key: string, payload: string)
    requires KeysMatch(cache, order) && NoDup(order)
    ensures var o := Touch(order, key);
      && KeysMatch(cache[key := payload], o) && NoDup(o)
      && |cache[key := payload]| <= |cache| + 1
      && o != [] && o[|o| - 1] == key
  {
    TouchPlacesKeyLast(order, key);
    assert cache[key := payload].Keys == cache.Keys + {key};
  }

  /** The errors `get_screenshot` lets escape. */
  datatype ShotError =
    | CaptureFailed  // the screen grab or encoding raised
    | PopFromEmpty   // `pop(0)` on an empty recency list (negative bound)

  /** What `get_cache_stats` reports. */
  datatype CacheStats = CacheStats(
    cacheSize: nat, maxCacheSize: int, screenshotCount: nat, cacheHits: nat,
    hitRate: Ratio, compressionQuality: int, resizeFactor: real)

  class ScreenshotManager {
    const cacheSize: int
    const compressionQuality: int
    const resizeFactor: real
    var cache: Cache
    var cacheOrder: seq<string>
    var lastHash: Option<string>
    var screenshotCount: nat
    var cacheHits: nat

    /**
     * The cache invariant: map keys and list entries agree, the list has no
     * duplicates, hits never exceed requests, the map stays within a
     * non-negative bound, and while the bound is at least one the last
     * screen's hash is still cached.
     */
    ghost predicate Valid()
      reads this
    {
      && KeysMatch(cache, cacheOrder)
      && NoDup(cacheOrder)
      && cacheHits <= screenshotCount
      && (cacheSize >= 0 ==> |cache| <= cacheSize)
      && (cacheSize >= 1 && lastHash.Some? ==> lastHash.value in cache)
    }

    /** `ScreenshotManager(cache_size=5, compression_quality=85, resize_factor=0.8)`. */
    constructor(cacheSize: int := 5, compressionQuality: int := 85, resizeFactor: real := 0.8)
      ensures Valid()
      ensures this.cacheSize == cacheSize && this.compressionQuality == compressionQuality
      ensures this.resizeFactor == resizeFactor
      ensures cache == map[] && cacheOrder == [] && lastHash == None
      ensures screenshotCount == 0 && cacheHits == 0
    {
      this.cacheSize := cacheSize;
      this.compressionQuality := compressionQuality;
      this.resizeFactor := resizeFactor;
      cache := map[];
      cacheOrder := [];
      lastHash := None;
      screenshotCount := 0;
      cacheHits := 0;
    }

    /** The fast path applies: no forced capture, the screen hash equals `last_hash`, and that hash is cached. */
    predicate IsHit(forceNew: bool, hashNow: string)
      reads this
    {
      !forceNew && lastHash == Some(hashNow) && hashNow in cache
    }

    /** `_update_cache`: store, move the key to the newest end, then evict the oldest while over the bound. */
    method UpdateCache(hashKey: string, payload: string) returns (ok: bool)
      modifies this
      ensures (cache, cacheOrder) == UpdateState(old(cache), old(cacheOrder), hashKey, payload, cacheSize)
      ensures ok == !UpdateFails(old(cache), old(cacheOrder), hashKey, payload, cacheSize)
      ensures lastHash == old(lastHash) && screenshotCount == old(screenshotCount) && cacheHits == old(cacheHits)
    {
      cache := cache[hashKey := payload];
      if hashKey in cacheOrder {
        cacheOrder := RemoveFirst(cacheOrder, hashKey);
      }
      cacheOrder := cacheOrder + [hashKey];
      ghost var target := EvictState(cache, cacheOrder, cacheSize);
      while |cache| > cacheSize
        invariant EvictState(cache, cacheOrder, cacheSize) == target
        invariant lastHash == old(lastHash) && screenshotCount == old(screenshotCount) && cacheHits == old(cacheHits)
        decreases |cacheOrder|
      {
        if cacheOrder == [] {
          return false;
        }
        var oldestKey := cacheOrder[0];
        cacheOrder := cacheOrder[1..];
        if oldestKey in cache {
          cache := cache - {oldestKey};
        } else {
          assert cache - {oldestKey} == cache;
        }
      }
      return true;
    }

    /**
     * `get_screenshot`. `hashBefore` is the hash the fast path computes
     * (only looked at when `forceNew` is false), `capture` the outcome of
     * taking and encoding a new screenshot, `hashAfter` the hash computed
     * again after the capture.
     */
    method GetScreenshot(forceNew: bool, hashBefore: string, capture: Result<string, ()>, hashAfter: string)
      returns (r: Result<string, ShotError>)
      requires Valid()
      modifies this
      ensures Valid()
      ensures screenshotCount == old(screenshotCount) + 1
      ensures old(IsHit(forceNew, hashBefore)) ==>
        && r == Success(old(cache)[hashBefore])
        && cacheHits == old(cacheHits) + 1
        && cache == old(cache) && cacheOrder == old(cacheOrder) && lastHash == old(lastHash)
      ensures !old(IsHit(forceNew, hashBefore)) ==> cacheHits == old(cacheHits)
      ensures !old(IsHit(forceNew, hashBefore)) && capture.Failure? ==>
        r == Failure(CaptureFailed) && cache == old(cache) && cacheOrder == old(cacheOrder) && lastHash == old(lastHash)
      ensures !old(IsHit(forceNew, hashBefore)) && capture.Success? ==>
        && (cache, cacheOrder) == UpdateState(old(cache), old(cacheOrder), hashAfter, capture.value, cacheSize)
        && (cacheSize >= 0 ==> r == Success(capture.value) && lastHash == Some(hashAfter))
        && (cacheSize < 0 ==> r == Failure(PopFromEmpty) && lastHash == old(lastHash))
    {
      screenshotCount := screenshotCount + 1;
      if !forceNew {
        var currentHash := hashBefore;
        if Some(currentHash) == lastHash && currentHash in cache {
          cacheHits := cacheHits + 1;
          return Success(cache[currentHash]);
        }
      }
      if capture.Failure? {
        return Failure(CaptureFailed);
      }
      var screenshotB64 := capture.value;
      var currentHash := hashAfter;
      UpdateKeepsInvariant(cache, cacheOrder, currentHash, screenshotB64, cacheSize);
      var ok := UpdateCache(currentHash, screenshotB64);
      if !ok {
        return Failure(PopFromEmpty);
      }
      lastHash := Some(currentHash);
      return Success(screenshotB64);
    }

    /** `clear_cache`: empty the map and the list and forget the last hash; the counters stay. */
    method ClearCache()
      requires Valid()
      modifies this
      ensures Valid()
      ensures cache == map[] && cacheOrder == [] && lastHash == None
      ensures screenshotCount == old(screenshotCount) && cacheHits == old(cacheHits)
    {
      cache := map[];
      cacheOrder := [];
      lastHash := None;
    }

    /** `get_cache_stats`. */
    function GetCacheStats(): (s: CacheStats)
      reads this
      ensures s.hitRate.den >= 1
      ensures Valid() ==> s.hitRate.num <= s.hitRate.den
      ensures Valid() && cacheSize >= 0 ==> s.cacheSize <= s.maxCacheSize
    {
      CacheStats(|cache|, cacheSize, screenshotCount, cacheHits,
        Rate(cacheHits, screenshotCount), compressionQuality, resizeFactor)
    }
  }
}
