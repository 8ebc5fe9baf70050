/**
 * The response cache: a key/value table with a time-to-live on top of a Redis
 * backend that may be missing, where every operation fails open. Keys are derived
 * from an endpoint name and a JSON object, serialised with sorted keys and hashed.
 */
module Cache {
  import opened Wrappers
  import opened Strings
  import opened Seqs

  /** Every key the cache writes starts with this. */
  const KeyPrefix: string := "ai_cache:"

  /** `settings.redis_ttl`: seconds an entry stays readable. */
  const Ttl: int := 3600

  // ---------------------------------------------------------------------------
  // Key derivation

  /** A JSON value without nested objects. */
  datatype Value = Null | Bool(b: bool) | Int(i: int) | Str(s: string) | List(items: seq<Value>)

  type Field = (string, Value)

  /** A Python dict: its entries in insertion order. */
  type Dict = seq<Field>

  /** Two dicts Python calls equal: the same key/value pairs, in any insertion order. */
  ghost predicate SameDict(a: Dict, b: Dict) {
    DistinctKeys(a) && DistinctKeys(b) && forall f :: f in a <==> f in b
  }

  predicate KeysAscending(d: Dict) {
    forall i, j :: 0 <= i < j < |d| ==> Less(d[i].0, d[j].0)
  }

  /** Places `f` before the first entry whose key is not smaller. This sort is kept apart from
      the client's task sort: `sort_keys` orders distinct keys strictly, so its result is
      unique, while the client's comparator admits ties and promises only order. */
  function Insert(f: Field, s: Dict): (r: Dict)
    ensures |r| == |s| + 1
    ensures multiset(r) == multiset(s) + multiset{f}
  {
    if s == [] then [f]
    else if Less(f.0, s[0].0) then [f] + s
    else
      assert s == [s[0]] + s[1..];
      [s[0]] + Insert(f, s[1..])
  }

  /** A key below `f`'s key and below every key of `s` is below every key of `Insert(f, s)`. */
  lemma {:induction false} InsertAbove(h: string, f: Field, s: Dict)
    requires Less(h, f.0)
    requires forall k :: 0 <= k < |s| ==> Less(h, s[k].0)
    ensures forall k :: 0 <= k < |Insert(f, s)| ==> Less(h, Insert(f, s)[k].0)
  {
    if s != [] && !Less(f.0, s[0].0) {
      var t := Insert(f, s[1..]);
      InsertAbove(h, f, s[1..]);
      assert Insert(f, s) == [s[0]] + t;
    }
  }

  /** An entry whose key is below every key of a key-ascending list can go in front of it. */
  lemma AscendingCons(h: Field, t: Dict)
    requires KeysAscending(t)
    requires forall k :: 0 <= k < |t| ==> Less(h.0, t[k].0)
    ensures KeysAscending([h] + t)
  {
    var r := [h] + t;
    forall i, j | 0 <= i < j < |r|
      ensures Less(r[i].0, r[j].0)
    {
      assert r[j] == t[j - 1];
      if i > 0 {
        assert r[i] == t[i - 1];
      }
    }
  }

  lemma {:induction false} InsertAscending(f: Field, s: Dict)
    requires KeysAscending(s)
    requires forall i :: 0 <= i < |s| ==> s[i].0 != f.0
    ensures KeysAscending(Insert(f, s))
  {
    if s == [] {
    } else if Less(f.0, s[0].0) {
      forall k | 0 <= k < |s|
        ensures Less(f.0, s[k].0)
      {
        if k > 0 {
          CompareTransitive(f.0, s[0].0, s[k].0);
        }
      }
      AscendingCons(f, s);
    } else {
      var rest := s[1..];
      CompareAntisymmetric(f.0, s[0].0);
      assert Less(s[0].0, f.0);
      assert KeysAscending(rest) by {
        forall i, j | 0 <= i < j < |rest| ensures Less(rest[i].0, rest[j].0) {
          assert rest[i] == s[i + 1] && rest[j] == s[j + 1];
        }
      }
      forall k | 0 <= k < |rest| ensures Less(s[0].0, rest[k].0) && rest[k].0 != f.0 {
        assert rest[k] == s[k + 1];
      }
      InsertAscending(f, rest);
      InsertAbove(s[0].0, f, rest);
      AscendingCons(s[0], Insert(f, rest));
    }
  }

  /** What `json.dumps(d, sort_keys=True)` serialises: the entries ordered by key. */
  function SortByKey(d: Dict): (r: Dict)
    ensures multiset(r) == multiset(d)
  {
    if d == [] then []
    else
      assert d == [d[0]] + d[1..];
      Insert(d[0], SortByKey(d[1..]))
  }

  lemma {:induction false} SortByKeyAscending(d: Dict)
    requires DistinctKeys(d)
    ensures KeysAscending(SortByKey(d))
  {
    if d != [] {
      SortByKeyAscending(d[1..]);
      var t := SortByKey(d[1..]);
      forall i | 0 <= i < |t|
        ensures t[i].0 != d[0].0
      {
        assert t[i] in multiset(d[1..]);
        var k :| 0 <= k < |d[1..]| && d[1..][k] == t[i];
        assert d[k + 1] == t[i];
      }
      InsertAscending(d[0], t);
    }
  }

  /** The tail of a key-ascending list is key-ascending and does not hold its head. */
  lemma AscendingTail(a: Dict)
    requires KeysAscending(a) && a != []
    ensures KeysAscending(a[1..])
    ensures a[0] !in a[1..]
    ensures forall f :: f in a <==> f == a[0] || f in a[1..]
  {
    var t := a[1..];
    assert a == [a[0]] + t;
    forall i, j | 0 <= i < j < |t| ensures Less(t[i].0, t[j].0) {
      assert t[i] == a[i + 1] && t[j] == a[j + 1];
    }
    forall i | 0 <= i < |t| ensures t[i] != a[0] {
      assert Less(a[0].0, a[i + 1].0);
    }
  }

  /** A key-ascending entry list is determined by the entries it holds. */
  lemma {:induction false} AscendingUnique(a: Dict, b: Dict)
    requires KeysAscending(a) && KeysAscending(b)
    requires forall f :: f in a <==> f in b
    ensures a == b
  {
    assert a != [] ==> a[0] in b;
    assert b != [] ==> b[0] in a;
    if a != [] && b != [] {
      var k :| 0 <= k < |b| && b[k] == a[0];
      var m :| 0 <= m < |a| && a[m] == b[0];
      if k != 0 && m != 0 {
        assert Less(b[0].0, a[0].0) && Less(a[0].0, b[0].0);
        CompareAntisymmetric(a[0].0, b[0].0);
        assert false;
      }
      assert a[0] == b[0];
      AscendingTail(a);
      AscendingTail(b);
      AscendingUnique(a[1..], b[1..]);
      assert a == [a[0]] + a[1..] && b == [b[0]] + b[1..];
    }
  }

  /** Sorting by key forgets the insertion order of a dict. */
  lemma SortIgnoresInsertionOrder(a: Dict, b: Dict)
    requires SameDict(a, b)
    ensures SortByKey(a) == SortByKey(b)
  {
    SortByKeyAscending(a);
    SortByKeyAscending(b);
    var sa, sb := SortByKey(a), SortByKey(b);
    forall f
      ensures f in sa <==> f in sb
    {
      assert f in sa <==> f in multiset(sa);
      assert f in sb <==> f in multiset(sb);
      assert f in a <==> f in multiset(a);
      assert f in b <==> f in multiset(b);
    }
    AscendingUnique(sa, sb);
  }

  /** The MD5 hex digest of the key-sorted serialisation. `dumps` is `json.dumps` without key
      sorting and `md5Hex` the hex digest of MD5, both taken as given functions. */
  function Digest(dumps: Dict -> string, md5Hex: string -> string, data: Dict): string {
    md5Hex(dumps(SortByKey(data)))
  }

  /** `_generate_cache_key`: the prefix, the endpoint, a colon, then the digest. */
  function CacheKey(dumps: Dict -> string, md5Hex: string -> string, endpoint: string, data: Dict): (k: string)
    ensures |k| == |KeyPrefix| + |endpoint| + 1 + |Digest(dumps, md5Hex, data)|
    ensures HasPrefix(k, KeyPrefix)
    ensures k[|KeyPrefix|..|KeyPrefix| + |endpoint|] == endpoint
    ensures k[|KeyPrefix| + |endpoint|] == ':'
    ensures k[|k| - |Digest(dumps, md5Hex, data)|..] == Digest(dumps, md5Hex, data)
  {
    var digest := Digest(dumps, md5Hex, data);
    var head := KeyPrefix + endpoint;
    assert head[..|KeyPrefix|] == KeyPrefix && head[|KeyPrefix|..] == endpoint;
    var k := head + (":" + digest);
    assert k[..|head|] == head && k[|k| - |digest|..] == digest;
    k
  }

  /** Dicts that are equal as maps share their cache key. */
  lemma CacheKeyIgnoresInsertionOrder(dumps: Dict -> string, md5Hex: string -> string, endpoint: string, a: Dict, b: Dict)
    requires SameDict(a, b)
    ensures CacheKey(dumps, md5Hex, endpoint, a) == CacheKey(dumps, md5Hex, endpoint, b)
  {
    SortIgnoresInsertionOrder(a, b);
  }

  /** With fixed-width digests, a key names its endpoint: two endpoints never share a key,
      whatever the data, and equal keys mean equal digests. */
  lemma CacheKeySeparatesEndpoints(dumps: Dict -> string, md5Hex: string -> string,
                                   e1: string, d1: Dict, e2: string, d2: Dict)
    requires |Digest(dumps, md5Hex, d1)| == 32 && |Digest(dumps, md5Hex, d2)| == 32
    requires CacheKey(dumps, md5Hex, e1, d1) == CacheKey(dumps, md5Hex, e2, d2)
    ensures e1 == e2
    ensures Digest(dumps, md5Hex, d1) == Digest(dumps, md5Hex, d2)
  {
    var k := CacheKey(dumps, md5Hex, e1, d1);
    assert |e1| == |e2|;
    assert e1 == k[|KeyPrefix|..|KeyPrefix| + |e1|];
  }

  // ---------------------------------------------------------------------------
  // The backend table

  /** A stored value and, when it was written with a time-to-live, the instant it expires. */
  datatype Entry = Entry(value: Value, expiresAt: Option<int>)

  predicate Live(e: Entry, now: int) {
    e.expiresAt.None? || now < e.expiresAt.value
  }

  type Store = map<string, Entry>

  /** A `GET`: the value of a live entry, and nothing for a missing or expired one. */
  function Lookup(store: Store, key: string, now: int): (r: Option<Value>)
    ensures r.Some? <==> key in store && Live(store[key], now)
    ensures r.Some? ==> r.value == store[key].value
  {
    if key in store && Live(store[key], now) then Some(store[key].value) else None
  }

  /** A `SETEX key ttl value`. */
  function Put(store: Store, key: string, v: Value, now: int): (r: Store)
    ensures key in r && r[key] == Entry(v, Some(now + Ttl))
    ensures forall k :: k != key ==> (k in r <==> k in store)
    ensures forall k :: k in store && k != key ==> r[k] == store[k]
  {
    store[key := Entry(v, Some(now + Ttl))]
  }

  /** A `DEL key`. */
  function Remove(store: Store, key: string): (r: Store)
    ensures key !in r
    ensures forall k :: k != key ==> (k in r <==> k in store)
    ensures forall k :: k in r ==> r[k] == store[k]
  {
    map k | k in store && k != key :: store[k]
  }

  /** `KEYS ai_cache:*` followed by a `DEL` of every key it returned. */
  function RemoveCacheKeys(store: Store): (r: Store)
    ensures forall k :: k in r <==> k in store && !HasPrefix(k, KeyPrefix)
    ensures forall k :: k in r ==> r[k] == store[k]
  {
    map k | k in store && !HasPrefix(k, KeyPrefix) :: store[k]
  }

  /** The keys `KEYS ai_cache:*` returns. */
  function LiveCacheKeys(store: Store, now: int): (r: set<string>)
    ensures forall k :: k in r <==> k in store && HasPrefix(k, KeyPrefix) && Live(store[k], now)
  {
    set k | k in store && HasPrefix(k, KeyPrefix) && Live(store[k], now)
  }

  /** A written value reads back until the time-to-live has passed, and misses from then on. */
  lemma PutThenLookup(store: Store, key: string, v: Value, now: int, later: int)
    ensures now <= later < now + Ttl ==> Lookup(Put(store, key, v, now), key, later) == Some(v)
    ensures later >= now + Ttl ==> Lookup(Put(store, key, v, now), key, later) == None
  {
  }

  /** A write touches no other key, and a second write replaces the first. */
  lemma PutIsolated(store: Store, key: string, other: string, v: Value, w: Value, now: int, later: int, t: int)
    ensures other != key ==> Lookup(Put(store, key, v, now), other, t) == Lookup(store, other, t)
    ensures Put(Put(store, key, v, now), key, w, later) == Put(store, key, w, later)
  {
  }

  /** After a delete the key misses, and every other key reads as before. */
  lemma RemoveThenLookup(store: Store, key: string, other: string, now: int)
    ensures Lookup(Remove(store, key), key, now) == None
    ensures other != key ==> Lookup(Remove(store, key), other, now) == Lookup(store, other, now)
  {
  }

  /** After clearing, no cache key is left and the count drops to zero, while every key
      outside the prefix reads as before. */
  lemma RemoveCacheKeysEffect(store: Store, key: string, now: int)
    ensures LiveCacheKeys(RemoveCacheKeys(store), now) == {}
    ensures HasPrefix(key, KeyPrefix) ==> Lookup(RemoveCacheKeys(store), key, now) == None
    ensures !HasPrefix(key, KeyPrefix) ==> Lookup(RemoveCacheKeys(store), key, now) == Lookup(store, key, now)
  {
  }

  /** A fresh write under a new cache key adds one to the key count. */
  lemma PutCountsOne(store: Store, key: string, v: Value, now: int)
    requires HasPrefix(key, KeyPrefix) && Lookup(store, key, now) == None
    ensures |LiveCacheKeys(Put(store, key, v, now), now)| == |LiveCacheKeys(store, now)| + 1
  {
    assert LiveCacheKeys(Put(store, key, v, now), now) == LiveCacheKeys(store, now) + {key};
  }

  // ---------------------------------------------------------------------------
  // The cache object

  /** The dict `get_cache_stats` returns: `{connected: false, total_keys: 0}` without a
      backend, `{connected: false, error}` on a failure, and the live key count otherwise. */
  datatype CacheStats = CacheStats(connected: bool, totalKeys: Option<nat>, failed: bool)

  /**
   * `connected` is whether `_connect` left a client (its ping succeeded); `store` is the
   * backend's table, which the cache neither reads nor writes while disconnected. Each
   * operation takes the current time and whether the backend raises during the call.
   */
  class RedisCache {
    var connected: bool
    var store: Store
    const dumps: Dict -> string
    const md5Hex: string -> string

    /** `__init__`/`_connect`: `reachable` is whether the ping succeeded. */
    constructor (reachable: bool, backend: Store, dumps: Dict -> string, md5Hex: string -> string)
      ensures connected == reachable && store == backend
      ensures this.dumps == dumps && this.md5Hex == md5Hex
    {
      connected := reachable;
      store := backend;
      this.dumps := dumps;
      this.md5Hex := md5Hex;
    }

    function Key(endpoint: string, data: Dict): string {
      CacheKey(dumps, md5Hex, endpoint, data)
    }

    /** `get`: a miss without a backend or on a failure, else what the key holds. */
    function Get(endpoint: string, data: Dict, now: int, fault: bool): (r: Option<Value>)
      reads this
      ensures !connected || fault ==> r == None
      ensures connected && !fault ==> r == Lookup(store, Key(endpoint, data), now)
    {
      if !connected || fault then None else Lookup(store, Key(endpoint, data), now)
    }

    /** `set`: writes exactly one entry under the derived key, with the time-to-live. */
    method Set(endpoint: string, data: Dict, response: Value, now: int, fault: bool) returns (ok: bool)
      modifies this
      ensures connected == old(connected)
      ensures ok <==> connected && !fault
      ensures ok ==> store == Put(old(store), Key(endpoint, data), response, now)
      ensures !ok ==> store == old(store)
    {
      if !connected {
        return false;
      }
      if fault {
        return false;
      }
      store := Put(store, Key(endpoint, data), response, now);
      ok := true;
    }

    /** `delete`: true exactly when a live entry was removed. */
    method Delete(endpoint: string, data: Dict, now: int, fault: bool) returns (removed: bool)
      modifies this
      ensures connected == old(connected)
      ensures removed <==> connected && !fault && Lookup(old(store), Key(endpoint, data), now).Some?
      ensures connected && !fault ==> store == Remove(old(store), Key(endpoint, data))
      ensures !connected || fault ==> store == old(store)
    {
      if !connected || fault {
        return false;
      }
      var key := Key(endpoint, data);
      removed := Lookup(store, key, now).Some?;
      store := Remove(store, key);
    }

    /** `clear_all`: removes every cache key and keeps the rest; true even when none matched. */
    method ClearAll(fault: bool) returns (ok: bool)
      modifies this
      ensures connected == old(connected)
      ensures ok <==> connected && !fault
      ensures ok ==> store == RemoveCacheKeys(old(store))
      ensures !ok ==> store == old(store)
    {
      if !connected || fault {
        return false;
      }
      store := RemoveCacheKeys(store);
      ok := true;
    }

    /** `get_cache_stats`. */
    function GetCacheStats(now: int, fault: bool): (s: CacheStats)
      reads this
      ensures !connected ==> s == CacheStats(false, Some(0), false)
      ensures connected && fault ==> !s.connected && s.totalKeys == None && s.failed
      ensures connected && !fault ==> s.connected && s.totalKeys == Some(|LiveCacheKeys(store, now)|)
    {
      if !connected then CacheStats(false, Some(0), false)
      else if fault then CacheStats(false, None, true)
      else CacheStats(true, Some(|LiveCacheKeys(store, now)|), false)
    }
  }

  /** Set, then get with the same endpoint and a map-equal dict: the response comes back
      until the time-to-live has passed. */
  method SetThenGet(c: RedisCache, endpoint: string, data: Dict, same: Dict, response: Value, now: int, later: int)
    returns (ok: bool, r: Option<Value>)
    requires SameDict(data, same) && now <= later
    modifies c
    ensures ok ==> (later < now + Ttl ==> r == Some(response)) && (later >= now + Ttl ==> r == None)
    ensures !ok ==> r == c.Get(endpoint, same, later, false)
  {
    ok := c.Set(endpoint, data, response, now, false);
    r := c.Get(endpoint, same, later, false);
    if ok {
      CacheKeyIgnoresInsertionOrder(c.dumps, c.md5Hex, endpoint, data, same);
      PutThenLookup(old(c.store), c.Key(endpoint, data), response, now, later);
    }
  }
}
