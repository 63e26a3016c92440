/** The result cache of bot3.py: one process-wide `TTLCache` (bot3.py:220)
    shared by every function wrapped with `cache_decorator` (bot3.py:472-493).
    A wrapped call looks its key up; a live entry is returned as it is and the
    function is not run, otherwise the function runs once and its result is
    stored for `CACHE_TTL` seconds. Time is a parameter (`now`, in seconds),
    and the md5 digest of the key text is left out: the key is the text. */
module Memo {
  import opened Wrappers
  import Text
  import Sorting

  /** `CACHE_TTL`: how many seconds a stored result stays readable. */
  const CacheTtl: int := 60

  /** A keyword argument: its name and `str()` of its value. */
  type Kwarg = (string, string)

  /** The keyword arguments of one call come from a dict: no name twice. */
  predicate DistinctNames(kwargs: seq<Kwarg>)
  {
    forall i, j :: 0 <= i < j < |kwargs| ==> kwargs[i].0 != kwargs[j].0
  }

  /** `sorted(kwargs.items())` orders by name; names are distinct, so the
      value never decides. */
  function NameKey(kw: Kwarg): seq<int>
  {
    Sorting.Codes(kw.0)
  }

  /** `f"{k}:{v}"` for each keyword argument, in the given order. */
  function KwargTexts(kwargs: seq<Kwarg>): seq<string>
  {
    seq(|kwargs|, i requires 0 <= i < |kwargs| => kwargs[i].0 + ":" + kwargs[i].1)
  }

  /** The cache key of a call: the function name, `str()` of each positional
      argument, then the keyword arguments sorted by name, joined by '|'. */
  function CacheKey(name: string, args: seq<string>, kwargs: seq<Kwarg>): string
  {
    Text.Join([name] + args + KwargTexts(Sorting.SortBy(kwargs, NameKey)), '|')
  }

  /** Two calls whose keyword arguments differ only in order have the same
      key. */
  lemma KeyIgnoresKwargOrder(name: string, args: seq<string>, kw1: seq<Kwarg>, kw2: seq<Kwarg>)
    requires DistinctNames(kw1) && multiset(kw1) == multiset(kw2)
    ensures CacheKey(name, args, kw1) == CacheKey(name, args, kw2)
  {
    var s1, s2 := Sorting.SortBy(kw1, NameKey), Sorting.SortBy(kw2, NameKey);
    Sorting.SortByCorrect(kw1, NameKey);
    Sorting.SortByCorrect(kw2, NameKey);
    forall a, b | a in multiset(s1) && b in multiset(s1) && NameKey(a) == NameKey(b)
      ensures a == b
    {
      var i :| 0 <= i < |kw1| && kw1[i] == a;
      var j :| 0 <= j < |kw1| && kw1[j] == b;
      Sorting.CodesInjective(a.0, b.0);
      assert i == j;
    }
    Sorting.SortedSame(s1, s2, NameKey);
  }

  /** The key starts with the function name, followed by '|' when anything
      comes after it. */
  lemma KeyStartsWithName(name: string, args: seq<string>, kwargs: seq<Kwarg>)
    ensures |name| <= |CacheKey(name, args, kwargs)|
    ensures CacheKey(name, args, kwargs)[..|name|] == name
    ensures |CacheKey(name, args, kwargs)| > |name| ==> CacheKey(name, args, kwargs)[|name|] == '|'
  {
    var parts := [name] + args + KwargTexts(Sorting.SortBy(kwargs, NameKey));
    assert parts[0] == name;
    if |parts| > 1 {
      assert Text.Join(parts, '|') == name + ['|'] + Text.Join(parts[1..], '|');
    }
  }

  /** Functions sharing the cache never read each other's results: calls to
      two differently named functions have different keys, whatever their
      arguments, as long as the names hold no '|'. */
  lemma KeySeparatesFunctions(name1: string, args1: seq<string>, kw1: seq<Kwarg>,
                              name2: string, args2: seq<string>, kw2: seq<Kwarg>)
    requires name1 != name2 && '|' !in name1 && '|' !in name2
    ensures CacheKey(name1, args1, kw1) != CacheKey(name2, args2, kw2)
  {
    var k1, k2 := CacheKey(name1, args1, kw1), CacheKey(name2, args2, kw2);
    KeyStartsWithName(name1, args1, kw1);
    KeyStartsWithName(name2, args2, kw2);
    if |name1| < |name2| {
      assert k2[|name1|] == name2[|name1|];
    } else if |name2| < |name1| {
      assert k1[|name2|] == name1[|name2|];
    } else {
      assert k1[..|name1|] != k2[..|name2|];
    }
  }

  /** A stored result and the time from which it is no longer readable. */
  datatype Entry<V> = Entry(value: V, expires: int)

  /** `cache[key]` at time `now`: the stored value while it has not
      expired. */
  function Lookup<V>(entries: map<string, Entry<V>>, key: string, now: int): (r: Option<V>)
    ensures r.Some? <==> key in entries && now < entries[key].expires
  {
    if key in entries && now < entries[key].expires then Some(entries[key].value) else None
  }

  /** `cache[key] = value` at time `now`. */
  function Stored<V>(entries: map<string, Entry<V>>, key: string, value: V, now: int): map<string, Entry<V>>
  {
    entries[key := Entry(value, now + CacheTtl)]
  }

  /** A stored value is read back for `CACHE_TTL` seconds and not after;
      other keys read as before. */
  lemma LookupStored<V>(entries: map<string, Entry<V>>, key: string, value: V, now: int, key2: string, later: int)
    ensures Lookup(Stored(entries, key, value, now), key2, later)
      == if key2 == key then (if later < now + CacheTtl then Some(value) else None)
         else Lookup(entries, key2, later)
  {
  }

  /** The outcome of one wrapped call on a cache holding `entries`: the value
      returned, whether the function ran, and the entries afterwards.
      `result` is what the function returns when it runs. */
  function CallSpec<V>(entries: map<string, Entry<V>>, key: string, now: int, result: V): (V, bool, map<string, Entry<V>>)
  {
    match Lookup(entries, key, now)
    case Some(v) => (v, false, entries)
    case None => (result, true, Stored(entries, key, result, now))
  }

  /** Within `CACHE_TTL` seconds of a call that ran the function, a second
      call with the same key does not run it and returns what the first call
      returned. */
  lemma SecondCallHits<V>(entries: map<string, Entry<V>>, key: string, now: int, r1: V, later: int, r2: V)
    requires Lookup(entries, key, now).None? && now <= later < now + CacheTtl
    ensures CallSpec(entries, key, now, r1) == (r1, true, Stored(entries, key, r1, now))
    ensures CallSpec(Stored(entries, key, r1, now), key, later, r2) == (r1, false, Stored(entries, key, r1, now))
  {
    LookupStored(entries, key, r1, now, key, later);
  }

  /** A call made `CACHE_TTL` seconds or more after a call that ran the
      function runs it again. */
  lemma ExpiredCallRuns<V>(entries: map<string, Entry<V>>, key: string, now: int, r1: V, later: int, r2: V)
    requires Lookup(entries, key, now).None? && later >= now + CacheTtl
    ensures CallSpec(Stored(entries, key, r1, now), key, later, r2).1
  {
    LookupStored(entries, key, r1, now, key, later);
  }

  /** The shared `TTLCache(maxsize=MAX_CACHE_SIZE, ttl=CACHE_TTL)`. Expired
      entries may stay in the map; `Lookup` no longer returns them. */
  class TtlCache<V> {
    var entries: map<string, Entry<V>>

    constructor()
      ensures entries == map[]
    {
      entries := map[];
    }

    /** `cache.clear()`. */
    method Clear()
      modifies this
      ensures entries == map[]
    {
      entries := map[];
    }

    /** `cache[key] = value` at time `now`. */
    method Put(key: string, value: V, now: int)
      modifies this
      ensures entries == Stored(old(entries), key, value, now)
    {
      entries := entries[key := Entry(value, now + CacheTtl)];
    }

    /** `key in cache` at time `now`, then `cache[key]`. */
    method Get(key: string, now: int) returns (r: Option<V>)
      ensures r == Lookup(entries, key, now)
    {
      if key in entries && now < entries[key].expires {
        r := Some(entries[key].value);
      } else {
        r := None;
      }
    }
  }

  /** The wrapper `cache_decorator(ttl)` puts around a function named `name`,
      called with `args` and `kwargs` at time `now`; `result` is what the
      function returns if it runs. The decorator's own `ttl` plays no part:
      every entry lives `CACHE_TTL` seconds. */
  method CachedCall<V>(cache: TtlCache<V>, ttl: int, name: string, args: seq<string>, kwargs: seq<Kwarg>,
                       now: int, result: V) returns (r: V, ran: bool)
    modifies cache
    ensures (r, ran, cache.entries) == CallSpec(old(cache.entries), CacheKey(name, args, kwargs), now, result)
  {
    var key := CacheKey(name, args, kwargs);
    var hit := cache.Get(key, now);
    if hit.Some? {
      r, ran := hit.value, false;
    } else {
      r, ran := result, true;
      cache.Put(key, result, now);
    }
  }
}
