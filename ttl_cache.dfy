/** The time-to-live cache rule shared by the Python persona and catalog
    loaders and the TypeScript persona loader: an entry stamped at `at`
    is served while `now - at < ttl`; otherwise the loader fetches, stores
    a successful result stamped with `now`, and leaves the cache as it was
    when the fetch fails. */
module TtlCache {
  import opened Wrappers

  datatype Stamped<T> = Stamped(data: T, at: int)

  type Entries<T> = map<string, Stamped<T>>

  predicate IsFresh<T>(m: Entries<T>, key: string, now: int, ttl: int)
  {
    key in m && now - m[key].at < ttl
  }

  /** What one load produces: the value or the fetch error, the new cache,
      and whether the fetch was issued. */
  datatype Outcome<T> = Outcome(result: Result<T, string>, entries: Entries<T>, fetched: bool)

  /** One load of `key`; `fetch` is what the store would answer if asked. */
  function Load<T>(m: Entries<T>, key: string, now: int, ttl: int, fetch: Result<T, string>): (o: Outcome<T>)
    ensures o.fetched <==> !IsFresh(m, key, now, ttl)
    ensures !o.fetched ==> o.result == Success(m[key].data) && o.entries == m
    ensures o.fetched ==> o.result == fetch
    ensures o.result.Failure? ==> o.entries == m
    ensures o.result.Success? ==> key in o.entries && o.entries[key].data == o.result.value
    ensures o.fetched && o.result.Success? ==> o.entries == m[key := Stamped(o.result.value, now)]
    ensures forall k | k != key :: (k in o.entries <==> k in m) && (k in m ==> o.entries[k] == m[k])
  {
    if IsFresh(m, key, now, ttl) then Outcome(Success(m[key].data), m, false)
    else if fetch.Success? then Outcome(fetch, m[key := Stamped(fetch.value, now)], true)
    else Outcome(fetch, m, true)
  }

  /** A stale entry is never served: once it has expired, a failing fetch
      yields the error even though the key is still cached. */
  lemma StaleEntryNotServed<T>(m: Entries<T>, key: string, now: int, ttl: int, error: string)
    requires key in m && now - m[key].at >= ttl
    ensures Load(m, key, now, ttl, Failure(error)) == Outcome(Failure(error), m, true)
  {
  }

  /** After a successful fetch, a second load of the same key within the
      time to live is answered from the cache, whatever the store would say. */
  lemma {:induction false} SecondLoadIsAHit<T>(m: Entries<T>, key: string, now: int, later: int, ttl: int,
                                             v: T, fetch2: Result<T, string>)
    requires !IsFresh(m, key, now, ttl)
    requires now <= later < now + ttl
    ensures var o1 := Load(m, key, now, ttl, Success(v));
            Load(o1.entries, key, later, ttl, fetch2) == Outcome(Success(v), o1.entries, false)
  {
    var o1 := Load(m, key, now, ttl, Success(v));
    assert o1.entries == m[key := Stamped(v, now)];
    assert IsFresh(o1.entries, key, later, ttl);
  }

  /** A successful fetch at `now` is served for `ttl` only: a load at or
      after `now + ttl` issues exactly one fresh fetch and answers with it. */
  lemma {:induction false} ExpiredAfterTtl<T>(m: Entries<T>, key: string, now: int, later: int, ttl: int,
                                            v: T, fetch2: Result<T, string>)
    requires !IsFresh(m, key, now, ttl)
    requires later >= now + ttl
    ensures var o1 := Load(m, key, now, ttl, Success(v));
            var o2 := Load(o1.entries, key, later, ttl, fetch2);
            o2.fetched && o2.result == fetch2
  {
    var o1 := Load(m, key, now, ttl, Success(v));
    assert o1.entries[key] == Stamped(v, now);
    assert !IsFresh(o1.entries, key, later, ttl);
  }
}
