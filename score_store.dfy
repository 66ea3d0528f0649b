/** The MySQL-backed score store of the scoring API: a time-limited score
  * cache kept in a dictionary and a bounded connection retry. Time is an
  * integer number of seconds supplied by the caller; the database driver is
  * an oracle telling, attempt by attempt, whether a connection was made. */
module ScoreStore {
  import opened Wrappers

  type String = seq<char>

  const Host: String := "localhost"
  const User: String := ""
  const Passwd: String := ""
  const Database: String := "otus_db"
  const Reconnect: nat := 10
  /** Lifetime of a cached score when the caller gives none: one hour. */
  const DefaultTimeout: int := 60 * 60

  /** One cache slot, the two-element list `[score, expiry]`. */
  datatype Entry = Entry(score: real, expiry: int)

  /** A handle returned by the database driver. */
  datatype Connection = Connection(id: nat)

  /** The dictionary behind the cache. It is an object of its own because the
    * class-level dictionary is shared by every store built without an
    * explicit `cache` argument. */
  class Cache {
    var entries: map<String, Entry>

    constructor ()
      ensures entries == map[]
    {
      entries := map[];
    }
  }

  // ---------------------------------------------------------------------
  // The cache as values
  // ---------------------------------------------------------------------

  /** The dictionary after `cache_set(key, score, timeout)` at time `now`. */
  function Stored(m: map<String, Entry>, key: String, score: real, now: int, timeout: int): (r: map<String, Entry>)
    ensures key in r && r[key] == Entry(score, now + timeout)
    ensures forall k :: k != key ==> (k in r <==> k in m)
    ensures forall k :: k != key && k in m ==> r[k] == m[k]
  {
    m[key := Entry(score, now + timeout)]
  }

  /** What `cache_get(key)` returns at time `now`. A present entry is always
    * truthy (a two-element list), so only presence and expiry matter. */
  function CachedScore(m: map<String, Entry>, key: String, now: int): Option<real>
  {
    if key in m && now <= m[key].expiry then Some(m[key].score) else None
  }

  /** The dictionary after `cache_get(key)` at time `now`: a stale entry for
    * `key` is deleted, nothing else changes. */
  function AfterGet(m: map<String, Entry>, key: String, now: int): map<String, Entry>
  {
    if key in m && m[key].expiry < now then m - {key} else m
  }

  /** A lookup answers exactly for a present, unexpired entry, and the key
    * survives the lookup exactly when its score was returned; every other
    * key is left as it was. */
  lemma CacheGetSpec(m: map<String, Entry>, key: String, now: int)
    ensures CachedScore(m, key, now).Some? <==> key in m && m[key].expiry >= now
    ensures CachedScore(m, key, now).Some? ==> CachedScore(m, key, now).value == m[key].score
    ensures key !in m ==> AfterGet(m, key, now) == m
    ensures key in m ==> (key in AfterGet(m, key, now) <==> CachedScore(m, key, now).Some?)
    ensures forall k :: k != key ==> (k in AfterGet(m, key, now) <==> k in m)
    ensures forall k :: k != key && k in m ==> AfterGet(m, key, now)[k] == m[k]
  {
  }

  /** Round trip: a score set at `setTime` with lifetime `timeout` is read
    * back, unchanged, at any time up to `setTime + timeout`; afterwards it
    * reads as missing and the lookup deletes it. */
  lemma SetThenGet(m: map<String, Entry>, key: String, score: real, setTime: int, timeout: int, now: int)
    ensures var m' := Stored(m, key, score, setTime, timeout);
            now <= setTime + timeout ==> CachedScore(m', key, now) == Some(score) && AfterGet(m', key, now) == m'
    ensures var m' := Stored(m, key, score, setTime, timeout);
            now > setTime + timeout ==> CachedScore(m', key, now) == None && key !in AfterGet(m', key, now)
  {
  }

  /** Setting one key leaves what every other key reads unchanged. */
  lemma SetKeepsOthers(m: map<String, Entry>, key: String, score: real, setTime: int, timeout: int, other: String, now: int)
    requires other != key
    ensures CachedScore(Stored(m, key, score, setTime, timeout), other, now) == CachedScore(m, other, now)
  {
  }

  /** A repeated lookup at the same time answers the same and changes nothing more. */
  lemma GetIdempotent(m: map<String, Entry>, key: String, now: int)
    ensures AfterGet(AfterGet(m, key, now), key, now) == AfterGet(m, key, now)
    ensures CachedScore(AfterGet(m, key, now), key, now) == CachedScore(m, key, now)
  {
  }

  // ---------------------------------------------------------------------
  // Connection retry
  // ---------------------------------------------------------------------

  /** The result of at most `remains` connection attempts, numbered from
    * `i`: the first connection obtained, or `None` when all fail. */
  function FirstConnection(attempt: nat -> Option<Connection>, i: nat, remains: nat): Option<Connection>
    decreases remains
  {
    if remains == 0 then None
    else if attempt(i).Some? then attempt(i)
    else FirstConnection(attempt, i + 1, remains - 1)
  }

  /** The retry yields a connection exactly when one of the `remains`
    * attempts succeeds, and then it is the earliest successful one. */
  lemma {:induction false} FirstConnectionSpec(attempt: nat -> Option<Connection>, i: nat, remains: nat)
    ensures FirstConnection(attempt, i, remains).None? <==> forall j :: i <= j < i + remains ==> attempt(j).None?
    ensures FirstConnection(attempt, i, remains).Some? ==>
              exists j :: i <= j < i + remains && attempt(j) == FirstConnection(attempt, i, remains)
                          && forall l :: i <= l < j ==> attempt(l).None?
    decreases remains
  {
    if remains > 0 && attempt(i).None? {
      FirstConnectionSpec(attempt, i + 1, remains - 1);
      var r := FirstConnection(attempt, i, remains);
      if r.Some? {
        var j :| i + 1 <= j < i + 1 + (remains - 1) && attempt(j) == r
                 && forall l :: i + 1 <= l < j ==> attempt(l).None?;
        assert forall l :: i <= l < j ==> attempt(l).None?;
      }
    }
  }

  /** Attempts made by the retry: up to and including the first success,
    * never more than `remains`. */
  function AttemptsMade(attempt: nat -> Option<Connection>, i: nat, remains: nat): (n: nat)
    ensures n <= remains
    ensures FirstConnection(attempt, i, remains).None? ==> n == remains
    ensures FirstConnection(attempt, i, remains).Some? ==> n >= 1 && attempt(i + n - 1) == FirstConnection(attempt, i, remains)
    decreases remains
  {
    if remains == 0 then 0
    else if attempt(i).Some? then 1
    else 1 + AttemptsMade(attempt, i + 1, remains - 1)
  }

  // ---------------------------------------------------------------------
  // The store
  // ---------------------------------------------------------------------

  class Store {
    const host: String
    const user: String
    const passwd: String
    const db: String
    const reconnect: nat
    const cache: Cache
    var conn: Option<Connection>

    constructor (host: String, user: String, passwd: String, db: String, reconnect: nat, cache: Cache, conn: Option<Connection>)
      ensures this.host == host && this.user == user && this.passwd == passwd && this.db == db
      ensures this.reconnect == reconnect && this.cache == cache && this.conn == conn
    {
      this.host := host;
      this.user := user;
      this.passwd := passwd;
      this.db := db;
      this.reconnect := reconnect;
      this.cache := cache;
      this.conn := conn;
    }

    /** `Store()` with every default: the module-level settings, no
      * connection, and the class-level dictionary `classCache`. */
    constructor Default(classCache: Cache)
      ensures host == Host && user == User && passwd == Passwd && db == Database
      ensures reconnect == Reconnect && cache == classCache && conn == None
    {
      host := Host;
      user := User;
      passwd := Passwd;
      db := Database;
      reconnect := Reconnect;
      cache := classCache;
      conn := None;
    }

    /** `cache_set`: store `[score, now + timeout]`, overwriting any entry. */
    method CacheSet(key: String, score: real, now: int, timeout: int)
      modifies cache
      ensures cache.entries == Stored(old(cache.entries), key, score, now, timeout)
    {
      cache.entries := cache.entries[key := Entry(score, now + timeout)];
    }

    /** `cache_get`: the score of a live entry; a stale one is deleted. */
    method CacheGet(key: String, now: int) returns (r: Option<real>)
      modifies cache
      ensures r == CachedScore(old(cache.entries), key, now)
      ensures cache.entries == AfterGet(old(cache.entries), key, now)
    {
      if key in cache.entries {
        if cache.entries[key].expiry < now {
          cache.entries := cache.entries - {key};
          r := None;
        } else {
          r := Some(cache.entries[key].score);
        }
      } else {
        r := None;
      }
    }

    /** `connect`: try the driver while attempts remain; keep and return the
      * first connection. When every attempt fails the loop ends, the method
      * returns `None` and the previous connection stays in place.
      * `attempt(i)` is what the driver does on the i-th call. */
    method Connect(attempt: nat -> Option<Connection>) returns (r: Option<Connection>)
      modifies this
      ensures r == FirstConnection(attempt, 0, reconnect)
      ensures conn == (if r.Some? then r else old(conn))
    {
      var remains := reconnect;
      var i := 0;
      while remains != 0
        invariant i + remains == reconnect
        invariant FirstConnection(attempt, i, remains) == FirstConnection(attempt, 0, reconnect)
        invariant conn == old(conn)
      {
        var c := attempt(i);
        if c.Some? {
          conn := c;
          return c;
        }
        remains := remains - 1;
        i := i + 1;
      }
      r := None;
    }
  }

  /** Two stores built with the default `cache` argument see each other's
    * entries: a score set through one is read back through the other. */
  method DefaultStoresShareCache(classCache: Cache, key: String, score: real, now: int) returns (seen: Option<real>)
    modifies classCache
    ensures seen == Some(score)
    ensures classCache.entries == Stored(old(classCache.entries), key, score, now, DefaultTimeout)
  {
    var first := new Store.Default(classCache);
    var second := new Store.Default(classCache);
    first.CacheSet(key, score, now, DefaultTimeout);
    seen := second.CacheGet(key, now);
  }
}
