/** The caches of `piecrust/cache.py`: the stateless `NoCache` and the
    construction guard of `MemcacheCache`. */
module Cache {
  import opened Wrappers
  import opened Exceptions
  import opened Http

  /** The default `timeout` of `set`, in seconds, in both cache classes. */
  const DefaultTimeout: int := 60

  /** `NoCache` holds nothing, so all instances are the same value. */
  datatype NoCache = NoCache
  {
    /** Every lookup misses. */
    function Get(key: string): (v: Option<string>)
      ensures v.None?
    {
      None
    }

    /** Storing is a no-op: the cache after `set` is the cache before it. */
    function Set(key: string, value: string, timeout: int := DefaultTimeout): (c: NoCache)
      ensures c == this
    {
      this
    }
  }

  /** A lookup after any sequence of writes still misses. */
  lemma {:induction false} GetAfterSets(c: NoCache, writes: seq<(string, string, int)>, key: string)
    ensures SetAll(c, writes).Get(key).None?
    ensures SetAll(c, writes) == c
  {
    if writes != [] {
      GetAfterSets(c.Set(writes[0].0, writes[0].1, writes[0].2), writes[1..], key);
    }
  }

  /** The cache after performing each `(key, value, timeout)` write in turn. */
  function SetAll(c: NoCache, writes: seq<(string, string, int)>): NoCache {
    if writes == [] then c
    else SetAll(c.Set(writes[0].0, writes[0].1, writes[0].2), writes[1..])
  }

  /** The `pylibmc.Client` a `MemcacheCache` wraps, identified by the
      positional and keyword arguments it was built from. */
  datatype MemcacheClient = MemcacheClient(args: seq<string>, kwargs: map<string, string>)

  datatype MemcacheCache = MemcacheCache(conn: MemcacheClient)

  /** `MemcacheCache(*args, **kwargs)`: raises `ImproperlyConfigured` when
      `pylibmc` could not be imported, otherwise wraps a client built from the
      same arguments. */
  function NewMemcacheCache(pylibmcAvailable: bool, args: seq<string>, kwargs: map<string, string>)
      : (r: Result<MemcacheCache, Error>)
    ensures r.Failure? <==> !pylibmcAvailable
    ensures r.Failure? ==> r.error.Kind() == ImproperlyConfigured
    ensures r.Success? ==> r.value.conn == MemcacheClient(args, kwargs)
  {
    if !pylibmcAvailable then
      Failure(Exception(ImproperlyConfigured,
        "The 'pylibmc' package must be installed to use the 'MemcacheCache'."))
    else
      Success(MemcacheCache(MemcacheClient(args, kwargs)))
  }
}
