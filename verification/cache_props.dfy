/**
  What one read-through call guarantees on each of its branches, and what
  follows for calls made one after another on the same store.
 */
module CacheProps {
  import opened Common
  import opened Options
  import GoCache
  import Store
  import opened Cache

  /** An empty key is refused before the configuration is built, the store is
      read or the loader runs; store and destination are unchanged. */
  lemma EmptyKeyShortCircuits(repo: Repository, dest: Dest, getDataFunc: Option<LoaderOutcome>, opts: seq<ConfigOption>)
    ensures var r := GetCacheWithOptions(repo, "", dest, getDataFunc, opts);
      r.err == Fail(KeyIsEmpty) && r.cache == repo.cache && r.dest == dest && r.trace == []
  {
  }

  /** With no call options, a fresh repository's calls cache with a one-minute
      expiry unless a repository option chose another. */
  lemma NewRepositoryDefaults(cache: Store.Backend, ropts: seq<RepoOption>)
    ensures EffectiveConfig(NewCacheRepository(cache, ropts), []).isSave
    ensures ropts == [] ==> EffectiveConfig(NewCacheRepository(cache, ropts), []).expire == Minute
    ensures ropts != [] ==> EffectiveConfig(NewCacheRepository(cache, ropts), []).expire == ropts[|ropts| - 1].expire
  {
  }

  /** With caching off the store is neither read nor written: only the loader
      runs. Without a loader the call reports `ConditionErr`; with a
      well-typed load it succeeds and fills the destination. */
  lemma BypassNeverTouchesStore(repo: Repository, key: string, dest: Dest, getDataFunc: Option<LoaderOutcome>,
                                opts: seq<ConfigOption>)
    requires key != ""
    requires !EffectiveConfig(repo, opts).isSave
    ensures var r := GetCacheWithOptions(repo, key, dest, getDataFunc, opts);
      && r.cache == repo.cache
      && (forall e :: e in r.trace ==> e == LoaderRun)
      && (getDataFunc.None? ==> r.err == Fail(ConditionErr) && r.dest == dest)
      && (LoadsWellTyped(getDataFunc, dest) ==> r.err == Nil && r.dest == CopyInto(dest, LoadedValue(getDataFunc, dest)))
  {
  }

  /** A hit answers the call: the loader does not run, nothing is written, and
      the destination holds the stored value, whatever loader was supplied. */
  lemma HitSkipsLoader(repo: Repository, key: string, dest: Dest, getDataFunc: Option<LoaderOutcome>,
                       opts: seq<ConfigOption>)
    requires Hit(repo, key, opts)
    ensures var r := GetCacheWithOptions(repo, key, dest, getDataFunc, opts);
      && r.err == Nil
      && r.trace == [StoreGet(key)]
      && r.cache == repo.cache
      && r.dest == CopyInto(dest, repo.cache.entries[key].value)
  {
  }

  /** Without a loader, a miss (or `ConditionErr`) is returned as the store
      attempt produced it, and nothing is written or copied. */
  lemma MissWithoutLoaderPropagates(repo: Repository, key: string, dest: Dest, opts: seq<ConfigOption>)
    requires key != "" && !Hit(repo, key, opts)
    ensures var r := GetCacheWithOptions(repo, key, dest, None, opts);
      && r.cache == repo.cache
      && r.dest == dest
      && r.err == (if !EffectiveConfig(repo, opts).isSave then Fail(ConditionErr)
                   else Store.Get(repo.cache, key, dest).err)
      && (EffectiveConfig(repo, opts).isSave && repo.cache.getFault.None? ==> r.err == Fail(KeyNorFound))
  {
  }

  /** A loader error is returned verbatim; no write is attempted and the
      destination is left alone. */
  lemma LoaderErrorPropagates(repo: Repository, key: string, dest: Dest, e: Error, opts: seq<ConfigOption>)
    requires key != "" && !Hit(repo, key, opts)
    ensures var r := GetCacheWithOptions(repo, key, dest, Some(Err(e)), opts);
      && r.err == Fail(e)
      && r.cache == repo.cache
      && r.dest == dest
      && (forall ev :: ev in r.trace ==> !ev.StoreSet?)
  {
  }

  /** Loaded data whose dynamic type is not the destination's (an untyped nil
      included) is refused: no write, destination untouched. */
  lemma TypeMismatchRejected(repo: Repository, key: string, dest: Dest, data: Option<Value>, opts: seq<ConfigOption>)
    requires key != "" && !Hit(repo, key, opts)
    requires TypeOf(data) != Some(dest.typ)
    ensures var r := GetCacheWithOptions(repo, key, dest, Some(Ok(data)), opts);
      && r.err == Fail(TypeMismatch)
      && r.cache == repo.cache
      && r.dest == dest
      && (forall ev :: ev in r.trace ==> !ev.StoreSet?)
  {
  }

  /** A miss with caching on and a well-typed load stores the value under the
      key with the call's expiry, changes no other key, and fills the
      destination. */
  lemma WriteBackOnMiss(repo: Repository, key: string, dest: Dest, v: Value, opts: seq<ConfigOption>)
    requires key != "" && EffectiveConfig(repo, opts).isSave && !repo.cache.Holds(key)
    requires v.typ == dest.typ && repo.cache.setFault.None?
    ensures var r := GetCacheWithOptions(repo, key, dest, Some(Ok(Some(v))), opts);
      && r.err == Nil
      && r.cache.entries == repo.cache.entries[key := GoCache.Entry(v, EffectiveConfig(repo, opts).expire)]
      && r.dest == CopyInto(dest, v)
  {
  }

  /** A failing write-back is reported, but the destination still receives
      the loaded value and the store is unchanged. */
  lemma WriteBackFailureStillFillsDest(repo: Repository, key: string, dest: Dest, v: Value, opts: seq<ConfigOption>)
    requires key != "" && EffectiveConfig(repo, opts).isSave && !repo.cache.Holds(key)
    requires v.typ == dest.typ && repo.cache.setFault.Some?
    ensures var r := GetCacheWithOptions(repo, key, dest, Some(Ok(Some(v))), opts);
      && r.err == Fail(repo.cache.setFault.value)
      && r.cache == repo.cache
      && r.dest == CopyInto(dest, v)
  {
  }

  /** Every key of the store holds a value of the type its readers expect. */
  ghost predicate WellTypedStore(entries: GoCache.Entries, typing: map<string, TypeTag>)
  {
    forall k :: k in entries ==> k in typing && entries[k].value.typ == typing[k]
  }

  /** Calls whose destinations have the type expected for their key keep the
      store well typed: the engine never stores a value of another type. */
  lemma CallPreservesWellTypedStore(repo: Repository, key: string, dest: Dest, getDataFunc: Option<LoaderOutcome>,
                                    opts: seq<ConfigOption>, typing: map<string, TypeTag>)
    requires WellTypedStore(repo.cache.entries, typing)
    requires key in typing && dest.typ == typing[key]
    ensures WellTypedStore(GetCacheWithOptions(repo, key, dest, getDataFunc, opts).cache.entries, typing)
  {
    var r := GetCacheWithOptions(repo, key, dest, getDataFunc, opts);
    forall k | k in r.cache.entries
      ensures k in typing && r.cache.entries[k].value.typ == typing[k]
    {
      if k != key {
        assert k in r.cache.entries - {key};
        assert (r.cache.entries - {key})[k] == r.cache.entries[k];
        assert k in repo.cache.entries - {key};
      }
    }
  }

  /** Read-through: after a load is written back, the next caching call for
      the key is answered from the store with the same value, and its loader
      does not run. */
  lemma ReadThroughThenHit(repo: Repository, key: string, dest1: Dest, v: Value, opts1: seq<ConfigOption>,
                           dest2: Dest, getDataFunc2: Option<LoaderOutcome>, opts2: seq<ConfigOption>)
    requires key != "" && key !in repo.cache.entries
    requires repo.cache.getFault.None? && repo.cache.setFault.None?
    requires EffectiveConfig(repo, opts1).isSave && EffectiveConfig(repo, opts2).isSave
    requires v.typ == dest1.typ
    ensures var r1 := GetCacheWithOptions(repo, key, dest1, Some(Ok(Some(v))), opts1);
      var r2 := GetCacheWithOptions(repo.(cache := r1.cache), key, dest2, getDataFunc2, opts2);
      && r1.err == Nil && r2.err == Nil
      && r1.dest.payload == v.payload && r2.dest.payload == v.payload
      && LoaderRun !in r2.trace
  {
    var r1 := GetCacheWithOptions(repo, key, dest1, Some(Ok(Some(v))), opts1);
    assert EffectiveConfig(repo.(cache := r1.cache), opts2) == EffectiveConfig(repo, opts2);
    assert r1.cache.entries[key].value == v;
  }

  /** A call with caching off changes nothing a later call can observe. */
  lemma BypassIsInvisible(repo: Repository, key: string, dest1: Dest, getDataFunc1: Option<LoaderOutcome>,
                          opts1: seq<ConfigOption>, key2: string, dest2: Dest, getDataFunc2: Option<LoaderOutcome>,
                          opts2: seq<ConfigOption>)
    requires !EffectiveConfig(repo, opts1).isSave
    ensures var r1 := GetCacheWithOptions(repo, key, dest1, getDataFunc1, opts1);
      GetCacheWithOptions(repo.(cache := r1.cache), key2, dest2, getDataFunc2, opts2)
      == GetCacheWithOptions(repo, key2, dest2, getDataFunc2, opts2)
  {
    var r1 := GetCacheWithOptions(repo, key, dest1, getDataFunc1, opts1);
    assert repo.(cache := r1.cache) == repo;
  }
}
