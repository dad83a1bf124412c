/**
  The read-through engine (cache.go). A call either finds the key in the
  store, or falls back to the caller's loader, checks the loaded value's
  dynamic type against the destination's, writes it back when caching is on,
  and copies it into the destination.

  The engine is a pure function from the repository (its store and default
  expiry), the call's arguments and the loader's already-evaluated outcome to
  a `Reply`: the call's error, the store and destination afterwards, and the
  trace of store accesses and loader runs it made. Request coalescing is a
  single direct run of the loader closure.
 */
module Cache {
  import opened Common
  import opened Options
  import GoCache
  import Store

  /** A cache repository: the store it reads through and its default expiry. */
  datatype Repository = Repository(cache: Store.Backend, expire: Duration)

  datatype RepoOption = WitchCacheExpireOption(expire: Duration)

  /** The repository option loop, left to right. */
  function ApplyRepoOptions(repo: Repository, opts: seq<RepoOption>): (r: Repository)
    ensures r.cache == repo.cache
    ensures opts == [] ==> r.expire == repo.expire
    ensures opts != [] ==> r.expire == opts[|opts| - 1].expire
    decreases |opts|
  {
    if opts == [] then repo
    else ApplyRepoOptions(repo, opts[..|opts| - 1]).(expire := opts[|opts| - 1].expire)
  }

  /** A new repository has a one-minute default expiry unless an option
      overrides it, the last such option winning. */
  function NewCacheRepository(cache: Store.Backend, opts: seq<RepoOption>): (r: Repository)
    ensures r.cache == cache
    ensures opts == [] ==> r.expire == Minute
    ensures opts != [] ==> r.expire == opts[|opts| - 1].expire
  {
    ApplyRepoOptions(Repository(cache, Minute), opts)
  }

  /** The configuration a call runs under: the repository's default with the
      call's options applied left to right. */
  function EffectiveConfig(repo: Repository, opts: seq<ConfigOption>): (c: Config)
    ensures c == Config(LastCondition(opts).GetOr(true), LastExpire(opts).GetOr(repo.expire))
  {
    ApplyAll(NewCacheConfig(repo.expire), opts)
  }

  /** What a call observably does, in order. */
  datatype Event =
    | StoreGet(key: string)
    | LoaderRun
    | StoreSet(key: string, value: Value, expire: Duration)

  /** The protocol order: read the store, then run the loader, then write. */
  function Phase(e: Event): nat
  {
    match e
    case StoreGet(_) => 0
    case LoaderRun => 1
    case StoreSet(_, _, _) => 2
  }

  /** The loader's outcome: its data (None for an untyped nil) or its error. */
  datatype LoaderOutcome = Ok(data: Option<Value>) | Err(error: Error)

  /** `reflect.TypeOf`: nil has no type. */
  function TypeOf(data: Option<Value>): Option<TypeTag>
  {
    match data
    case None => None
    case Some(v) => Some(v.typ)
  }

  /** The setter closure handed from the store attempt to the loader: it
      either ignores its argument or writes it back under the key. */
  datatype Setter = Discard | WriteBack(key: string, expire: Duration)

  /** The outcome of trying the store. */
  datatype Attempt = Attempt(setter: Setter, err: Status, dest: Dest, trace: seq<Event>)

  /** Trying the store: with caching off the store is not read and the
      attempt reports `ConditionErr`; otherwise the store's own answer
      decides, and a miss arms the write-back with the call's expiry. */
  function GetOrSetDataFunc(cache: Store.Backend, key: string, dest: Dest, config: Config): (a: Attempt)
    ensures a.err == Nil <==> config.isSave && cache.Holds(key)
    ensures !config.isSave ==> a.err == Fail(ConditionErr) && a.trace == [] && a.setter == Discard
    ensures config.isSave ==> a.trace == [StoreGet(key)]
    ensures a.err == Nil ==> a.setter == Discard && a.dest == CopyInto(dest, cache.entries[key].value)
    ensures a.err.Fail? ==> a.dest == dest
    ensures config.isSave && a.err.Fail? ==> a.setter == WriteBack(key, config.expire)
    // A failed read returns the store's own error unchanged.
    ensures config.isSave ==> a.err == Store.Get(cache, key, dest).err
    ensures config.isSave && a.err.Fail? ==>
      a.err == (if cache.getFault.Some? then Fail(cache.getFault.value) else Fail(KeyNorFound))
  {
    if !config.isSave then Attempt(Discard, Fail(ConditionErr), dest, [])
    else
      var got := Store.Get(cache, key, dest);
      if got.err == Nil then Attempt(Discard, Nil, got.dest, [StoreGet(key)])
      else Attempt(WriteBack(key, config.expire), got.err, dest, [StoreGet(key)])
  }

  /** The outcome of the loader closure. */
  datatype Flight = Flight(data: Option<Value>, err: Status, cache: Store.Backend, trace: seq<Event>)

  /** The loader closure: run the loader, reject an error or a value of the
      wrong dynamic type with no data, otherwise hand the value to the setter
      and return it together with the setter's error. */
  function Load(outcome: LoaderOutcome, dest: Dest, setter: Setter, cache: Store.Backend): (f: Flight)
    ensures f.trace != [] && f.trace[0] == LoaderRun
    ensures f.data.Some? <==> outcome.Ok? && TypeOf(outcome.data) == Some(dest.typ)
    ensures f.data.Some? ==> f.data == outcome.data && f.data.value.typ == dest.typ
    ensures outcome.Err? ==> f.err == Fail(outcome.error)
    ensures outcome.Ok? && f.data.None? ==> f.err == Fail(TypeMismatch)
    ensures f.data.None? || setter.Discard? ==> f.cache == cache && f.trace == [LoaderRun]
    ensures f.data.Some? && setter.WriteBack? ==>
      f.trace == [LoaderRun, StoreSet(setter.key, f.data.value, setter.expire)]
    // A well-typed load returns the setter's error and leaves the store as
    // the setter left it.
    ensures f.data.Some? && setter.Discard? ==> f.err == Nil
    ensures f.data.Some? && setter.WriteBack? ==>
      && f.err == Store.Set(cache, setter.key, f.data.value, setter.expire).err
      && f.cache == Store.Set(cache, setter.key, f.data.value, setter.expire).backend
  {
    match outcome
    case Err(e) => Flight(None, Fail(e), cache, [LoaderRun])
    case Ok(data) =>
      if TypeOf(data) != Some(dest.typ) then Flight(None, Fail(TypeMismatch), cache, [LoaderRun])
      else
        match setter
        case Discard => Flight(data, Nil, cache, [LoaderRun])
        case WriteBack(k, d) =>
          var st := Store.Set(cache, k, data.value, d);
          Flight(data, st.err, st.backend, [LoaderRun, StoreSet(k, data.value, d)])
  }

  /** The call is answered from the store. */
  predicate Hit(repo: Repository, key: string, opts: seq<ConfigOption>)
  {
    key != "" && EffectiveConfig(repo, opts).isSave && repo.cache.Holds(key)
  }

  /** A loader is supplied and yields a value of the destination's type. */
  predicate LoadsWellTyped(getDataFunc: Option<LoaderOutcome>, dest: Dest)
  {
    getDataFunc.Some? && getDataFunc.value.Ok? && TypeOf(getDataFunc.value.data) == Some(dest.typ)
  }

  function LoadedValue(getDataFunc: Option<LoaderOutcome>, dest: Dest): Value
    requires LoadsWellTyped(getDataFunc, dest)
  {
    getDataFunc.value.data.value
  }

  /** The call misses with caching on and a well-typed load, so it writes back. */
  predicate WritesBack(repo: Repository, key: string, dest: Dest, getDataFunc: Option<LoaderOutcome>, opts: seq<ConfigOption>)
  {
    key != "" && EffectiveConfig(repo, opts).isSave && !repo.cache.Holds(key) && LoadsWellTyped(getDataFunc, dest)
  }

  /** What a call returns and leaves behind. */
  datatype Reply = Reply(err: Status, cache: Store.Backend, dest: Dest, trace: seq<Event>)

  /** `GetCacheWithOptions`: the read-through call. */
  function GetCacheWithOptions(repo: Repository, key: string, dest: Dest, getDataFunc: Option<LoaderOutcome>,
                               opts: seq<ConfigOption>): (r: Reply)
    // An empty key is refused before anything else happens.
    ensures key == "" ==> r == Reply(Fail(KeyIsEmpty), repo.cache, dest, [])
    // The store is read exactly when the key is usable and caching is on.
    ensures StoreGet(key) in r.trace <==> key != "" && EffectiveConfig(repo, opts).isSave
    // The loader runs exactly when one is supplied and the store did not answer.
    ensures LoaderRun in r.trace <==> key != "" && getDataFunc.Some? && !Hit(repo, key, opts)
    // A write is attempted exactly on a cached miss with a well-typed load,
    // under the key, with the destination's type and the call's expiry.
    ensures (exists e :: e in r.trace && e.StoreSet?) <==> WritesBack(repo, key, dest, getDataFunc, opts)
    ensures forall e :: e in r.trace && e.StoreSet? ==>
      e.key == key && e.value.typ == dest.typ && e.expire == EffectiveConfig(repo, opts).expire
    // Each phase happens at most once, in protocol order.
    ensures forall i, j :: 0 <= i < j < |r.trace| ==> Phase(r.trace[i]) < Phase(r.trace[j])
    // No other key is ever touched, and the store changes only by a
    // successful write-back of the loaded value.
    ensures r.cache.entries - {key} == repo.cache.entries - {key}
    ensures r.cache ==
      if WritesBack(repo, key, dest, getDataFunc, opts) && repo.cache.setFault.None?
      then repo.cache.(entries := repo.cache.entries[key := GoCache.Entry(LoadedValue(getDataFunc, dest), EffectiveConfig(repo, opts).expire)])
      else repo.cache
    // The call succeeds exactly on a hit, or on a well-typed load that was
    // either not to be saved or saved without error.
    ensures r.err == Nil <==>
      Hit(repo, key, opts)
      || (key != "" && LoadsWellTyped(getDataFunc, dest) && (!EffectiveConfig(repo, opts).isSave || repo.cache.setFault.None?))
    // The destination receives the stored value on a hit, the loaded value
    // after a well-typed load (even if its write-back failed), and nothing otherwise.
    ensures r.dest ==
      if Hit(repo, key, opts) then CopyInto(dest, repo.cache.entries[key].value)
      else if key != "" && LoadsWellTyped(getDataFunc, dest) then CopyInto(dest, LoadedValue(getDataFunc, dest))
      else dest
  {
    if key == "" then Reply(Fail(KeyIsEmpty), repo.cache, dest, [])
    else
      var config := EffectiveConfig(repo, opts);
      var a := GetOrSetDataFunc(repo.cache, key, dest, config);
      if a.err == Nil then Reply(Nil, repo.cache, a.dest, a.trace)
      else if getDataFunc.None? then Reply(a.err, repo.cache, a.dest, a.trace)
      else
        var f := Load(getDataFunc.value, a.dest, a.setter, repo.cache);
        var dest' := if f.data.Some? then CopyInto(a.dest, f.data.value) else a.dest;
        assert f.data.Some? && a.setter.WriteBack? ==> (a.trace + f.trace)[|a.trace| + 1] in a.trace + f.trace;
        Reply(f.err, f.cache, dest', a.trace + f.trace)
  }
}
