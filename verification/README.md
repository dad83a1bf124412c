# qcache read-through cache, modelled in Dafny

This project models the core of qcache, a Go read-through cache. A caller asks
for a key and passes a destination and, optionally, a loader. The engine
answers from the store when it can. Otherwise it runs the loader. It checks that
the loaded value has the destination's dynamic type, writes the value back with
the call's expiry when caching is on, and copies it into the destination.

The model has one module per source file:

- `Common`: error values, durations, dynamically typed values, destinations.
- `GoCache` (store/go-cache.go): `Set`, `Get`, `Del` and `Clear` on a finite map.
- `Store` (store/store.go): the two-method store interface. A `Backend` is the
  go-cache map, optionally made to fail every `Get` or every `Set` with a fixed
  error. A read fault stands for a backend read that fails cleanly, such as a
  lost connection; a write fault stands for a backend write that fails.
- `Options` (options.go): the per-call configuration and its options.
- `Cache` (cache.go): the repository, its options, the store attempt
  `getOrSetDataFunc`, the loader closure and `GetCacheWithOptions`.
- `CacheProps`: branch-by-branch guarantees of one call, and of calls in sequence.
- `Sessions` (session.go, plus `GetKey` from cache.go): the fluent builder and `Find`.

A call is a pure function. It returns a `Reply` holding:

- the Go `error` (`Nil` or `Fail(e)`);
- the store afterwards;
- the destination afterwards;
- a trace of what the call did: `StoreGet`, `LoaderRun` and `StoreSet` events.

The trace is what lets the contracts say that the store was not read, that the
loader did not run, or that no write was attempted. The loader is passed as its
already-evaluated outcome: `Ok(data)` or `Err(e)`. Here `data` is `None` for an
untyped nil. `reflect.TypeOf` becomes an abstract type tag. `copier.Copy`
becomes assignment of the value's payload into the destination, which keeps its
own type.

Where the code and its documentation disagree, the model follows the code:

- cache.go:44 calls `newCacheConfig(repo.expire)`, but options.go defines no
  `newCacheConfig`. It is modelled as `Config(isSave: true, expire: d)`. So a
  direct call defaults to the repository's expiry: one minute, unless
  `WitchCacheExpireOption` sets another. The fixed 3 s of
  `NewDefaultCacheConfig` is not used by the engine.
- session.go:40 calls `GetCacheWithOptions` without the `ctx` argument that the
  interface at cache.go:15 requires. No context is modelled anywhere.
- The tests call `WithKeyExpireOption`, which options.go does not define. It is
  read as `WithExpireOption`.
- A failing write-back `Set` is returned as the call's error. The loaded value
  is still copied into the destination (cache.go:67-75).
- The session has no context setter. Because `Find` always passes both options,
  a plain session caches for 3 s, not for the repository's default expiry.

## Model

| member | source | states |
|---|---|---|
| Common.CopyInto | cache.go:73 | copying a value into a destination keeps the destination's type and gives it the value's contents |
| GoCache.Set | store/go-cache.go:18-21 | Set never fails, stores the value with its expiry under the key, and leaves every other key's entry unchanged |
| GoCache.Get | store/go-cache.go:23-29 | Get succeeds exactly when the key is present and then copies the stored value; an absent key gives KeyNorFound and leaves the destination untouched |
| GoCache.Del | store/go-cache.go:31-34 | Del returns nil, removes the key and leaves every other key unchanged |
| GoCache.Clear | store/go-cache.go:36-38 | Clear returns nil and leaves the store contents exactly as they were |
| GoCache.GetAfterSet | store/go-cache.go:18-29 | a Get right after Set(k, v) succeeds and fills the destination with v |
| GoCache.GetAfterSetOther | store/go-cache.go:18-21 | a Set under one key does not change what a Get of any other key returns |
| GoCache.GetAfterDel | store/go-cache.go:31-34 | after Del(k), Get(k) returns KeyNorFound and leaves the destination as it was |
| GoCache.DelUndoesSet | store/go-cache.go:18-34 | Set(k, v) followed by Del(k) leaves the store as Del(k) alone would |
| Store.Get | store/store.go:11-14 | a backend Get succeeds exactly when it has no read fault and holds the key; any error leaves the destination untouched; a plain miss is KeyNorFound |
| Store.Set | store/store.go:11-14 | a backend Set overwrites the key's entry unconditionally, or fails with its fault and changes nothing |
| Store.GoCacheBackendAgrees | store/go-cache.go:18-29 | a backend without faults behaves exactly like the go-cache store on Get and Set |
| Options.NewDefaultCacheConfig | options.go:16-18 | the default configuration caches, with an expiry of 3 seconds |
| Options.NewCacheConfig | cache.go:44 | the per-call default caches, with the expiry it is given |
| Options.Apply | options.go:22-32 | WithConditionOption sets only isSave and WithExpireOption sets only expire, each storing its argument without validation (zero or negative expiry included) |
| Options.ApplyAll | cache.go:45-47 | applying options left to right gives each field the value of the last option touching it, or its starting value when none does |
| Options.ApplyAllAppend | cache.go:45-47 | applying a concatenated option list equals applying the two lists one after the other |
| Options.ApplyIdempotent | options.go:22-32 | applying the same option twice gives the same configuration as applying it once |
| Options.ApplyAllIdempotent | options.go:20-32 | applying the same option list twice gives the same configuration as applying it once |
| Options.DifferentFieldsCommute | options.go:22-32 | a condition option and an expire option give the same configuration in either order |
| Options.LaterOptionOverrides | options.go:20-32 | an option appended to a list decides its own field and leaves the other field as the list left it |
| Cache.ApplyRepoOptions | cache.go:34-36 | repository options keep the store and set the default expiry to the last option's value |
| Cache.EffectiveConfig | cache.go:44-47 | a call's configuration is the repository default (caching on, repository expiry) overridden field by field by the last option touching the field |
| Cache.NewCacheRepository | cache.go:32-38 | a new repository keeps the given store; its default expiry is one minute unless an option overrides it, the last one winning |
| Cache.GetOrSetDataFunc | cache.go:83-96 | with caching off the store is not read and ConditionErr is returned with a no-op setter; otherwise the attempt succeeds exactly when the store holds the key, a hit copies the stored value and disarms the setter, and a miss returns the store's own error unchanged (the read fault, or KeyNorFound), leaves the destination alone and arms a write-back with the call's expiry |
| Cache.Load | cache.go:57-71 | the loader closure returns data exactly when the loader succeeds with a value of the destination's type; a loader error is returned verbatim and a type mismatch gives TypeMismatch, both without data and without touching the store; a well-typed load is handed to the setter and returned with the setter's error, leaving the store as the setter left it |
| Cache.GetCacheWithOptions | cache.go:40-77 | an empty key is refused with nothing read, run or written; the store is read exactly when caching is on; the loader runs exactly when supplied and the store did not answer; a write is attempted exactly on a caching miss with a well-typed load, under the key, with the call's expiry; phases happen at most once, in order; no other key changes; the call succeeds exactly on a hit or on a well-typed load that was either not saved or saved without error; the destination receives the stored or loaded value, or nothing |
| CacheProps.EmptyKeyShortCircuits | cache.go:41-43 | an empty key returns "key is empty" with an empty trace, the store unchanged and the destination unchanged |
| CacheProps.NewRepositoryDefaults | cache.go:32-38 | with no call options, a fresh repository's calls cache with a one-minute expiry unless a repository option set another |
| CacheProps.BypassNeverTouchesStore | cache.go:84-86 | with caching off the store is neither read nor written and only the loader runs; without a loader the call returns ConditionErr, and with a well-typed load it succeeds and fills the destination |
| CacheProps.HitSkipsLoader | cache.go:49-52 | on a hit the call returns nil after a single store read: the loader does not run, nothing is written, and the destination holds the stored value |
| CacheProps.MissWithoutLoaderPropagates | cache.go:53-55 | without a loader, a miss or ConditionErr is returned unchanged, with store and destination untouched |
| CacheProps.LoaderErrorPropagates | cache.go:58-61 | a loader error is returned verbatim, no Set is attempted and the destination is not copied into |
| CacheProps.TypeMismatchRejected | cache.go:63-65 | a loaded value whose type differs from the destination's gives "get data is not expected as value", with no Set and the destination untouched |
| CacheProps.WriteBackOnMiss | cache.go:67-74 | a caching miss with a well-typed load maps the key to the loaded value with the call's expiry, changes no other key, returns nil and fills the destination |
| CacheProps.WriteBackFailureStillFillsDest | cache.go:67-75 | a failing write-back Set returns its error, but the destination is still filled with the loaded value |
| CacheProps.CallPreservesWellTypedStore | cache.go:62-69 | if every stored value has the type its key's readers expect, a call with such a destination keeps that true: the loader path never stores a value of another type |
| CacheProps.ReadThroughThenHit | cache_test.go:115-123 | after a load is written back, the next caching call for the key hits with the same value and does not run its loader |
| CacheProps.BypassIsInvisible | cache.go:84-86 | a call with caching off changes nothing that a later call can observe |
| Sessions.NewSession | session.go:14-22 | a new session has the key, caching on, a 3 second expiry and no loader |
| Sessions.GetKey | cache.go:79-81 | GetKey opens a session with the key, caching on, a 3 second expiry and no loader |
| Sessions.SetIsSave | session.go:24-27 | SetIsSave changes only the caching flag |
| Sessions.SetExpire | session.go:29-32 | SetExpire changes only the expiry |
| Sessions.SetGetDataFunc | session.go:34-37 | SetGetDataFunc changes only the loader |
| Sessions.Find | session.go:39-41 | Find runs under exactly the session's caching flag and expiry: it equals a direct call with the session's key and loader on a repository whose default expiry is the session's, with caching switched off when the session's is |
| Sessions.FindUsesSessionConfig | session.go:39-41 | Find runs under exactly the session's caching flag and expiry, and its reply does not depend on the repository's default expiry |
| Sessions.PlainSessionUsesThreeSeconds | session.go:14-22 | a session with no setters applied runs under the 3 second default, not the repository's default |
| Sessions.BypassFindThenFindMisses | cache_test.go:76-85 | a session with caching off and a loader returns the loaded value, yet a later plain session on the same absent key still gets KeyNorFound |
| Sessions.SavedFindThenFindHits | cache_test.go:62-74 | a session with caching on and a loader stores the value, so a later plain session on the key hits with it and runs no loader |

## Left out

- Request coalescing through `singleflight` (cache.go:19, cache.go:57) is modelled as one direct call of the loader closure. Its guarantee of at most one loader in flight per key across goroutines is a concurrency property and is not stated.
- Expiry timing belongs to the go-cache, freecache and redis libraries. An entry only records the expiry it was stored with, and no entry ever expires in the model.
- The freecache and redis stores (store/freecache.go, store/go-redis.go) and the JSON and protobuf codecs are not modelled. Their observable failures are covered by the `Backend` read and write faults.
- `copier.Copy` is modelled as payload assignment. Its field-by-field conversion between struct shapes, and the error it can return from the go-cache `Get`, are not modelled.
- `context.Context` is not modelled. The engine never inspects it, and session.go:40 does not pass it.
- Cache.GetCacheWithOptions: a loader that returns a typed nil pointer with no error is not modelled, because a `Value` is never nil. In the source such data passes the type check at cache.go:63 and is handed to the setter. `copier.Copy` then has nothing to copy from, so the call returns nil with the destination untouched. The model instead fills the destination on every well-typed load.
- CacheProps.ReadThroughThenHit: sharing between values is not modelled. go-cache keeps the loader's own pointer (store/go-cache.go:19), and `copier.Copy` copies fields shallowly (cache.go:73, store/go-cache.go:28). So slices, maps and pointers inside a value are shared by the loader, the store and every destination, and a later change made through any of them changes what later hits return. The model's values are immutable, so a hit always returns exactly what was written.
- Sessions.SetIsSave, Sessions.SetExpire and Sessions.SetGetDataFunc return an updated copy of the session. The source changes `*session` in place and returns the same pointer (session.go:24-37). The two agree for the chained use the builder is made for, but an alias kept to a session before a setter call is not modelled.
- Store.Get: a decoding failure that leaves the destination partly filled is not modelled. A JSON decoding type error in the freecache and redis stores skips the field and keeps decoding, so the destination can be partly written, and that partial fill survives a no-loader miss or a loader error. The model's read fault always leaves the destination untouched.
- A destination is always a non-nil pointer, as every caller passes one. The nil destination, whose `reflect.TypeOf` is nil and into which `copier.Copy` cannot write, is not modelled.
- The session's client pointer is not a field. `Find` takes the repository as it is at the moment of the call.
- `NewGoCacheStore` and the `QCache` interface are constructors and declarations. `Store.GoCacheBackend` stands for the former.
- The test harness (cache_test.go) needs real backends and goroutines. Only its sequential scenarios are restated, as lemmas.
