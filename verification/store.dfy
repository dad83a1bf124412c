/**
  The storage interface the engine requires (store/store.go): `Get` into a
  destination and `Set` with an expiry. A `Backend` is the go-cache map of
  store/go-cache.go, optionally made to fail every `Get` or every `Set` with a
  fixed error. A read fault is a read that fails without touching the
  destination, such as a lost connection; a write fault is a write that fails
  and stores nothing. The engine treats either like any other failure.
 */
module Store {
  import opened Common
  import GoCache

  datatype Backend = Backend(entries: GoCache.Entries, getFault: Option<Error>, setFault: Option<Error>) {
    /** A `Get` of `key` would succeed. */
    predicate Holds(key: string) {
      getFault.None? && key in entries
    }
  }

  /** The result of a `Set`: its error and the backend afterwards. */
  datatype Stored = Stored(err: Status, backend: Backend)

  /** The in-process store, which never fails. */
  function GoCacheBackend(m: GoCache.Entries): (b: Backend)
    ensures b.entries == m && b.getFault.None? && b.setFault.None?
  {
    Backend(m, None, None)
  }

  /** `Get` fills the destination from the stored value on success; on any
      error the destination is left untouched. */
  function Get(b: Backend, key: string, dest: Dest): (r: GoCache.Read)
    ensures r.err == Nil <==> b.Holds(key)
    ensures r.err.Fail? ==> r.dest == dest
    ensures r.err == Nil ==> r.dest == CopyInto(dest, b.entries[key].value)
    ensures b.getFault.None? && key !in b.entries ==> r.err == Fail(KeyNorFound)
    ensures b.getFault.Some? ==> r.err == Fail(b.getFault.value)
  {
    match b.getFault
    case Some(e) => GoCache.Read(Fail(e), dest)
    case None => GoCache.Get(b.entries, key, dest)
  }

  /** `Set` overwrites the entry under `key` unconditionally, or fails and
      changes nothing. */
  function Set(b: Backend, key: string, v: Value, expire: Duration): (r: Stored)
    ensures r.err == Nil <==> b.setFault.None?
    ensures r.err.Fail? ==> r.err == Fail(b.setFault.value) && r.backend == b
    ensures r.err == Nil ==> r.backend == b.(entries := b.entries[key := GoCache.Entry(v, expire)])
  {
    match b.setFault
    case Some(e) => Stored(Fail(e), b)
    case None => Stored(Nil, b.(entries := GoCache.Set(b.entries, key, v, expire).entries))
  }

  /** With no faults, the backend is exactly the go-cache store. */
  lemma GoCacheBackendAgrees(m: GoCache.Entries, key: string, v: Value, expire: Duration, dest: Dest)
    ensures Get(GoCacheBackend(m), key, dest) == GoCache.Get(m, key, dest)
    ensures Set(GoCacheBackend(m), key, v, expire)
         == Stored(GoCache.Set(m, key, v, expire).err, GoCacheBackend(GoCache.Set(m, key, v, expire).entries))
  {
  }
}
