/**
  The in-process reference store (store/go-cache.go): a go-cache instance seen
  as a finite map from keys to entries. Expiry timing belongs to the go-cache
  library, so an entry only carries the duration it was stored with.
 */
module GoCache {
  import opened Common

  /** What go-cache keeps under a key: the stored value and its expiry. */
  datatype Entry = Entry(value: Value, expire: Duration)

  type Entries = map<string, Entry>

  /** The result of a call that may change the store. */
  datatype Written = Written(err: Status, entries: Entries)

  /** The result of a read: its error and the destination afterwards. */
  datatype Read = Read(err: Status, dest: Dest)

  /** `Set` stores the value under the key, overwriting any entry, and never fails. */
  function Set(m: Entries, key: string, v: Value, expire: Duration): (r: Written)
    ensures r.err == Nil
    ensures key in r.entries && r.entries[key] == Entry(v, expire)
    ensures r.entries - {key} == m - {key}
  {
    Written(Nil, m[key := Entry(v, expire)])
  }

  /** `Get` copies the stored value into the destination, or reports
      `KeyNorFound` and leaves the destination alone. */
  function Get(m: Entries, key: string, dest: Dest): (r: Read)
    ensures r.err == Nil <==> key in m
    ensures key !in m ==> r.err == Fail(KeyNorFound) && r.dest == dest
    ensures key in m ==> r.dest == CopyInto(dest, m[key].value)
  {
    if key !in m then Read(Fail(KeyNorFound), dest)
    else Read(Nil, CopyInto(dest, m[key].value))
  }

  /** `Del` removes the key, present or not, and never fails. */
  function Del(m: Entries, key: string): (r: Written)
    ensures r.err == Nil
    ensures key !in r.entries
    ensures r.entries - {key} == m - {key}
  {
    Written(Nil, m - {key})
  }

  /** `Clear` returns nil and, despite its name, removes nothing. */
  function Clear(m: Entries): (r: Written)
    ensures r.err == Nil && r.entries == m
  {
    Written(Nil, m)
  }

  /** Round trip: a read right after a write sees the written value. */
  lemma GetAfterSet(m: Entries, key: string, v: Value, expire: Duration, dest: Dest)
    ensures Get(Set(m, key, v, expire).entries, key, dest) == Read(Nil, CopyInto(dest, v))
  {
  }

  /** A write under one key is invisible to reads of every other key. */
  lemma GetAfterSetOther(m: Entries, key: string, other: string, v: Value, expire: Duration, dest: Dest)
    requires other != key
    ensures Get(Set(m, key, v, expire).entries, other, dest) == Get(m, other, dest)
  {
    var m' := Set(m, key, v, expire).entries;
    assert other in m' <==> other in m' - {key};
    assert other in m <==> other in m - {key};
  }

  /** After `Del` the key misses, and the destination is left as it was. */
  lemma GetAfterDel(m: Entries, key: string, dest: Dest)
    ensures Get(Del(m, key).entries, key, dest) == Read(Fail(KeyNorFound), dest)
  {
  }

  /** Deleting after a write leaves the store as deleting alone would. */
  lemma DelUndoesSet(m: Entries, key: string, v: Value, expire: Duration)
    ensures Del(Set(m, key, v, expire).entries, key).entries == Del(m, key).entries
  {
  }
}
