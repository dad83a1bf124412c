/**
  The fluent session builder (session.go): a per-call record of key, caching
  flag, expiry and loader, changed by chained setters and consumed by `Find`,
  which hands it to the engine as two options. The session's client pointer is
  the repository passed to `Find`, in the state it is in at that moment.
 */
module Sessions {
  import opened Common
  import opened Options
  import opened Cache
  import CacheProps

  datatype Session = Session(key: string, isSave: bool, expire: Duration, getDataFunc: Option<LoaderOutcome>)

  /** A new session caches for three seconds and has no loader. */
  function NewSession(key: string): (s: Session)
    ensures s.key == key && s.isSave && s.expire == 3 * Second && s.getDataFunc.None?
  {
    Session(key, true, 3 * Second, None)
  }

  /** `GetKey` opens a session on the repository for the key: caching on,
      three seconds, no loader. */
  function GetKey(key: string): (s: Session)
    ensures s.key == key && s.isSave && s.expire == 3 * Second && s.getDataFunc.None?
  {
    NewSession(key)
  }

  /** Each setter changes its own field and keeps the others. */
  function SetIsSave(s: Session, value: bool): (r: Session)
    ensures r.isSave == value
    ensures r.key == s.key && r.expire == s.expire && r.getDataFunc == s.getDataFunc
  {
    s.(isSave := value)
  }

  function SetExpire(s: Session, expire: Duration): (r: Session)
    ensures r.expire == expire
    ensures r.key == s.key && r.isSave == s.isSave && r.getDataFunc == s.getDataFunc
  {
    s.(expire := expire)
  }

  function SetGetDataFunc(s: Session, fn: Option<LoaderOutcome>): (r: Session)
    ensures r.getDataFunc == fn
    ensures r.key == s.key && r.isSave == s.isSave && r.expire == s.expire
  {
    s.(getDataFunc := fn)
  }

  /** The options `Find` passes: the session's flag, then its expiry. */
  function FindOptions(s: Session): seq<ConfigOption>
  {
    [WithConditionOption(s.isSave), WithExpireOption(s.expire)]
  }

  /** `Find` runs the engine on the session's key and loader under exactly
      the session's flag and expiry: it behaves as a direct call with no
      options on a repository whose default expiry is the session's, except
      that a session with caching off also switches caching off. */
  function Find(s: Session, repo: Repository, dest: Dest): (r: Reply)
    ensures EffectiveConfig(repo, FindOptions(s)) == Config(s.isSave, s.expire)
    ensures r == GetCacheWithOptions(repo.(expire := s.expire), s.key, dest, s.getDataFunc,
                                     if s.isSave then [] else [WithConditionOption(false)])
  {
    var opts := FindOptions(s);
    assert opts[..1] == [WithConditionOption(s.isSave)];
    assert opts[..1][..0] == [];
    var plain: seq<ConfigOption> := if s.isSave then [] else [WithConditionOption(false)];
    assert plain != [] ==> plain[..0] == [];
    assert EffectiveConfig(repo, opts) == EffectiveConfig(repo.(expire := s.expire), plain);
    GetCacheWithOptions(repo, s.key, dest, s.getDataFunc, opts)
  }

  /** Both fields are always passed, so a session call runs under exactly the
      session's configuration, whatever the repository's default expiry. */
  lemma FindUsesSessionConfig(s: Session, repo: Repository, dest: Dest, expire: Duration)
    ensures EffectiveConfig(repo.(expire := expire), FindOptions(s)) == Config(s.isSave, s.expire)
    ensures Find(s, repo, dest) == Find(s, repo.(expire := expire), dest)
  {
  }

  /** A plain session caches for three seconds, not for the repository's
      default expiry that a direct engine call would use. */
  lemma PlainSessionUsesThreeSeconds(key: string, repo: Repository)
    ensures EffectiveConfig(repo, FindOptions(GetKey(key))) == NewDefaultCacheConfig()
  {
    FindUsesSessionConfig(GetKey(key), repo, Dest("", ""), repo.expire);
  }

  /** A session with caching off and a loader returns the loaded value, yet a
      later plain session on the same key still misses. */
  lemma BypassFindThenFindMisses(repo: Repository, key: string, v: Value, dest1: Dest, dest2: Dest)
    requires key != "" && key !in repo.cache.entries && repo.cache.getFault.None?
    requires v.typ == dest1.typ
    ensures var s := SetIsSave(SetGetDataFunc(GetKey(key), Some(Ok(Some(v)))), false);
      var r1 := Find(s, repo, dest1);
      var r2 := Find(GetKey(key), repo.(cache := r1.cache), dest2);
      && r1.err == Nil && r1.dest == CopyInto(dest1, v)
      && r2.err == Fail(KeyNorFound) && r2.dest == dest2
  {
    var s := SetIsSave(SetGetDataFunc(GetKey(key), Some(Ok(Some(v)))), false);
    FindUsesSessionConfig(s, repo, dest1, repo.expire);
    var r1 := Find(s, repo, dest1);
    FindUsesSessionConfig(GetKey(key), repo.(cache := r1.cache), dest2, repo.expire);
  }

  /** A session with caching on and a loader fills the store, so a later
      plain session on the same key hits and sees the same value. */
  lemma SavedFindThenFindHits(repo: Repository, key: string, v: Value, expire: Duration, dest1: Dest, dest2: Dest)
    requires key != "" && key !in repo.cache.entries
    requires repo.cache.getFault.None? && repo.cache.setFault.None?
    requires v.typ == dest1.typ
    ensures var s := SetExpire(SetIsSave(SetGetDataFunc(GetKey(key), Some(Ok(Some(v)))), true), expire);
      var r1 := Find(s, repo, dest1);
      var r2 := Find(GetKey(key), repo.(cache := r1.cache), dest2);
      && r1.err == Nil && r1.dest.payload == v.payload
      && r2.err == Nil && r2.dest.payload == v.payload
      && LoaderRun !in r2.trace
  {
    var s := SetExpire(SetIsSave(SetGetDataFunc(GetKey(key), Some(Ok(Some(v)))), true), expire);
    FindUsesSessionConfig(s, repo, dest1, repo.expire);
    var r1 := Find(s, repo, dest1);
    FindUsesSessionConfig(GetKey(key), repo.(cache := r1.cache), dest2, repo.expire);
    CacheProps.ReadThroughThenHit(repo, key, dest1, v, FindOptions(s), dest2, None, FindOptions(GetKey(key)));
  }
}
