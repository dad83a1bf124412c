/**
  Per-call cache configuration (options.go): whether the call may use the
  store at all, and the expiry a write-back stores with. Options are record
  updates applied left to right; none of them validates its argument.
 */
module Options {
  import opened Common

  datatype Config = Config(isSave: bool, expire: Duration)

  /** The stand-alone default: caching on, three seconds. */
  function NewDefaultCacheConfig(): (c: Config)
    ensures c.isSave && c.expire == 3 * Second
  {
    Config(true, 3 * Second)
  }

  /** The per-call default built from a repository's expiry. options.go
      defines no `newCacheConfig`; it is taken to switch caching on and use
      the given expiry. */
  function NewCacheConfig(expire: Duration): (c: Config)
    ensures c.isSave && c.expire == expire
  {
    Config(true, expire)
  }

  datatype ConfigOption =
    | WithConditionOption(isSave: bool)
    | WithExpireOption(expire: Duration)

  /** One option touches exactly its own field, storing its argument as given. */
  function Apply(c: Config, o: ConfigOption): (r: Config)
    ensures o.WithConditionOption? ==> r.isSave == o.isSave && r.expire == c.expire
    ensures o.WithExpireOption? ==> r.expire == o.expire && r.isSave == c.isSave
  {
    match o
    case WithConditionOption(b) => c.(isSave := b)
    case WithExpireOption(d) => c.(expire := d)
  }

  /** The option loop: each option in turn, left to right. The last option
      touching a field decides it; a field no option touches keeps its value. */
  function ApplyAll(c: Config, opts: seq<ConfigOption>): (r: Config)
    ensures r == Config(LastCondition(opts).GetOr(c.isSave), LastExpire(opts).GetOr(c.expire))
    decreases |opts|
  {
    if opts == [] then c
    else Apply(ApplyAll(c, opts[..|opts| - 1]), opts[|opts| - 1])
  }

  /** The argument of the last `WithConditionOption` in the list, if any. */
  function LastCondition(opts: seq<ConfigOption>): Option<bool>
    decreases |opts|
  {
    if opts == [] then None
    else if opts[|opts| - 1].WithConditionOption? then Some(opts[|opts| - 1].isSave)
    else LastCondition(opts[..|opts| - 1])
  }

  /** The argument of the last `WithExpireOption` in the list, if any. */
  function LastExpire(opts: seq<ConfigOption>): Option<Duration>
    decreases |opts|
  {
    if opts == [] then None
    else if opts[|opts| - 1].WithExpireOption? then Some(opts[|opts| - 1].expire)
    else LastExpire(opts[..|opts| - 1])
  }

  /** Applying two lists one after the other is applying their concatenation. */
  lemma {:induction false} ApplyAllAppend(c: Config, a: seq<ConfigOption>, b: seq<ConfigOption>)
    ensures ApplyAll(c, a + b) == ApplyAll(ApplyAll(c, a), b)
    decreases |b|
  {
    if b == [] {
      assert a + b == a;
    } else {
      var b' := b[..|b| - 1];
      assert (a + b)[..|a + b| - 1] == a + b';
      ApplyAllAppend(c, a, b');
    }
  }

  /** Applying the same option twice is applying it once. */
  lemma ApplyIdempotent(c: Config, o: ConfigOption)
    ensures Apply(Apply(c, o), o) == Apply(c, o)
  {
  }

  /** Applying the same list twice is applying it once. */
  lemma ApplyAllIdempotent(c: Config, opts: seq<ConfigOption>)
    ensures ApplyAll(ApplyAll(c, opts), opts) == ApplyAll(c, opts)
  {
  }

  /** Options on different fields commute. */
  lemma DifferentFieldsCommute(c: Config, o1: ConfigOption, o2: ConfigOption)
    requires o1.WithConditionOption? != o2.WithConditionOption?
    ensures Apply(Apply(c, o1), o2) == Apply(Apply(c, o2), o1)
  {
  }

  /** Appending an option makes it the last word on its own field. */
  lemma {:induction false} LaterOptionOverrides(c: Config, opts: seq<ConfigOption>, o: ConfigOption)
    ensures o.WithConditionOption? ==> ApplyAll(c, opts + [o]).isSave == o.isSave
    ensures o.WithExpireOption? ==> ApplyAll(c, opts + [o]).expire == o.expire
    ensures o.WithConditionOption? ==> ApplyAll(c, opts + [o]).expire == ApplyAll(c, opts).expire
    ensures o.WithExpireOption? ==> ApplyAll(c, opts + [o]).isSave == ApplyAll(c, opts).isSave
  {
    assert (opts + [o])[..|opts + [o]| - 1] == opts;
  }
}
