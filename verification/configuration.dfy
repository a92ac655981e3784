/**
 The process-wide option defaults and `configure`, which overlays new
 options on them in place. `DEFAULTS` is a copy of the defaults taken when
 the module loads, before any `configure` call.
 */
module Configuration {
  import opened Values
  import opened Config

  /** The global options object and the `configure.DEFAULTS` snapshot. */
  datatype Store = Store(current: ValidatorConfig, factory: ValidatorConfig)

  /** Module load: `configure.DEFAULTS = Object.assign({}, validatorConfig)`. */
  function Load(initial: ValidatorConfig): (s: Store)
    ensures s.current == initial
    ensures s.factory == initial
  {
    AssignIntoEmpty(initial);
    Store(initial, Assign(Empty, initial))
  }

  /** `configure(p)`: `Object.assign(validatorConfig, p)`; the snapshot is a separate object. */
  function Configure(s: Store, p: ValidatorConfig): (r: Store)
    ensures LayeredOver(r.current, s.current, p)
    ensures r.factory == s.factory
  {
    s.(current := Assign(s.current, p))
  }

  /** Successive `configure` calls, first to last. */
  function ConfigureAll(s: Store, ps: seq<ValidatorConfig>): Store
    decreases |ps|
  {
    if |ps| == 0 then s else ConfigureAll(Configure(s, ps[0]), ps[1..])
  }

  /** The options of `ps` merged into one, later ones winning. */
  function Combined(ps: seq<ValidatorConfig>): ValidatorConfig
    decreases |ps|
  {
    if |ps| == 0 then Empty else Assign(ps[0], Combined(ps[1..]))
  }

  /** After `configure(p)` every option `p` sets has `p`'s value, `undefined` included. */
  lemma ConfigureSetsGiven(s: Store, p: ValidatorConfig)
    ensures p.formatter.Own? ==> Configure(s, p).current.formatter == p.formatter
    ensures p.cacheKey.Own? ==> Configure(s, p).current.cacheKey == p.cacheKey
    ensures p.removeAdditional.Own? ==> Configure(s, p).current.removeAdditional == p.removeAdditional
    ensures p.customErrorCollector.Own? ==> Configure(s, p).current.customErrorCollector == p.customErrorCollector
  {
  }

  /** Options `p` leaves out keep their previous global values. */
  lemma ConfigureKeepsOthers(s: Store, p: ValidatorConfig)
    ensures p.formatter.Missing? ==> Configure(s, p).current.formatter == s.current.formatter
    ensures p.cacheKey.Missing? ==> Configure(s, p).current.cacheKey == s.current.cacheKey
    ensures p.removeAdditional.Missing? ==> Configure(s, p).current.removeAdditional == s.current.removeAdditional
    ensures p.customErrorCollector.Missing? ==> Configure(s, p).current.customErrorCollector == s.current.customErrorCollector
  {
  }

  /** `configure(a)` then `configure(b)` is one `configure` of `a` overlaid with `b`. */
  lemma ConfigureCompose(s: Store, a: ValidatorConfig, b: ValidatorConfig)
    ensures Configure(Configure(s, a), b) == Configure(s, Assign(a, b))
  {
    AssignAssociative(s.current, a, b);
  }

  /** Configuring the same options twice is configuring them once. */
  lemma ConfigureIdempotent(s: Store, p: ValidatorConfig)
    ensures Configure(Configure(s, p), p) == Configure(s, p)
  {
    AssignIdempotent(s.current, p);
  }

  /** `configure({})` changes nothing. */
  lemma ConfigureEmptyIsNoOp(s: Store)
    ensures Configure(s, Empty) == s
  {
    AssignEmpty(s.current);
  }

  /** Any run of `configure` calls equals a single call with their options merged in order. */
  lemma {:induction false} ConfigureAllIsOneConfigure(s: Store, ps: seq<ValidatorConfig>)
    ensures ConfigureAll(s, ps) == Configure(s, Combined(ps))
    decreases |ps|
  {
    if |ps| == 0 {
      ConfigureEmptyIsNoOp(s);
    } else {
      ConfigureAllIsOneConfigure(Configure(s, ps[0]), ps[1..]);
      ConfigureCompose(s, ps[0], Combined(ps[1..]));
    }
  }

  /** However often the defaults are reconfigured, `DEFAULTS` still holds the options present at load. */
  lemma {:induction false} DefaultsSnapshotStable(initial: ValidatorConfig, ps: seq<ValidatorConfig>)
    ensures ConfigureAll(Load(initial), ps).factory == initial
  {
    ConfigureAllIsOneConfigure(Load(initial), ps);
  }

  /**
   Resetting through the snapshot, `configure(configure.DEFAULTS)`, restores
   only the options that were present at load: every such option gets its
   load-time value back, while an option absent at load keeps whatever value
   the later `configure` calls gave it.
   */
  lemma {:induction false} ResetThroughDefaults(initial: ValidatorConfig, ps: seq<ValidatorConfig>)
    ensures var s := ConfigureAll(Load(initial), ps);
            var r := Configure(s, s.factory);
            && LayeredOver(r.current, s.current, initial)
            && r.factory == initial
  {
    DefaultsSnapshotStable(initial, ps);
  }

  /**
   A cache key configured after load survives the reset when the load-time
   options had none, so later calls without their own key still share one
   cached artifact.
   */
  lemma ResetKeepsLaterCacheKey(initial: ValidatorConfig, k: string)
    requires initial.cacheKey.Missing?
    ensures var s := Configure(Load(initial), Empty.(cacheKey := Own(Some(k))));
            Configure(s, s.factory).current.cacheKey == Own(Some(k))
  {
  }
}
