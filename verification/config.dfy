/**
 Validator options and the shallow overlay that `Object.assign` performs on them.

 The four recognised options are the error formatter, the cache key, the
 remove-additional-fields flag and the custom error collector. Each is a
 `Prop`, so an option object can leave a field out or set it explicitly to
 `undefined`.
 */
module Config {
  import opened Values

  datatype ValidatorConfig = ValidatorConfig(
    formatter: Prop<Formatter>,
    cacheKey: Prop<string>,
    removeAdditional: Prop<bool>,
    customErrorCollector: Prop<Collector>)

  /** The object literal `{}`: no own properties at all. */
  const Empty: ValidatorConfig := ValidatorConfig(Missing, Missing, Missing, Missing)

  /** One property after `Object.assign`: the source's own property wins, even when it is `undefined`. */
  function AssignProp<T>(target: Prop<T>, source: Prop<T>): Prop<T>
  {
    if source.Own? then source else target
  }

  /** `Object.assign(target, source)`, as a new value. */
  function Assign(target: ValidatorConfig, source: ValidatorConfig): (r: ValidatorConfig)
    ensures LayeredOver(r, target, source)
  {
    ValidatorConfig(
      AssignProp(target.formatter, source.formatter),
      AssignProp(target.cacheKey, source.cacheKey),
      AssignProp(target.removeAdditional, source.removeAdditional),
      AssignProp(target.customErrorCollector, source.customErrorCollector))
  }

  /** `r` holds `top`'s property when `top` has one, and `base`'s otherwise. */
  ghost predicate PropLayered<T>(r: Prop<T>, base: Prop<T>, top: Prop<T>)
  {
    && (top.Own? ==> r == top)
    && (top.Missing? ==> r == base)
  }

  /** `r` is `base` with every property `top` sets laid over it, field by field. */
  ghost predicate LayeredOver(r: ValidatorConfig, base: ValidatorConfig, top: ValidatorConfig)
  {
    && PropLayered(r.formatter, base.formatter, top.formatter)
    && PropLayered(r.cacheKey, base.cacheKey, top.cacheKey)
    && PropLayered(r.removeAdditional, base.removeAdditional, top.removeAdditional)
    && PropLayered(r.customErrorCollector, base.customErrorCollector, top.customErrorCollector)
  }

  /**
   The cache key the facade acts on. JavaScript's `!config.cacheKey` is true for
   a missing key, an `undefined` key and the empty string alike, so only a
   non-empty string counts.
   */
  function EffectiveKey(c: ValidatorConfig): (r: Option<string>)
    ensures r.Some? <==> (c.cacheKey.Own? && c.cacheKey.held.Some? && c.cacheKey.held.value != "")
    ensures r.Some? ==> c.cacheKey == Own(Some(r.value))
  {
    match c.cacheKey
    case Own(Some(k)) => if k == "" then None else Some(k)
    case _ => None
  }

  /** The overlay has exactly one result: `LayeredOver` pins every field down. */
  lemma LayeredOverUnique(r1: ValidatorConfig, r2: ValidatorConfig, base: ValidatorConfig, top: ValidatorConfig)
    requires LayeredOver(r1, base, top) && LayeredOver(r2, base, top)
    ensures r1 == r2
  {
  }

  /** Copying an object into `{}` gives an equal object. */
  lemma AssignIntoEmpty(c: ValidatorConfig)
    ensures Assign(Empty, c) == c
  {
  }

  /** Assigning `{}` changes nothing. */
  lemma AssignEmpty(c: ValidatorConfig)
    ensures Assign(c, Empty) == c
  {
  }

  /** Two successive overlays are one overlay of the second source laid over the first. */
  lemma AssignAssociative(c: ValidatorConfig, a: ValidatorConfig, b: ValidatorConfig)
    ensures Assign(Assign(c, a), b) == Assign(c, Assign(a, b))
  {
  }

  /** Overlaying the same source twice is overlaying it once. */
  lemma AssignIdempotent(c: ValidatorConfig, a: ValidatorConfig)
    ensures Assign(Assign(c, a), a) == Assign(c, a)
  {
  }
}
