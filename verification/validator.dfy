/**
 The validator facade: merge the call's options over the global defaults,
 fetch a compiled artifact from the cache or compile one, and hand the
 artifact to the executor together with the traversal flags of the entry
 point used.

 The executor itself is external, so each entry point returns the `ExecCall`
 it would make: the artifact and the exact arguments of `exec`.
 */
module Validator {
  import opened Values
  import opened Config
  import opened CacheManager
  import Configuration

  /** Everything the facade keeps between calls: the global options and the cache. */
  datatype World = World(store: Configuration.Store, cache: Cache)

  /** The executor call an entry point makes, argument by argument. */
  datatype ExecCall = ExecCall(
    artifact: Artifact,
    data: Data,
    formatter: Option<Formatter>,
    config: ValidatorConfig,
    stopOnFirstError: bool,
    removeAdditional: Option<bool>,
    collector: Option<Collector>,
    stopOnFirstFieldError: Option<bool>)  // None: the argument is not passed

  /**
   The cache after resolving an executor, the artifact the executor wraps,
   and whether the compiler was invoked to get it.
   */
  datatype Resolved = Resolved(cache: Cache, artifact: Artifact, compiled: bool)

  /** What one entry-point call leaves behind, whether it compiled, and what it hands to the executor. */
  datatype Step = Step(next: World, compiled: bool, call: ExecCall)

  /**
   The memoisation policy. Without a key the compiler runs, the cache stays
   as it was and the artifact is `built`. With key `k` the compiler runs
   exactly when `k` was not cached before; the cache gains `k` and nothing
   else, no entry already present changes, and the artifact is the one now
   stored under `k`, which is `built` when `k` was not cached before.
   */
  ghost predicate CacheStep(cache: Cache, key: Option<string>, built: Artifact, r: Resolved)
  {
    match key
    case None => r.compiled && r.cache == cache && r.artifact == built
    case Some(k) =>
      && (r.compiled <==> k !in cache)
      && r.cache.Keys == cache.Keys + {k}
      && (forall k' :: k' in cache ==> r.cache[k'] == cache[k'])
      && r.artifact == r.cache[k]
      && (k !in cache ==> r.artifact == built)
  }

  /** `getExecutor`: compile every time without a key; otherwise compile only on a cache miss. */
  function GetExecutor(cache: Cache, schema: Schema, messages: Messages, config: ValidatorConfig,
                       compile: Compiler): (r: Resolved)
    ensures CacheStep(cache, EffectiveKey(config), compile(schema, messages), r)
  {
    match EffectiveKey(config)
    case None => Resolved(cache, compile(schema, messages), true)
    case Some(k) =>
      var miss := Get(cache, k).None?;
      var cache' := if miss then Set(cache, k, compile(schema, messages)) else cache;
      Resolved(cache', Get(cache', k).value, miss)
  }

  /** `Object.assign({}, validatorConfig, config)`: a fresh object; an absent `config` is skipped. */
  function Effective(defaults: ValidatorConfig, config: Option<ValidatorConfig>): (r: ValidatorConfig)
    ensures config.None? ==> r == defaults
    ensures config.Some? ==> LayeredOver(r, defaults, config.value)
  {
    AssignIntoEmpty(defaults);
    var merged := Assign(Empty, defaults);
    match config
    case None => merged
    case Some(c) => Assign(merged, c)
  }

  /** The algorithm the three entry points share; they differ only in the two flags. */
  function Execute(w: World, data: Data, schema: Schema, messages: Option<Messages>,
                   config: Option<ValidatorConfig>, compile: Compiler,
                   stopOnFirstError: bool, stopOnFirstFieldError: Option<bool>): Step
  {
    var eff := Effective(w.store.current, config);
    var ex := GetExecutor(w.cache, schema, messages.GetOr(map[]), eff, compile);
    Step(
      w.(cache := ex.cache),
      ex.compiled,
      ExecCall(ex.artifact, data, eff.formatter.Read(), eff, stopOnFirstError,
               eff.removeAdditional.Read(), eff.customErrorCollector.Read(), stopOnFirstFieldError))
  }

  /**
   What every entry point guarantees apart from its flags: the global options
   are left alone; the executor receives the data, the defaults with the
   call's options laid over them, and the formatter, remove-additional flag
   and collector read from that merged object; the artifact, and whether
   the compiler runs, follow the memoisation policy, compiling this call's
   schema with its messages or with `{}` when it has none.
   */
  ghost predicate Orchestrated(w: World, data: Data, schema: Schema, messages: Option<Messages>,
                               config: Option<ValidatorConfig>, compile: Compiler, r: Step)
  {
    var eff := r.call.config;
    var msgs := messages.GetOr(map[]);
    && r.next.store == w.store
    && (config.None? ==> eff == w.store.current)
    && (config.Some? ==> LayeredOver(eff, w.store.current, config.value))
    && CacheStep(w.cache, EffectiveKey(eff), compile(schema, msgs),
                 Resolved(r.next.cache, r.call.artifact, r.compiled))
    && r.call.data == data
    && r.call.formatter == eff.formatter.Read()
    && r.call.removeAdditional == eff.removeAdditional.Read()
    && r.call.collector == eff.customErrorCollector.Read()
  }

  /** `validate`: stop at the first error anywhere; no per-field flag is passed. */
  function Validate(w: World, data: Data, schema: Schema, messages: Option<Messages>,
                    config: Option<ValidatorConfig>, compile: Compiler): (r: Step)
    ensures Orchestrated(w, data, schema, messages, config, compile, r)
    ensures r.call.stopOnFirstError
    ensures r.call.stopOnFirstFieldError == None
  {
    Execute(w, data, schema, messages, config, compile, true, None)
  }

  /** `validateAll`: collect every error; no per-field flag is passed. */
  function ValidateAll(w: World, data: Data, schema: Schema, messages: Option<Messages>,
                       config: Option<ValidatorConfig>, compile: Compiler): (r: Step)
    ensures Orchestrated(w, data, schema, messages, config, compile, r)
    ensures !r.call.stopOnFirstError
    ensures r.call.stopOnFirstFieldError == None
  {
    Execute(w, data, schema, messages, config, compile, false, None)
  }

  /** `validateEach`: stop at the first error of each field and go on with the next field. */
  function ValidateEach(w: World, data: Data, schema: Schema, messages: Option<Messages>,
                        config: Option<ValidatorConfig>, compile: Compiler): (r: Step)
    ensures Orchestrated(w, data, schema, messages, config, compile, r)
    ensures !r.call.stopOnFirstError
    ensures r.call.stopOnFirstFieldError == Some(true)
  {
    Execute(w, data, schema, messages, config, compile, false, Some(true))
  }

  // ---------------------------------------------------------------------
  // The memoisation policy, one call at a time
  // ---------------------------------------------------------------------

  /** With no usable key, the cache is untouched and the artifact is a fresh compile of this call's input. */
  lemma NoKeyCompilesFresh(cache: Cache, schema: Schema, messages: Messages, config: ValidatorConfig,
                           compile: Compiler)
    requires config.cacheKey.Missing? || config.cacheKey == Own(None) || config.cacheKey == Own(Some(""))
    ensures GetExecutor(cache, schema, messages, config, compile) == Resolved(cache, compile(schema, messages), true)
  {
  }

  /** A cached key is reused verbatim: nothing is compiled, whatever schema and messages this call brings. */
  lemma HitReusedVerbatim(cache: Cache, schema: Schema, messages: Messages, config: ValidatorConfig,
                          compile: Compiler, k: string)
    requires EffectiveKey(config) == Some(k) && k in cache
    ensures GetExecutor(cache, schema, messages, config, compile) == Resolved(cache, cache[k], false)
  {
  }

  /** On a miss, this call's schema and messages are compiled once, stored under the key and used. */
  lemma MissCompilesAndStores(cache: Cache, schema: Schema, messages: Messages, config: ValidatorConfig,
                              compile: Compiler, k: string)
    requires EffectiveKey(config) == Some(k) && k !in cache
    ensures GetExecutor(cache, schema, messages, config, compile)
         == Resolved(cache[k := compile(schema, messages)], compile(schema, messages), true)
  {
  }

  /** No key but the effective one is ever added, changed or removed. */
  lemma OtherKeysUntouched(cache: Cache, schema: Schema, messages: Messages, config: ValidatorConfig,
                           compile: Compiler, other: string)
    requires EffectiveKey(config) != Some(other)
    ensures var r := GetExecutor(cache, schema, messages, config, compile);
            && (other in r.cache <==> other in cache)
            && (other in cache ==> r.cache[other] == cache[other])
  {
  }

  /**
   Two successive resolutions with the same key share one artifact; the
   second compiles nothing and leaves the cache as it was.
   */
  lemma SameKeyTwice(cache: Cache, compile: Compiler, k: string,
                     s1: Schema, m1: Messages, c1: ValidatorConfig,
                     s2: Schema, m2: Messages, c2: ValidatorConfig)
    requires EffectiveKey(c1) == Some(k) && EffectiveKey(c2) == Some(k)
    ensures var first := GetExecutor(cache, s1, m1, c1, compile);
            var second := GetExecutor(first.cache, s2, m2, c2, compile);
            second == Resolved(first.cache, first.artifact, false)
  {
  }

  // ---------------------------------------------------------------------
  // Option merging and the entry points
  // ---------------------------------------------------------------------

  /**
   A call that sets `cacheKey: undefined` switches caching off even when the
   defaults carry a key, because `Object.assign` copies the `undefined`.
   */
  lemma UndefinedKeyOverridesDefault(w: World, data: Data, schema: Schema, messages: Messages,
                                     c: ValidatorConfig, compile: Compiler)
    requires c.cacheKey == Own(None)
    ensures var r := Validate(w, data, schema, Some(messages), Some(c), compile);
            r.next == w && r.compiled && r.call.artifact == compile(schema, messages)
  {
  }

  /** Leaving out the messages is the same as passing `{}`. */
  lemma MissingMessagesAreEmpty(w: World, data: Data, schema: Schema, config: Option<ValidatorConfig>,
                                compile: Compiler)
    ensures Validate(w, data, schema, None, config, compile)
         == Validate(w, data, schema, Some(map[]), config, compile)
    ensures ValidateAll(w, data, schema, None, config, compile)
         == ValidateAll(w, data, schema, Some(map[]), config, compile)
    ensures ValidateEach(w, data, schema, None, config, compile)
         == ValidateEach(w, data, schema, Some(map[]), config, compile)
  {
  }

  /** The three entry points make the same cache step and the same executor call except for the two flags. */
  lemma ModesDifferOnlyInFlags(w: World, data: Data, schema: Schema, messages: Option<Messages>,
                               config: Option<ValidatorConfig>, compile: Compiler)
    ensures var v := Validate(w, data, schema, messages, config, compile);
            var a := ValidateAll(w, data, schema, messages, config, compile);
            var e := ValidateEach(w, data, schema, messages, config, compile);
            && a.next == v.next && e.next == v.next
            && a.compiled == v.compiled && e.compiled == v.compiled
            && a.call == v.call.(stopOnFirstError := false)
            && e.call == v.call.(stopOnFirstError := false, stopOnFirstFieldError := Some(true))
  {
  }

  /** The memoisation policy leaves no freedom: one cache, one artifact, one compile decision. */
  lemma CacheStepUnique(cache: Cache, key: Option<string>, built: Artifact, r1: Resolved, r2: Resolved)
    requires CacheStep(cache, key, built, r1) && CacheStep(cache, key, built, r2)
    ensures r1 == r2
  {
    if key.Some? {
      var k := key.value;
      forall k' | k' in r1.cache ensures r1.cache[k'] == r2.cache[k'] {
        if k' != k {
          assert k' in cache;
        } else if k in cache {
          assert r1.cache[k] == cache[k] == r2.cache[k];
        }
      }
    }
  }

  /**
   `Orchestrated` and the two flags fix the whole step: any result meeting an
   entry point's contract is that entry point's result.
   */
  lemma OrchestratedDetermines(w: World, data: Data, schema: Schema, messages: Option<Messages>,
                               config: Option<ValidatorConfig>, compile: Compiler, r: Step)
    requires Orchestrated(w, data, schema, messages, config, compile, r)
    ensures r.call.stopOnFirstError && r.call.stopOnFirstFieldError == None
            ==> r == Validate(w, data, schema, messages, config, compile)
    ensures !r.call.stopOnFirstError && r.call.stopOnFirstFieldError == None
            ==> r == ValidateAll(w, data, schema, messages, config, compile)
    ensures !r.call.stopOnFirstError && r.call.stopOnFirstFieldError == Some(true)
            ==> r == ValidateEach(w, data, schema, messages, config, compile)
  {
    var v := Validate(w, data, schema, messages, config, compile);
    if config.Some? {
      LayeredOverUnique(r.call.config, v.call.config, w.store.current, config.value);
    }
    var msgs := messages.GetOr(map[]);
    CacheStepUnique(w.cache, EffectiveKey(v.call.config), compile(schema, msgs),
                    Resolved(r.next.cache, r.call.artifact, r.compiled),
                    Resolved(v.next.cache, v.call.artifact, v.compiled));
    ModesDifferOnlyInFlags(w, data, schema, messages, config, compile);
  }

  /** `r` takes `top`'s property if it has one, else `mid`'s, else `base`'s. */
  ghost predicate PropLayered3<T>(r: Prop<T>, base: Prop<T>, mid: Prop<T>, top: Prop<T>)
  {
    && (top.Own? ==> r == top)
    && (top.Missing? && mid.Own? ==> r == mid)
    && (top.Missing? && mid.Missing? ==> r == base)
  }

  /** After `configure(p)` the next call's options are: its own, else `p`'s, else the earlier defaults. */
  lemma ConfigureThenValidate(w: World, p: ValidatorConfig, data: Data, schema: Schema,
                              messages: Option<Messages>, c: ValidatorConfig, compile: Compiler)
    ensures var eff := Validate(w.(store := Configuration.Configure(w.store, p)),
                                data, schema, messages, Some(c), compile).call.config;
            var before := w.store.current;
            && PropLayered3(eff.formatter, before.formatter, p.formatter, c.formatter)
            && PropLayered3(eff.cacheKey, before.cacheKey, p.cacheKey, c.cacheKey)
            && PropLayered3(eff.removeAdditional, before.removeAdditional, p.removeAdditional, c.removeAdditional)
            && PropLayered3(eff.customErrorCollector, before.customErrorCollector,
                            p.customErrorCollector, c.customErrorCollector)
  {
  }

  // ---------------------------------------------------------------------
  // Runs of operations
  // ---------------------------------------------------------------------

  /** Which entry point a request goes through. */
  datatype Mode = FirstError | AllErrors | FirstErrorPerField

  datatype Request = Request(mode: Mode, data: Data, schema: Schema, messages: Option<Messages>,
                             config: Option<ValidatorConfig>)

  /** An operation on the facade: reconfigure the defaults or validate. */
  datatype Op = Reconfigure(options: ValidatorConfig) | Call(request: Request)

  /** Send a request through its entry point. */
  function Dispatch(w: World, q: Request, compile: Compiler): Step
  {
    match q.mode
    case FirstError => Validate(w, q.data, q.schema, q.messages, q.config, compile)
    case AllErrors => ValidateAll(w, q.data, q.schema, q.messages, q.config, compile)
    case FirstErrorPerField => ValidateEach(w, q.data, q.schema, q.messages, q.config, compile)
  }

  /** The facade's state after one operation. */
  function Apply(w: World, op: Op, compile: Compiler): World
  {
    match op
    case Reconfigure(p) => w.(store := Configuration.Configure(w.store, p))
    case Call(q) => Dispatch(w, q, compile).next
  }

  /** The facade's state after a run of operations, first to last. */
  function Run(w: World, ops: seq<Op>, compile: Compiler): World
    decreases |ops|
  {
    if |ops| == 0 then w else Run(Apply(w, ops[0], compile), ops[1..], compile)
  }

  /**
   A run of validation requests: the final state, and per request, in order,
   whether it compiled and the executor call it made.
   */
  datatype Trace = Trace(next: World, compiles: seq<bool>, calls: seq<ExecCall>)

  function Calls(w: World, qs: seq<Request>, compile: Compiler): (t: Trace)
    ensures |t.compiles| == |qs| && |t.calls| == |qs|
    decreases |qs|
  {
    if |qs| == 0 then Trace(w, [], [])
    else
      var s := Dispatch(w, qs[0], compile);
      var rest := Calls(s.next, qs[1..], compile);
      Trace(rest.next, [s.compiled] + rest.compiles, [s.call] + rest.calls)
  }

  /** Every entry point keeps the global options and only ever adds the effective key to the cache. */
  lemma DispatchStep(w: World, q: Request, compile: Compiler)
    ensures var s := Dispatch(w, q, compile);
            var eff := s.call.config;
            && s.next.store == w.store
            && (q.config.None? ==> eff == w.store.current)
            && (q.config.Some? ==> LayeredOver(eff, w.store.current, q.config.value))
            && CacheStep(w.cache, EffectiveKey(eff), compile(q.schema, q.messages.GetOr(map[])),
                         Resolved(s.next.cache, s.call.artifact, s.compiled))
  {
  }

  /** Over any run of operations, cached entries are never removed or replaced, and `DEFAULTS` never changes. */
  lemma {:induction false} CacheOnlyGrows(w: World, ops: seq<Op>, compile: Compiler)
    ensures var w' := Run(w, ops, compile);
            && w.cache.Keys <= w'.cache.Keys
            && (forall k :: k in w.cache ==> w'.cache[k] == w.cache[k])
            && w'.store.factory == w.store.factory
    decreases |ops|
  {
    if |ops| > 0 {
      if ops[0].Call? {
        DispatchStep(w, ops[0].request, compile);
      }
      CacheOnlyGrows(Apply(w, ops[0], compile), ops[1..], compile);
    }
  }

  /** The effective key a request acts on, given the global options. */
  function RequestKey(w: World, q: Request): Option<string>
  {
    EffectiveKey(Effective(w.store.current, q.config))
  }

  /** Requests sharing a key that is already cached compile nothing, all get the cached artifact and change nothing. */
  lemma {:induction false} CachedKeyRun(w: World, qs: seq<Request>, compile: Compiler, k: string)
    requires k in w.cache
    requires forall i :: 0 <= i < |qs| ==> RequestKey(w, qs[i]) == Some(k)
    ensures var t := Calls(w, qs, compile);
            && t.next == w
            && (forall i :: 0 <= i < |t.compiles| ==> !t.compiles[i])
            && (forall i :: 0 <= i < |t.calls| ==> t.calls[i].artifact == w.cache[k])
    decreases |qs|
  {
    if |qs| > 0 {
      DispatchStep(w, qs[0], compile);
      var s := Dispatch(w, qs[0], compile);
      assert s.next == w;
      forall i | 0 <= i < |qs| - 1 ensures RequestKey(w, qs[1..][i]) == Some(k) {
        assert qs[1..][i] == qs[i + 1];
      }
      CachedKeyRun(w, qs[1..], compile, k);
    }
  }

  /**
   Requests sharing a key compile at most once: only the first request may
   compile, and it does exactly when the key was not cached, using its own
   schema and messages; every later request's schema is ignored and all of
   them use the same artifact.
   */
  lemma {:induction false} SharedKeyCompilesOnce(w: World, qs: seq<Request>, compile: Compiler, k: string)
    requires |qs| > 0
    requires forall i :: 0 <= i < |qs| ==> RequestKey(w, qs[i]) == Some(k)
    ensures var t := Calls(w, qs, compile);
            var a := if k in w.cache then w.cache[k] else compile(qs[0].schema, qs[0].messages.GetOr(map[]));
            && t.next == w.(cache := w.cache[k := a])
            && (t.compiles[0] <==> k !in w.cache)
            && (forall i :: 1 <= i < |t.compiles| ==> !t.compiles[i])
            && (forall i :: 0 <= i < |t.calls| ==> t.calls[i].artifact == a)
  {
    DispatchStep(w, qs[0], compile);
    var s := Dispatch(w, qs[0], compile);
    var rest := qs[1..];
    assert forall i :: 0 <= i < |rest| ==> RequestKey(s.next, rest[i]) == Some(k) by {
      assert s.next.store == w.store;
      forall i | 0 <= i < |rest| ensures RequestKey(s.next, rest[i]) == Some(k) {
        assert rest[i] == qs[i + 1];
      }
    }
    CachedKeyRun(s.next, rest, compile, k);
  }

  /** Requests without a usable key each compile, their own schema and messages, and the cache never changes. */
  lemma {:induction false} NoKeyNeverCaches(w: World, qs: seq<Request>, compile: Compiler)
    requires forall i :: 0 <= i < |qs| ==> RequestKey(w, qs[i]) == None
    ensures var t := Calls(w, qs, compile);
            && t.next == w
            && (forall i :: 0 <= i < |t.compiles| ==> t.compiles[i])
            && (forall i :: 0 <= i < |t.calls| ==>
                  t.calls[i].artifact == compile(qs[i].schema, qs[i].messages.GetOr(map[])))
    decreases |qs|
  {
    if |qs| > 0 {
      DispatchStep(w, qs[0], compile);
      NoKeyNeverCaches(w, qs[1..], compile);
      assert forall i :: 1 <= i < |qs| ==> qs[1..][i - 1] == qs[i];
    }
  }
}
