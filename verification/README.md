# Validator facade: compile, cache, execute

This project models the facade of the `indicative` validation library in Dafny. The facade has three entry points, `validate`, `validateAll` and `validateEach`. Each one first merges the call's options over process-wide defaults. It then takes a compiled schema from a cache keyed by `cacheKey`, or compiles the schema when there is no usable key or the key is not cached. Finally it calls the external executor with the traversal flags of that entry point. `configure` overlays new options on the process-wide defaults in place. `configure.DEFAULTS` keeps a copy of the defaults as they were when the module loaded.

The model is a functional state machine:

- `Values`: the uninterpreted types (schema, data, artifact, formatter, collector, message). `Prop<T>` is one property of a JavaScript options object. It is `Missing` when the property is absent and `Own(v)` when present. An own property may hold `undefined` (`Own(None)`).
- `Config`: the option record `ValidatorConfig` with its four recognised options. `Assign` is `Object.assign` restricted to those options. `EffectiveKey` gives the truthiness of `config.cacheKey`.
- `CacheManager`: the cache is a `map<string, Artifact>` with `Get` and `Set`.
- `Configuration`: the global defaults and the `DEFAULTS` snapshot (`Store`), `Load`, and `Configure`.
- `Validator`: `GetExecutor` and the three entry points. Each entry point returns a `Step`. A `Step` holds the next `World` (defaults plus cache), whether the compiler was invoked, and the `ExecCall` the entry point hands to `exec`. `Run` and `Calls` apply sequences of operations.

The compiler is a parameter `compile: (Schema, Messages) -> Artifact`. Nothing is assumed about which artifact it returns. As a Dafny function it is deterministic and has no effects, so two compiles of the same input give equal artifacts. Whether the compiler is invoked is recorded explicitly in the `compiled` flag of each resolution and step. The fixed rule registry `validations` is part of it. `exec` is not modelled: each entry point returns the arguments it would pass to `exec`.

Details of the code that the model keeps:

- `!config.cacheKey` treats the empty string like a missing key, so an empty key never caches.
- `validateAll` does not pass a per-field flag at all, rather than passing `false`. The model records the argument as not passed (`None`).
- Because `Object.assign` copies an own property holding `undefined`, a call that sets `cacheKey: undefined` turns caching off even when the defaults carry a key.
- The only reset the code allows is `configure(configure.DEFAULTS)`, and it is partial. Options present at load get their load-time values back. An option absent at load, such as a `cacheKey` configured later, keeps its configured value.

## Model

| member | source | states |
|---|---|---|
| Values.Prop.Read | src/Validator/index.ts:66-70 | Reading an option yields a value exactly when the property is own and not `undefined`, and then yields the value it holds. A missing property reads as `undefined`. |
| Config.Assign | src/Validator/configure.ts:17 | The result holds, field by field, the source's property whenever the source has one, including `undefined`. Otherwise it holds the target's property. |
| Config.EffectiveKey | src/Validator/index.ts:35 | A key is used exactly when `cacheKey` is an own property holding a non-empty string. A missing key, an `undefined` key and `""` all mean no caching. |
| Config.AssignIntoEmpty | src/Validator/configure.ts:20 | Copying an options object into `{}` yields an equal object. |
| CacheManager.Get | src/Validator/index.ts:44-45 | `get` yields nothing exactly when the key is absent, and the stored artifact otherwise. |
| CacheManager.Set | src/Validator/index.ts:47 | After `set` the key yields the new artifact. The key set grows by that key only, and every other entry is unchanged. |
| Configuration.Load | src/Validator/configure.ts:20 | At load, both the live defaults and the `DEFAULTS` snapshot equal the initial options. |
| Configuration.Configure | src/Validator/configure.ts:16-18 | The new defaults are the old ones with `p` laid over them field by field. The snapshot is untouched. |
| Configuration.ConfigureSetsGiven | src/Validator/configure.ts:17 | After `configure(p)` every option present in `p` has `p`'s value, `undefined` included. |
| Configuration.ConfigureKeepsOthers | src/Validator/configure.ts:17 | Options absent from `p` keep their previous global values. |
| Configuration.ConfigureCompose | src/Validator/configure.ts:17 | `configure(a)` then `configure(b)` equals `configure` of `a` overlaid with `b`, with `b` winning on shared fields. |
| Configuration.ConfigureIdempotent | src/Validator/configure.ts:17 | Configuring the same options twice equals configuring them once. |
| Configuration.ConfigureEmptyIsNoOp | src/Validator/configure.ts:17 | `configure({})` leaves the store unchanged. |
| Configuration.ConfigureAllIsOneConfigure | src/Validator/configure.ts:16-18 | Any sequence of `configure` calls equals one call with all their options merged in order, later ones winning. |
| Configuration.DefaultsSnapshotStable | src/Validator/configure.ts:20 | After any sequence of `configure` calls, `DEFAULTS` still equals the options present at load. |
| Configuration.ResetThroughDefaults | src/Validator/configure.ts:16-20 | After any sequence of `configure` calls, `configure(configure.DEFAULTS)` lays the load-time options over the current defaults. Every option present at load is restored, every option absent at load keeps its current value, and `DEFAULTS` itself is unchanged. |
| Configuration.ResetKeepsLaterCacheKey | src/Validator/configure.ts:16-20 | When the load-time options have no `cacheKey`, a key configured later survives the reset through `DEFAULTS`. |
| Validator.GetExecutor | src/Validator/index.ts:27-51 | Without a usable key: the cache is unchanged and the artifact is a fresh compile of this call's input. With key `k`: the cache gains only `k`, no existing entry changes, and the artifact is the one stored under `k`. The compiler runs exactly when there is no usable key or `k` was not cached. |
| Validator.Effective | src/Validator/index.ts:62 | With no call options the merged options equal the defaults. Otherwise each option the call sets wins and each unset option comes from the defaults. |
| Validator.Validate | src/Validator/index.ts:61-72 | Defaults unchanged. Merged options passed through. Messages default to `{}`. Cache policy as for `getExecutor`. Formatter, remove-additional flag and collector are forwarded from the merged options. `stopOnFirstError` is true and no per-field flag is passed. |
| Validator.ValidateAll | src/Validator/index.ts:82-93 | The same guarantees as `validate`, except that `stopOnFirstError` is false and no per-field flag is passed. |
| Validator.ValidateEach | src/Validator/index.ts:103-115 | The same guarantees as `validate`, except that `stopOnFirstError` is false and `stopOnFirstFieldError` is true. |
| Validator.NoKeyCompilesFresh | src/Validator/index.ts:35-38 | With a missing, `undefined` or empty key, the compiler runs, the cache is unchanged and the executor wraps `compile(schema, messages)` for this call. |
| Validator.HitReusedVerbatim | src/Validator/index.ts:44-50 | When the key is cached, nothing is compiled, the stored artifact is used and the cache is unchanged, whatever schema and messages the call brings. |
| Validator.MissCompilesAndStores | src/Validator/index.ts:44-50 | When the key is not cached, this call's schema and messages are compiled, stored under the key and used. |
| Validator.OtherKeysUntouched | src/Validator/index.ts:44-50 | Every key other than the effective one is neither added, changed nor removed. |
| Validator.SameKeyTwice | src/Validator/index.ts:44-50 | Two successive resolutions with the same key use the same artifact. The second compiles nothing and leaves the cache as it was. |
| Validator.UndefinedKeyOverridesDefault | src/Validator/index.ts:62 | A call that sets `cacheKey: undefined` compiles fresh and leaves the cache unchanged, whatever key the defaults carry. |
| Validator.MissingMessagesAreEmpty | src/Validator/index.ts:64 | For each entry point, omitting the messages gives the same result as passing `{}`. |
| Validator.ModesDifferOnlyInFlags | src/Validator/index.ts:61-115 | The three entry points leave the same state and make the same executor call, except for `stopOnFirstError` and the per-field flag. |
| Validator.OrchestratedDetermines | src/Validator/index.ts:61-115 | Any step that meets the shared guarantees and carries one entry point's flags is exactly that entry point's result. The contracts of the three entry points leave no freedom. |
| Validator.ConfigureThenValidate | src/Validator/index.ts:62 | After `configure(p)`, each option of the next call is taken from the call if it sets it, else from `p` if `p` sets it, else from the earlier defaults. |
| Validator.CacheOnlyGrows | src/Validator/index.ts:44-50 | After any sequence of `configure` and validation calls, no cached key has been removed, no cached entry has been replaced, and `DEFAULTS` is unchanged. |
| Validator.CachedKeyRun | src/Validator/index.ts:44-50 | A sequence of requests whose shared key is already cached compiles nothing and leaves the state unchanged. Every request uses the cached artifact. |
| Validator.SharedKeyCompilesOnce | test/validator.spec.ts:29-32 | A sequence of requests sharing a key compiles at most once. Only the first request may compile, and it does exactly when the key was not cached, using its own schema and messages. Every request uses that one artifact, and later requests' schemas are ignored. |
| Validator.NoKeyNeverCaches | src/Validator/index.ts:35-38 | A sequence of requests without a usable key leaves the state unchanged. Every request compiles, using its own schema and messages. |

## Left out

- The executor's traversal: first error, all errors, or first error per field. It belongs to the external compiler package, so only the flags handed to `exec` are modelled. Error-list ordering, formatter output and collector behaviour are left out.
- Schema parsing: raw and pre-parsed schemas are the same uninterpreted `Schema` type.
- A compiler that throws: in the code the exception escapes before `cacheManager.set`, so nothing is cached. The compiler here is total, so that path is not modelled.
- Promises and rejection: `exec`'s result is not modelled. `getExecutor` itself is synchronous: no `await` separates `cacheManager.get`, the compile and `cacheManager.set`. Interleaved calls therefore cannot both miss the same key, and the sequential model is exact for the cache.
- Option fields other than `formatter`, `cacheKey`, `removeAdditional` and `customErrorCollector`. The defaults module `src/Validator/config` is not part of this model, so the initial defaults are an arbitrary `ValidatorConfig`.
- `src/CacheManager` is not part of this model. The cache is a plain map whose `get` and `set` behave as `getExecutor` uses them.
- Object identity of artifacts: each `compiler.compile()` builds a new object, so two compiles of the same input give distinct (`!==`) artifacts. The model compares artifacts by value. "The same artifact" in `SameKeyTwice`, `CachedKeyRun` and `SharedKeyCompilesOnce` means an equal value. Whether a compile happened is stated separately through the `compiled` flag.
- Artifacts are treated as never falsy. A falsy artifact would make `!compiledSchema` recompile on every call.
