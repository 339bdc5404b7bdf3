# Bright Nucleus Injector: the support code around the dependency injector

This project models the support code of the Bright Nucleus Injector, a
config-driven dependency injector for PHP. It is not the resolution engine,
which belongs to the parent Auryn injector. The model covers:

- **The reflection caches.** `ReflectionCacheArray` is an in-memory key/value
  store in which `false` means "not found". `ReflectionCacheApc` puts that
  store in front of the APC user cache and carries a time to live.
- **The caching reflector.** It memoises class, constructor, parameter-list,
  type-hint, function and method reflections under keys made of a per-kind
  prefix and the lower-cased name.
- **The injection chain.** It flips the in-progress map (type name to
  ordinal) into ordinal to name and answers index lookups, counting a
  negative index from the end.
- **The injection exception.** It records the dependency chain and builds
  the "invalid invokable" message for a callable of any shape.
- **The config-driven `Injector`.** `registerMappings` reads the
  `sharedAliases`, `standardAliases` and `configFiles` tables. It turns
  them into alias, share, make and define calls on the parent injector and
  loads each config file at most once.

Files:

| file | module | contents |
|---|---|---|
| `php.dfy` | `Php` | PHP values; loose truthiness; ASCII `strtolower`; arrays as ordered maps (`Get`, `Put`, `Flip` for `array_flip`, `Merge` for `array_merge` on string keys); the reflection objects |
| `reflection_cache.dfy` | `ReflectionCache` | `ReflectionCacheArray`, the APC store, `ReflectionCacheApc` |
| `caching_reflector.dfy` | `CachingReflection` | the cache keys, one spec function per lookup, and the class `CachingReflector`, whose methods are proved equal to those functions |
| `injection_chain.dfy` | `InjectionChains` | `InjectionChain`, `getByIndex`, integer strings |
| `injection_exception.dfy` | `InjectionExceptions` | `ksort`, the dependency chain, the invalid-callable message, the `InjectionException` class |
| `injector.dfy` | `ConfigInjector` | the steps of `registerMappings` as spec functions over an injector state, their properties, and the class `Injector` |

How the outside world is modelled:

- **Reflection** looks into a `Runtime`: the declared classes and functions,
  keyed by lower-cased name. Each reflection object made carries an
  identity taken from a counter, so a cache hit is observable as "the same
  object, nothing new made".
- **APC** is an `ApcStore` object holding a map from key to (data, time to
  live).
- **The parent injector** is seen only through the calls made on it. They
  are kept in order in a log, and a set of calls it refuses stands for its
  exceptions.
- **The config, the file system and the config loader** are given as a
  `ConfigSource` and an `Environment`: readable paths, the contents each
  file loads to, the calls the parent injector refuses, and the sub-keys a
  config lacks. The environment is fixed for the injector's whole life: a
  path cannot stop being readable, a file cannot change between loads, and
  whether the parent injector refuses a call does not depend on earlier
  calls.
- **Exceptions** become `Result`/`Option` error values.

Two behaviours of `ReflectionCacheApc::fetch` are easy to misread; the
model follows the code:

- **A local hit on a null value.** `ReflectionCacheApc::fetch` tests the
  local value loosely (`!= false`). A cached `null`, `0`, `''` or `[]` in the
  local tier therefore falls through to APC instead of being a hit.
- **No repopulation.** An APC hit does not write the value back into the
  local tier.

## Model

| member | source | states |
|---|---|---|
| `Php.FalsyValues` | src/ReflectionCacheApc.php:85 | the values `!= false` rejects are exactly null, false, 0, '', '0' and the empty array |
| `Php.Flip` | src/InjectionChain.php:45 | `array_flip` assigns each value as a key in order, so the result never holds a key twice |
| `Php.MergePrecedence` | src/Injector.php:95-98 | after `array_merge($a, $b)`, a key present in `$b` reads `$b`'s value and any other key reads `$a`'s |
| `Php.MergeKeepsOrder` | src/Injector.php:95-98 | `array_merge` keeps the keys of the first array in front, in their order |
| `Php.MergeDistinct` | src/Injector.php:95-98 | merging into an array yields an array: no key twice |
| `ReflectionCache.LookupMissing` | src/ReflectionCacheArray.php:47-49 | a key never stored reads as `false` |
| `ReflectionCache.LookupStored` | src/ReflectionCacheArray.php:43-62 | a stored value reads back as itself, and a stored `null` is a hit, not `false` |
| `ReflectionCache.StoreOverwrites` | src/ReflectionCacheArray.php:60-63 | a second store to a key replaces the first |
| `ReflectionCache.StoreIsolated` | src/ReflectionCacheArray.php:60-63 | a store leaves every other key reading as before |
| `ReflectionCache.StoredFalseIsAbsent` | src/ReflectionCacheArray.php:47-49 | a stored `false` reads exactly like a key never stored |
| `ReflectionCache.ReflectionCacheArray.constructor` | src/ReflectionCacheArray.php:32 | a new cache is empty |
| `ReflectionCache.ReflectionCacheArray.Fetch` | src/ReflectionCacheArray.php:43-50 | answers the stored value (null included) or `false` without changing the cache |
| `ReflectionCache.ReflectionCacheArray.Store` | src/ReflectionCacheArray.php:60-63 | the new cache is the old one with the key set to the data |
| `ReflectionCache.TieredLocalHit` | src/ReflectionCacheApc.php:83-86 | a loosely-true local value is the answer whatever APC holds |
| `ReflectionCache.TieredFallThrough` | src/ReflectionCacheApc.php:85-92 | a loosely-false local value falls through to APC: APC's data on a hit, `false` otherwise, independent of the local value |
| `ReflectionCache.TieredStoreFetch` | src/ReflectionCacheApc.php:81-107 | after a store through both tiers the key reads back as the stored value, even when it is loosely false |
| `ReflectionCache.ReflectionCacheApc.constructor` | src/ReflectionCacheApc.php:41-53 | the time to live starts at 5; the given local cache is used, or a fresh empty one |
| `ReflectionCache.ReflectionCacheApc.SetTimeToLive` | src/ReflectionCacheApc.php:64-70 | a positive number of seconds replaces the time to live, anything else leaves it; returns the cache itself |
| `ReflectionCache.ReflectionCacheApc.Fetch` | src/ReflectionCacheApc.php:81-93 | answers the local value when loosely true, else APC's data or `false`; writes neither tier |
| `ReflectionCache.ReflectionCacheApc.Store` | src/ReflectionCacheApc.php:103-107 | writes the local tier, and APC with the current time to live |
| `CachingReflection.KeysIgnoreCase` | src/CachingReflector.php:57-218 | names equal up to ASCII case give the same class, constructor, parameter-list, function and method keys |
| `CachingReflection.NameKeysInjective` | src/CachingReflector.php:57-190 | two names share a class, constructor, parameter-list or function key only when they are equal up to case |
| `CachingReflection.KindsDisjoint` | src/CachingReflector.php:31-35 | the five prefixes keep the kinds apart: no class, constructor, parameter-list, function or method key equals one of another kind |
| `CachingReflection.ClassLookupRepeats` | src/CachingReflector.php:55-65 | a second getClass of the same name up to case returns the first object and makes nothing |
| `CachingReflection.ConstructorLookupRepeats` | src/CachingReflector.php:76-89 | a second getConstructor returns the first answer, a null constructor included, and makes nothing |
| `CachingReflection.NullConstructorCached` | src/CachingReflector.php:80-88 | for a class without a constructor, getConstructor answers null, caches it, and answers again by a hit that makes nothing |
| `CachingReflection.ConstructorParamsHit` | src/CachingReflector.php:104-107 | a cached parameter list (anything but `false`) returns at once and stores nothing |
| `CachingReflection.ConstructorParamsNull` | src/CachingReflector.php:108-116 | with no loosely-true constructor, getConstructorParams answers null and stores null |
| `CachingReflection.ConstructorParamsRepeats` | src/CachingReflector.php:100-117 | a second getConstructorParams returns the first answer unchanged |
| `CachingReflection.ClosureHintUncached` | src/CachingReflector.php:141-148 | a closure's hint does not depend on the cache contents, and is stored under the null key (PHP's "") |
| `CachingReflection.HintNullIffUntyped` | src/CachingReflector.php:154-171 | on a miss the hint is null exactly when the parameter has no class-like type; with one it is the class's canonical name, or the reflection error |
| `CachingReflection.HintKeyIsNotClassKey` | src/CachingReflector.php:137-146 | a parameter's hint key never equals a class key of a dot-free class name |
| `CachingReflection.HintPrepopulatesClass` | src/CachingReflector.php:165-173 | after a hint miss with a class-like type, getClass of the hint is a cache hit returning the reflection made for the hint |
| `CachingReflection.FunctionLookupRepeats` | src/CachingReflector.php:187-200 | a second getFunction returns the first object and makes nothing |
| `CachingReflection.MethodLookupRepeats` | src/CachingReflector.php:212-226 | a second getMethod returns the first object and makes nothing |
| `CachingReflection.MethodLookupOnInstance` | src/CachingReflector.php:214-218 | getMethod on an instance answers and caches exactly as getMethod on its class name |
| `CachingReflection.CachingReflector.constructor` | src/CachingReflector.php:40-44 | uses the given cache or a fresh empty one; nothing made yet |
| `CachingReflection.CachingReflector.GetClass` | src/CachingReflector.php:55-65 | answer and new cache state are those of the class lookup (loose miss test) |
| `CachingReflection.CachingReflector.GetConstructor` | src/CachingReflector.php:76-89 | answer and new state are those of the constructor lookup (strict `=== false` miss test) |
| `CachingReflection.CachingReflector.GetConstructorParams` | src/CachingReflector.php:100-117 | answer and new state are those of the parameter-list lookup |
| `CachingReflection.CachingReflector.GetParamTypeHint` | src/CachingReflector.php:133-176 | answer and new state are those of the type-hint lookup, with its two stores on a miss |
| `CachingReflection.CachingReflector.GetFunction` | src/CachingReflector.php:187-200 | answer and new state are those of the function lookup (strict miss test) |
| `CachingReflection.CachingReflector.GetMethod` | src/CachingReflector.php:212-226 | answer and new state are those of the method lookup (loose miss test) |
| `InjectionChains.FlipStack` | src/InjectionChain.php:43-46 | the chain made from the injector's stack lists the names by ordinal, root first |
| `InjectionChains.FlipInverts` | src/InjectionChain.php:45 | with distinct ordinals the chain maps each ordinal back to its name |
| `InjectionChains.GetChainIsFlip` | src/InjectionChain.php:55-58 | getChain answers exactly the flipped input, with one entry per ordinal |
| `InjectionChains.DecimalRoundTrip` | src/InjectionChain.php:78-82 | an integer's decimal spelling is numeric and casts back to the integer |
| `InjectionChains.GetByIndexFromRoot` | src/InjectionChain.php:82-90 | index i, for 0 <= i < n, is the name with ordinal i |
| `InjectionChains.GetByIndexFromEnd` | src/InjectionChain.php:84-86 | index -k, for 1 <= k <= n, is the name at n-k, so -1 is the innermost type |
| `InjectionChains.GetByIndexOutOfRange` | src/InjectionChain.php:84-90 | an index >= n or < -n answers `false` |
| `InjectionChains.GetByIndexNonNumeric` | src/InjectionChain.php:78-80 | a non-numeric index throws "Index needs to be a numeric value." |
| `InjectionChains.GetByIndexEmpty` | src/InjectionChain.php:88-90 | on an empty chain every numeric index answers `false` |
| `InjectionChains.GetByIndexNumericString` | src/InjectionChain.php:78-82 | a numeric string index behaves as the integer it spells |
| `InjectionExceptions.KSortSortsAndPermutes` | src/Exception/InjectionException.php:33 | `ksort` orders the entries by key and keeps exactly the entries it was given |
| `InjectionExceptions.KSortStrict` | src/Exception/InjectionException.php:33 | on an array (no key twice) `ksort` orders the keys strictly |
| `InjectionExceptions.KSortOfSorted` | src/Exception/InjectionException.php:33 | `ksort` leaves an array already in key order unchanged |
| `InjectionExceptions.DependencyChainOrdered` | src/Exception/InjectionException.php:32-33 | for any in-progress map the chain is its flip with ordinals strictly ascending |
| `InjectionExceptions.DependencyChainOfStack` | src/Exception/InjectionException.php:32-33 | for the injector's stack the chain is ordinal i => the i-th name, root first |
| `InjectionExceptions.RenderCallable` | src/Exception/InjectionException.php:46-63 | the rendering of a callable is null or a string |
| `InjectionExceptions.Truncate` | src/Exception/InjectionException.php:67 | `substr($s, 0, 250)` is the whole string when it has at most 250 characters, and exactly its first 250 otherwise |
| `InjectionExceptions.MessageCarriesCallable` | src/Exception/InjectionException.php:65-75 | the message carries exactly the truncated rendering when it is loosely true, and no rendering otherwise |
| `InjectionExceptions.MessageBounded` | src/Exception/InjectionException.php:65-75 | every message starts with the invokable message and has at most 250 characters of callable |
| `InjectionExceptions.StringCallableMessage` | src/Exception/InjectionException.php:48-72 | a loosely-true string gives "M_INVOKABLE. Invalid callable was 's'" with s cut to 250 characters |
| `InjectionExceptions.FalsyStringMessage` | src/Exception/InjectionException.php:65-75 | the strings '' and '0' give the bare invokable message |
| `InjectionExceptions.StaticPairRendering` | src/Exception/InjectionException.php:54-55 | `[class, method]` renders as "class::method" |
| `InjectionExceptions.InstancePairRendering` | src/Exception/InjectionException.php:56-61 | `[object, method]` renders as "[object(class), 'method']" |
| `InjectionExceptions.OtherShapesMessage` | src/Exception/InjectionException.php:50-75 | a non-string, non-pair callable (closure, number, array of another shape) gives the bare invokable message |
| `InjectionExceptions.InjectionException.constructor` | src/Exception/InjectionException.php:30-36 | the chain is the in-progress map flipped and sorted by ordinal; message and code as given |
| `InjectionExceptions.InjectionException.GetDependencyChain` | src/Exception/InjectionException.php:86-89 | answers the stored chain |
| `InjectionExceptions.InjectionException.FromInvalidCallable` | src/Exception/InjectionException.php:41-78 | a new exception with code 5, the invalid-callable message and the dependency chain of the map |
| `ConfigInjector.RunStops` | src/Injector.php:108-117 | once a walk step fails, nothing after it runs and the registration ends as that step did |
| `ConfigInjector.RunConcat` | src/Injector.php:109-111 | the three walks run one after another, each starting where the previous stopped, and only if it succeeded |
| `ConfigInjector.RunSimpleItems` | src/Injector.php:109-110 | the alias and share walks succeed exactly when each of their calls is accepted, and then log exactly those calls in order |
| `ConfigInjector.AliasCallsAre` | src/Injector.php:130-136 | the alias walk issues `alias(k, v)` exactly for its entries `k => v` with `k !== v` |
| `ConfigInjector.ShareCallsAre` | src/Injector.php:148-151 | the share walk issues `share(k)` exactly for its keys k |
| `ConfigInjector.StepAppends` | src/Injector.php:130-188 | each callback only appends calls, all of its own kind |
| `ConfigInjector.RunExtendsLog` | src/Injector.php:108-117 | a registration never takes back a call already made |
| `ConfigInjector.RunRanked` | src/Injector.php:109-111 | elements visited in rank order produce calls in rank order |
| `ConfigInjector.PlanRankSorted` | src/Injector.php:109-111 | the three walks visit all aliases, then all shares, then all config files |
| `ConfigInjector.RegistrationCallOrder` | src/Injector.php:86-118 | in one registration every alias call precedes every share call, which precedes every make and define |
| `ConfigInjector.PlanRunCalls` | src/Injector.php:108-111 | a successful registration logs the alias calls, the share calls, then only make and define calls |
| `ConfigInjector.RegistrationSplit` | src/Injector.php:108-111 | an alias or share call is in a registration's log exactly when the alias or share walk issued it |
| `ConfigInjector.RegistrationAliases` | src/Injector.php:95-136 | a successful registration aliases a name to its standard target when it has one, otherwise to its shared target, and never to itself |
| `ConfigInjector.RegistrationShares` | src/Injector.php:148-151 | a successful registration shares exactly the keys of `sharedAliases`, not their targets |
| `ConfigInjector.SelfAliasSkipped` | src/Injector.php:132-134 | an alias entry naming itself issues nothing and changes nothing |
| `ConfigInjector.AbsentKeyIsEmpty` | src/Injector.php:89-94 | a key missing from the config behaves as an empty array |
| `ConfigInjector.EmptyConfigRegistersNothing` | src/Injector.php:86-118 | with none of the three keys present the registration succeeds and changes nothing |
| `ConfigInjector.UnreadableKeyFails` | src/Injector.php:88-106 | a key whose read throws ends the registration as InvalidMappingsException before any call |
| `ConfigInjector.MissingPathBlocks` | src/Injector.php:167-174 | a config-file entry without `path` makes its walk fail |
| `ConfigInjector.MissingPathFailsRegistration` | src/Injector.php:112-117 | a registration with a config-file entry lacking `path` ends as InvalidMappingsException |
| `ConfigInjector.DefineConfigArgument` | src/Injector.php:175-187 | a successful config entry makes a config from the file's contents and defines its name with `':config'` set to the sub-config when `subKey` is present, to the whole config otherwise |
| `ConfigInjector.FetchKeepsMemo` | src/Injector.php:214-217 | fetching keeps the memo invariant: cached contents are what the loader gave, each cached path was loaded exactly once, and a path that loads is cached |
| `ConfigInjector.StepKeepsMemo` | src/Injector.php:165-188 | each callback keeps the memo invariant |
| `ConfigInjector.RunKeepsMemo` | src/Injector.php:108-117 | a walk keeps the memo invariant |
| `ConfigInjector.RegistrationKeepsMemo` | src/Injector.php:86-118 | every registration keeps the memo invariant, so a file that loads is loaded once over the injector's life |
| `ConfigInjector.FetchCached` | src/Injector.php:214-219 | a readable path already cached is answered from the cache, without loading |
| `ConfigInjector.FetchTwice` | src/Injector.php:203-220 | fetching a path again after a success answers the same and loads nothing more |
| `ConfigInjector.Injector.constructor` | src/Injector.php:48 | a new injector has made no calls and cached no file |
| `ConfigInjector.Injector.Issue` | src/Injector.php:135 | a call on the parent injector is logged, or refused with its error |
| `ConfigInjector.Injector.FetchConfigData` | src/Injector.php:203-220 | answer and new state are those of the fetch: unreadable fails, cached is reused, otherwise loaded once and cached |
| `ConfigInjector.Injector.MapAliases` | src/Injector.php:130-136 | answer and new state are those of one alias step |
| `ConfigInjector.Injector.ShareAliases` | src/Injector.php:148-151 | answer and new state are those of one share step |
| `ConfigInjector.Injector.DefineConfigFiles` | src/Injector.php:165-188 | answer and new state are those of one config-file step |
| `ConfigInjector.Injector.WalkAliases` | src/Injector.php:109 | the loop's answer and new state are those of the alias walk |
| `ConfigInjector.Injector.WalkShares` | src/Injector.php:110 | the loop's answer and new state are those of the share walk |
| `ConfigInjector.Injector.WalkConfigFiles` | src/Injector.php:111 | the loop's answer and new state are those of the config-file walk |
| `ConfigInjector.Injector.RegisterMappings` | src/Injector.php:86-118 | outcome and new state are those of the registration, and the memo invariant is kept |

## Left out

- **The parent Auryn injector.** Its resolution, aliasing, sharing,
  definitions, preparations, delegates and execution are not part of this
  model. Its `alias`, `share`, `make` and `define` appear only as logged
  calls, and a set of refused calls stands for its exceptions.
- **The `Injector` constructor.** It calls the parent constructor,
  `processConfig` (a trait of the config library) and then
  `registerMappings` once. The model's constructor only starts an empty
  injector; `RegisterMappings` is its own method.
- **Other config keys.** `argumentDefinitions`, `argumentProviders`,
  `delegations` and `preparations` are not handled by `registerMappings`,
  and neither by the model.
- **The messages of `Injector.php`.** The gettext, `sprintf` and
  `json_encode` texts of its exceptions are not modelled. The errors are
  kept as a `SetupError` value instead.
- **The config library.** `Loader::load` and `getSubConfig` are not part of
  this model. A file's loaded contents and the sub-keys a config lacks are
  given by the environment.
- **`(array)` of an object.** Casting an object to an array gives its
  properties in PHP. The model gives no entries.
- **Array keys.** PHP turns a numeric-string key into an integer key, and
  `array_merge` renumbers integer keys. The alias tables are modelled with
  string keys only, and a config path like "12" is not turned into an
  integer key.
- **`StandardReflector`.** It is a pass-through to PHP's reflection classes,
  which are given as the `Runtime` oracle.
- **`ReflectionCache` as an interface.** Dafny traits are not used here, so
  both `CachingReflector` and `ReflectionCacheApc` hold a
  `ReflectionCacheArray`. A `CachingReflector` over the APC cache is not
  modelled; the APC cache's own behaviour is.
- **The injected `$reflector` of `CachingReflector`.** It is stored and never
  read, so it is not modelled.
- **The PHP version branch of `getParamTypeHint`.** Only the PHP 7 branch
  is modelled, as the parameter's declared type; PHP 5's
  `$param->getClass()` is not.
- **Inheritance.** Methods are looked up in the declaring class's table as
  the `Runtime` gives it; inherited-method resolution is not modelled.
- **APC expiry and serialisation.** APC is a map that keeps every entry and
  its time to live; nothing expires.
- ReflectionCache.ReflectionCacheApc.SetTimeToLive: takes an integer, so the `(int)`
  cast of a non-integer argument is not modelled.
- InjectionChains.GetByIndexNumericString: the index model treats as numeric only integers and
  integer strings (an optional sign and digits). `is_numeric` also accepts
  leading whitespace, decimals and exponents, and `(int)` truncates those;
  this is not modelled. PHP values hold no floats here either, so a float
  index such as `1.5` (numeric, cast to 1) cannot be expressed.
- InjectionExceptions.Truncate: counts characters where PHP's `substr`
  counts bytes. The two agree on ASCII.
- **The `$previous` exception.** The chained exception of
  `InjectionException` and its `RuntimeException` base are not modelled.
- **The second `array_key_exists(0, …)` test in `fromInvalidCallable`.**
  It tests index 0 twice. A pair without index 1 reads `null` there (with
  a PHP notice), which is not a string, so the bare message results; the
  model reads a missing index 1 as `null`. The notice itself is not
  modelled.
