# ngxs-pouchdb-plugin, modelled in Dafny

`NgxsPouchDbPlugin` is an NGXS plugin. It keeps fragments of an NGXS state tree
in a key-value storage engine (localStorage or PouchDB). On an init or update
action, `handle` works in six steps:

1. It computes the key set.
2. It reads every key and deserializes each truthy raw value.
3. It picks at most one migration per key.
4. It folds the loaded fragments into the state.
5. In master mode, it may migrate the whole tree.
6. It hands the result to `next`, then writes fragments back to the storage.

What `handle` returns is the stream of write-back emissions: one per key and
per hydrated record of that key. Each emission is the completion of a
`setItem` or the `undefined` of a skipped write. It is not the state: the store
takes `next`'s state inside `next`.

On any other action, `handle` passes the state straight to `next` and writes
every key back. `storageOptionsFactory` merges the user's options over the
defaults: the key `'@@STATE'` (master mode), PouchDB storage and the host JSON
codec.

The project has five modules:

- `Wrappers` (wrappers.dfy) holds `Option`.
- `Values` (values.dfy) models JavaScript values as far as state trees and JSON
  documents need them. It covers truthiness, strict equality, ordered object
  properties and the dotted-path `getValue` / `setValue` of `@ngxs/store`, with
  the get-after-set and frame laws.
- `StorageOptions` (options.dfy) holds the options records and
  `storageOptionsFactory`.
- `PouchDbPlugin` (plugin.dfy) has one function per step of `handle` and
  `HandleSpec`, the whole invocation as a function. The class
  `NgxsPouchDbPlugin` owns the storage map. Its methods load, fold and write
  back in loops, and each method is proved equal to the matching function.
- `PluginProperties` (properties.dfy) holds what one or two invocations
  promise.
- `Scenarios` (scenarios.dfy) holds the behaviours that
  src/tests/pouchdb.plugin.localstorage.spec.ts checks, stated over the model.
  It uses a `counter` store and the host JSON codec, given only by what each
  test needs of it.

The host's `JSON.stringify` and `JSON.parse` are parameters (`JsonCodec`), and
so are the user's `serialize`, `deserialize`, the migration functions and
`next`. A deserializer that throws answers `None`.

## Model

| member | source | states |
|---|---|---|
| Values.Truthy | src/ngxs.pouchdb.plugin.ts:54 | JavaScript truthiness: every object and array is truthy; `undefined`, `null`, `0` and `''` are falsy |
| Values.GetPath | src/ngxs.pouchdb.plugin.ts:71 | `getValue`'s walk over a split path: a falsy value stops the walk and is the answer; one step into a truthy value is a property read |
| Values.GetValue | src/ngxs.pouchdb.plugin.ts:126 | `getValue(v, key)` on a falsy tree is the tree itself, whatever the key |
| Values.SetPath | src/ngxs.pouchdb.plugin.ts:93 | `setValue`'s walk over a split path always yields an object; on an object it leaves every top-level name other than the path's first segment alone |
| Values.SetValue | src/ngxs.pouchdb.plugin.ts:93 | `setValue(v, key, x)` always yields an object; on an object it leaves every top-level name other than the key's first segment alone |
| Values.PutKeepsNamesDistinct | src/ngxs.pouchdb.plugin.ts:93 | assigning a property keeps an object's names pairwise distinct |
| Values.Put | src/ngxs.pouchdb.plugin.ts:93 | assigning a property makes it read the new value; every other property reads as before |
| Values.PutNames | src/ngxs.pouchdb.plugin.ts:93 | an assigned property keeps its place among the names; a new one is appended after all others |
| Values.Split | src/ngxs.pouchdb.plugin.ts:71 | a dotted key splits into at least one segment; no segment holds a dot; joining the segments with dots gives the key back |
| Values.SplitJoin | src/ngxs.pouchdb.plugin.ts:71 | splitting inverts joining for dot-free segments |
| Values.GetValueAfterSetValue | src/ngxs.pouchdb.plugin.ts:93 | `getValue(setValue(v, key, x), key)` is `x` for every tree and every key, dotted or not |
| Values.SetPathFrame | src/ngxs.pouchdb.plugin.ts:93 | setting a path of an object leaves every path with a different first segment unchanged |
| Values.SetValueTopLevel | src/ngxs.pouchdb.plugin.ts:93 | on an object with a dot-free key, `setValue` assigns that one property, keeps all others, and appends the key to `Object.keys` only when it is new |
| Values.SetValueOther | src/ngxs.pouchdb.plugin.ts:93 | on an object with a dot-free key, `setValue` leaves every other property alone |
| Values.GetValueTopLevel | src/ngxs.pouchdb.plugin.ts:126 | on an object with a dot-free key, `getValue` is a plain property read |
| StorageOptions.StorageOptionsFactory | src/ngxs.pouchdb.module.ts:13-21 | master mode iff the user gave no key or gave `'@@STATE'`; migrations are present iff the user gave them; no options at all yield exactly the defaults (`'@@STATE'`, PouchDB storage, `JSON.stringify`, `JSON.parse`, no migrations) |
| StorageOptions.FactoryUserFieldsWin | src/ngxs.pouchdb.module.ts:14-20 | each field the user supplies wins over its default; each field left out keeps its default |
| StorageOptions.FactoryUndefinedIsEmpty | src/ngxs.pouchdb.module.ts:13-21 | spreading `undefined` adds nothing: no options and an empty options object give the same result |
| StorageOptions.FactoryKeepsCompleteOptions | src/ngxs.pouchdb.module.ts:14-20 | complete options pass through the factory unchanged |
| PouchDbPlugin.IsInitAction | src/ngxs.pouchdb.plugin.ts:39-40 | `InitState` and `UpdateState`, and only those action types, count as init actions |
| PouchDbPlugin.Read | src/ngxs.pouchdb.plugin.ts:52 | `getItem` answers `null` for an absent key and the stored value otherwise |
| PouchDbPlugin.KeySet | src/ngxs.pouchdb.plugin.ts:41-42 | master mode yields the state's own top-level names in order; an array key yields the array as given; any other single key yields just that key |
| PouchDbPlugin.Decode | src/ngxs.pouchdb.plugin.ts:53-63 | a truthy raw value that deserializes yields the deserialized value, falsy ones included; a throwing deserializer yields `undefined`; a falsy raw value passes through untouched; so a truthy result always comes from a successful deserialization |
| PouchDbPlugin.VersionPath | src/ngxs.pouchdb.plugin.ts:71 | the version key, or `'version'` in its place: the path is never empty; a non-empty version key is used as given, a missing or empty one becomes `version` |
| PouchDbPlugin.KeyMatches | src/ngxs.pouchdb.plugin.ts:70-73 | a per-key match needs the version to match and the strategy's `key` to be exactly this key |
| PouchDbPlugin.MasterMatches | src/ngxs.pouchdb.plugin.ts:102-105 | a whole-tree match needs the version to match, master mode, and a strategy `key` that is absent or empty |
| PouchDbPlugin.StrategyKindsDisjoint | src/ngxs.pouchdb.plugin.ts:70-105 | no strategy applies both to a fragment with a non-empty name and to the whole tree |
| PouchDbPlugin.FirstWhere | src/ngxs.pouchdb.plugin.ts:69-74 | `filter(p)[0]`: the answer is the first position satisfying `p`, and there is none exactly when no element satisfies `p` |
| PouchDbPlugin.SelectKeyStrategy | src/ngxs.pouchdb.plugin.ts:67-74 | no strategy for a falsy value or without migrations; otherwise the first strategy whose version strictly equals the value at its version path and whose key is this key; a strategy without a key is never chosen |
| PouchDbPlugin.SelectMasterStrategy | src/ngxs.pouchdb.plugin.ts:98-107 | a strategy is chosen only in master mode, only one whose `key` is absent or empty, and only the first whose version matches the folded tree |
| PouchDbPlugin.LoadKey | src/ngxs.pouchdb.plugin.ts:51-81 | a loaded key carries the decoded stored value, plus a strategy exactly when per-key selection found one |
| PouchDbPlugin.LoadAll | src/ngxs.pouchdb.plugin.ts:50-83 | one loaded record per key, in key-set order |
| PouchDbPlugin.Step | src/ngxs.pouchdb.plugin.ts:86-95 | one step of the `reduce`: a falsy loaded value leaves the state as it is; a truthy one can be read back at its key, migrated when a strategy was found |
| PouchDbPlugin.Fold | src/ngxs.pouchdb.plugin.ts:85-96 | the `reduce` seeded with the state: no records give the state back; the last record, when truthy, can be read back at its key |
| PouchDbPlugin.Hydrate | src/ngxs.pouchdb.plugin.ts:85-111 | the hydrated state is the fold of the loaded records, migrated as a whole exactly when a whole-tree strategy matched the folded tree |
| PouchDbPlugin.Persist | src/ngxs.pouchdb.plugin.ts:119-133 | after write-back, each flagged key holds `serialize(getValue(nextState, key))`; every other entry is as it was; no entry other than a flagged key is added |
| PouchDbPlugin.WriteFlags | src/ngxs.pouchdb.plugin.ts:122-124 | a key is written after an ordinary action always; after an init action only if its own strategy was found or the whole-tree migration fired |
| PouchDbPlugin.HandleHydration | src/ngxs.pouchdb.plugin.ts:44-112 | an ordinary action keeps `of(state)` and records nothing; an init action hydrates |
| PouchDbPlugin.HandleSpec | src/ngxs.pouchdb.plugin.ts:37-134 | `next` sees the incoming state on an ordinary action and the hydrated state on an init action; the storage keeps every entry, gains only keys of the key set, and changes no entry outside the key set |
| PouchDbPlugin.KeyEmissions | src/ngxs.pouchdb.plugin.ts:121-128 | a key's emissions on an init action: at most one per record, each a write of that key or a skip; none when no record carries the key |
| PouchDbPlugin.EmissionsFrom | src/ngxs.pouchdb.plugin.ts:120-131 | the emissions from a position of the key set on: after an ordinary action one write per remaining key, in order; every write is of a key in the key set |
| PouchDbPlugin.Emissions | src/ngxs.pouchdb.plugin.ts:119-133 | the stream `handle` returns: nothing for an empty key set; one write per key, in order, after an ordinary action; every write is of a key in the key set |
| PouchDbPlugin.HandleEmissions | src/ngxs.pouchdb.plugin.ts:119-133 | what one invocation returns: no emission when the key set is empty (master mode on `{}`), one per key after an ordinary action |
| PouchDbPlugin.NgxsPouchDbPlugin.constructor | src/ngxs.pouchdb.plugin.ts:27-35 | the plugin keeps the engine's contents and options; a synchronous engine is reached through the proxy, an asynchronous one directly |
| PouchDbPlugin.NgxsPouchDbPlugin.LoadAndFold | src/ngxs.pouchdb.plugin.ts:50-96 | the load loop yields exactly the records of `LoadAll`, and the running state is their fold |
| PouchDbPlugin.NgxsPouchDbPlugin.Rehydrate | src/ngxs.pouchdb.plugin.ts:48-111 | loading, folding and the whole-tree migration together give exactly `Hydrate` |
| PouchDbPlugin.NgxsPouchDbPlugin.WriteBack | src/ngxs.pouchdb.plugin.ts:119-133 | the write loop leaves the storage exactly as `Persist` describes |
| PouchDbPlugin.NgxsPouchDbPlugin.Handle | src/ngxs.pouchdb.plugin.ts:37-134 | `handle` returns exactly the write-back emissions of `HandleEmissions`; the state `next` produced (handed back beside them, not returned by `handle`) and the storage afterwards are exactly `HandleSpec` of the storage before |
| PluginProperties.FoldKeepsStateWithoutValues | src/ngxs.pouchdb.plugin.ts:86-96 | when no loaded value is truthy, the fold returns the incoming state itself |
| PluginProperties.FoldKeepsObject | src/ngxs.pouchdb.plugin.ts:86-96 | the fold of an object state is an object |
| PluginProperties.FoldSetsTruthyFragment | src/ngxs.pouchdb.plugin.ts:86-96 | over plain, distinct keys, the key loaded at any position with a truthy value holds that value, migrated when a strategy was selected |
| PluginProperties.FoldSetsTruthyFragments | src/ngxs.pouchdb.plugin.ts:86-96 | the same, for every truthy key at once |
| PluginProperties.FoldKeepsUnassignedAt | src/ngxs.pouchdb.plugin.ts:86-96 | a property that no truthy key assigned keeps its value through the fold |
| PluginProperties.FoldKeepsUnassigned | src/ngxs.pouchdb.plugin.ts:86-96 | the same, for every such property |
| PluginProperties.FoldKeepsKeys | src/ngxs.pouchdb.plugin.ts:86-96 | when every key already names a property (master mode), the fold adds no property |
| PluginProperties.UnusableRecordKeepsFragment | src/ngxs.pouchdb.plugin.ts:54-62 | a missing, falsy or undeserializable record leaves the state as it was |
| PluginProperties.OrdinaryActionPersistsEveryKey | src/ngxs.pouchdb.plugin.ts:114-128 | on an ordinary action, `next` sees the incoming state; every key is written from `next`'s result; nothing else changes |
| PluginProperties.InitWritesOnlyMigratedKeys | src/ngxs.pouchdb.plugin.ts:114-127 | on an init action, `next` sees the hydrated state; a key is written from `next`'s result exactly when its own strategy or the whole-tree migration fired; every other entry is untouched and no other entry appears |
| PluginProperties.InitWithoutMigrationsWritesNothing | src/ngxs.pouchdb.plugin.ts:67-124 | without migrations, an init action hands `next` the plain fold and leaves the storage exactly as it was |
| PluginProperties.PersistNothing | src/ngxs.pouchdb.plugin.ts:124 | a write-back in which every key is skipped leaves the storage as it was |
| PluginProperties.PersistedFragmentRehydrates | src/ngxs.pouchdb.plugin.ts:50-127 | what an ordinary action writes, a later init reads back: with a round-tripping codec, the next init sets that fragment and writes nothing |
| PluginProperties.MasterKeysDistinct | src/ngxs.pouchdb.plugin.ts:42 | in master mode the key set of an object with distinct names has no repeated key |
| PluginProperties.KeyEmissionsSingle | src/ngxs.pouchdb.plugin.ts:121-128 | a key carried by exactly one record emits once: a write if that record's strategy was found or the whole-tree migration fired, a skip otherwise |
| PluginProperties.EmissionsFollowFlags | src/ngxs.pouchdb.plugin.ts:119-133 | over distinct keys the write-back stream emits exactly once per key, in key-set order, a write exactly where the key's write flag is set |
| PluginProperties.HandleEmissionsFollowFlags | src/ngxs.pouchdb.plugin.ts:37-134 | the same for the stream one invocation returns |
| PluginProperties.EmissionsFollowWrites | src/ngxs.pouchdb.plugin.ts:119-133 | each write emission of an invocation is a storage entry holding `next`'s fragment, serialized; each skip leaves its entry as it was |
| Scenarios.InitOneFragment | src/ngxs.pouchdb.plugin.ts:48-133 | an init on a one-fragment state loads, folds and may migrate the fragment; it writes that fragment back only if a migration fired |
| Scenarios.OrdinaryOneFragment | src/ngxs.pouchdb.plugin.ts:114-128 | an ordinary action in master mode on a one-fragment state writes that fragment from `next`'s result |
| Scenarios.RepeatAdvances | src/ngxs.pouchdb.plugin.ts:114-128 | repeating an ordinary action that advances the one fragment leaves the last fragment both in the store and, serialized, in the storage |
| Scenarios.StoredHundredHydrates | src/tests/pouchdb.plugin.localstorage.spec.ts:94-117 | a stored `{count: 100}` replaces the default `{count: 0}` on init, and the storage is left as it was |
| Scenarios.IncrementsAccumulate | src/tests/pouchdb.plugin.localstorage.spec.ts:119-149 | `n` increments from `{count: c}` leave `{count: c + n}` in the store and its serialization in the storage |
| Scenarios.FiveIncrementsPersist105 | src/tests/pouchdb.plugin.localstorage.spec.ts:119-149 | from a stored 100, the init hydrates 100; after five increments the store and the storage both hold 105 |
| Scenarios.UnreadableRecordKeeps123 | src/tests/pouchdb.plugin.localstorage.spec.ts:151-224 | localStorage keeps `null` and `undefined` as the strings `'null'` and `'undefined'`; the first parses to `null`, the second makes the parser throw; either way the default `{count: 123}` stays and nothing is written |
| Scenarios.WholeTreeMigrationWritesBack | src/tests/pouchdb.plugin.localstorage.spec.ts:226-261 | a version-1 fragment under a whole-tree strategy at `counter.version` is migrated, and `{counts: 100, version: 2}` is written back |
| Scenarios.SingleKeyMigrationWritesBack | src/tests/pouchdb.plugin.localstorage.spec.ts:263-300 | with key `counter` and a per-key strategy for version 1, the fragment is migrated, and `{counts: 100, version: 2}` is written back |
| Scenarios.FeatureFragmentKeepsDefault | src/tests/pouchdb.plugin.localstorage.spec.ts:302-322 | in master mode a feature fragment with nothing stored under its name keeps its default; a blob under `'@@STATE'` itself is never read |

## Left out

- Scheduling is sequential. `concatMap`, `zip`, `mergeMap` and the asynchronous engine calls run one after another in key-set order. Interleaving with other dispatches is not modelled.
- PouchDbPlugin.NgxsPouchDbPlugin.Handle: write-back reuses the records loaded during hydration. The source re-subscribes to the cold `initKeyVal$` (src/ngxs.pouchdb.plugin.ts:121), which reads the storage a second time. The model assumes no other writer changes a key between its hydrate read and its write-back read. The plugin's own writes do not break this: each re-subscription uses only its own key's record, and reads it before that key is written.
- PouchDbPlugin.NgxsPouchDbPlugin.Handle: the value each `setItem` emits is not modelled. `Written(key)` stands for it, whatever the engine emits. The emissions come in key-set order; an asynchronous engine under `mergeMap` may interleave them.
- PouchDbPlugin.Read: engine failures are not modelled. In the source, a `getItem` or `setItem` stream that errors (line 52, line 127) aborts `handle`, and the PouchDB engine's `setItem` fails for a missing document. In the model, `Read` and `Persist` always succeed.
- PouchDbPlugin.Emissions: for a key listed twice in a configured key array, each record's write-or-skip comes from the hydration read. In the source, the second record is re-read after the first record's write. Its strategy may then differ, and so may its write-or-skip emission.
- PouchDbPlugin.Persist: a key listed twice in a configured key array is written once per listing in the model. In the source, the `filter` at line 122 matches every record with that name, so the write happens once per pair of listings. The final contents are the same either way.
- The duck-typed engine probe (`typeof length === 'function'`) and `AsyncStorageEngineProxy` are replaced by a tagged `Engine`. src/symbols.ts is not part of this model, and neither is any `StorageOption` value other than the two used here.
- The `this._options || {}` fallback at line 38 is not modelled: the factory always supplies options.
- User options that set a field explicitly to `undefined` (which the spread would copy) are not modelled: a field is either given or left out.
- `NgxsPouchDbPluginModule.forRoot`, its Angular providers and src/providers/db.provider.ts are dependency-injection wiring and database I/O.
- The `console.error` call on a failed deserialization is left out.
- A `migrate` or `next` that throws is not modelled. A `migrate` that mutates its argument in place is modelled by the value it returns.
- Numbers are integers. Floating point, `NaN` and `-0` are not modelled, and neither is `Number()` of a non-number in the test store (taken as 0).
- `getValue` and `setValue` walk objects only. Indexing into arrays or strings, inherited properties, and `setValue` through a string or array intermediate are not modelled.
- JavaScript's ordering of integer-like property names ahead of other names is not modelled: properties keep insertion order.
- `JSON.stringify` and `JSON.parse` are parameters, specified only by what each scenario needs of them (for example, that parsing a stored text yields `{count: 100}`).
- src/tests/pouchdb.plugin.pouchdb.spec.ts and src/tests/pouchdb.plugin.localstorage.counter.spec.ts exercise the same `handle` through another engine. They are not restated as scenarios.
