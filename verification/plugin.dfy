/** `NgxsPouchDbPlugin.handle` (src/ngxs.pouchdb.plugin.ts): on an init or update
    action, rehydrate each fragment from storage, migrate it, fold it into the state,
    optionally migrate the whole tree, hand the result to `next`, then write the
    fragments back. The steps are functions; the plugin object, which owns the
    storage, runs them in `Handle`. */
module PouchDbPlugin {
  import opened Wrappers
  import opened Values
  import opened StorageOptions

  /** An action dispatched to the store, identified by its type. */
  datatype Action = Action(actionType: string)

  /** The types of `@ngxs/store`'s `InitState` and `UpdateState` actions. */
  const InitStateType: string := "@@INIT"
  const UpdateStateType: string := "@@UPDATE_STATE"

  /** `matches(InitState) || matches(UpdateState)`. */
  predicate IsInitAction(a: Action)
    ensures a == Action(InitStateType) || a == Action(UpdateStateType) ==> IsInitAction(a)
    ensures IsInitAction(a) ==> a.actionType in {InitStateType, UpdateStateType}
  {
    a.actionType == InitStateType || a.actionType == UpdateStateType
  }

  // ---------------------------------------------------------------------------
  // Step 1: the key set

  /** The fragment keys of one invocation. */
  function KeySet(state: Json, key: KeySpec): (keys: seq<string>)
    ensures IsMaster(key) ==> keys == Keys(state)
    ensures key.Many? ==> keys == key.keys
    ensures key.Single? && !IsMaster(key) ==> keys == [key.key]
  {
    if IsMaster(key) then Keys(state)
    else if key.Many? then key.keys
    else [key.key]
  }

  // ---------------------------------------------------------------------------
  // Step 2: load and deserialize

  /** `getItem(key)` on the storage: the raw stored value, `null` when absent. */
  function Read(items: map<string, Json>, key: string): (raw: Json)
    ensures key !in items ==> raw == Null
    ensures key in items ==> raw == items[key]
  {
    if key in items then items[key] else Null
  }

  /** A raw value is deserialized only when truthy; a deserializer that throws
      yields `undefined`. So a truthy result always is a successful
      deserialization, and a falsy raw value is passed on as it is. */
  function Decode(raw: Json, deserialize: Json -> Option<Json>): (v: Json)
    ensures Truthy(v) ==> Truthy(raw) && deserialize(raw) == Some(v)
    ensures !Truthy(raw) ==> v == raw
    ensures Truthy(raw) && deserialize(raw).None? ==> v == Undefined
    ensures Truthy(raw) && deserialize(raw).Some? ==> v == deserialize(raw).value
  {
    if Truthy(raw) then
      match deserialize(raw)
      case Some(v) => v
      case None => Undefined
    else raw
  }

  // ---------------------------------------------------------------------------
  // Step 3: strategy selection

  /** `strategy.versionKey || 'version'`. */
  function VersionPath(s: MigrationStrategy): (path: string)
    ensures path != ""
    ensures s.versionKey.Some? && s.versionKey.value != "" ==> path == s.versionKey.value
    ensures s.versionKey.None? || s.versionKey.value == "" ==> path == "version"
  {
    if s.versionKey.None? || s.versionKey.value == "" then "version" else s.versionKey.value
  }

  /** `strategy.version === getValue(v, versionPath)`. */
  predicate VersionMatches(s: MigrationStrategy, v: Json) {
    StrictEquals(s.version, GetValue(v, VersionPath(s)))
  }

  /** The per-fragment filter: the version matches and `strategy.key === key`. */
  predicate KeyMatches(s: MigrationStrategy, v: Json, key: string)
    ensures KeyMatches(s, v, key) ==> VersionMatches(s, v) && s.key.Some? && s.key.value == key
  {
    VersionMatches(s, v) && s.key == Some(key)
  }

  /** The whole-tree filter: the version matches, `!strategy.key` (absent or the
      empty string) and the plugin is in master mode. */
  predicate MasterMatches(s: MigrationStrategy, v: Json, isMaster: bool)
    ensures MasterMatches(s, v, isMaster) ==>
      VersionMatches(s, v) && isMaster && (s.key.None? || s.key.value == "")
  {
    VersionMatches(s, v) && (s.key.None? || s.key == Some("")) && isMaster
  }

  /** No strategy applies both to a fragment with a non-empty name and to the whole
      tree: the first needs `strategy.key === key`, the second `!strategy.key`. */
  lemma StrategyKindsDisjoint(s: MigrationStrategy, v: Json, key: string, isMaster: bool)
    requires key != ""
    ensures !(KeyMatches(s, v, key) && MasterMatches(s, v, isMaster))
  {
  }

  /** `ms.filter(p)[0]`, as the position of that element: the first one satisfying
      `p`, or none when no element does. */
  function FirstWhere(ms: seq<MigrationStrategy>, p: MigrationStrategy -> bool): (r: Option<nat>)
    ensures r.Some? ==> r.value < |ms| && p(ms[r.value])
    ensures r.Some? ==> forall j :: 0 <= j < r.value ==> !p(ms[j])
    ensures r.None? ==> forall j :: 0 <= j < |ms| ==> !p(ms[j])
  {
    if ms == [] then None
    else if p(ms[0]) then Some(0)
    else
      match FirstWhere(ms[1..], p)
      case None => None
      case Some(i) => Some(i + 1)
  }

  /** Lines 67-74: no strategy for a falsy value or without configured migrations;
      otherwise the first strategy in list order whose version and key match. */
  function SelectKeyStrategy(v: Json, key: string, migrations: Option<seq<MigrationStrategy>>)
    : (r: Option<nat>)
    ensures r.Some? ==> Truthy(v) && migrations.Some? && r.value < |migrations.value|
    ensures r.Some? ==> KeyMatches(migrations.value[r.value], v, key)
    ensures r.Some? ==> migrations.value[r.value].key == Some(key)
    ensures r.Some? ==> forall j :: 0 <= j < r.value ==> !KeyMatches(migrations.value[j], v, key)
    ensures r.None? && Truthy(v) && migrations.Some? ==>
      forall j :: 0 <= j < |migrations.value| ==> !KeyMatches(migrations.value[j], v, key)
  {
    if !Truthy(v) || migrations.None? then None
    else FirstWhere(migrations.value, s => KeyMatches(s, v, key))
  }

  /** Lines 98-107: the first strategy in list order that applies to the whole
      folded tree, looking its version up in the tree itself. */
  function SelectMasterStrategy(state: Json, isMaster: bool, migrations: Option<seq<MigrationStrategy>>)
    : (r: Option<nat>)
    ensures r.Some? ==> isMaster && migrations.Some? && r.value < |migrations.value|
    ensures r.Some? ==> MasterMatches(migrations.value[r.value], state, isMaster)
    ensures r.Some? ==> forall j :: 0 <= j < r.value ==> !MasterMatches(migrations.value[j], state, isMaster)
    ensures r.None? && migrations.Some? ==>
      forall j :: 0 <= j < |migrations.value| ==> !MasterMatches(migrations.value[j], state, isMaster)
  {
    if migrations.None? then None
    else FirstWhere(migrations.value, s => MasterMatches(s, state, isMaster))
  }

  /** What hydrating one key yields: the key, its decoded value and the per-key
      strategy found for it. */
  datatype Loaded = Loaded(key: string, value: Json, strategy: Option<MigrationStrategy>)

  /** Lines 52-81 for one key: read, decode, select. */
  function LoadKey(items: map<string, Json>, key: string, o: Options): (r: Loaded)
    ensures r.key == key
    ensures r.value == Decode(Read(items, key), o.deserialize)
    ensures r.strategy.Some? <==> SelectKeyStrategy(r.value, key, o.migrations).Some?
    ensures r.strategy.Some? ==>
      r.strategy.value == o.migrations.value[SelectKeyStrategy(r.value, key, o.migrations).value]
  {
    var v := Decode(Read(items, key), o.deserialize);
    var idx := SelectKeyStrategy(v, key, o.migrations);
    Loaded(key, v, if idx.Some? then Some(o.migrations.value[idx.value]) else None)
  }

  /** Lines 50-83: every key loaded, in key-set order. */
  function LoadAll(items: map<string, Json>, keys: seq<string>, o: Options): (rs: seq<Loaded>)
    ensures |rs| == |keys|
    ensures forall i :: 0 <= i < |keys| ==> rs[i] == LoadKey(items, keys[i], o)
    decreases |keys|
  {
    if keys == [] then []
    else LoadAll(items, keys[..|keys| - 1], o) + [LoadKey(items, keys[|keys| - 1], o)]
  }

  // ---------------------------------------------------------------------------
  // Step 4: the fold

  /** The value a loaded key contributes: migrated when a strategy was found. */
  function Migrated(r: Loaded): Json {
    if r.strategy.Some? then r.strategy.value.migrate(r.value) else r.value
  }

  /** One step of the `reduce` (lines 86-96). */
  function Step(prev: Json, r: Loaded): (next: Json)
    ensures !Truthy(r.value) ==> next == prev
    ensures Truthy(r.value) ==> GetValue(next, r.key) == Migrated(r)
  {
    if Truthy(r.value) then
      GetValueAfterSetValue(prev, r.key, Migrated(r));
      SetValue(prev, r.key, Migrated(r))
    else prev
  }

  /** The `reduce` seeded with the current state, over the loaded keys in order. */
  function Fold(state: Json, rs: seq<Loaded>): (r: Json)
    ensures rs == [] ==> r == state
    ensures rs != [] && Truthy(rs[|rs| - 1].value) ==>
      GetValue(r, rs[|rs| - 1].key) == Migrated(rs[|rs| - 1])
    decreases |rs|
  {
    if rs == [] then state else Step(Fold(state, rs[..|rs| - 1]), rs[|rs| - 1])
  }

  // ---------------------------------------------------------------------------
  // Step 5: the whole-tree migration

  /** The state handed to `next` on an init action, and whether the whole-tree
      migration fired (`masterMigrationStrategy`). */
  datatype Hydration = Hydration(results: seq<Loaded>, state: Json, masterApplied: bool)

  /** Lines 50-111: load, fold, then apply the first whole-tree strategy that
      matches the folded tree. */
  function Hydrate(items: map<string, Json>, state: Json, keys: seq<string>, o: Options): (h: Hydration)
    ensures h.results == LoadAll(items, keys, o)
    ensures var m := SelectMasterStrategy(Fold(state, h.results), IsMaster(o.key), o.migrations);
      && h.masterApplied == m.Some?
      && h.state == if m.Some? then o.migrations.value[m.value].migrate(Fold(state, h.results))
                    else Fold(state, h.results)
  {
    var rs := LoadAll(items, keys, o);
    var folded := Fold(state, rs);
    var m := SelectMasterStrategy(folded, IsMaster(o.key), o.migrations);
    Hydration(rs, if m.Some? then o.migrations.value[m.value].migrate(folded) else folded, m.Some?)
  }

  // ---------------------------------------------------------------------------
  // Step 6: write-back

  /** The keys whose flag is set. */
  function FlaggedKeys(keys: seq<string>, flags: seq<bool>): set<string>
    requires |flags| == |keys|
  {
    set i | 0 <= i < |keys| && flags[i] :: keys[i]
  }

  /** Writing `serialize(getValue(nextState, key))` for every flagged key, in
      order: each flagged key holds its serialized fragment afterwards, and every
      other entry of the storage is as it was. */
  function Persist(items: map<string, Json>, keys: seq<string>, flags: seq<bool>, nextState: Json,
                   serialize: Json -> Json): (out: map<string, Json>)
    requires |flags| == |keys|
    ensures out.Keys == items.Keys + FlaggedKeys(keys, flags)
    ensures forall i :: 0 <= i < |keys| && flags[i] ==>
      out[keys[i]] == serialize(GetValue(nextState, keys[i]))
    ensures forall k :: k in items && k !in FlaggedKeys(keys, flags) ==> out[k] == items[k]
    decreases |keys|
  {
    if keys == [] then items
    else
      var n := |keys| - 1;
      var before := Persist(items, keys[..n], flags[..n], nextState, serialize);
      assert FlaggedKeys(keys, flags)
          == FlaggedKeys(keys[..n], flags[..n]) + (if flags[n] then {keys[n]} else {});
      if flags[n] then before[keys[n] := serialize(GetValue(nextState, keys[n]))] else before
  }

  /** Which keys are written: all of them after an ordinary action; after an init
      action only those whose per-key strategy was found, or all of them when the
      whole-tree migration fired. */
  function WriteFlags(isInit: bool, h: Hydration, n: nat): (flags: seq<bool>)
    requires isInit ==> |h.results| == n
    ensures |flags| == n
    ensures forall i :: 0 <= i < n ==>
      (flags[i] <==> !isInit || h.results[i].strategy.Some? || h.masterApplied)
  {
    seq(n, i requires 0 <= i < n => !isInit || h.results[i].strategy.Some? || h.masterApplied)
  }

  /** The result of one invocation: the state `next` produced and the storage. */
  datatype Outcome = Outcome(nextState: Json, items: map<string, Json>)

  /** Hydration happens on an init action only (line 48); any other action keeps
      `of(state)` and records nothing (lines 45-46). */
  function HandleHydration(items: map<string, Json>, state: Json, action: Action, o: Options)
    : (h: Hydration)
    ensures !IsInitAction(action) ==> h.state == state && h.results == [] && !h.masterApplied
    ensures IsInitAction(action) ==> h == Hydrate(items, state, KeySet(state, o.key), o)
  {
    if IsInitAction(action) then Hydrate(items, state, KeySet(state, o.key), o)
    else Hydration([], state, false)
  }

  /** The whole of `handle`: hydrate on an init action only, pass the state to
      `next`, then write back from `next`'s result. Only keys of the key set are
      ever written. */
  function HandleSpec(items: map<string, Json>, state: Json, action: Action,
                      next: (Json, Action) -> Json, o: Options): (out: Outcome)
    ensures !IsInitAction(action) ==> out.nextState == next(state, action)
    ensures IsInitAction(action) ==>
      out.nextState == next(Hydrate(items, state, KeySet(state, o.key), o).state, action)
    ensures items.Keys <= out.items.Keys <= items.Keys + set k | k in KeySet(state, o.key)
    ensures forall k :: k in items && k !in KeySet(state, o.key) ==> out.items[k] == items[k]
  {
    var keys := KeySet(state, o.key);
    var isInit := IsInitAction(action);
    var h := HandleHydration(items, state, action, o);
    var ns := next(h.state, action);
    Outcome(ns, Persist(items, keys, WriteFlags(isInit, h, |keys|), ns, o.serialize))
  }

  /** What the stream returned by `handle` emits (lines 119-133): per key of the key
      set, and per hydrated record carrying that key, either the completion of
      `setItem` (`Written`) or the `of(undefined)` of a skipped write (`Skipped`). */
  datatype Emission = Skipped | Written(key: string)

  /** The emissions for one key on an init action: one per loaded record with that
      key (the filter at line 122), a write when the record's strategy was found or
      the whole-tree migration fired (line 124). */
  function KeyEmissions(rs: seq<Loaded>, key: string, masterApplied: bool): (es: seq<Emission>)
    ensures |es| <= |rs|
    ensures forall e | e in es :: e == Skipped || e == Written(key)
    ensures (forall j :: 0 <= j < |rs| ==> rs[j].key != key) ==> es == []
    decreases |rs|
  {
    if rs == [] then []
    else
      var here := if rs[0].key == key then
                    [if rs[0].strategy.Some? || masterApplied then Written(key) else Skipped]
                  else [];
      here + KeyEmissions(rs[1..], key, masterApplied)
  }

  /** The emissions of the write-back stream from the key at `lo` on, key after key:
      after an ordinary action the single `undefined` of `of(undefined)` passes the
      filter once per key, so every key is written once; after an init action each
      key gets its records' emissions. */
  function EmissionsFrom(keys: seq<string>, isInit: bool, h: Hydration, lo: nat): (es: seq<Emission>)
    requires lo <= |keys|
    ensures lo == |keys| ==> es == []
    ensures !isInit ==> |es| == |keys| - lo && forall j :: 0 <= j < |es| ==> es[j] == Written(keys[lo + j])
    ensures forall e | e in es :: e == Skipped || (e.Written? && e.key in keys)
    decreases |keys| - lo
  {
    if lo == |keys| then []
    else
      var here := if isInit then KeyEmissions(h.results, keys[lo], h.masterApplied) else [Written(keys[lo])];
      here + EmissionsFrom(keys, isInit, h, lo + 1)
  }

  /** The emissions of the whole write-back stream. An empty key set emits nothing. */
  function Emissions(keys: seq<string>, isInit: bool, h: Hydration): (es: seq<Emission>)
    ensures keys == [] ==> es == []
    ensures !isInit ==> |es| == |keys| && forall i :: 0 <= i < |keys| ==> es[i] == Written(keys[i])
    ensures forall e | e in es :: e == Skipped || (e.Written? && e.key in keys)
  {
    EmissionsFrom(keys, isInit, h, 0)
  }

  /** What `handle` returns for one invocation: the emissions of its write-back
      stream. */
  function HandleEmissions(items: map<string, Json>, state: Json, action: Action, o: Options)
    : (es: seq<Emission>)
    ensures KeySet(state, o.key) == [] ==> es == []
    ensures !IsInitAction(action) ==> |es| == |KeySet(state, o.key)|
  {
    Emissions(KeySet(state, o.key), IsInitAction(action), HandleHydration(items, state, action, o))
  }

  // ---------------------------------------------------------------------------
  // The plugin object

  /** The storage engine handed to the plugin: synchronous ones are wrapped in an
      asynchronous proxy, asynchronous ones are used as they are. */
  datatype Engine = SyncEngine(items: map<string, Json>) | AsyncEngine(items: map<string, Json>)

  class NgxsPouchDbPlugin {
    /** The contents of the storage engine. */
    var storage: map<string, Json>
    /** Whether the engine is reached through the asynchronous proxy. */
    const proxied: bool
    const options: Options

    /** Lines 27-35: keep the engine, wrapping a synchronous one. */
    constructor(engine: Engine, options: Options)
      ensures storage == engine.items
      ensures proxied <==> engine.SyncEngine?
      ensures this.options == options
    {
      storage := engine.items;
      proxied := engine.SyncEngine?;
      this.options := options;
    }

    /** Lines 50-96: load every key in order, folding each into the state as it
        arrives. */
    method LoadAndFold(state: Json, keys: seq<string>) returns (results: seq<Loaded>, current: Json)
      ensures results == LoadAll(storage, keys, options)
      ensures current == Fold(state, results)
    {
      results := [];
      current := state;
      var i := 0;
      while i < |keys|
        invariant 0 <= i <= |keys|
        invariant results == LoadAll(storage, keys[..i], options)
        invariant current == Fold(state, results)
      {
        var r := LoadKey(storage, keys[i], options);
        assert keys[..i + 1][..i] == keys[..i];
        assert LoadAll(storage, keys[..i + 1], options) == results + [r];
        assert (results + [r])[..|results|] == results;
        results := results + [r];
        current := Step(current, r);
        i := i + 1;
      }
      assert keys[..|keys|] == keys;
    }

    /** Lines 48-111: load and fold, then try the whole-tree migration on the
        folded state. */
    method Rehydrate(state: Json, keys: seq<string>) returns (h: Hydration)
      ensures h == Hydrate(storage, state, keys, options)
    {
      var results, current := LoadAndFold(state, keys);
      var master := SelectMasterStrategy(current, IsMaster(options.key), options.migrations);
      var masterApplied := false;
      if master.Some? {
        current := options.migrations.value[master.value].migrate(current);
        masterApplied := true;
      }
      h := Hydration(results, current, masterApplied);
    }

    /** Lines 119-133: `setItem(key, serialize(getValue(nextState, key)))` for
        every flagged key. */
    method WriteBack(keys: seq<string>, flags: seq<bool>, nextState: Json)
      requires |flags| == |keys|
      modifies this
      ensures storage == Persist(old(storage), keys, flags, nextState, options.serialize)
    {
      var j := 0;
      while j < |keys|
        invariant 0 <= j <= |keys|
        invariant storage == Persist(old(storage), keys[..j], flags[..j], nextState, options.serialize)
      {
        assert keys[..j + 1][..j] == keys[..j];
        assert flags[..j + 1][..j] == flags[..j];
        assert Persist(old(storage), keys[..j + 1], flags[..j + 1], nextState, options.serialize)
            == if flags[j] then storage[keys[j] := options.serialize(GetValue(nextState, keys[j]))]
               else storage;
        if flags[j] {
          storage := storage[keys[j] := options.serialize(GetValue(nextState, keys[j]))];
        }
        j := j + 1;
      }
      assert keys[..|keys|] == keys;
      assert flags[..|keys|] == flags;
    }

    /** Lines 37-134: one invocation of `handle`. It returns the emissions of the
        write-back stream; `nextState` is the state `next` produced, which the store
        has taken and `handle` itself does not return. */
    method Handle(state: Json, action: Action, next: (Json, Action) -> Json)
      returns (emitted: seq<Emission>, nextState: Json)
      modifies this
      ensures Outcome(nextState, storage) == HandleSpec(old(storage), state, action, next, options)
      ensures emitted == HandleEmissions(old(storage), state, action, options)
    {
      var keys := KeySet(state, options.key);
      var isInit := IsInitAction(action);
      var h := Hydration([], state, false);
      if isInit {
        h := Rehydrate(state, keys);
      }
      nextState := next(h.state, action);
      var flags := WriteFlags(isInit, h, |keys|);
      emitted := Emissions(keys, isInit, h);
      WriteBack(keys, flags, nextState);
    }
  }
}
