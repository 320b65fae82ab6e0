/** The behaviours exercised by src/tests/pouchdb.plugin.localstorage.spec.ts, stated
    over the model: a `counter` store with an INCREMENT action, options built by the
    factory, and a host JSON codec given only by what the scenario needs of it. */
module Scenarios {
  import opened Wrappers
  import opened Values
  import opened StorageOptions
  import opened PouchDbPlugin
  import PluginProperties

  /** `{ count: n }` */
  function Counter(n: int): Json {
    Obj([Property("count", Num(n))])
  }

  /** `{ counter: c }` */
  function CounterState(c: Json): Json {
    Obj([Property("counter", c)])
  }

  /** `{ count: 100, version: 1 }`, the stored fragment of the migration tests. */
  function VersionOne(): Json {
    Obj([Property("count", Num(100)), Property("version", Num(1))])
  }

  /** `{ counts: 100, version: 2 }`, what both migration tests expect to be stored. */
  function VersionTwo(): Json {
    Obj([Property("counts", Num(100)), Property("version", Num(2))])
  }

  const Init: Action := Action(InitStateType)
  const Increment: Action := Action("INCREMENT")

  /** The test store behind `next`: INCREMENT sets `counter` to `{ count: count + 1 }`;
      every other action leaves the state as it is. A store's state is always an
      object. */
  function CounterStore(s: Json, a: Action): Json {
    if a == Increment && s.Obj? then
      var c := Get(Get(s, "counter"), "count");
      Obj(Put(s.props, "counter", Counter((if c.Num? then c.n else 0) + 1)))
    else s
  }

  /** The options of most tests: only `storage` is given. */
  function LocalOptions(json: JsonCodec, migrations: Option<seq<MigrationStrategy>>): Options {
    StorageOptionsFactory(Some(UserOptions(None, Some(LocalStorage), None, None, migrations)), json)
  }

  /** `counter.version` is the path `counter` then `version`. */
  lemma SplitCounterVersion()
    ensures Split("counter.version") == ["counter", "version"]
  {
    SplitPlain("version");
    assert "counter.version" == "counter" + "." + "version";
    SplitPrefix("counter", "version");
  }

  /** An ordinary action, unfolded. */
  lemma OrdinaryOutcome(items: map<string, Json>, state: Json, a: Action,
                        next: (Json, Action) -> Json, o: Options)
    requires !IsInitAction(a)
    ensures var keys := KeySet(state, o.key);
      HandleSpec(items, state, a, next, o)
        == Outcome(next(state, a), Persist(items, keys, WriteFlags(false, Hydration([], state, false), |keys|),
                                           next(state, a), o.serialize))
  {
  }

  /** Overwriting the only entry of a one-entry map. */
  lemma OverwriteOnly(k: string, v: Json, w: Json)
    ensures map[k := v][k := w] == map[k := w]
  {
    assert map[k := v][k := w].Keys == map[k := w].Keys;
  }

  /** Writing one key. */
  lemma PersistOne(items: map<string, Json>, key: string, flag: bool, nextState: Json, serialize: Json -> Json)
    ensures Persist(items, [key], [flag], nextState, serialize)
         == if flag then items[key := serialize(GetValue(nextState, key))] else items
  {
    assert [key][..0] == [] && [flag][..0] == [];
  }

  /** An ordinary action on a master-mode state with one fragment writes that
      fragment from `next`'s result. */
  lemma OrdinaryOneFragment(items: map<string, Json>, k: string, c: Json, a: Action,
                            next: (Json, Action) -> Json, o: Options)
    requires !IsInitAction(a) && IsMaster(o.key)
    ensures var ns := next(Obj([Property(k, c)]), a);
      HandleSpec(items, Obj([Property(k, c)]), a, next, o)
        == Outcome(ns, items[k := o.serialize(GetValue(ns, k))])
  {
    var s := Obj([Property(k, c)]);
    assert KeySet(s, o.key) == [k];
    var flags := WriteFlags(false, Hydration([], s, false), 1);
    assert flags == [true];
    PersistOne(items, k, true, next(s, a), o.serialize);
    OrdinaryOutcome(items, s, a, next, o);
  }

  /** Assigning the only property of a one-property object. */
  lemma SetOnlyProperty(k: string, c: Json, x: Json)
    requires '.' !in k
    ensures SetValue(Obj([Property(k, c)]), k, x) == Obj([Property(k, x)])
    ensures GetValue(Obj([Property(k, x)]), k) == x
  {
    SplitPlain(k);
    GetValueTopLevel(Obj([Property(k, x)]), k);
  }

  /** The key set of a one-fragment state is that fragment's name, in master mode
      and when the name is the configured key. */
  lemma KeySetOne(k: string, c: Json, key: KeySpec)
    requires IsMaster(key) || key == Single(k)
    ensures KeySet(Obj([Property(k, c)]), key) == [k]
  {
    if IsMaster(key) {
      assert Names([Property(k, c)]) == [k];
    }
  }

  /** Hydrating one key: load it, fold it in, try the whole-tree migration. */
  lemma HydrateOne(items: map<string, Json>, s: Json, k: string, o: Options)
    ensures var r := LoadKey(items, k, o);
      var folded := Step(s, r);
      var m := SelectMasterStrategy(folded, IsMaster(o.key), o.migrations);
      Hydrate(items, s, [k], o)
        == Hydration([r], if m.Some? then o.migrations.value[m.value].migrate(folded) else folded, m.Some?)
  {
    var r := LoadKey(items, k, o);
    assert LoadAll(items, [k], o) == [r];
    assert [r][..0] == [];
    assert Fold(s, [r]) == Step(s, r);
  }

  /** An init action on a state with one fragment whose key is the key set: the
      fragment is loaded and folded, the whole-tree migration is tried on the
      result, and the fragment is written back only if some migration fired. */
  lemma InitOneFragment(items: map<string, Json>, k: string, c: Json, a: Action,
                        next: (Json, Action) -> Json, o: Options)
    requires IsInitAction(a) && (IsMaster(o.key) || o.key == Single(k))
    ensures var s := Obj([Property(k, c)]);
      var r := LoadKey(items, k, o);
      var folded := Step(s, r);
      var m := SelectMasterStrategy(folded, IsMaster(o.key), o.migrations);
      var hs := if m.Some? then o.migrations.value[m.value].migrate(folded) else folded;
      var ns := next(hs, a);
      HandleSpec(items, s, a, next, o)
        == Outcome(ns, if r.strategy.Some? || m.Some? then items[k := o.serialize(GetValue(ns, k))] else items)
  {
    var s := Obj([Property(k, c)]);
    var r := LoadKey(items, k, o);
    var folded := Step(s, r);
    var m := SelectMasterStrategy(folded, IsMaster(o.key), o.migrations);
    var hs := if m.Some? then o.migrations.value[m.value].migrate(folded) else folded;
    var h := Hydration([r], hs, m.Some?);
    KeySetOne(k, c, o.key);
    HydrateOne(items, s, k, o);
    var flags := WriteFlags(true, h, 1);
    assert flags == [r.strategy.Some? || m.Some?];
    var ns := next(hs, a);
    PersistOne(items, k, flags[0], ns, o.serialize);
    assert HandleSpec(items, s, a, next, o) == Outcome(ns, Persist(items, [k], flags, ns, o.serialize));
  }

  /** An init action whose hydration (migrations included) turns the one fragment
      into `x`, with a migration selected and `next` keeping the state, hands back
      `{k: x}` and stores the serialized `x` under `k`. */
  lemma InitMigratesOneFragment(items: map<string, Json>, k: string, c: Json, x: Json, a: Action,
                                next: (Json, Action) -> Json, o: Options)
    requires IsInitAction(a) && '.' !in k && (IsMaster(o.key) || o.key == Single(k))
    requires var r := LoadKey(items, k, o);
      var folded := Step(Obj([Property(k, c)]), r);
      var m := SelectMasterStrategy(folded, IsMaster(o.key), o.migrations);
      && (r.strategy.Some? || m.Some?)
      && (if m.Some? then o.migrations.value[m.value].migrate(folded) else folded) == Obj([Property(k, x)])
    requires next(Obj([Property(k, x)]), a) == Obj([Property(k, x)])
    ensures HandleSpec(items, Obj([Property(k, c)]), a, next, o)
         == Outcome(Obj([Property(k, x)]), items[k := o.serialize(x)])
  {
    InitOneFragment(items, k, c, a, next, o);
    SetOnlyProperty(k, c, x);
  }

  /** The same action dispatched `count` times, one after another. */
  function Repeat(items: map<string, Json>, state: Json, a: Action, next: (Json, Action) -> Json,
                  count: nat, o: Options): Outcome
    decreases count
  {
    if count == 0 then Outcome(state, items)
    else
      var first := HandleSpec(items, state, a, next, o);
      Repeat(first.items, first.nextState, a, next, count - 1, o)
  }

  /** In master mode, an ordinary action that moves the one fragment from `f(m)` to
      `f(m + 1)`, repeated `count` times from `f(n)`, leaves `f(n + count)` in the store
      and its serialization as the only storage entry. */
  lemma {:induction false} RepeatAdvances(stored: Json, k: string, f: int -> Json, n: int, count: nat,
                                          a: Action, next: (Json, Action) -> Json, o: Options)
    requires IsMaster(o.key) && !IsInitAction(a) && '.' !in k && count >= 1
    requires forall m :: next(Obj([Property(k, f(m))]), a) == Obj([Property(k, f(m + 1))])
    ensures Repeat(map[k := stored], Obj([Property(k, f(n))]), a, next, count, o)
         == Outcome(Obj([Property(k, f(n + count))]), map[k := o.serialize(f(n + count))])
    decreases count
  {
    OrdinaryOneFragment(map[k := stored], k, f(n), a, next, o);
    SetOnlyProperty(k, f(n), f(n + 1));
    OverwriteOnly(k, stored, o.serialize(f(n + 1)));
    if count > 1 {
      RepeatAdvances(o.serialize(f(n + 1)), k, f, n + 1, count - 1, a, next, o);
      assert n + 1 + (count - 1) == n + count;
    }
  }

  /** INCREMENT moves `{counter: {count: m}}` to `{counter: {count: m + 1}}`. */
  lemma IncrementAdvancesAt(m: int)
    ensures CounterStore(CounterState(Counter(m)), Increment) == CounterState(Counter(m + 1))
  {
    assert Get(Get(CounterState(Counter(m)), "counter"), "count") == Num(m);
  }

  /** In master mode, `count` increments from `{counter: {count: n}}` leave
      `{counter: {count: n + count}}` in the store and its serialization as the only
      storage entry. */
  lemma IncrementsAccumulate(stored: Json, n: int, count: nat, o: Options)
    requires IsMaster(o.key) && count >= 1
    ensures Repeat(map["counter" := stored], CounterState(Counter(n)), Increment, CounterStore, count, o)
         == Outcome(CounterState(Counter(n + count)), map["counter" := o.serialize(Counter(n + count))])
  {
    forall m ensures CounterStore(CounterState(Counter(m)), Increment) == CounterState(Counter(m + 1)) {
      IncrementAdvancesAt(m);
    }
    RepeatAdvances(stored, "counter", Counter, n, count, Increment, CounterStore, o);
  }

  /** The stored `{count: 100}` is loaded without a strategy and replaces the
      default fragment. */
  lemma StoredHundredLoads(json: JsonCodec, raw: Json)
    requires Truthy(raw) && json.parse(raw) == Some(Counter(100))
    ensures var r := LoadKey(map["counter" := raw], "counter", LocalOptions(json, None));
      r.strategy.None? && Step(CounterState(Counter(0)), r) == CounterState(Counter(100))
  {
    var r := LoadKey(map["counter" := raw], "counter", LocalOptions(json, None));
    assert r == Loaded("counter", Counter(100), None);
    SetOnlyProperty("counter", Counter(0), Counter(100));
  }

  /** The init action of 'should save data to localstorage': the stored `{count: 100}`
      replaces the default `{count: 0}` and nothing is written. */
  lemma StoredHundredHydrates(json: JsonCodec, raw: Json)
    requires Truthy(raw) && json.parse(raw) == Some(Counter(100))
    ensures HandleSpec(map["counter" := raw], CounterState(Counter(0)), Init, CounterStore, LocalOptions(json, None))
         == Outcome(CounterState(Counter(100)), map["counter" := raw])
  {
    StoredHundredLoads(json, raw);
    InitOneFragment(map["counter" := raw], "counter", Counter(0), Init, CounterStore, LocalOptions(json, None));
  }

  /** 'should save data to localstorage': `{count: 100}` stored, the store's default
      `{count: 0}`; the init action hydrates 100 and writes nothing, and after five
      increments the store holds 105 and so does the storage. */
  lemma FiveIncrementsPersist105(json: JsonCodec, raw: Json)
    requires Truthy(raw) && json.parse(raw) == Some(Counter(100))
    ensures var o := LocalOptions(json, None);
      var out0 := HandleSpec(map["counter" := raw], CounterState(Counter(0)), Init, CounterStore, o);
      && out0 == Outcome(CounterState(Counter(100)), map["counter" := raw])
      && Repeat(out0.items, out0.nextState, Increment, CounterStore, 5, o)
         == Outcome(CounterState(Counter(105)), map["counter" := json.stringify(Counter(105))])
  {
    var o := LocalOptions(json, None);
    var out0 := HandleSpec(map["counter" := raw], CounterState(Counter(0)), Init, CounterStore, o);
    StoredHundredHydrates(json, raw);
    assert out0.items == map["counter" := raw] && out0.nextState == CounterState(Counter(100));
    IncrementsAccumulate(raw, 100, 5, o);
    assert o.serialize == json.stringify;
  }

  /** 'should use default data if ... retrieved from localstorage': `setItem` stores
      `null` and `undefined` as the strings `'null'` and `'undefined'`; the first
      parses to `null`, the second makes the parser throw. Either way the default
      `{count: 123}` stays in place and nothing is written. */
  lemma {:induction false} UnreadableRecordKeeps123(json: JsonCodec, raw: Json)
    requires (raw == Str("null") && json.parse(raw) == Some(Null))
          || (raw == Str("undefined") && json.parse(raw).None?)
    ensures var o := LocalOptions(json, None);
      var out := HandleSpec(map["counter" := raw], CounterState(Counter(123)), Init, CounterStore, o);
      out.nextState == CounterState(Counter(123)) && out.items == map["counter" := raw]
  {
    var o := LocalOptions(json, None);
    var items := map["counter" := raw];
    var s := CounterState(Counter(123));
    assert KeySet(s, o.key) == ["counter"];
    var r := LoadKey(items, "counter", o);
    assert !Truthy(r.value);
    assert LoadAll(items, ["counter"], o) == [r];
    assert Fold(s, [r]) == s;
    PluginProperties.InitWithoutMigrationsWritesNothing(items, s, Init, CounterStore, o);
  }

  /** The migration of 'should migrate single localstorage'. */
  function RenameCount(v: Json): Json {
    Obj([Property("counts", Get(v, "count")), Property("version", Num(2))])
  }

  /** The options of 'should migrate single localstorage'. */
  function SingleKeyOptions(json: JsonCodec): Options {
    var strategy := MigrationStrategy(Num(1), Some("version"), Some("counter"), RenameCount);
    StorageOptionsFactory(Some(UserOptions(Some(Single("counter")), Some(LocalStorage),
                                           None, None, Some([strategy]))), json)
  }

  /** The stored fragment `{count: 100, version: 1}` has version 1 at `version`. */
  lemma SingleKeyStrategyMatches(json: JsonCodec)
    ensures KeyMatches(SingleKeyOptions(json).migrations.value[0], VersionOne(), "counter")
  {
    GetValueTopLevel(VersionOne(), "version");
  }

  /** The stored version-1 fragment selects the strategy and folds migrated. */
  lemma SingleKeyHydrates(json: JsonCodec, raw: Json)
    requires Truthy(raw) && json.parse(raw) == Some(VersionOne())
    ensures var o := SingleKeyOptions(json);
      var r := LoadKey(map["counter" := raw], "counter", o);
      && r.strategy.Some?
      && Step(CounterState(Counter(0)), r) == CounterState(VersionTwo())
      && SelectMasterStrategy(CounterState(VersionTwo()), IsMaster(o.key), o.migrations) == None
  {
    var o := SingleKeyOptions(json);
    var r := LoadKey(map["counter" := raw], "counter", o);
    SingleKeyLoads(json, raw);
    RenameCountVersionOne();
    SetOnlyProperty("counter", Counter(0), VersionTwo());
    assert !IsMaster(o.key);
  }

  /** The single-key migration turns the version-1 fragment into the version-2 one. */
  lemma RenameCountVersionOne()
    ensures RenameCount(VersionOne()) == VersionTwo()
  {
    assert Get(VersionOne(), "count") == Num(100);
  }

  /** The stored version-1 fragment loads with the single-key strategy selected. */
  lemma SingleKeyLoads(json: JsonCodec, raw: Json)
    requires Truthy(raw) && json.parse(raw) == Some(VersionOne())
    ensures var o := SingleKeyOptions(json);
      LoadKey(map["counter" := raw], "counter", o)
        == Loaded("counter", VersionOne(), Some(o.migrations.value[0]))
  {
    var o := SingleKeyOptions(json);
    assert Decode(Read(map["counter" := raw], "counter"), o.deserialize) == VersionOne();
    SingleKeyStrategyMatches(json);
  }

  /** 'should migrate single localstorage': key `counter`, a strategy for version 1
      of `counter`; the init action migrates the fragment and, because a migration
      was selected, writes `{counts: 100, version: 2}` back. */
  lemma {:induction false} SingleKeyMigrationWritesBack(json: JsonCodec, raw: Json)
    requires Truthy(raw) && json.parse(raw) == Some(VersionOne())
    ensures var out := HandleSpec(map["counter" := raw], CounterState(Counter(0)), Init, CounterStore,
                                  SingleKeyOptions(json));
      out.nextState == CounterState(VersionTwo())
      && out.items == map["counter" := json.stringify(VersionTwo())]
  {
    var o := SingleKeyOptions(json);
    SingleKeyHydrates(json, raw);
    InitMigratesOneFragment(map["counter" := raw], "counter", Counter(0), VersionTwo(), Init, CounterStore, o);
    OverwriteOnly("counter", raw, json.stringify(VersionTwo()));
  }

  /** The migration of 'should migrate global localstorage': the whole tree comes in,
      its `counter` is replaced. */
  function RenameCounter(state: Json): Json {
    SetValue(state, "counter", Obj([Property("counts", Get(Get(state, "counter"), "count")),
                                    Property("version", Num(2))]))
  }

  /** The options of 'should migrate global localstorage'. */
  function WholeTreeOptions(json: JsonCodec): Options {
    LocalOptions(json, Some([MigrationStrategy(Num(1), Some("counter.version"), None, RenameCounter)]))
  }

  /** The folded tree `{counter: {count: 100, version: 1}}` has version 1 at
      `counter.version`, so the whole-tree strategy applies. */
  lemma WholeTreeStrategyMatches(json: JsonCodec)
    ensures MasterMatches(WholeTreeOptions(json).migrations.value[0], CounterState(VersionOne()), true)
  {
    var s := WholeTreeOptions(json).migrations.value[0];
    assert s == MigrationStrategy(Num(1), Some("counter.version"), None, RenameCounter);
    assert GetValue(CounterState(VersionOne()), VersionPath(s)) == Num(1) by {
      SplitCounterVersion();
      GetNested("counter", VersionOne(), "version");
      VersionOneAtVersion();
    }
  }

  /** The stored version-1 fragment holds 1 at `version`. */
  lemma VersionOneAtVersion()
    ensures GetPath(VersionOne(), ["version"]) == Num(1)
  {
    assert "count" != "version" by {
      assert "count"[1] != "version"[1];
    }
    assert Get(VersionOne(), "version") == Num(1);
    assert ["version"][1..] == [];
  }

  /** Walking `[a, b]` into `{a: inner}` reads `b` of `inner`. */
  lemma GetNested(a: string, inner: Json, b: string)
    ensures GetPath(Obj([Property(a, inner)]), [a, b]) == GetPath(inner, [b])
  {
    assert Get(Obj([Property(a, inner)]), a) == inner;
    assert [a, b][1..] == [b];
  }

  /** The stored version-1 fragment folds in unmigrated; the folded tree then
      selects the whole-tree strategy, which renames its `count`. */
  lemma WholeTreeHydrates(json: JsonCodec, raw: Json)
    requires Truthy(raw) && json.parse(raw) == Some(VersionOne())
    ensures var o := WholeTreeOptions(json);
      var r := LoadKey(map["counter" := raw], "counter", o);
      var folded := Step(CounterState(Counter(0)), r);
      var m := SelectMasterStrategy(folded, IsMaster(o.key), o.migrations);
      && m == Some(0)
      && o.migrations.value[0].migrate(folded) == CounterState(VersionTwo())
  {
    var o := WholeTreeOptions(json);
    WholeTreeLoads(json, raw);
    SetOnlyProperty("counter", Counter(0), VersionOne());
    WholeTreeStrategyMatches(json);
    RenameCounterVersionOne();
  }

  /** Without a per-key strategy the stored version-1 fragment loads unmigrated. */
  lemma WholeTreeLoads(json: JsonCodec, raw: Json)
    requires Truthy(raw) && json.parse(raw) == Some(VersionOne())
    ensures LoadKey(map["counter" := raw], "counter", WholeTreeOptions(json))
         == Loaded("counter", VersionOne(), None)
  {
    var o := WholeTreeOptions(json);
    assert Decode(Read(map["counter" := raw], "counter"), o.deserialize) == VersionOne();
    assert o.migrations.value[0].key.None?;
  }

  /** The whole-tree migration renames the count of the version-1 tree. */
  lemma RenameCounterVersionOne()
    ensures RenameCounter(CounterState(VersionOne())) == CounterState(VersionTwo())
  {
    assert Get(Get(CounterState(VersionOne()), "counter"), "count") == Num(100);
    SplitPlain("counter");
    SetOnlyProperty("counter", VersionOne(), VersionTwo());
  }

  /** 'should migrate global localstorage': master mode, a strategy without `key`
      whose version sits at `counter.version` of the whole tree; the fragment is
      loaded unmigrated, the folded tree is migrated, and every key is written
      back. */
  lemma {:induction false} WholeTreeMigrationWritesBack(json: JsonCodec, raw: Json)
    requires Truthy(raw) && json.parse(raw) == Some(VersionOne())
    ensures var out := HandleSpec(map["counter" := raw], CounterState(Counter(0)), Init, CounterStore,
                                  WholeTreeOptions(json));
      out.nextState == CounterState(VersionTwo())
      && out.items == map["counter" := json.stringify(VersionTwo())]
  {
    var o := WholeTreeOptions(json);
    WholeTreeHydrates(json, raw);
    InitMigratesOneFragment(map["counter" := raw], "counter", Counter(0), VersionTwo(), Init, CounterStore, o);
    OverwriteOnly("counter", raw, json.stringify(VersionTwo()));
  }

  /** 'should merge unloaded data from feature with local storage': in master mode
      the key set is the state's own top-level names, so a feature fragment with
      nothing stored under its name keeps its default; a blob stored under the
      sentinel key itself is never read. */
  lemma {:induction false} FeatureFragmentKeepsDefault(json: JsonCodec, blob: Json)
    ensures var o := LocalOptions(json, None);
      var s := Obj([Property("counter", Counter(0)), Property("lazyLoaded", Counter(0))]);
      var out := HandleSpec(map[MasterKey := blob], s, Init, CounterStore, o);
      out.nextState == s && Get(out.nextState, "lazyLoaded") == Counter(0)
  {
    var o := LocalOptions(json, None);
    var s := Obj([Property("counter", Counter(0)), Property("lazyLoaded", Counter(0))]);
    var items := map[MasterKey := blob];
    var keys := KeySet(s, o.key);
    assert keys == ["counter", "lazyLoaded"];
    var rs := LoadAll(items, keys, o);
    assert !Truthy(rs[0].value) && !Truthy(rs[1].value);
    PluginProperties.FoldKeepsStateWithoutValues(s, rs);
    PluginProperties.InitWithoutMigrationsWritesNothing(items, s, Init, CounterStore, o);
  }
}
