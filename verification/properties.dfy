/** What one or two invocations of `handle` promise, stated over the functions of
    module PouchDbPlugin. */
module PluginProperties {
  import opened Wrappers
  import opened Values
  import opened StorageOptions
  import opened PouchDbPlugin

  /** The keys the fold assigns: those whose loaded value is truthy. */
  function AssignedKeys(rs: seq<Loaded>): set<string> {
    set i | 0 <= i < |rs| && Truthy(rs[i].value) :: rs[i].key
  }

  /** Keys that are plain top-level names, each loaded once. */
  predicate PlainDistinctKeys(rs: seq<Loaded>) {
    && (forall i :: 0 <= i < |rs| ==> '.' !in rs[i].key)
    && (forall i, j :: 0 <= i < j < |rs| ==> rs[i].key != rs[j].key)
  }

  /** Whether an init action writes key `k`: some occurrence of `k` in the key set
      had its migration selected, or the whole-tree migration fired. */
  predicate WrittenOnInit(keys: seq<string>, h: Hydration, k: string)
    requires |h.results| == |keys|
  {
    exists i :: 0 <= i < |keys| && keys[i] == k && (h.results[i].strategy.Some? || h.masterApplied)
  }

  /** When no loaded value is truthy the fold returns the current state itself. */
  lemma {:induction false} FoldKeepsStateWithoutValues(state: Json, rs: seq<Loaded>)
    requires forall i :: 0 <= i < |rs| ==> !Truthy(rs[i].value)
    ensures Fold(state, rs) == state
    decreases |rs|
  {
    if rs != [] {
      FoldKeepsStateWithoutValues(state, rs[..|rs| - 1]);
    }
  }

  /** The fold of an object state is an object. */
  lemma {:induction false} FoldKeepsObject(state: Json, rs: seq<Loaded>)
    requires state.Obj?
    ensures Fold(state, rs).Obj?
    decreases |rs|
  {
    if rs != [] {
      FoldKeepsObject(state, rs[..|rs| - 1]);
    }
  }

  /** The fold over plain, distinct keys of an object state: the key loaded at `i`,
      when its value is truthy, holds that value, migrated when a strategy was
      selected. */
  lemma {:induction false} FoldSetsTruthyFragment(state: Json, rs: seq<Loaded>, i: nat)
    requires state.Obj? && PlainDistinctKeys(rs) && i < |rs| && Truthy(rs[i].value)
    ensures Get(Fold(state, rs), rs[i].key) == Migrated(rs[i])
    decreases |rs|
  {
    var n := |rs| - 1;
    var prefix := rs[..n];
    var prev := Fold(state, prefix);
    FoldKeepsObject(state, prefix);
    assert Fold(state, rs) == Step(prev, rs[n]);
    if i == n {
      SetValueTopLevel(prev, rs[n].key, Migrated(rs[n]));
    } else {
      assert prefix[i] == rs[i];
      FoldSetsTruthyFragment(state, prefix, i);
      if Truthy(rs[n].value) {
        SetValueOther(prev, rs[n].key, Migrated(rs[n]), rs[i].key);
      }
    }
  }

  /** Every truthy key of the fold over plain, distinct keys holds its value. */
  lemma FoldSetsTruthyFragments(state: Json, rs: seq<Loaded>)
    requires state.Obj? && PlainDistinctKeys(rs)
    ensures forall i :: 0 <= i < |rs| && Truthy(rs[i].value) ==>
      Get(Fold(state, rs), rs[i].key) == Migrated(rs[i])
  {
    forall i | 0 <= i < |rs| && Truthy(rs[i].value)
      ensures Get(Fold(state, rs), rs[i].key) == Migrated(rs[i])
    {
      FoldSetsTruthyFragment(state, rs, i);
    }
  }

  /** The fold over plain keys of an object state leaves a property whose name
      was not assigned as it was. */
  lemma {:induction false} FoldKeepsUnassignedAt(state: Json, rs: seq<Loaded>, name: string)
    requires state.Obj? && forall i :: 0 <= i < |rs| ==> '.' !in rs[i].key
    requires name !in AssignedKeys(rs)
    ensures Get(Fold(state, rs), name) == Get(state, name)
    decreases |rs|
  {
    if rs != [] {
      var n := |rs| - 1;
      var prefix := rs[..n];
      var prev := Fold(state, prefix);
      assert name !in AssignedKeys(prefix) by {
        forall i | 0 <= i < |prefix| && Truthy(prefix[i].value) ensures prefix[i].key != name {
          assert prefix[i] == rs[i];
        }
      }
      FoldKeepsUnassignedAt(state, prefix, name);
      FoldKeepsObject(state, prefix);
      assert Fold(state, rs) == Step(prev, rs[n]);
      if Truthy(rs[n].value) {
        assert rs[n].key in AssignedKeys(rs);
        SetValueOther(prev, rs[n].key, Migrated(rs[n]), name);
      }
    }
  }

  /** Every property whose name the fold over plain keys did not assign is as it
      was. */
  lemma FoldKeepsUnassigned(state: Json, rs: seq<Loaded>)
    requires state.Obj? && forall i :: 0 <= i < |rs| ==> '.' !in rs[i].key
    ensures forall n :: n !in AssignedKeys(rs) ==> Get(Fold(state, rs), n) == Get(state, n)
  {
    forall n | n !in AssignedKeys(rs) ensures Get(Fold(state, rs), n) == Get(state, n) {
      FoldKeepsUnassignedAt(state, rs, n);
    }
  }

  /** When every key already names a property of the state (master mode), the fold
      adds no property. */
  lemma {:induction false} FoldKeepsKeys(state: Json, rs: seq<Loaded>)
    requires state.Obj? && forall i :: 0 <= i < |rs| ==> '.' !in rs[i].key && rs[i].key in Keys(state)
    ensures Keys(Fold(state, rs)) == Keys(state)
    decreases |rs|
  {
    if rs != [] {
      var n := |rs| - 1;
      FoldKeepsKeys(state, rs[..n]);
      FoldKeepsObject(state, rs[..n]);
      if Truthy(rs[n].value) {
        SetValueTopLevel(Fold(state, rs[..n]), rs[n].key, Migrated(rs[n]));
      }
    }
  }

  /** A key that is missing from storage, whose raw value is falsy, or whose
      deserializer throws leaves the state exactly as it was: the fragment keeps
      the value the store's defaults gave it. */
  lemma UnusableRecordKeepsFragment(prev: Json, items: map<string, Json>, key: string, o: Options)
    requires key !in items || !Truthy(items[key]) || o.deserialize(items[key]).None?
    ensures Step(prev, LoadKey(items, key, o)) == prev
  {
  }

  /** An ordinary action skips hydration: `next` sees the incoming state, and every
      key is written from `next`'s result; nothing else in storage changes. */
  lemma OrdinaryActionPersistsEveryKey(items: map<string, Json>, state: Json, a: Action,
                                       next: (Json, Action) -> Json, o: Options)
    requires !IsInitAction(a)
    ensures var out := HandleSpec(items, state, a, next, o);
      var keys := KeySet(state, o.key);
      && out.nextState == next(state, a)
      && out.items.Keys == items.Keys + set k | k in keys
      && (forall k :: k in keys ==> out.items[k] == o.serialize(GetValue(out.nextState, k)))
      && (forall k :: k in items && k !in keys ==> out.items[k] == items[k])
  {
    var keys := KeySet(state, o.key);
    var flags := WriteFlags(false, Hydration([], state, false), |keys|);
    var ns := next(state, a);
    var written := Persist(items, keys, flags, ns, o.serialize);
    assert HandleSpec(items, state, a, next, o) == Outcome(ns, written);
    assert FlaggedKeys(keys, flags) == set k | k in keys by {
      forall k | k in keys ensures k in FlaggedKeys(keys, flags) {
        var i :| 0 <= i < |keys| && keys[i] == k;
        assert flags[i];
      }
    }
    forall k | k in keys ensures written[k] == o.serialize(GetValue(ns, k)) {
      var i :| 0 <= i < |keys| && keys[i] == k;
      assert flags[i];
    }
  }

  /** On an init action, `next` receives the hydrated state, and a key is written,
      from `next`'s result, exactly when its own migration was selected or the
      whole-tree migration fired; every other storage entry is left alone. */
  lemma InitWritesOnlyMigratedKeys(items: map<string, Json>, state: Json, a: Action,
                                   next: (Json, Action) -> Json, o: Options)
    requires IsInitAction(a)
    ensures var keys := KeySet(state, o.key);
      var h := Hydrate(items, state, keys, o);
      var out := HandleSpec(items, state, a, next, o);
      && out.nextState == next(h.state, a)
      && (forall i :: 0 <= i < |keys| && (h.results[i].strategy.Some? || h.masterApplied) ==>
            out.items[keys[i]] == o.serialize(GetValue(out.nextState, keys[i])))
      && (forall k :: k in items && !WrittenOnInit(keys, h, k) ==> out.items[k] == items[k])
      && (forall k :: k !in items && !WrittenOnInit(keys, h, k) ==> k !in out.items)
  {
    var keys := KeySet(state, o.key);
    var h := Hydrate(items, state, keys, o);
    var flags := WriteFlags(true, h, |keys|);
    var ns := next(h.state, a);
    var written := Persist(items, keys, flags, ns, o.serialize);
    assert HandleSpec(items, state, a, next, o) == Outcome(ns, written);
    forall k ensures k in FlaggedKeys(keys, flags) <==> WrittenOnInit(keys, h, k) {
      if k in FlaggedKeys(keys, flags) {
        var i :| 0 <= i < |keys| && flags[i] && keys[i] == k;
        assert keys[i] == k && (h.results[i].strategy.Some? || h.masterApplied);
      }
      if WrittenOnInit(keys, h, k) {
        var i :| 0 <= i < |keys| && keys[i] == k && (h.results[i].strategy.Some? || h.masterApplied);
        assert flags[i];
      }
    }
  }

  /** The factory adds no migrations, so with the default options (or any options
      without migrations) an init action hydrates without migrating and writes
      nothing back. */
  lemma InitWithoutMigrationsWritesNothing(items: map<string, Json>, state: Json, a: Action,
                                           next: (Json, Action) -> Json, o: Options)
    requires IsInitAction(a) && o.migrations.None?
    ensures var keys := KeySet(state, o.key);
      var out := HandleSpec(items, state, a, next, o);
      && out.nextState == next(Fold(state, LoadAll(items, keys, o)), a)
      && out.items == items
  {
    var keys := KeySet(state, o.key);
    var h := Hydrate(items, state, keys, o);
    assert HandleHydration(items, state, a, o) == h;
    var flags := WriteFlags(true, h, |keys|);
    assert !h.masterApplied;
    forall i | 0 <= i < |keys| ensures !flags[i] {
      assert h.results[i] == LoadKey(items, keys[i], o);
    }
    var ns := next(h.state, a);
    PersistNothing(items, keys, flags, ns, o.serialize);
    assert HandleSpec(items, state, a, next, o) == Outcome(ns, Persist(items, keys, flags, ns, o.serialize));
  }

  /** A write-back with no flag set leaves the storage as it was. */
  lemma PersistNothing(items: map<string, Json>, keys: seq<string>, flags: seq<bool>, nextState: Json,
                       serialize: Json -> Json)
    requires |flags| == |keys| && forall i :: 0 <= i < |keys| ==> !flags[i]
    ensures Persist(items, keys, flags, nextState, serialize) == items
  {
    assert FlaggedKeys(keys, flags) == {};
  }

  /** What an ordinary action persisted comes back on the next init: with a codec
      that round-trips the fragment, a single plain key and no migrations, the init
      hands `next` its default state with that fragment set to the persisted value,
      and writes nothing. */
  lemma PersistedFragmentRehydrates(items: map<string, Json>, state1: Json, a1: Action,
                                    next1: (Json, Action) -> Json, state2: Json, a2: Action,
                                    next2: (Json, Action) -> Json, o: Options, k: string)
    requires !IsInitAction(a1) && IsInitAction(a2)
    requires o.key == Single(k) && k != MasterKey && '.' !in k && o.migrations.None?
    requires var v := GetValue(HandleSpec(items, state1, a1, next1, o).nextState, k);
      Truthy(v) && Truthy(o.serialize(v)) && o.deserialize(o.serialize(v)) == Some(v)
    ensures var out1 := HandleSpec(items, state1, a1, next1, o);
      var out2 := HandleSpec(out1.items, state2, a2, next2, o);
      && out2.nextState == next2(SetValue(state2, k, GetValue(out1.nextState, k)), a2)
      && out2.items == out1.items
  {
    var out1 := HandleSpec(items, state1, a1, next1, o);
    var v := GetValue(out1.nextState, k);
    OrdinaryActionPersistsEveryKey(items, state1, a1, next1, o);
    assert out1.items[k] == o.serialize(v);
    var r := LoadKey(out1.items, k, o);
    assert r.value == v && r.strategy.None?;
    assert LoadAll(out1.items, [k], o) == [r];
    assert Fold(state2, [r]) == Step(Fold(state2, []), r);
    InitWithoutMigrationsWritesNothing(out1.items, state2, a2, next2, o);
  }

  // ---------------------------------------------------------------------------
  // What `handle` returns

  /** Keys that are pairwise distinct. */
  predicate DistinctKeys(keys: seq<string>) {
    forall i, j :: 0 <= i < j < |keys| ==> keys[i] != keys[j]
  }

  /** In master mode the key set of an object with distinct names is distinct. */
  lemma MasterKeysDistinct(state: Json, key: KeySpec)
    requires IsMaster(key) && state.Obj? && DistinctNames(state.props)
    ensures DistinctKeys(KeySet(state, key))
  {
  }

  /** The emissions for a key that exactly one record carries: that record's write or
      skip, once. */
  lemma {:induction false} KeyEmissionsSingle(rs: seq<Loaded>, i: nat, key: string, masterApplied: bool)
    requires i < |rs| && rs[i].key == key
    requires forall j :: 0 <= j < |rs| && j != i ==> rs[j].key != key
    ensures KeyEmissions(rs, key, masterApplied)
         == [if rs[i].strategy.Some? || masterApplied then Written(key) else Skipped]
    decreases |rs|
  {
    if i == 0 {
      forall j | 0 <= j < |rs[1..]| ensures rs[1..][j].key != key {
        assert rs[1..][j] == rs[j + 1];
      }
    } else {
      assert rs[0].key != key;
      forall j | 0 <= j < |rs[1..]| && j != i - 1 ensures rs[1..][j].key != key {
        assert rs[1..][j] == rs[j + 1];
      }
      KeyEmissionsSingle(rs[1..], i - 1, key, masterApplied);
    }
  }

  /** On an init action over distinct keys, the emissions from position `lo` on are
      one per key: a write where the key's flag is set, a skip elsewhere. */
  lemma {:induction false} InitEmissionsFrom(keys: seq<string>, h: Hydration, lo: nat)
    requires lo <= |keys| && |h.results| == |keys| && DistinctKeys(keys)
    requires forall i :: 0 <= i < |keys| ==> h.results[i].key == keys[i]
    ensures var es := EmissionsFrom(keys, true, h, lo);
      && |es| == |keys| - lo
      && forall j :: 0 <= j < |es| ==> es[j] == FlaggedEmission(keys, h, lo + j)
    decreases |keys| - lo
  {
    if lo < |keys| {
      var rest := EmissionsFrom(keys, true, h, lo + 1);
      KeyEmissionsAt(keys, h, lo);
      assert EmissionsFrom(keys, true, h, lo) == [FlaggedEmission(keys, h, lo)] + rest;
      InitEmissionsFrom(keys, h, lo + 1);
      ConsEmissions(keys, h, lo, rest);
    }
  }

  /** On an init action over distinct keys, the key at `lo` emits exactly what it is
      owed. */
  lemma KeyEmissionsAt(keys: seq<string>, h: Hydration, lo: nat)
    requires lo < |keys| && |h.results| == |keys| && DistinctKeys(keys)
    requires forall i :: 0 <= i < |keys| ==> h.results[i].key == keys[i]
    ensures KeyEmissions(h.results, keys[lo], h.masterApplied) == [FlaggedEmission(keys, h, lo)]
  {
    OnlyRecordWithKey(keys, h, lo);
    KeyEmissionsSingle(h.results, lo, keys[lo], h.masterApplied);
    assert WriteFlags(true, h, |keys|)[lo] == (h.results[lo].strategy.Some? || h.masterApplied);
  }

  /** Prefixing the emission owed at `lo` to those owed from `lo + 1` on gives those
      owed from `lo` on. */
  lemma ConsEmissions(keys: seq<string>, h: Hydration, lo: nat, rest: seq<Emission>)
    requires lo < |keys| && |h.results| == |keys| && |rest| == |keys| - lo - 1
    requires forall j :: 0 <= j < |rest| ==> rest[j] == FlaggedEmission(keys, h, lo + 1 + j)
    ensures var es := [FlaggedEmission(keys, h, lo)] + rest;
      forall j :: 0 <= j < |es| ==> es[j] == FlaggedEmission(keys, h, lo + j)
  {
    var es := [FlaggedEmission(keys, h, lo)] + rest;
    forall j | 0 <= j < |es| ensures es[j] == FlaggedEmission(keys, h, lo + j) {
      if j > 0 {
        assert es[j] == rest[j - 1];
        assert lo + 1 + (j - 1) == lo + j;
      }
    }
  }

  /** Over distinct keys, the record at `lo` is the only one carrying its key. */
  lemma OnlyRecordWithKey(keys: seq<string>, h: Hydration, lo: nat)
    requires lo < |keys| && |h.results| == |keys| && DistinctKeys(keys)
    requires forall i :: 0 <= i < |keys| ==> h.results[i].key == keys[i]
    ensures forall j :: 0 <= j < |h.results| && j != lo ==> h.results[j].key != keys[lo]
  {
    forall j | 0 <= j < |keys| && j != lo ensures h.results[j].key != keys[lo] {
      if j < lo { assert keys[j] != keys[lo]; } else { assert keys[lo] != keys[j]; }
    }
  }

  /** The emission an init action owes the key at position `i`. */
  function FlaggedEmission(keys: seq<string>, h: Hydration, i: nat): Emission
    requires i < |keys| && |h.results| == |keys|
  {
    if WriteFlags(true, h, |keys|)[i] then Written(keys[i]) else Skipped
  }

  /** Over distinct keys, the write-back stream emits once per key, in order: a
      write where the key's flag is set, a skip elsewhere. */
  lemma EmissionsFollowFlags(keys: seq<string>, isInit: bool, h: Hydration)
    requires DistinctKeys(keys)
    requires isInit ==> |h.results| == |keys| && forall i :: 0 <= i < |keys| ==> h.results[i].key == keys[i]
    ensures var flags := WriteFlags(isInit, h, |keys|);
      var es := Emissions(keys, isInit, h);
      && |es| == |keys|
      && forall i :: 0 <= i < |keys| ==> es[i] == if flags[i] then Written(keys[i]) else Skipped
  {
    if isInit {
      InitEmissionsFrom(keys, h, 0);
    }
  }

  /** On an init action the hydrated records follow the key set, one per key. */
  lemma HydrationFollowsKeys(items: map<string, Json>, state: Json, a: Action, o: Options)
    requires IsInitAction(a)
    ensures var keys := KeySet(state, o.key);
      var h := HandleHydration(items, state, a, o);
      |h.results| == |keys| && forall i :: 0 <= i < |keys| ==> h.results[i].key == keys[i]
  {
    var keys := KeySet(state, o.key);
    var h := HandleHydration(items, state, a, o);
    forall i | 0 <= i < |keys| ensures h.results[i].key == keys[i] {
      assert h.results[i] == LoadKey(items, keys[i], o);
    }
  }

  /** With distinct keys, the stream `handle` returns emits once per key, in key-set
      order: a write where the key's flag is set, a skip elsewhere. */
  lemma HandleEmissionsFollowFlags(items: map<string, Json>, state: Json, a: Action, o: Options)
    requires DistinctKeys(KeySet(state, o.key))
    ensures var keys := KeySet(state, o.key);
      var flags := WriteFlags(IsInitAction(a), HandleHydration(items, state, a, o), |keys|);
      var es := HandleEmissions(items, state, a, o);
      && |es| == |keys|
      && forall i :: 0 <= i < |keys| ==> es[i] == if flags[i] then Written(keys[i]) else Skipped
  {
    if IsInitAction(a) {
      HydrationFollowsKeys(items, state, a, o);
    }
    EmissionsFollowFlags(KeySet(state, o.key), IsInitAction(a), HandleHydration(items, state, a, o));
  }

  /** Each write the returned stream reports is a storage entry holding `next`'s
      fragment, serialized; each skip leaves the entry as it was. */
  lemma EmissionsFollowWrites(items: map<string, Json>, state: Json, a: Action,
                              next: (Json, Action) -> Json, o: Options)
    requires DistinctKeys(KeySet(state, o.key))
    ensures var keys := KeySet(state, o.key);
      var es := HandleEmissions(items, state, a, o);
      var out := HandleSpec(items, state, a, next, o);
      && |es| == |keys|
      && (forall i :: 0 <= i < |keys| && es[i].Written? ==>
            && es[i].key == keys[i] && keys[i] in out.items
            && out.items[keys[i]] == o.serialize(GetValue(out.nextState, keys[i])))
      && (forall i :: 0 <= i < |keys| && es[i].Skipped? && keys[i] in items ==>
            out.items[keys[i]] == items[keys[i]])
  {
    var keys := KeySet(state, o.key);
    var h := HandleHydration(items, state, a, o);
    var flags := WriteFlags(IsInitAction(a), h, |keys|);
    HandleEmissionsFollowFlags(items, state, a, o);
    var ns := next(h.state, a);
    var out := Persist(items, keys, flags, ns, o.serialize);
    assert HandleSpec(items, state, a, next, o) == Outcome(ns, out);
    forall i | 0 <= i < |keys| && !flags[i] && keys[i] in items ensures out[keys[i]] == items[keys[i]] {
      assert keys[i] !in FlaggedKeys(keys, flags) by {
        OnlyFlagOfKey(keys, flags, i);
      }
    }
  }

  /** Over distinct keys, an unflagged key is not among the flagged ones. */
  lemma OnlyFlagOfKey(keys: seq<string>, flags: seq<bool>, i: nat)
    requires |flags| == |keys| && i < |keys| && DistinctKeys(keys) && !flags[i]
    ensures keys[i] !in FlaggedKeys(keys, flags)
  {
    forall j | 0 <= j < |keys| && flags[j] ensures keys[j] != keys[i] {
      if j < i { assert keys[j] != keys[i]; } else { assert keys[i] != keys[j]; }
    }
  }
}
