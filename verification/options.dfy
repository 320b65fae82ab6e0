/** The plugin's options and the factory that merges the user's options over the
    defaults (`storageOptionsFactory` in src/ngxs.pouchdb.module.ts). */
module StorageOptions {
  import opened Wrappers
  import opened Values

  /** The sentinel key that puts the plugin in master mode: every top-level state
      name is a fragment. */
  const MasterKey: string := "@@STATE"

  /** `options.key`: one fragment name or an array of names. */
  datatype KeySpec = Single(key: string) | Many(keys: seq<string>)

  /** `StorageOption`, the storage selection carried in the options. */
  datatype StorageOption = LocalStorage | PouchDbStorage

  /** A migration strategy: when the value at `versionKey` (default `version`) is
      strictly equal to `version`, `migrate` replaces the value. A strategy with a
      `key` applies to that fragment; one without applies to the whole tree. */
  datatype MigrationStrategy = MigrationStrategy(
    version: Json,
    versionKey: Option<string>,
    key: Option<string>,
    migrate: Json -> Json)

  /** The options the plugin reads. `deserialize` answers `None` where the
      deserializer throws; `migrations` is `None` when the field is absent. */
  datatype Options = Options(
    key: KeySpec,
    storage: StorageOption,
    serialize: Json -> Json,
    deserialize: Json -> Option<Json>,
    migrations: Option<seq<MigrationStrategy>>)

  /** The options a user passes to `forRoot`; `None` marks a field left out. */
  datatype UserOptions = UserOptions(
    key: Option<KeySpec>,
    storage: Option<StorageOption>,
    serialize: Option<Json -> Json>,
    deserialize: Option<Json -> Option<Json>>,
    migrations: Option<seq<MigrationStrategy>>)

  /** The host's `JSON.stringify` and `JSON.parse` (a parse that throws is `None`). */
  datatype JsonCodec = JsonCodec(stringify: Json -> Json, parse: Json -> Option<Json>)

  /** `options.key === '@@STATE'`: only the single sentinel string selects master
      mode; an array holding the sentinel does not. */
  predicate IsMaster(key: KeySpec) {
    key == Single(MasterKey)
  }

  /** A field of an object spread last wins over the default before it. */
  function Override<T>(field: Option<T>, default: T): T {
    match field
    case Some(v) => v
    case None => default
  }

  /** `{ key: '@@STATE', storage: PouchDbStorage, serialize: JSON.stringify,
      deserialize: JSON.parse, ...options }`. */
  function StorageOptionsFactory(user: Option<UserOptions>, json: JsonCodec): (r: Options)
    ensures IsMaster(r.key) <==>
      user.None? || user.value.key.None? || user.value.key.value == Single(MasterKey)
    ensures r.migrations.Some? <==> user.Some? && user.value.migrations.Some?
    ensures user.None? ==>
      r == Options(Single(MasterKey), PouchDbStorage, json.stringify, json.parse, None)
  {
    match user
    case None => Options(Single(MasterKey), PouchDbStorage, json.stringify, json.parse, None)
    case Some(u) =>
      Options(
        Override(u.key, Single(MasterKey)),
        Override(u.storage, PouchDbStorage),
        Override(u.serialize, json.stringify),
        Override(u.deserialize, json.parse),
        u.migrations)
  }

  /** Every field supplied by the user wins; every field left out keeps its default. */
  lemma FactoryUserFieldsWin(u: UserOptions, json: JsonCodec)
    ensures var r := StorageOptionsFactory(Some(u), json);
      && (u.key.Some? ==> r.key == u.key.value)
      && (u.key.None? ==> r.key == Single(MasterKey))
      && (u.storage.Some? ==> r.storage == u.storage.value)
      && (u.storage.None? ==> r.storage == PouchDbStorage)
      && (u.serialize.Some? ==> r.serialize == u.serialize.value)
      && (u.serialize.None? ==> r.serialize == json.stringify)
      && (u.deserialize.Some? ==> r.deserialize == u.deserialize.value)
      && (u.deserialize.None? ==> r.deserialize == json.parse)
      && r.migrations == u.migrations
  {
  }

  /** Spreading `undefined` adds nothing: no options at all and an empty options
      object give the same defaults. */
  lemma FactoryUndefinedIsEmpty(json: JsonCodec)
    ensures StorageOptionsFactory(None, json)
         == StorageOptionsFactory(Some(UserOptions(None, None, None, None, None)), json)
  {
  }

  /** The user's options as a complete object: every field present. */
  function AsUserOptions(o: Options): UserOptions {
    UserOptions(Some(o.key), Some(o.storage), Some(o.serialize), Some(o.deserialize), o.migrations)
  }

  /** A complete options object passes through the factory unchanged: with every
      field supplied, no default survives the spread. */
  lemma FactoryKeepsCompleteOptions(o: Options, json: JsonCodec)
    ensures StorageOptionsFactory(Some(AsUserOptions(o)), json) == o
  {
  }
}
