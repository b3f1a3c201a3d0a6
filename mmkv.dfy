/** The patched MMKV persistence plugin of plugins/mmkv2.ts. The plugin
    keeps an in-memory cache `data` of parsed tables in front of a
    key-value store of strings. `getTable` fills the cache from the store
    on a miss; `save` writes the cached table back, or deletes it from the
    store when the cache holds nothing for it. `JSON.parse` and
    `JSON.stringify` are function parameters that give `None` where they
    throw. */
module PersistMMKV {
  import opened Common

  /** `m[key]`, `undefined` when the key is absent. */
  function Lookup<V>(m: map<string, V>, key: string): (r: Option<V>)
    ensures r.Some? <==> key in m
    ensures r.Some? ==> r.value == m[key]
  {
    if key in m then Some(m[key]) else None
  }

  /** The cache after `getTable(table, init)`. A cached table is kept. On
      a miss, a missing or empty stored string caches `init`, a string
      that parses caches the parsed value, and a string that does not
      parse leaves the table uncached (the error is only logged). */
  function Load<T>(data: map<string, T>, storage: map<string, string>, table: string,
                   init: T, parse: string -> Option<T>): (d: map<string, T>)
    ensures forall key :: key != table ==> Lookup(d, key) == Lookup(data, key)
    ensures table in data ==> d == data
    ensures table !in data && (table !in storage || storage[table] == "") ==> d == data[table := init]
    ensures table !in data && table in storage && storage[table] != "" ==>
      Lookup(d, table) == parse(storage[table])
  {
    if table in data then data
    else if table !in storage || storage[table] == "" then data[table := init]
    else
      match parse(storage[table])
      case Some(v) => data[table := v]
      case None => data
  }

  /** What `getTable` returns: the table as it stands in the cache after
      loading, `undefined` when it could not be parsed. */
  function GetTableResult<T>(data: map<string, T>, storage: map<string, string>, table: string,
                             init: T, parse: string -> Option<T>): (r: Option<T>)
    ensures table in data ==> r == Some(data[table])
    ensures table !in data && (table !in storage || storage[table] == "") ==> r == Some(init)
    ensures table !in data && table in storage && storage[table] != "" ==> r == parse(storage[table])
  {
    Lookup(Load(data, storage, table, init, parse), table)
  }

  /** The store after `save(table)`. A cached table is written as its
      JSON text; when `JSON.stringify` throws the error is only logged
      and the store is left as it was. An uncached table is deleted from
      the store. */
  function Saved<T>(data: map<string, T>, storage: map<string, string>, table: string,
                    stringify: T -> Option<string>): (st: map<string, string>)
    ensures forall key :: key != table ==> Lookup(st, key) == Lookup(storage, key)
    ensures table in data && stringify(data[table]).Some? ==> Lookup(st, table) == stringify(data[table])
    ensures table in data && stringify(data[table]).None? ==> st == storage
    ensures table !in data ==> table !in st
  {
    if table in data then
      match stringify(data[table])
      case Some(text) => storage[table := text]
      case None => storage
    else storage - {table}
  }

  /** Loading twice is loading once, and the second `getTable` returns
      what the first one did. */
  lemma LoadIsIdempotent<T>(data: map<string, T>, storage: map<string, string>, table: string,
                            init: T, parse: string -> Option<T>)
    ensures Load(Load(data, storage, table, init, parse), storage, table, init, parse)
         == Load(data, storage, table, init, parse)
    ensures GetTableResult(Load(data, storage, table, init, parse), storage, table, init, parse)
         == GetTableResult(data, storage, table, init, parse)
  {
  }

  /** Saving does not change what a cache filled from the store holds:
      once a table is cached, saving it and loading again returns the
      cached value, whatever the store now says. */
  lemma CachedTableSurvivesSave<T>(data: map<string, T>, storage: map<string, string>, table: string,
                                   init: T, parse: string -> Option<T>, stringify: T -> Option<string>)
    requires table in data
    ensures GetTableResult(data, Saved(data, storage, table, stringify), table, init, parse) == Some(data[table])
  {
  }

  /** The persistence round trip: a table saved by one run of the app is
      what a later run (with an empty cache) loads, provided its JSON text
      is not empty and parses back to the same value. A table saved while
      uncached loads as `init`. */
  lemma SaveThenLoad<T>(data: map<string, T>, storage: map<string, string>, table: string,
                        init: T, parse: string -> Option<T>, stringify: T -> Option<string>)
    requires table in data ==>
      var text := stringify(data[table]);
      text.Some? && text.value != "" && parse(text.value) == Some(data[table])
    ensures GetTableResult(map[], Saved(data, storage, table, stringify), table, init, parse)
         == Some(Lookup(data, table).GetOr(init))
  {
  }

  /** The plugin object: the cache of parsed tables and the store. */
  class Plugin<T> {
    var data: map<string, T>
    var storage: map<string, string>

    constructor (storage: map<string, string>)
      ensures data == map[] && this.storage == storage
    {
      data := map[];
      this.storage := storage;
    }

    /** `getTable(table, init)`. */
    method GetTable(table: string, init: T, parse: string -> Option<T>) returns (r: Option<T>)
      modifies this
      ensures storage == old(storage)
      ensures data == Load(old(data), old(storage), table, init, parse)
      ensures r == GetTableResult(old(data), old(storage), table, init, parse)
    {
      if table !in data {
        var value := Lookup(storage, table);
        if value.None? || value.value == "" {
          data := data[table := init];
        } else {
          var parsed := parse(value.value);
          if parsed.Some? {
            data := data[table := parsed.value];
          }
        }
      }
      r := Lookup(data, table);
    }

    /** `save(table)`. */
    method Save(table: string, stringify: T -> Option<string>)
      modifies this
      ensures data == old(data)
      ensures storage == Saved(old(data), old(storage), table, stringify)
    {
      if table in data {
        var text := stringify(data[table]);
        if text.Some? {
          storage := storage[table := text.value];
        }
      } else {
        storage := storage - {table};
      }
    }
  }
}
