/**
 * The settings manager of `core/manager.py` as a state machine over plain
 * maps. The Mongo collection becomes the map `store`, the override cache
 * `_db_settings` becomes `cache`, and the live settings instance becomes the
 * map `live` from field name to current value. Every operation is a pure
 * transition from one `State` to the next.
 */
module SettingsManager {
  import opened Wrappers
  import opened Schema

  /** The metadata written next to a stored value: the time of the write and
      the user who made it. It is carried along and never inspected. */
  datatype Stamp = Stamp(updatedAt: int, user: Option<string>)

  /** One document of the settings collection, keyed by setting name. */
  datatype Record = Record(value: Value, stamp: Stamp)

  /** Where the reported value of a setting comes from. */
  datatype Source = Database | Environment | Default

  /** One entry of the settings report. */
  datatype SettingInfo = SettingInfo(
    name: string,
    value: Value,
    source: Source,
    description: string,
    typeName: string)

  /** The errors the manager raises. `UnknownKey` is the `ValueError` for a
      name that is not a declared field; `CannotChange` is the `ValueError`
      a denied write raises ("cannot be changed"). */
  datatype Error = UnknownKey(key: string) | CannotChange(key: string, role: string)

  /** The whole manager: the declared fields in declaration order, the
      persisted collection, the override cache and the live values. */
  datatype State = State(
    fields: seq<Field>,
    store: map<string, Record>,
    cache: map<string, Value>,
    live: map<string, Value>)

  /** The live settings instance has exactly the declared fields. */
  ghost predicate Valid(m: State) {
    m.live.Keys == Declared(m.fields)
  }

  /** `a` and `b` agree everywhere except possibly at `key`. */
  ghost predicate AgreeExcept<V>(a: map<string, V>, b: map<string, V>, key: string) {
    forall j :: j != key ==> (j in a <==> j in b) && (j in a ==> a[j] == b[j])
  }

  /** The values held by the collection, as `_get_database_settings` reads
      them. */
  function StoredValues(store: map<string, Record>): (vs: map<string, Value>)
    ensures vs.Keys == store.Keys
    ensures forall k :: k in store ==> vs[k] == store[k].value
  {
    map k | k in store :: store[k].value
  }

  /** Stored keys that no longer name a declared field. */
  function InvalidKeys(m: State): (ks: set<string>)
    ensures forall k :: k in ks <==> k in m.store && k !in Declared(m.fields)
  {
    m.store.Keys - Declared(m.fields)
  }

  /** `_cleanup_database`: delete every stored document whose key is not a
      declared field, issuing the deletion only when there is something to
      delete. */
  function Cleanup(m: State): (r: State)
    ensures r.fields == m.fields && r.cache == m.cache && r.live == m.live
    ensures r.store.Keys <= Declared(m.fields)
    ensures forall k :: k in r.store <==> k in m.store && k in Declared(m.fields)
    ensures forall k :: k in r.store ==> r.store[k] == m.store[k]
  {
    var invalid := InvalidKeys(m);
    if invalid == {} then m
    else m.(store := m.store - invalid)
  }

  /** The loop at the end of `load_from_database`: every cached key that is a
      declared field (`hasattr`) has its live value replaced by the cached
      one; every other live value is kept. */
  function Overlay(live: map<string, Value>, cache: map<string, Value>, declared: set<string>)
    : (r: map<string, Value>)
    ensures r.Keys == live.Keys + (cache.Keys * declared)
    ensures forall k :: k in cache && k in declared ==> r[k] == cache[k]
    ensures forall k :: k in live && k !in cache ==> r[k] == live[k]
    ensures forall k :: k in live && k !in declared ==> r[k] == live[k]
  {
    map k | k in live.Keys + (cache.Keys * declared) ::
      if k in cache && k in declared then cache[k] else live[k]
  }

  /** The same loop written as the source writes it: one `setattr` per item
      of the cache, visited in whatever order the dictionary yields them. */
  method ApplyOverrides(live: map<string, Value>, cache: map<string, Value>, declared: set<string>)
    returns (r: map<string, Value>)
    ensures r == Overlay(live, cache, declared)
  {
    r := live;
    var todo := cache.Keys;
    while todo != {}
      invariant todo <= cache.Keys
      invariant r.Keys == live.Keys + ((cache.Keys - todo) * declared)
      invariant forall k :: k in r ==>
                  r[k] == if k in cache && k !in todo && k in declared then cache[k] else live[k]
      decreases todo
    {
      var k :| k in todo;
      if k in declared {
        r := r[k := cache[k]];
      }
      todo := todo - {k};
    }
  }

  /** `load_from_database`: clean the collection, replace the cache by what
      the collection holds, then overlay the cache onto the live values. */
  function Load(m: State): (r: State)
    ensures r.fields == m.fields
    ensures r.store.Keys <= Declared(m.fields)
    ensures forall k :: k in r.store <==> k in m.store && k in Declared(m.fields)
    ensures forall k :: k in r.store ==> r.store[k] == m.store[k]
    ensures r.cache.Keys == r.store.Keys
    ensures forall k :: k in r.cache ==> r.cache[k] == r.store[k].value
    ensures r.live.Keys == m.live.Keys + r.cache.Keys
    ensures forall k :: k in r.cache ==> r.live[k] == r.cache[k]
    ensures forall k :: k in m.live && k !in r.cache ==> r.live[k] == m.live[k]
  {
    var c := Cleanup(m);
    var cache := StoredValues(c.store);
    c.(cache := cache, live := Overlay(c.live, cache, Declared(c.fields)))
  }

  /** The provenance rule of `get_settings_info`: `database` when the name is
      cached, otherwise `environment` when the declared default is falsy,
      otherwise `default`. */
  function SourceOf(f: Field, cache: map<string, Value>): Source {
    if f.name in cache then Database
    else if f.defaultFalsy then Environment
    else Default
  }

  /** `get_settings_info`: one entry per declared field, in declaration
      order, carrying the live value and its provenance. */
  function SettingsInfo(fields: seq<Field>, cache: map<string, Value>, live: map<string, Value>)
    : (r: seq<SettingInfo>)
    requires forall i :: 0 <= i < |fields| ==> fields[i].name in live
    ensures |r| == |fields|
    ensures forall i :: 0 <= i < |r| ==>
              && r[i].name == fields[i].name
              && r[i].value == live[fields[i].name]
              && r[i].description == fields[i].description
              && r[i].typeName == TypeName(fields[i])
    ensures forall i :: 0 <= i < |r| ==>
              (r[i].source == Database <==> fields[i].name in cache)
    ensures forall i :: 0 <= i < |r| ==>
              (r[i].source == Environment <==> fields[i].name !in cache && fields[i].defaultFalsy)
    ensures forall i :: 0 <= i < |r| ==>
              (r[i].source == Default <==> fields[i].name !in cache && !fields[i].defaultFalsy)
  {
    if fields == [] then []
    else
      var f := fields[0];
      [SettingInfo(f.name, live[f.name], SourceOf(f, cache), f.description, TypeName(f))]
        + SettingsInfo(fields[1..], cache, live)
  }

  /** The report of a whole manager state. */
  function Report(m: State): seq<SettingInfo>
    requires Valid(m)
  {
    SettingsInfo(m.fields, m.cache, m.live)
  }

  /** `update_setting`: reject an undeclared key; otherwise set the live
      value, upsert the stored document with `stamp`, and update the cache. */
  function Update(m: State, key: string, v: Value, stamp: Stamp): (r: Result<State, Error>)
    ensures key !in Declared(m.fields) <==> r.Err?
    ensures r.Err? ==> r.error == UnknownKey(key)
    ensures r.Ok? ==>
              && r.value.fields == m.fields
              && key in r.value.live && r.value.live[key] == v
              && key in r.value.store && r.value.store[key] == Record(v, stamp)
              && key in r.value.cache && r.value.cache[key] == v
    ensures r.Ok? ==>
              && AgreeExcept(r.value.live, m.live, key)
              && AgreeExcept(r.value.store, m.store, key)
              && AgreeExcept(r.value.cache, m.cache, key)
  {
    if key !in Declared(m.fields) then Err(UnknownKey(key))
    else
      Ok(m.(live := m.live[key := v],
            store := m.store[key := Record(v, stamp)],
            cache := m.cache[key := v]))
  }

  /** `reset_setting`: delete the stored document and the cached value for
      `key`, then reload. The reload rebuilds the cache from what is still
      stored and writes the live value of every such key; it writes no live
      value for `key` itself, which is left as it was. */
  function ResetSetting(m: State, key: string): (r: State)
    ensures r.fields == m.fields
    ensures key !in r.store && key !in r.cache
    ensures forall j :: j != key ==> (j in r.store <==> j in m.store && j in Declared(m.fields))
    ensures forall j :: j in r.store ==> r.store[j] == m.store[j]
    ensures r.cache == StoredValues(r.store)
    ensures r.live.Keys == m.live.Keys + r.cache.Keys
    ensures forall j :: j in r.cache ==> r.live[j] == r.cache[j]
    ensures forall j :: j in m.live && j !in r.cache ==> r.live[j] == m.live[j]
    ensures key in m.live ==> key in r.live && r.live[key] == m.live[key]
  {
    var deleted := m.(store := m.store - {key}, cache := m.cache - {key});
    Load(deleted)
  }

  /** `reset_all_settings`: empty the collection and the cache, then
      reload. Nothing is stored any more, so the reload writes no live
      value: every live value is left as it was. */
  function ResetAllSettings(m: State): (r: State)
    ensures r.fields == m.fields
    ensures r.store == map[] && r.cache == map[]
    ensures r.live == m.live
  {
    Load(m.(store := map[], cache := map[]))
  }
}
