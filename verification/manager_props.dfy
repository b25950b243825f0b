/**
 * Properties of the settings manager's transitions: the coherence invariant
 * a load establishes and the other operations keep, idempotence of cleanup
 * and load, the update-then-load round trip, and what a reset does and does
 * not change.
 */
module ManagerProps {
  import opened Wrappers
  import opened Schema
  import opened SettingsManager

  /** The state a load leaves behind: every stored key is declared, the cache
      mirrors the collection, and every cached key's live value is the cached
      one. */
  ghost predicate Coherent(m: State) {
    && Valid(m)
    && m.store.Keys <= Declared(m.fields)
    && m.cache == StoredValues(m.store)
    && forall k :: k in m.cache ==> m.live[k] == m.cache[k]
  }

  /** After cleanup nothing is left to delete, and a second cleanup leaves
      the collection as the first one left it. */
  lemma CleanupIdempotent(m: State)
    ensures InvalidKeys(Cleanup(m)) == {}
    ensures Cleanup(Cleanup(m)) == Cleanup(m)
  {
  }

  /** Cleanup never deletes a declared key. */
  lemma CleanupKeepsDeclared(m: State, k: string)
    requires k in m.store && k in Declared(m.fields)
    ensures k in Cleanup(m).store && Cleanup(m).store[k] == m.store[k]
  {
  }

  /** A load from any well-formed state ends in a coherent state. */
  lemma LoadEstablishesCoherent(m: State)
    requires Valid(m)
    ensures Coherent(Load(m))
  {
    var r := Load(m);
    assert r.cache == StoredValues(r.store);
  }

  /** Reloading a coherent state changes nothing. */
  lemma LoadOfCoherentIsIdentity(m: State)
    requires Coherent(m)
    ensures Load(m) == m
  {
    assert Cleanup(m) == m;
    assert StoredValues(m.store) == m.cache;
    OverlayOfAgreeing(m.live, m.cache, Declared(m.fields));
  }

  /** Overlaying a cache onto live values that already hold the cached
      values, over keys that are all live and declared, changes nothing. */
  lemma OverlayOfAgreeing(live: map<string, Value>, cache: map<string, Value>, declared: set<string>)
    requires cache.Keys <= declared && cache.Keys <= live.Keys
    requires forall k :: k in cache ==> live[k] == cache[k]
    ensures Overlay(live, cache, declared) == live
  {
  }

  /** Loading twice is the same as loading once. */
  lemma LoadIdempotent(m: State)
    ensures Load(Load(m)) == Load(m)
  {
    var r := Load(m);
    assert Cleanup(r) == r;
    assert StoredValues(r.store) == r.cache;
    OverlayOfAgreeing(r.live, r.cache, Declared(r.fields));
  }

  /** A successful update keeps a coherent state coherent. */
  lemma UpdatePreservesCoherent(m: State, key: string, v: Value, stamp: Stamp)
    requires Coherent(m)
    requires Update(m, key, v, stamp).Ok?
    ensures Coherent(Update(m, key, v, stamp).value)
  {
    var store := m.store[key := Record(v, stamp)];
    var cache := m.cache[key := v];
    var live := m.live[key := v];
    assert Update(m, key, v, stamp).value == m.(live := live, store := store, cache := cache);
    StoredValuesUpsert(m.store, key, Record(v, stamp));
  }

  /** Upserting a document updates the values read from the collection at
      that key alone. */
  lemma StoredValuesUpsert(store: map<string, Record>, key: string, rec: Record)
    ensures StoredValues(store[key := rec]) == StoredValues(store)[key := rec.value]
  {
  }

  /** In a coherent state the report says `database` exactly for the names
      held in the collection. */
  lemma SourceIsDatabaseIffStored(m: State)
    requires Coherent(m)
    ensures forall i :: 0 <= i < |m.fields| ==>
              (Report(m)[i].source == Database <==> m.fields[i].name in m.store)
  {
  }

  /** Round trip: an update followed by a load shows the written value,
      reported as coming from the database. */
  lemma UpdateThenLoad(m: State, key: string, v: Value, stamp: Stamp)
    requires Valid(m)
    requires key in Declared(m.fields)
    ensures Update(m, key, v, stamp).Ok?
    ensures var r := Load(Update(m, key, v, stamp).value);
            && Valid(r)
            && key in r.live && r.live[key] == v
            && key in r.store && r.store[key].value == v
            && forall i :: 0 <= i < |r.fields| && r.fields[i].name == key ==>
                 Report(r)[i].source == Database
  {
    var u := Update(m, key, v, stamp).value;
    assert Valid(u);
    LoadEstablishesCoherent(u);
  }

  /** Resetting one key from a coherent state leaves a coherent state in
      which that key is no longer reported as coming from the database, and
      no other stored key is touched. */
  lemma ResetSettingCoherent(m: State, key: string)
    requires Coherent(m)
    ensures var r := ResetSetting(m, key);
            && Coherent(r)
            && forall i :: 0 <= i < |r.fields| && r.fields[i].name == key ==>
                 Report(r)[i].source != Database
    ensures forall j :: j != key ==> (j in ResetSetting(m, key).store <==> j in m.store)
  {
    var d := m.(store := m.store - {key}, cache := m.cache - {key});
    LoadEstablishesCoherent(d);
  }

  /** What a reset really does to the live values: nothing. Reloading only
      writes the keys still stored, and in a coherent state those already
      hold their stored values, so the value of the reset key stays the last
      one written instead of returning to its environment or default value. */
  lemma ResetSettingKeepsLiveValues(m: State, key: string)
    requires Coherent(m)
    ensures ResetSetting(m, key).live == m.live
  {
    var r := ResetSetting(m, key);
    assert r.live.Keys == m.live.Keys;
    forall k | k in r.live ensures r.live[k] == m.live[k] {
      if k in r.cache {
        assert r.cache[k] == m.store[k].value;
      }
    }
  }

  /** After resetting everything the collection and the cache are empty, the
      state is coherent, and no field is reported as coming from the
      database. The live values are unchanged (`ResetAllSettings`). */
  lemma ResetAllSettingsCoherent(m: State)
    requires Valid(m)
    ensures var r := ResetAllSettings(m);
            && Coherent(r)
            && forall i :: 0 <= i < |r.fields| ==> Report(r)[i].source != Database
  {
    assert StoredValues(map[]) == map[];
  }

  /** An update followed by a reset of the same key: the override is gone
      from the collection and the cache, the field is no longer reported as
      coming from the database, and yet its live value is still the value the
      update wrote. */
  lemma UpdateThenReset(m: State, key: string, v: Value, stamp: Stamp)
    requires Valid(m)
    requires key in Declared(m.fields)
    ensures Update(m, key, v, stamp).Ok?
    ensures var r := ResetSetting(Update(m, key, v, stamp).value, key);
            && Valid(r)
            && key !in r.store && key !in r.cache
            && r.live[key] == v
            && forall i :: 0 <= i < |r.fields| && r.fields[i].name == key ==>
                 Report(r)[i].source != Database
  {
    var u := Update(m, key, v, stamp).value;
    var r := ResetSetting(u, key);
    assert Valid(r);
  }

  /** An update followed by a reset of everything: nothing is stored or
      cached any more, yet the updated field still holds the value the
      update wrote. */
  lemma UpdateThenResetAll(m: State, key: string, v: Value, stamp: Stamp)
    requires Valid(m)
    requires key in Declared(m.fields)
    ensures Update(m, key, v, stamp).Ok?
    ensures var r := ResetAllSettings(Update(m, key, v, stamp).value);
            && r.store == map[] && r.cache == map[]
            && r.live[key] == v
  {
  }
}
