/**
 * The settings store and the loop that resets it. The store is cached: what is put is kept by
 * reference, so after a reset the stored settings are the very objects of DEFAULT_SETTINGS.
 */
module Settings {
  import opened Wrappers

  datatype Atom = Flag(b: bool) | Text(s: string)

  type Fields = map<string, Atom>

  class SettingsObject {
    var fields: Fields

    constructor (fields: Fields)
      ensures this.fields == fields
    {
      this.fields := fields;
    }
  }

  ghost function ContentsOf(objects: map<string, SettingsObject>): map<string, Fields>
    reads objects.Values
  {
    map k | k in objects :: objects[k].fields
  }

  datatype SettingsError = NotInitialized | Conflict(key: string)

  class SettingsRepository {
    var settingsStore: map<string, SettingsObject>
    const defaults: map<string, SettingsObject>

    constructor (store: map<string, SettingsObject>, defaults: map<string, SettingsObject>)
      ensures settingsStore == store && this.defaults == defaults
    {
      settingsStore := store;
      this.defaults := defaults;
    }

    ghost function Contents(): map<string, Fields>
      reads this, settingsStore.Values
    {
      ContentsOf(settingsStore)
    }

    /** The stored object itself, not a copy. */
    method Get(key: string) returns (r: Result<SettingsObject, SettingsError>)
      ensures r == if key in settingsStore then Ok(settingsStore[key]) else Err(NotInitialized)
    {
      if key !in settingsStore {
        return Err(NotInitialized);
      }
      r := Ok(settingsStore[key]);
    }

    method IsInitialized(key: string) returns (exists_: bool)
      ensures exists_ <==> key in Contents()
    {
      exists_ := key in settingsStore;
    }

    /** Stores the defaults object by reference. */
    method ResetDefaults(key: string)
      requires key in defaults
      modifies this
      ensures settingsStore == old(settingsStore)[key := defaults[key]]
      ensures Contents() == old(Contents())[key := defaults[key].fields]
    {
      settingsStore := settingsStore[key := defaults[key]];
    }

    /** Merges into a new object: no stored object, and so no defaults object, is written to. */
    method Update(key: string, data: Fields) returns (r: Result<(), SettingsError>)
      modifies this
      ensures r == if key in old(Contents()) then Ok(()) else Err(NotInitialized)
      ensures Contents() == UpdatedContents(old(Contents()), key, data)
      ensures r.Ok? ==> key in settingsStore && fresh(settingsStore[key])
    {
      var current := Get(key);
      if current.Err? {
        return Err(current.error);
      }
      var merged := new SettingsObject(current.value.fields + data);
      settingsStore := settingsStore[key := merged];
      r := Ok(());
    }
  }

  function UpdatedContents(contents: map<string, Fields>, key: string, data: Fields): map<string, Fields>
  {
    if key in contents then contents[key := contents[key] + data] else contents
  }

  class MaintenanceService {
    const repository: SettingsRepository

    constructor (repository: SettingsRepository)
      ensures this.repository == repository
    {
      this.repository := repository;
    }

    /** `keys` is the key order of the defaults record. */
    method ResetAllSettingsToDefaults(keys: seq<string>, ignoreExisting: bool) returns (r: Result<(), SettingsError>)
      requires forall k :: k in keys ==> k in repository.defaults
      modifies repository
      ensures var done := ResetAll(old(repository.Contents()), ContentsOf(repository.defaults), keys, ignoreExisting);
              && repository.Contents() == done.contents
              && r == if done.conflict.Some? then Err(Conflict(done.conflict.value)) else Ok(())
      ensures ContentsOf(repository.defaults) == old(ContentsOf(repository.defaults))
    {
      ghost var defaults := ContentsOf(repository.defaults);
      for i := 0 to |keys|
        invariant ContentsOf(repository.defaults) == defaults
        invariant ResetAll(repository.Contents(), defaults, keys[i..], ignoreExisting)
               == ResetAll(old(repository.Contents()), defaults, keys, ignoreExisting)
      {
        assert keys[i..][0] == keys[i] && keys[i..][1..] == keys[i + 1..];
        var isInitialized := repository.IsInitialized(keys[i]);
        if isInitialized && !ignoreExisting {
          return Err(Conflict(keys[i]));
        }
        repository.ResetDefaults(keys[i]);
      }
      r := Ok(());
    }
  }

  // ------------------------------------------------------------------ specification of the loop

  datatype Reset = Reset(contents: map<string, Fields>, conflict: Option<string>)

  function ResetAll(contents: map<string, Fields>, defaults: map<string, Fields>, keys: seq<string>, ignoreExisting: bool): Reset
    requires forall k :: k in keys ==> k in defaults
    decreases |keys|
  {
    if keys == [] then Reset(contents, None)
    else if keys[0] in contents && !ignoreExisting then Reset(contents, Some(keys[0]))
    else ResetAll(contents[keys[0] := defaults[keys[0]]], defaults, keys[1..], ignoreExisting)
  }

  ghost predicate Distinct(keys: seq<string>)
  {
    forall i, j :: 0 <= i < j < |keys| ==> keys[i] != keys[j]
  }

  /** Exactly the given keys hold their defaults, everything else is as before. */
  ghost predicate HoldsDefaults(before: map<string, Fields>, defaults: map<string, Fields>, keys: seq<string>, after: map<string, Fields>)
    requires forall k :: k in keys ==> k in defaults
  {
    && (forall k :: k in after <==> k in before || k in keys)
    && (forall k :: k in after ==> after[k] == if k in keys then defaults[k] else before[k])
  }

  /** With force every key ends at its default, and nothing else changes. */
  lemma {:induction false} ForcedReset(contents: map<string, Fields>, defaults: map<string, Fields>, keys: seq<string>)
    requires forall k :: k in keys ==> k in defaults
    ensures var done := ResetAll(contents, defaults, keys, true);
            done.conflict.None? && HoldsDefaults(contents, defaults, keys, done.contents)
    decreases |keys|
  {
    if keys != [] {
      ForcedReset(contents[keys[0] := defaults[keys[0]]], defaults, keys[1..]);
      assert forall k :: k in keys <==> k == keys[0] || k in keys[1..];
    }
  }

  /** The keys before the first initialised one. */
  function Uninitialised(contents: map<string, Fields>, keys: seq<string>): (n: nat)
    ensures n <= |keys|
    ensures forall i :: 0 <= i < n ==> keys[i] !in contents
    ensures n < |keys| ==> keys[n] in contents
  {
    if keys == [] || keys[0] in contents then 0 else 1 + Uninitialised(contents, keys[1..])
  }

  /** Without force the loop is the forced loop over the keys before the first initialised one. */
  lemma {:induction false} CarefulIsForcedPrefix(contents: map<string, Fields>, defaults: map<string, Fields>, keys: seq<string>)
    requires (forall k :: k in keys ==> k in defaults) && Distinct(keys)
    ensures var n := Uninitialised(contents, keys);
            ResetAll(contents, defaults, keys, false) ==
              Reset(ResetAll(contents, defaults, keys[..n], true).contents, if n < |keys| then Some(keys[n]) else None)
    decreases |keys|
  {
    if keys != [] && keys[0] !in contents {
      var head, tail := keys[0], keys[1..];
      var next := contents[head := defaults[head]];
      SameFirst(contents, head, defaults[head], tail);
      CarefulIsForcedPrefix(next, defaults, tail);
      var n := Uninitialised(contents, tail);
      assert keys[..n + 1][1..] == tail[..n];
    }
  }

  /**
   * Without force the loop stops at the first initialised key: the keys before it hold defaults, and
   * no setting that was initialised is touched. It succeeds exactly when no key was initialised.
   */
  lemma CarefulReset(contents: map<string, Fields>, defaults: map<string, Fields>, keys: seq<string>)
    requires (forall k :: k in keys ==> k in defaults) && Distinct(keys)
    ensures var done := ResetAll(contents, defaults, keys, false);
            var n := Uninitialised(contents, keys);
            && done.conflict == (if n < |keys| then Some(keys[n]) else None)
            && HoldsDefaults(contents, defaults, keys[..n], done.contents)
            && (forall k :: k in contents ==> k in done.contents && done.contents[k] == contents[k])
            && (done.conflict.None? <==> forall k :: k in keys ==> k !in contents)
  {
    CarefulIsForcedPrefix(contents, defaults, keys);
    var n := Uninitialised(contents, keys);
    ForcedReset(contents, defaults, keys[..n]);
    hide ResetAll, Uninitialised;
    assert n < |keys| ==> keys[n] in keys;
  }

  lemma {:induction false} SameFirst(contents: map<string, Fields>, key: string, fields: Fields, keys: seq<string>)
    requires key !in keys
    ensures Uninitialised(contents[key := fields], keys) == Uninitialised(contents, keys)
  {
    if keys != [] {
      SameFirst(contents, key, fields, keys[1..]);
    }
  }

  /** Whatever was updated in between, a forced reset brings back the defaults of the start. */
  method ResetAfterUpdates(maintenance: MaintenanceService, keys: seq<string>, updates: seq<(string, Fields)>)
    requires forall k :: k in keys ==> k in maintenance.repository.defaults
    modifies maintenance.repository
    ensures HoldsDefaults(UpdatedAll(old(maintenance.repository.Contents()), updates),
                          old(ContentsOf(maintenance.repository.defaults)), keys, maintenance.repository.Contents())
    ensures ContentsOf(maintenance.repository.defaults) == old(ContentsOf(maintenance.repository.defaults))
  {
    var repository := maintenance.repository;
    ghost var defaults := ContentsOf(repository.defaults);
    for i := 0 to |updates|
      invariant ContentsOf(repository.defaults) == defaults
      invariant repository.Contents() == UpdatedAll(old(repository.Contents()), updates[..i])
    {
      assert updates[..i + 1][..i] == updates[..i];
      var _ := repository.Update(updates[i].0, updates[i].1);
    }
    assert updates[..|updates|] == updates;
    ForcedReset(repository.Contents(), defaults, keys);
    var _ := maintenance.ResetAllSettingsToDefaults(keys, true);
  }

  function UpdatedAll(contents: map<string, Fields>, updates: seq<(string, Fields)>): map<string, Fields>
  {
    if updates == [] then contents
    else
      var last := updates[|updates| - 1];
      UpdatedContents(UpdatedAll(contents, updates[..|updates| - 1]), last.0, last.1)
  }

  /** One field of one setting, if it is there. */
  function FieldAt(contents: map<string, Fields>, key: string, field: string): Option<Atom>
  {
    if key in contents && field in contents[key] then Some(contents[key][field]) else None
  }

  /**
   * What a partial update leaves, field by field: the new value where there is one, what was there
   * elsewhere, and every other setting as it was; a setting that was not initialised stays so.
   */
  lemma UpdateOnFields(contents: map<string, Fields>, key: string, data: Fields, other: string, field: string)
    ensures var after := UpdatedContents(contents, key, data);
            && after.Keys == contents.Keys
            && FieldAt(after, other, field) ==
                 if other == key && key in contents && field in data then Some(data[field]) else FieldAt(contents, other, field)
  {
  }
}
