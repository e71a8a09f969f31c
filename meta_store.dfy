/**
 * The forum's configuration store: the `config` hash with its in-memory
 * copy `Meta.config`, the `settings:<hash>` hashes, the sound mapping and
 * the concatenated client script cache.
 *
 * The database is a map from hash key to field map. As in Redis, a hash
 * without fields does not exist: reading it gives null. A database
 * failure is a parameter; a failed write leaves the data unchanged.
 */
module MetaStore {
  import opened Lists
  import MetaJs

  type Hash = map<string, string>
  type Db = map<string, Hash>

  const ConfigKey: string := "config"
  const InvalidConfigField: string := "invalid config field"

  /** `db.getObject(key)`: null for a missing or empty hash. */
  function GetObject(db: Db, key: string): (r: Option<Hash>)
    ensures r.Some? <==> key in db && db[key] != map[]
    ensures r.Some? ==> r.value == db[key]
  {
    if key in db && db[key] != map[] then Some(db[key]) else None
  }

  /** `db.getObjectField(key, field)`: null when the hash or the field is missing. */
  function GetField(db: Db, key: string, field: string): (r: Option<string>)
    ensures r.Some? <==> key in db && field in db[key]
    ensures r.Some? ==> r.value == db[key][field]
  {
    if key in db && field in db[key] then Some(db[key][field]) else None
  }

  /** `db.setObject(key, values)`: the given fields are written over the hash's own. */
  function SetFields(db: Db, key: string, values: Hash): (r: Db)
    ensures r.Keys == db.Keys + {key} && key in r
    ensures forall k :: k in db && k != key ==> r[k] == db[k]
    ensures r[key].Keys == values.Keys + (if key in db then db[key].Keys else {})
    ensures forall f :: f in values ==> r[key][f] == values[f]
    ensures forall f :: key in db && f in db[key] && f !in values ==> r[key][f] == db[key][f]
  {
    var old_ := if key in db then db[key] else map[];
    db[key := old_ + values]
  }

  /** `db.deleteObjectField(key, field)`. */
  function DeleteField(db: Db, key: string, field: string): (r: Db)
    ensures r.Keys == db.Keys
    ensures forall k :: k in db && k != key ==> r[k] == db[k]
    ensures key in db ==> r[key].Keys == db[key].Keys - {field}
    ensures key in db ==> forall f :: f in r[key] ==> r[key][f] == db[key][f]
  {
    if key in db then db[key := db[key] - {field}] else db
  }

  /** A JavaScript value that `!value` calls false: absent or empty. */
  predicate Falsy(v: Option<string>) {
    v.None? || v.value == ""
  }

  /** The data after a `setOnEmpty` whose read and write succeed. */
  function SetOnEmptyDb(db: Db, key: string, field: string, value: string): Db {
    if Falsy(GetField(db, key, field)) then SetFields(db, key, map[field := value]) else db
  }

  /** `configs.list`: the stored config, or an empty one, with `status` set to `ok`. */
  function ListConfig(db: Db): (config: Hash)
    ensures "status" in config && config["status"] == "ok"
    ensures GetObject(db, ConfigKey).Some? ==>
      config.Keys == GetObject(db, ConfigKey).value.Keys + {"status"}
    ensures GetObject(db, ConfigKey).None? ==> config == map["status" := "ok"]
    ensures GetObject(db, ConfigKey).Some? ==> forall f :: f in config && f != "status" ==>
      config[f] == GetObject(db, ConfigKey).value[f]
  {
    var stored := GetObject(db, ConfigKey);
    var config := if stored.Some? then stored.value else map[];
    config["status" := "ok"]
  }

  /** `'settings:' + hash`. */
  function SettingsKey(hash: string): (key: string)
    ensures |key| == |hash| + 9 && key[..9] == "settings:" && key[9..] == hash
  {
    "settings:" + hash
  }

  /** Distinct settings hashes live under distinct keys, none of them the `config` hash. */
  lemma SettingsKeysApart(a: string, b: string)
    ensures SettingsKey(a) == SettingsKey(b) ==> a == b
    ensures SettingsKey(a) != ConfigKey
  {
    assert |SettingsKey(a)| >= 9 && |ConfigKey| == 6;
    if SettingsKey(a) == SettingsKey(b) {
      assert a == SettingsKey(a)[9..] && b == SettingsKey(b)[9..];
    }
  }

  /** A set-on-empty write never replaces a truthy value, and fills a falsy one. */
  lemma SetOnEmptyKeepsTruthy(db: Db, key: string, field: string, value: string)
    ensures !Falsy(GetField(db, key, field)) ==> SetOnEmptyDb(db, key, field, value) == db
    ensures Falsy(GetField(db, key, field)) ==>
      GetField(SetOnEmptyDb(db, key, field, value), key, field) == Some(value)
    ensures forall k :: k in db && k != key ==> SetOnEmptyDb(db, key, field, value)[k] == db[k]
  {
  }

  /** Setting on empty a second time changes nothing. */
  lemma SetOnEmptyIdempotent(db: Db, key: string, field: string, value: string)
    ensures var once := SetOnEmptyDb(db, key, field, value);
      SetOnEmptyDb(once, key, field, value) == once
  {
    var once := SetOnEmptyDb(db, key, field, value);
    if Falsy(GetField(db, key, field)) {
      assert GetField(once, key, field) == Some(value);
      if value == "" {
        assert once[key] + map[field := value] == once[key];
        assert SetFields(once, key, map[field := value]) == once;
      }
    }
  }

  const DefaultSounds: Hash := map[
    "notification" := "notification.wav",
    "chat-incoming" := "waterdrop-high.wav",
    "chat-outgoing" := "waterdrop-low.wav"]

  /** `sounds.getMapping`: the stored mapping, or the three defaults on error or when none is stored. */
  function GetSoundMapping(db: Db, failure: Option<string>): (mapping: Hash)
    ensures failure.Some? || GetObject(db, "settings:sounds").None? ==> mapping == DefaultSounds
    ensures failure.None? && GetObject(db, "settings:sounds").Some? ==>
      mapping == db["settings:sounds"]
  {
    if failure.Some? then DefaultSounds
    else match GetObject(db, "settings:sounds")
      case None => DefaultSounds
      case Some(sounds) => sounds
  }

  lemma DefaultSoundNames()
    ensures DefaultSounds.Keys == {"notification", "chat-incoming", "chat-outgoing"}
    ensures DefaultSounds["notification"] == "notification.wav"
    ensures GetSoundMapping(map[], None) == DefaultSounds
  {
  }

  /**
   * What a callback-style operation does with its callback: answers with
   * an optional error, never calls it (no callback given), or throws
   * because it calls a callback that was not given.
   */
  datatype Reply = Answered(error: Option<string>) | NoAnswer | Crashed

  /** The reply of calling `callback(err)` when a callback may be missing. */
  function Call(hasCallback: bool, error: Option<string>): Reply {
    if hasCallback then Answered(error) else Crashed
  }

  class MetaState {
    /** The database. */
    var db: Db
    /** `Meta.config`; `None` once `init` has deleted it. */
    var config: Option<Hash>
    /** `Meta.js.cache`. */
    var jsCache: Option<string>

    constructor (db: Db)
      ensures this.db == db && config == Some(map[]) && jsCache == None
    {
      this.db := db;
      config := Some(map[]);
      jsCache := None;
    }

    /** `configs.get(field)`: the stored field, absent when the config hash or the field is. */
    function ConfigGet(field: string): (r: Option<string>)
      reads this
      ensures r.Some? <==> ConfigKey in db && field in db[ConfigKey]
      ensures r.Some? ==> r.value == db[ConfigKey][field]
    {
      GetField(db, ConfigKey, field)
    }

    /** `configs.getFields(fields)`: one value per field, in order. */
    function ConfigGetFields(fields: seq<string>): (r: seq<Option<string>>)
      reads this
      ensures |r| == |fields|
      ensures forall i :: 0 <= i < |fields| ==>
        (r[i].Some? <==> ConfigKey in db && fields[i] in db[ConfigKey])
      ensures forall i :: 0 <= i < |fields| && r[i].Some? ==> r[i].value == db[ConfigKey][fields[i]]
    {
      var data := db;
      seq(|fields|, i requires 0 <= i < |fields| => GetField(data, ConfigKey, fields[i]))
    }

    /** `configs.list`: the error, or the stored config with `status` set. */
    function ConfigList(failure: Option<string>): (r: Option<Hash>)
      reads this
      ensures failure.Some? <==> r.None?
      ensures r.Some? ==> r.value == ListConfig(db) && r.value["status"] == "ok"
    {
      if failure.Some? then None else Some(ListConfig(db))
    }

    /** `configs.init`: drops the cached config, then caches the listed one. */
    method ConfigInit(failure: Option<string>) returns (reply: Reply)
      modifies this
      ensures db == old(db) && jsCache == old(jsCache)
      ensures failure.Some? ==> config.None? && reply == Answered(failure)
      ensures failure.None? ==> config == Some(ListConfig(db)) && reply == Answered(None)
    {
      config := None;
      var listed := ConfigList(failure);
      if listed.None? {
        return Answered(failure);
      }
      config := listed;
      reply := Answered(None);
    }

    /**
     * `configs.set`: refuses an empty field without writing; otherwise
     * writes the field and, only when a callback was given and the write
     * succeeded, updates the cached config if there is one.
     */
    method ConfigSet(field: string, value: string, hasCallback: bool, failure: Option<string>)
      returns (reply: Reply)
      modifies this
      ensures jsCache == old(jsCache)
      ensures field == "" ==>
        (db == old(db) && config == old(config) && reply == Call(hasCallback, Some(InvalidConfigField)))
      ensures field != "" ==>
        db == (if failure.None? then SetFields(old(db), ConfigKey, map[field := value]) else old(db))
      ensures field != "" ==>
        config == (if hasCallback && failure.None? && old(config).Some?
                   then Some(old(config).value[field := value]) else old(config))
      ensures field != "" ==> reply == (if hasCallback then Answered(failure) else NoAnswer)
    {
      if field == "" {
        return Call(hasCallback, Some(InvalidConfigField));
      }
      if failure.None? {
        db := SetFields(db, ConfigKey, map[field := value]);
      }
      reply := NoAnswer;
      if hasCallback {
        if failure.None? && config.Some? {
          config := Some(config.value[field := value]);
        }
        reply := Answered(failure);
      }
    }

    /** `configs.setOnEmpty`: sets the field only when its current value is falsy. */
    method ConfigSetOnEmpty(field: string, value: string, hasCallback: bool,
                            readFailure: Option<string>, writeFailure: Option<string>)
      returns (reply: Reply)
      modifies this
      ensures jsCache == old(jsCache)
      ensures readFailure.Some? ==>
        (db == old(db) && config == old(config) && reply == Call(hasCallback, readFailure))
      ensures readFailure.None? && !Falsy(old(ConfigGet(field))) ==>
        db == old(db) && config == old(config) && reply == Call(hasCallback, None)
      ensures readFailure.None? && writeFailure.None? && field != "" ==>
        db == SetOnEmptyDb(old(db), ConfigKey, field, value)
      ensures writeFailure.Some? ==> db == old(db)
      ensures readFailure.None? && Falsy(old(ConfigGet(field))) && field != "" ==>
        reply == (if hasCallback then Answered(writeFailure) else NoAnswer)
      ensures readFailure.None? && Falsy(old(ConfigGet(field))) && field != "" ==>
        config == (if hasCallback && writeFailure.None? && old(config).Some?
                   then Some(old(config).value[field := value]) else old(config))
      ensures readFailure.None? && Falsy(old(ConfigGet(field))) && field == "" ==>
        db == old(db) && config == old(config) && reply == Call(hasCallback, Some(InvalidConfigField))
    {
      if readFailure.Some? {
        return Call(hasCallback, readFailure);
      }
      var curValue := ConfigGet(field);
      if Falsy(curValue) {
        reply := ConfigSet(field, value, hasCallback, writeFailure);
      } else {
        reply := Call(hasCallback, None);
      }
    }

    /** `configs.remove`. */
    method ConfigRemove(field: string)
      modifies this
      ensures db == DeleteField(old(db), ConfigKey, field)
      ensures config == old(config) && jsCache == old(jsCache)
    {
      db := DeleteField(db, ConfigKey, field);
    }

    /** `settings.get(hash)`: the object under `settings:<hash>`, absent when it is missing or empty. */
    function SettingsGet(hash: string): (r: Option<Hash>)
      reads this
      ensures r.Some? <==> SettingsKey(hash) in db && db[SettingsKey(hash)] != map[]
      ensures r.Some? ==> r.value == db[SettingsKey(hash)]
    {
      GetObject(db, SettingsKey(hash))
    }

    /** `settings.getOne(hash, field)`: one field of `settings:<hash>`. */
    function SettingsGetOne(hash: string, field: string): (r: Option<string>)
      reads this
      ensures r.Some? <==> SettingsKey(hash) in db && field in db[SettingsKey(hash)]
      ensures r.Some? ==> r.value == db[SettingsKey(hash)][field]
    {
      GetField(db, SettingsKey(hash), field)
    }

    /** `settings.set(hash, values)`: merges the values into `settings:<hash>`. */
    method SettingsSet(hash: string, values: Hash, failure: Option<string>) returns (error: Option<string>)
      modifies this
      ensures error == failure
      ensures db == (if failure.None? then SetFields(old(db), SettingsKey(hash), values) else old(db))
      ensures config == old(config) && jsCache == old(jsCache)
    {
      if failure.None? {
        db := SetFields(db, SettingsKey(hash), values);
      }
      error := failure;
    }

    /** `settings.setOne(hash, field, value)`. */
    method SettingsSetOne(hash: string, field: string, value: string, failure: Option<string>)
      returns (error: Option<string>)
      modifies this
      ensures error == failure
      ensures db == (if failure.None? then SetFields(old(db), SettingsKey(hash), map[field := value]) else old(db))
      ensures config == old(config) && jsCache == old(jsCache)
    {
      error := SettingsSet(hash, map[field := value], failure);
    }

    /**
     * `settings.setOnEmpty`: sets the field only when its current value is
     * falsy; the write then answers the callback, if one was given.
     */
    method SettingsSetOnEmpty(hash: string, field: string, value: string, hasCallback: bool,
                              readFailure: Option<string>, writeFailure: Option<string>)
      returns (reply: Reply)
      modifies this
      ensures config == old(config) && jsCache == old(jsCache)
      ensures readFailure.Some? ==> db == old(db) && reply == Call(hasCallback, readFailure)
      ensures readFailure.None? && !Falsy(old(SettingsGetOne(hash, field))) ==>
        db == old(db) && reply == Call(hasCallback, None)
      ensures readFailure.None? && writeFailure.None? ==> db == SetOnEmptyDb(old(db), SettingsKey(hash), field, value)
      ensures writeFailure.Some? ==> db == old(db)
      ensures readFailure.None? && Falsy(old(SettingsGetOne(hash, field))) ==>
        reply == (if hasCallback then Answered(writeFailure) else NoAnswer)
    {
      if readFailure.Some? {
        return Call(hasCallback, readFailure);
      }
      var curValue := SettingsGetOne(hash, field);
      if Falsy(curValue) {
        var error := SettingsSetOne(hash, field, value, writeFailure);
        reply := if hasCallback then Answered(error) else NoAnswer;
      } else {
        reply := Call(hasCallback, None);
      }
    }

    /** `js.concatenate` once the sources are read: caches their concatenation. */
    method ConcatenateScripts(contents: seq<string>)
      modifies this
      ensures jsCache == Some(MetaJs.Concatenate(contents))
      ensures db == old(db) && config == old(config)
    {
      jsCache := Some(MetaJs.Concatenate(contents));
    }
  }
}
