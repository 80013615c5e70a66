/**
 * The browser state layer of the Aliyun dashboard (sites/aliyun/static/js/store.js):
 * `StorageManager`, which wraps every value it writes to localStorage with
 * the time it was written and an optional lifetime, and migrates entries
 * written in an older format when it reads them; `CacheManager`, a
 * namespace of the same storage for API responses; and `KeyManager`, the
 * list of access keys with the index of the current one.
 *
 * localStorage is the map `local` from entry names to what each entry
 * holds; the clock is the parameter `now` (milliseconds).
 */
module Store {
  import opened Wrappers
  import opened Strs
  import opened Json
  import opened Credentials

  /** One localStorage entry, as `get` tells the formats apart. */
  datatype Item =
    | Wrapped(value: Value, timestamp: int, expiresIn: Option<int>)  // `{value, timestamp, expiresIn}`
    | Legacy(data: Value)                                             // any other JSON text
    | Raw(text: string)                                               // text `JSON.parse` rejects

  /** A wrapped entry has expired when its lifetime is truthy and its age exceeds it. */
  predicate Expired(item: Item, now: int)
    requires item.Wrapped?
  {
    item.expiresIn.Some? && item.expiresIn.value != 0 && now - item.timestamp > item.expiresIn.value
  }

  /** `get` on one entry: the value it returns and what the entry holds afterwards. */
  function Read(stored: Option<Item>, now: int): (r: (Value, Option<Item>))
    ensures stored.None? ==> r == (Null, None)
    ensures r.1.None? ==> r.0 == Null
    ensures r.1.Some? ==> r.1.value.Wrapped? || r.1 == Some(Raw(""))
    ensures r.1.Some? && r.1.value.Wrapped? ==> r.0 == r.1.value.value && !Expired(r.1.value, now)
    ensures stored.Some? && stored.value.Legacy? ==> r == (stored.value.data, Some(Wrapped(stored.value.data, now, None)))
    ensures stored.Some? && stored.value.Raw? && stored.value.text != "" ==>
              r == (Str(stored.value.text), Some(Wrapped(Str(stored.value.text), now, None)))
  {
    match stored
    case None => (Null, None)
    case Some(Raw(text)) =>
      if text == "" then (Null, stored) else (Str(text), Some(Wrapped(Str(text), now, None)))
    case Some(Legacy(data)) => (data, Some(Wrapped(data, now, None)))
    case Some(Wrapped(value, _, _)) => if Expired(stored.value, now) then (Null, None) else (value, stored)
  }

  /** The entry `name` of `local`, if there is one. */
  function At(local: map<string, Item>, name: string): Option<Item> {
    if name in local then Some(local[name]) else None
  }

  /** `local` with the entry `name` set to `entry`, or removed. */
  function Put(local: map<string, Item>, name: string, entry: Option<Item>): (r: map<string, Item>)
    ensures At(r, name) == entry
    ensures forall n | n != name :: At(r, n) == At(local, n)
  {
    match entry
    case Some(item) => local[name := item]
    case None => local - {name}
  }

  /** `local` without the entries whose names start with `p`. */
  function Without(local: map<string, Item>, p: string): (r: map<string, Item>)
    ensures forall n :: n in r <==> n in local && !StartsWith(n, p)
    ensures forall n | n in r :: r[n] == local[n]
  {
    map n | n in local && !StartsWith(n, p) :: local[n]
  }

  /** A value written with a lifetime is read back unchanged up to and including the instant its lifetime ends. */
  lemma FreshUntilLifetimeEnds(value: Value, written: int, lifetime: int, now: int)
    requires now - written <= lifetime
    ensures Read(Some(Wrapped(value, written, Some(lifetime))), now) == (value, Some(Wrapped(value, written, Some(lifetime))))
  {
  }

  /** One millisecond later it is gone, and the entry with it (a zero lifetime never expires). */
  lemma GoneAfterLifetime(value: Value, written: int, lifetime: int, now: int)
    requires lifetime != 0 && now - written > lifetime
    ensures Read(Some(Wrapped(value, written, Some(lifetime))), now) == (Null, None)
  {
  }

  /** A value written without a lifetime is read back at any later time. */
  lemma NoLifetimeNeverExpires(value: Value, written: int, now: int)
    ensures Read(Some(Wrapped(value, written, None)), now).0 == value
  {
  }

  /** Reading an entry a second time, at the same time or later, returns what the first read returned, for as long as it has not expired. */
  lemma ReadAgain(stored: Option<Item>, t: int, later: int)
    requires t <= later
    requires var e := Read(stored, t).1; e.Some? && e.value.Wrapped? ==> !Expired(e.value, later)
    ensures Read(Read(stored, t).1, later) == Read(stored, t)
  {
  }

  /** A migrated entry keeps the value it had in the old format and never expires. */
  lemma MigrationKeepsValue(stored: Item, t: int, later: int)
    requires stored.Legacy? || (stored.Raw? && stored.text != "")
    ensures Read(Read(Some(stored), t).1, later).0 == Read(Some(stored), t).0
    ensures Read(Some(stored), t).0 == (if stored.Legacy? then stored.data else Str(stored.text))
  {
  }

  /** `StorageManager`: localStorage under a name prefix. */
  class StorageManager {
    const prefix: string
    var local: map<string, Item>

    constructor (prefix: string, local: map<string, Item>)
      ensures this.prefix == prefix && this.local == local
    {
      this.prefix := prefix;
      this.local := local;
    }

    /** `set`: writes the value wrapped with the current time and lifetime; quota errors are not modelled. */
    method Set(key: string, value: Value, expiresIn: Option<int>, now: int) returns (ok: bool)
      modifies this
      ensures ok
      ensures local == old(local)[prefix + key := Wrapped(value, now, expiresIn)]
    {
      local := local[prefix + key := Wrapped(value, now, expiresIn)];
      ok := true;
    }

    /** `get`: the stored value, removing it if expired and rewriting it if it is in an old format. */
    method Get(key: string, now: int) returns (v: Value)
      modifies this
      ensures v == Read(At(old(local), prefix + key), now).0
      ensures local == Put(old(local), prefix + key, Read(At(old(local), prefix + key), now).1)
    {
      var name := prefix + key;
      if name !in local {
        return Null;
      }
      match local[name]
      case Raw(text) =>
        if text == "" {
          return Null;
        }
        var _ := Set(key, Str(text), None, now);
        v := Str(text);
      case Legacy(data) =>
        var _ := Set(key, data, None, now);
        v := data;
      case Wrapped(value, timestamp, expiresIn) =>
        if expiresIn.Some? && expiresIn.value != 0 {
          var age := now - timestamp;
          if age > expiresIn.value {
            var _ := Remove(key);
            return Null;
          }
        }
        v := value;
    }

    /** `remove`. */
    method Remove(key: string) returns (ok: bool)
      modifies this
      ensures ok
      ensures local == old(local) - {prefix + key}
    {
      local := local - {prefix + key};
      ok := true;
    }

    /** `keys()`: the names under the prefix, without it. */
    function Keys(): (ks: set<string>)
      reads this
      ensures forall k :: k in ks <==> prefix + k in local
    {
      var ks := set n | n in local && StartsWith(n, prefix) :: n[|prefix|..];
      assert forall k | prefix + k in local :: (prefix + k)[|prefix|..] == k && StartsWith(prefix + k, prefix);
      assert forall n | n in local && StartsWith(n, prefix) :: prefix + n[|prefix|..] == n;
      ks
    }

    /** `clear()`: removes exactly the entries under the prefix. */
    method Clear() returns (ok: bool)
      modifies this
      ensures ok
      ensures local == Without(old(local), prefix)
      ensures Keys() == {}
    {
      var names := local.Keys;
      while names != {}
        invariant names <= old(local).Keys
        invariant forall n :: n in local <==> n in old(local) && (n in names || !StartsWith(n, prefix))
        invariant forall n | n in local :: local[n] == old(local)[n]
        decreases |names|
      {
        var n :| n in names;
        if StartsWith(n, prefix) {
          local := local - {n};
        }
        names := names - {n};
      }
      ok := true;
      assert forall k :: prefix + k !in local by {
        forall k ensures prefix + k !in local {
          assert StartsWith(prefix + k, prefix);
        }
      }
    }
  }

  /** The lifetime `CacheManager.set` gives an entry when the caller names none: 24 hours. */
  const DefaultTtl: int := 24 * 60 * 60 * 1000

  /** `CacheManager`: API responses under a namespace of the storage (by default "cache_"). */
  class CacheManager {
    const storage: StorageManager
    const namespace: string

    constructor (storage: StorageManager, namespace: string)
      ensures this.storage == storage && this.namespace == namespace
    {
      this.storage := storage;
      this.namespace := namespace;
    }

    /** `set`; the caller passes `Some(DefaultTtl)` where the source leaves the lifetime out. */
    method Set(key: string, value: Value, ttl: Option<int>, now: int) returns (ok: bool)
      modifies storage
      ensures ok
      ensures storage.local == old(storage.local)[storage.prefix + namespace + key := Wrapped(value, now, ttl)]
    {
      ok := storage.Set(namespace + key, value, ttl, now);
      assert storage.prefix + (namespace + key) == storage.prefix + namespace + key;
    }

    method Get(key: string, now: int) returns (v: Value)
      modifies storage
      ensures var name := storage.prefix + namespace + key;
              v == Read(At(old(storage.local), name), now).0
              && storage.local == Put(old(storage.local), name, Read(At(old(storage.local), name), now).1)
    {
      v := storage.Get(namespace + key, now);
      assert storage.prefix + (namespace + key) == storage.prefix + namespace + key;
    }

    method Remove(key: string) returns (ok: bool)
      modifies storage
      ensures ok
      ensures storage.local == old(storage.local) - {storage.prefix + namespace + key}
    {
      ok := storage.Remove(namespace + key);
      assert storage.prefix + (namespace + key) == storage.prefix + namespace + key;
    }

    /** `clear`: removes exactly the storage entries under the prefix followed by the namespace. */
    method Clear()
      modifies storage
      ensures storage.local == Without(old(storage.local), storage.prefix + namespace)
    {
      var p := storage.prefix;
      var todo := storage.Keys();
      ghost var all := todo;
      ghost var gone: set<string> := {};
      while todo != {}
        invariant todo <= all
        invariant forall k :: k in all <==> p + k in old(storage.local)
        invariant forall k :: k in gone <==> k in all && k !in todo && StartsWith(k, namespace)
        invariant storage.local == old(storage.local) - Under(p, gone)
        decreases |todo|
      {
        var k :| k in todo;
        if StartsWith(k, namespace) {
          var _ := storage.Remove(k);
          UnderOneMore(p, gone, k);
          gone := gone + {k};
        }
        todo := todo - {k};
      }
      ClearedNames(old(storage.local), p, namespace, gone);
    }

    /**
     * `getOrLoad`: a cached value other than null is returned without
     * calling the loader; otherwise the loader's value `loaded` is stored
     * with the lifetime `ttl` and returned.
     */
    method GetOrLoad(key: string, loaded: Value, ttl: Option<int>, now: int) returns (v: Value, loaderCalled: bool)
      modifies storage
      ensures var name := storage.prefix + namespace + key;
              var (cached, entry) := Read(At(old(storage.local), name), now);
              if cached != Null then
                v == cached && !loaderCalled && storage.local == Put(old(storage.local), name, entry)
              else
                v == loaded && loaderCalled && storage.local == Put(old(storage.local), name, entry)[name := Wrapped(loaded, now, ttl)]
    {
      var cached := Get(key, now);
      if cached != Null {
        return cached, false;
      }
      var _ := Set(key, loaded, ttl, now);
      return loaded, true;
    }
  }

  /** The names `p + k` for the keys `k` of `ks`. */
  function Under(p: string, ks: set<string>): (names: set<string>)
    ensures forall k | k in ks :: p + k in names
  {
    set k | k in ks :: p + k
  }

  lemma UnderOneMore(p: string, ks: set<string>, k: string)
    ensures Under(p, ks + {k}) == Under(p, ks) + {p + k}
  {
  }

  /** Removing the names of the keys under `q` removes exactly the names under `p + q`. */
  lemma ClearedNames(local: map<string, Item>, p: string, q: string, gone: set<string>)
    requires forall k :: k in gone <==> p + k in local && StartsWith(k, q)
    ensures local - Under(p, gone) == Without(local, p + q)
  {
    forall n | n in local
      ensures n in Under(p, gone) <==> StartsWith(n, p + q)
    {
      if StartsWith(n, p + q) {
        var k := n[|p|..];
        assert n == p + k;
        assert k[..|q|] == n[|p|..|p + q|];
        assert k in gone;
      }
      if n in Under(p, gone) {
        var k :| k in gone && n == p + k;
        PrefixedName(p, q, k);
      }
    }
  }

  /** Under `p`, a name that continues with `q` is exactly a name under `p + q`. */
  lemma PrefixedName(p: string, q: string, k: string)
    requires StartsWith(k, q)
    ensures StartsWith(p + k, p + q) && (p + k)[|p|..] == k
  {
    assert (p + k)[..|p + q|] == p + k[..|q|];
  }

  /** `KeyManager.addKey`'s record: an empty name becomes "未命名". */
  function NewKey(name: string, accessKeyId: string, accessKeySecret: string, now: int): (k: AccessKey)
    ensures k.accessKeyId == accessKeyId && k.accessKeySecret == accessKeySecret
    ensures k.name != "" && (name != "" ==> k.name == name)
    ensures k.createdAt == Some(now) && k.updatedAt.None?
  {
    AccessKey(if name != "" then name else "未命名", accessKeyId, accessKeySecret, Some(now), None)
  }

  /** The fields an update names; the others keep their value. */
  datatype KeyUpdate = KeyUpdate(name: Option<string>, accessKeyId: Option<string>, accessKeySecret: Option<string>)

  /** `{...key, ...update, updatedAt: now}`. */
  function Merge(key: AccessKey, update: KeyUpdate, now: int): (k: AccessKey)
    ensures k.name == update.name.GetOr(key.name)
    ensures k.accessKeyId == update.accessKeyId.GetOr(key.accessKeyId)
    ensures k.accessKeySecret == update.accessKeySecret.GetOr(key.accessKeySecret)
    ensures k.createdAt == key.createdAt && k.updatedAt == Some(now)
  {
    AccessKey(update.name.GetOr(key.name), update.accessKeyId.GetOr(key.accessKeyId),
              update.accessKeySecret.GetOr(key.accessKeySecret), key.createdAt, Some(now))
  }

  /**
   * `KeyManager`: the key list, the current key id and the default region,
   * each one storage entry. The entries are shown here as typed fields; a
   * `set` followed by a `get` gives the value back (`NoLifetimeNeverExpires`),
   * so reading them back is the identity.
   */
  class KeyManager {
    var keys: seq<AccessKey>
    var currentId: Option<int>
    var defaultRegion: Option<string>

    constructor (keys: seq<AccessKey>, currentId: Option<int>, defaultRegion: Option<string>)
      ensures this.keys == keys && this.currentId == currentId && this.defaultRegion == defaultRegion
    {
      this.keys := keys;
      this.currentId := currentId;
      this.defaultRegion := defaultRegion;
    }

    /** The state the operations keep: unique ids and a valid current index. */
    predicate Valid()
      reads this
    {
      Unique(keys) && CurrentValid(currentId, |keys|)
    }

    /** `addKey`: refuses a duplicate id; the first key becomes the current one. */
    method AddKey(name: string, accessKeyId: string, accessKeySecret: string, now: int) returns (r: Result<(), string>)
      modifies this
      ensures HasId(old(keys), accessKeyId) ==> r == Failure("该密钥已存在") && keys == old(keys) && currentId == old(currentId)
      ensures !HasId(old(keys), accessKeyId) ==>
                r.Success? && keys == old(keys) + [NewKey(name, accessKeyId, accessKeySecret, now)]
                && currentId == (if |keys| == 1 then Some(0) else old(currentId))
      ensures defaultRegion == old(defaultRegion)
      ensures old(Valid()) ==> Valid()
    {
      if HasId(keys, accessKeyId) {
        return Failure("该密钥已存在");
      }
      if Unique(keys) {
        AppendKeepsUnique(keys, NewKey(name, accessKeyId, accessKeySecret, now));
      }
      keys := keys + [NewKey(name, accessKeyId, accessKeySecret, now)];
      if |keys| == 1 {
        currentId := Some(0);
      }
      r := Success(());
    }

    /** `deleteKey`: out of range changes nothing; otherwise the current index follows `ShiftAfterDelete`. */
    method DeleteKey(index: int) returns (ok: bool)
      modifies this
      ensures ok <==> 0 <= index < |old(keys)|
      ensures !ok ==> keys == old(keys) && currentId == old(currentId)
      ensures ok ==> keys == RemoveAt(old(keys), index) && currentId == ShiftAfterDelete(old(currentId), index, |keys|)
      ensures defaultRegion == old(defaultRegion)
      ensures old(Valid()) ==> Valid()
      ensures ok && old(Valid()) && old(currentId) != Some(index) ==> keys[currentId.value] == old(keys[currentId.value])
    {
      if index < 0 || index >= |keys| {
        return false;
      }
      if Valid() {
        RemoveKeepsUnique(keys, index);
        ShiftKeepsValid(currentId, index, |keys|);
        if currentId.Some? && currentId.value != index {
          ShiftKeepsCurrentKey(keys, index, currentId.value);
        }
      }
      keys := RemoveAt(keys, index);
      currentId := ShiftAfterDelete(currentId, index, |keys|);
      ok := true;
    }

    /** `updateKey`: merges the named fields and stamps the time; no check that the new id is free. */
    method UpdateKey(index: int, update: KeyUpdate, now: int) returns (ok: bool)
      modifies this
      ensures ok <==> 0 <= index < |old(keys)|
      ensures ok ==> keys == old(keys)[index := Merge(old(keys)[index], update, now)]
      ensures !ok ==> keys == old(keys)
      ensures currentId == old(currentId) && defaultRegion == old(defaultRegion)
    {
      if index < 0 || index >= |keys| {
        return false;
      }
      keys := keys[index := Merge(keys[index], update, now)];
      ok := true;
    }

    /**
     * The update as evidently intended: refused, like auth.js does, when
     * another key already carries the new id, so the ids stay unique.
     */
    method UpdateKeyChecked(index: int, update: KeyUpdate, now: int) returns (ok: bool)
      modifies this
      ensures ok <==> (0 <= index < |old(keys)|
                      && !UsedElsewhere(old(keys), index, update.accessKeyId.GetOr(old(keys)[index].accessKeyId)))
      ensures ok ==> keys == old(keys)[index := Merge(old(keys)[index], update, now)]
      ensures !ok ==> keys == old(keys)
      ensures currentId == old(currentId) && defaultRegion == old(defaultRegion)
      ensures old(Valid()) ==> Valid()
    {
      if index < 0 || index >= |keys| {
        return false;
      }
      var merged := Merge(keys[index], update, now);
      if UsedElsewhere(keys, index, merged.accessKeyId) {
        return false;
      }
      if Unique(keys) {
        ReplaceKeepsUnique(keys, index, merged);
      }
      keys := keys[index := merged];
      ok := true;
    }

    /** `switchKey`: succeeds iff the index is in range. */
    method SwitchKey(index: int) returns (ok: bool)
      modifies this
      ensures ok <==> 0 <= index < |old(keys)|
      ensures currentId == (if ok then Some(index) else old(currentId))
      ensures keys == old(keys) && defaultRegion == old(defaultRegion)
      ensures old(Valid()) ==> Valid()
    {
      if index < 0 || index >= |keys| {
        return false;
      }
      currentId := Some(index);
      ok := true;
    }

    /** `getCurrentKey`: none when the id is null or points past the list. */
    function CurrentKey(): (k: Option<AccessKey>)
      reads this
      ensures k.Some? <==> currentId.Some? && 0 <= currentId.value < |keys|
      ensures k.Some? ==> k.value in keys && k.value == keys[currentId.value]
      ensures Valid() ==> (k.Some? <==> |keys| > 0)
    {
      match currentId
      case None => None
      case Some(id) => if 0 <= id < |keys| then Some(keys[id]) else None
    }

    /** `clearAll`: removes the keys and the current id; the default region stays. */
    method ClearAll()
      modifies this
      ensures keys == [] && currentId.None? && defaultRegion == old(defaultRegion)
      ensures Valid()
    {
      keys := [];
      currentId := None;
    }

    method SetDefaultRegion(region: string)
      modifies this
      ensures defaultRegion == Some(region) && keys == old(keys) && currentId == old(currentId)
    {
      defaultRegion := Some(region);
    }
  }

  /**
   * `updateKey` as written can give two keys the same id: updating the
   * second of two keys to the first one's id is accepted.
   */
  lemma UpdateKeyBreaksUnique()
    ensures var keys := [AccessKey("a", "ID1", "s1", Some(0), None), AccessKey("b", "ID2", "s2", Some(0), None)];
            var update := KeyUpdate(None, Some("ID1"), None);
            Unique(keys) && !Unique(keys[1 := Merge(keys[1], update, 5)])
  {
    var keys := [AccessKey("a", "ID1", "s1", Some(0), None), AccessKey("b", "ID2", "s2", Some(0), None)];
    var r := keys[1 := Merge(keys[1], KeyUpdate(None, Some("ID1"), None), 5)];
    assert r[0].accessKeyId == r[1].accessKeyId;
  }
}
