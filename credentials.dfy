/**
 * The access-key records kept by the two browser credential stores
 * (store.js `KeyManager` and auth.js `AccessKeyStore`), the uniqueness of
 * their `accessKeyId`, and the rule that moves the current-key index when
 * a key is deleted.
 */
module Credentials {
  import opened Wrappers

  /** One stored key; the time stamps are set only by `KeyManager`. */
  datatype AccessKey = AccessKey(
    name: string,
    accessKeyId: string,
    accessKeySecret: string,
    createdAt: Option<int>,
    updatedAt: Option<int>)

  /** No two keys share an `accessKeyId`. */
  predicate Unique(keys: seq<AccessKey>) {
    forall i, j | 0 <= i < j < |keys| :: keys[i].accessKeyId != keys[j].accessKeyId
  }

  /** `keys.some(k => k.accessKeyId === id)`. */
  predicate HasId(keys: seq<AccessKey>, id: string) {
    exists i | 0 <= i < |keys| :: keys[i].accessKeyId == id
  }

  /** Another key than the one at `index` already carries `id`. */
  predicate UsedElsewhere(keys: seq<AccessKey>, index: int, id: string) {
    exists i | 0 <= i < |keys| :: i != index && keys[i].accessKeyId == id
  }

  /** `keys.splice(index, 1)`. */
  function RemoveAt(keys: seq<AccessKey>, index: nat): (r: seq<AccessKey>)
    requires index < |keys|
    ensures |r| == |keys| - 1
    ensures forall i | 0 <= i < index :: r[i] == keys[i]
    ensures forall i | index <= i < |r| :: r[i] == keys[i + 1]
  {
    keys[..index] + keys[index + 1..]
  }

  /** Appending a key whose id is not yet present keeps the ids unique. */
  lemma AppendKeepsUnique(keys: seq<AccessKey>, key: AccessKey)
    requires Unique(keys) && !HasId(keys, key.accessKeyId)
    ensures Unique(keys + [key])
  {
    var r := keys + [key];
    forall i, j | 0 <= i < j < |r| ensures r[i].accessKeyId != r[j].accessKeyId {
      if j == |keys| {
        assert r[i] == keys[i];
      }
    }
  }

  /** Replacing a key by one whose id no other key carries keeps the ids unique. */
  lemma ReplaceKeepsUnique(keys: seq<AccessKey>, index: nat, key: AccessKey)
    requires index < |keys| && Unique(keys) && !UsedElsewhere(keys, index, key.accessKeyId)
    ensures Unique(keys[index := key])
  {
    var r := keys[index := key];
    forall i, j | 0 <= i < j < |r| ensures r[i].accessKeyId != r[j].accessKeyId {
      if i == index {
        assert keys[j].accessKeyId == r[j].accessKeyId;
      } else if j == index {
        assert keys[i].accessKeyId == r[i].accessKeyId;
      }
    }
  }

  /** Removing a key keeps the ids unique. */
  lemma RemoveKeepsUnique(keys: seq<AccessKey>, index: nat)
    requires index < |keys| && Unique(keys)
    ensures Unique(RemoveAt(keys, index))
  {
    var r := RemoveAt(keys, index);
    forall i, j | 0 <= i < j < |r| ensures r[i].accessKeyId != r[j].accessKeyId {
      var i' := if i < index then i else i + 1;
      var j' := if j < index then j else j + 1;
      assert r[i] == keys[i'] && r[j] == keys[j'];
    }
  }

  /**
   * The current index after deleting the key at `index` from a list that
   * now holds `newLen` keys: the deleted current key gives way to the
   * first key (or to none), and a current key behind the deleted one
   * moves down with it.
   */
  function ShiftAfterDelete(current: Option<int>, index: nat, newLen: nat): (r: Option<int>)
    ensures current.None? ==> r.None?
    ensures current.Some? && 0 <= current.value <= newLen && index <= newLen ==>
              (r.Some? <==> newLen > 0) && (r.Some? ==> 0 <= r.value < newLen)
  {
    if current == Some(index) then (if newLen > 0 then Some(0) else None)
    else if current.Some? && current.value > index then Some(current.value - 1)
    else current
  }

  /** The current index is absent exactly when there are no keys, and otherwise points at one. */
  predicate CurrentValid(current: Option<int>, count: nat) {
    (current.Some? <==> count > 0) && (current.Some? ==> 0 <= current.value < count)
  }

  /** Deleting another key than the current one leaves the same key current. */
  lemma ShiftKeepsCurrentKey(keys: seq<AccessKey>, index: nat, c: nat)
    requires index < |keys| && c < |keys| && c != index
    ensures ShiftAfterDelete(Some(c), index, |keys| - 1).Some?
    ensures var s := ShiftAfterDelete(Some(c), index, |keys| - 1).value;
            0 <= s < |keys| - 1 && RemoveAt(keys, index)[s] == keys[c]
  {
  }

  /** The shift keeps a valid current index valid. */
  lemma ShiftKeepsValid(current: Option<int>, index: nat, count: nat)
    requires index < count && CurrentValid(current, count)
    ensures CurrentValid(ShiftAfterDelete(current, index, count - 1), count - 1)
  {
  }
}
