/**
 * `AccessKeyStore` of sites/aliyun/static/js/auth.js: the key list, the
 * current index and the default region, each kept directly in one
 * localStorage entry. The list is stored as JSON and read back whole; the
 * index is stored as its decimal text and read back with `parseInt`.
 */
module Auth {
  import opened Wrappers
  import opened Strs
  import opened Credentials

  const DefaultRegion: string := "cn-hangzhou"

  /**
   * The current index after a delete has left `newLen` keys: an index at
   * or past the end is pulled back to the last key (or 0); any other index,
   * and an unreadable one, stays as it is.
   */
  function ClampAfterDelete(current: Option<nat>, newLen: nat): (r: Option<nat>)
    ensures current.None? ==> r.None?
    ensures current.Some? && current.value < newLen ==> r == current
    ensures current.Some? && newLen > 0 ==> r.Some? && r.value < newLen
  {
    match current
    case None => None
    case Some(c) => if c >= newLen then Some(if newLen - 1 > 0 then newLen - 1 else 0) else current
  }

  /**
   * Deleting a key below the current one leaves the index where it was,
   * so a different key becomes current: with four keys A, B, C, D and C
   * current, deleting A makes D current.
   */
  lemma DeleteBelowCurrentSwitchesKey()
    ensures var a := AccessKey("A", "IDA", "sa", None, None);
            var b := AccessKey("B", "IDB", "sb", None, None);
            var c := AccessKey("C", "IDC", "sc", None, None);
            var d := AccessKey("D", "IDD", "sd", None, None);
            var keys := [a, b, c, d];
            var after := ClampAfterDelete(Some(2), 3);
            after == Some(2) && RemoveAt(keys, 0)[after.value] == d && keys[2] == c && c != d
  {
  }

  class AccessKeyStore {
    /** 'aliyun_access_keys', as read by `getKeys` (absent reads as []). */
    var keys: seq<AccessKey>
    /** 'aliyun_current_index', the text `setCurrentIndex` wrote. */
    var storedIndex: Option<string>
    /** 'aliyun_default_region'. */
    var storedRegion: Option<string>

    constructor (keys: seq<AccessKey>, storedIndex: Option<string>, storedRegion: Option<string>)
      ensures this.keys == keys && this.storedIndex == storedIndex && this.storedRegion == storedRegion
    {
      this.keys := keys;
      this.storedIndex := storedIndex;
      this.storedRegion := storedRegion;
    }

    /** `getCurrentIndex`: 0 when nothing is stored, else `parseInt` of the text (None for NaN). */
    function CurrentIndex(): (i: Option<nat>)
      reads this
      ensures storedIndex.None? ==> i == Some(0)
      ensures storedIndex.Some? ==> i == ParseInt(storedIndex.value)
    {
      match storedIndex
      case None => Some(0)
      case Some(text) => ParseInt(text)
    }

    /** `setCurrentIndex`: stores the decimal text, which `CurrentIndex` reads back. */
    method SetCurrentIndex(index: nat)
      modifies this
      ensures storedIndex == Some(NatToString(index)) && CurrentIndex() == Some(index)
      ensures keys == old(keys) && storedRegion == old(storedRegion)
    {
      storedIndex := Some(NatToString(index));
      ParseIntOfNatToString(index);
    }

    /** `getCurrentKey`: `keys[index] || null`. */
    function CurrentKey(): (k: Option<AccessKey>)
      reads this
      ensures k.Some? <==> CurrentIndex().Some? && CurrentIndex().value < |keys|
      ensures k.Some? ==> k.value == keys[CurrentIndex().value]
      ensures storedIndex.None? ==> (k.Some? <==> |keys| > 0)
    {
      match CurrentIndex()
      case None => None
      case Some(i) => if i < |keys| then Some(keys[i]) else None
    }

    /** `addKey`: refuses a duplicate id, else appends and returns the new key's index. */
    method AddKey(key: AccessKey) returns (r: Result<nat, string>)
      modifies this
      ensures HasId(old(keys), key.accessKeyId) ==>
                r == Failure("该 AccessKey ID 已存在") && keys == old(keys) && storedIndex == old(storedIndex)
      ensures !HasId(old(keys), key.accessKeyId) ==>
                keys == old(keys) + [key] && r == Success(|keys| - 1)
                && (if |keys| == 1 then CurrentIndex() == Some(0) else storedIndex == old(storedIndex))
      ensures storedRegion == old(storedRegion)
      ensures Unique(old(keys)) ==> Unique(keys)
    {
      if HasId(keys, key.accessKeyId) {
        return Failure("该 AccessKey ID 已存在");
      }
      if Unique(keys) {
        AppendKeepsUnique(keys, key);
      }
      keys := keys + [key];
      if |keys| == 1 {
        SetCurrentIndex(0);
      }
      r := Success(|keys| - 1);
    }

    /** `switchKey`: succeeds iff the index is in range, and then makes it current. */
    method SwitchKey(index: int) returns (ok: bool)
      modifies this
      ensures keys == old(keys) && storedRegion == old(storedRegion)
      ensures ok <==> 0 <= index < |keys|
      ensures ok ==> CurrentIndex() == Some(index) && CurrentKey() == Some(keys[index])
      ensures !ok ==> storedIndex == old(storedIndex)
    {
      if index >= 0 && index < |keys| {
        SetCurrentIndex(index);
        return true;
      }
      return false;
    }

    /** `deleteKey`: removes the key in range and clamps the index with `ClampAfterDelete`. */
    method DeleteKey(index: int) returns (ok: bool)
      modifies this
      ensures ok <==> 0 <= index < |old(keys)|
      ensures ok ==> keys == RemoveAt(old(keys), index) && CurrentIndex() == ClampAfterDelete(old(CurrentIndex()), |keys|)
      ensures !ok ==> keys == old(keys) && storedIndex == old(storedIndex)
      ensures storedRegion == old(storedRegion)
      ensures Unique(old(keys)) ==> Unique(keys)
    {
      if index >= 0 && index < |keys| {
        if Unique(keys) {
          RemoveKeepsUnique(keys, index);
        }
        keys := RemoveAt(keys, index);
        var currentIndex := CurrentIndex();
        if currentIndex.Some? && currentIndex.value >= |keys| {
          SetCurrentIndex(if |keys| - 1 > 0 then |keys| - 1 else 0);
        }
        return true;
      }
      return false;
    }

    /** `updateKey`: replaces the key wholesale unless another key carries its id. */
    method UpdateKey(index: int, key: AccessKey) returns (r: Result<(), string>)
      modifies this
      ensures !(0 <= index < |old(keys)|) ==> r == Failure("密钥不存在") && keys == old(keys)
      ensures 0 <= index < |old(keys)| && UsedElsewhere(old(keys), index, key.accessKeyId) ==>
                r == Failure("该 AccessKey ID 已被其他密钥使用") && keys == old(keys)
      ensures r.Success? <==> 0 <= index < |old(keys)| && !UsedElsewhere(old(keys), index, key.accessKeyId)
      ensures r.Success? ==> keys == old(keys)[index := key]
      ensures storedIndex == old(storedIndex) && storedRegion == old(storedRegion)
      ensures Unique(old(keys)) ==> Unique(keys)
    {
      if index >= 0 && index < |keys| {
        if UsedElsewhere(keys, index, key.accessKeyId) {
          return Failure("该 AccessKey ID 已被其他密钥使用");
        }
        if Unique(keys) {
          ReplaceKeepsUnique(keys, index, key);
        }
        keys := keys[index := key];
        return Success(());
      }
      return Failure("密钥不存在");
    }

    /** `getDefaultRegion`: the stored region, or "cn-hangzhou" when it is absent or empty. */
    function GetDefaultRegion(): (region: string)
      reads this
      ensures region != ""
      ensures storedRegion.Some? && storedRegion.value != "" ==> region == storedRegion.value
    {
      if storedRegion.Some? && storedRegion.value != "" then storedRegion.value else DefaultRegion
    }

    method SetDefaultRegion(region: string)
      modifies this
      ensures storedRegion == Some(region) && keys == old(keys) && storedIndex == old(storedIndex)
      ensures region != "" ==> GetDefaultRegion() == region
    {
      storedRegion := Some(region);
    }

    /** `isLoggedIn`: there is at least one key. */
    predicate IsLoggedIn()
      reads this
    {
      |keys| > 0
    }

    /** `clear`: removes all three entries. */
    method Clear()
      modifies this
      ensures keys == [] && storedIndex.None? && storedRegion.None?
      ensures !IsLoggedIn() && CurrentKey().None? && GetDefaultRegion() == DefaultRegion
    {
      keys := [];
      storedIndex := None;
      storedRegion := None;
    }
  }
}
