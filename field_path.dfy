/**
 * The field paths of the table and detail configurations
 * (sites/aliyun/static/js/core/data-table-factory.js and
 * resource-manage-factory.js): "VpcAttributes.PrivateIpAddress.IpAddress[0]"
 * is rewritten to dotted form, split on '.', and walked key by key with
 * optional chaining (`value?.[key]`), where `undefined` is `None`.
 */
module FieldPath {
  import opened Wrappers
  import opened Strs
  import opened Json

  /** The digits of a `[digits]` group at the front of `t` (just after its '['), if it closes with ']'. */
  function IndexGroup(t: string): (d: Option<string>)
    ensures d.Some? ==> d.value != "" && AllDigits(d.value) && |d.value| < |t| && t[|d.value|] == ']'
                        && t[..|d.value|] == d.value
  {
    var d := DigitPrefix(t);
    if d != "" && |d| < |t| && t[|d|] == ']' then Some(d) else None
  }

  /** `replace(/\[(\d+)\]/g, '.$1')`: each `[digits]` becomes `.digits`, scanning left to right. */
  function RewriteIndexes(s: string): (r: string)
    ensures '[' !in s ==> r == s
    decreases |s|
  {
    if s == [] then []
    else if s[0] == '[' && IndexGroup(s[1..]).Some? then
      var d := IndexGroup(s[1..]).value;
      "." + d + RewriteIndexes(s[|d| + 2..])
    else [s[0]] + RewriteIndexes(s[1..])
  }

  /** Text without '[' passes through unchanged in front of what follows. */
  lemma {:induction false} RewritePlainPrefix(prefix: string, rest: string)
    requires '[' !in prefix
    ensures RewriteIndexes(prefix + rest) == prefix + RewriteIndexes(rest)
    decreases |prefix|
  {
    if prefix != [] {
      var s := prefix + rest;
      assert s[0] == prefix[0] && prefix[0] != '[';
      assert s[1..] == prefix[1..] + rest;
      assert RewriteIndexes(s) == [prefix[0]] + RewriteIndexes(prefix[1..] + rest);
      RewritePlainPrefix(prefix[1..], rest);
      var t := RewriteIndexes(rest);
      assert [prefix[0]] + (prefix[1..] + t) == ([prefix[0]] + prefix[1..]) + t;
      assert prefix == [prefix[0]] + prefix[1..];
    } else {
      assert prefix + rest == rest;
    }
  }

  /** A leading `[digits]` becomes `.digits`. */
  lemma IndexGroupRewrite(digits: string, rest: string)
    requires digits != "" && AllDigits(digits)
    ensures RewriteIndexes("[" + digits + "]" + rest) == "." + digits + RewriteIndexes(rest)
  {
    var s := "[" + digits + "]" + rest;
    assert s[1..] == digits + ("]" + rest);
    DigitPrefixStops(digits, "]" + rest);
    assert IndexGroup(s[1..]) == Some(digits);
    assert s[|digits| + 2..] == rest;
  }

  /** An index `[n]` after a plain name becomes `.n`, and the rest is rewritten on its own. */
  lemma IndexBecomesKey(name: string, n: nat, rest: string)
    requires '[' !in name
    ensures RewriteIndexes(name + "[" + NatToString(n) + "]" + rest) == name + "." + NatToString(n) + RewriteIndexes(rest)
  {
    var digits := NatToString(n);
    var tail := "[" + digits + "]" + rest;
    assert name + "[" + digits + "]" + rest == name + tail;
    RewritePlainPrefix(name, tail);
    IndexGroupRewrite(digits, rest);
  }

  /** The keys of a field path. */
  function Keys(path: string): (keys: seq<string>)
    ensures |keys| >= 1
  {
    Split(RewriteIndexes(path), '.')
  }

  /** `value?.[key]`: undefined and null stop the chain, anything else is looked into. */
  function Step(v: Option<Value>, key: string): (r: Option<Value>)
    ensures v.None? || v == Some(Null) ==> r.None?
    ensures v.Some? && v.value.Obj? ==> (r.Some? <==> key in v.value.fields)
  {
    match v
    case None => None
    case Some(x) => Member(x, key)
  }

  /** A missing value (undefined) or null. */
  predicate Absent(v: Option<Value>) {
    v.None? || v == Some(Null)
  }

  /** The walk of the data path: every key applied, without stopping. */
  function Follow(v: Option<Value>, keys: seq<string>): (r: Option<Value>)
    ensures Absent(v) && keys != [] ==> r.None?
    decreases |keys|
  {
    if keys == [] then v else Follow(Step(v, keys[0]), keys[1..])
  }

  /** The walk of a column or detail path: stops at the first undefined or null. */
  function Lookup(v: Option<Value>, keys: seq<string>): (r: Option<Value>)
    ensures keys == [] ==> r == v
    ensures Absent(v) && keys != [] ==> r.None?
    decreases |keys|
  {
    if keys == [] then v
    else
      var next := Step(v, keys[0]);
      if Absent(next) then next else Lookup(next, keys[1..])
  }

  /** Stopping early changes nothing but null for undefined: both walks find the same value when there is one. */
  lemma {:induction false} StopsLikeFollow(v: Option<Value>, keys: seq<string>)
    ensures Absent(Lookup(v, keys)) <==> Absent(Follow(v, keys))
    ensures !Absent(Lookup(v, keys)) ==> Lookup(v, keys) == Follow(v, keys)
    decreases |keys|
  {
    if keys != [] {
      var next := Step(v, keys[0]);
      if !Absent(next) {
        StopsLikeFollow(next, keys[1..]);
      }
    }
  }

  /** The walk in `getColumnValue` and `getFieldValue`: a loop that breaks at undefined or null. */
  method Walk(start: Option<Value>, keys: seq<string>) returns (value: Option<Value>)
    ensures value == Lookup(start, keys)
  {
    value := start;
    var k := 0;
    while k < |keys|
      invariant 0 <= k <= |keys|
      invariant k == 0 ==> value == start
      invariant k > 0 ==> !Absent(value)
      invariant Lookup(start, keys) == Lookup(value, keys[k..])
    {
      value := Step(value, keys[k]);
      if Absent(value) {
        break;
      }
      k := k + 1;
    }
  }

  /** An undefined, null or '' value: the cell falls back to its default. */
  predicate Blank(v: Option<Value>) {
    Absent(v) || v == Some(Str(""))
  }

  /** `field.defaultValue || '-'`. */
  function DefaultText(defaultValue: Option<string>): (t: string)
    ensures t != ""
    ensures defaultValue.Some? && defaultValue.value != "" ==> t == defaultValue.value
    ensures defaultValue.None? ==> t == "-"
  {
    if defaultValue.Some? && defaultValue.value != "" then defaultValue.value else "-"
  }

  /** `String(value)` for the values a cell can show. */
  function Display(v: Value): (r: string)
    ensures r == "" ==> v == Str("") || v.Arr?
    decreases v
  {
    match v
    case Null => "null"
    case Bool(b) => if b then "true" else "false"
    case Num(n) => IntToString(n)
    case Str(s) => s
    case Arr(items) => Join(seq(|items|, i requires 0 <= i < |items| => if items[i] == Null then "" else Display(items[i])), ",")
    case Obj(_) => "[object Object]"
  }
}
