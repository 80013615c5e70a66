/**
 * JavaScript values as the browser code sees them after `JSON.parse`, with
 * JavaScript truthiness. `undefined` is not a value here: a missing field
 * or element is `None` where it matters.
 */
module Json {
  import opened Wrappers
  import opened Strs

  datatype Value =
    | Null
    | Bool(b: bool)
    | Num(n: int)
    | Str(s: string)
    | Arr(items: seq<Value>)
    | Obj(fields: map<string, Value>)

  /**
   * The names every plain object inherits from `Object.prototype`. Looking
   * one of them up in an object literal that has no own member of that
   * name gives a built-in function, or `Object.prototype` itself for
   * "__proto__": a truthy value with none of the object's own fields.
   */
  const InheritedNames: set<string> := {
    "constructor", "__proto__", "hasOwnProperty", "isPrototypeOf", "propertyIsEnumerable",
    "toString", "toLocaleString", "valueOf",
    "__defineGetter__", "__defineSetter__", "__lookupGetter__", "__lookupSetter__"
  }

  /** JavaScript truthiness: null, false, 0 and "" are falsy; arrays and objects never are. */
  predicate Truthy(v: Value) {
    match v
    case Null => false
    case Bool(b) => b
    case Num(n) => n != 0
    case Str(s) => s != ""
    case Arr(_) => true
    case Obj(_) => true
  }

  /** `v || fallback`. */
  function Or(v: Value, fallback: Value): (r: Value)
    ensures Truthy(v) ==> r == v
    ensures !Truthy(v) ==> r == fallback
  {
    if Truthy(v) then v else fallback
  }

  /** A canonical array index: decimal digits without a leading zero. */
  predicate IndexName(name: string) {
    name != "" && AllDigits(name) && (name == "0" || name[0] != '0')
  }

  /**
   * `obj[name]`: a field of an object, an element of an array by its
   * decimal index. A string's characters and the `length` of a string or
   * an array read as undefined here; no configured field path uses them.
   */
  function Member(v: Value, name: string): (r: Option<Value>)
    ensures v.Obj? ==> (r.Some? <==> name in v.fields)
    ensures v.Arr? && r.Some? ==> r.value in v.items
    ensures !v.Obj? && !v.Arr? ==> r.None?
  {
    match v
    case Obj(fields) => if name in fields then Some(fields[name]) else None
    case Arr(items) =>
      if IndexName(name) && DigitsValue(name) < |items| then Some(items[DigitsValue(name)]) else None
    case _ => None
  }

  /** One character inside a `JSON.stringify` string literal. */
  function QuoteChar(c: char): string {
    if c == '"' then "\\\""
    else if c == '\\' then "\\\\"
    else if c == '\n' then "\\n"
    else if c == '\r' then "\\r"
    else if c == '\t' then "\\t"
    else if c as int == 8 then "\\b"
    else if c as int == 12 then "\\f"
    else if (c as int) < 0x20 then "\\u00" + [LowerHex((c as int) / 16), LowerHex((c as int) % 16)]
    else [c]
  }

  function LowerHex(k: nat): char
    requires k < 16
  {
    if k < 10 then ('0' as int + k) as char else ('a' as int + k - 10) as char
  }

  /** Characters `JSON.stringify` writes as they are. */
  predicate PlainChar(c: char) {
    c != '"' && c != '\\' && (c as int) >= 0x20
  }

  function QuoteBody(s: string): string {
    if s == [] then "" else QuoteChar(s[0]) + QuoteBody(s[1..])
  }

  /** `JSON.stringify` of a string. */
  function Quote(s: string): (q: string)
    ensures |q| >= 2 && q[0] == '"' && q[|q| - 1] == '"'
  {
    "\"" + QuoteBody(s) + "\""
  }

  /** A string without quotes, backslashes or control characters is written between quotes as it is. */
  lemma {:induction false} QuotePlain(s: string)
    requires forall i | 0 <= i < |s| :: PlainChar(s[i])
    ensures Quote(s) == "\"" + s + "\""
    ensures QuoteBody(s) == s
  {
    if s != [] {
      QuotePlain(s[1..]);
      assert s == [s[0]] + s[1..];
    }
  }

  function QuoteAll(ss: seq<string>): (qs: seq<string>)
    ensures |qs| == |ss|
  {
    if ss == [] then [] else [Quote(ss[0])] + QuoteAll(ss[1..])
  }

  /** `JSON.stringify` of an array of strings. */
  function StringArray(ss: seq<string>): (a: string)
    ensures |a| >= 2 && a[0] == '[' && a[|a| - 1] == ']'
  {
    "[" + Join(QuoteAll(ss), ",") + "]"
  }

  /** A one-element array is the quoted element between brackets. */
  lemma SingletonArray(s: string)
    ensures StringArray([s]) == "[" + Quote(s) + "]"
  {
    assert QuoteAll([s]) == [Quote(s)];
  }
}
