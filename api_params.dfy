/**
 * Request parameters of sites/aliyun/static/js/aliyun-api.js as
 * JavaScript objects of string values: names in insertion order, each at
 * most once. Assignment replaces a value in place or appends a new name;
 * a spread copies one object's entries onto another. The canonical query
 * of the signature lists the names in ascending order.
 */
module ApiParams {
  import opened Wrappers
  import opened Strs
  import Percent

  type Params = seq<(string, string)>

  /** `params[name]`. */
  function Get(p: Params, name: string): Option<string> {
    if p == [] then None
    else if p[0].0 == name then Some(p[0].1)
    else Get(p[1..], name)
  }

  /** Each name occurs once, as in an object. */
  predicate Distinct(p: Params) {
    p == [] || (Get(p[1..], p[0].0).None? && Distinct(p[1..]))
  }

  /** In an object of distinct names, each entry is what its name reads. */
  lemma {:induction false} GetAt(p: Params, i: nat)
    requires Distinct(p) && i < |p|
    ensures Get(p, p[i].0) == Some(p[i].1)
  {
    if i > 0 {
      GetAt(p[1..], i - 1);
      assert p[1..][i - 1] == p[i];
    }
  }

  /** A name no entry carries reads as absent. */
  lemma {:induction false} GetMissing(p: Params, name: string)
    requires forall i | 0 <= i < |p| :: p[i].0 != name
    ensures Get(p, name).None?
  {
    if p != [] {
      assert p[0].0 != name;
      assert forall i | 0 <= i < |p[1..]| :: p[1..][i] == p[i + 1];
      GetMissing(p[1..], name);
    }
  }

  /** Pairwise different names make an object. */
  lemma {:induction false} DistinctNames(p: Params)
    requires forall i, j | 0 <= i < j < |p| :: p[i].0 != p[j].0
    ensures Distinct(p)
  {
    if p != [] {
      assert forall i | 0 <= i < |p[1..]| :: p[1..][i] == p[i + 1];
      GetMissing(p[1..], p[0].0);
      DistinctNames(p[1..]);
    }
  }

  /** A name that reads as present is carried by some entry. */
  lemma {:induction false} GetFound(p: Params, name: string)
    requires Get(p, name).Some?
    ensures exists i | 0 <= i < |p| :: p[i].0 == name
  {
    if p[0].0 != name {
      GetFound(p[1..], name);
      var i :| 0 <= i < |p[1..]| && p[1..][i].0 == name;
      assert p[i + 1].0 == name;
    }
  }

  /** `Object.keys(params)`. */
  function Names(p: Params): (names: seq<string>)
    ensures |names| == |p|
    ensures forall x :: x in names <==> Get(p, x).Some?
  {
    if p == [] then [] else [p[0].0] + Names(p[1..])
  }

  /** `params[name] = value`: replaced where the name is, appended when it is new. */
  function Assign(p: Params, name: string, value: string): (r: Params)
    ensures Get(r, name) == Some(value)
    ensures forall other | other != name :: Get(r, other) == Get(p, other)
    ensures Distinct(p) ==> Distinct(r)
  {
    if p == [] then [(name, value)]
    else if p[0].0 == name then [(name, value)] + p[1..]
    else
      var rest := Assign(p[1..], name, value);
      assert ([p[0]] + rest)[1..] == rest;
      [p[0]] + rest
  }

  /** Property order: a new name goes last, a name already there keeps its place. */
  lemma {:induction false} AssignOrder(p: Params, name: string, value: string)
    ensures Get(p, name).None? ==> Assign(p, name, value) == p + [(name, value)]
    ensures Get(p, name).Some? ==> Names(Assign(p, name, value)) == Names(p)
  {
    if p != [] && p[0].0 != name {
      AssignOrder(p[1..], name, value);
      assert p == [p[0]] + p[1..];
    }
  }

  /** `{...p, ...q}`: the entries of `q`, in order, assigned onto `p`. */
  function Spread(p: Params, q: Params): (r: Params)
    requires Distinct(q)
    ensures forall name :: Get(r, name) == if Get(q, name).Some? then Get(q, name) else Get(p, name)
    ensures Distinct(p) ==> Distinct(r)
    decreases |q|
  {
    if q == [] then p
    else
      var r := Spread(Assign(p, q[0].0, q[0].1), q[1..]);
      assert forall name :: Get(q, name) == if name == q[0].0 then Some(q[0].1) else Get(q[1..], name);
      r
  }

  /** The object without the entry `name`. */
  function Remove(p: Params, name: string): (r: Params)
    ensures Get(r, name).None? || !Distinct(p)
    ensures forall other | other != name :: Get(r, other) == Get(p, other)
  {
    if p == [] then []
    else if p[0].0 == name then p[1..]
    else [p[0]] + Remove(p[1..], name)
  }

  /** Assigning a new name and removing it again gives back the object. */
  lemma {:induction false} RemoveAssigned(p: Params, name: string, value: string)
    requires Get(p, name).None?
    ensures Remove(Assign(p, name, value), name) == p
  {
    if p != [] {
      RemoveAssigned(p[1..], name, value);
      assert Assign(p, name, value) == [p[0]] + Assign(p[1..], name, value);
    }
  }

  /** Ascending code-point order without repetition. */
  predicate StrictlySorted(s: seq<string>) {
    forall i, j | 0 <= i < j < |s| :: Less(s[i], s[j])
  }

  function Insert(k: string, s: seq<string>): (r: seq<string>)
    requires StrictlySorted(s)
    ensures StrictlySorted(r)
    ensures forall x :: x in r <==> x in s || x == k
  {
    if s == [] then [k]
    else if Less(k, s[0]) then
      forall j | 0 < j < |s| ensures Less(k, s[j]) {
        LessTransitive(k, s[0], s[j]);
      }
      [k] + s
    else if k == s[0] then s
    else
      LessTotal(k, s[0]);
      var rest := Insert(k, s[1..]);
      var r := [s[0]] + rest;
      assert forall x | x in rest :: Less(s[0], x);
      assert forall j | 0 < j < |r| :: r[j] == rest[j - 1];
      r
  }

  /** `.sort()` of distinct names. */
  function SortStrings(names: seq<string>): (r: seq<string>)
    ensures StrictlySorted(r)
    ensures forall x :: x in r <==> x in names
  {
    if names == [] then [] else Insert(names[0], SortStrings(names[1..]))
  }

  /** Two ascending sequences without repetition that hold the same strings are the same sequence. */
  lemma {:induction false} SortedUnique(a: seq<string>, b: seq<string>)
    requires StrictlySorted(a) && StrictlySorted(b)
    requires forall x :: x in a <==> x in b
    ensures a == b
  {
    assert a != [] ==> a[0] in a;
    assert b != [] ==> b[0] in b;
    if a != [] && b != [] {
      assert a[0] in b && b[0] in a;
      LessAntisymmetric(a[0], b[0]);
      assert a[0] == b[0];
      LessIrreflexive(a[0]);
      assert a == [a[0]] + a[1..] && b == [b[0]] + b[1..];
      forall x ensures x in a[1..] <==> x in b[1..] {
        if x in a[1..] {
          var j :| 0 <= j < |a[1..]| && a[1..][j] == x;
          assert Less(a[0], a[j + 1]) && a[j + 1] in a && x in b;
          var k :| 0 <= k < |b| && b[k] == x;
          assert k != 0 && b[1..][k - 1] == x;
        }
        if x in b[1..] {
          var j :| 0 <= j < |b[1..]| && b[1..][j] == x;
          assert Less(b[0], b[j + 1]) && b[j + 1] in b && x in a;
          var k :| 0 <= k < |a| && a[k] == x;
          assert k != 0 && a[1..][k - 1] == x;
        }
      }
      SortedUnique(a[1..], b[1..]);
      assert a == [a[0]] + a[1..] && b == [b[0]] + b[1..];
    }
  }

  /** Neither of two strings is below the other and above it at once. */
  lemma LessAntisymmetric(a: string, b: string)
    ensures !(Less(a, b) && Less(b, a))
  {
    if Less(a, b) {
      LessAsymmetric(a, b);
    }
  }

  /** `percentEncode(k) + '=' + percentEncode(params[k])` for each name in turn. */
  function Pairs(p: Params, names: seq<string>): seq<string> {
    if names == [] then []
    else [Percent.PercentEncode(names[0]) + "=" + Percent.PercentEncode(Get(p, names[0]).GetOr(""))] + Pairs(p, names[1..])
  }

  /** The canonical query of `generateSignature`: the sorted names with their values, joined by '&'. */
  function CanonicalQuery(p: Params): (q: string)
    ensures p == [] ==> q == ""
  {
    Join(Pairs(p, SortStrings(Names(p))), "&")
  }

  /** The canonical query depends on the names and values only, not on the order the names were added in. */
  lemma QueryIgnoresOrder(p: Params, q: Params)
    requires forall name :: Get(p, name) == Get(q, name)
    ensures CanonicalQuery(p) == CanonicalQuery(q)
  {
    var a, b := SortStrings(Names(p)), SortStrings(Names(q));
    assert forall x :: x in a <==> x in b by {
      forall x ensures x in a <==> x in b {
        assert Get(p, x) == Get(q, x);
      }
    }
    SortedUnique(a, b);
    SamePairs(p, q, a);
  }

  lemma {:induction false} SamePairs(p: Params, q: Params, names: seq<string>)
    requires forall name :: Get(p, name) == Get(q, name)
    ensures Pairs(p, names) == Pairs(q, names)
  {
    if names != [] {
      assert Get(p, names[0]) == Get(q, names[0]);
      SamePairs(p, q, names[1..]);
    }
  }
}
