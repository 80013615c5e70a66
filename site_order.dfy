/**
 * The order in which every server lists sites (home page and `all_sites`)
 * and a site's pages (`pages_array`): by `order`, a missing order counting
 * as 0, then by name. The listing starts from a map, whose iteration order
 * differs between runs and languages; sorting makes it the same.
 */
module SiteOrder {
  import opened Wrappers
  import opened Strs

  /** A site id or page key with its optional `order` field. */
  datatype Entry = Entry(name: string, order: Option<int>)

  function Rank(e: Entry): int {
    e.order.GetOr(0)
  }

  /** The comparator shared by `sort.Slice`, `usort`, `sorted` and `Array.sort`. */
  predicate Precedes(a: Entry, b: Entry) {
    Rank(a) < Rank(b) || (Rank(a) == Rank(b) && Less(a.name, b.name))
  }

  predicate Ordered(s: seq<Entry>) {
    forall i, j | 0 <= i < j < |s| :: Precedes(s[i], s[j])
  }

  /** Map keys: no name occurs twice. */
  predicate DistinctNames(s: seq<Entry>) {
    forall i, j | 0 <= i < j < |s| :: s[i].name != s[j].name
  }

  lemma PrecedesIrreflexive(a: Entry)
    ensures !Precedes(a, a)
  {
    LessIrreflexive(a.name);
  }

  lemma PrecedesTransitive(a: Entry, b: Entry, c: Entry)
    requires Precedes(a, b) && Precedes(b, c)
    ensures Precedes(a, c)
  {
    if Rank(a) == Rank(b) == Rank(c) {
      LessTransitive(a.name, b.name, c.name);
    }
  }

  lemma PrecedesAsymmetric(a: Entry, b: Entry)
    requires Precedes(a, b)
    ensures !Precedes(b, a)
  {
    if Rank(a) == Rank(b) {
      LessAsymmetric(a.name, b.name);
    }
  }

  lemma PrecedesTotal(a: Entry, b: Entry)
    requires a.name != b.name
    ensures Precedes(a, b) || Precedes(b, a)
  {
    LessTotal(a.name, b.name);
  }

  function Insert(e: Entry, s: seq<Entry>): (r: seq<Entry>)
    ensures multiset(r) == multiset(s) + multiset{e}
  {
    if s == [] then [e]
    else if Precedes(e, s[0]) then [e] + s
    else
      assert s == [s[0]] + s[1..];
      [s[0]] + Insert(e, s[1..])
  }

  /** The sorted listing. */
  function SortEntries(s: seq<Entry>): (r: seq<Entry>)
    ensures multiset(r) == multiset(s)
  {
    if s == [] then []
    else
      assert s == [s[0]] + s[1..];
      Insert(s[0], SortEntries(s[1..]))
  }

  lemma {:induction false} InsertOrdered(e: Entry, s: seq<Entry>)
    requires Ordered(s)
    requires forall i | 0 <= i < |s| :: s[i].name != e.name
    ensures Ordered(Insert(e, s))
  {
    if s != [] {
      if Precedes(e, s[0]) {
        forall j | 0 <= j < |s| ensures Precedes(e, s[j]) {
          if j > 0 {
            PrecedesTransitive(e, s[0], s[j]);
          }
        }
      } else {
        PrecedesTotal(e, s[0]);
        InsertOrdered(e, s[1..]);
        var tail := Insert(e, s[1..]);
        forall j | 0 <= j < |tail| ensures Precedes(s[0], tail[j]) {
          assert tail[j] in multiset(tail);
          if tail[j] != e {
            assert tail[j] in multiset(s[1..]);
            var k :| 0 <= k < |s[1..]| && s[1..][k] == tail[j];
            assert s[k + 1] == tail[j];
          }
        }
      }
    }
  }

  /** Sorting a map's entries lists them all, once each, in order. */
  lemma {:induction false} SortEntriesOrdered(s: seq<Entry>)
    requires DistinctNames(s)
    ensures Ordered(SortEntries(s))
    ensures multiset(SortEntries(s)) == multiset(s)
  {
    if s != [] {
      var tail := s[1..];
      assert DistinctNames(tail) by {
        forall i, j | 0 <= i < j < |tail| ensures tail[i].name != tail[j].name {
          assert tail[i] == s[i + 1] && tail[j] == s[j + 1];
        }
      }
      SortEntriesOrdered(tail);
      var sorted := SortEntries(tail);
      forall i | 0 <= i < |sorted| ensures sorted[i].name != s[0].name {
        assert sorted[i] in multiset(tail);
        var k :| 0 <= k < |tail| && tail[k] == sorted[i];
        assert s[k + 1] == sorted[i];
      }
      InsertOrdered(s[0], sorted);
    }
  }

  /** Two ordered listings of the same entries are the same listing. */
  lemma {:induction false} OrderedUnique(a: seq<Entry>, b: seq<Entry>)
    requires Ordered(a) && Ordered(b)
    requires multiset(a) == multiset(b)
    ensures a == b
  {
    if a != [] {
      SameFirst(a, b);
      assert a == [a[0]] + a[1..] && b == [b[0]] + b[1..];
      assert multiset(a) == multiset{a[0]} + multiset(a[1..]);
      assert multiset(b) == multiset{b[0]} + multiset(b[1..]);
      assert multiset(a[1..]) == multiset(a) - multiset{a[0]};
      assert multiset(b[1..]) == multiset(b) - multiset{a[0]};
      OrderedTail(a);
      OrderedTail(b);
      OrderedUnique(a[1..], b[1..]);
    }
  }

  /** Both listings start with the entry that precedes all others. */
  lemma SameFirst(a: seq<Entry>, b: seq<Entry>)
    requires Ordered(a) && Ordered(b) && a != []
    requires multiset(a) == multiset(b)
    ensures b != [] && a[0] == b[0]
  {
    assert a[0] in multiset(b);
    var k :| 0 <= k < |b| && b[k] == a[0];
    assert b[0] in multiset(a);
    var m :| 0 <= m < |a| && a[m] == b[0];
    assert k == 0 || Precedes(b[0], a[0]);
    assert m == 0 || Precedes(a[0], b[0]);
    PrecedesNotBoth(a[0], b[0]);
  }

  lemma OrderedTail(s: seq<Entry>)
    requires Ordered(s) && s != []
    ensures Ordered(s[1..])
  {
    var t := s[1..];
    forall i, j | 0 <= i < j < |t| ensures Precedes(t[i], t[j]) {
      assert t[i] == s[i + 1] && t[j] == s[j + 1];
    }
  }

  lemma PrecedesNotBoth(a: Entry, b: Entry)
    ensures !(Precedes(a, b) && Precedes(b, a))
  {
    if Precedes(a, b) {
      PrecedesAsymmetric(a, b);
    }
  }

  /**
   * The listing does not depend on the order in which the map was
   * iterated: any two iterations of the same entries sort alike.
   */
  lemma SortIndependentOfIteration(a: seq<Entry>, b: seq<Entry>)
    requires DistinctNames(a)
    requires multiset(a) == multiset(b)
    ensures SortEntries(a) == SortEntries(b)
  {
    forall i, j | 0 <= i < j < |b| ensures b[i].name != b[j].name {
      assert b[i] in multiset(a) && b[j] in multiset(a);
      var p :| 0 <= p < |a| && a[p] == b[i];
      var q :| 0 <= q < |a| && a[q] == b[j];
      MultiplicityInDistinct(a, p);
      RepeatedEntry(b, i, j);
    }
    assert DistinctNames(b);
    SortEntriesOrdered(a);
    SortEntriesOrdered(b);
    OrderedUnique(SortEntries(a), SortEntries(b));
  }

  lemma RepeatedEntry(b: seq<Entry>, i: nat, j: nat)
    requires i < j < |b|
    ensures b[i] == b[j] ==> multiset(b)[b[j]] >= 2
  {
    assert b == b[..j] + [b[j]] + b[j + 1..];
    assert b[..j][i] == b[i];
  }

  /** An entry of a list with distinct names occurs in it once. */
  lemma MultiplicityInDistinct(a: seq<Entry>, p: nat)
    requires DistinctNames(a) && p < |a|
    ensures multiset(a)[a[p]] == 1
  {
    assert a == a[..p] + [a[p]] + a[p + 1..];
    forall k | 0 <= k < p ensures a[..p][k] != a[p] {
      assert a[..p][k] == a[k];
    }
    var rest := a[p + 1..];
    forall k | 0 <= k < |rest| ensures rest[k] != a[p] {
      assert rest[k] == a[p + 1 + k];
    }
    assert a[p] !in a[..p] && a[p] !in a[p + 1..];
  }

  /** Missing and zero orders sort alike; a lower order comes first whatever the names. */
  lemma RankDecidesFirst(a: Entry, b: Entry)
    ensures Rank(a) < Rank(b) ==> Precedes(a, b)
    ensures a.order == None && b.order == Some(0) ==> (Precedes(a, b) <==> Less(a.name, b.name))
  {
  }
}
