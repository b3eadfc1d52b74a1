/**
 * The document store's collection queries, on a collection held as a map from document id
 * to document: equality filters select documents, results are listed in document-id order
 * unless the query orders them on a field, and `limit` keeps a prefix.
 */
module Query {
  import opened Ordering

  /** No document id occurs twice in a query result. */
  predicate DistinctIds<T>(r: seq<(string, T)>)
  {
    forall i, j :: 0 <= i < j < |r| ==> r[i].0 != r[j].0
  }

  /** Exactly the documents of `m` that satisfy `keep`, each once, with its id. */
  predicate SelectionOf<T(==)>(r: seq<(string, T)>, m: map<string, T>, keep: T -> bool)
  {
    && DistinctIds(r)
    && (forall e :: e in r ==> e.0 in m && m[e.0] == e.1 && keep(e.1))
    && (forall id :: id in m && keep(m[id]) ==> (id, m[id]) in r)
  }

  /** The documents of `m` that satisfy `keep`, in no particular order. */
  method Select<T(==)>(m: map<string, T>, keep: T -> bool) returns (r: seq<(string, T)>)
    ensures SelectionOf(r, m, keep)
  {
    r := [];
    var rest := m.Keys;
    while rest != {}
      invariant rest <= m.Keys
      invariant DistinctIds(r)
      invariant forall e :: e in r ==> e.0 in m && m[e.0] == e.1 && keep(e.1) && e.0 !in rest
      invariant forall id :: id in m && id !in rest && keep(m[id]) ==> (id, m[id]) in r
      decreases rest
    {
      var id :| id in rest;
      if keep(m[id]) {
        r := r + [(id, m[id])];
      }
      rest := rest - {id};
    }
  }

  function IdKey<T>(e: (string, T)): SortValue
  {
    Text(e.0)
  }

  /** Sorting a selection keeps it a selection of the same documents. */
  lemma SortKeepsSelection<T>(r: seq<(string, T)>, m: map<string, T>, keep: T -> bool,
                              key: ((string, T)) -> SortValue, desc: bool)
    requires SelectionOf(r, m, keep)
    ensures SelectionOf(SortOn(r, key, desc), m, keep)
  {
    SortOnPerm(r, key, desc);
    PermKeepsSelection(r, SortOn(r, key, desc), m, keep);
  }

  /** A rearrangement of a selection is a selection of the same documents. */
  lemma PermKeepsSelection<T>(r: seq<(string, T)>, s: seq<(string, T)>, m: map<string, T>, keep: T -> bool)
    requires SelectionOf(r, m, keep) && multiset(s) == multiset(r)
    ensures SelectionOf(s, m, keep)
  {
    PermKeepsDistinct(r, s);
    forall e | e in s
      ensures e.0 in m && m[e.0] == e.1 && keep(e.1)
    {
      assert e in multiset(s);
    }
    forall id | id in m && keep(m[id])
      ensures (id, m[id]) in s
    {
      assert (id, m[id]) in multiset(r);
    }
  }

  /** A rearrangement of a list with distinct ids has distinct ids. */
  lemma PermKeepsDistinct<T>(r: seq<(string, T)>, s: seq<(string, T)>)
    requires DistinctIds(r) && multiset(s) == multiset(r)
    ensures DistinctIds(s)
  {
    forall i, j | 0 <= i < j < |s|
      ensures s[i].0 != s[j].0
    {
      if s[i].0 == s[j].0 {
        assert s[i] in multiset(r) && s[j] in multiset(r);
        SameIdSameEntry(r, s[i], s[j]);
        TwoPositions(s, i, j);
        DistinctNoRepeat(r, s[i]);
        assert false;
      }
    }
  }

  /** In a list with distinct ids, two entries with the same id are the same entry. */
  lemma SameIdSameEntry<T>(r: seq<(string, T)>, a: (string, T), b: (string, T))
    requires DistinctIds(r) && a in r && b in r && a.0 == b.0
    ensures a == b
  {
  }

  /** An entry found at two positions occurs at least twice. */
  lemma TwoPositions<T>(s: seq<T>, i: int, j: int)
    requires 0 <= i < j < |s| && s[i] == s[j]
    ensures multiset(s)[s[i]] >= 2
  {
    assert s == s[..i] + [s[i]] + s[i + 1..j] + [s[j]] + s[j + 1..];
  }

  /** In a list of distinct ids, an entry occurs at most once. */
  lemma {:induction false} DistinctNoRepeat<T>(r: seq<(string, T)>, e: (string, T))
    requires DistinctIds(r)
    ensures multiset(r)[e] <= 1
  {
    if r != [] {
      DistinctNoRepeat(r[1..], e);
      assert r == [r[0]] + r[1..];
      if r[0] == e {
        assert forall k :: 0 <= k < |r[1..]| ==> r[1..][k].0 != e.0 by {
          forall k | 0 <= k < |r[1..]| ensures r[1..][k].0 != e.0 {
            assert r[1..][k] == r[k + 1];
          }
        }
        assert e !in r[1..];
      }
    }
  }

  /**
   * `collection.where(keep).get()`: the selected documents listed in ascending document-id
   * order, the order in which the store returns an unordered query.
   */
  method ListWhere<T(==)>(m: map<string, T>, keep: T -> bool) returns (r: seq<(string, T)>)
    ensures SelectionOf(r, m, keep)
    ensures SortedOn(r, IdKey, false)
  {
    var found := Select(m, keep);
    r := SortOn(found, IdKey, false);
    SortKeepsSelection(found, m, keep, IdKey, false);
    SortOnSorted(found, IdKey, false);
  }

  /** `where(...).orderBy(key)`: the selection sorted on `key`, ties left in document-id order. */
  method ListOrdered<T(==)>(m: map<string, T>, keep: T -> bool, key: ((string, T)) -> SortValue, desc: bool)
    returns (r: seq<(string, T)>)
    ensures SelectionOf(r, m, keep)
    ensures SortedOn(r, key, desc)
  {
    var found := ListWhere(m, keep);
    r := SortOn(found, key, desc);
    SortKeepsSelection(found, m, keep, key, desc);
    SortOnSorted(found, key, desc);
  }

  /** `limit(n)`: the first `n` results, or all of them when there are fewer. */
  function Limit<T>(r: seq<T>, n: nat): (l: seq<T>)
    ensures |l| <= n && |l| <= |r|
    ensures l == r[..|l|]
    ensures |r| <= n ==> l == r
  {
    if |r| <= n then r else r[..n]
  }

  /** A limit on an ordered list keeps it ordered, and what it drops ranks after everything it keeps. */
  lemma LimitKeepsFirst<T>(r: seq<T>, n: nat, key: T -> SortValue, desc: bool)
    requires SortedOn(r, key, desc)
    ensures SortedOn(Limit(r, n), key, desc)
    ensures forall a, b :: a in Limit(r, n) && b in r && b !in Limit(r, n) ==> InOrder(key(a), key(b), desc)
  {
    var l := Limit(r, n);
    forall a, b | a in l && b in r && b !in l
      ensures InOrder(key(a), key(b), desc)
    {
      var i :| 0 <= i < |l| && l[i] == a;
      var j :| 0 <= j < |r| && r[j] == b;
      assert r[i] == a;
      if j < |l| {
        assert false;
      }
    }
  }

  /** `results.filter(r => p(r))` on the client: the results that satisfy `p`, in their order. */
  function Filter<T(==)>(r: seq<(string, T)>, p: T -> bool): (s: seq<(string, T)>)
    ensures |s| <= |r|
    ensures forall e :: e in s ==> e in r && p(e.1)
    ensures forall e :: e in r && p(e.1) ==> e in s
  {
    if r == [] then [] else (if p(r[0].1) then [r[0]] else []) + Filter(r[1..], p)
  }

  /** Filtering keeps ids distinct. */
  lemma {:induction false} FilterDistinct<T>(r: seq<(string, T)>, p: T -> bool)
    requires DistinctIds(r)
    ensures DistinctIds(Filter(r, p))
  {
    if r != [] {
      FilterDistinct(r[1..], p);
      var rest := Filter(r[1..], p);
      forall e | e in rest ensures e.0 != r[0].0 {
        var k :| 0 <= k < |r[1..]| && r[1..][k] == e;
        assert r[k + 1] == e;
      }
    }
  }

  /** Filtering keeps the order of a sorted list. */
  lemma {:induction false} FilterSorted<T>(r: seq<(string, T)>, p: T -> bool, key: ((string, T)) -> SortValue, desc: bool)
    requires SortedOn(r, key, desc)
    ensures SortedOn(Filter(r, p), key, desc)
  {
    if r != [] {
      FilterSorted(r[1..], p, key, desc);
      var rest := Filter(r[1..], p);
      forall e | e in rest ensures InOrder(key(r[0]), key(e), desc) {
        var k :| 0 <= k < |r[1..]| && r[1..][k] == e;
        assert r[k + 1] == e;
      }
    }
  }

  /**
   * A server query followed by a client filter selects exactly what the conjunction of the
   * two conditions selects.
   */
  lemma FilterSelection<T>(r: seq<(string, T)>, m: map<string, T>, keep: T -> bool, p: T -> bool, both: T -> bool)
    requires SelectionOf(r, m, keep)
    requires forall x :: both(x) == (keep(x) && p(x))
    ensures SelectionOf(Filter(r, p), m, both)
  {
    FilterDistinct(r, p);
  }
}
