/**
 * Ordering of query results and of client-side sorts. Values are compared as the store and
 * JavaScript's `<` compare them field by field: numbers (and timestamps, as instants)
 * numerically, strings lexicographically. A missing value sorts first.
 */
module Ordering {

  datatype SortValue = Undef | Num(n: int) | Text(s: string)

  /** Lexicographic order on strings, character by character. */
  predicate StrLe(a: string, b: string)
  {
    a == [] || (b != [] && (a[0] < b[0] || (a[0] == b[0] && StrLe(a[1..], b[1..]))))
  }

  lemma {:induction false} StrLeTotal(a: string, b: string)
    ensures StrLe(a, b) || StrLe(b, a)
  {
    if a != [] && b != [] && a[0] == b[0] {
      StrLeTotal(a[1..], b[1..]);
    }
  }

  lemma {:induction false} StrLeTrans(a: string, b: string, c: string)
    requires StrLe(a, b) && StrLe(b, c)
    ensures StrLe(a, c)
  {
    if a != [] && b != [] && c != [] && a[0] == b[0] && b[0] == c[0] {
      StrLeTrans(a[1..], b[1..], c[1..]);
    }
  }

  lemma {:induction false} StrLeAntisym(a: string, b: string)
    requires StrLe(a, b) && StrLe(b, a)
    ensures a == b
  {
    if a != [] && b != [] {
      StrLeAntisym(a[1..], b[1..]);
      assert a == [a[0]] + a[1..] && b == [b[0]] + b[1..];
    }
  }

  /** `a` is not greater than `b`. */
  predicate Le(a: SortValue, b: SortValue)
  {
    match (a, b)
    case (Undef, _) => true
    case (Num(x), Num(y)) => x <= y
    case (Num(_), Text(_)) => true
    case (Text(x), Text(y)) => StrLe(x, y)
    case _ => false
  }

  lemma LeTotal(a: SortValue, b: SortValue)
    ensures Le(a, b) || Le(b, a)
  {
    if a.Text? && b.Text? {
      StrLeTotal(a.s, b.s);
    }
  }

  lemma LeTrans(a: SortValue, b: SortValue, c: SortValue)
    requires Le(a, b) && Le(b, c)
    ensures Le(a, c)
  {
    if a.Text? && b.Text? && c.Text? {
      StrLeTrans(a.s, b.s, c.s);
    }
  }

  /** `a` may stand before `b` in a list sorted ascending, or descending when `desc`. */
  predicate InOrder(a: SortValue, b: SortValue, desc: bool)
  {
    if desc then Le(b, a) else Le(a, b)
  }

  predicate SortedOn<T>(xs: seq<T>, key: T -> SortValue, desc: bool)
  {
    forall i, j :: 0 <= i < j < |xs| ==> InOrder(key(xs[i]), key(xs[j]), desc)
  }

  /** Inserts `x` after every element that may stand before it (so equal keys keep arrival order). */
  function Insert<T>(x: T, xs: seq<T>, key: T -> SortValue, desc: bool): (r: seq<T>)
    ensures |r| == |xs| + 1
  {
    if xs == [] then [x]
    else if InOrder(key(xs[0]), key(x), desc) then [xs[0]] + Insert(x, xs[1..], key, desc)
    else [x] + xs
  }

  /** Insertion sort: each element in turn is inserted into the sorted list of those before it. */
  function SortOn<T>(xs: seq<T>, key: T -> SortValue, desc: bool): (r: seq<T>)
    ensures |r| == |xs|
  {
    if xs == [] then [] else Insert(xs[|xs| - 1], SortOn(xs[..|xs| - 1], key, desc), key, desc)
  }

  lemma {:induction false} InsertSorted<T>(x: T, xs: seq<T>, key: T -> SortValue, desc: bool)
    requires SortedOn(xs, key, desc)
    ensures SortedOn(Insert(x, xs, key, desc), key, desc)
  {
    if xs != [] {
      var r := Insert(x, xs, key, desc);
      if InOrder(key(xs[0]), key(x), desc) {
        InsertSorted(x, xs[1..], key, desc);
        var tail := Insert(x, xs[1..], key, desc);
        InsertElements(x, xs[1..], key, desc);
        forall j | 0 < j < |r|
          ensures InOrder(key(r[0]), key(r[j]), desc)
        {
          assert r[j] == tail[j - 1];
          if tail[j - 1] != x {
            var k :| 0 <= k < |xs[1..]| && xs[1..][k] == tail[j - 1];
            assert xs[1..][k] == xs[k + 1];
          }
        }
      } else {
        forall j | 1 < j < |r|
          ensures InOrder(key(x), key(r[j]), desc)
        {
          assert r[j] == xs[j - 1];
          InOrderTotal(key(xs[0]), key(x), desc);
          InOrderTrans(key(x), key(xs[0]), key(xs[j - 1]), desc);
        }
        InOrderTotal(key(xs[0]), key(x), desc);
      }
    }
  }

  /** Every element of `Insert(x, xs)` is `x` or an element of `xs`. */
  lemma {:induction false} InsertElements<T>(x: T, xs: seq<T>, key: T -> SortValue, desc: bool)
    ensures forall j :: 0 <= j < |Insert(x, xs, key, desc)| ==>
      Insert(x, xs, key, desc)[j] == x || exists k :: 0 <= k < |xs| && xs[k] == Insert(x, xs, key, desc)[j]
  {
    if xs != [] && InOrder(key(xs[0]), key(x), desc) {
      InsertElements(x, xs[1..], key, desc);
      var r := Insert(x, xs, key, desc);
      forall j | 1 <= j < |r|
        ensures r[j] == x || exists k :: 0 <= k < |xs| && xs[k] == r[j]
      {
        var tail := Insert(x, xs[1..], key, desc);
        assert r[j] == tail[j - 1];
        if tail[j - 1] != x {
          var k :| 0 <= k < |xs[1..]| && xs[1..][k] == tail[j - 1];
          assert xs[k + 1] == r[j];
        }
      }
    }
  }

  lemma InOrderTotal(a: SortValue, b: SortValue, desc: bool)
    ensures InOrder(a, b, desc) || InOrder(b, a, desc)
  {
    LeTotal(a, b);
  }

  lemma InOrderTrans(a: SortValue, b: SortValue, c: SortValue, desc: bool)
    requires InOrder(a, b, desc) && InOrder(b, c, desc)
    ensures InOrder(a, c, desc)
  {
    if desc { LeTrans(c, b, a); } else { LeTrans(a, b, c); }
  }

  lemma {:induction false} InsertPerm<T>(x: T, xs: seq<T>, key: T -> SortValue, desc: bool)
    ensures multiset(Insert(x, xs, key, desc)) == multiset(xs) + multiset{x}
  {
    if xs != [] && InOrder(key(xs[0]), key(x), desc) {
      var tail := Insert(x, xs[1..], key, desc);
      InsertPerm(x, xs[1..], key, desc);
      ConsPerm(xs[0], tail, xs[1..], x);
      assert [xs[0]] + xs[1..] == xs;
    }
  }

  /** Putting the same element in front of both sides keeps a multiset equation. */
  lemma ConsPerm<T>(a: T, tail: seq<T>, rest: seq<T>, x: T)
    requires multiset(tail) == multiset(rest) + multiset{x}
    ensures multiset([a] + tail) == multiset([a] + rest) + multiset{x}
  {
  }

  /** The insertion sort returns a list sorted on `key`. */
  lemma {:induction false} SortOnSorted<T>(xs: seq<T>, key: T -> SortValue, desc: bool)
    ensures SortedOn(SortOn(xs, key, desc), key, desc)
  {
    if xs != [] {
      SortOnSorted(xs[..|xs| - 1], key, desc);
      InsertSorted(xs[|xs| - 1], SortOn(xs[..|xs| - 1], key, desc), key, desc);
    }
  }

  /** The insertion sort returns a permutation of its input. */
  lemma {:induction false} SortOnPerm<T>(xs: seq<T>, key: T -> SortValue, desc: bool)
    ensures multiset(SortOn(xs, key, desc)) == multiset(xs)
  {
    if xs != [] {
      var init, last := xs[..|xs| - 1], xs[|xs| - 1];
      assert SortOn(xs, key, desc) == Insert(last, SortOn(init, key, desc), key, desc);
      SortOnPerm(init, key, desc);
      InsertPerm(last, SortOn(init, key, desc), key, desc);
      assert multiset(xs) == multiset(init) + multiset{last} by {
        assert xs == init + [last];
      }
    }
  }

  /** Sorting keeps exactly the elements of the input. */
  lemma SortOnSameElements<T>(xs: seq<T>, key: T -> SortValue, desc: bool)
    ensures forall x :: x in SortOn(xs, key, desc) <==> x in xs
  {
    SortOnPerm(xs, key, desc);
    forall x
      ensures x in SortOn(xs, key, desc) <==> x in xs
    {
      assert x in SortOn(xs, key, desc) <==> x in multiset(SortOn(xs, key, desc));
      assert x in xs <==> x in multiset(xs);
    }
  }
}
