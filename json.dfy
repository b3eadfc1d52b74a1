/**
 * JSON-like values as the Python side of the system handles them: document-store documents,
 * keyword-argument dictionaries, decoded tokens and exported records. A Python dict is an
 * association list kept in insertion order, which is the order Python iterates it in.
 */
module Json {
  import opened Base

  datatype Value =
    | Null
    | Bool(b: bool)
    | Int(i: int)
    | Str(s: string)
    | Time(t: int)          // a `datetime` or store timestamp, as an opaque instant
    | Arr(items: seq<Value>)
    | Obj(fields: Dict)

  datatype Field = Field(key: string, val: Value)

  type Dict = seq<Field>

  /** `d[k]` / `d.get(k)`: the value stored under `k`, if any. */
  function Get(d: Dict, k: string): Option<Value>
  {
    if d == [] then None
    else if d[0].key == k then Some(d[0].val)
    else Get(d[1..], k)
  }

  /** `k in d` */
  predicate HasKey(d: Dict, k: string)
  {
    Get(d, k).Some?
  }

  /** Python dicts never hold a key twice. */
  predicate UniqueKeys(d: Dict)
  {
    d == [] || (!HasKey(d[1..], d[0].key) && UniqueKeys(d[1..]))
  }

  /** The keys of a dict, in iteration order. */
  function Keys(d: Dict): (ks: seq<string>)
    ensures |ks| == |d|
    ensures forall i :: 0 <= i < |d| ==> ks[i] == d[i].key
  {
    if d == [] then [] else [d[0].key] + Keys(d[1..])
  }

  /** A key is present exactly when it is one of the dict's keys. */
  lemma {:induction false} HasKeyIffInKeys(d: Dict, k: string)
    ensures HasKey(d, k) <==> k in Keys(d)
  {
    if d != [] {
      HasKeyIffInKeys(d[1..], k);
    }
  }

  /** In a dict with unique keys, the entry at position `i` is what `Get` finds for its key. */
  lemma {:induction false} GetAt(d: Dict, i: int)
    requires UniqueKeys(d) && 0 <= i < |d|
    ensures Get(d, d[i].key) == Some(d[i].val)
  {
    if i > 0 {
      assert d[1..][i - 1] == d[i];
      GetAt(d[1..], i - 1);
    }
  }

  /** No two entries share a key (the pairwise form of `UniqueKeys`). */
  predicate DistinctKeys(d: Dict)
  {
    forall i, j :: 0 <= i < j < |d| ==> d[i].key != d[j].key
  }

  /** The pairwise form implies the recursive one, so a dict display with distinct keys is a dict. */
  lemma {:induction false} DistinctKeysUnique(d: Dict)
    requires DistinctKeys(d)
    ensures UniqueKeys(d)
  {
    if d != [] {
      HasKeyIffInKeys(d[1..], d[0].key);
      assert forall i :: 0 <= i < |d[1..]| ==> d[1..][i].key == d[i + 1].key;
      DistinctKeysUnique(d[1..]);
    }
  }

  /** The dict pairing each key of `ks` with the value at the same position of `vs`. */
  function Zip(ks: seq<string>, vs: seq<Value>): (d: Dict)
    requires |ks| == |vs|
    ensures |d| == |ks| && forall i :: 0 <= i < |d| ==> d[i] == Field(ks[i], vs[i])
    ensures Keys(d) == ks
  {
    if ks == [] then [] else [Field(ks[0], vs[0])] + Zip(ks[1..], vs[1..])
  }

  /** No string occurs twice in `ks`. */
  predicate Distinct(ks: seq<string>)
  {
    forall i, j :: 0 <= i < j < |ks| ==> ks[i] != ks[j]
  }

  /** A dict whose key list has no repetition is a dict. */
  lemma DistinctKeyList(d: Dict)
    requires Distinct(Keys(d))
    ensures UniqueKeys(d)
  {
    DistinctKeysUnique(d);
  }

  /** In a dict, each key reads as the value stored beside it. */
  lemma UniqueGet(d: Dict)
    requires UniqueKeys(d)
    ensures forall i :: 0 <= i < |d| ==> Get(d, d[i].key) == Some(d[i].val)
  {
    forall i | 0 <= i < |d|
      ensures Get(d, d[i].key) == Some(d[i].val)
    {
      GetAt(d, i);
    }
  }

  /** `d.get(k, default)` */
  function GetOr(d: Dict, k: string, default: Value): Value
  {
    match Get(d, k)
    case Some(v) => v
    case None => default
  }

  /**
   * `d[k] = v`: overwrites the entry of an existing key where it stands, otherwise appends
   * a new entry at the end.
   */
  function Put(d: Dict, k: string, v: Value): (r: Dict)
    ensures |r| == if HasKey(d, k) then |d| else |d| + 1
  {
    if d == [] then [Field(k, v)]
    else if d[0].key == k then [Field(k, v)] + d[1..]
    else [d[0]] + Put(d[1..], k, v)
  }

  /** After `d[k] = v`, reading `k` gives `v` and every other key reads as before. */
  lemma {:induction false} PutGet(d: Dict, k: string, v: Value, k': string)
    ensures Get(Put(d, k, v), k') == if k' == k then Some(v) else Get(d, k')
  {
    if d != [] && d[0].key != k {
      PutGet(d[1..], k, v, k');
    }
  }

  /** Assigning a new key appends it; assigning an existing key keeps the key order. */
  lemma {:induction false} PutKeys(d: Dict, k: string, v: Value)
    ensures Keys(Put(d, k, v)) == if HasKey(d, k) then Keys(d) else Keys(d) + [k]
  {
    if d != [] && d[0].key != k {
      PutKeys(d[1..], k, v);
      assert [d[0]] + Put(d[1..], k, v) == Put(d, k, v);
    }
  }

  /** Assignment keeps the keys of a dict unique. */
  lemma {:induction false} PutUnique(d: Dict, k: string, v: Value)
    requires UniqueKeys(d)
    ensures UniqueKeys(Put(d, k, v))
  {
    if d != [] && d[0].key != k {
      PutUnique(d[1..], k, v);
      PutGet(d[1..], k, v, d[0].key);
      assert Put(d, k, v)[1..] == Put(d[1..], k, v);
    } else if d != [] {
      assert Put(d, k, v)[1..] == d[1..];
    }
  }

  /**
   * `d.update(u)`, and the store's field-merging document update: every entry of `u`
   * is put into `d` in order.
   */
  function Merge(d: Dict, u: Dict): Dict
    decreases |u|
  {
    if u == [] then d else Merge(Put(d, u[0].key, u[0].val), u[1..])
  }

  /** After `d.update(u)`, a key of `u` reads as in `u`, and every other key as in `d`. */
  lemma {:induction false} MergeGet(d: Dict, u: Dict, k: string)
    requires UniqueKeys(u)
    ensures Get(Merge(d, u), k) == if HasKey(u, k) then Get(u, k) else Get(d, k)
    decreases |u|
  {
    if u != [] {
      MergeGet(Put(d, u[0].key, u[0].val), u[1..], k);
      PutGet(d, u[0].key, u[0].val, k);
    }
  }

  /** `d.update(u)` keeps the keys of `d` unique. */
  lemma {:induction false} MergeUnique(d: Dict, u: Dict)
    requires UniqueKeys(d)
    ensures UniqueKeys(Merge(d, u))
    decreases |u|
  {
    if u != [] {
      PutUnique(d, u[0].key, u[0].val);
      MergeUnique(Put(d, u[0].key, u[0].val), u[1..]);
    }
  }

  /** Python truthiness: None, False, 0, "", [] and {} are false; everything else is true. */
  predicate Truthy(v: Value)
  {
    match v
    case Null => false
    case Bool(b) => b
    case Int(i) => i != 0
    case Str(s) => s != ""
    case Time(_) => true
    case Arr(xs) => xs != []
    case Obj(fs) => fs != []
  }

  /** `x or y` */
  function Or(x: Value, y: Value): (r: Value)
    ensures Truthy(x) ==> r == x
    ensures !Truthy(x) ==> r == y
  {
    if Truthy(x) then x else y
  }

  /** The integer a number stands for (`bool` is a subclass of `int` in Python). */
  function AsNumber(v: Value): Option<int>
  {
    match v
    case Int(i) => Some(i)
    case Bool(b) => Some(if b then 1 else 0)
    case _ => None
  }

  /** `a + b` on numbers; `None` where Python raises `TypeError`. */
  function Plus(a: Value, b: Value): (r: Option<Value>)
    ensures r.Some? <==> AsNumber(a).Some? && AsNumber(b).Some?
    ensures r.Some? ==> r.value == Int(AsNumber(a).value + AsNumber(b).value)
  {
    match (AsNumber(a), AsNumber(b))
    case (Some(x), Some(y)) => Some(Int(x + y))
    case _ => None
  }
}
