/**
 * The document store as the Python functions reach it: one map from document id to document
 * per collection. `document(id)` addresses a document; `set` writes a whole document and
 * `update` merges fields into an existing one.
 */
module PyStore {
  import opened Base
  import opened Json
  import opened Ordering

  class Db {
    var users: map<string, Dict>
    var enrollments: map<string, Dict>
    var courses: map<string, Dict>
    var categories: map<string, Dict>

    constructor(users: map<string, Dict>, enrollments: map<string, Dict>,
                courses: map<string, Dict>, categories: map<string, Dict>)
      ensures this.users == users && this.enrollments == enrollments
      ensures this.courses == courses && this.categories == categories
    {
      this.users := users;
      this.enrollments := enrollments;
      this.courses := courses;
      this.categories := categories;
    }
  }

  /** A value the store accepts as the id of an existing document: a non-empty string. */
  predicate IsId(id: Value)
  {
    id.Str? && id.s != ""
  }

  /**
   * The document `document(id).set(...)` writes: the given id, or a generated one (`autoId`)
   * when the id is `None`. Any other value makes the call raise.
   */
  function SetKey(id: Value, autoId: string): (k: Option<string>)
    ensures k.Some? <==> IsId(id) || id.Null?
    ensures IsId(id) ==> k == Some(id.s)
  {
    if IsId(id) then Some(id.s) else if id.Null? then Some(autoId) else None
  }

  /** How the store orders the values of a field: numbers and instants numerically, strings lexicographically. */
  function OrderKey(v: Value): SortValue
  {
    match v
    case Int(i) => Num(i)
    case Time(t) => Num(t)
    case Str(s) => Text(s)
    case _ => Undef
  }

  /** The stored document `document(id).get()` finds, if any. */
  function Lookup(coll: map<string, Dict>, id: Value): (r: Option<Dict>)
    ensures r.Some? <==> IsId(id) && id.s in coll
    ensures r.Some? ==> r.value == coll[id.s]
  {
    if IsId(id) && id.s in coll then Some(coll[id.s]) else None
  }

  /**
   * `document(id).update(u)`: the collection after merging `u` into the existing document;
   * `None` where the call raises because there is no such document.
   */
  function Updated(coll: map<string, Dict>, id: Value, u: Dict): (r: Option<map<string, Dict>>)
    ensures r.Some? <==> Lookup(coll, id).Some?
    ensures r.Some? ==> r.value.Keys == coll.Keys
  {
    if IsId(id) && id.s in coll then Some(coll[id.s := Merge(coll[id.s], u)]) else None
  }

  /** An update writes only the addressed document, and reads back as the merge of the old one and `u`. */
  lemma UpdatedDoc(coll: map<string, Dict>, id: Value, u: Dict, k: string)
    requires Updated(coll, id, u).Some? && UniqueKeys(u)
    ensures forall other :: other in coll && other != id.s ==> Updated(coll, id, u).value[other] == coll[other]
    ensures Get(Updated(coll, id, u).value[id.s], k) == if HasKey(u, k) then Get(u, k) else Get(coll[id.s], k)
  {
    MergeGet(coll[id.s], u, k);
  }
}
