/**
 * The Python `Category` model: a cache of a `categories` document (`data`) beside attribute
 * copies of its fields. `save` creates a document under a generated id, `update` merges
 * fields into the stored document and the cache, and `increment_course_count` bumps the
 * course counter in the store and in memory. `connected` says whether `get_db()` obtained a
 * store client; without one it returns `None`.
 */
module PyCategory {
  import opened Base
  import opened Json
  import opened Ordering
  import opened Query
  import opened PyStore

  /** The attribute copies a `Category` keeps beside `data`. */
  datatype CategoryRec = CategoryRec(
    id: Value, name: Value, description: Value, icon: Value, coursesCount: Value,
    createdAt: Value, updatedAt: Value)

  const AttrNames: seq<string> :=
    ["id", "name", "description", "icon", "coursesCount", "createdAt", "updatedAt"]

  /**
   * The attributes `Category(data)` reads from `data`: each field's value when the key is
   * present (even when falsy), the default otherwise.
   */
  function FromData(data: Dict, now: int): CategoryRec
  {
    CategoryRec(
      GetOr(data, "id", Str("")), GetOr(data, "name", Str("")), GetOr(data, "description", Str("")),
      GetOr(data, "icon", Str("")), GetOr(data, "coursesCount", Int(0)),
      GetOr(data, "createdAt", Time(now)), GetOr(data, "updatedAt", Time(now)))
  }

  /** A category built from nothing has empty strings, no courses, and the clock reading as both timestamps. */
  lemma EmptyDefaults(now: int)
    ensures FromData([], now) == CategoryRec(Str(""), Str(""), Str(""), Str(""), Int(0), Time(now), Time(now))
  {
  }

  /** The value of an attribute by its Python name. */
  function Attr(r: CategoryRec, k: string): Value
    requires k in AttrNames
  {
    match k
    case "id" => r.id
    case "name" => r.name
    case "description" => r.description
    case "icon" => r.icon
    case "coursesCount" => r.coursesCount
    case "createdAt" => r.createdAt
    case "updatedAt" => r.updatedAt
  }

  /**
   * `to_dict`: the cached document when it is non-empty, otherwise a document rebuilt from the
   * attributes.
   */
  function ToDict(data: Dict, r: CategoryRec): (d: Dict)
    ensures data != [] ==> d == data
    ensures data == [] ==> UniqueKeys(d) && Keys(d) == AttrNames
  {
    if data != [] then data
    else
      var d := [Field("id", r.id), Field("name", r.name), Field("description", r.description),
        Field("icon", r.icon), Field("coursesCount", r.coursesCount), Field("createdAt", r.createdAt),
        Field("updatedAt", r.updatedAt)];
      DistinctKeysUnique(d);
      d
  }

  /** A category with an empty cache rebuilds a document from which the same attributes are read back. */
  lemma ToDictRoundTrip(r: CategoryRec, now: int)
    ensures FromData(ToDict([], r), now) == r
  {
    var d := ToDict([], r);
    UniqueGet(d);
    assert d[0].key == "id" && d[1].key == "name" && d[2].key == "description" && d[3].key == "icon";
    assert d[4].key == "coursesCount" && d[5].key == "createdAt" && d[6].key == "updatedAt";
  }

  /** The cached document after `save`: the generated id, the creation time kept or set, the update time set. */
  function SavedData(data: Dict, autoId: string, now: int): Dict
  {
    var withId := Put(data, "id", Str(autoId));
    Put(Put(withId, "createdAt", GetOr(withId, "createdAt", Time(now))), "updatedAt", Time(now))
  }

  /**
   * After `save` the document carries its own id, keeps an existing creation time (or takes the
   * clock reading), is stamped with the update time, and keeps every other field.
   */
  lemma SavedDataEffect(data: Dict, autoId: string, now: int, k: string)
    ensures Get(SavedData(data, autoId, now), "id") == Some(Str(autoId))
    ensures Get(SavedData(data, autoId, now), "createdAt") == Some(GetOr(data, "createdAt", Time(now)))
    ensures Get(SavedData(data, autoId, now), "updatedAt") == Some(Time(now))
    ensures k !in ["id", "createdAt", "updatedAt"] ==> Get(SavedData(data, autoId, now), k) == Get(data, k)
  {
    var d1 := Put(data, "id", Str(autoId));
    PutGet(data, "id", Str(autoId), "createdAt");
    var d2 := Put(d1, "createdAt", GetOr(data, "createdAt", Time(now)));
    forall k' | k' in [k, "id", "createdAt", "updatedAt"]
      ensures Get(SavedData(data, autoId, now), k') ==
        if k' == "updatedAt" then Some(Time(now))
        else if k' == "createdAt" then Some(GetOr(data, "createdAt", Time(now)))
        else if k' == "id" then Some(Str(autoId))
        else Get(data, k')
    {
      PutGet(d2, "updatedAt", Time(now), k');
      PutGet(d1, "createdAt", GetOr(data, "createdAt", Time(now)), k');
      PutGet(data, "id", Str(autoId), k');
    }
  }

  /** One iteration of the `setattr` loop of `update`, for the attributes the model keeps. */
  function SetAttr(r: CategoryRec, f: Field): CategoryRec
  {
    match f.key
    case "id" => r.(id := f.val)
    case "name" => r.(name := f.val)
    case "description" => r.(description := f.val)
    case "icon" => r.(icon := f.val)
    case "coursesCount" => r.(coursesCount := f.val)
    case "createdAt" => r.(createdAt := f.val)
    case "updatedAt" => r.(updatedAt := f.val)
    case _ => r
  }

  /** The attributes after the `setattr` loop over `u`. */
  function SetAttrs(r: CategoryRec, u: Dict): CategoryRec
    decreases |u|
  {
    if u == [] then r else SetAttrs(SetAttr(r, u[0]), u[1..])
  }

  /** After the loop each attribute holds the value `u` gives it, or keeps its own when `u` has none. */
  lemma {:induction false} SetAttrsEffect(r: CategoryRec, u: Dict, k: string)
    requires UniqueKeys(u) && k in AttrNames
    ensures Attr(SetAttrs(r, u), k) == GetOr(u, k, Attr(r, k))
    decreases |u|
  {
    if u != [] {
      SetAttrsEffect(SetAttr(r, u[0]), u[1..], k);
    }
  }

  /** The updates `update` applies: the given ones plus the update time. */
  function WithStamp(updates: Dict, now: int): Dict
  {
    Put(updates, "updatedAt", Time(now))
  }

  /**
   * The stored document after `document(id).update({'coursesCount': Increment(delta), ...})`:
   * an integer count is raised by `delta`; anything else, a boolean included (the store does
   * not count booleans as numbers), is replaced by `delta`.
   */
  function IncrementedDoc(doc: Dict, delta: int, now: int): Dict
  {
    var stored := GetOr(doc, "coursesCount", Null);
    var count := if stored.Int? then stored.i + delta else delta;
    Merge(doc, [Field("coursesCount", Int(count)), Field("updatedAt", Time(now))])
  }

  /** The in-memory count after `self.coursesCount = (self.coursesCount or 0) + delta`; `None` where it raises. */
  function LocalCount(count: Value, delta: Value): Option<Value>
  {
    Plus(Or(count, Int(0)), delta)
  }

  /**
   * The stored and the in-memory counters move together: when the cached count agrees with the
   * stored one and is an integer (or both are unset), they agree again after the increment.
   */
  lemma CountsAgree(doc: Dict, count: Value, delta: int, now: int)
    requires GetOr(doc, "coursesCount", Null) == count
    requires count.Int? || count == Null
    ensures LocalCount(count, Int(delta)).Some?
    ensures Get(IncrementedDoc(doc, delta, now), "coursesCount") == LocalCount(count, Int(delta))
  {
    var stored := GetOr(doc, "coursesCount", Null);
    var n := if stored.Int? then stored.i + delta else delta;
    var u := [Field("coursesCount", Int(n)), Field("updatedAt", Time(now))];
    DistinctKeysUnique(u);
    MergeGet(doc, u, "coursesCount");
    UniqueGet(u);
  }

  /**
   * A boolean count is where the two counters part: Python adds `True` as 1, while the store
   * overwrites the boolean with `delta`.
   */
  lemma BoolCountDiverges(doc: Dict, delta: int, now: int)
    requires GetOr(doc, "coursesCount", Null) == Bool(true)
    ensures LocalCount(Bool(true), Int(delta)) == Some(Int(delta + 1))
    ensures Get(IncrementedDoc(doc, delta, now), "coursesCount") == Some(Int(delta))
  {
    var u := [Field("coursesCount", Int(delta)), Field("updatedAt", Time(now))];
    DistinctKeysUnique(u);
    MergeGet(doc, u, "coursesCount");
    UniqueGet(u);
  }

  /** The document satisfies every `where(key, '==', value)` of the filters. */
  function MatchesAll(filters: Dict): Dict -> bool
  {
    doc => forall i :: 0 <= i < |filters| ==> Get(doc, filters[i].key) == Some(filters[i].val)
  }

  /** The cached document of a listed category: the stored fields with `id` set to the document id. */
  function Listed(e: (string, Dict)): Dict
  {
    Put(e.1, "id", Str(e.0))
  }

  /**
   * A listed category satisfies every filter on a field other than `id` (whose cached value is
   * the document id, not the stored field the filter tested).
   */
  lemma ListedMatches(filters: Dict, e: (string, Dict), i: int)
    requires MatchesAll(filters)(e.1) && 0 <= i < |filters| && filters[i].key != "id"
    ensures Get(Listed(e), filters[i].key) == Some(filters[i].val)
  {
    PutGet(e.1, "id", Str(e.0), filters[i].key);
  }

  class Category {
    var data: Dict
    var id: Value
    var name: Value
    var description: Value
    var icon: Value
    var coursesCount: Value
    var createdAt: Value
    var updatedAt: Value

    function Rec(): CategoryRec
      reads this
    {
      CategoryRec(id, name, description, icon, coursesCount, createdAt, updatedAt)
    }

    /** `Category(data)` with the clock reading `now` (a `None` argument is the empty dict). */
    constructor(data: Dict, now: int)
      ensures this.data == data && Rec() == FromData(data, now)
    {
      this.data := data;
      var r := FromData(data, now);
      id, name, description, icon := r.id, r.name, r.description, r.icon;
      coursesCount, createdAt, updatedAt := r.coursesCount, r.createdAt, r.updatedAt;
    }

    /**
     * `save()`: without a store nothing happens; otherwise the document is written under a
     * generated id (`autoId`), which the cache and `id` both take.
     */
    method Save(db: Db, connected: bool, autoId: string, now: int) returns (saved: bool)
      modifies this, db`categories
      ensures !connected ==> !saved && data == old(data) && Rec() == old(Rec()) && db.categories == old(db.categories)
      ensures connected ==> (saved && data == SavedData(old(data), autoId, now)
        && Rec() == old(Rec()).(id := Str(autoId))
        && db.categories == old(db.categories)[autoId := data])
    {
      if !connected {
        return false;
      }
      data := Put(data, "id", Str(autoId));
      data := Put(data, "createdAt", GetOr(data, "createdAt", Time(now)));
      data := Put(data, "updatedAt", Time(now));
      db.categories := db.categories[autoId := data];
      id := Str(autoId);
      return true;
    }

    /**
     * `update(updates)`: without a store or an id nothing happens and the result is false;
     * otherwise the updates plus the update time are merged into the stored document (which
     * raises when it does not exist), then into the cache and the attributes.
     */
    method Update(updates: Dict, db: Db, connected: bool, now: int) returns (r: Outcome<bool>)
      modifies this, db`categories
      ensures !connected || !Truthy(old(id)) ==>
        r == Returned(false) && data == old(data) && Rec() == old(Rec()) && db.categories == old(db.categories)
      ensures connected && Truthy(old(id)) ==>
        && (r.Raised? <==> Updated(old(db.categories), old(id), WithStamp(updates, now)).None?)
        && (r.Raised? ==> data == old(data) && Rec() == old(Rec()) && db.categories == old(db.categories))
        && (r.Returned? ==> (r.value
              && db.categories == Updated(old(db.categories), old(id), WithStamp(updates, now)).value
              && data == Merge(old(data), WithStamp(updates, now))
              && Rec() == SetAttrs(old(Rec()), WithStamp(updates, now))))
    {
      if !connected || !Truthy(id) {
        return Returned(false);
      }
      var u := WithStamp(updates, now);
      var stored := Updated(db.categories, id, u);
      if stored.None? {
        return Raised;
      }
      db.categories := stored.value;
      data := Merge(data, u);
      ghost var start := Rec();
      for i := 0 to |u|
        invariant SetAttrs(Rec(), u[i..]) == SetAttrs(start, u)
        invariant data == Merge(old(data), u)
        invariant db.categories == stored.value
      {
        assert u[i..][1..] == u[i + 1..];
        var f := u[i];
        match f.key
        case "id" => id := f.val;
        case "name" => name := f.val;
        case "description" => description := f.val;
        case "icon" => icon := f.val;
        case "coursesCount" => coursesCount := f.val;
        case "createdAt" => createdAt := f.val;
        case "updatedAt" => updatedAt := f.val;
        case _ =>
      }
      assert u[|u|..] == [];
      return Returned(true);
    }

    /**
     * `increment_course_count(delta)`: without a store or an id the result is false and
     * nothing changes. Otherwise the stored counter is incremented; a failing store call makes
     * the result false: a missing document, or a `delta` that is not an integer (the client
     * sends a boolean as a boolean, and the store refuses to increment by it). Then the attribute becomes `(coursesCount or 0) + delta` and the cache
     * mirrors it; when that addition raises, the store has already been written.
     */
    method IncrementCourseCount(delta: Value, db: Db, connected: bool, now: int) returns (ok: bool)
      modifies this, db`categories
      ensures !connected || !Truthy(old(id)) || !delta.Int? || Lookup(old(db.categories), old(id)).None? ==>
        !ok && data == old(data) && Rec() == old(Rec()) && db.categories == old(db.categories)
      ensures connected && Truthy(old(id)) && delta.Int? && Lookup(old(db.categories), old(id)).Some? ==>
        && db.categories == old(db.categories)[old(id).s := IncrementedDoc(old(db.categories)[old(id).s], delta.i, now)]
        && (ok <==> LocalCount(old(coursesCount), delta).Some?)
        && (!ok ==> data == old(data) && Rec() == old(Rec()))
        && (ok ==> Rec() == old(Rec()).(coursesCount := LocalCount(old(coursesCount), delta).value, updatedAt := Time(now))
                   && data == Put(Put(old(data), "coursesCount", coursesCount), "updatedAt", Time(now)))
    {
      if !connected || !Truthy(id) {
        return false;
      }
      var doc := Lookup(db.categories, id);
      if !delta.Int? || doc.None? {
        return false;
      }
      db.categories := db.categories[id.s := IncrementedDoc(doc.value, delta.i, now)];
      var c := LocalCount(coursesCount, delta);
      if c.None? {
        return false;
      }
      coursesCount := c.value;
      updatedAt := Time(now);
      data := Put(data, "coursesCount", coursesCount);
      data := Put(data, "updatedAt", updatedAt);
      return true;
    }

    /**
     * `get_by_id(category_id)`: the category built from the stored document with its id added,
     * `None` when there is no store or no such document; an id the store cannot address raises.
     */
    static method GetById(categoryId: Value, db: Db, connected: bool, now: int) returns (r: Outcome<Category?>)
      ensures !connected || categoryId.Null? ==> r == Returned(null)
      ensures connected && !categoryId.Null? && !IsId(categoryId) ==> r.Raised?
      ensures connected && IsId(categoryId) ==>
        && r.Returned?
        && (r.value == null <==> categoryId.s !in db.categories)
        && (r.value != null ==> (fresh(r.value)
              && r.value.data == Put(db.categories[categoryId.s], "id", categoryId)
              && r.value.Rec() == FromData(r.value.data, now)))
    {
      if !connected || categoryId.Null? {
        return Returned(null);
      }
      if !IsId(categoryId) {
        return Raised;
      }
      var doc := Lookup(db.categories, categoryId);
      if doc.None? {
        return Returned(null);
      }
      var c := new Category(Put(doc.value, "id", categoryId), now);
      return Returned(c);
    }

    /**
     * `find_all(filters)`: the categories whose documents satisfy every equality filter, in
     * document-id order, each built from its document with `id` set to the document id.
     */
    static method FindAll(filters: Dict, db: Db, connected: bool, now: int) returns (cs: seq<Category>)
      ensures !connected ==> cs == []
      ensures forall j :: 0 <= j < |cs| ==> fresh(cs[j]) && cs[j].Rec() == FromData(cs[j].data, now)
      ensures connected ==> exists sel: seq<(string, Dict)> :: (SelectionOf(sel, db.categories, MatchesAll(filters))
        && SortedOn(sel, IdKey, false)
        && |cs| == |sel| && forall j :: 0 <= j < |sel| ==> cs[j].data == Listed(sel[j]))
    {
      if !connected {
        return [];
      }
      var found := ListWhere(db.categories, MatchesAll(filters));
      cs := [];
      for i := 0 to |found|
        invariant |cs| == i
        invariant forall j :: 0 <= j < i ==> fresh(cs[j]) && cs[j].data == Listed(found[j])
                                             && cs[j].Rec() == FromData(cs[j].data, now)
      {
        var c := new Category(Listed(found[i]), now);
        cs := cs + [c];
      }
    }
  }
}
