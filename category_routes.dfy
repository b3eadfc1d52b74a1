/**
 * The Express `/categories` routes over the `categories` collection: the listing ordered by
 * name, lookup, creation with its required fields and icon default, update and deletion,
 * each of the last three refusing a missing category with a 404 before any write.
 */
module CategoryRoutes {
  import opened Base
  import opened Ordering
  import opened Query
  import opened JsStore
  import opened Http

  function NameKey(e: (string, CategoryDoc)): SortValue
  {
    Text(e.1.name)
  }

  /** `GET /`: every category, ordered by name. */
  method ListCategories(db: Db) returns (res: Response<seq<(string, CategoryDoc)>>)
    ensures res.status == 200 && res.data.Some?
    ensures SelectionOf(res.data.value, db.categories, (c: CategoryDoc) => true)
    ensures SortedOn(res.data.value, NameKey, false)
  {
    var byName := ListOrdered(db.categories, (c: CategoryDoc) => true, NameKey, false);
    return Success(200, None, Some(byName));
  }

  /** `GET /:id` */
  method GetCategory(db: Db, id: string) returns (res: Response<(string, CategoryDoc)>)
    ensures id !in db.categories ==> res == Fail(404, "Category not found")
    ensures id in db.categories ==> res == Success(200, None, Some((id, db.categories[id])))
  {
    if id !in db.categories {
      return Fail(404, "Category not found");
    }
    return Success(200, None, Some((id, db.categories[id])));
  }

  /** The category `POST /` stores: icon `default` when none is given, no courses yet, created `now`. */
  function NewCategory(name: string, description: string, icon: Option<string>, now: int): (c: CategoryDoc)
    ensures c.name == name && c.description == description
    ensures Truthy(icon) ==> c.icon == icon.value
    ensures !Truthy(icon) ==> c.icon == "default"
    ensures c.coursesCount == 0 && c.createdAt == now
  {
    CategoryDoc(name, description, OrElse(icon, "default"), 0, now)
  }

  /** `POST /`: a missing name or description is a 400 and saves nothing; otherwise the category is saved under `autoId`. */
  method CreateCategory(db: Db, name: Option<string>, description: Option<string>, icon: Option<string>,
                        now: int, autoId: string) returns (res: Response<(string, CategoryDoc)>)
    modifies db`categories
    ensures !Truthy(name) || !Truthy(description) ==>
      res == Fail(400, "Name and description are required") && db.categories == old(db.categories)
    ensures Truthy(name) && Truthy(description) ==>
      var c := NewCategory(name.value, description.value, icon, now);
      && db.categories == old(db.categories)[autoId := c]
      && res == Success(201, Some("Category created successfully"), Some((autoId, c)))
  {
    if !Truthy(name) || !Truthy(description) {
      return Fail(400, "Name and description are required");
    }
    var c := NewCategory(name.value, description.value, icon, now);
    db.categories := db.categories[autoId := c];
    return Success(201, Some("Category created successfully"), Some((autoId, c)));
  }

  /**
   * The body of a category update: the fields to assign, and whether it also carries keys
   * outside the category's fields (they are written to the document but not modelled).
   */
  datatype CategoryPatch = CategoryPatch(
    name: Option<string>, description: Option<string>, icon: Option<string>, coursesCount: Option<int>,
    createdAt: Option<int>, otherKeys: bool)

  /** The body has no key at all, so `update` is given an empty object. */
  predicate EmptyPatch(p: CategoryPatch)
  {
    p.name.None? && p.description.None? && p.icon.None? && p.coursesCount.None? && p.createdAt.None? && !p.otherKeys
  }

  /** `Object.assign(category, updates)`: the given fields replaced, every other field kept. */
  function Patched(c: CategoryDoc, p: CategoryPatch): CategoryDoc
  {
    CategoryDoc(
      if p.name.Some? then p.name.value else c.name,
      if p.description.Some? then p.description.value else c.description,
      if p.icon.Some? then p.icon.value else c.icon,
      if p.coursesCount.Some? then p.coursesCount.value else c.coursesCount,
      if p.createdAt.Some? then p.createdAt.value else c.createdAt)
  }

  /** An update replaces exactly the given fields, and applying it again changes nothing more. */
  lemma PatchedFields(c: CategoryDoc, p: CategoryPatch)
    ensures var c' := Patched(c, p);
      && (p.name.Some? ==> c'.name == p.name.value) && (p.name.None? ==> c'.name == c.name)
      && (p.description.Some? ==> c'.description == p.description.value)
      && (p.description.None? ==> c'.description == c.description)
      && (p.icon.Some? ==> c'.icon == p.icon.value) && (p.icon.None? ==> c'.icon == c.icon)
      && (p.coursesCount.Some? ==> c'.coursesCount == p.coursesCount.value)
      && (p.coursesCount.None? ==> c'.coursesCount == c.coursesCount)
      && (p.createdAt.Some? ==> c'.createdAt == p.createdAt.value)
      && (p.createdAt.None? ==> c'.createdAt == c.createdAt)
      && Patched(c', p) == c'
  {
  }

  /**
   * `PUT /:id`: a missing category is a 404 and changes nothing. The store refuses an update
   * with no fields, so an empty body is a 500 that changes nothing. Otherwise the fields are written.
   */
  method UpdateCategory(db: Db, id: string, updates: CategoryPatch) returns (res: Response<(string, CategoryDoc)>)
    modifies db`categories
    ensures id !in old(db.categories) ==> res == Fail(404, "Category not found") && db.categories == old(db.categories)
    ensures id in old(db.categories) && EmptyPatch(updates) ==>
      res == Fail(500, "Failed to update category") && db.categories == old(db.categories)
    ensures id in old(db.categories) && !EmptyPatch(updates) ==>
      && db.categories == old(db.categories)[id := Patched(old(db.categories)[id], updates)]
      && res == Success(200, Some("Category updated successfully"), Some((id, db.categories[id])))
  {
    if id !in db.categories {
      return Fail(404, "Category not found");
    }
    if EmptyPatch(updates) {
      return Fail(500, "Failed to update category");
    }
    var c := Patched(db.categories[id], updates);
    db.categories := db.categories[id := c];
    return Success(200, Some("Category updated successfully"), Some((id, c)));
  }

  /** `DELETE /:id`: a missing category is a 404 and changes nothing; otherwise its document is removed. */
  method DeleteCategory(db: Db, id: string) returns (res: Response<(string, CategoryDoc)>)
    modifies db`categories
    ensures id !in old(db.categories) ==> res == Fail(404, "Category not found") && db.categories == old(db.categories)
    ensures id in old(db.categories) ==>
      res == Success(200, Some("Category deleted successfully"), None) && db.categories == old(db.categories) - {id}
  {
    if id !in db.categories {
      return Fail(404, "Category not found");
    }
    db.categories := db.categories - {id};
    return Success(200, Some("Category deleted successfully"), None);
  }
}
