/**
 * The Express `Course` model: a course object mirrors one document of the `courses`
 * collection; `update` writes fields with a fresh `updatedAt` and assigns them to the object;
 * lessons are numbered as they are added and the course's duration is their total; the
 * finders query the store and then filter and sort on the client.
 */
module JsCourse {
  import opened Base
  import opened Text
  import opened Ordering
  import opened Query
  import opened JsStore

  /** The constructor's argument; the fields it defaults with `||` are optional. */
  datatype CourseInit = CourseInit(
    title: string, description: string, instructor: string, duration: int, difficulty: string,
    thumbnail: Option<string>, price: int, rating: Option<int>, studentsCount: Option<int>, category: string,
    lessons: Option<seq<Lesson>>, isPublished: Option<bool>, createdAt: Option<int>, updatedAt: Option<int>)

  /** The record a new course object holds: rating and enrolment count 0, no lessons, unpublished, stamped `now`. */
  function Initial(init: CourseInit, now: int): (c: CourseDoc)
    ensures init.rating.None? ==> c.rating == 0
    ensures init.studentsCount.None? ==> c.studentsCount == 0
    ensures init.lessons.None? ==> c.lessons == []
    ensures init.isPublished.None? ==> !c.isPublished
    ensures init.createdAt.None? ==> c.createdAt == now
    ensures init.updatedAt.None? ==> c.updatedAt == now
    ensures c.title == init.title && c.description == init.description && c.category == init.category
  {
    CourseDoc(
      init.title, init.description, init.instructor, init.duration, init.difficulty, init.thumbnail, init.price,
      if init.rating.Some? then init.rating.value else 0,
      if init.studentsCount.Some? then init.studentsCount.value else 0,
      init.category,
      if init.lessons.Some? then init.lessons.value else [],
      if init.isPublished.Some? then init.isPublished.value else false,
      if init.createdAt.Some? then init.createdAt.value else now,
      if init.updatedAt.Some? then init.updatedAt.value else now)
  }

  /** Reading a stored record back through the constructor gives the record itself. */
  lemma FromStoredIsStored(doc: CourseDoc, now: int)
    ensures Initial(CourseInit(doc.title, doc.description, doc.instructor, doc.duration, doc.difficulty,
                               doc.thumbnail, doc.price, Some(doc.rating), Some(doc.studentsCount), doc.category,
                               Some(doc.lessons), Some(doc.isPublished), Some(doc.createdAt), Some(doc.updatedAt)), now)
            == doc
  {
  }

  /** The argument of `update`: the fields to assign. */
  datatype CoursePatch = CoursePatch(
    title: Option<string>, description: Option<string>, instructor: Option<string>, duration: Option<int>,
    difficulty: Option<string>, thumbnail: Option<Option<string>>, price: Option<int>, rating: Option<int>,
    studentsCount: Option<int>, category: Option<string>, lessons: Option<seq<Lesson>>,
    isPublished: Option<bool>, createdAt: Option<int>, updatedAt: Option<int>)

  const NoChange: CoursePatch :=
    CoursePatch(None, None, None, None, None, None, None, None, None, None, None, None, None, None)

  /** `Object.assign(record, patch)`: the given fields replaced, every other field kept. */
  function Patched(c: CourseDoc, p: CoursePatch): CourseDoc
  {
    CourseDoc(
      if p.title.Some? then p.title.value else c.title,
      if p.description.Some? then p.description.value else c.description,
      if p.instructor.Some? then p.instructor.value else c.instructor,
      if p.duration.Some? then p.duration.value else c.duration,
      if p.difficulty.Some? then p.difficulty.value else c.difficulty,
      if p.thumbnail.Some? then p.thumbnail.value else c.thumbnail,
      if p.price.Some? then p.price.value else c.price,
      if p.rating.Some? then p.rating.value else c.rating,
      if p.studentsCount.Some? then p.studentsCount.value else c.studentsCount,
      if p.category.Some? then p.category.value else c.category,
      if p.lessons.Some? then p.lessons.value else c.lessons,
      if p.isPublished.Some? then p.isPublished.value else c.isPublished,
      if p.createdAt.Some? then p.createdAt.value else c.createdAt,
      if p.updatedAt.Some? then p.updatedAt.value else c.updatedAt)
  }

  /** `update` always adds the update time to the fields it writes. */
  function Stamped(p: CoursePatch, now: int): CoursePatch
  {
    p.(updatedAt := Some(now))
  }

  /** An update changes the update time and the given fields, and nothing else. */
  lemma UpdateOnlyGiven(c: CourseDoc, p: CoursePatch, now: int)
    ensures var c' := Patched(c, Stamped(p, now));
      && c'.updatedAt == now
      && (p.studentsCount.None? ==> c'.studentsCount == c.studentsCount)
      && (p.lessons.None? ==> c'.lessons == c.lessons)
      && (p.isPublished.None? ==> c'.isPublished == c.isPublished)
      && (p.createdAt.None? ==> c'.createdAt == c.createdAt)
      && Patched(c', Stamped(p, now)) == c'
  {
  }

  /** The lesson `addLesson` appends: its own non-empty id or the generated one, numbered after the others. */
  function Numbered(lesson: Lesson, stampId: string, count: nat): Lesson
  {
    lesson.(id := Some(OrElse(lesson.id, stampId)), order := Some(count + 1))
  }

  /** The lessons after `addLesson`. */
  function WithLesson(lessons: seq<Lesson>, lesson: Lesson, stampId: string): seq<Lesson>
  {
    lessons + [Numbered(lesson, stampId, |lessons|)]
  }

  /** Lessons numbered 1, 2, ... in list order. */
  predicate InSequence(lessons: seq<Lesson>)
  {
    forall i :: 0 <= i < |lessons| ==> lessons[i].order == Some(i + 1)
  }

  /**
   * Adding a lesson keeps the others, appends one lesson numbered after them that keeps a
   * supplied id, keeps the numbering in sequence, and adds its minutes (0 when it has none)
   * to the total duration.
   */
  lemma AddLessonEffect(lessons: seq<Lesson>, lesson: Lesson, stampId: string)
    ensures var ls := WithLesson(lessons, lesson, stampId);
      && |ls| == |lessons| + 1 && ls[..|lessons|] == lessons
      && ls[|lessons|].order == Some(|lessons| + 1)
      && ls[|lessons|].title == lesson.title && ls[|lessons|].duration == lesson.duration
      && (Truthy(lesson.id) ==> ls[|lessons|].id == lesson.id)
      && (!Truthy(lesson.id) ==> ls[|lessons|].id == Some(stampId))
      && (InSequence(lessons) ==> InSequence(ls))
      && Duration(ls) == Duration(lessons) + Minutes(lesson)
  {
    var ls := WithLesson(lessons, lesson, stampId);
    assert ls[..|ls| - 1] == lessons;
  }

  /** The sort key of a course field as the store and the client compare it; other names have none. */
  function FieldKey(field: string, c: CourseDoc): SortValue
  {
    match field
    case "title" => Text(c.title)
    case "description" => Text(c.description)
    case "instructor" => Text(c.instructor)
    case "difficulty" => Text(c.difficulty)
    case "category" => Text(c.category)
    case "thumbnail" => if c.thumbnail.Some? then Text(c.thumbnail.value) else Undef
    case "duration" => Num(c.duration)
    case "price" => Num(c.price)
    case "rating" => Num(c.rating)
    case "studentsCount" => Num(c.studentsCount)
    case "isPublished" => Num(if c.isPublished then 1 else 0)
    case "createdAt" => Num(c.createdAt)
    case "updatedAt" => Num(c.updatedAt)
    case _ => Undef
  }

  function ByField(field: string): ((string, CourseDoc)) -> SortValue
  {
    (e: (string, CourseDoc)) => FieldKey(field, e.1)
  }

  /** `findAll`'s filter object; an absent field is `None`. */
  datatype Filters = Filters(
    isPublished: Option<bool>, category: Option<string>, sortBy: Option<string>, sortOrder: Option<string>,
    difficulty: Option<string>, limit: Option<nat>)

  /** The conditions a course must meet to be listed under the given filters. */
  predicate Matches(f: Filters, c: CourseDoc)
  {
    && (f.isPublished.Some? ==> c.isPublished == f.isPublished.value)
    && (f.isPublished.None? && Truthy(f.category) ==> c.category == f.category.value)
    && (Truthy(f.difficulty) ==> c.difficulty == f.difficulty.value)
  }

  /** The server query's equality filters and the field it orders on, if any (`None` is document-id order). */
  datatype ServerQuery = ServerQuery(keep: CourseDoc -> bool, orderBy: Option<string>, desc: bool)

  /** The query `findAll` sends to the store. */
  function ServerQueryOf(f: Filters): (q: ServerQuery)
    ensures forall c :: q.keep(c) && (f.isPublished.Some? || Truthy(f.category)) ==>
      (f.isPublished.Some? ==> c.isPublished == f.isPublished.value)
      && (f.isPublished.None? ==> c.category == f.category.value)
    ensures forall c :: q.keep(c) && f.isPublished.None? && !Truthy(f.category) && Truthy(f.difficulty) ==>
      c.difficulty == f.difficulty.value
    ensures q.orderBy.Some? ==> forall c :: q.keep(c) ==> FieldKey(q.orderBy.value, c) != Undef
    ensures f.isPublished.Some? ==> q.orderBy.None? && forall c :: Matches(f, c) ==> q.keep(c)
    ensures f.isPublished.None? ==> forall c :: q.keep(c) <==>
      && (Truthy(f.category) ==> c.category == f.category.value)
      && (!Truthy(f.category) && Truthy(f.difficulty) ==> c.difficulty == f.difficulty.value)
      && (q.orderBy.Some? ==> FieldKey(q.orderBy.value, c) != Undef)
    // the order: newest first by default, `sortBy` without a category, `sortBy` within a category unless it is createdAt
    ensures f.isPublished.None? && !Truthy(f.category) && !Truthy(f.sortBy) ==> q.orderBy == Some("createdAt") && q.desc
    ensures f.isPublished.None? && !Truthy(f.category) && Truthy(f.sortBy) ==>
      q.orderBy == f.sortBy && (q.desc <==> f.sortOrder == Some("desc"))
    ensures f.isPublished.None? && Truthy(f.category) ==>
      && (q.orderBy.Some? <==> Truthy(f.sortBy) && f.sortBy.value != "createdAt")
      && (q.orderBy.Some? ==> q.orderBy == f.sortBy && (q.desc <==> f.sortOrder == Some("desc")))
  {
    var sortDesc := f.sortOrder == Some("desc");
    var byDifficulty := Truthy(f.difficulty) && f.isPublished != Some(true) && !Truthy(f.category);
    var q :=
      if f.isPublished.Some? then
        ServerQuery((c: CourseDoc) => c.isPublished == f.isPublished.value, None, false)
      else if Truthy(f.category) then
        ServerQuery((c: CourseDoc) => c.category == f.category.value,
                    if Truthy(f.sortBy) && f.sortBy.value != "createdAt" then f.sortBy else None, sortDesc)
      else if Truthy(f.sortBy) then ServerQuery((c: CourseDoc) => true, f.sortBy, sortDesc)
      else ServerQuery((c: CourseDoc) => true, Some("createdAt"), true);
    var keep := (c: CourseDoc) =>
      q.keep(c) && (byDifficulty ==> c.difficulty == f.difficulty.value)
      && (q.orderBy.Some? ==> FieldKey(q.orderBy.value, c) != Undef);
    q.(keep := keep)
  }

  /** `search`'s client-side condition: published, and the term in the title, description or instructor, ignoring case. */
  predicate Hit(term: string, c: CourseDoc)
  {
    c.isPublished
    && (Contains(Lower(c.title), Lower(term)) || Contains(Lower(c.description), Lower(term))
        || Contains(Lower(c.instructor), Lower(term)))
  }

  /** The courses `search(term, category)` returns. */
  predicate SearchHit(term: string, category: Option<string>, c: CourseDoc)
  {
    (Truthy(category) ==> c.category == category.value) && Hit(term, c)
  }

  /** The search ignores case on both sides. */
  lemma SearchIgnoresCase(term: string, c: CourseDoc)
    ensures Hit(term, c) == Hit(Lower(term), c)
  {
    LowerIdempotent(term);
  }

  class Course {
    var id: Option<string>
    var title: string
    var description: string
    var instructor: string
    var duration: int
    var difficulty: string
    var thumbnail: Option<string>
    var price: int
    var rating: int
    var studentsCount: int
    var category: string
    var lessons: seq<Lesson>
    var isPublished: bool
    var createdAt: int
    var updatedAt: int

    /** The record `save` writes for this object. */
    function Doc(): CourseDoc
      reads this
    {
      CourseDoc(title, description, instructor, duration, difficulty, thumbnail, price, rating, studentsCount,
                category, lessons, isPublished, createdAt, updatedAt)
    }

    constructor(id: Option<string>, init: CourseInit, now: int)
      ensures this.id == id && Doc() == Initial(init, now)
    {
      var c := Initial(init, now);
      this.id := id;
      title, description, instructor, duration, difficulty := c.title, c.description, c.instructor, c.duration, c.difficulty;
      thumbnail, price, rating, studentsCount, category := c.thumbnail, c.price, c.rating, c.studentsCount, c.category;
      lessons, isPublished, createdAt, updatedAt := c.lessons, c.isPublished, c.createdAt, c.updatedAt;
    }

    /**
     * Assigns the descriptive fields of the record to the object: the first half of
     * `Object.assign(this, updates)`. The assignment is split in two methods, each framing
     * seven fields, so that the proof about each half stays small; `Update` calls both.
     */
    method AssignContent(c: CourseDoc)
      modifies this`title, this`description, this`instructor, this`duration, this`difficulty, this`thumbnail, this`price
      ensures title == c.title && description == c.description && instructor == c.instructor
      ensures duration == c.duration && difficulty == c.difficulty && thumbnail == c.thumbnail && price == c.price
    {
      title, description, instructor, duration, difficulty, thumbnail, price :=
        c.title, c.description, c.instructor, c.duration, c.difficulty, c.thumbnail, c.price;
    }

    /** Assigns the remaining seven fields of the record to the object: the second half of `Object.assign`. */
    method AssignState(c: CourseDoc)
      modifies this`rating, this`studentsCount, this`category, this`lessons, this`isPublished, this`createdAt,
               this`updatedAt
      ensures rating == c.rating && studentsCount == c.studentsCount && category == c.category
      ensures lessons == c.lessons && isPublished == c.isPublished && createdAt == c.createdAt
      ensures updatedAt == c.updatedAt
    {
      rating, studentsCount, category, lessons, isPublished, createdAt, updatedAt :=
        c.rating, c.studentsCount, c.category, c.lessons, c.isPublished, c.createdAt, c.updatedAt;
    }

    /**
     * `save()`: takes a generated id when it has none, stamps `updatedAt`, then writes the whole
     * record under the id. The store refuses a record holding an `undefined` field, and the
     * only field a course can leave undefined is `thumbnail`: then nothing is written and
     * `ok` is false, although the id and the stamp are already set.
     */
    method Save(db: Db, now: int, autoId: string) returns (ok: bool)
      modifies this`id, this`updatedAt, db`courses
      ensures id == Some(SaveKey(old(id), autoId))
      ensures Doc() == old(Doc()).(updatedAt := now)
      ensures ok <==> thumbnail.Some?
      ensures db.courses == if ok then old(db.courses)[id.value := Doc()] else old(db.courses)
    {
      var key := SaveKey(id, autoId);
      id := Some(key);
      updatedAt := now;
      if thumbnail.None? {
        return false;
      }
      db.courses := db.courses[key := Doc()];
      return true;
    }

    /** `findById(id)`: the stored course, or null. */
    static method FindById(db: Db, id: string, now: int) returns (c: Course?)
      ensures c == null <==> id !in db.courses
      ensures c != null ==> fresh(c) && c.id == Some(id) && c.Doc() == db.courses[id]
    {
      if id !in db.courses {
        return null;
      }
      var doc := db.courses[id];
      c := new Course(Some(id), CourseInit(doc.title, doc.description, doc.instructor, doc.duration, doc.difficulty,
                                           doc.thumbnail, doc.price, Some(doc.rating), Some(doc.studentsCount),
                                           doc.category, Some(doc.lessons), Some(doc.isPublished),
                                           Some(doc.createdAt), Some(doc.updatedAt)), now);
    }

    /**
     * `update(updates)`: the update time is added to the fields, they are written to the
     * stored document, which must exist, and then assigned to the object. When the store
     * refuses the write nothing changes and `ok` is false.
     */
    method Update(patch: CoursePatch, db: Db, now: int) returns (ok: bool)
      modifies this, db`courses
      ensures id == old(id)
      ensures ok <==> Stored(old(id), old(db.courses))
      ensures ok ==>
        && Doc() == Patched(old(Doc()), Stamped(patch, now))
        && db.courses == old(db.courses)[id.value := Patched(old(db.courses)[id.value], Stamped(patch, now))]
      ensures !ok ==> Doc() == old(Doc()) && db.courses == old(db.courses)
    {
      if !Stored(id, db.courses) {
        return false;
      }
      var updates := Stamped(patch, now);
      db.courses := db.courses[id.value := Patched(db.courses[id.value], updates)];
      var c := Patched(Doc(), updates);
      AssignContent(c);
      AssignState(c);
      return true;
    }

    /**
     * `addLesson(lesson)`: appends the numbered lesson, recomputes the duration, then writes
     * both through `update`. The append and the new duration stay on the object when the write fails.
     */
    method AddLesson(lesson: Lesson, stampId: string, db: Db, now: int) returns (ok: bool)
      modifies this, db`courses
      ensures id == old(id)
      ensures lessons == WithLesson(old(lessons), lesson, stampId)
      ensures duration == Duration(lessons)
      ensures ok <==> Stored(old(id), old(db.courses))
      ensures ok ==>
        var p := Stamped(NoChange.(lessons := Some(lessons), duration := Some(duration)), now);
        && Doc() == Patched(old(Doc()), p)
        && db.courses == old(db.courses)[id.value := Patched(old(db.courses)[id.value], p)]
      ensures !ok ==> Doc() == old(Doc()).(lessons := lessons, duration := duration) && db.courses == old(db.courses)
    {
      lessons := WithLesson(lessons, lesson, stampId);
      duration := Duration(lessons);
      ok := Update(NoChange.(lessons := Some(lessons), duration := Some(duration)), db, now);
    }

    /** `updateStudentsCount(count)`: writes the count through `update`. */
    method UpdateStudentsCount(count: int, db: Db, now: int) returns (ok: bool)
      modifies this, db`courses
      ensures id == old(id)
      ensures ok <==> Stored(old(id), old(db.courses))
      ensures ok ==>
        && Doc() == old(Doc()).(studentsCount := count, updatedAt := now)
        && db.courses == old(db.courses)[id.value := old(db.courses)[id.value].(studentsCount := count, updatedAt := now)]
      ensures !ok ==> Doc() == old(Doc()) && db.courses == old(db.courses)
    {
      ok := Update(NoChange.(studentsCount := Some(count)), db, now);
    }
  }

  /** The key the server query orders on: its `orderBy` field, or the document id. */
  function ServerKey(q: ServerQuery): ((string, CourseDoc)) -> SortValue
  {
    if q.orderBy.Some? then ByField(q.orderBy.value) else IdKey
  }

  /** Whether the server query orders descending (document-id order is ascending). */
  function ServerDesc(q: ServerQuery): bool
  {
    q.orderBy.Some? && q.desc
  }

  /**
   * The first half of `findAll`: the server query with its order and limit. The results are
   * in the query's order, and a course the limit drops comes after every course it keeps.
   */
  method ServerResults(db: Db, f: Filters) returns (s: seq<(string, CourseDoc)>)
    ensures forall e :: e in s ==> e.0 in db.courses && db.courses[e.0] == e.1 && ServerQueryOf(f).keep(e.1)
    ensures DistinctIds(s)
    ensures f.limit.Some? && f.limit.value > 0 ==> |s| <= f.limit.value
    ensures f.limit.None? || f.limit.value == 0 ==>
      forall id :: id in db.courses && ServerQueryOf(f).keep(db.courses[id]) ==> (id, db.courses[id]) in s
    ensures SortedOn(s, ServerKey(ServerQueryOf(f)), ServerDesc(ServerQueryOf(f)))
    ensures forall e, id :: e in s && id in db.courses && ServerQueryOf(f).keep(db.courses[id]) && (id, db.courses[id]) !in s ==>
      InOrder(ServerKey(ServerQueryOf(f))(e), ServerKey(ServerQueryOf(f))((id, db.courses[id])), ServerDesc(ServerQueryOf(f)))
  {
    var q := ServerQueryOf(f);
    var found := ListWhere(db.courses, q.keep);
    var ordered := found;
    if q.orderBy.Some? {
      ordered := SortOn(found, ByField(q.orderBy.value), q.desc);
      SortKeepsSelection(found, db.courses, q.keep, ByField(q.orderBy.value), q.desc);
      SortOnSorted(found, ByField(q.orderBy.value), q.desc);
    }
    assert SelectionOf(ordered, db.courses, q.keep);
    s := ordered;
    if f.limit.Some? && f.limit.value > 0 {
      s := Limit(ordered, f.limit.value);
      LimitKeepsFirst(ordered, f.limit.value, ServerKey(q), ServerDesc(q));
      forall e, id | e in s && id in db.courses && q.keep(db.courses[id]) && (id, db.courses[id]) !in s
        ensures InOrder(ServerKey(q)(e), ServerKey(q)((id, db.courses[id])), ServerDesc(q))
      {
        assert (id, db.courses[id]) in ordered;
      }
    }
  }

  /** `course.isPublished === b`. */
  function PublishedIs(b: bool): CourseDoc -> bool
  {
    (c: CourseDoc) => c.isPublished == b
  }

  /** `course.difficulty === d`. */
  function DifficultyIs(d: string): CourseDoc -> bool
  {
    (c: CourseDoc) => c.difficulty == d
  }

  /** The client-side filters of `findAll`: `isPublished` when given, and difficulty after a filtered query. */
  function ClientFiltered(s: seq<(string, CourseDoc)>, f: Filters): (r: seq<(string, CourseDoc)>)
    ensures forall e :: e in r <==> (
      && e in s
      && (f.isPublished.Some? ==> e.1.isPublished == f.isPublished.value)
      && (Truthy(f.difficulty) && (f.isPublished.Some? || Truthy(f.category)) ==> e.1.difficulty == f.difficulty.value))
  {
    var byPublished := if f.isPublished.Some? then Filter(s, PublishedIs(f.isPublished.value)) else s;
    if Truthy(f.difficulty) && (f.isPublished.Some? || Truthy(f.category))
    then Filter(byPublished, DifficultyIs(f.difficulty.value))
    else byPublished
  }

  /** The client-side filters keep the order of what they filter. */
  lemma ClientFilteredSorted(s: seq<(string, CourseDoc)>, f: Filters, key: ((string, CourseDoc)) -> SortValue, desc: bool)
    requires SortedOn(s, key, desc)
    ensures SortedOn(ClientFiltered(s, f), key, desc)
  {
    var byPublished := if f.isPublished.Some? then Filter(s, PublishedIs(f.isPublished.value)) else s;
    if f.isPublished.Some? {
      FilterSorted(s, PublishedIs(f.isPublished.value), key, desc);
    }
    if Truthy(f.difficulty) && (f.isPublished.Some? || Truthy(f.category)) {
      FilterSorted(byPublished, DifficultyIs(f.difficulty.value), key, desc);
    }
  }

  /**
   * `findAll(filters)`: the server query, its limit, then the client-side filters and, when
   * `isPublished` and `sortBy` are both given, the client-side sort. Courses come back as
   * (id, record) pairs: newest first by default, on `sortBy` when no category is given, on
   * `sortBy` within a category unless it is `createdAt`, and otherwise in document-id order.
   */
  method FindAll(db: Db, f: Filters) returns (r: seq<(string, CourseDoc)>)
    ensures forall e :: e in r ==> e.0 in db.courses && db.courses[e.0] == e.1 && Matches(f, e.1)
    ensures f.limit.Some? && f.limit.value > 0 ==> |r| <= f.limit.value
    ensures f.isPublished.Some? && Truthy(f.sortBy) ==> SortedOn(r, ByField(f.sortBy.value), f.sortOrder == Some("desc"))
    ensures f.isPublished.Some? && !Truthy(f.sortBy) ==> SortedOn(r, IdKey, false)
    ensures f.isPublished.None? && !Truthy(f.category) && !Truthy(f.sortBy) ==> SortedOn(r, ByField("createdAt"), true)
    ensures f.isPublished.None? && !Truthy(f.category) && Truthy(f.sortBy) ==>
      SortedOn(r, ByField(f.sortBy.value), f.sortOrder == Some("desc"))
    ensures f.isPublished.None? && Truthy(f.category) && Truthy(f.sortBy) && f.sortBy.value != "createdAt" ==>
      SortedOn(r, ByField(f.sortBy.value), f.sortOrder == Some("desc"))
    ensures f.isPublished.None? && Truthy(f.category) && !(Truthy(f.sortBy) && f.sortBy.value != "createdAt") ==>
      SortedOn(r, IdKey, false)
    ensures f.isPublished.Some? && (f.limit.None? || f.limit.value == 0) ==>
      forall id :: id in db.courses && Matches(f, db.courses[id]) ==> (id, db.courses[id]) in r
    ensures f.limit.None? || f.limit.value == 0 ==>
      forall id :: id in db.courses && ServerQueryOf(f).keep(db.courses[id]) && Matches(f, db.courses[id]) ==>
        (id, db.courses[id]) in r
  {
    var server := ServerResults(db, f);
    var courses := ClientFiltered(server, f);
    ClientFilteredSorted(server, f, ServerKey(ServerQueryOf(f)), ServerDesc(ServerQueryOf(f)));
    r := courses;
    if f.isPublished.Some? && Truthy(f.sortBy) {
      r := SortOn(courses, ByField(f.sortBy.value), f.sortOrder == Some("desc"));
      SortOnSameElements(courses, ByField(f.sortBy.value), f.sortOrder == Some("desc"));
      SortOnSorted(courses, ByField(f.sortBy.value), f.sortOrder == Some("desc"));
    }
    assert forall e :: e in r <==> e in courses;
    assert |r| <= |server|;
  }

  /**
   * `search(term, category)`: the courses of the category, when one is given, that are
   * published and mention the term, in document-id order.
   */
  method Search(db: Db, term: string, category: Option<string>) returns (r: seq<(string, CourseDoc)>)
    ensures SelectionOf(r, db.courses, (c: CourseDoc) => SearchHit(term, category, c))
    ensures SortedOn(r, IdKey, false)
  {
    var inCategory := (c: CourseDoc) => Truthy(category) ==> c.category == category.value;
    var found := ListWhere(db.courses, inCategory);
    r := Filter(found, (c: CourseDoc) => Hit(term, c));
    FilterSelection(found, db.courses, inCategory, (c: CourseDoc) => Hit(term, c),
                    (c: CourseDoc) => SearchHit(term, category, c));
    FilterSorted(found, (c: CourseDoc) => Hit(term, c), IdKey, false);
  }
}
