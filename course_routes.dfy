/**
 * The Express `/courses` routes: the published listing, search, lookup, creation with its
 * required fields and defaults, update with the duration recomputed from the lessons, adding
 * a lesson and deletion.
 */
module CourseRoutes {
  import opened Base
  import opened Ordering
  import opened Query
  import opened JsStore
  import opened Http
  import JsCourse

  /** `{ data: courses, count: courses.length }` */
  datatype Listing = Listing(courses: seq<(string, CourseDoc)>, count: int)

  /** `GET /`: the published courses, in document-id order, with their number. */
  method ListPublished(db: Db) returns (res: Response<Listing>)
    ensures res.status == 200 && res.data.Some?
    ensures res.data.value.count == |res.data.value.courses|
    ensures SelectionOf(res.data.value.courses, db.courses, (c: CourseDoc) => c.isPublished)
    ensures SortedOn(res.data.value.courses, IdKey, false)
  {
    var courses := ListWhere(db.courses, (c: CourseDoc) => c.isPublished);
    return Success(200, None, Some(Listing(courses, |courses|)));
  }

  /** `GET /search?q=...&category=...`: a missing or empty term is a 400; otherwise the search results. */
  method SearchCourses(db: Db, q: Option<string>, category: Option<string>) returns (res: Response<Listing>)
    ensures !Truthy(q) ==> res == Fail(400, "Search term is required")
    ensures Truthy(q) ==>
      && res.status == 200 && res.data.Some?
      && res.data.value.count == |res.data.value.courses|
      && SelectionOf(res.data.value.courses, db.courses, (c: CourseDoc) => JsCourse.SearchHit(q.value, category, c))
  {
    if !Truthy(q) {
      return Fail(400, "Search term is required");
    }
    var courses := JsCourse.Search(db, q.value, category);
    return Success(200, None, Some(Listing(courses, |courses|)));
  }

  /** `GET /:id` */
  method GetCourse(db: Db, id: string) returns (res: Response<(string, CourseDoc)>)
    ensures id !in db.courses ==> res == Fail(404, "Course not found")
    ensures id in db.courses ==> res == Success(200, None, Some((id, db.courses[id])))
  {
    var course := JsCourse.Course.FindById(db, id, 0);
    if course == null {
      return Fail(404, "Course not found");
    }
    return Success(200, None, Some((id, course.Doc())));
  }

  /** The body of a course creation request; every field may be absent. */
  datatype CourseBody = CourseBody(
    title: Option<string>, description: Option<string>, instructor: Option<string>, difficulty: Option<string>,
    thumbnail: Option<string>, price: Option<int>, category: Option<string>, lessons: Option<seq<Lesson>>)

  /** A creation request carries a non-empty title, description and category. */
  predicate Complete(body: CourseBody)
  {
    Truthy(body.title) && Truthy(body.description) && Truthy(body.category)
  }

  /** The course `POST /` builds from a complete body. */
  function NewCourse(body: CourseBody, now: int): CourseDoc
    requires Complete(body)
  {
    JsCourse.Initial(JsCourse.CourseInit(
      body.title.value, body.description.value, OrElse(body.instructor, "Unknown"),
      if body.lessons.Some? then Duration(body.lessons.value) else 0,
      OrElse(body.difficulty, "Beginner"), body.thumbnail,
      if body.price.Some? && body.price.value != 0 then body.price.value else 0,
      None, None, body.category.value,
      Some(if body.lessons.Some? then body.lessons.value else []),
      None, None, None), now)
  }

  /**
   * A new course has instructor `Unknown`, difficulty `Beginner`, price 0 and no lessons unless
   * given, a duration that is the sum of its lessons' minutes, no students, no rating, and is
   * not published.
   */
  lemma NewCourseDefaults(body: CourseBody, now: int)
    requires Complete(body)
    ensures var c := NewCourse(body, now);
      && c.title == body.title.value && c.description == body.description.value && c.category == body.category.value
      && (!Truthy(body.instructor) ==> c.instructor == "Unknown")
      && (!Truthy(body.difficulty) ==> c.difficulty == "Beginner")
      && (body.price.None? ==> c.price == 0)
      && (body.lessons.None? ==> c.lessons == [])
      && c.duration == Duration(c.lessons)
      && c.studentsCount == 0 && c.rating == 0 && !c.isPublished
      && c.createdAt == now && c.updatedAt == now
  {
  }

  /**
   * `POST /`: an incomplete body is a 400 and saves nothing. A body without a thumbnail leaves
   * the course's `thumbnail` undefined, the store refuses the write and the handler answers 500.
   * Otherwise the course is saved under `autoId`.
   */
  method CreateCourse(db: Db, body: CourseBody, now: int, autoId: string) returns (res: Response<(string, CourseDoc)>)
    modifies db`courses
    ensures !Complete(body) ==>
      res == Fail(400, "Title, description, and category are required") && db.courses == old(db.courses)
    ensures Complete(body) && body.thumbnail.None? ==>
      res == Fail(500, "Failed to create course") && db.courses == old(db.courses)
    ensures Complete(body) && body.thumbnail.Some? ==>
      && res == Success(201, Some("Course created successfully"), Some((autoId, NewCourse(body, now))))
      && db.courses == old(db.courses)[autoId := NewCourse(body, now)]
  {
    if !Complete(body) {
      return Fail(400, "Title, description, and category are required");
    }
    var duration := if body.lessons.Some? then Duration(body.lessons.value) else 0;
    var course := new JsCourse.Course(None, JsCourse.CourseInit(
      body.title.value, body.description.value, OrElse(body.instructor, "Unknown"), duration,
      OrElse(body.difficulty, "Beginner"), body.thumbnail,
      if body.price.Some? && body.price.value != 0 then body.price.value else 0,
      None, None, body.category.value,
      Some(if body.lessons.Some? then body.lessons.value else []),
      None, None, None), now);
    var saved := course.Save(db, now, autoId);
    if !saved {
      return Fail(500, "Failed to create course");
    }
    return Success(201, Some("Course created successfully"), Some((course.id.value, course.Doc())));
  }

  /** `if (updates.lessons) updates.duration = sum of their minutes` */
  function Recomputed(updates: JsCourse.CoursePatch): (p: JsCourse.CoursePatch)
    ensures p.lessons == updates.lessons
    ensures p.lessons.Some? ==> p.duration == Some(Duration(p.lessons.value))
    ensures p.lessons.None? ==> p == updates
  {
    if updates.lessons.Some? then updates.(duration := Some(Duration(updates.lessons.value))) else updates
  }

  /** After an update that carries lessons, the stored duration is their total. */
  lemma UpdatedDuration(c: CourseDoc, updates: JsCourse.CoursePatch, now: int)
    requires updates.lessons.Some?
    ensures var c' := JsCourse.Patched(c, JsCourse.Stamped(Recomputed(updates), now));
      c'.lessons == updates.lessons.value && c'.duration == Duration(c'.lessons)
  {
  }

  /** `PUT /:id`: a missing course is a 404; otherwise the fields are written, duration recomputed from lessons. */
  method UpdateCourse(db: Db, id: string, updates: JsCourse.CoursePatch, now: int) returns (res: Response<(string, CourseDoc)>)
    requires id != ""  // `:id` only matches a non-empty path segment
    modifies db`courses
    ensures id !in old(db.courses) ==> res == Fail(404, "Course not found") && db.courses == old(db.courses)
    ensures id in old(db.courses) ==>
      && db.courses == old(db.courses)[id := JsCourse.Patched(old(db.courses)[id], JsCourse.Stamped(Recomputed(updates), now))]
      && res == Success(200, Some("Course updated successfully"), Some((id, db.courses[id])))
  {
    var course := JsCourse.Course.FindById(db, id, now);
    if course == null {
      return Fail(404, "Course not found");
    }
    var ok := course.Update(Recomputed(updates), db, now);
    return Success(200, Some("Course updated successfully"), Some((id, course.Doc())));
  }

  /** `POST /:id/lessons`: a missing course is a 404; otherwise the lesson is added. */
  method AddLesson(db: Db, id: string, lesson: Lesson, stampId: string, now: int) returns (res: Response<(string, CourseDoc)>)
    requires id != ""  // `:id` only matches a non-empty path segment
    modifies db`courses
    ensures id !in old(db.courses) ==> res == Fail(404, "Course not found") && db.courses == old(db.courses)
    ensures id in old(db.courses) ==>
      var lessons := JsCourse.WithLesson(old(db.courses)[id].lessons, lesson, stampId);
      && db.courses == old(db.courses)[id := old(db.courses)[id].(lessons := lessons, duration := Duration(lessons), updatedAt := now)]
      && res == Success(200, Some("Lesson added successfully"), Some((id, db.courses[id])))
  {
    var course := JsCourse.Course.FindById(db, id, now);
    if course == null {
      return Fail(404, "Course not found");
    }
    var ok := course.AddLesson(lesson, stampId, db, now);
    return Success(200, Some("Lesson added successfully"), Some((id, course.Doc())));
  }

  /** `DELETE /:id`: a missing course is a 404; otherwise its document is removed. */
  method DeleteCourse(db: Db, id: string) returns (res: Response<(string, CourseDoc)>)
    modifies db`courses
    ensures id !in old(db.courses) ==> res == Fail(404, "Course not found") && db.courses == old(db.courses)
    ensures id in old(db.courses) ==>
      res == Success(200, Some("Course deleted successfully"), None) && db.courses == old(db.courses) - {id}
  {
    if id !in db.courses {
      return Fail(404, "Course not found");
    }
    db.courses := db.courses - {id};
    return Success(200, Some("Course deleted successfully"), None);
  }
}
