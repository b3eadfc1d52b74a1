/**
 * The Express back end's view of the document store: the records it writes to the
 * `enrollments`, `courses` and `categories` collections, typed as the application writes
 * them, and the store as one map per collection from document id to record.
 */
module JsStore {
  import opened Base

  /** A lesson object inside a course; every field may be absent in a request body. */
  datatype Lesson = Lesson(id: Option<string>, title: Option<string>, duration: Option<int>, order: Option<int>)

  datatype EnrollmentDoc = EnrollmentDoc(
    userId: string,
    courseId: string,
    enrolledAt: int,
    progress: int,
    completedLessons: seq<string>,
    status: string,             // 'active', 'completed' or 'cancelled'
    lastAccessed: int,
    completionDate: Option<int>)

  datatype CourseDoc = CourseDoc(
    title: string,
    description: string,
    instructor: string,
    duration: int,
    difficulty: string,
    thumbnail: Option<string>,
    price: int,
    rating: int,
    studentsCount: int,
    category: string,
    lessons: seq<Lesson>,
    isPublished: bool,
    createdAt: int,
    updatedAt: int)

  datatype CategoryDoc = CategoryDoc(name: string, description: string, icon: string, coursesCount: int, createdAt: int)

  class Db {
    var enrollments: map<string, EnrollmentDoc>
    var courses: map<string, CourseDoc>
    var categories: map<string, CategoryDoc>

    constructor(enrollments: map<string, EnrollmentDoc>, courses: map<string, CourseDoc>,
                categories: map<string, CategoryDoc>)
      ensures this.enrollments == enrollments && this.courses == courses && this.categories == categories
    {
      this.enrollments := enrollments;
      this.courses := courses;
      this.categories := categories;
    }
  }

  /** A JavaScript string is truthy when it is present and non-empty. */
  predicate Truthy(s: Option<string>)
  {
    s.Some? && s.value != ""
  }

  /** `s || d` on an optional string. */
  function OrElse(s: Option<string>, d: string): (r: string)
    ensures Truthy(s) ==> r == s.value
    ensures !Truthy(s) ==> r == d
  {
    if Truthy(s) then s.value else d
  }

  /**
   * `this.id ? collection.doc(this.id) : collection.doc()`: the document a save writes,
   * the object's own id when it has a non-empty one and the generated `autoId` otherwise.
   */
  function SaveKey(id: Option<string>, autoId: string): (k: string)
    ensures Truthy(id) ==> k == id.value
    ensures !Truthy(id) ==> k == autoId
  {
    OrElse(id, autoId)
  }

  /** The id names a stored document, so a `doc(id).update(...)` succeeds. */
  predicate Stored<T>(id: Option<string>, m: map<string, T>)
  {
    Truthy(id) && id.value in m
  }

  /** `lesson.duration || 0`: a missing duration counts as zero minutes. */
  function Minutes(l: Lesson): int
  {
    if l.duration.Some? then l.duration.value else 0
  }

  /** `lessons.reduce((total, lesson) => total + (lesson.duration || 0), 0)` */
  function Duration(lessons: seq<Lesson>): int
  {
    if lessons == [] then 0 else Duration(lessons[..|lessons| - 1]) + Minutes(lessons[|lessons| - 1])
  }

  /** The total splits over concatenation. */
  lemma {:induction false} DurationAppend(a: seq<Lesson>, b: seq<Lesson>)
    ensures Duration(a + b) == Duration(a) + Duration(b)
    decreases |b|
  {
    if b == [] {
      assert a + b == a;
    } else {
      assert (a + b)[..|a + b| - 1] == a + b[..|b| - 1];
      assert (a + b)[|a + b| - 1] == b[|b| - 1];
      DurationAppend(a, b[..|b| - 1]);
    }
  }

  /** Lessons without a duration add nothing; with non-negative durations the total is a bound for each. */
  lemma {:induction false} DurationBounds(lessons: seq<Lesson>)
    requires forall i :: 0 <= i < |lessons| ==> Minutes(lessons[i]) >= 0
    ensures Duration(lessons) >= 0
    ensures forall i :: 0 <= i < |lessons| ==> Minutes(lessons[i]) <= Duration(lessons)
  {
    if lessons != [] {
      var init := lessons[..|lessons| - 1];
      DurationBounds(init);
      assert forall i :: 0 <= i < |init| ==> init[i] == lessons[i];
    }
  }
}
