/**
 * The Python `Enrollment` model: one document per (user, course) pair in the `enrollments`
 * collection, with a progress dict that `update_progress` fills in, a completion step that
 * also updates the user's statistics, and a review.
 */
module PyEnrollment {
  import opened Base
  import opened Json
  import opened Ordering
  import opened Query
  import opened PyStore
  import PyUser

  /** The attributes of an `Enrollment`, in the order `to_dict` lists them. */
  datatype EnrollmentRec = EnrollmentRec(
    enrollmentId: Value, userId: Value, courseId: Value, enrolledAt: Value, progress: Value,
    status: Value, completedAt: Value, certificateIssued: Value, rating: Value, review: Value,
    reviewedAt: Value)

  /** The progress block of a new enrollment (`completion_percentage` is the float 0.0 in Python). */
  const DefaultProgress: Value := Obj([
    Field("completed_lessons", Arr([])),
    Field("current_lesson", Int(0)),
    Field("completion_percentage", Int(0)),
    Field("total_time_spent", Int(0)),
    Field("last_accessed", Null)])

  /**
   * `Enrollment(**kw)`: a falsy `enrollment_id` is replaced by a generated id (`freshId`) and a
   * falsy `enrolled_at` by the clock reading `now`; the other attributes take their defaults.
   */
  function FromDict(kw: Dict, freshId: string, now: int): EnrollmentRec
  {
    EnrollmentRec(
      Or(GetOr(kw, "enrollment_id", Null), Str(freshId)), GetOr(kw, "user_id", Null),
      GetOr(kw, "course_id", Null), Or(GetOr(kw, "enrolled_at", Null), Time(now)),
      GetOr(kw, "progress", DefaultProgress), GetOr(kw, "status", Str("active")),
      GetOr(kw, "completed_at", Null), GetOr(kw, "certificate_issued", Bool(false)),
      GetOr(kw, "rating", Null), GetOr(kw, "review", Null), GetOr(kw, "reviewed_at", Null))
  }

  /** The attribute names `to_dict` writes, in order. */
  const EnrollmentKeys: seq<string> := ["enrollment_id", "user_id", "course_id", "enrolled_at", "progress",
    "status", "completed_at", "certificate_issued", "rating", "review", "reviewed_at"]

  lemma EnrollmentKeysDistinct()
    ensures Distinct(EnrollmentKeys)
  {
    forall i, j | 0 <= i < j < |EnrollmentKeys|
      ensures EnrollmentKeys[i] != EnrollmentKeys[j]
    {
      if |EnrollmentKeys[i]| == |EnrollmentKeys[j]| {
        assert EnrollmentKeys[i][0] != EnrollmentKeys[j][0] || EnrollmentKeys[i][1] != EnrollmentKeys[j][1];
      }
    }
  }

  /** `to_dict`: every attribute under its Python name, each key once. */
  function ToDict(e: EnrollmentRec): (d: Dict)
    ensures UniqueKeys(d)
    ensures Keys(d) == EnrollmentKeys
  {
    var d := Zip(EnrollmentKeys, [e.enrollmentId, e.userId, e.courseId, e.enrolledAt, e.progress, e.status,
      e.completedAt, e.certificateIssued, e.rating, e.review, e.reviewedAt]);
    EnrollmentKeysDistinct();
    DistinctKeyList(d);
    d
  }

  /**
   * `from_dict(to_dict(e))` gives back `e`, whatever id and clock reading are at hand, as long
   * as the id and the enrolment time are set.
   */
  lemma RoundTrip(e: EnrollmentRec, freshId: string, now: int)
    requires Truthy(e.enrollmentId) && Truthy(e.enrolledAt)
    ensures FromDict(ToDict(e), freshId, now) == e
  {
    var d := ToDict(e);
    UniqueGet(d);
    assert d[0].key == "enrollment_id" && d[1].key == "user_id" && d[2].key == "course_id";
    assert d[3].key == "enrolled_at" && d[4].key == "progress" && d[5].key == "status";
    assert d[6].key == "completed_at" && d[7].key == "certificate_issued" && d[8].key == "rating";
    assert d[9].key == "review" && d[10].key == "reviewed_at";
  }

  /** The (user, course) pair a stored enrollment document is for, when it names both. */
  function PairOf(doc: Dict): Option<(Value, Value)>
  {
    if HasKey(doc, "user_id") && HasKey(doc, "course_id")
    then Some((Get(doc, "user_id").value, Get(doc, "course_id").value))
    else None
  }

  /** The stored document of `e` names `e`'s user and course. */
  lemma ToDictPair(e: EnrollmentRec)
    ensures PairOf(ToDict(e)) == Some((e.userId, e.courseId))
  {
    var d := ToDict(e);
    UniqueGet(d);
    assert d[1].key == "user_id" && d[2].key == "course_id";
  }

  /** The user already has an enrollment document for the course. */
  predicate Enrolled(m: map<string, Dict>, userId: Value, courseId: Value)
  {
    exists id :: id in m && PairOf(m[id]) == Some((userId, courseId))
  }

  /** At most one enrollment document per (user, course) pair. */
  predicate OnePerPair(m: map<string, Dict>)
  {
    forall a, b :: a in m && b in m && PairOf(m[a]).Some? && PairOf(m[a]) == PairOf(m[b]) ==> a == b
  }

  /** Adding a document under a new id for a pair that has none keeps one enrollment per pair. */
  lemma AddKeepsOnePerPair(m: map<string, Dict>, id: string, doc: Dict)
    requires OnePerPair(m) && id !in m
    requires PairOf(doc).Some? ==> !Enrolled(m, PairOf(doc).value.0, PairOf(doc).value.1)
    ensures OnePerPair(m[id := doc])
  {
    var m' := m[id := doc];
    forall a, b | a in m' && b in m' && PairOf(m'[a]).Some? && PairOf(m'[a]) == PairOf(m'[b])
      ensures a == b
    {
      if a != id && b != id {
        assert m'[a] == m[a] && m'[b] == m[b];
      }
    }
  }

  /** The enrollment `create_enrollment` builds for a new pair. */
  function NewEnrollment(userId: Value, courseId: Value, freshId: string, now: int): EnrollmentRec
  {
    FromDict([Field("user_id", userId), Field("course_id", courseId)], freshId, now)
  }

  /**
   * The write `create_enrollment` makes for a pair that has no enrollment keeps one
   * enrollment per pair, as long as the generated id is new.
   */
  lemma CreateKeepsOnePerPair(m: map<string, Dict>, userId: Value, courseId: Value, freshId: string, now: int)
    requires OnePerPair(m) && !Enrolled(m, userId, courseId) && freshId !in m
    ensures OnePerPair(m[freshId := ToDict(NewEnrollment(userId, courseId, freshId, now))])
  {
    var e := NewEnrollment(userId, courseId, freshId, now);
    ToDictPair(e);
    NewEnrollmentPair(userId, courseId, freshId, now);
    AddKeepsOnePerPair(m, freshId, ToDict(e));
  }

  /**
   * A new enrollment is active, uncertified, unreviewed, has no completed lessons, no time spent
   * and current lesson 0, and carries the generated id, the clock reading and the given pair.
   */
  lemma NewEnrollmentDefaults(userId: Value, courseId: Value, freshId: string, now: int)
    ensures var e := NewEnrollment(userId, courseId, freshId, now);
      && e.enrollmentId == Str(freshId) && e.userId == userId && e.courseId == courseId
      && e.enrolledAt == Time(now) && e.status == Str("active") && e.certificateIssued == Bool(false)
      && e.completedAt == Null && e.rating == Null && e.review == Null && e.reviewedAt == Null
      && e.progress.Obj? && Get(e.progress.fields, "completed_lessons") == Some(Arr([]))
      && Get(e.progress.fields, "current_lesson") == Some(Int(0))
      && Get(e.progress.fields, "total_time_spent") == Some(Int(0))
  {
    NewEnrollmentArgs(userId, courseId);
  }

  /** The keyword arguments `create_enrollment` passes hold the pair and nothing else. */
  lemma NewEnrollmentArgs(userId: Value, courseId: Value)
    ensures var kw := [Field("user_id", userId), Field("course_id", courseId)];
      && Get(kw, "user_id") == Some(userId) && Get(kw, "course_id") == Some(courseId)
      && forall k :: k != "user_id" && k != "course_id" ==> Get(kw, k) == None
  {
    var kw := [Field("user_id", userId), Field("course_id", courseId)];
    DistinctKeysUnique(kw);
    UniqueGet(kw);
    assert kw[1].key == "course_id";
    forall k | k != "user_id" && k != "course_id"
      ensures Get(kw, k) == None
    {
      HasKeyIffInKeys(kw, k);
    }
  }

  lemma NewEnrollmentPair(userId: Value, courseId: Value, freshId: string, now: int)
    ensures NewEnrollment(userId, courseId, freshId, now).userId == userId
    ensures NewEnrollment(userId, courseId, freshId, now).courseId == courseId
    ensures NewEnrollment(userId, courseId, freshId, now).enrollmentId == Str(freshId)
  {
    NewEnrollmentArgs(userId, courseId);
  }

  /** `self.progress['completed_lessons']`, when the progress is a dict holding a list there. */
  function LessonsOf(p: Value): Option<seq<Value>>
  {
    if p.Obj? && HasKey(p.fields, "completed_lessons") && Get(p.fields, "completed_lessons").value.Arr?
    then Some(Get(p.fields, "completed_lessons").value.items)
    else None
  }

  /** The progress after the first step of `update_progress`: the lesson appended when absent. */
  function ProgressAppended(p: Value, lessonId: Value): Value
    requires LessonsOf(p).Some?
  {
    if lessonId in LessonsOf(p).value then p
    else Obj(Put(p.fields, "completed_lessons", Arr(LessonsOf(p).value + [lessonId])))
  }

  /** The last three assignments of `update_progress`: total time, access time and current lesson. */
  function Stamp(q: Dict, total: Value, now: int, current: int): Dict
  {
    Put(Put(Put(q, "total_time_spent", total), "last_accessed", Time(now)), "current_lesson", Int(current))
  }

  lemma StampGet(q: Dict, total: Value, now: int, current: int, k: string)
    ensures Get(Stamp(q, total, now, current), k) ==
      if k == "current_lesson" then Some(Int(current))
      else if k == "last_accessed" then Some(Time(now))
      else if k == "total_time_spent" then Some(total)
      else Get(q, k)
  {
    var q1 := Put(q, "total_time_spent", total);
    PutGet(Put(q1, "last_accessed", Time(now)), "current_lesson", Int(current), k);
    PutGet(q1, "last_accessed", Time(now), k);
    PutGet(q, "total_time_spent", total, k);
  }

  /**
   * The progress after the in-memory steps of `update_progress(lesson_id, time_spent)`;
   * `None` where one of them raises.
   */
  function ProgressAfter(p: Value, lessonId: Value, timeSpent: Value, now: int): Option<Value>
  {
    if LessonsOf(p).None? then None
    else
      var q := ProgressAppended(p, lessonId).fields;
      match Plus(GetOr(q, "total_time_spent", Null), timeSpent)
      case None => None
      case Some(t) =>
        var lessons := AddOnce(LessonsOf(p).value, lessonId);
        Some(Obj(Stamp(q, t, now, |lessons|)))
  }

  /** The appended progress holds the lesson list with the lesson added once; other keys keep their values. */
  lemma ProgressAppendedEffect(p: Value, lessonId: Value, k: string)
    requires LessonsOf(p).Some?
    ensures LessonsOf(ProgressAppended(p, lessonId)) == Some(AddOnce(LessonsOf(p).value, lessonId))
    ensures k != "completed_lessons" ==> Get(ProgressAppended(p, lessonId).fields, k) == Get(p.fields, k)
  {
    if lessonId !in LessonsOf(p).value {
      var v := Arr(LessonsOf(p).value + [lessonId]);
      PutGet(p.fields, "completed_lessons", v, k);
      PutGet(p.fields, "completed_lessons", v, "completed_lessons");
    }
  }

  /**
   * `update_progress` adds the lesson to the completed lessons only when absent, always adds
   * `time_spent` to the total (a repeated lesson included), stamps `last_accessed`, sets
   * `current_lesson` to the number of completed lessons, and keeps every other progress entry.
   */
  lemma ProgressAfterEffect(p: Value, lessonId: Value, timeSpent: Value, now: int, k: string)
    requires ProgressAfter(p, lessonId, timeSpent, now).Some?
    ensures LessonsOf(p).Some? && ProgressAfter(p, lessonId, timeSpent, now).value.Obj?
    ensures LessonsOf(ProgressAfter(p, lessonId, timeSpent, now).value) == Some(AddOnce(LessonsOf(p).value, lessonId))
    ensures Get(ProgressAfter(p, lessonId, timeSpent, now).value.fields, "total_time_spent")
              == Plus(GetOr(p.fields, "total_time_spent", Null), timeSpent)
    ensures Get(ProgressAfter(p, lessonId, timeSpent, now).value.fields, "last_accessed") == Some(Time(now))
    ensures Get(ProgressAfter(p, lessonId, timeSpent, now).value.fields, "current_lesson")
              == Some(Int(|AddOnce(LessonsOf(p).value, lessonId)|))
    ensures k !in ["completed_lessons", "total_time_spent", "last_accessed", "current_lesson"] ==>
              Get(ProgressAfter(p, lessonId, timeSpent, now).value.fields, k) == Get(p.fields, k)
  {
    var q := ProgressAppended(p, lessonId).fields;
    var t := Plus(GetOr(q, "total_time_spent", Null), timeSpent).value;
    var n := |AddOnce(LessonsOf(p).value, lessonId)|;
    ProgressAppendedEffect(p, lessonId, k);
    ProgressAppendedEffect(p, lessonId, "total_time_spent");
    StampGet(q, t, now, n, k);
    StampGet(q, t, now, n, "completed_lessons");
    StampGet(q, t, now, n, "total_time_spent");
    StampGet(q, t, now, n, "last_accessed");
    StampGet(q, t, now, n, "current_lesson");
  }

  /** `update_progress` never puts a lesson into the completed list twice. */
  lemma ProgressNoDup(p: Value, lessonId: Value, timeSpent: Value, now: int)
    requires ProgressAfter(p, lessonId, timeSpent, now).Some? && LessonsOf(p).Some? && NoDup(LessonsOf(p).value)
    ensures LessonsOf(ProgressAfter(p, lessonId, timeSpent, now).value).Some?
    ensures NoDup(LessonsOf(ProgressAfter(p, lessonId, timeSpent, now).value).value)
    ensures lessonId in LessonsOf(ProgressAfter(p, lessonId, timeSpent, now).value).value
  {
    ProgressAfterEffect(p, lessonId, timeSpent, now, "completed_lessons");
    AddOnceNoDup(LessonsOf(p).value, lessonId);
  }

  /**
   * The `users` collection after `User.get_by_id(uid)` and, when a user is found,
   * `increment_enrollment_count()`; `Raised` when the increment raises.
   */
  function CountWrite(users: map<string, Dict>, uid: Value, now: int, autoId: string): Outcome<map<string, Dict>>
  {
    match Lookup(users, uid)
    case None => Returned(users)
    case Some(doc) =>
      var u := PyUser.FromDict(doc, now);
      match AsNumber(u.enrollmentCount)
      case None => Raised
      case Some(n) =>
        var k := SetKey(u.uid, autoId);
        if k.None? then Returned(users)
        else Returned(users[k.value := PyUser.ToDict(u.(enrollmentCount := Int(n + 1), updatedAt := Time(now)))])
  }

  /** `CountWrite` when there is no such user. */
  lemma CountWriteMissing(users: map<string, Dict>, uid: Value, now: int, autoId: string)
    requires Lookup(users, uid).None?
    ensures CountWrite(users, uid, now, autoId) == Returned(users)
  {
  }

  /** `CountWrite` for a user found in the store, in terms of the user built from the document. */
  lemma CountWriteFound(users: map<string, Dict>, uid: Value, now: int, autoId: string, u: PyUser.UserRec)
    requires Lookup(users, uid).Some? && u == PyUser.FromDict(Lookup(users, uid).value, now)
    ensures AsNumber(u.enrollmentCount).None? ==> CountWrite(users, uid, now, autoId).Raised?
    ensures AsNumber(u.enrollmentCount).Some? && SetKey(u.uid, autoId).None? ==>
      CountWrite(users, uid, now, autoId) == Returned(users)
    ensures AsNumber(u.enrollmentCount).Some? && SetKey(u.uid, autoId).Some? ==>
      CountWrite(users, uid, now, autoId) == Returned(users[SetKey(u.uid, autoId).value :=
        PyUser.ToDict(u.(enrollmentCount := Int(AsNumber(u.enrollmentCount).value + 1), updatedAt := Time(now)))])
  {
  }

  /**
   * Enrolling leaves the users alone when the user does not exist; otherwise the user's
   * document is rewritten with an enrollment count one higher than before.
   */
  lemma CountWriteEffect(users: map<string, Dict>, uid: Value, now: int, autoId: string)
    requires CountWrite(users, uid, now, autoId).Returned?
    ensures Lookup(users, uid).None? ==> CountWrite(users, uid, now, autoId).value == users
    ensures Lookup(users, uid).Some? ==>
      var u := PyUser.FromDict(Lookup(users, uid).value, now);
      AsNumber(u.enrollmentCount).Some? &&
      (SetKey(u.uid, autoId).Some? ==>
        Get(CountWrite(users, uid, now, autoId).value[SetKey(u.uid, autoId).value], "enrollment_count")
          == Some(Int(AsNumber(u.enrollmentCount).value + 1)))
  {
    if Lookup(users, uid).Some? {
      var u := PyUser.FromDict(Lookup(users, uid).value, now);
      CountWriteFound(users, uid, now, autoId, u);
      if SetKey(u.uid, autoId).Some? {
        var d := PyUser.ToDict(u.(enrollmentCount := Int(AsNumber(u.enrollmentCount).value + 1), updatedAt := Time(now)));
        GetAt(d, 7);
      }
    }
  }

  /**
   * The `users` collection after `User.get_by_id(uid)` and, when a user is found,
   * `update_learning_stats(course_completed=True, learning_time=...)`; the learning time is
   * `None` when reading it raises. `Raised` when the call raises.
   */
  function StatsWrite(users: map<string, Dict>, uid: Value, learningTime: Option<Value>, now: int, autoId: string)
    : Outcome<map<string, Dict>>
  {
    match Lookup(users, uid)
    case None => Returned(users)
    case Some(doc) =>
      var u := PyUser.FromDict(doc, now);
      if learningTime.None? then Raised
      else match PyUser.StatsAfter(u.stats, Bool(true), learningTime.value)
      case None => Raised
      case Some(s) =>
        var k := SetKey(u.uid, autoId);
        if k.None? then Returned(users)
        else Returned(users[k.value := PyUser.ToDict(u.(stats := s, updatedAt := Time(now)))])
  }

  /**
   * Completing a course leaves the users alone when the user does not exist; otherwise the
   * user's document is rewritten with the statistics `update_learning_stats(True, ...)` gives.
   */
  lemma StatsWriteEffect(users: map<string, Dict>, uid: Value, learningTime: Option<Value>, now: int, autoId: string)
    requires StatsWrite(users, uid, learningTime, now, autoId).Returned?
    ensures Lookup(users, uid).None? ==> StatsWrite(users, uid, learningTime, now, autoId).value == users
    ensures Lookup(users, uid).Some? ==>
      var u := PyUser.FromDict(Lookup(users, uid).value, now);
      && learningTime.Some? && PyUser.StatsAfter(u.stats, Bool(true), learningTime.value).Some?
      && (SetKey(u.uid, autoId).None? ==> StatsWrite(users, uid, learningTime, now, autoId).value == users)
      && (SetKey(u.uid, autoId).Some? ==>
        Get(StatsWrite(users, uid, learningTime, now, autoId).value[SetKey(u.uid, autoId).value], "stats")
          == PyUser.StatsAfter(u.stats, Bool(true), learningTime.value))
  {
    if Lookup(users, uid).Some? {
      var u := PyUser.FromDict(Lookup(users, uid).value, now);
      var s := PyUser.StatsAfter(u.stats, Bool(true), learningTime.value).value;
      if SetKey(u.uid, autoId).Some? {
        var d := PyUser.ToDict(u.(stats := s, updatedAt := Time(now)));
        assert StatsWrite(users, uid, learningTime, now, autoId).value[SetKey(u.uid, autoId).value] == d;
        GetAt(d, 12);
      }
    }
  }

  /** The enrollments of the user that have an enrolment time: the documents `get_user_enrollments` asks for. */
  function ByUser(userId: Value): Dict -> bool
  {
    doc => Get(doc, "user_id") == Some(userId) && HasKey(doc, "enrolled_at")
  }

  function EnrolledAtKey(e: (string, Dict)): SortValue
  {
    OrderKey(GetOr(e.1, "enrolled_at", Null))
  }

  class Enrollment {
    var enrollmentId: Value
    var userId: Value
    var courseId: Value
    var enrolledAt: Value
    var progress: Value
    var status: Value
    var completedAt: Value
    var certificateIssued: Value
    var rating: Value
    var review: Value
    var reviewedAt: Value

    function Rec(): EnrollmentRec
      reads this
    {
      EnrollmentRec(enrollmentId, userId, courseId, enrolledAt, progress, status, completedAt,
                    certificateIssued, rating, review, reviewedAt)
    }

    /** `Enrollment(**kw)` with the generated id `freshId` and the clock reading `now`. */
    constructor(kw: Dict, freshId: string, now: int)
      ensures Rec() == FromDict(kw, freshId, now)
    {
      var r := FromDict(kw, freshId, now);
      enrollmentId, userId, courseId, enrolledAt := r.enrollmentId, r.userId, r.courseId, r.enrolledAt;
      progress, status, completedAt, certificateIssued := r.progress, r.status, r.completedAt, r.certificateIssued;
      rating, review, reviewedAt := r.rating, r.review, r.reviewedAt;
    }

    /**
     * `get_user_course_enrollment(user_id, course_id)`: the enrollment for the pair with the
     * smallest document id (the first one the query streams), or `None` when there is none.
     */
    static method GetUserCourseEnrollment(db: Db, userId: Value, courseId: Value, freshId: string, now: int)
      returns (e: Enrollment?)
      ensures e == null <==> !Enrolled(db.enrollments, userId, courseId)
      ensures e != null ==> fresh(e)
      ensures e != null ==>
        exists id :: (id in db.enrollments && PairOf(db.enrollments[id]) == Some((userId, courseId))
          && e.Rec() == FromDict(db.enrollments[id], freshId, now)
          && forall id' :: id' in db.enrollments && PairOf(db.enrollments[id']) == Some((userId, courseId)) ==> StrLe(id, id'))
    {
      var found := ListWhere(db.enrollments, (doc: Dict) => PairOf(doc) == Some((userId, courseId)));
      var first := Limit(found, 1);
      if first == [] {
        return null;
      }
      var id := found[0].0;
      e := new Enrollment(found[0].1, freshId, now);
      forall id' | id' in db.enrollments && PairOf(db.enrollments[id']) == Some((userId, courseId))
        ensures StrLe(id, id')
      {
        var j :| 0 <= j < |found| && found[j] == (id', db.enrollments[id']);
        if j == 0 {
          StrLeTotal(id, id);
        } else {
          assert InOrder(IdKey(found[0]), IdKey(found[j]), false);
        }
      }
    }

    /**
     * `get_user_enrollments(user_id)`: the user's enrollments that have an enrolment time,
     * newest first, each built from its document.
     */
    static method GetUserEnrollments(db: Db, userId: Value, freshId: string, now: int)
      returns (es: seq<EnrollmentRec>)
      ensures exists sel: seq<(string, Dict)> :: (SelectionOf(sel, db.enrollments, ByUser(userId))
        && SortedOn(sel, EnrolledAtKey, true)
        && |es| == |sel| && forall i :: 0 <= i < |sel| ==> es[i] == FromDict(sel[i].1, freshId, now))
    {
      var sel := ListOrdered(db.enrollments, ByUser(userId), EnrolledAtKey, true);
      es := [];
      for i := 0 to |sel|
        invariant |es| == i
        invariant forall j :: 0 <= j < i ==> es[j] == FromDict(sel[j].1, freshId, now)
      {
        es := es + [FromDict(sel[i].1, freshId, now)];
      }
    }

    /**
     * `create_enrollment(user_id, course_id)`: returns the existing enrollment for the pair
     * untouched; otherwise writes a new one under its generated id, then bumps the user's
     * enrollment count when the user exists. An increment that raises makes the call return
     * `None` after the enrollment has been written.
     */
    static method CreateEnrollment(db: Db, userId: Value, courseId: Value, freshId: string, autoId: string, now: int)
      returns (e: Enrollment?)
      modifies db`enrollments, db`users
      ensures Enrolled(old(db.enrollments), userId, courseId) ==>
        && e != null && db.enrollments == old(db.enrollments) && db.users == old(db.users)
        && exists id :: id in db.enrollments && PairOf(db.enrollments[id]) == Some((userId, courseId))
             && e.Rec() == FromDict(db.enrollments[id], freshId, now)
      ensures !Enrolled(old(db.enrollments), userId, courseId) && freshId == "" ==>
        e == null && db.enrollments == old(db.enrollments) && db.users == old(db.users)
      ensures !Enrolled(old(db.enrollments), userId, courseId) && freshId != "" ==>
        && db.enrollments == old(db.enrollments)[freshId := ToDict(NewEnrollment(userId, courseId, freshId, now))]
        && (e == null <==> CountWrite(old(db.users), userId, now, autoId).Raised?)
        && (e == null ==> db.users == old(db.users))
        && (e != null ==> fresh(e) && e.Rec() == NewEnrollment(userId, courseId, freshId, now)
                          && db.users == CountWrite(old(db.users), userId, now, autoId).value)
    {
      var existing := GetUserCourseEnrollment(db, userId, courseId, freshId, now);
      if existing != null {
        return existing;
      }
      e := WriteNew(db, userId, courseId, freshId, autoId, now);
    }

    /** The second half of `create_enrollment`: build, write, then bump the user's count. */
    static method WriteNew(db: Db, userId: Value, courseId: Value, freshId: string, autoId: string, now: int)
      returns (e: Enrollment?)
      modifies db`enrollments, db`users
      ensures freshId == "" ==> e == null && db.enrollments == old(db.enrollments) && db.users == old(db.users)
      ensures freshId != "" ==>
        && db.enrollments == old(db.enrollments)[freshId := ToDict(NewEnrollment(userId, courseId, freshId, now))]
        && (e == null <==> CountWrite(old(db.users), userId, now, autoId).Raised?)
        && (e == null ==> db.users == old(db.users))
        && (e != null ==> fresh(e) && e.Rec() == NewEnrollment(userId, courseId, freshId, now)
                          && db.users == CountWrite(old(db.users), userId, now, autoId).value)
    {
      var created := new Enrollment([Field("user_id", userId), Field("course_id", courseId)], freshId, now);
      NewEnrollmentPair(userId, courseId, freshId, now);
      var key := SetKey(created.enrollmentId, autoId);
      if key.None? {
        return null;
      }
      ghost var users0 := db.users;
      db.enrollments := db.enrollments[key.value := ToDict(created.Rec())];
      var user := PyUser.User.GetById(db, userId, now);
      if user != null {
        ghost var u0 := user.Rec();
        CountWriteFound(users0, userId, now, autoId, u0);
        var r := user.IncrementEnrollmentCount(db, now, autoId);
        if r.Raised? {
          return null;
        }
        ghost var u1 := u0.(enrollmentCount := Int(AsNumber(u0.enrollmentCount).value + 1), updatedAt := Time(now));
        assert user.Rec() == u1;
        assert user.uid == u0.uid;
        assert db.users == if SetKey(u0.uid, autoId).Some? then users0[SetKey(u0.uid, autoId).value := PyUser.ToDict(u1)] else users0;
      } else {
        CountWriteMissing(users0, userId, now, autoId);
      }
      return created;
    }

    /**
     * `update_progress(lesson_id, time_spent)`: appends the lesson when absent, adds the time,
     * stamps the access and sets the current lesson, then writes the progress block to the
     * stored document. Steps already taken stay taken when a later one raises.
     */
    method UpdateProgress(lessonId: Value, timeSpent: Value, db: Db, now: int) returns (ok: bool)
      modifies this, db`enrollments
      ensures Rec() == old(Rec()).(progress := progress)
      ensures LessonsOf(old(progress)).None? ==> !ok && progress == old(progress)
      ensures LessonsOf(old(progress)).Some? && ProgressAfter(old(progress), lessonId, timeSpent, now).None? ==>
        !ok && progress == ProgressAppended(old(progress), lessonId)
      ensures ProgressAfter(old(progress), lessonId, timeSpent, now).Some? ==>
        progress == ProgressAfter(old(progress), lessonId, timeSpent, now).value
      ensures ok <==> ProgressAfter(old(progress), lessonId, timeSpent, now).Some?
                      && Updated(old(db.enrollments), enrollmentId, [Field("progress", progress)]).Some?
      ensures db.enrollments == if ok then Updated(old(db.enrollments), enrollmentId, [Field("progress", progress)]).value
                                else old(db.enrollments)
    {
      var lessons := LessonsOf(progress);
      if lessons.None? {
        return false;
      }
      if lessonId !in lessons.value {
        progress := Obj(Put(progress.fields, "completed_lessons", Arr(lessons.value + [lessonId])));
      }
      assert progress == ProgressAppended(old(progress), lessonId);
      var total := Plus(GetOr(progress.fields, "total_time_spent", Null), timeSpent);
      if total.None? {
        return false;
      }
      progress := Obj(Stamp(progress.fields, total.value, now, |AddOnce(lessons.value, lessonId)|));
      var stored := Updated(db.enrollments, enrollmentId, [Field("progress", progress)]);
      if stored.None? {
        return false;
      }
      db.enrollments := stored.value;
      return true;
    }

    /**
     * The user step of `complete_course()`: when the user exists, a completed course and the
     * learning time are added to their statistics; `false` when that raises.
     */
    static method CreditCompletion(db: Db, userId: Value, learningTime: Option<Value>, now: int, autoId: string)
      returns (ok: bool)
      modifies db`users
      ensures ok <==> StatsWrite(old(db.users), userId, learningTime, now, autoId).Returned?
      ensures ok ==> db.users == StatsWrite(old(db.users), userId, learningTime, now, autoId).value
      ensures !ok ==> db.users == old(db.users)
    {
      var user := PyUser.User.GetById(db, userId, now);
      if user != null {
        if learningTime.None? {
          return false;
        }
        var r := user.UpdateLearningStats(Bool(true), learningTime.value, db, now, autoId);
        if r.Raised? {
          return false;
        }
      }
      return true;
    }

    /**
     * `complete_course()`: marks the enrollment completed at `now` and its progress 100,
     * credits the completion and the time spent to the user's statistics, then writes status,
     * completion time and progress to the stored document.
     */
    method CompleteCourse(db: Db, now: int, autoId: string) returns (ok: bool)
      modifies this, db`enrollments, db`users
      ensures status == Str("completed") && completedAt == Time(now)
      ensures Rec() == old(Rec()).(status := status, completedAt := completedAt, progress := progress)
      ensures !old(progress).Obj? ==> !ok && progress == old(progress)
                                       && db.enrollments == old(db.enrollments) && db.users == old(db.users)
      ensures old(progress).Obj? ==> progress == Obj(Put(old(progress).fields, "completion_percentage", Int(100)))
      ensures ok <==> (old(progress).Obj?
        && StatsWrite(old(db.users), userId, Get(progress.fields, "total_time_spent"), now, autoId).Returned?
        && Updated(old(db.enrollments), enrollmentId,
             [Field("status", status), Field("completed_at", completedAt), Field("progress", progress)]).Some?)
      ensures old(progress).Obj? ==>
        var credit := StatsWrite(old(db.users), userId, Get(progress.fields, "total_time_spent"), now, autoId);
        var stored := Updated(old(db.enrollments), enrollmentId,
             [Field("status", status), Field("completed_at", completedAt), Field("progress", progress)]);
        && db.users == (if credit.Returned? then credit.value else old(db.users))
        && db.enrollments == (if credit.Returned? && stored.Some? then stored.value else old(db.enrollments))
    {
      status := Str("completed");
      completedAt := Time(now);
      if !progress.Obj? {
        return false;
      }
      progress := Obj(Put(progress.fields, "completion_percentage", Int(100)));
      var credited := CreditCompletion(db, userId, Get(progress.fields, "total_time_spent"), now, autoId);
      if !credited {
        return false;
      }
      var stored := Updated(db.enrollments, enrollmentId,
        [Field("status", status), Field("completed_at", completedAt), Field("progress", progress)]);
      if stored.None? {
        return false;
      }
      db.enrollments := stored.value;
      return true;
    }

    /**
     * `add_review(rating, review_text)`: stores the rating and text exactly as given (there is
     * no range check on the rating), stamps `reviewed_at`, then writes the three fields.
     */
    method AddReview(newRating: Value, reviewText: Value, db: Db, now: int) returns (ok: bool)
      modifies this, db`enrollments
      ensures Rec() == old(Rec()).(rating := newRating, review := reviewText, reviewedAt := Time(now))
      ensures ok <==> Updated(old(db.enrollments), enrollmentId,
        [Field("rating", newRating), Field("review", reviewText), Field("reviewed_at", Time(now))]).Some?
      ensures db.enrollments == if ok then Updated(old(db.enrollments), enrollmentId,
        [Field("rating", newRating), Field("review", reviewText), Field("reviewed_at", Time(now))]).value
        else old(db.enrollments)
    {
      rating := newRating;
      review := reviewText;
      reviewedAt := Time(now);
      var stored := Updated(db.enrollments, enrollmentId,
        [Field("rating", rating), Field("review", review), Field("reviewed_at", reviewedAt)]);
      if stored.None? {
        return false;
      }
      db.enrollments := stored.value;
      return true;
    }
  }
}
