/**
 * The Express `/enrollments` routes, for a caller whose verified token carries `uid`: each
 * handler checks its guards in order, answers with the first that fails and writes nothing
 * before that, then performs its store writes. A handler that throws answers 500.
 */
module EnrollmentRoutes {
  import opened Base
  import opened JsStore
  import opened Http
  import JsEnrollment
  import JsCourse
  import Ordering

  /** `{ ...enrollment, course }`: an enrollment with its id, record and (when looked up) its course. */
  datatype Joined = Joined(id: Option<string>, enrollment: EnrollmentDoc, course: Option<(string, CourseDoc)>)

  /** `Math.round((completed / total) * 100)`, or 0 for a course without lessons, in integer arithmetic. */
  function LessonPercent(completed: nat, total: nat): nat
  {
    if total > 0 then (200 * completed + total) / (2 * total) else 0
  }

  /** Multiplying by a non-negative factor keeps an inequality. */
  lemma {:induction false} MulMono(t: nat, x: int, y: int)
    requires x <= y
    ensures t * x <= t * y
    decreases t
  {
    if t > 0 {
      MulMono(t - 1, x, y);
      assert t * x == (t - 1) * x + x && t * y == (t - 1) * y + y;
    }
  }

  /** The percentage is 100 * completed / total rounded to the nearest integer, halves upwards. */
  lemma LessonPercentRounds(completed: nat, total: nat)
    requires total > 0
    ensures var p := LessonPercent(completed, total);
      (2 * total) * p - total <= 200 * completed < (2 * total) * p + total
  {
    var p := LessonPercent(completed, total);
    var rem := (200 * completed + total) % (2 * total);
    assert 200 * completed + total == (2 * total) * p + rem;
  }

  /** While no more lessons are completed than the course has, the percentage is at most 100. */
  lemma LessonPercentAtMost100(completed: nat, total: nat)
    requires completed <= total
    ensures LessonPercent(completed, total) <= 100
  {
    if total > 0 {
      LessonPercentRounds(completed, total);
      var p := LessonPercent(completed, total);
      if p > 100 {
        MulMono(2 * total, 101, p);
        assert false;
      }
    }
  }

  /** Every lesson completed is 100, none completed is 0. */
  lemma LessonPercentEnds(total: nat)
    requires total > 0
    ensures LessonPercent(total, total) == 100
    ensures LessonPercent(0, total) == 0
  {
    LessonPercentRounds(total, total);
    var p := LessonPercent(total, total);
    if p > 100 {
      MulMono(2 * total, 101, p);
      assert false;
    } else if p < 100 {
      MulMono(2 * total, p, 99);
      assert false;
    }
    LessonPercentRounds(0, total);
    var z := LessonPercent(0, total);
    if z > 0 {
      MulMono(2 * total, 1, z);
      assert false;
    }
  }

  /** Completing more lessons never lowers the percentage. */
  lemma LessonPercentMonotone(c1: nat, c2: nat, total: nat)
    requires c1 <= c2
    ensures LessonPercent(c1, total) <= LessonPercent(c2, total)
  {
    if total > 0 {
      LessonPercentRounds(c1, total);
      LessonPercentRounds(c2, total);
      var p1, p2 := LessonPercent(c1, total), LessonPercent(c2, total);
      if p1 > p2 {
        MulMono(2 * total, p2 + 1, p1);
        assert false;
      }
    }
  }

  /** The owner check shared by the routes on one enrollment: 404 when it does not exist, 403 when it is not the caller's. */
  function Denied(m: map<string, EnrollmentDoc>, uid: string, id: string): (status: Option<int>)
    ensures status == None <==> id in m && m[id].userId == uid
  {
    if id !in m then Some(404)
    else if JsEnrollment.FromStored(m[id]).userId != uid then Some(403)
    else None
  }

  function DeniedReply(status: int): Response<Joined>
  {
    if status == 404 then Fail(404, "Enrollment not found") else Fail(403, "Access denied")
  }

  /** The caller has an enrollment for the course. */
  predicate Enrolled(m: map<string, EnrollmentDoc>, uid: string, courseId: string)
  {
    exists id :: id in m && m[id].userId == uid && m[id].courseId == courseId
  }

  /** No user has two enrollments for the same course. */
  predicate OnePerPair(m: map<string, EnrollmentDoc>)
  {
    forall a, b :: a in m && b in m && m[a].userId == m[b].userId && m[a].courseId == m[b].courseId ==> a == b
  }

  /**
   * `POST /`: enrolls the caller in `courseId` (absent or empty in the body: `None` or "").
   * The new enrollment is written under the generated `autoId`, then the course's enrolment
   * count goes up by one.
   */
  method Enroll(db: Db, uid: string, courseId: Option<string>, now: int, autoId: string)
    returns (res: Response<Joined>)
    modifies db`enrollments, db`courses
    ensures !Truthy(courseId) ==>
      res == Fail(400, "Course ID is required") && db.enrollments == old(db.enrollments) && db.courses == old(db.courses)
    ensures Truthy(courseId) && courseId.value !in old(db.courses) ==>
      res == Fail(404, "Course not found") && db.enrollments == old(db.enrollments) && db.courses == old(db.courses)
    ensures Truthy(courseId) && courseId.value in old(db.courses) && Enrolled(old(db.enrollments), uid, courseId.value) ==>
      && res.status == 400 && res.error == Some("Already enrolled in this course")
      && res.data.Some? && res.data.value.id.Some?
      && res.data.value.id.value in db.enrollments
      && res.data.value.enrollment == JsEnrollment.FromStored(db.enrollments[res.data.value.id.value])
      && res.data.value.enrollment.userId == uid && res.data.value.enrollment.courseId == courseId.value
      && (forall id' :: id' in db.enrollments && JsEnrollment.ForPair(uid, courseId.value)(db.enrollments[id']) ==>
            Ordering.StrLe(res.data.value.id.value, id'))
      && db.enrollments == old(db.enrollments) && db.courses == old(db.courses)
    ensures Truthy(courseId) && courseId.value in old(db.courses) && !Enrolled(old(db.enrollments), uid, courseId.value) ==>
      var cid := courseId.value;
      && res.status == 201
      && db.enrollments == old(db.enrollments)[autoId := JsEnrollment.Initial(JsEnrollment.NewInit(uid, cid), now)]
      && db.courses == old(db.courses)[cid := old(db.courses)[cid].(studentsCount := old(db.courses)[cid].studentsCount + 1, updatedAt := now)]
      && res.data == Some(Joined(Some(autoId), JsEnrollment.Initial(JsEnrollment.NewInit(uid, cid), now), Some((cid, db.courses[cid]))))
  {
    if !Truthy(courseId) {
      return Fail(400, "Course ID is required");
    }
    var cid := courseId.value;
    var course := JsCourse.Course.FindById(db, cid, now);
    if course == null {
      return Fail(404, "Course not found");
    }
    var existing := JsEnrollment.Enrollment.FindByUserAndCourse(db, uid, cid);
    if existing != null {
      return Response(400, Some("Already enrolled in this course"), None, Some(Joined(existing.id, existing.Doc(), None)));
    }
    var enrollment := new JsEnrollment.Enrollment(JsEnrollment.NewInit(uid, cid), now);
    enrollment.Save(db, autoId);
    var ok := course.UpdateStudentsCount(course.studentsCount + 1, db, now);
    // The handler's catch. `update` refuses a course that is no longer stored; nothing here
    // deletes it between the lookup and this write, so in this model the branch is not taken.
    if !ok {
      return Fail(500, "Failed to enroll in course");
    }
    return Response(201, None, Some("Enrolled successfully"), Some(Joined(enrollment.id, enrollment.Doc(), Some((cid, course.Doc())))));
  }

  /** A successful enrollment under a fresh id keeps enrollments unique per user and course. */
  lemma EnrollKeepsOnePerPair(m: map<string, EnrollmentDoc>, uid: string, courseId: string, now: int, autoId: string)
    requires OnePerPair(m) && !Enrolled(m, uid, courseId) && autoId !in m
    ensures var m' := m[autoId := JsEnrollment.Initial(JsEnrollment.NewInit(uid, courseId), now)];
      OnePerPair(m') && Enrolled(m', uid, courseId)
  {
    var d := JsEnrollment.Initial(JsEnrollment.NewInit(uid, courseId), now);
    var m' := m[autoId := d];
    forall a, b | a in m' && b in m' && m'[a].userId == m'[b].userId && m'[a].courseId == m'[b].courseId
      ensures a == b
    {
      if a != autoId && b != autoId {
        assert m'[a] == m[a] && m'[b] == m[b];
      }
    }
    assert m'[autoId] == d;
  }

  /** `GET /:id`: the caller's enrollment with its course (null when the course is gone); writes nothing. */
  method GetEnrollment(db: Db, uid: string, id: string, now: int) returns (res: Response<Joined>)
    requires id != ""  // `:id` only matches a non-empty path segment
    ensures Denied(db.enrollments, uid, id).Some? ==> res == DeniedReply(Denied(db.enrollments, uid, id).value)
    ensures Denied(db.enrollments, uid, id).None? ==>
      var e := JsEnrollment.FromStored(db.enrollments[id]);
      && res.status == 200
      && res.data == Some(Joined(Some(id), e,
                                 if e.courseId in db.courses then Some((e.courseId, db.courses[e.courseId])) else None))
  {
    var enrollment := JsEnrollment.Enrollment.FindById(db, id);
    if enrollment == null {
      return Fail(404, "Enrollment not found");
    }
    if enrollment.userId != uid {
      return Fail(403, "Access denied");
    }
    var course := JsCourse.Course.FindById(db, enrollment.courseId, now);
    var joined := if course == null then None else Some((enrollment.courseId, course.Doc()));
    return Success(200, None, Some(Joined(enrollment.id, enrollment.Doc(), joined)));
  }

  /**
   * `POST /:id/lessons/:lessonId/complete`: records the lesson, then sets the progress to the
   * share of the course's lessons completed. A vanished course makes the handler throw after
   * the lesson was recorded.
   */
  method CompleteLesson(db: Db, uid: string, id: string, lessonId: string, now: int) returns (res: Response<Joined>)
    requires id != ""  // `:id` only matches a non-empty path segment
    modifies db`enrollments
    ensures Denied(old(db.enrollments), uid, id).Some? ==>
      res == DeniedReply(Denied(old(db.enrollments), uid, id).value) && db.enrollments == old(db.enrollments)
    ensures Denied(old(db.enrollments), uid, id).None? ==>
      var e := old(db.enrollments)[id];
      var lessons := AddOnce(e.completedLessons, lessonId);
      && id in db.enrollments
      && db.enrollments[id].completedLessons == lessons
      && (e.courseId !in db.courses <==> res.status == 500)
      && (e.courseId !in db.courses ==>
            db.enrollments == old(db.enrollments)[id := e.(completedLessons := lessons,
                                lastAccessed := if lessonId in e.completedLessons then e.lastAccessed else now)])
      && (e.courseId in db.courses ==>
            var pct := LessonPercent(|lessons|, |db.courses[e.courseId].lessons|);
            && res.status == 200
            && db.enrollments == old(db.enrollments)[id := JsEnrollment.Patched(e.(completedLessons := lessons),
                                   JsEnrollment.Stamped(JsEnrollment.ProgressPatch(e.status, pct, now), now))])
  {
    var enrollment := JsEnrollment.Enrollment.FindById(db, id);
    if enrollment == null {
      return Fail(404, "Enrollment not found");
    }
    if enrollment.userId != uid {
      return Fail(403, "Access denied");
    }
    res := RecordLesson(db, enrollment, id, lessonId, now);
  }

  /** The lesson route after its guards: record the lesson, then score the enrollment against its course. */
  method RecordLesson(db: Db, enrollment: JsEnrollment.Enrollment, id: string, lessonId: string, now: int)
    returns (res: Response<Joined>)
    requires id != "" && id in db.enrollments
    requires enrollment.id == Some(id) && enrollment.Doc() == JsEnrollment.FromStored(db.enrollments[id])
    modifies enrollment, db`enrollments
    ensures
      var e := old(db.enrollments)[id];
      var lessons := AddOnce(e.completedLessons, lessonId);
      && id in db.enrollments
      && db.enrollments[id].completedLessons == lessons
      && (e.courseId !in db.courses <==> res.status == 500)
      && (e.courseId !in db.courses ==>
            db.enrollments == old(db.enrollments)[id := e.(completedLessons := lessons,
                                lastAccessed := if lessonId in e.completedLessons then e.lastAccessed else now)])
      && (e.courseId in db.courses ==>
            var pct := LessonPercent(|lessons|, |db.courses[e.courseId].lessons|);
            && res.status == 200
            && db.enrollments == old(db.enrollments)[id := JsEnrollment.Patched(e.(completedLessons := lessons),
                                   JsEnrollment.Stamped(JsEnrollment.ProgressPatch(e.status, pct, now), now))])
  {
    ghost var e := db.enrollments[id];
    ghost var lessons := AddOnce(e.completedLessons, lessonId);
    var ok := enrollment.CompleteLesson(lessonId, db, now);
    ghost var recorded := db.enrollments[id];
    assert db.enrollments == old(db.enrollments)[id := recorded];
    assert recorded == e.(completedLessons := lessons, lastAccessed := recorded.lastAccessed);
    assert enrollment.completedLessons == lessons && enrollment.status == JsEnrollment.FromStored(e).status;
    var course := JsCourse.Course.FindById(db, enrollment.courseId, now);
    if course == null {
      return Fail(500, "Failed to complete lesson");
    }
    var progress := LessonPercent(|enrollment.completedLessons|, |course.lessons|);
    ghost var patch := JsEnrollment.Stamped(JsEnrollment.ProgressPatch(e.status, progress, now), now);
    assert JsEnrollment.ProgressPatch(enrollment.status, progress, now) == JsEnrollment.ProgressPatch(e.status, progress, now);
    ok := enrollment.UpdateProgress(progress, db, now);
    assert JsEnrollment.Patched(recorded, patch) == JsEnrollment.Patched(e.(completedLessons := lessons), patch);
    return Response(200, None, Some("Lesson completed successfully"), Some(Joined(enrollment.id, enrollment.Doc(), None)));
  }

  /** `PUT /:id/progress`: a progress outside 0..100 is refused before any lookup; otherwise it is stored. */
  method SetProgress(db: Db, uid: string, id: string, progress: int, now: int) returns (res: Response<Joined>)
    requires id != ""  // `:id` only matches a non-empty path segment
    modifies db`enrollments
    ensures progress < 0 || progress > 100 ==>
      res == Fail(400, "Progress must be between 0 and 100") && db.enrollments == old(db.enrollments)
    ensures 0 <= progress <= 100 && Denied(old(db.enrollments), uid, id).Some? ==>
      res == DeniedReply(Denied(old(db.enrollments), uid, id).value) && db.enrollments == old(db.enrollments)
    ensures 0 <= progress <= 100 && Denied(old(db.enrollments), uid, id).None? ==>
      var e := old(db.enrollments)[id];
      && res.status == 200
      && db.enrollments == old(db.enrollments)[id := JsEnrollment.Patched(e,
                             JsEnrollment.Stamped(JsEnrollment.ProgressPatch(e.status, progress, now), now))]
  {
    if progress < 0 || progress > 100 {
      return Fail(400, "Progress must be between 0 and 100");
    }
    var enrollment := JsEnrollment.Enrollment.FindById(db, id);
    if enrollment == null {
      return Fail(404, "Enrollment not found");
    }
    if enrollment.userId != uid {
      return Fail(403, "Access denied");
    }
    var ok := enrollment.UpdateProgress(progress, db, now);
    return Response(200, None, Some("Progress updated successfully"), Some(Joined(enrollment.id, enrollment.Doc(), None)));
  }

  /** The enrolment count after a cancellation: one less, but never below zero. */
  function Decremented(count: int): (r: int)
    ensures count > 0 ==> r == count - 1
    ensures count <= 0 ==> r == count
    ensures count >= 0 ==> r >= 0
  {
    if count > 0 then count - 1 else count
  }

  /**
   * `DELETE /:id`: cancels the caller's enrollment and, when its course still exists with a
   * positive enrolment count, lowers that count by one.
   */
  method Cancel(db: Db, uid: string, id: string, now: int) returns (res: Response<Joined>)
    requires id != ""  // `:id` only matches a non-empty path segment
    requires "" !in db.courses  // the store has no document with an empty id
    modifies db`enrollments, db`courses
    ensures Denied(old(db.enrollments), uid, id).Some? ==>
      && res == DeniedReply(Denied(old(db.enrollments), uid, id).value)
      && db.enrollments == old(db.enrollments) && db.courses == old(db.courses)
    ensures Denied(old(db.enrollments), uid, id).None? ==>
      var e := old(db.enrollments)[id];
      && res == Success(200, Some("Enrollment cancelled successfully"), None)
      && db.enrollments == old(db.enrollments)[id := e.(status := "cancelled", lastAccessed := now)]
      && (e.courseId in old(db.courses) && old(db.courses)[e.courseId].studentsCount > 0 ==>
            db.courses == old(db.courses)[e.courseId := old(db.courses)[e.courseId].(
              studentsCount := Decremented(old(db.courses)[e.courseId].studentsCount), updatedAt := now)])
      && (e.courseId !in old(db.courses) || old(db.courses)[e.courseId].studentsCount <= 0 ==>
            db.courses == old(db.courses))
  {
    var enrollment := JsEnrollment.Enrollment.FindById(db, id);
    if enrollment == null {
      return Fail(404, "Enrollment not found");
    }
    if enrollment.userId != uid {
      return Fail(403, "Access denied");
    }
    var ok := enrollment.Cancel(db, now);
    var course := JsCourse.Course.FindById(db, enrollment.courseId, now);
    if course != null && course.studentsCount > 0 {
      ok := course.UpdateStudentsCount(course.studentsCount - 1, db, now);
    }
    return Success(200, Some("Enrollment cancelled successfully"), None);
  }
}
