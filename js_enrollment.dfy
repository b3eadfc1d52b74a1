/**
 * The Express `Enrollment` model: an enrollment object mirrors one document of the
 * `enrollments` collection, `update` writes a set of fields to the store and then assigns
 * them to the object, and the lesson, progress and cancel operations are built on it.
 */
module JsEnrollment {
  import opened Base
  import opened Ordering
  import opened Query
  import opened JsStore

  /** The constructor's argument: the fields a caller may leave out are optional. */
  datatype EnrollmentInit = EnrollmentInit(
    id: Option<string>, userId: string, courseId: string, enrolledAt: Option<int>, progress: Option<int>,
    completedLessons: Option<seq<string>>, status: Option<string>, lastAccessed: Option<int>,
    completionDate: Option<int>)

  /** The record a new enrollment object holds: the constructor's `||` defaults applied. */
  function Initial(init: EnrollmentInit, now: int): (d: EnrollmentDoc)
    ensures d.userId == init.userId && d.courseId == init.courseId
    ensures init.status.Some? && init.status.value != "" ==> d.status == init.status.value
    ensures init.status.None? || init.status.value == "" ==> d.status == "active"
  {
    EnrollmentDoc(
      init.userId, init.courseId,
      if init.enrolledAt.Some? then init.enrolledAt.value else now,
      if init.progress.Some? then init.progress.value else 0,
      if init.completedLessons.Some? then init.completedLessons.value else [],
      OrElse(init.status, "active"),
      if init.lastAccessed.Some? then init.lastAccessed.value else now,
      init.completionDate)
  }

  /** The enrollment route's `new Enrollment({ userId, courseId })`. */
  function NewInit(userId: string, courseId: string): EnrollmentInit
  {
    EnrollmentInit(None, userId, courseId, None, None, None, None, None, None)
  }

  /** A new enrollment starts active, with no progress, no completed lessons and no completion date. */
  lemma FreshEnrollment(userId: string, courseId: string, now: int)
    ensures var d := Initial(NewInit(userId, courseId), now);
      && d == EnrollmentDoc(userId, courseId, now, 0, [], "active", now, None)
      && NoDup(d.completedLessons)
  {
  }

  /** `new Enrollment({ id, ...doc.data() })`: a stored record read back through the constructor. */
  function FromStored(doc: EnrollmentDoc): (d: EnrollmentDoc)
    ensures d == doc.(status := OrElse(Some(doc.status), "active"))
  {
    Initial(EnrollmentInit(None, doc.userId, doc.courseId, Some(doc.enrolledAt), Some(doc.progress),
                           Some(doc.completedLessons), Some(doc.status), Some(doc.lastAccessed),
                           doc.completionDate), 0)
  }

  /** Reading a record back changes nothing but an empty status, which becomes `active`. */
  lemma FromStoredKeeps(doc: EnrollmentDoc)
    ensures doc.status != "" ==> FromStored(doc) == doc
    ensures doc.status == "" ==> FromStored(doc).status == "active"
    ensures FromStored(FromStored(doc)) == FromStored(doc)
  {
  }

  /** The argument of `update`: the fields to assign. */
  datatype EnrollmentPatch = EnrollmentPatch(
    userId: Option<string>, courseId: Option<string>, enrolledAt: Option<int>, progress: Option<int>,
    completedLessons: Option<seq<string>>, status: Option<string>, lastAccessed: Option<int>,
    completionDate: Option<Option<int>>)

  const NoChange: EnrollmentPatch := EnrollmentPatch(None, None, None, None, None, None, None, None)

  /** `Object.assign(record, patch)`: the given fields replaced, every other field kept. */
  function Patched(d: EnrollmentDoc, p: EnrollmentPatch): EnrollmentDoc
  {
    EnrollmentDoc(
      if p.userId.Some? then p.userId.value else d.userId,
      if p.courseId.Some? then p.courseId.value else d.courseId,
      if p.enrolledAt.Some? then p.enrolledAt.value else d.enrolledAt,
      if p.progress.Some? then p.progress.value else d.progress,
      if p.completedLessons.Some? then p.completedLessons.value else d.completedLessons,
      if p.status.Some? then p.status.value else d.status,
      if p.lastAccessed.Some? then p.lastAccessed.value else d.lastAccessed,
      if p.completionDate.Some? then p.completionDate.value else d.completionDate)
  }

  /** Assigning the same fields twice is assigning them once, and the empty patch changes nothing. */
  lemma PatchedIdempotent(d: EnrollmentDoc, p: EnrollmentPatch)
    ensures Patched(Patched(d, p), p) == Patched(d, p)
    ensures Patched(d, NoChange) == d
  {
  }

  /** `update` always adds the access time to the fields it writes. */
  function Stamped(p: EnrollmentPatch, now: int): EnrollmentPatch
  {
    p.(lastAccessed := Some(now))
  }

  /**
   * The fields `updateProgress(progress)` writes: the progress, and the completed status with
   * its date exactly when the progress reaches 100 and the enrollment is not already completed.
   */
  function ProgressPatch(status: string, progress: int, now: int): (p: EnrollmentPatch)
    ensures p.progress == Some(progress)
    ensures p.status.Some? <==> progress >= 100 && status != "completed"
    ensures p.status.Some? ==> p.status.value == "completed" && p.completionDate == Some(Some(now))
    ensures p.status.None? ==> p.completionDate.None?
  {
    if progress >= 100 && status != "completed" then
      NoChange.(progress := Some(progress), status := Some("completed"), completionDate := Some(Some(now)))
    else NoChange.(progress := Some(progress))
  }

  /** Once completed, later progress updates leave the status and the completion date as they are. */
  lemma CompletedIsFinal(d: EnrollmentDoc, progress: int, now: int)
    requires d.status == "completed"
    ensures var d' := Patched(d, Stamped(ProgressPatch(d.status, progress, now), now));
      d'.status == "completed" && d'.completionDate == d.completionDate && d'.progress == progress
  {
  }

  /** A progress update only ever moves the status to `completed`, and only from 100 up. */
  lemma ProgressStatus(d: EnrollmentDoc, progress: int, now: int)
    ensures var d' := Patched(d, Stamped(ProgressPatch(d.status, progress, now), now));
      && (d'.status != d.status <==> progress >= 100 && d.status != "completed")
      && (d'.status != d.status ==> d'.status == "completed" && d'.completionDate == Some(now))
      && d'.completedLessons == d.completedLessons && d'.userId == d.userId && d'.courseId == d.courseId
  {
  }

  /** The fields `cancel` writes. */
  const CancelPatch: EnrollmentPatch := NoChange.(status := Some("cancelled"))

  /** A lesson joins the completed list only when it is not there yet. */
  lemma CompletedLessonsStayDistinct(lessons: seq<string>, lessonId: string)
    requires NoDup(lessons)
    ensures lessonId in lessons ==> AddOnce(lessons, lessonId) == lessons
    ensures lessonId !in lessons ==> AddOnce(lessons, lessonId) == lessons + [lessonId]
    ensures NoDup(AddOnce(lessons, lessonId))
  {
    AddOnceNoDup(lessons, lessonId);
  }

  /** The query `where('userId', '==', userId)`, plus `where('status', '==', status)` when a status is given. */
  function ForUser(userId: string, status: Option<string>): EnrollmentDoc -> bool
  {
    (doc: EnrollmentDoc) => doc.userId == userId && (Truthy(status) ==> doc.status == status.value)
  }

  function EnrolledAtKey(e: (string, EnrollmentDoc)): SortValue
  {
    Num(e.1.enrolledAt)
  }

  /** The query `where('userId', '==', userId).where('courseId', '==', courseId)`. */
  function ForPair(userId: string, courseId: string): EnrollmentDoc -> bool
  {
    (doc: EnrollmentDoc) => doc.userId == userId && doc.courseId == courseId
  }

  class Enrollment {
    var id: Option<string>
    var userId: string
    var courseId: string
    var enrolledAt: int
    var progress: int
    var completedLessons: seq<string>
    var status: string
    var lastAccessed: int
    var completionDate: Option<int>

    /** The record `save` writes for this object. */
    function Doc(): EnrollmentDoc
      reads this
    {
      EnrollmentDoc(userId, courseId, enrolledAt, progress, completedLessons, status, lastAccessed, completionDate)
    }

    constructor(init: EnrollmentInit, now: int)
      ensures id == init.id && Doc() == Initial(init, now)
    {
      var d := Initial(init, now);
      id := init.id;
      userId := d.userId;
      courseId := d.courseId;
      enrolledAt := d.enrolledAt;
      progress := d.progress;
      completedLessons := d.completedLessons;
      status := d.status;
      lastAccessed := d.lastAccessed;
      completionDate := d.completionDate;
    }

    /** `save()`: writes the whole record under the object's id, taking a generated id when it has none. */
    method Save(db: Db, autoId: string)
      modifies this`id, db`enrollments
      ensures id == Some(SaveKey(old(id), autoId))
      ensures Truthy(old(id)) ==> id == old(id)
      ensures db.enrollments == old(db.enrollments)[id.value := Doc()]
    {
      var key := SaveKey(id, autoId);
      id := Some(key);
      db.enrollments := db.enrollments[key := Doc()];
    }

    /** `findById(id)`: the stored enrollment read through the constructor, or null. */
    static method FindById(db: Db, id: string) returns (e: Enrollment?)
      ensures e == null <==> id !in db.enrollments
      ensures e != null ==> fresh(e) && e.id == Some(id) && e.Doc() == FromStored(db.enrollments[id])
    {
      if id !in db.enrollments {
        return null;
      }
      var doc := db.enrollments[id];
      e := new Enrollment(EnrollmentInit(Some(id), doc.userId, doc.courseId, Some(doc.enrolledAt),
                                         Some(doc.progress), Some(doc.completedLessons), Some(doc.status),
                                         Some(doc.lastAccessed), doc.completionDate), 0);
    }

    /**
     * `findByUserAndCourse(userId, courseId)`: the first stored enrollment of the pair in
     * document-id order, or null when the pair has none.
     */
    static method FindByUserAndCourse(db: Db, userId: string, courseId: string) returns (e: Enrollment?)
      ensures e == null <==> forall id :: id in db.enrollments ==> !ForPair(userId, courseId)(db.enrollments[id])
      ensures e != null ==> fresh(e) && e.id.Some? && e.userId == userId && e.courseId == courseId
      ensures e != null ==>
        var id := e.id.value;
        && id in db.enrollments && ForPair(userId, courseId)(db.enrollments[id])
        && e.Doc() == FromStored(db.enrollments[id])
        && forall id' :: id' in db.enrollments && ForPair(userId, courseId)(db.enrollments[id']) ==> StrLe(id, id')
    {
      var found := ListWhere(db.enrollments, ForPair(userId, courseId));
      var first := Limit(found, 1);
      if first == [] {
        return null;
      }
      var (id, doc) := found[0];
      e := new Enrollment(EnrollmentInit(Some(id), doc.userId, doc.courseId, Some(doc.enrolledAt),
                                         Some(doc.progress), Some(doc.completedLessons), Some(doc.status),
                                         Some(doc.lastAccessed), doc.completionDate), 0);
      forall id' | id' in db.enrollments && ForPair(userId, courseId)(db.enrollments[id'])
        ensures StrLe(id, id')
      {
        var j :| 0 <= j < |found| && found[j] == (id', db.enrollments[id']);
        if j == 0 {
          StrLeTotal(id, id);
        } else {
          assert InOrder(IdKey(found[0]), IdKey(found[j]), false);
        }
      }
    }

    /**
     * `findByUser(userId, status)`: the user's enrollments, only those with the given status
     * when one is given, newest enrolment first, each read through the constructor.
     */
    static method FindByUser(db: Db, userId: string, status: Option<string>)
      returns (es: seq<(string, EnrollmentDoc)>)
      ensures exists sel: seq<(string, EnrollmentDoc)> :: (SelectionOf(sel, db.enrollments, ForUser(userId, status))
        && SortedOn(sel, EnrolledAtKey, true)
        && |es| == |sel| && forall i :: 0 <= i < |sel| ==> es[i] == (sel[i].0, FromStored(sel[i].1)))
    {
      var sel := ListOrdered(db.enrollments, ForUser(userId, status), EnrolledAtKey, true);
      es := [];
      for i := 0 to |sel|
        invariant |es| == i
        invariant forall j :: 0 <= j < i ==> es[j] == (sel[j].0, FromStored(sel[j].1))
      {
        es := es + [(sel[i].0, FromStored(sel[i].1))];
      }
    }

    /**
     * `update(updates)`: the access time is added to the fields, they are written to the
     * stored document, which must exist, and then assigned to the object. When the store
     * refuses the write (no id, or no such document), nothing changes and `ok` is false.
     */
    method Update(patch: EnrollmentPatch, db: Db, now: int) returns (ok: bool)
      modifies this, db`enrollments
      ensures ok <==> Stored(old(id), old(db.enrollments))
      ensures id == old(id)
      ensures ok ==>
        && Doc() == Patched(old(Doc()), Stamped(patch, now))
        && db.enrollments == old(db.enrollments)[id.value := Patched(old(db.enrollments)[id.value], Stamped(patch, now))]
      ensures !ok ==> Doc() == old(Doc()) && db.enrollments == old(db.enrollments)
    {
      var updates := Stamped(patch, now);
      if !Stored(id, db.enrollments) {
        return false;
      }
      db.enrollments := db.enrollments[id.value := Patched(db.enrollments[id.value], updates)];
      var d := Patched(Doc(), updates);
      userId, courseId, enrolledAt, progress := d.userId, d.courseId, d.enrolledAt, d.progress;
      completedLessons, status, lastAccessed, completionDate := d.completedLessons, d.status, d.lastAccessed, d.completionDate;
      return true;
    }

    /**
     * `completeLesson(lessonId)`: a lesson not yet completed is appended to the list, then the
     * list is written through `update`; a lesson already completed changes nothing, not even
     * the access time. The append happens before the write, so it stays when the write fails.
     */
    method CompleteLesson(lessonId: string, db: Db, now: int) returns (ok: bool)
      modifies this, db`enrollments
      ensures id == old(id)
      ensures completedLessons == AddOnce(old(completedLessons), lessonId)
      ensures lessonId in old(completedLessons) ==> ok && Doc() == old(Doc()) && db.enrollments == old(db.enrollments)
      ensures lessonId !in old(completedLessons) ==>
        var p := NoChange.(completedLessons := Some(old(completedLessons) + [lessonId]));
        && (ok <==> Stored(old(id), old(db.enrollments)))
        && (ok ==> Doc() == Patched(old(Doc()), Stamped(p, now))
                   && db.enrollments == old(db.enrollments)[id.value := Patched(old(db.enrollments)[id.value], Stamped(p, now))])
        && (!ok ==> Doc() == old(Doc()).(completedLessons := old(completedLessons) + [lessonId])
                    && db.enrollments == old(db.enrollments))
    {
      if lessonId in completedLessons {
        return true;
      }
      completedLessons := completedLessons + [lessonId];
      ok := Update(NoChange.(completedLessons := Some(completedLessons)), db, now);
    }

    /** `updateProgress(progress)`: writes the fields `ProgressPatch` chooses through `update`. */
    method UpdateProgress(progress: int, db: Db, now: int) returns (ok: bool)
      modifies this, db`enrollments
      ensures id == old(id)
      ensures ok <==> Stored(old(id), old(db.enrollments))
      ensures ok ==>
        var p := Stamped(ProgressPatch(old(status), progress, now), now);
        && Doc() == Patched(old(Doc()), p)
        && db.enrollments == old(db.enrollments)[id.value := Patched(old(db.enrollments)[id.value], p)]
      ensures !ok ==> Doc() == old(Doc()) && db.enrollments == old(db.enrollments)
    {
      var updates := ProgressPatch(status, progress, now);
      ok := Update(updates, db, now);
    }

    /** `cancel()`: writes status `cancelled` through `update`. */
    method Cancel(db: Db, now: int) returns (ok: bool)
      modifies this, db`enrollments
      ensures id == old(id)
      ensures ok <==> Stored(old(id), old(db.enrollments))
      ensures ok ==>
        && Doc() == old(Doc()).(status := "cancelled", lastAccessed := now)
        && db.enrollments == old(db.enrollments)[id.value := Patched(old(db.enrollments)[id.value], Stamped(CancelPatch, now))]
      ensures !ok ==> Doc() == old(Doc()) && db.enrollments == old(db.enrollments)
    {
      ok := Update(CancelPatch, db, now);
    }
  }
}
