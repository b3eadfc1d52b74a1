/**
 * The data export script's in-memory work: turning store documents into JSON-serialisable
 * values, assembling one export file per collection and the enrollment export joined with
 * course details, and the counting in the summary file. The store stream and the file
 * writes are outside the model; whether any of them raises is the parameter `raises`.
 */
module Export {
  import opened Base
  import opened Json

  /**
   * `convert_to_serializable`: dicts and lists are converted element by element, a datetime
   * becomes the string `fmt` renders it as, every other value is returned as it is.
   */
  function Serialize(v: Value, fmt: int -> string): (r: Value)
    decreases v, 1
  {
    match v
    case Obj(fields) => Obj(SerializeFields(fields, fmt))
    case Arr(items) => Arr(SerializeItems(items, fmt))
    case Time(t) => Str(fmt(t))
    case _ => v
  }

  /** The dict comprehension: same keys in the same order, each value converted. */
  function SerializeFields(d: Dict, fmt: int -> string): (r: Dict)
    decreases d, 0
    ensures |r| == |d|
    ensures forall i :: 0 <= i < |d| ==> r[i].key == d[i].key && r[i].val == Serialize(d[i].val, fmt)
  {
    if d == [] then [] else [Field(d[0].key, Serialize(d[0].val, fmt))] + SerializeFields(d[1..], fmt)
  }

  /** The list comprehension: same length, each item converted. */
  function SerializeItems(s: seq<Value>, fmt: int -> string): (r: seq<Value>)
    decreases s, 0
    ensures |r| == |s|
    ensures forall i :: 0 <= i < |s| ==> r[i] == Serialize(s[i], fmt)
  {
    if s == [] then [] else [Serialize(s[0], fmt)] + SerializeItems(s[1..], fmt)
  }

  /** A value `json.dump` accepts: no datetime anywhere inside it. */
  predicate Serializable(v: Value)
    decreases v
  {
    match v
    case Time(_) => false
    case Obj(fields) => forall i :: 0 <= i < |fields| ==> Serializable(fields[i].val)
    case Arr(items) => forall i :: 0 <= i < |items| ==> Serializable(items[i])
    case _ => true
  }

  /** Conversion keeps the shape: a dict keeps its keys, a list its length, a datetime becomes a string. */
  lemma SerializeShape(v: Value, fmt: int -> string)
    ensures v.Obj? <==> Serialize(v, fmt).Obj?
    ensures v.Obj? ==> Keys(Serialize(v, fmt).fields) == Keys(v.fields)
    ensures v.Arr? <==> Serialize(v, fmt).Arr?
    ensures v.Arr? ==> |Serialize(v, fmt).items| == |v.items|
    ensures v.Time? ==> Serialize(v, fmt) == Str(fmt(v.t))
    ensures !v.Obj? && !v.Arr? && !v.Time? ==> Serialize(v, fmt) == v
  {
  }

  /** The converted value is serialisable. */
  lemma {:induction false} SerializeSerializable(v: Value, fmt: int -> string)
    ensures Serializable(Serialize(v, fmt))
    decreases v
  {
    match v
    case Obj(fields) =>
      forall i | 0 <= i < |fields| ensures Serializable(SerializeFields(fields, fmt)[i].val) {
        SerializeSerializable(fields[i].val, fmt);
      }
    case Arr(items) =>
      forall i | 0 <= i < |items| ensures Serializable(SerializeItems(items, fmt)[i]) {
        SerializeSerializable(items[i], fmt);
      }
    case _ =>
  }

  /** A value that is already serialisable is returned unchanged. */
  lemma {:induction false} SerializableFixed(v: Value, fmt: int -> string)
    requires Serializable(v)
    ensures Serialize(v, fmt) == v
    decreases v
  {
    match v
    case Obj(fields) =>
      forall i | 0 <= i < |fields| ensures SerializeFields(fields, fmt)[i] == fields[i] {
        SerializableFixed(fields[i].val, fmt);
      }
      assert SerializeFields(fields, fmt) == fields;
    case Arr(items) =>
      forall i | 0 <= i < |items| ensures SerializeItems(items, fmt)[i] == items[i] {
        SerializableFixed(items[i], fmt);
      }
      assert SerializeItems(items, fmt) == items;
    case _ =>
  }

  /** Converting twice is converting once. */
  lemma SerializeIdempotent(v: Value, fmt: int -> string)
    ensures Serialize(Serialize(v, fmt), fmt) == Serialize(v, fmt)
  {
    SerializeSerializable(v, fmt);
    SerializableFixed(Serialize(v, fmt), fmt);
  }

  /** Looking a key up in a converted dict finds the converted value. */
  lemma {:induction false} SerializeGet(d: Dict, fmt: int -> string, k: string)
    ensures Get(SerializeFields(d, fmt), k) ==
      match Get(d, k) case None => None case Some(v) => Some(Serialize(v, fmt))
    decreases d
  {
    if d != [] {
      assert SerializeFields(d, fmt)[1..] == SerializeFields(d[1..], fmt);
      SerializeGet(d[1..], fmt, k);
    }
  }

  /** One exported document: its fields plus its id under `id`, converted. */
  function ExportedDoc(id: string, doc: Dict, fmt: int -> string): Value
  {
    Serialize(Obj(Put(doc, "id", Str(id))), fmt)
  }

  /** An exported document carries its own id under `id`. */
  lemma ExportedDocId(id: string, doc: Dict, fmt: int -> string)
    ensures ExportedDoc(id, doc, fmt).Obj?
    ensures Get(ExportedDoc(id, doc, fmt).fields, "id") == Some(Str(id))
  {
    PutGet(doc, "id", Str(id), "id");
    SerializeGet(Put(doc, "id", Str(id)), fmt, "id");
  }

  /** The file contents in the API's list format. */
  function ListFile(data: seq<Value>): Value
  {
    Obj([Field("success", Bool(true)), Field("count", Int(|data|)), Field("data", Arr(data))])
  }

  /**
   * `export_collection` over the documents the stream yields, in order: the file holds every
   * document with its id, and the count is returned; if the stream or the write raises, the
   * result is 0 and no file is written.
   */
  method ExportCollection(docs: seq<(string, Dict)>, fmt: int -> string, raises: bool)
    returns (count: int, file: Option<Value>)
    ensures raises ==> count == 0 && file == None
    ensures !raises ==> count == |docs| && file.Some? && file.value.Obj?
    ensures !raises ==> file == Some(ListFile(seq(|docs|, i requires 0 <= i < |docs| => ExportedDoc(docs[i].0, docs[i].1, fmt))))
    ensures !raises ==> Get(file.value.fields, "count") == Some(Int(count))
  {
    if raises {
      return 0, None;
    }
    var data: seq<Value> := [];
    for i := 0 to |docs|
      invariant |data| == i
      invariant forall j :: 0 <= j < i ==> data[j] == ExportedDoc(docs[j].0, docs[j].1, fmt)
    {
      var (id, doc) := docs[i];
      var withId := Put(doc, "id", Str(id));
      data := data + [Serialize(Obj(withId), fmt)];
    }
    assert data == seq(|docs|, i requires 0 <= i < |docs| => ExportedDoc(docs[i].0, docs[i].1, fmt));
    return |data|, Some(ListFile(data));
  }

  /**
   * The course joined into one enrollment record: none when `course_id` is falsy or names no
   * course; the course's converted fields plus its id otherwise. A truthy id that is not a
   * string makes the store lookup raise.
   */
  function CourseOf(enrollment: Dict, courses: map<string, Dict>, fmt: int -> string): Outcome<Value>
  {
    var courseId := GetOr(enrollment, "course_id", Null);
    if !Truthy(courseId) then Returned(Null)
    else if !courseId.Str? then Raised
    else if courseId.s in courses then Returned(Serialize(Obj(Put(courses[courseId.s], "id", courseId)), fmt))
    else Returned(Null)
  }

  /** One record of the enrollment export, or `Raised` if the course lookup raises. */
  function EnrollmentRecord(id: string, doc: Dict, courses: map<string, Dict>, fmt: int -> string): Outcome<Value>
  {
    var e := Put(doc, "enrollment_id", Str(id));
    match CourseOf(e, courses, fmt)
    case Raised => Raised
    case Returned(course) => Returned(Serialize(Obj(Put(e, "course", course)), fmt))
  }

  /**
   * Every exported enrollment carries its document id under `enrollment_id`; its `course` is
   * null when the enrollment has no truthy `course_id` or the course does not exist, and the
   * course with its own id otherwise.
   */
  lemma EnrollmentRecordFields(id: string, doc: Dict, courses: map<string, Dict>, fmt: int -> string)
    requires EnrollmentRecord(id, doc, courses, fmt).Returned?
    ensures var r := EnrollmentRecord(id, doc, courses, fmt).value;
      && r.Obj?
      && Get(r.fields, "enrollment_id") == Some(Str(id))
      && (var courseId := GetOr(Put(doc, "enrollment_id", Str(id)), "course_id", Null);
          if Truthy(courseId) && courseId.Str? && courseId.s in courses
          then Get(r.fields, "course") == Some(Serialize(Obj(Put(courses[courseId.s], "id", courseId)), fmt))
               && Get(Serialize(Obj(Put(courses[courseId.s], "id", courseId)), fmt).fields, "id") == Some(courseId)
          else Get(r.fields, "course") == Some(Null))
  {
    var e := Put(doc, "enrollment_id", Str(id));
    var course := CourseOf(e, courses, fmt).value;
    var full := Put(e, "course", course);
    PutGet(e, "course", course, "enrollment_id");
    PutGet(doc, "enrollment_id", Str(id), "enrollment_id");
    PutGet(e, "course", course, "course");
    SerializeGet(full, fmt, "enrollment_id");
    SerializeGet(full, fmt, "course");
    SerializableFixed(Str(id), fmt);
    var courseId := GetOr(e, "course_id", Null);
    if Truthy(courseId) && courseId.Str? && courseId.s in courses {
      SerializeIdempotent(Obj(Put(courses[courseId.s], "id", courseId)), fmt);
      PutGet(courses[courseId.s], "id", courseId, "id");
      SerializeGet(Put(courses[courseId.s], "id", courseId), fmt, "id");
    }
  }

  /** Whether some enrollment's course lookup raises. */
  predicate AnyRaises(enrollments: seq<(string, Dict)>, courses: map<string, Dict>, fmt: int -> string)
  {
    exists i :: 0 <= i < |enrollments| && EnrollmentRecord(enrollments[i].0, enrollments[i].1, courses, fmt).Raised?
  }

  /**
   * `export_enrollments_with_courses`: every enrollment joined with its course, in stream
   * order; 0 and no file when anything raises.
   */
  method ExportEnrollmentsWithCourses(enrollments: seq<(string, Dict)>, courses: map<string, Dict>,
                                      fmt: int -> string, raises: bool)
    returns (count: int, file: Option<Value>)
    ensures raises || AnyRaises(enrollments, courses, fmt) ==> count == 0 && file == None
    ensures !raises && !AnyRaises(enrollments, courses, fmt) ==>
      count == |enrollments|
      && file == Some(ListFile(seq(|enrollments|, i requires 0 <= i < |enrollments| =>
                                  EnrollmentRecord(enrollments[i].0, enrollments[i].1, courses, fmt).value)))
  {
    if raises {
      return 0, None;
    }
    var data: seq<Value> := [];
    for i := 0 to |enrollments|
      invariant |data| == i
      invariant forall j :: 0 <= j < i ==>
        EnrollmentRecord(enrollments[j].0, enrollments[j].1, courses, fmt).Returned?
        && data[j] == EnrollmentRecord(enrollments[j].0, enrollments[j].1, courses, fmt).value
    {
      var (id, doc) := enrollments[i];
      var record := EnrollmentRecord(id, doc, courses, fmt);
      if record.Raised? {
        return 0, None;
      }
      data := data + [record.value];
    }
    assert data == seq(|enrollments|, i requires 0 <= i < |enrollments| =>
                         EnrollmentRecord(enrollments[i].0, enrollments[i].1, courses, fmt).value);
    return |data|, Some(ListFile(data));
  }

  /** `sum(collections_exported.values())` */
  function Total(exported: seq<(string, int)>): int
  {
    if exported == [] then 0 else exported[0].1 + Total(exported[1..])
  }

  /** `len([c for c in collections_exported.values() if c > 0])` */
  function Successful(exported: seq<(string, int)>): (n: nat)
    ensures n <= |exported|
  {
    if exported == [] then 0 else (if exported[0].1 > 0 then 1 else 0) + Successful(exported[1..])
  }

  /** All exports succeeded exactly when every count is positive, none when none is. */
  lemma {:induction false} SuccessfulCounts(exported: seq<(string, int)>)
    ensures Successful(exported) == |exported| <==> forall i :: 0 <= i < |exported| ==> exported[i].1 > 0
    ensures Successful(exported) == 0 <==> forall i :: 0 <= i < |exported| ==> exported[i].1 <= 0
  {
    if exported != [] {
      SuccessfulCounts(exported[1..]);
      assert forall i :: 1 <= i < |exported| ==> exported[i] == exported[1..][i - 1];
    }
  }

  /** Counts are never negative, so every successful export adds at least one document to the total. */
  lemma {:induction false} SuccessfulAtMostTotal(exported: seq<(string, int)>)
    requires forall i :: 0 <= i < |exported| ==> exported[i].1 >= 0
    ensures Successful(exported) <= Total(exported)
  {
    if exported != [] {
      SuccessfulAtMostTotal(exported[1..]);
    }
  }

  /**
   * `create_summary`: the summary record for the exported collections (name and count, in
   * insertion order) and their document total; `timestamp` and `directory` are the clock
   * reading and the output directory's name.
   */
  function Summary(exported: seq<(string, int)>, totalDocuments: int, timestamp: string, directory: string): (r: Dict)
    ensures Get(r, "total_collections") == Some(Int(|exported|))
    ensures Get(r, "successful_exports") == Some(Int(Successful(exported)))
    ensures Get(r, "total_documents") == Some(Int(totalDocuments))
  {
    var d := [Field("export_timestamp", Str(timestamp)),
     Field("export_method", Str("Direct Firestore Export")),
     Field("output_directory", Str(directory)),
     Field("total_collections", Int(|exported|)),
     Field("successful_exports", Int(Successful(exported))),
     Field("total_documents", Int(totalDocuments)),
     Field("collections_exported", Arr(seq(|exported|, i requires 0 <= i < |exported| => Str(exported[i].0))))];
    DistinctKeysUnique(d);
    UniqueGet(d);
    assert d[3].key == "total_collections" && d[4].key == "successful_exports" && d[5].key == "total_documents";
    d
  }

  /** The export's four collections in the order the script exports them. */
  function ExportedCounts(categories: int, courses: int, users: int, enrollments: int): seq<(string, int)>
  {
    [("categories", categories), ("courses", courses), ("users", users), ("enrollments", enrollments)]
  }

  /**
   * The summary the script writes: four collections, a document total equal to the sum of
   * the four counts, and at most four successful exports, none of which outnumber the documents.
   */
  lemma ScriptSummary(categories: nat, courses: nat, users: nat, enrollments: nat, timestamp: string, directory: string)
    ensures var exported := ExportedCounts(categories, courses, users, enrollments);
      var s := Summary(exported, Total(exported), timestamp, directory);
      && Get(s, "total_collections") == Some(Int(4))
      && Get(s, "total_documents") == Some(Int(categories + courses + users + enrollments))
      && Successful(exported) <= 4
      && Successful(exported) <= categories + courses + users + enrollments
  {
    var exported := ExportedCounts(categories, courses, users, enrollments);
    assert Total(exported[3..]) == enrollments;
    assert Total(exported[2..]) == users + enrollments by { assert exported[2..][1..] == exported[3..]; }
    assert Total(exported[1..]) == courses + users + enrollments by { assert exported[1..][1..] == exported[2..]; }
    SuccessfulAtMostTotal(exported);
  }
}
