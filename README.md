# E-learning back ends: a verified model

The repository has two CRUD back ends for an e-learning site (users, courses, categories,
enrollments), and both sit on a document store:

- Python Cloud Functions under `functions/`;
- an Express server under `backend/`.

This project models the logic that runs between the calls to the store:

- how records are built and their defaults;
- the enrollment state machine: create once per (user, course), lesson progress, completion, review, cancel;
- user and category counters and the user field whitelist;
- the course catalogue: adding lessons with their order numbers and the duration sum;
  client-side filtering and sorting; case-insensitive search;
- the route handlers: their status codes, the order of their guards, and the writes they make;
- the CORS origin predicate and the `Authorization: Bearer` check
  (a simplified form of section 2.1 of RFC 6750);
- the export transform, `convert_to_serializable`, and the export counters.

The store is a map from document id to record. On the Python side it is held in `PyStore.Db`
and records are JSON-like dictionaries (`Json.Value`, kept as association lists in insertion
order as Python dicts are). On the JavaScript side it is held in `JsStore.Db` and records are
typed. Clock values, generated ids and the identity service are parameters.

Objects whose methods reassign their fields are classes:
- the Python `User`, `Enrollment` and `Category` are `PyUser.User`, `PyEnrollment.Enrollment` and `PyCategory.Category`;
- the JavaScript `Enrollment` and `Course` are `JsEnrollment.Enrollment` and `JsCourse.Course`.

Each method states its new state and the new store. Where it works through a pure function,
the function's properties are proved as lemmas. Listings are specified as selections:
`Query.SelectionOf` means exactly the matching documents, each once. Sorting is an insertion
sort, `Ordering.SortOn`, which is proved to sort and to permute its input.

Modules:
- `Base`, `Json`, `Text`, `Ordering`, `Query`, `Http`: shared vocabulary.
- Python side: `PyStore`, `PyUser`, `PyEnrollment`, `PyCategory`, `PyAuth`, `Export`.
- JavaScript side: `JsStore`, `JsEnrollment`, `JsCourse`, `Cors`, `EnrollmentRoutes`,
  `CourseRoutes`, `CategoryRoutes`.

Two behaviours of the code are easy to miss, and the model follows the code in both:
- the comment at functions/models/enrollment.py:28 calls the rating "1-5 stars", but `add_review` stores any rating without a range check (functions/models/enrollment.py:192-210);
- the Express `POST /enrollments` raises the course's `studentsCount` by one (backend/routes/enrollments.js:72).

## Model

| member | source | states |
|---|---|---|
| PyUser.FreshDefaults | functions/models/user.py:5-33 | a user built from no data has role 'student', enrollment_count 0, an incomplete profile, the default preferences, all four stats counters (courses_completed, total_learning_time, certificates_earned, current_streak) 0 and both timestamps set to the current time |
| PyUser.ToDict | functions/models/user.py:40-56 | the dictionary has exactly the thirteen persisted keys, each once |
| PyUser.RoundTrip | functions/models/user.py:35-56 | building a user from its own dictionary gives back the same user when both timestamps are set |
| PyUser.SetAttr | functions/models/user.py:89-91 | setting one whitelisted attribute changes that attribute only; uid, email, role, enrollment_count, stats and the timestamps are untouched |
| PyUser.UpdateKeepsProtected | functions/models/user.py:82-94 | update never changes an attribute outside the whitelist, whatever keys the data holds |
| PyUser.UpdateSetsAllowed | functions/models/user.py:84-91 | after update each whitelisted attribute holds the data's value when the key is present and its old value otherwise |
| PyUser.Validate | functions/models/user.py:111-121 | there are no errors exactly when the email is truthy and the role is known; each message appears exactly when its condition fails, in source order |
| PyUser.BumpStat | functions/models/user.py:104-107 | the stats update succeeds exactly when stats is a dict that has the key and `+=` is defined on its value and the delta (it raises on a non-numeric value) |
| PyUser.BumpStatEffect | functions/models/user.py:104-107 | a successful bump adds delta to that key and leaves every other key and the key order unchanged |
| PyUser.StatsAfterEffect | functions/models/user.py:102-109 | a successful stats update adds the learning time to total_learning_time, adds one to courses_completed only when the course was completed, and keeps the other keys |
| PyUser.User.constructor | functions/models/user.py:5-33 | the object's attributes are those built from the keyword data |
| PyUser.User.GetById | functions/models/user.py:58-69 | returns null exactly when no document has that id, otherwise the user built from the stored document |
| PyUser.User.Save | functions/models/user.py:71-80 | stamps updated_at; writes to_dict under uid (or a fresh id) and returns false with no write when the id is unusable |
| PyUser.User.Update | functions/models/user.py:82-94 | the object is the whitelisted merge of the data, stamped; the store holds its dictionary under its id |
| PyUser.User.IncrementEnrollmentCount | functions/models/user.py:96-100 | raises with no change when the count is not numeric; otherwise the count goes up by exactly one, stats are unchanged and the user is saved |
| PyUser.User.UpdateLearningStats | functions/models/user.py:102-109 | raises exactly when the stats update is impossible, and then nothing is written and the stats keep the first bump when only the second addition raised; otherwise the stats are the updated ones and the user is saved |
| PyEnrollment.ToDict | functions/models/enrollment.py:37-51 | the dictionary has exactly the eleven persisted keys, each once |
| PyEnrollment.RoundTrip | functions/models/enrollment.py:33-51 | from_dict(to_dict(e)) reproduces every field of e when its id and enrolled_at are set |
| PyEnrollment.NewEnrollmentDefaults | functions/models/enrollment.py:6-30 | a new enrollment is 'active', uncertified, with no completed lessons, current lesson 0, no time spent and no rating, review or reviewed_at |
| PyEnrollment.NewEnrollmentPair | functions/models/enrollment.py:63-66 | the new enrollment carries the given user, course and generated id |
| PyEnrollment.ToDictPair | functions/models/enrollment.py:40-42 | the stored dictionary names the enrollment's user and course |
| PyEnrollment.AddKeepsOnePerPair | functions/models/enrollment.py:58-67 | adding a record for a pair not yet enrolled, under a new id, keeps at most one enrollment per (user, course) |
| PyEnrollment.CreateKeepsOnePerPair | functions/models/enrollment.py:58-67 | creating an enrollment after the existence check keeps at most one enrollment per (user, course) |
| PyEnrollment.ProgressAppendedEffect | functions/models/enrollment.py:142-143 | the completed lessons gain the lesson only when it is absent; every other progress key is unchanged |
| PyEnrollment.ProgressAfterEffect | functions/models/enrollment.py:142-150 | time spent is added even for a repeated lesson, last_accessed is now, current_lesson is the number of completed lessons, other keys unchanged |
| PyEnrollment.ProgressNoDup | functions/models/enrollment.py:142-143 | update_progress never puts a duplicate into completed_lessons and the lesson is afterwards present |
| PyEnrollment.CountWriteEffect | functions/models/enrollment.py:70-73 | when the user is missing the users are unchanged; otherwise that user's enrollment_count is one higher in the saved document |
| PyEnrollment.StatsWriteEffect | functions/models/enrollment.py:171-177 | when the user is missing the users are unchanged; otherwise the saved stats are the completed-course update with the given learning time |
| PyEnrollment.Enrollment.constructor | functions/models/enrollment.py:6-30 | the object's attributes are those built from the keyword data and the generated id |
| PyEnrollment.Enrollment.GetUserCourseEnrollment | functions/models/enrollment.py:81-97 | returns null exactly when the user has no enrollment in the course, otherwise the first one in id order |
| PyEnrollment.Enrollment.GetUserEnrollments | functions/models/enrollment.py:100-117 | exactly the user's enrollments, each once, newest enrolled_at first |
| PyEnrollment.Enrollment.CreateEnrollment | functions/models/enrollment.py:54-78 | an existing pair returns its enrollment and writes nothing; otherwise exactly one record is added and the user's count goes up only if the user exists |
| PyEnrollment.Enrollment.WriteNew | functions/models/enrollment.py:62-75 | the new record goes under the generated id and the user counter write is the one CountWrite describes |
| PyEnrollment.Enrollment.UpdateProgress | functions/models/enrollment.py:138-161 | false and no write when completed_lessons is not a list or the sum fails; otherwise the progress is the updated one and is merged into the stored record |
| PyEnrollment.Enrollment.CreditCompletion | functions/models/enrollment.py:170-177 | succeeds exactly when the user stats write succeeds, and the users become its result; on failure the users are unchanged |
| PyEnrollment.Enrollment.CompleteCourse | functions/models/enrollment.py:163-190 | status becomes 'completed', completed_at now and completion_percentage 100; false with no write when progress is not a dict; otherwise the users are credited when the stats write succeeds, and the enrollment is updated only when that and the document update both succeed, so a failed update leaves the user credited |
| PyEnrollment.Enrollment.AddReview | functions/models/enrollment.py:192-210 | the rating, review and reviewed_at are set; the three fields are merged into the stored record, false when it is missing |
| PyStore.SetKey | functions/models/user.py:76 | `document(id)` has a key exactly for a string id, which is used as is, or for None, which takes a generated id |
| PyStore.Lookup | functions/models/user.py:63-66 | a lookup succeeds exactly for a stored string id and yields that document |
| PyStore.Updated | functions/models/enrollment.py:154-156 | an update succeeds exactly when the document exists, and keeps the set of ids |
| PyStore.UpdatedDoc | functions/models/enrollment.py:154-156 | the update merges the given keys into that one document; other documents are untouched |
| PyCategory.EmptyDefaults | functions/models/category.py:15-25 | a category built from no data has empty strings, coursesCount 0 and both timestamps now |
| PyCategory.ToDict | functions/models/category.py:27-36 | to_dict returns the raw data when there is any, otherwise the seven attributes each once |
| PyCategory.ToDictRoundTrip | functions/models/category.py:15-36 | building a category from its attribute dictionary gives back the same attributes |
| PyCategory.SavedDataEffect | functions/models/category.py:43-48 | saved data gets the generated id, keeps an existing createdAt (else now), has updatedAt now, and keeps every other key |
| PyCategory.SetAttrsEffect | functions/models/category.py:62-63 | after the update each attribute holds the update's value when given and its old value otherwise |
| PyCategory.CountsAgree | functions/models/category.py:72-78 | when the cached count is an integer equal to the stored one, or both are unset, the stored coursesCount after the increment equals the locally recomputed count |
| PyCategory.BoolCountDiverges | functions/models/category.py:72-78 | a boolean count is where they part: the store replaces `True` by delta while Python computes delta + 1 |
| PyCategory.ListedMatches | functions/models/category.py:105-113 | every listed category has each filtered field other than `id` equal to the filter's value (the listed `id` is the document id) |
| PyCategory.Category.constructor | functions/models/category.py:15-25 | keeps the raw data and builds the attributes from it |
| PyCategory.Category.Save | functions/models/category.py:38-50 | false and nothing changes without a store; otherwise the saved data is written under the new id |
| PyCategory.Category.Update | functions/models/category.py:52-64 | false and nothing changes without a store or an id; otherwise the attributes take the updates and the stamped updates are merged into the stored document |
| PyCategory.Category.IncrementCourseCount | functions/models/category.py:66-83 | nothing is written and the result is false without a store, an id, an integer delta (the store refuses a boolean increment) or the document; otherwise the store raises an integer count by delta and replaces any other value by delta, and the local count becomes `(coursesCount or 0) + delta` with the result false when that addition raises |
| PyCategory.Category.GetById | functions/models/category.py:85-96 | None without a store or for a None id; raises for a non-string id; otherwise the stored category or None |
| PyCategory.Category.FindAll | functions/models/category.py:98-114 | exactly the categories matching every filter, each once, in id order; empty without a store |
| PyAuth.SplitBearer | functions/controllers/auth_controller.py:17 | splitting a "Bearer " header on spaces gives "Bearer" followed by the pieces of the rest |
| PyAuth.BearerTokenText | functions/controllers/auth_controller.py:17 | the token is the text after "Bearer " up to the next space, and it is the whole rest exactly when the rest has no space |
| PyAuth.VerifyToken | functions/controllers/auth_controller.py:9-25 | a missing header, or one without the "Bearer " prefix, is a 401 "No token provided" |
| PyAuth.NoBearerCallsNothing | functions/controllers/auth_controller.py:13-15 | without the bearer prefix neither the verifier nor the handler influences the reply |
| PyAuth.VerifiedRunsHandler | functions/controllers/auth_controller.py:17-23 | with the prefix, a rejected token is a 401 "Invalid token" and a verified token gives exactly the handler's reply for its claims |
| PyAuth.GetUserProfile | functions/controllers/auth_controller.py:27-58 | an absent user is built from the identity service's record for the uid, stored and returned; a present one is returned with no write |
| PyAuth.RegisterUser | functions/controllers/auth_controller.py:60-91 | the reply is 201 or 400; 400 exactly when success is false, and then nothing is written; a body that is not a dict is a 400; a 201 stores the new profile under the new uid |
| Cors.Allowed | backend/server.js:21-40 | an origin is allowed exactly when it is absent or empty, or starts with one of the four local development prefixes; every other origin is refused |
| Cors.LocalPortsAllowed | backend/server.js:26-31 | every port on localhost or 127.0.0.1, over http or https, is allowed |
| Cors.NearMissesRejected | backend/server.js:26-39 | origins that only resemble the allowed ones are rejected |
| Cors.AllowedExtends | backend/server.js:26-29 | extending an origin allowed by a local prefix keeps it allowed |
| Export.SerializeFields | functions/export_data.py:67-68 | a converted dict keeps its keys in order |
| Export.SerializeItems | functions/export_data.py:69-70 | a converted list keeps its length |
| Export.SerializeShape | functions/export_data.py:65-74 | conversion keeps the kind of every value and turns timestamps into strings |
| Export.SerializeSerializable | functions/export_data.py:65-74 | a converted value contains no timestamp anywhere |
| Export.SerializableFixed | functions/export_data.py:71-74 | a value without timestamps is left exactly as it is |
| Export.SerializeIdempotent | functions/export_data.py:65-74 | converting twice is the same as converting once |
| Export.SerializeGet | functions/export_data.py:67-68 | the converted dict's value at a key is the conversion of the original value at that key |
| Export.ExportedDocId | functions/export_data.py:86-88 | each exported record carries its document id and the converted document |
| Export.ExportCollection | functions/export_data.py:77-107 | on success the count is the number of documents and the file lists each exported document with that count; on a store failure the count is 0 and no file is written |
| Export.EnrollmentRecordFields | functions/export_data.py:119-133 | each enrollment record carries its id and, when the course exists, the whole converted course document with the course id added |
| Export.ExportEnrollmentsWithCourses | functions/export_data.py:110-155 | the count is the number of enrollments and each is joined with its course; the count is 0 and no file is written when the store or a course lookup fails |
| Export.Successful | functions/export_data.py:167 | the number of successful collections is at most the number of collections |
| Export.SuccessfulCounts | functions/export_data.py:167 | a collection counts as successful exactly when its count is positive |
| Export.SuccessfulAtMostTotal | functions/export_data.py:166-168 | with no negative counts, the number of successful collections is at most the total number of exported documents |
| Export.Summary | functions/export_data.py:158-178 | the summary records the number of collections, the successful ones and the total documents |
| Export.ScriptSummary | functions/export_data.py:205-216 | the script's summary counts exactly the collections it exported |
| JsStore.SaveKey | backend/models/Enrollment.js:20-26 | save keeps a truthy id and otherwise takes the generated one |
| JsStore.OrElse | backend/models/Enrollment.js:12 | `x \|\| d` is x when x is truthy and d otherwise |
| JsStore.DurationAppend | backend/models/Course.js:201 | the duration of two lesson lists joined is the sum of their durations |
| JsStore.DurationBounds | backend/models/Course.js:201 | with non-negative lesson durations the total is non-negative and at least each lesson's duration |
| JsEnrollment.Initial | backend/models/Enrollment.js:5-15 | keeps user and course; the status is the given truthy one or 'active' |
| JsEnrollment.FreshEnrollment | backend/models/Enrollment.js:5-15 | a new enrollment is 'active' with progress 0, no lessons, no completion date, and both timestamps now |
| JsEnrollment.FromStored | backend/models/Enrollment.js:51 | a loaded enrollment is the stored one with an empty status read as 'active' |
| JsEnrollment.FromStoredKeeps | backend/models/Enrollment.js:12 | loading changes nothing when the status is non-empty and is idempotent |
| JsEnrollment.PatchedIdempotent | backend/models/Enrollment.js:98-108 | applying the same update twice is the same as once, and an empty update changes nothing |
| JsEnrollment.ProgressPatch | backend/models/Enrollment.js:125-135 | always sets progress; sets status 'completed' and the completion date exactly when progress reaches 100 and the status is not already 'completed' |
| JsEnrollment.CompletedIsFinal | backend/models/Enrollment.js:129 | once completed, a progress update keeps the status and the completion date |
| JsEnrollment.ProgressStatus | backend/models/Enrollment.js:125-135 | after a progress update the status is 'completed' exactly when it was or when progress reached 100 |
| JsEnrollment.CompletedLessonsStayDistinct | backend/models/Enrollment.js:111-122 | completing a lesson adds it only when absent, so the lessons stay distinct |
| Base.AddOnceNoDup | backend/models/Enrollment.js:112-113 | adding an element only when absent keeps a list free of duplicates |
| JsEnrollment.Enrollment.constructor | backend/models/Enrollment.js:5-15 | the object is the record built with the constructor's defaults |
| JsEnrollment.Enrollment.Save | backend/models/Enrollment.js:18-40 | the id is kept when truthy or generated, and the record is written under it |
| JsEnrollment.Enrollment.FindById | backend/models/Enrollment.js:43-52 | null exactly when the id is not stored, otherwise the loaded record |
| JsEnrollment.Enrollment.FindByUserAndCourse | backend/models/Enrollment.js:55-69 | null exactly when no record has that user and course, otherwise the first such record in id order |
| JsEnrollment.Enrollment.FindByUser | backend/models/Enrollment.js:72-84 | exactly the user's enrollments (with the status when given), each once, newest enrolledAt first |
| JsEnrollment.Enrollment.Update | backend/models/Enrollment.js:98-108 | succeeds exactly when the record is stored; the object and the stored record take the update with lastAccessed stamped |
| JsEnrollment.Enrollment.CompleteLesson | backend/models/Enrollment.js:111-122 | a present lesson changes nothing; otherwise it is appended and the record is updated |
| JsEnrollment.Enrollment.UpdateProgress | backend/models/Enrollment.js:125-135 | the record takes the progress patch, whose completion guard is stated by ProgressPatch |
| JsEnrollment.Enrollment.Cancel | backend/models/Enrollment.js:138-140 | the status becomes 'cancelled' in the object and in the store |
| JsCourse.Initial | backend/models/Course.js:5-21 | missing rating and count are 0, lessons empty, unpublished and timestamps now; the other fields are taken from the data |
| JsCourse.FromStoredIsStored | backend/models/Course.js:65 | loading a stored course gives back exactly the stored record |
| JsCourse.UpdateOnlyGiven | backend/models/Course.js:174-184 | an update changes exactly the given fields and updatedAt |
| JsCourse.AddLessonEffect | backend/models/Course.js:193-201 | the lesson is appended with order equal to the new length and an id, earlier lessons unchanged, and the duration is the sum over the lessons |
| JsCourse.ServerQueryOf | backend/models/Course.js:73-98 | without isPublished the query keeps exactly the courses of the category, or of the difficulty when no category is given, that have the order field; it orders newest first by default, on sortBy when no category is given, and on sortBy within a category unless sortBy is createdAt; with isPublished it is unordered and keeps every matching course |
| JsCourse.SearchIgnoresCase | backend/models/Course.js:162-167 | whether a course matches does not depend on the case of the term |
| Text.LowerIdempotent | backend/models/Course.js:164-166 | lowercasing twice is lowercasing once |
| JsCourse.Course.constructor | backend/models/Course.js:5-21 | the object is the record built with the constructor's defaults |
| JsCourse.Course.AssignContent | backend/models/Course.js:182 | the first half of `Object.assign(this, updates)`: the seven descriptive fields take the updated record's values |
| JsCourse.Course.AssignState | backend/models/Course.js:182 | the second half of `Object.assign(this, updates)`: the other seven fields take the updated record's values |
| JsCourse.Course.Save | backend/models/Course.js:24-54 | the id is kept when truthy or generated and updatedAt is now; the record is written under the id exactly when its thumbnail is defined, since the store refuses an undefined field |
| JsCourse.Course.FindById | backend/models/Course.js:57-66 | null exactly when the id is not stored, otherwise the stored record |
| JsCourse.Course.Update | backend/models/Course.js:174-184 | succeeds exactly when the course is stored; the object and the stored record take the update, stamped |
| JsCourse.Course.AddLesson | backend/models/Course.js:193-204 | the lessons gain the numbered lesson and the duration is their sum; the update is stored when the course is |
| JsCourse.Course.UpdateStudentsCount | backend/models/Course.js:207-209 | the stored course gets the new count and a new updatedAt when it is stored |
| JsCourse.ServerResults | backend/models/Course.js:69-105 | every result is a stored course the store query keeps, each once, in the query's order (document-id order when it has none), at most limit of them, all of them when there is no limit, and every course the limit drops ranks after every course it keeps |
| JsCourse.ClientFiltered | backend/models/Course.js:107-114 | keeps exactly the results that pass the client-side published and difficulty filters |
| JsCourse.ClientFilteredSorted | backend/models/Course.js:107-114 | the client-side filters keep the order of the server's results |
| JsCourse.FindAll | backend/models/Course.js:69-133 | every result is a stored course matching the filters, at most limit of them; without a limit every stored course the store query keeps and the client filters pass is returned; sorted on sortBy when published is filtered and sortBy is given, in id order when published is filtered without sortBy; otherwise newest first by default, on sortBy without a category, on sortBy within a category unless it is createdAt, and in id order in the remaining category case |
| JsCourse.Search | backend/models/Course.js:149-171 | exactly the published courses in the category whose title, description or instructor contains the term ignoring case |
| Ordering.SortOnSorted | backend/models/Course.js:117-130 | the sort's output is ordered on the key in the requested direction |
| Ordering.SortOnPerm | backend/models/Course.js:117-130 | the sort's output is a permutation of its input |
| Query.ListWhere | backend/routes/courses.js:13-15 | exactly the stored documents that pass the filter, each once, in id order |
| Query.ListOrdered | backend/models/Enrollment.js:74-82 | exactly the stored documents that pass the filter, each once, ordered on the key |
| Query.Limit | backend/models/Course.js:100-102 | a limited listing is a prefix of the listing, of at most limit entries |
| Query.LimitKeepsFirst | backend/models/Course.js:100-102 | a limit on an ordered listing stays ordered, and every entry it drops ranks after every entry it keeps |
| Query.Filter | backend/models/Course.js:108-114 | keeps exactly the entries that pass the predicate |
| EnrollmentRoutes.LessonPercentRounds | backend/routes/enrollments.js:136-138 | the percentage is completed/total*100 rounded half up |
| EnrollmentRoutes.LessonPercentAtMost100 | backend/routes/enrollments.js:136-138 | the percentage is between 0 and 100 when at most every lesson is completed |
| EnrollmentRoutes.LessonPercentEnds | backend/routes/enrollments.js:136-138 | no lessons completed gives 0 and all completed gives 100 |
| EnrollmentRoutes.LessonPercentMonotone | backend/routes/enrollments.js:136-138 | completing more lessons never lowers the percentage |
| EnrollmentRoutes.Denied | backend/routes/enrollments.js:91-100 | a missing enrollment is a 404 and another user's a 403, checked in that order |
| EnrollmentRoutes.Enroll | backend/routes/enrollments.js:39-83 | a missing course id is a 400, an unknown course a 404, an existing pair a 400 carrying the first such enrollment in id order, all with no write; otherwise one 'active' enrollment is added, studentsCount goes up by one and the reply is 201 |
| EnrollmentRoutes.EnrollKeepsOnePerPair | backend/routes/enrollments.js:55-69 | a successful enrollment keeps at most one enrollment per (user, course) |
| EnrollmentRoutes.GetEnrollment | backend/routes/enrollments.js:86-113 | after the two guards, a 200 with the enrollment and its course when that course exists; nothing is written |
| EnrollmentRoutes.CompleteLesson | backend/routes/enrollments.js:116-151 | after the two guards the lesson is recorded; with the course present the progress is the lesson percentage and the reply is 200; with it missing the reply is 500 and the store keeps only the recorded lesson (and its access time when the lesson was new) |
| EnrollmentRoutes.RecordLesson | backend/routes/enrollments.js:132-146 | records the lesson, then sets the progress from the course's lesson count; a missing course is a 500 with only the lesson recorded |
| EnrollmentRoutes.SetProgress | backend/routes/enrollments.js:154-186 | progress outside 0..100 is a 400 before any lookup; after the two guards the progress patch is stored |
| EnrollmentRoutes.Decremented | backend/routes/enrollments.js:208-211 | the decremented count is never negative for a positive count |
| EnrollmentRoutes.Cancel | backend/routes/enrollments.js:189-221 | after the two guards the enrollment is 'cancelled'; studentsCount goes down by one only when it is positive |
| CourseRoutes.ListPublished | backend/routes/courses.js:10-33 | exactly the published courses, each once; count equals the number returned |
| CourseRoutes.SearchCourses | backend/routes/courses.js:36-55 | a missing term is a 400; otherwise the search results and their count |
| CourseRoutes.GetCourse | backend/routes/courses.js:58-75 | a 404 for an unknown id, otherwise the course |
| CourseRoutes.NewCourseDefaults | backend/routes/courses.js:97-111 | instructor 'Unknown', difficulty 'Beginner', price 0 and no lessons by default; duration is the sum of the lesson durations |
| CourseRoutes.CreateCourse | backend/routes/courses.js:78-124 | a body without title, description or category is a 400 with no write; a body without a thumbnail is a 500 with no write, since the store refuses the undefined field; otherwise the new course is saved and the reply is 201 |
| CourseRoutes.Recomputed | backend/routes/courses.js:138-140 | updates carrying lessons get the duration of those lessons; other updates pass unchanged |
| CourseRoutes.UpdatedDuration | backend/routes/courses.js:131-140 | after an update with lessons the course's duration is the sum of its new lessons |
| CourseRoutes.UpdateCourse | backend/routes/courses.js:127-153 | a 404 with no write for an unknown id; otherwise the recomputed update is stored |
| CourseRoutes.AddLesson | backend/routes/courses.js:156-177 | a 404 with no write for an unknown id; otherwise the course gains the lesson |
| CourseRoutes.DeleteCourse | backend/routes/courses.js:180-199 | a 404 with no write for an unknown id; otherwise the course is removed and nothing else changes |
| CategoryRoutes.ListCategories | backend/routes/categories.js:8-19 | every category once, ordered by name |
| CategoryRoutes.GetCategory | backend/routes/categories.js:22-39 | a 404 for an unknown id, otherwise the category |
| CategoryRoutes.NewCategory | backend/routes/categories.js:50-54 | the given name and description, the icon or 'default', a count of 0 |
| CategoryRoutes.CreateCategory | backend/routes/categories.js:42-67 | a missing name or description is a 400 with no write; otherwise the category is saved under the new id and the reply is 201 |
| CategoryRoutes.PatchedFields | backend/models/Category.js:57-66 | `Object.assign` with the update changes exactly the given fields (name, description, icon, coursesCount, createdAt) and keeps the others; applying it twice is applying it once |
| CategoryRoutes.UpdateCategory | backend/routes/categories.js:70-91 | a 404 with no write for an unknown id; an empty body is a 500 with no write, since the store refuses an update with no fields; otherwise the patched category is stored |
| CategoryRoutes.DeleteCategory | backend/routes/categories.js:94-113 | a 404 with no write for an unknown id; otherwise the category is removed and nothing else changes |

## Left out

- Aliasing: a dict or list shared between the data passed to a constructor and the object built from it is copied in the model, so a later mutation through one is not seen through the other.
- Floating point: completion_percentage is the integer 100. `Math.round(completed / total * 100)` is the integer formula (200c + t) / (2t), which rounds the exact quotient half up.
- Unicode: `toLowerCase` is ASCII lowercasing; other letters are unchanged.
- Concurrency: the check-then-create race in create_enrollment and in `POST /enrollments` is not modelled; uniqueness per (user, course) is proved for sequential calls only.
- The `GET /enrollments/my-enrollments` route is not part of this model; its `Promise.all` course join is concurrent.
- Store behaviour: the store refuses a `set` whose record holds an `undefined` field and an `update` with no fields; the model captures these for a course without a thumbnail and an empty category update, the only places the core can produce them. A JSON `null` thumbnail, which the store accepts, is not distinguished from an absent one. The store's handling of empty document ids and ids containing '/' is not modelled. `:id` route parameters are assumed non-empty, and `Cancel` assumes the store has no course with an empty id.
- Composite indexes: the store refuses an equality filter combined with an `orderBy` on another field unless a composite index exists (backend/models/Course.js:79-82, and 86-90 together with 95-97). The model assumes the indexes exist and answers these queries.
- JsCourse.FieldKey: a course's `lessons` array has no sort key, so `findAll` sorted on `lessons` returns nothing in the model, where the store orders arrays element by element. For a field name no course has, the store also returns nothing, as the model does.
- Store ordering: ties in `orderBy` keep id order. Values are ordered missing first, then numbers, then strings. On the Python side integers and timestamps are both ordered as numbers, so they interleave, where the store orders by type first. Null, booleans, lists and maps all sort as missing values, the lowest.
- Clocks: the two clock reads of one call are one `now` value. Generated ids (`doc()`, `uuid4`, `lesson-${Date.now()}`) are parameters and may collide in the model.
- JavaScript dynamic types: records are narrowed to typed records. Keys outside the modelled fields are dropped from update bodies; a category update only records whether it had any, because an update with no keys at all is refused. A missing or non-numeric progress in `PUT /:id/progress` is not modelled. A stored course id that is empty is treated as a missing course.
- Json.Plus: models numeric `+=` only; Python's string and list concatenation through `+=` is not modelled.
- PyEnrollment.Enrollment.UpdateProgress: completed_lessons that is not a list is treated as a failed update, not as Python's behaviour on other sequence types.
- PyCategory.Category.Update: setattr for keys outside the seven modelled attributes is not modelled.
- Store availability: `get_db()` failing is the `connected` flag; a failure of `firestore.client()` itself is not modelled.
- Store failures in the export script are one `raises` flag; the script's file writes and printing are not modelled.
- Date formatting: `strftime` in the export (the IMF-fixdate layout of section 7.1.1.1 of RFC 7231) is an opaque function `fmt` from time to string.
- The identity service: token verification and user creation are function parameters.
- backend/models/Category.js is folded into `CategoryRoutes` rather than modelled as a class of its own: the constructor and `save` into `NewCategory` and `CreateCategory`, `findById` and `findAll` into `GetCategory` and `ListCategories`, `update` (backend/models/Category.js:57-66) into `PatchedFields` and `UpdateCategory`, `delete` into `DeleteCategory`. Its `updateCoursesCount`, which no route calls, is not part of this model.
- Pass-through code is not part of this model: functions/models/course.py, the route wiring files and functions/main.py.
- Course and enrollment operations that no core route uses are not part of this model: `findPublished`, `findByCourse`, `delete` and `updateRating`.
