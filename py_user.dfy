/**
 * The Python `User` model: a profile document in the `users` collection with a whitelisted
 * `update`, two counters kept in the document (`enrollment_count` and the `stats` dict) and a
 * `validate` check. Attributes hold whatever values they were given, as in Python.
 */
module PyUser {
  import opened Base
  import opened Json
  import opened PyStore

  /** The attributes of a `User`, in the order `to_dict` lists them. */
  datatype UserRec = UserRec(
    uid: Value, email: Value, displayName: Value, phone: Value, bio: Value, role: Value,
    profilePictureUrl: Value, enrollmentCount: Value, createdAt: Value, updatedAt: Value,
    profileComplete: Value, preferences: Value, stats: Value)

  const DefaultPreferences: Value := Obj([
    Field("notifications", Bool(true)),
    Field("email_updates", Bool(true)),
    Field("difficulty_preference", Str("beginner"))])

  const StatNames: seq<string> :=
    ["courses_completed", "total_learning_time", "certificates_earned", "current_streak"]

  const DefaultStats: Value := Obj([
    Field("courses_completed", Int(0)),
    Field("total_learning_time", Int(0)),
    Field("certificates_earned", Int(0)),
    Field("current_streak", Int(0))])

  const Roles: seq<Value> := [Str("student"), Str("instructor"), Str("admin")]

  /** The fields `update` may change. */
  const AllowedFields: seq<string> :=
    ["display_name", "phone", "bio", "profile_picture_url", "preferences", "profile_complete"]

  /**
   * `User(**kw)`: the keyword arguments given, with the documented defaults for the others;
   * `created_at` and `updated_at` fall back to the clock reading `now` when falsy.
   */
  function FromDict(kw: Dict, now: int): UserRec
  {
    UserRec(
      GetOr(kw, "uid", Null), GetOr(kw, "email", Null), GetOr(kw, "display_name", Null),
      GetOr(kw, "phone", Null), GetOr(kw, "bio", Null), GetOr(kw, "role", Str("student")),
      GetOr(kw, "profile_picture_url", Null), GetOr(kw, "enrollment_count", Int(0)),
      Or(GetOr(kw, "created_at", Null), Time(now)), Or(GetOr(kw, "updated_at", Null), Time(now)),
      GetOr(kw, "profile_complete", Bool(false)), GetOr(kw, "preferences", DefaultPreferences),
      GetOr(kw, "stats", DefaultStats))
  }

  /** The attribute names `to_dict` writes, in order. */
  const UserKeys: seq<string> := ["uid", "email", "display_name", "phone", "bio", "role", "profile_picture_url",
    "enrollment_count", "created_at", "updated_at", "profile_complete", "preferences", "stats"]

  lemma UserKeysDistinct()
    ensures Distinct(UserKeys)
  {
    forall i, j | 0 <= i < j < |UserKeys|
      ensures UserKeys[i] != UserKeys[j]
    {
      if |UserKeys[i]| == |UserKeys[j]| {
        assert UserKeys[i][0] != UserKeys[j][0];
      }
    }
  }

  /** `to_dict`: every attribute under its Python name, each key once. */
  function ToDict(u: UserRec): (d: Dict)
    ensures UniqueKeys(d)
    ensures Keys(d) == UserKeys
  {
    var d := Zip(UserKeys, [u.uid, u.email, u.displayName, u.phone, u.bio, u.role, u.profilePictureUrl,
      u.enrollmentCount, u.createdAt, u.updatedAt, u.profileComplete, u.preferences, u.stats]);
    UserKeysDistinct();
    DistinctKeyList(d);
    d
  }

  /** A user built with no arguments is a student with no enrollments and zeroed statistics. */
  lemma FreshDefaults(now: int)
    ensures var u := FromDict([], now);
      && u.role == Str("student") && u.enrollmentCount == Int(0)
      && u.profileComplete == Bool(false) && u.createdAt == Time(now) && u.updatedAt == Time(now)
      && u.preferences == DefaultPreferences && u.stats.Obj?
      && forall k :: k in StatNames ==> Get(u.stats.fields, k) == Some(Int(0))
  {
  }

  /**
   * `from_dict(to_dict(u))` gives back `u`, whatever the clock reads, as long as the two
   * timestamps are set (a falsy timestamp is replaced by the clock).
   */
  lemma RoundTrip(u: UserRec, now: int)
    requires Truthy(u.createdAt) && Truthy(u.updatedAt)
    ensures FromDict(ToDict(u), now) == u
  {
    var d := ToDict(u);
    UniqueGet(d);
    assert d[0].key == "uid" && d[1].key == "email" && d[2].key == "display_name";
    assert d[3].key == "phone" && d[4].key == "bio" && d[5].key == "role";
    assert d[6].key == "profile_picture_url" && d[7].key == "enrollment_count";
    assert d[8].key == "created_at" && d[9].key == "updated_at";
    assert d[10].key == "profile_complete" && d[11].key == "preferences" && d[12].key == "stats";
  }

  /** `a` and `b` agree on every attribute outside the whitelist. */
  predicate SameProtected(a: UserRec, b: UserRec)
  {
    && a.uid == b.uid && a.email == b.email && a.role == b.role
    && a.enrollmentCount == b.enrollmentCount && a.stats == b.stats
    && a.createdAt == b.createdAt && a.updatedAt == b.updatedAt
  }

  /** The value of one of the whitelisted attributes. */
  function Attr(u: UserRec, k: string): Value
    requires k in AllowedFields
  {
    match k
    case "display_name" => u.displayName
    case "phone" => u.phone
    case "bio" => u.bio
    case "profile_picture_url" => u.profilePictureUrl
    case "preferences" => u.preferences
    case "profile_complete" => u.profileComplete
  }

  /** `setattr(self, k, v)` for a whitelisted attribute. */
  function SetAttr(u: UserRec, k: string, v: Value): (r: UserRec)
    requires k in AllowedFields
    ensures Attr(r, k) == v
    ensures SameProtected(r, u)
    ensures forall k' :: k' in AllowedFields && k' != k ==> Attr(r, k') == Attr(u, k')
  {
    match k
    case "display_name" => u.(displayName := v)
    case "phone" => u.(phone := v)
    case "bio" => u.(bio := v)
    case "profile_picture_url" => u.(profilePictureUrl := v)
    case "preferences" => u.(preferences := v)
    case "profile_complete" => u.(profileComplete := v)
  }

  /** One iteration of the `update` loop: whitelisted keys are assigned, the rest ignored. */
  function Assign(u: UserRec, f: Field): UserRec
  {
    if f.key in AllowedFields then SetAttr(u, f.key, f.val) else u
  }

  /** The attributes after the `update` loop has run over `data` in order. */
  function ApplyAllowed(u: UserRec, data: Dict): UserRec
    decreases |data|
  {
    if data == [] then u else ApplyAllowed(Assign(u, data[0]), data[1..])
  }

  /** `update` never touches the id, e-mail, role, counters, statistics or timestamps. */
  lemma {:induction false} UpdateKeepsProtected(u: UserRec, data: Dict)
    ensures SameProtected(ApplyAllowed(u, data), u)
    decreases |data|
  {
    if data != [] {
      UpdateKeepsProtected(Assign(u, data[0]), data[1..]);
    }
  }

  /** Each whitelisted attribute takes the value `data` gives it, and keeps its own when `data` has none. */
  lemma {:induction false} UpdateSetsAllowed(u: UserRec, data: Dict, k: string)
    requires UniqueKeys(data) && k in AllowedFields
    ensures Attr(ApplyAllowed(u, data), k) == GetOr(data, k, Attr(u, k))
    decreases |data|
  {
    if data != [] {
      UpdateSetsAllowed(Assign(u, data[0]), data[1..], k);
    }
  }

  /**
   * `validate`: an e-mail error when the e-mail is falsy, then a role error when the role is
   * not one of the three roles; no errors exactly when both are fine.
   */
  function Validate(u: UserRec): (errs: seq<string>)
    ensures errs == [] <==> Truthy(u.email) && u.role in Roles
    ensures "Email is required" in errs <==> !Truthy(u.email)
    ensures "Invalid role" in errs <==> u.role !in Roles
    ensures !Truthy(u.email) ==> errs[0] == "Email is required"
    ensures u.role !in Roles ==> errs[|errs| - 1] == "Invalid role"
  {
    (if Truthy(u.email) then [] else ["Email is required"]) +
    (if u.role in Roles then [] else ["Invalid role"])
  }

  /**
   * `stats[key] += delta` on the statistics value: `None` where Python raises (the statistics
   * are not a dict, the key is missing, or the addition fails).
   */
  function BumpStat(stats: Value, key: string, delta: Value): (r: Option<Value>)
    ensures r.Some? <==> stats.Obj? && HasKey(stats.fields, key)
                         && Plus(Get(stats.fields, key).value, delta).Some?
  {
    if stats.Obj? && HasKey(stats.fields, key) then
      match Plus(Get(stats.fields, key).value, delta)
      case Some(v) => Some(Obj(Put(stats.fields, key, v)))
      case None => None
    else None
  }

  /** After a successful bump the key holds the sum, and every other key and the key order are kept. */
  lemma BumpStatEffect(stats: Value, key: string, delta: Value, k: string)
    requires BumpStat(stats, key, delta).Some?
    ensures var s := BumpStat(stats, key, delta).value;
      && s.Obj? && Keys(s.fields) == Keys(stats.fields)
      && Get(s.fields, k) == if k == key then Plus(Get(stats.fields, key).value, delta) else Get(stats.fields, k)
  {
    PutGet(stats.fields, key, Plus(Get(stats.fields, key).value, delta).value, k);
    PutKeys(stats.fields, key, Plus(Get(stats.fields, key).value, delta).value);
  }

  /** The statistics after a successful `update_learning_stats(course_completed, learning_time)`. */
  function StatsAfter(stats: Value, courseCompleted: Value, learningTime: Value): Option<Value>
  {
    var s := if Truthy(courseCompleted) then BumpStat(stats, "courses_completed", Int(1)) else Some(stats);
    if s.Some? then BumpStat(s.value, "total_learning_time", learningTime) else None
  }

  /**
   * `update_learning_stats` adds one completed course exactly when `course_completed` is truthy,
   * always adds `learning_time` to the learning time, and keeps every other statistic.
   */
  lemma StatsAfterEffect(stats: Value, courseCompleted: Value, learningTime: Value, k: string)
    requires StatsAfter(stats, courseCompleted, learningTime).Some?
    ensures stats.Obj? && HasKey(stats.fields, "total_learning_time")
    ensures Truthy(courseCompleted) ==> HasKey(stats.fields, "courses_completed")
    ensures StatsAfter(stats, courseCompleted, learningTime).value.Obj?
    ensures Keys(StatsAfter(stats, courseCompleted, learningTime).value.fields) == Keys(stats.fields)
    ensures Get(StatsAfter(stats, courseCompleted, learningTime).value.fields, k) ==
      if k == "courses_completed" && Truthy(courseCompleted) then Plus(Get(stats.fields, k).value, Int(1))
      else if k == "total_learning_time" then Plus(Get(stats.fields, k).value, learningTime)
      else Get(stats.fields, k)
  {
    var s1 := if Truthy(courseCompleted) then BumpStat(stats, "courses_completed", Int(1)) else Some(stats);
    if Truthy(courseCompleted) {
      BumpStatEffect(stats, "courses_completed", Int(1), k);
      BumpStatEffect(stats, "courses_completed", Int(1), "total_learning_time");
      HasKeyIffInKeys(stats.fields, "total_learning_time");
      HasKeyIffInKeys(s1.value.fields, "total_learning_time");
    }
    BumpStatEffect(s1.value, "total_learning_time", learningTime, k);
  }

  class User {
    var uid: Value
    var email: Value
    var displayName: Value
    var phone: Value
    var bio: Value
    var role: Value
    var profilePictureUrl: Value
    var enrollmentCount: Value
    var createdAt: Value
    var updatedAt: Value
    var profileComplete: Value
    var preferences: Value
    var stats: Value

    /** The object's attributes as a record. */
    function Rec(): UserRec
      reads this
    {
      UserRec(uid, email, displayName, phone, bio, role, profilePictureUrl, enrollmentCount,
              createdAt, updatedAt, profileComplete, preferences, stats)
    }

    /** `User(**kw)` with the clock reading `now`. */
    constructor(kw: Dict, now: int)
      ensures Rec() == FromDict(kw, now)
    {
      var r := FromDict(kw, now);
      uid, email, displayName, phone, bio := r.uid, r.email, r.displayName, r.phone, r.bio;
      role, profilePictureUrl, enrollmentCount := r.role, r.profilePictureUrl, r.enrollmentCount;
      createdAt, updatedAt, profileComplete := r.createdAt, r.updatedAt, r.profileComplete;
      preferences, stats := r.preferences, r.stats;
    }

    /** `get_by_id(uid)`: a user built from the stored document, or `None` when there is none. */
    static method GetById(db: Db, uid: Value, now: int) returns (u: User?)
      ensures u == null <==> Lookup(db.users, uid).None?
      ensures u != null ==> fresh(u) && u.Rec() == FromDict(Lookup(db.users, uid).value, now)
    {
      var doc := Lookup(db.users, uid);
      if doc.None? {
        return null;
      }
      u := new User(doc.value, now);
    }

    /**
     * `save`: stamps `updated_at`, then writes `to_dict()` over the document named by `uid`;
     * false when `uid` cannot name a document.
     */
    method Save(db: Db, now: int, autoId: string) returns (ok: bool)
      modifies this, db`users
      ensures Rec() == old(Rec()).(updatedAt := Time(now))
      ensures ok <==> SetKey(uid, autoId).Some?
      ensures db.users == if ok then old(db.users)[SetKey(uid, autoId).value := ToDict(Rec())] else old(db.users)
    {
      updatedAt := Time(now);
      var key := SetKey(uid, autoId);
      if key.None? {
        return false;
      }
      db.users := db.users[key.value := ToDict(Rec())];
      return true;
    }

    /**
     * `update(data)`: assigns the whitelisted keys of `data` in order, then saves; every other
     * attribute is left as it was.
     */
    method Update(data: Dict, db: Db, now: int, autoId: string) returns (ok: bool)
      modifies this, db`users
      ensures Rec() == ApplyAllowed(old(Rec()), data).(updatedAt := Time(now))
      ensures ok <==> SetKey(uid, autoId).Some?
      ensures db.users == if ok then old(db.users)[SetKey(uid, autoId).value := ToDict(Rec())] else old(db.users)
    {
      ghost var start := Rec();
      for i := 0 to |data|
        invariant ApplyAllowed(Rec(), data[i..]) == ApplyAllowed(start, data)
        invariant db.users == old(db.users)
      {
        assert data[i..][1..] == data[i + 1..];
        var f := data[i];
        if f.key in AllowedFields {
          match f.key
          case "display_name" => displayName := f.val;
          case "phone" => phone := f.val;
          case "bio" => bio := f.val;
          case "profile_picture_url" => profilePictureUrl := f.val;
          case "preferences" => preferences := f.val;
          case "profile_complete" => profileComplete := f.val;
        }
      }
      assert data[|data|..] == [];
      UpdateKeepsProtected(start, data);
      updatedAt := Time(now);
      ok := Save(db, now, autoId);
    }

    /**
     * `increment_enrollment_count`: `enrollment_count += 1`, then save. The addition raises when
     * the count is not a number, and nothing has changed then.
     */
    method IncrementEnrollmentCount(db: Db, now: int, autoId: string) returns (r: Outcome<bool>)
      modifies this, db`users
      ensures r.Raised? <==> AsNumber(old(enrollmentCount)).None?
      ensures r.Raised? ==> Rec() == old(Rec()) && db.users == old(db.users)
      ensures r.Returned? ==>
        && Rec() == old(Rec()).(enrollmentCount := Int(AsNumber(old(enrollmentCount)).value + 1), updatedAt := Time(now))
        && (r.value <==> SetKey(uid, autoId).Some?)
        && db.users == if r.value then old(db.users)[SetKey(uid, autoId).value := ToDict(Rec())] else old(db.users)
    {
      var n := Plus(enrollmentCount, Int(1));
      if n.None? {
        return Raised;
      }
      enrollmentCount := n.value;
      updatedAt := Time(now);
      var ok := Save(db, now, autoId);
      return Returned(ok);
    }

    /**
     * `update_learning_stats(course_completed, learning_time)`: bumps the statistics in place,
     * then saves. When the second addition raises, the first one has already happened.
     */
    method UpdateLearningStats(courseCompleted: Value, learningTime: Value, db: Db, now: int, autoId: string)
      returns (r: Outcome<bool>)
      modifies this, db`users
      ensures r.Raised? <==> StatsAfter(old(stats), courseCompleted, learningTime).None?
      ensures r.Raised? ==> db.users == old(db.users) && Rec() == old(Rec()).(stats := stats)
      ensures r.Raised? ==>
        stats == if Truthy(courseCompleted) && BumpStat(old(stats), "courses_completed", Int(1)).Some?
                 then BumpStat(old(stats), "courses_completed", Int(1)).value else old(stats)
      ensures r.Returned? ==>
        && Rec() == old(Rec()).(stats := StatsAfter(old(stats), courseCompleted, learningTime).value, updatedAt := Time(now))
        && (r.value <==> SetKey(uid, autoId).Some?)
        && db.users == if r.value then old(db.users)[SetKey(uid, autoId).value := ToDict(Rec())] else old(db.users)
    {
      if Truthy(courseCompleted) {
        var s := BumpStat(stats, "courses_completed", Int(1));
        if s.None? {
          return Raised;
        }
        stats := s.value;
      }
      var t := BumpStat(stats, "total_learning_time", learningTime);
      if t.None? {
        return Raised;
      }
      stats := t.value;
      updatedAt := Time(now);
      var ok := Save(db, now, autoId);
      return Returned(ok);
    }
  }
}
