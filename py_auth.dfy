/**
 * The Python authentication controller: the `verify_token` decorator that guards handlers
 * with an `Authorization: Bearer <token>` header (a simplified form of section 2.1 of
 * RFC 6750), the profile lookup that creates a missing profile from the identity service,
 * and registration. The identity service is a pair of function parameters.
 */
module PyAuth {
  import opened Base
  import opened Json
  import opened Text
  import opened PyStore

  /** A Flask reply: status code and JSON body. */
  datatype Reply = Reply(status: int, body: Dict)

  function ErrorReply(status: int, message: string): Reply
  {
    Reply(status, [Field("error", Str(message))])
  }

  const BearerPrefix: string := "Bearer "

  /** The header carries a bearer credential: it is present, non-empty and starts with `Bearer `. */
  predicate HasBearer(header: Option<string>)
  {
    header.Some? && header.value != "" && StartsWith(header.value, BearerPrefix)
  }

  /** `auth_header.split(' ')[1]`: the second space-separated field of the header. */
  function BearerToken(header: string): string
    requires StartsWith(header, BearerPrefix)
  {
    SplitBearer(header);
    Split(header, ' ')[1]
  }

  /** A bearer header splits into `Bearer` and the fields of the rest, so the second field exists. */
  lemma SplitBearer(header: string)
    requires StartsWith(header, BearerPrefix)
    ensures Split(header, ' ') == ["Bearer"] + Split(header[7..], ' ')
  {
    assert header == "Bearer" + [' '] + header[7..];
    SplitAfterField("Bearer", header[7..], ' ');
  }

  /** The token is the text after `Bearer ` up to the next space, or to the end of the header. */
  lemma BearerTokenText(header: string)
    requires StartsWith(header, BearerPrefix)
    ensures BearerToken(header) == TakeUntil(header[7..], ' ')
    ensures BearerToken(header) == header[7..] <==> ' ' !in header[7..]
  {
    SplitBearer(header);
    SplitFirst(header[7..], ' ');
    var t := TakeUntil(header[7..], ' ');
    if ' ' in header[7..] {
      var i :| 0 <= i < |header[7..]| && header[7..][i] == ' ';
      assert t != header[7..];
    }
  }

  /**
   * `verify_token(f)` applied to a request with the given `Authorization` header: `verify`
   * stands for the identity service's token check (`None` when it raises) and `handler` for the
   * wrapped handler called with the decoded token as `request.user` (`Raised` when it raises).
   */
  function VerifyToken(header: Option<string>, verify: string -> Option<Dict>,
                       handler: Dict -> Outcome<Reply>): (r: Reply)
    ensures !HasBearer(header) ==> r == ErrorReply(401, "No token provided")
  {
    if !HasBearer(header) then ErrorReply(401, "No token provided")
    else match verify(BearerToken(header.value))
      case None => ErrorReply(401, "Invalid token")
      case Some(user) =>
        match handler(user)
        case Raised => ErrorReply(401, "Invalid token")
        case Returned(reply) => reply
  }

  /**
   * Without a bearer header neither the token check nor the handler is consulted: any two of
   * each give the same reply.
   */
  lemma NoBearerCallsNothing(header: Option<string>, v1: string -> Option<Dict>, v2: string -> Option<Dict>,
                             h1: Dict -> Outcome<Reply>, h2: Dict -> Outcome<Reply>)
    requires !HasBearer(header)
    ensures VerifyToken(header, v1, h1) == VerifyToken(header, v2, h2)
  {
  }

  /**
   * A token the check rejects gives 401 `Invalid token`, whatever the handler would have done;
   * an accepted token runs the handler with the decoded token as the request's user, and its
   * reply is passed on unless it raises.
   */
  lemma VerifiedRunsHandler(header: string, verify: string -> Option<Dict>, handler: Dict -> Outcome<Reply>)
    requires StartsWith(header, BearerPrefix)
    ensures verify(BearerToken(header)).None? ==>
      VerifyToken(Some(header), verify, handler) == ErrorReply(401, "Invalid token")
    ensures verify(BearerToken(header)).Some? ==>
      VerifyToken(Some(header), verify, handler) ==
        match handler(verify(BearerToken(header)).value)
        case Raised => ErrorReply(401, "Invalid token")
        case Returned(reply) => reply
  {
    assert header != "" by { assert |BearerPrefix| == 7; }
  }

  /** What `auth.get_user(uid)` reports about an identity. */
  datatype Identity = Identity(
    uid: Value, email: Value, displayName: Value, photoUrl: Value, emailVerified: Value, creationTimestamp: Value)

  /** The profile `get_user_profile` stores for an identity the store has no document for. */
  function ProfileOf(who: Identity): Dict
  {
    [Field("uid", who.uid), Field("email", who.email), Field("display_name", who.displayName),
     Field("photo_url", who.photoUrl), Field("email_verified", who.emailVerified),
     Field("created_at", who.creationTimestamp)]
  }

  /**
   * `get_user_profile()` for the request's decoded token `user`: the stored profile when there
   * is one, otherwise a profile built from the identity service (`None` when it raises), stored
   * and returned. Any failure is a 500.
   */
  method GetUserProfile(db: Db, user: Dict, identity: string -> Option<Identity>) returns (reply: Reply)
    modifies db`users
    ensures var uid := GetOr(user, "uid", Null);
      && (IsId(uid) && uid.s in old(db.users) ==>
            db.users == old(db.users)
            && reply == Reply(200, [Field("success", Bool(true)), Field("user", Obj(old(db.users)[uid.s]))]))
      && (IsId(uid) && uid.s !in old(db.users) && identity(uid.s).Some? ==>
            db.users == old(db.users)[uid.s := ProfileOf(identity(uid.s).value)]
            && reply == Reply(200, [Field("success", Bool(true)), Field("user", Obj(ProfileOf(identity(uid.s).value)))]))
      && (!IsId(uid) || (uid.s !in old(db.users) && identity(uid.s).None?) ==>
            db.users == old(db.users) && reply == ErrorReply(500, "Failed to get user profile"))
  {
    var uid := GetOr(user, "uid", Null);
    var stored := Lookup(db.users, uid);
    if !IsId(uid) {
      return ErrorReply(500, "Failed to get user profile");
    }
    if stored.Some? {
      return Reply(200, [Field("success", Bool(true)), Field("user", Obj(stored.value))]);
    }
    var who := identity(uid.s);
    if who.None? {
      return ErrorReply(500, "Failed to get user profile");
    }
    var profile := ProfileOf(who.value);
    db.users := db.users[uid.s := profile];
    return Reply(200, [Field("success", Bool(true)), Field("user", Obj(profile))]);
  }

  /** The identity service's answer to `auth.create_user`: the new user's id, or the error it raised. */
  datatype Created = CreatedUser(uid: string) | Refused(message: string)

  /** The profile `register_user` stores; `created_at` is the store's commit time `now`. */
  function RegisteredProfile(uid: string, email: Value, now: int): Dict
  {
    [Field("uid", Str(uid)), Field("email", email), Field("email_verified", Bool(false)), Field("created_at", Time(now))]
  }

  function Failure(message: string): Reply
  {
    Reply(400, [Field("success", Bool(false)), Field("message", Str(message))])
  }

  /**
   * `register_user()` with the request's JSON body `data`: creates the identity with the given
   * e-mail and password, then stores its profile under the new id and answers 201. A body that
   * is not an object, a refused creation or an id the store cannot address is a 400 with
   * `success` false (the last after the identity exists).
   */
  method RegisterUser(db: Db, data: Value, createUser: (Value, Value) -> Created, now: int) returns (reply: Reply)
    modifies db`users
    ensures reply.status == 201 || reply.status == 400
    ensures reply.status == 400 <==> Get(reply.body, "success") == Some(Bool(false))
    ensures reply.status == 400 ==> db.users == old(db.users)
    ensures !data.Obj? ==> reply.status == 400
    ensures reply.status == 201 <==>
      data.Obj? && createUser(GetOr(data.fields, "email", Null), GetOr(data.fields, "password", Null)).CreatedUser?
      && createUser(GetOr(data.fields, "email", Null), GetOr(data.fields, "password", Null)).uid != ""
    ensures reply.status == 201 ==>
      var uid := createUser(GetOr(data.fields, "email", Null), GetOr(data.fields, "password", Null)).uid;
      && db.users == old(db.users)[uid := RegisteredProfile(uid, GetOr(data.fields, "email", Null), now)]
      && Get(db.users[uid], "email_verified") == Some(Bool(false))
      && reply == Reply(201, [Field("success", Bool(true)), Field("message", Str("User registered successfully")),
                              Field("uid", Str(uid))])
  {
    if !data.Obj? {
      return Failure("request body is not a JSON object");
    }
    var email := GetOr(data.fields, "email", Null);
    var password := GetOr(data.fields, "password", Null);
    var created := createUser(email, password);
    if created.Refused? {
      return Failure(created.message);
    }
    if created.uid == "" {
      return Failure("invalid document id");
    }
    var profile := RegisteredProfile(created.uid, email, now);
    db.users := db.users[created.uid := profile];
    assert Get(profile, "email_verified") == Some(Bool(false)) by {
      assert Get(profile, "email_verified") == Get(profile[1..], "email_verified");
      assert Get(profile[1..], "email_verified") == Get(profile[1..][1..], "email_verified");
    }
    return Reply(201, [Field("success", Bool(true)), Field("message", Str("User registered successfully")),
                       Field("uid", Str(created.uid))]);
  }
}
