/**
 * The user handlers (`crates/api/src/user/mod.rs`): input normalisation around the user
 * service, and the mapping of its answers to statuses. The service, UUID parsing and
 * printing, and RFC 3339 rendering enter as parameters.
 */
module UserApi {
  import opened Results
  import opened Ints
  import opened AppErrors

  /** A 128-bit UUID. */
  type Uuid = x: nat | x < 0x1_0000_0000_0000_0000_0000_0000_0000_0000

  /** A UTC instant. */
  datatype DateTime = DateTime(unixSeconds: int, nanos: nat)

  /** The stored user row. */
  datatype User = User(id: Uuid, email: string, name: string, createdAt: Option<DateTime>)

  /** The JSON shape a user is answered with. */
  datatype UserRes = UserRes(id: string, email: string, name: string, createdAt: string)

  datatype CreateUserReq = CreateUserReq(email: string, name: string)

  /** The library functions the handlers call: UUID `Display` and `from_str`, `to_rfc3339`. */
  datatype Formats = Formats(
    uuidToString: Uuid -> string,
    parseUuid: string -> Option<Uuid>,
    rfc3339: DateTime -> string)

  /** The user service; a failure carries the `anyhow::Error`'s text. */
  datatype Services = Services(
    createUser: (string, string) -> Result<User, string>,
    updateUser: User -> Result<User, string>,
    getUser: Uuid -> Result<Option<User>, string>,
    listUsers: (I64, I64) -> Result<seq<User>, string>,
    delUser: Uuid -> Result<Option<User>, string>)

  /** A successful answer: a status and a JSON body. */
  datatype Reply<T> = Reply(status: int, body: T)

  const OkStatus: int := 200
  const CreatedStatus: int := 201

  const DefaultLimit: int := 50
  const MaxLimit: int := 200
  const InvalidIdMessage: string := "invalid id"

  /** `UserRes::from`. */
  function ToUserRes(u: User, f: Formats): (r: UserRes)
    ensures r.email == u.email && r.name == u.name
    ensures r.id == f.uuidToString(u.id)
    ensures u.createdAt.Some? ==> r.createdAt == f.rfc3339(u.createdAt.value)
    ensures u.createdAt.None? ==> r.createdAt == ""
  {
    UserRes(
      f.uuidToString(u.id),
      u.email,
      u.name,
      match u.createdAt
      case Some(t) => f.rfc3339(t)
      case None => "")
  }

  /** An RFC 3339 rendering is never empty, so an empty `created_at` means exactly "none". */
  lemma EmptyCreatedAtMeansNone(u: User, f: Formats)
    requires forall t :: f.rfc3339(t) != ""
    ensures ToUserRes(u, f).createdAt == "" <==> u.createdAt.None?
  {
  }

  /** The `?` on a service call: an `anyhow::Error` becomes `AppError::Internal`. */
  function FromService<T>(r: Result<T, string>): (a: Result<T, AppError>)
    ensures r.Ok? ==> a == Ok(r.value)
    ensures r.Err? ==> a == Err(Internal(r.error))
  {
    match r
    case Ok(v) => Ok(v)
    case Err(e) => Err(Internal(e))
  }

  /** `create_user`: 201 with the created user. */
  function CreateUser(s: Services, f: Formats, body: CreateUserReq): (r: Result<Reply<UserRes>, AppError>)
    ensures s.createUser(body.email, body.name).Ok? ==>
              r == Ok(Reply(CreatedStatus, ToUserRes(s.createUser(body.email, body.name).value, f)))
    ensures s.createUser(body.email, body.name).Err? ==>
              r == Err(Internal(s.createUser(body.email, body.name).error))
  {
    var user :- FromService(s.createUser(body.email, body.name));
    Ok(Reply(CreatedStatus, ToUserRes(user, f)))
  }

  /** `update_user`: 200 with the updated user. */
  function UpdateUser(s: Services, f: Formats, input: User): (r: Result<Reply<UserRes>, AppError>)
    ensures s.updateUser(input).Ok? ==> r == Ok(Reply(OkStatus, ToUserRes(s.updateUser(input).value, f)))
    ensures s.updateUser(input).Err? ==> r == Err(Internal(s.updateUser(input).error))
  {
    var user :- FromService(s.updateUser(input));
    Ok(Reply(OkStatus, ToUserRes(user, f)))
  }

  /** The page size: 50 when absent, capped at 200, never raised. */
  function EffectiveLimit(limit: Option<I64>): (l: I64)
    ensures l <= MaxLimit
    ensures limit.None? ==> l == DefaultLimit
    ensures limit.Some? ==> l <= limit.value
    ensures limit.Some? && limit.value <= MaxLimit ==> l == limit.value
    ensures limit.Some? && limit.value > MaxLimit ==> l == MaxLimit
  {
    var l := match limit case Some(v) => v case None => DefaultLimit;
    if l < MaxLimit then l else MaxLimit
  }

  /** The offset: 0 when absent, negative values raised to 0, never lowered. */
  function EffectiveOffset(offset: Option<I64>): (o: I64)
    ensures o >= 0
    ensures offset.None? ==> o == 0
    ensures offset.Some? ==> o >= offset.value
    ensures offset.Some? && offset.value >= 0 ==> o == offset.value
    ensures offset.Some? && offset.value < 0 ==> o == 0
  {
    var o := match offset case Some(v) => v case None => 0;
    if o > 0 then o else 0
  }

  /** Each row converted by `ToUserRes`, in order. */
  function MapUsers(users: seq<User>, f: Formats): (rs: seq<UserRes>)
    ensures |rs| == |users|
    ensures forall i :: 0 <= i < |users| ==> rs[i] == ToUserRes(users[i], f)
  {
    if |users| == 0 then [] else [ToUserRes(users[0], f)] + MapUsers(users[1..], f)
  }

  /** `list_users`: the clamped page of the service's rows, converted in order. */
  function ListUsers(s: Services, f: Formats, limit: Option<I64>, offset: Option<I64>): (r: Result<Reply<seq<UserRes>>, AppError>)
    ensures var rows := s.listUsers(EffectiveLimit(limit), EffectiveOffset(offset));
            rows.Ok? ==> r.Ok? && r.value.status == OkStatus && |r.value.body| == |rows.value|
                         && forall i :: 0 <= i < |rows.value| ==> r.value.body[i] == ToUserRes(rows.value[i], f)
    ensures var rows := s.listUsers(EffectiveLimit(limit), EffectiveOffset(offset));
            rows.Err? ==> r == Err(Internal(rows.error))
  {
    var users :- FromService(s.listUsers(EffectiveLimit(limit), EffectiveOffset(offset)));
    Ok(Reply(OkStatus, MapUsers(users, f)))
  }

  /** The path id read as a UUID; text that is not one is a bad request, "invalid id". */
  function ParseId(id: string, f: Formats): (r: Result<Uuid, AppError>)
    ensures f.parseUuid(id).Some? ==> r == Ok(f.parseUuid(id).value)
    ensures f.parseUuid(id).None? ==> r == Err(BadRequest(InvalidIdMessage))
  {
    match f.parseUuid(id)
    case Some(uid) => Ok(uid)
    case None => Err(BadRequest(InvalidIdMessage))
  }

  /** The shared tail of `get_user` and `del_user`: a user is 200, none is `NotFound`. */
  function FoundOrNotFound(found: Option<User>, f: Formats): (r: Result<Reply<UserRes>, AppError>)
    ensures found.Some? ==> r == Ok(Reply(OkStatus, ToUserRes(found.value, f)))
    ensures found.None? ==> r == Err(NotFound)
  {
    match found
    case Some(user) => Ok(Reply(OkStatus, ToUserRes(user, f)))
    case None => Err(NotFound)
  }

  /** `get_user`. */
  function GetUser(s: Services, f: Formats, id: string): (r: Result<Reply<UserRes>, AppError>)
    ensures f.parseUuid(id).None? ==> r == Err(BadRequest(InvalidIdMessage))
    ensures f.parseUuid(id).Some? ==>
              var found := s.getUser(f.parseUuid(id).value);
              (found.Err? ==> r == Err(Internal(found.error)))
              && (found == Ok(None) ==> r == Err(NotFound))
              && (found.Ok? && found.value.Some? ==> r == Ok(Reply(OkStatus, ToUserRes(found.value.value, f))))
  {
    var uid :- ParseId(id, f);
    var found :- FromService(s.getUser(uid));
    FoundOrNotFound(found, f)
  }

  /** `del_user`. */
  function DelUser(s: Services, f: Formats, id: string): (r: Result<Reply<UserRes>, AppError>)
    ensures f.parseUuid(id).None? ==> r == Err(BadRequest(InvalidIdMessage))
    ensures f.parseUuid(id).Some? ==>
              var found := s.delUser(f.parseUuid(id).value);
              (found.Err? ==> r == Err(Internal(found.error)))
              && (found == Ok(None) ==> r == Err(NotFound))
              && (found.Ok? && found.value.Some? ==> r == Ok(Reply(OkStatus, ToUserRes(found.value.value, f))))
  {
    var uid :- ParseId(id, f);
    var found :- FromService(s.delUser(uid));
    FoundOrNotFound(found, f)
  }

  /** The status a handler's answer ends up with, errors going through `into_response`. */
  function Status<T>(r: Result<Reply<T>, AppError>): int {
    match r
    case Ok(reply) => reply.status
    case Err(e) => IntoResponse(e).status
  }

  /**
   * End to end for `get_user` and `del_user`: a malformed id is 400 whatever the
   * service would say, a service failure 500, no user 404, a user 200.
   */
  lemma LookupStatuses(s: Services, f: Formats, id: string)
    ensures f.parseUuid(id).None? ==> Status(GetUser(s, f, id)) == 400 && Status(DelUser(s, f, id)) == 400
    ensures f.parseUuid(id).Some? ==>
              var found := s.getUser(f.parseUuid(id).value);
              Status(GetUser(s, f, id)) == (if found.Err? then 500 else if found.value.None? then 404 else 200)
    ensures f.parseUuid(id).Some? ==>
              var found := s.delUser(f.parseUuid(id).value);
              Status(DelUser(s, f, id)) == (if found.Err? then 500 else if found.value.None? then 404 else 200)
  {
  }

  /** A malformed id is refused before the service is asked: any two services agree. */
  lemma InvalidIdIgnoresService(s1: Services, s2: Services, f: Formats, id: string)
    requires f.parseUuid(id).None?
    ensures GetUser(s1, f, id) == GetUser(s2, f, id)
    ensures DelUser(s1, f, id) == DelUser(s2, f, id)
  {
  }

  /** Every service failure in any handler is a 500. */
  lemma ServiceFailuresAre500(s: Services, f: Formats, body: CreateUserReq, input: User,
                              limit: Option<I64>, offset: Option<I64>)
    ensures s.createUser(body.email, body.name).Err? ==> Status(CreateUser(s, f, body)) == 500
    ensures s.updateUser(input).Err? ==> Status(UpdateUser(s, f, input)) == 500
    ensures s.listUsers(EffectiveLimit(limit), EffectiveOffset(offset)).Err? ==>
              Status(ListUsers(s, f, limit, offset)) == 500
  {
  }
}
