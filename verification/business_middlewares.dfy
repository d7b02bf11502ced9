/** Request authorization for business-scoped routes
    (app/apps/business/middlewares.py): which business a request is for,
    whether the caller is its owner, and on whose behalf it acts. The
    business store, the JWT check and the request are inputs. */
module BusinessMiddlewares {
  import opened Results
  import opened PyValue
  import opened BusinessModels

  /** The authenticated caller. */
  datatype User = User(uid: string)

  /** A request body as the framework sees it. */
  datatype Body =
    | EmptyBody                // no bytes at all
    | JsonObject(d: Dict)      // a JSON object
    | JsonOther                // valid JSON that is not an object
    | MalformedBody            // bytes that are not JSON

  /** What the middleware reads of a request. */
  datatype Request = Request(
    hostname: string,
    query: map<string, string>,
    path: map<string, string>,
    body: Body)

  /** The parsed JSON body, when it parses. */
  datatype Json = Object(d: Dict) | NonObject

  /** `request.json()`: empty or malformed bytes do not parse. */
  function RequestJson(b: Body): (r: Result<Json>)
    ensures r.Err? <==> b.EmptyBody? || b.MalformedBody?
    ensures r.Err? ==> r.error == JsonDecodeError
    ensures b.JsonObject? ==> r == Ok(Object(b.d))
  {
    match b
    case EmptyBody => Err(JsonDecodeError)
    case MalformedBody => Err(JsonDecodeError)
    case JsonObject(d) => Ok(Object(d))
    case JsonOther => Ok(NonObject)
  }

  /** The first business whose domain is the hostname, if any. */
  function FindByOrigin(store: seq<Business>, origin: string): (r: Option<Business>)
    ensures r.None? <==> forall i :: 0 <= i < |store| ==> store[i].domain != origin
    ensures r.Some? ==>
              exists i :: 0 <= i < |store| && store[i] == r.value && forall j :: 0 <= j < i ==> store[j].domain != origin
    ensures r.Some? ==> r.value.domain == origin
    decreases |store|
  {
    if |store| == 0 then None
    else if store[0].domain == origin then Some(store[0])
    else
      var rest := FindByOrigin(store[1..], origin);
      if rest.Some? then
        var i :| 0 <= i < |store[1..]| && store[1..][i] == rest.value
                 && forall j :: 0 <= j < i ==> store[1..][j].domain != origin;
        assert store[i + 1] == rest.value;
        assert forall j :: 0 <= j < i + 1 ==> store[j].domain != origin by {
          forall j | 0 <= j < i + 1 ensures store[j].domain != origin {
            if j > 0 { assert store[j] == store[1..][j - 1]; }
          }
        }
        rest
      else
        assert forall j :: 0 <= j < |store| ==> store[j].domain != origin by {
          forall j | 0 <= j < |store| ensures store[j].domain != origin {
            if j > 0 { assert store[j] == store[1..][j - 1]; }
          }
        }
        rest
  }

  const BusinessNotFound := HttpError(404, "business_not_found")

  /** `get_business`: the business registered for the request's hostname,
      or a 404 when there is none. */
  function GetBusiness(store: seq<Business>, request: Request): (r: Result<Business>)
    ensures r.Err? <==> forall i :: 0 <= i < |store| ==> store[i].domain != request.hostname
    ensures r.Err? ==> r.error == BusinessNotFound
    ensures r.Ok? ==> r.value.domain == request.hostname
    ensures r.Ok? ==> r.value in store
  {
    match FindByOrigin(store, request.hostname)
    case None => Err(BusinessNotFound)
    case Some(b) => Ok(b)
  }

  /** `get_request_body_dict`: no bytes read as `{}`; otherwise the body must
      parse. A non-object body comes back as it is. */
  function GetRequestBodyDict(request: Request): (r: Result<Json>)
    ensures request.body.EmptyBody? ==> r == Ok(Object(map[]))
    ensures request.body.MalformedBody? ==> r == Err(JsonDecodeError)
    ensures request.body.JsonObject? ==> r == Ok(Object(request.body.d))
    ensures request.body.JsonOther? ==> r == Ok(NonObject)
  {
    if request.body.EmptyBody? then Ok(Object(map[])) else RequestJson(request.body)
  }

  /** `(await get_request_body_dict(request)).get("user_id")`: `.get` on a
      non-object raises AttributeError. */
  function BodyUserId(request: Request): (r: Result<Value>)
    ensures r.Ok? <==> !request.body.MalformedBody? && !request.body.JsonOther?
    ensures request.body.JsonObject? ==> r == Ok(Get(request.body.d, "user_id"))
    ensures request.body.EmptyBody? ==> r == Ok(VNone)
  {
    match GetRequestBodyDict(request)
    case Err(e) => Err(e)
    case Ok(Object(d)) => Ok(Get(d, "user_id"))
    case Ok(NonObject) => Err(AttributeError)
  }

  /** A query or path parameter as `.get` returns it. */
  function Param(params: map<string, string>, key: string): (v: Value)
    ensures key in params ==> v == VStr(params[key])
    ensures key !in params ==> v == VNone
  {
    if key in params then VStr(params[key]) else VNone
  }

  datatype Role = BusinessRole | UserRole

  datatype AuthorizationData = AuthorizationData(
    user: User,
    userId: Value,
    business: Business,
    role: Role,
    authorized: bool)

  /** The user id an owner acts for: the query's, else the path's, else the
      body's, in Python's `or` semantics; the body is read only when both
      parameters are missing or empty. */
  function OwnerUserId(request: Request): (r: Result<Value>)
    ensures Truthy(Param(request.query, "user_id")) ==> r == Ok(Param(request.query, "user_id"))
    ensures (!Truthy(Param(request.query, "user_id")) && Truthy(Param(request.path, "user_id")))
              ==> r == Ok(Param(request.path, "user_id"))
    ensures (!Truthy(Param(request.query, "user_id")) && !Truthy(Param(request.path, "user_id")))
              ==> r == BodyUserId(request)
  {
    var first := Or(Param(request.query, "user_id"), Param(request.path, "user_id"));
    if Truthy(first) then Ok(first) else BodyUserId(request)
  }

  /** `authorization_middleware`, with the JWT check's outcome as an input:
      the business comes first (404 before authentication), then the user.
      The owner of the business may act for any user id the request names;
      anybody else acts for themselves. Every request ends up authorized. */
  function AuthorizationMiddleware(store: seq<Business>, request: Request, auth: Result<User>)
    : (r: Result<AuthorizationData>)
    ensures GetBusiness(store, request).Err? ==> r == Err(BusinessNotFound)
    ensures GetBusiness(store, request).Ok? && auth.Err? ==> r == Err(auth.error)
    ensures r.Ok? ==>
              && auth.Ok? && r.value.user == auth.value
              && r.value.business == GetBusiness(store, request).value
              && r.value.authorized
              && (r.value.role == BusinessRole <==> r.value.business.userId == r.value.user.uid)
    ensures r.Ok? && r.value.role == UserRole ==> r.value.userId == VStr(r.value.user.uid)
    ensures r.Ok? && r.value.role == BusinessRole ==> Ok(r.value.userId) == OwnerUserId(request)
    ensures GetBusiness(store, request).Ok? && auth.Ok? ==>
              (r.Err? <==> GetBusiness(store, request).value.userId == auth.value.uid && OwnerUserId(request).Err?)
  {
    var business :- GetBusiness(store, request);
    var user :- auth;
    if business.userId == user.uid then
      var userId :- OwnerUserId(request);
      Ok(AuthorizationData(user, userId, business, BusinessRole, AuthorizedRequest(request)))
    else
      Ok(AuthorizationData(user, VStr(user.uid), business, UserRole, AuthorizedRequest(request)))
  }

  /** `authorized_request`: no check is made. */
  function AuthorizedRequest(request: Request): (r: bool)
    ensures r
  {
    true
  }

  /** `business_or_user`: the caller's role and identity, by the same owner
      test as the middleware. */
  function BusinessOrUser(store: seq<Business>, request: Request, auth: Result<User>): (r: Result<(Role, User)>)
    ensures r.Ok? <==> GetBusiness(store, request).Ok? && auth.Ok?
    ensures r.Ok? ==> r.value.1 == auth.value
    ensures r.Ok? ==> (r.value.0 == BusinessRole <==> GetBusiness(store, request).value.userId == auth.value.uid)
  {
    var business :- GetBusiness(store, request);
    var user :- auth;
    if business.userId == user.uid then Ok((BusinessRole, user)) else Ok((UserRole, user))
  }

  /** A caller who does not own the business cannot act for anybody else,
      whatever the request says. */
  lemma NonOwnerActsForThemselves(store: seq<Business>, r1: Request, r2: Request, user: User)
    requires r1.hostname == r2.hostname
    requires GetBusiness(store, r1).Ok? && GetBusiness(store, r1).value.userId != user.uid
    ensures AuthorizationMiddleware(store, r1, Ok(user)) == AuthorizationMiddleware(store, r2, Ok(user))
    ensures AuthorizationMiddleware(store, r1, Ok(user)).Ok?
    ensures AuthorizationMiddleware(store, r1, Ok(user)).value.userId == VStr(user.uid)
  {
  }

  /** The middleware and `business_or_user` agree on the caller's role. */
  lemma RolesAgree(store: seq<Business>, request: Request, auth: Result<User>)
    requires AuthorizationMiddleware(store, request, auth).Ok?
    ensures BusinessOrUser(store, request, auth).Ok?
    ensures BusinessOrUser(store, request, auth).value.0 == AuthorizationMiddleware(store, request, auth).value.role
  {
  }

  /** An owner naming a user in the query is never stopped by the body, even
      a malformed one. */
  lemma QueryUserIdSkipsBody(store: seq<Business>, request: Request, user: User, uid: string)
    requires GetBusiness(store, request).Ok? && GetBusiness(store, request).value.userId == user.uid
    requires "user_id" in request.query && request.query["user_id"] == uid && uid != ""
    ensures AuthorizationMiddleware(store, request, Ok(user)).Ok?
    ensures AuthorizationMiddleware(store, request, Ok(user)).value.userId == VStr(uid)
  {
  }

  /** An owner who names no user anywhere acts for the last operand of the
      `or` chain, which is the body's (possibly missing) value, not None. */
  lemma OwnerWithoutUserId(store: seq<Business>, request: Request, user: User)
    requires GetBusiness(store, request).Ok? && GetBusiness(store, request).value.userId == user.uid
    requires "user_id" !in request.query && "user_id" !in request.path
    requires request.body.JsonObject? && Get(request.body.d, "user_id") == VStr("")
    ensures AuthorizationMiddleware(store, request, Ok(user)) ==
              Ok(AuthorizationData(user, VStr(""), GetBusiness(store, request).value, BusinessRole, true))
  {
  }
}
