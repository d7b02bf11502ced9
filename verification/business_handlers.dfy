/** The data-transfer builders that bind request bodies to a business
    (app/apps/business/handlers.py). The builders return the keyword
    arguments the entity class is constructed from; the class's own
    validation is not modelled. */
module BusinessHandlers {
  import opened Results
  import opened PyValue
  import opened BusinessModels
  import opened BusinessMiddlewares

  /** `request.json()` where the handler needs a dict. */
  function FormData(request: Request): (r: Result<Dict>)
    ensures r.Ok? <==> request.body.JsonObject?
    ensures r.Ok? ==> r.value == request.body.d
  {
    match RequestJson(request.body)
    case Err(e) => Err(e)
    case Ok(Object(d)) => Ok(d)
    case Ok(NonObject) => Err(AttributeError)
  }

  /** The dto built by `create_dto_business`: the body, overridden by the
      route's keyword arguments, bound to the request's business.

      - When the merged data names a user and the caller owns the business,
        that user id is kept; passing "business_name" as well is a duplicate
        keyword (TypeError). With no caller at all, the owner test itself
        fails (AttributeError).
      - Otherwise "business_name" is set to the business and, when there is
        a caller, "user_id" to the caller's id, whatever the body said. */
  function CreateDto(store: seq<Business>, request: Request, user: Option<User>, kwargs: Dict)
    : (r: Result<Dict>)
    ensures GetBusiness(store, request).Err? ==> r == Err(BusinessNotFound)
    ensures r.Ok? ==>
              && GetBusiness(store, request).Ok? && FormData(request).Ok?
              && Get(r.value, "business_name") == VStr(GetBusiness(store, request).value.name)
    ensures r.Ok? ==>
              var merged := FormData(request).value + kwargs;
              && r.value.Keys >= merged.Keys
              && (forall k :: k in merged && k != "business_name" && k != "user_id" ==> r.value[k] == merged[k])
    ensures r.Ok? && user.Some? && user.value.uid != GetBusiness(store, request).value.userId ==>
              Get(r.value, "user_id") == VStr(user.value.uid)
    ensures r.Ok? && user.Some? && user.value.uid == GetBusiness(store, request).value.userId ==>
              Get(r.value, "user_id") ==
                (var given := Get(FormData(request).value + kwargs, "user_id");
                 if Truthy(given) then given else VStr(user.value.uid))
    ensures GetBusiness(store, request).Ok? && FormData(request).Ok? && user.None? ==>
              var merged := FormData(request).value + kwargs;
              (r == Err(AttributeError) <==> Truthy(Get(merged, "user_id")))
  {
    var business :- GetBusiness(store, request);
    var form :- FormData(request);
    var merged := form + kwargs;
    if Truthy(Get(merged, "user_id")) && user.None? then Err(AttributeError)
    else if Truthy(Get(merged, "user_id")) && user.value.uid == business.userId then
      if "business_name" in merged then Err(TypeError)
      else Ok(merged["business_name" := VStr(business.name)])
    else
      var bound := merged["business_name" := VStr(business.name)];
      if user.Some? then Ok(bound["user_id" := VStr(user.value.uid)]) else Ok(bound)
  }

  /** A caller who is not the owner cannot create an item for anybody else
      or for another business, whatever the body and the keyword arguments
      say. */
  lemma NonOwnerCreatesForThemselves(store: seq<Business>, request: Request, user: User, kwargs: Dict)
    requires GetBusiness(store, request).Ok? && request.body.JsonObject?
    requires user.uid != GetBusiness(store, request).value.userId
    ensures CreateDto(store, request, Some(user), kwargs).Ok?
    ensures Get(CreateDto(store, request, Some(user), kwargs).value, "user_id") == VStr(user.uid)
    ensures Get(CreateDto(store, request, Some(user), kwargs).value, "business_name")
              == VStr(GetBusiness(store, request).value.name)
  {
  }

  /** The route's keyword arguments win over the body. */
  lemma KwargsOverrideBody(store: seq<Business>, request: Request, user: Option<User>, kwargs: Dict, k: string)
    requires CreateDto(store, request, user, kwargs).Ok?
    requires k in kwargs && k != "business_name" && k != "user_id"
    ensures CreateDto(store, request, user, kwargs).value[k] == kwargs[k]
  {
  }

  /** An item as stored, through its `model_dump()`. */
  predicate Matches(item: Dict, uid: string, businessName: string, user: Option<User>)
  {
    && Get(item, "uid") == VStr(uid)
    && Get(item, "business_name") == VStr(businessName)
    && (user.Some? ==> Get(item, "user_id") == VStr(user.value.uid))
  }

  /** `get_item`: the first stored item with this uid in this business (and
      owned by the caller, when there is one). */
  function FindItem(items: seq<Dict>, uid: string, businessName: string, user: Option<User>): (r: Option<Dict>)
    ensures r.None? <==> forall i :: 0 <= i < |items| ==> !Matches(items[i], uid, businessName, user)
    ensures r.Some? ==> r.value in items && Matches(r.value, uid, businessName, user)
    decreases |items|
  {
    if |items| == 0 then None
    else if Matches(items[0], uid, businessName, user) then Some(items[0])
    else
      var rest := FindItem(items[1..], uid, businessName, user);
      assert forall i :: 1 <= i < |items| ==> items[i] == items[1..][i - 1];
      rest
  }

  const ItemNotFound := HttpError(404, "item_not_found")

  /** The dto built by `update_dto_business`: the stored item, located by
      the path's uid within the request's business (and the caller's items,
      when there is a caller), with the body's fields laid over it. The
      route's keyword arguments are discarded. */
  function UpdateDto(store: seq<Business>, items: seq<Dict>, request: Request, user: Option<User>, kwargs: Dict)
    : (r: Result<Dict>)
    ensures GetBusiness(store, request).Err? ==> r == Err(BusinessNotFound)
    ensures GetBusiness(store, request).Ok? && "uid" !in request.path ==> r == Err(KeyError("uid"))
    ensures GetBusiness(store, request).Ok? && "uid" in request.path ==>
              (RequestJson(request.body).Err? ==> r == Err(JsonDecodeError))
    ensures GetBusiness(store, request).Ok? && "uid" in request.path && RequestJson(request.body).Ok? ==>
              var found := FindItem(items, request.path["uid"], GetBusiness(store, request).value.name, user);
              && (found.None? ==> r == Err(ItemNotFound))
              && (found.Some? && request.body.JsonOther? ==> r == Err(TypeError))
              && (found.Some? && request.body.JsonObject? ==> r.Ok?)
    ensures r.Ok? ==> GetBusiness(store, request).Ok? && "uid" in request.path && FormData(request).Ok?
    ensures r.Ok? ==>
              var form := FormData(request).value;
              exists item :: item in items
                && Matches(item, request.path["uid"], GetBusiness(store, request).value.name, user)
                && r.value.Keys == item.Keys + form.Keys
                && (forall k :: k in form ==> r.value[k] == form[k])
                && (forall k :: k in item && k !in form ==> r.value[k] == item[k])
  {
    var business :- GetBusiness(store, request);
    if "uid" !in request.path then Err(KeyError("uid"))
    else
      var uid := request.path["uid"];
      var json :- RequestJson(request.body);
      match FindItem(items, uid, business.name, user)
      case None => Err(ItemNotFound)
      case Some(item) =>
        match json
        case Object(form) => Ok(item + form)
        case NonObject => Err(TypeError)
  }

  /** The keyword arguments a route passes have no effect on an update. */
  lemma UpdateIgnoresKwargs(store: seq<Business>, items: seq<Dict>, request: Request, user: Option<User>, k1: Dict, k2: Dict)
    ensures UpdateDto(store, items, request, user, k1) == UpdateDto(store, items, request, user, k2)
  {
  }

  /** A caller only ever updates an item of the request's business that
      they own; anybody else's item reads as not found. */
  lemma UpdateStaysWithOwner(store: seq<Business>, items: seq<Dict>, request: Request, user: User, kwargs: Dict)
    requires GetBusiness(store, request).Ok? && "uid" in request.path && request.body.JsonObject?
    requires forall i :: 0 <= i < |items| ==> Get(items[i], "user_id") != VStr(user.uid)
    ensures UpdateDto(store, items, request, Some(user), kwargs) == Err(ItemNotFound)
  {
  }
}
