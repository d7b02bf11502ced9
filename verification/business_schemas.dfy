/** The business records' request schemas and the integer-timestamp
    application-auth payload (app/apps/business/schemas.py). */
module BusinessSchemas {
  import opened Results
  import opened PyText
  import opened PyValue
  import opened AppAuthScheme

  /** A business's service endpoints (`Config`); the wallet ids and the JWT
      settings are not modelled. */
  datatype Config = Config(
    coreUrl: string,
    apiOsUrl: string,
    ssoUrl: string,
    coreSsoUrl: string,
    corsDomains: string)

  const DefaultConfig := Config(
    "https://core.ufaas.io/",
    "https://core.ufaas.io/api/v1/apps",
    "https://sso.ufaas.io/app-auth/access",
    "https://sso.ufaas.io/app-auth/access",
    "")

  /** The domain a nameless-domain business receives: "<name>.<root url>",
      with the name rendered by `str()` (so a missing name reads "None"). */
  function DefaultDomain(data: Dict, rootUrl: string): string
  {
    Str(Get(data, "name")) + "." + rootUrl
  }

  /** The `validate_domain` model validator: a missing or empty domain is
      replaced by the default domain; a given one is kept. Either way the
      result carries a non-empty domain and nothing else changes. */
  function ValidateDomain(data: Dict, rootUrl: string): (r: Dict)
    ensures Truthy(Get(r, "domain"))
    ensures Truthy(Get(data, "domain")) ==> r == data
    ensures !Truthy(Get(data, "domain")) ==> Get(r, "domain") == VStr(DefaultDomain(data, rootUrl))
    ensures r.Keys == data.Keys + {"domain"}
    ensures forall k :: k in data && k != "domain" ==> r[k] == data[k]
  {
    if !Truthy(Get(data, "domain")) then data["domain" := VStr(DefaultDomain(data, rootUrl))]
    else data
  }

  /** Validating twice is validating once; the model repeats the schema's
      validator on the already-validated data and so changes nothing. */
  lemma ValidateDomainIdempotent(data: Dict, rootUrl: string)
    ensures ValidateDomain(ValidateDomain(data, rootUrl), rootUrl) == ValidateDomain(data, rootUrl)
  {
  }

  /** A body naming only the business gets "<name>.<root url>". */
  lemma NamedBusinessDomain(name: string, rootUrl: string)
    ensures Get(ValidateDomain(map["name" := VStr(name)], rootUrl), "domain") == VStr(name + "." + rootUrl)
    ensures Get(ValidateDomain(map["name" := VStr(name), "domain" := VStr("")], rootUrl), "domain")
              == VStr(name + "." + rootUrl)
  {
  }

  /** Constructing the integer-timestamp `AppAuth` at clock reading `now`:
      without a timestamp the default factory stamps `int(now)`, which
      pydantic does not validate; a supplied timestamp must be fresh. */
  function NewAppAuth(now: real, appId: string, scopes: seq<string>, timestamp: Option<int>,
                      ssoUrl: string, secret: Option<string>): (r: Result<AppAuth>)
    ensures timestamp.None? ==> r == Ok(AppAuth(appId, scopes, Seconds(TruncToInt(now)), ssoUrl, secret))
    ensures timestamp.Some? ==> (r.Ok? <==> Fresh(now, Seconds(timestamp.value)))
    ensures timestamp.Some? && r.Ok? ==> r.value.timestamp == Seconds(timestamp.value)
    ensures r.Err? ==> r.error == ValueError("Timestamp expired.")
  {
    match timestamp
    case None => Ok(AppAuth(appId, scopes, Seconds(TruncToInt(now)), ssoUrl, secret))
    case Some(v) =>
      match CheckTimestamp(now, Seconds(v))
      case Err(e) => Err(e)
      case Ok(t) => Ok(AppAuth(appId, scopes, t, ssoUrl, secret))
  }

  /** The default timestamp is always fresh at the clock reading it came
      from: truncation moves it by less than a second. */
  lemma DefaultTimestampFresh(now: real)
    ensures Fresh(now, Seconds(TruncToInt(now)))
    ensures CheckTimestamp(now, Seconds(TruncToInt(now))).Ok?
  {
  }
}
