/** The persisted business record (app/apps/business/models.py): its root
    url and the access-token request it signs with the app secret. */
module BusinessModels {
  import opened Results
  import opened PyText
  import opened PyValue
  import opened AppAuthScheme
  import opened BusinessSchemas

  /** A business. `userId` is its owner's user id. The Zarinpal secret is
      not modelled. */
  datatype Business = Business(
    uid: string,
    userId: string,
    name: string,
    domain: string,
    description: Option<string>,
    config: Config)

  /** `root_url`: the domain when it already starts with "http", otherwise
      the domain behind "https://". */
  function RootUrl(b: Business): (r: string)
    ensures StartsWith(r, "http")
    ensures StartsWith(b.domain, "http") ==> r == b.domain
    ensures !StartsWith(b.domain, "http") ==> r == "https://" + b.domain
  {
    if StartsWith(b.domain, "http") then b.domain
    else
      var r := "https://" + b.domain;
      assert r[..4] == "http";
      r
  }

  /** Storing the root url as the domain changes nothing further. */
  lemma RootUrlIdempotent(b: Business)
    ensures RootUrl(b.(domain := RootUrl(b))) == RootUrl(b)
  {
  }

  /** The model's own `validate_domain`, the same rule as the creation
      schema's. */
  function ValidateBusinessDomain(data: Dict, rootUrl: string): (r: Dict)
    ensures Truthy(Get(r, "domain"))
    ensures Truthy(Get(data, "domain")) ==> r == data
    ensures !Truthy(Get(data, "domain")) ==> Get(r, "domain") == VStr(DefaultDomain(data, rootUrl))
  {
    ValidateDomain(data, rootUrl)
  }

  /** Data that went through the creation schema is left as it is when the
      record is built from it. */
  lemma SchemaThenModelValidation(data: Dict, rootUrl: string)
    ensures ValidateBusinessDomain(ValidateDomain(data, rootUrl), rootUrl) == ValidateDomain(data, rootUrl)
  {
    ValidateDomainIdempotent(data, rootUrl);
  }

  /** The process settings the token request reads. */
  datatype AppSettings = AppSettings(appId: string, appSecret: AppSecret)

  /** `Business.get_access_token` at clock reading `now`, with the core's
      reply as an input: an app-auth payload with no scopes, the default
      integer timestamp, the business's sso url and the signed secret is
      posted to the core sso url, and the reply's "access_token" is
      returned. Only an undecodable bytes secret makes it fail. */
  function GetAccessToken(p: Primitives, s: AppSettings, b: Business, now: real, reply: Dict)
    : (r: Result<(TokenRequest, Value)>)
    ensures r.Ok? <==> SecretText(s.appSecret).Ok?
    ensures r.Ok? ==>
              var (req, token) := r.value;
              && req.url == b.config.coreSsoUrl
              && req.payload.appId == s.appId
              && req.payload.scopes == []
              && req.payload.ssoUrl == b.config.ssoUrl
              && Fresh(now, req.payload.timestamp)
              && CheckSecret(p, req.payload, s.appSecret) == Ok(true)
              && token == Get(reply, "access_token")
  {
    var unsigned := NewAppAuth(now, s.appId, [], None, b.config.ssoUrl, None).value;
    match GetSecret(p, unsigned, s.appSecret)
    case Err(e) => Err(e)
    case Ok(secret) =>
      var signed := unsigned.(secret := Some(secret));
      SignedPayloadChecks(p, unsigned, s.appSecret);
      DefaultTimestampFresh(now);
      Ok((TokenRequest(b.config.coreSsoUrl, signed), Get(reply, "access_token")))
  }
}
