/** The application-authentication payload signed with the app secret
    (`AppAuth`, defined alike in app/apps/business/schemas.py with an
    integer timestamp and in app/utils/app_auth.py with a float one).
    SHA-256 and the rendering of a float are parameters, so every property
    proved here holds for any hash function and any float formatting. */
module AppAuthScheme {
  import opened Results
  import opened PyText
  import opened Utf8
  import opened PyValue

  /** The foreign primitives: `hashlib.sha256(bytes).digest()` and
      `str(float)`. */
  datatype Primitives = Primitives(sha256: seq<byte> -> seq<byte>, floatText: real -> string)

  datatype Timestamp = Seconds(n: int) | FloatSeconds(x: real)

  function TimestampValue(t: Timestamp): real
  {
    match t
    case Seconds(n) => n as real
    case FloatSeconds(x) => x
  }

  /** `str(timestamp)` as the f-string renders it. */
  function TimestampText(p: Primitives, t: Timestamp): string
  {
    match t
    case Seconds(n) => IntToString(n)
    case FloatSeconds(x) => p.floatText(x)
  }

  datatype AppAuth = AppAuth(
    appId: string,
    scopes: seq<string>,
    timestamp: Timestamp,
    ssoUrl: string,
    secret: Option<string>)

  /** An app secret as callers pass it: text, or bytes to be decoded. */
  datatype AppSecret = Text(s: string) | Bytes(b: seq<byte>)

  const FreshnessWindow: real := 60.0

  /** The freshness rule of `check_timestamp`: at most 60 seconds old. */
  predicate Fresh(now: real, t: Timestamp) {
    now - TimestampValue(t) <= FreshnessWindow
  }

  /** `check_timestamp`, with the clock reading as a parameter: a timestamp
      more than 60 seconds before `now` is rejected; a fresh one passes
      unchanged. */
  function CheckTimestamp(now: real, t: Timestamp): (r: Result<Timestamp>)
    ensures r.Ok? <==> Fresh(now, t)
    ensures r.Ok? ==> r.value == t
    ensures r.Err? ==> r.error == ValueError("Timestamp expired.")
  {
    if now - TimestampValue(t) > FreshnessWindow then Err(ValueError("Timestamp expired.")) else Ok(t)
  }

  /** A timestamp taken at `now` is fresh at `now` and for the next minute. */
  lemma TimestampFreshForAMinute(taken: real, now: real)
    requires taken <= now <= taken + 60.0
    ensures CheckTimestamp(now, FloatSeconds(taken)) == Ok(FloatSeconds(taken))
  {
  }

  // ---------------------------------------------------------------------
  // hexdigest

  predicate IsAscii(s: string) {
    forall i :: 0 <= i < |s| ==> s[i] as int < 128
  }

  predicate IsHexChar(c: char) {
    '0' <= c <= '9' || 'a' <= c <= 'f'
  }

  /** One lower-case hex digit. */
  function HexChar(d: int): (c: char)
    requires 0 <= d < 16
    ensures IsHexChar(c)
  {
    if d < 10 then ('0' as int + d) as char else ('a' as int + d - 10) as char
  }

  /** `.hexdigest()`: two lower-case hex digits per byte, so always ASCII. */
  function HexDigest(bs: seq<byte>): (r: string)
    ensures |r| == 2 * |bs|
    ensures forall i :: 0 <= i < |r| ==> IsHexChar(r[i])
    ensures IsAscii(r)
  {
    if |bs| == 0 then ""
    else [HexChar(bs[0] as int / 16), HexChar(bs[0] as int % 16)] + HexDigest(bs[1..])
  }

  function HexValue(c: char): int
  {
    if '0' <= c <= '9' then c as int - '0' as int
    else if 'a' <= c <= 'f' then c as int - 'a' as int + 10
    else -1
  }

  /** Reads a hex digest back into bytes. */
  function HexDecode(s: string): Option<seq<byte>>
    decreases |s|
  {
    if |s| == 0 then Some([])
    else if |s| == 1 then None
    else
      var hi := HexValue(s[0]);
      var lo := HexValue(s[1]);
      if hi < 0 || lo < 0 then None
      else match HexDecode(s[2..])
        case None => None
        case Some(rest) => Some([(hi * 16 + lo) as byte] + rest)
  }

  lemma HexCharValue(d: int)
    requires 0 <= d < 16
    ensures HexValue(HexChar(d)) == d
  {
  }

  /** The digest loses nothing: the bytes can be read back from it. */
  lemma {:induction false} HexRoundTrip(bs: seq<byte>)
    ensures HexDecode(HexDigest(bs)) == Some(bs)
  {
    if |bs| > 0 {
      var s := HexDigest(bs);
      var n := bs[0] as int;
      HexCharValue(n / 16);
      HexCharValue(n % 16);
      assert s[0] == HexChar(n / 16) && s[1] == HexChar(n % 16);
      assert s[2..] == HexDigest(bs[1..]);
      HexRoundTrip(bs[1..]);
      assert (n / 16 * 16 + n % 16) as byte == bs[0];
      assert [bs[0]] + bs[1..] == bs;
    }
  }

  // ---------------------------------------------------------------------
  // the signature

  function Concat(parts: seq<string>): string
  {
    if |parts| == 0 then "" else parts[0] + Concat(parts[1..])
  }

  /** `sha256(text.encode()).hexdigest()`. */
  function Sha256Hex(p: Primitives, text: string): (r: string)
    ensures IsAscii(r)
  {
    HexDigest(p.sha256(Encode(text)))
  }

  /** `hash_key_part`: app id, the hash of the joined scopes, the timestamp
      and the sso url, run together. */
  function HashKeyPart(p: Primitives, a: AppAuth): string
  {
    a.appId + Sha256Hex(p, Concat(a.scopes)) + TimestampText(p, a.timestamp) + a.ssoUrl
  }

  /** The secret as text: bytes are decoded as UTF-8 first. */
  function SecretText(k: AppSecret): (r: Result<string>)
    ensures k.Text? ==> r == Ok(k.s)
    ensures k.Bytes? ==> (r.Ok? <==> Decode(k.b).Some?)
  {
    match k
    case Text(s) => Ok(s)
    case Bytes(b) =>
      match Decode(b)
      case None => Err(UnicodeDecodeError)
      case Some(s) => Ok(s)
  }

  /** `get_secret`: the hex SHA-256 of the key part followed by the secret.
      Only an undecodable bytes secret makes it fail. */
  function GetSecret(p: Primitives, a: AppAuth, k: AppSecret): (r: Result<string>)
    ensures r.Ok? <==> SecretText(k).Ok?
    ensures r.Ok? ==> IsAscii(r.value)
  {
    match SecretText(k)
    case Err(e) => Err(e)
    case Ok(s) => Ok(Sha256Hex(p, HashKeyPart(p, a) + s))
  }

  /** `hmac.compare_digest` on two strings: both must be ASCII. */
  function CompareDigest(x: string, y: string): (r: Result<bool>)
    ensures r.Ok? <==> IsAscii(x) && IsAscii(y)
    ensures r.Ok? ==> (r.value <==> x == y)
  {
    if IsAscii(x) && IsAscii(y) then Ok(x == y) else Err(TypeError)
  }

  /** `check_secret`: compares the stored secret with the freshly computed
      one. A missing or non-ASCII stored secret raises TypeError. */
  function CheckSecret(p: Primitives, a: AppAuth, k: AppSecret): (r: Result<bool>)
    ensures r.Err? <==> SecretText(k).Err? || a.secret.None? || !IsAscii(a.secret.value)
    ensures SecretText(k).Ok? && a.secret.None? ==> r == Err(TypeError)
  {
    match SecretText(k)
    case Err(e) => Err(e)
    case Ok(s) =>
      match a.secret
      case None => Err(TypeError)
      case Some(stored) => CompareDigest(stored, Sha256Hex(p, HashKeyPart(p, a) + s))
  }

  /** The secret does not enter the key part, so setting it keeps the key. */
  lemma KeyPartIgnoresSecret(p: Primitives, a: AppAuth, secret: Option<string>)
    ensures HashKeyPart(p, a.(secret := secret)) == HashKeyPart(p, a)
  {
  }

  /** Scopes enter the key part only through their concatenation, so scope
      lists that run together alike sign alike: ["ab"] and ["a", "b"]
      produce the same secret. */
  lemma ScopeBoundariesIgnored(p: Primitives, a: AppAuth, k: AppSecret, s1: seq<string>, s2: seq<string>)
    requires Concat(s1) == Concat(s2)
    ensures HashKeyPart(p, a.(scopes := s1)) == HashKeyPart(p, a.(scopes := s2))
    ensures GetSecret(p, a.(scopes := s1), k) == GetSecret(p, a.(scopes := s2), k)
  {
  }

  lemma ScopeBoundaryExample(p: Primitives, a: AppAuth, k: AppSecret)
    ensures GetSecret(p, a.(scopes := ["ab"]), k) == GetSecret(p, a.(scopes := ["a", "b"]), k)
  {
    assert Concat(["a", "b"]) == "a" + Concat(["b"]);
    assert Concat(["ab"]) == "ab" + Concat([]);
    ScopeBoundariesIgnored(p, a, k, ["ab"], ["a", "b"]);
  }

  /** Round trip: a payload signed with `get_secret(k)` passes
      `check_secret(k)`. */
  lemma SignedPayloadChecks(p: Primitives, a: AppAuth, k: AppSecret)
    requires SecretText(k).Ok?
    ensures CheckSecret(p, a.(secret := Some(GetSecret(p, a, k).value)), k) == Ok(true)
  {
    KeyPartIgnoresSecret(p, a, Some(GetSecret(p, a, k).value));
  }

  /** `check_secret(k)` holds exactly when the stored secret equals
      `get_secret(k)` (for a present, ASCII stored secret). */
  lemma CheckSecretIffGetSecret(p: Primitives, a: AppAuth, k: AppSecret)
    requires SecretText(k).Ok?
    requires a.secret.Some? && IsAscii(a.secret.value)
    ensures CheckSecret(p, a, k).Ok?
    ensures CheckSecret(p, a, k).value <==> a.secret.value == GetSecret(p, a, k).value
  {
  }

  /** A secret given as its UTF-8 bytes acts exactly like the text. */
  lemma BytesActLikeText(p: Primitives, a: AppAuth, s: string)
    ensures GetSecret(p, a, Bytes(Encode(s))) == GetSecret(p, a, Text(s))
    ensures CheckSecret(p, a, Bytes(Encode(s))) == CheckSecret(p, a, Text(s))
  {
    DecodeEncode(s);
  }

  /** Constructing the float-timestamp `AppAuth` at clock reading `now`: the
      timestamp is required and must be fresh. */
  function NewFloatAppAuth(now: real, appId: string, scopes: seq<string>, timestamp: real,
                           ssoUrl: string, secret: Option<string>): (r: Result<AppAuth>)
    ensures r.Ok? <==> now - timestamp <= FreshnessWindow
    ensures r.Ok? ==> r.value == AppAuth(appId, scopes, FloatSeconds(timestamp), ssoUrl, secret)
    ensures r.Err? ==> r.error == ValueError("Timestamp expired.")
  {
    match CheckTimestamp(now, FloatSeconds(timestamp))
    case Err(e) => Err(e)
    case Ok(t) => Ok(AppAuth(appId, scopes, t, ssoUrl, secret))
  }

  /** A POST to the sso service: its target and its JSON payload. */
  datatype TokenRequest = TokenRequest(url: string, payload: AppAuth)

  const SsoAccessUrl := "https://sso.ufaas.io/app-auth/access"

  /** `get_access_token` of the auth utilities at clock reading `now`, with
      the reply as an input: the payload is stamped with `now` itself, so it
      passes its own freshness check, is signed with the app secret and is
      posted to the fixed sso url; the whole reply is returned. The caller's
      sso url goes into the payload, not into the target. */
  function GetAccessToken(p: Primitives, appId: string, appSecret: AppSecret, ssoUrl: string,
                          scopes: seq<string>, now: real, reply: Dict): (r: Result<(TokenRequest, Dict)>)
    ensures r.Ok? <==> SecretText(appSecret).Ok?
    ensures r.Ok? ==>
              var (req, answer) := r.value;
              && req.url == SsoAccessUrl
              && req.payload.appId == appId
              && req.payload.scopes == scopes
              && req.payload.ssoUrl == ssoUrl
              && req.payload.timestamp == FloatSeconds(now)
              && CheckSecret(p, req.payload, appSecret) == Ok(true)
              && answer == reply
  {
    var unsigned := NewFloatAppAuth(now, appId, scopes, now, ssoUrl, None).value;
    match GetSecret(p, unsigned, appSecret)
    case Err(e) => Err(e)
    case Ok(secret) =>
      SignedPayloadChecks(p, unsigned, appSecret);
      Ok((TokenRequest(SsoAccessUrl, unsigned.(secret := Some(secret))), reply))
  }

  /** Python's `int(x)` for a float: truncation toward zero. */
  function TruncToInt(x: real): (n: int)
    ensures 0.0 <= x ==> n as real <= x < n as real + 1.0
    ensures x < 0.0 ==> n as real - 1.0 < x <= n as real
  {
    if 0.0 <= x then x.Floor else -((-x).Floor)
  }
}
