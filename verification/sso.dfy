/** The single-sign-on part of `src-tauri/src/auth/login.rs`: decoding the
    `seqtalearn://sso/` deep link, reading and checking the JWT it carries,
    and the five-request handshake that turns it into a portal session.
    The URL, base64, UTF-8 and JSON libraries are parameters (`Decoders`);
    the HTTP transport is a function from handshake step to reply. */
module Sso {
  import opened Wrappers
  import opened Text
  import opened Json
  import opened SessionStore

  newtype byte = x: int | 0 <= x < 256

  const DeeplinkPrefix := "seqtalearn://sso/"

  /** The deep-link payload `{t, u, n}`: JWT, portal base URL, user number. */
  datatype SsoPayload = SsoPayload(t: string, u: string, n: string)

  /** The JWT claims read without checking the signature. */
  datatype JwtClaims = JwtClaims(sub: string, exp: int, t: string, scope: string)

  /** The library decoders the source calls: `urlencoding::decode`, the
      standard-alphabet base64 engine, `String::from_utf8`, and serde_json
      for the SSO payload, the JWT claims and the `load/profile` reply
      (whose `payload.app_link` is returned). `None` is a decoding error. */
  datatype Decoders = Decoders(
    urlDecode: string -> Option<string>,
    base64Decode: string -> Option<seq<byte>>,
    utf8Decode: seq<byte> -> Option<string>,
    ssoJson: string -> Option<SsoPayload>,
    claimsJson: string -> Option<JwtClaims>,
    appLinkJson: string -> Option<string>)

  /** The handshake's requests, in the order they are sent. */
  datatype Step = FirstLogin | SecondLogin | Recovery | Heartbeat | AppLink {
    /** The word the source's error messages start with. */
    function Label(): string {
      match this
      case FirstLogin => "First login"
      case SecondLogin => "Second login"
      case Recovery => "Recovery"
      case Heartbeat => "Heartbeat"
      case AppLink => "Applink"
    }
  }

  const Steps: seq<Step> := [FirstLogin, SecondLogin, Recovery, Heartbeat, AppLink]

  datatype LoginError =
    | InvalidDeeplink
    | UrlDecodeFailed
    | Base64Failed
    | Utf8Failed
    | JsonFailed
    | InvalidJwt
    | JwtBase64Failed
    | JwtUtf8Failed
    | JwtJsonFailed
    | TokenExpired
    | RequestFailed(step: Step)
    | StatusFailed(step: Step, status: int)
    | AppLinkJsonFailed
  {
    /** The fixed text the source's error string starts with. */
    function Message(): string {
      match this
      case InvalidDeeplink => "Invalid Seqta Learn deeplink format"
      case UrlDecodeFailed => "Failed to URL decode: "
      case Base64Failed => "Failed to base64 decode: "
      case Utf8Failed => "Failed to convert to string: "
      case JsonFailed => "Failed to parse JSON: "
      case InvalidJwt => "Invalid JWT format"
      case JwtBase64Failed => "Failed to decode JWT payload: "
      case JwtUtf8Failed => "Failed to convert JWT payload to string: "
      case JwtJsonFailed => "Failed to parse JWT payload: "
      case TokenExpired => "JWT token has expired"
      case RequestFailed(step) => step.Label() + " request failed: "
      case StatusFailed(step, status) => step.Label() + " failed with status: " + IntToString(status)
      case AppLinkJsonFailed => "Failed to deserialize App link response: "
    }
  }

  // ---------------------------------------------------------------------
  // parse_deeplink

  /** `parse_deeplink`: prefix check, then URL-decode, base64, UTF-8, JSON,
      stopping at the first stage that fails. */
  function ParseDeeplink(raw: string, d: Decoders): (r: Result<SsoPayload, LoginError>)
    ensures !StartsWith(raw, DeeplinkPrefix) <==> r == Err(InvalidDeeplink)
    ensures r == Err(UrlDecodeFailed) <==>
      StartsWith(raw, DeeplinkPrefix) && d.urlDecode(raw[|DeeplinkPrefix|..]).None?
    ensures r == Err(Base64Failed) <==>
      StartsWith(raw, DeeplinkPrefix) && d.urlDecode(raw[|DeeplinkPrefix|..]).Some?
      && d.base64Decode(d.urlDecode(raw[|DeeplinkPrefix|..]).value).None?
    ensures r.Ok? ==> StartsWith(raw, DeeplinkPrefix)
    ensures
      (&& StartsWith(raw, DeeplinkPrefix) && d.urlDecode(raw[|DeeplinkPrefix|..]).Some?
       && d.base64Decode(d.urlDecode(raw[|DeeplinkPrefix|..]).value).Some?) ==>
      var text := d.utf8Decode(d.base64Decode(d.urlDecode(raw[|DeeplinkPrefix|..]).value).value);
      && (r == Err(Utf8Failed) <==> text.None?)
      && (text.Some? ==> (r == Err(JsonFailed) <==> d.ssoJson(text.value).None?))
      && (text.Some? && d.ssoJson(text.value).Some? ==> r == Ok(d.ssoJson(text.value).value))
    ensures r.Err? ==> r.error in {InvalidDeeplink, UrlDecodeFailed, Base64Failed, Utf8Failed, JsonFailed}
  {
    if !StartsWith(raw, DeeplinkPrefix) then Err(InvalidDeeplink)
    else
      match d.urlDecode(raw[|DeeplinkPrefix|..])
      case None => Err(UrlDecodeFailed)
      case Some(urlDecoded) =>
        match d.base64Decode(urlDecoded)
        case None => Err(Base64Failed)
        case Some(bytes) =>
          match d.utf8Decode(bytes)
          case None => Err(Utf8Failed)
          case Some(text) =>
            match d.ssoJson(text)
            case None => Err(JsonFailed)
            case Some(payload) => Ok(payload)
  }

  /** The encoders a well-formed deep link is produced with. */
  datatype Encoders = Encoders(
    urlEncode: string -> string,
    base64Encode: seq<byte> -> string,
    utf8Encode: string -> seq<byte>,
    ssoJson: SsoPayload -> string)

  /** Each decoder undoes its encoder. */
  ghost predicate Inverts(d: Decoders, e: Encoders) {
    && (forall s :: d.urlDecode(e.urlEncode(s)) == Some(s))
    && (forall b :: d.base64Decode(e.base64Encode(b)) == Some(b))
    && (forall s :: d.utf8Decode(e.utf8Encode(s)) == Some(s))
    && (forall p :: d.ssoJson(e.ssoJson(p)) == Some(p))
  }

  function EncodeDeeplink(p: SsoPayload, e: Encoders): string {
    DeeplinkPrefix + e.urlEncode(e.base64Encode(e.utf8Encode(e.ssoJson(p))))
  }

  /** A payload encoded the way the portal does it decodes to itself. */
  lemma DeeplinkRoundTrip(p: SsoPayload, d: Decoders, e: Encoders)
    requires Inverts(d, e)
    ensures ParseDeeplink(EncodeDeeplink(p, e), d) == Ok(p)
  {
    var body := e.urlEncode(e.base64Encode(e.utf8Encode(e.ssoJson(p))));
    assert (DeeplinkPrefix + body)[|DeeplinkPrefix|..] == body;
    assert (DeeplinkPrefix + body)[..|DeeplinkPrefix|] == DeeplinkPrefix;
  }

  // ---------------------------------------------------------------------
  // decode_jwt

  /** `n` copies of `c`. */
  function Repeat(c: char, n: nat): (r: string)
    ensures |r| == n && forall i :: 0 <= i < n ==> r[i] == c
  {
    if n == 0 then "" else Repeat(c, n - 1) + [c]
  }

  /** The middle JWT segment padded with `=` to a multiple of four. */
  function Padded(s: string): (r: string)
    ensures |r| % 4 == 0
    ensures StartsWith(r, s) && |r| - |s| <= 3
    ensures forall i :: |s| <= i < |r| ==> r[i] == '='
    ensures |s| % 4 == 0 ==> r == s
  {
    s + Repeat('=', (4 - |s| % 4) % 4)
  }

  /** The padding loop of `decode_jwt`: push `=` while the length is not a
      multiple of four. */
  method PadPayload(s: string) returns (p: string)
    ensures p == Padded(s)
  {
    p := s;
    while |p| % 4 != 0
      invariant p == s + Repeat('=', |p| - |s|)
      invariant |p| - |s| <= (4 - |s| % 4) % 4
      decreases (4 - |s| % 4) % 4 - (|p| - |s|)
    {
      p := p + "=";
    }
  }

  /** The middle of exactly three dot-separated segments. */
  function MiddleSegment(token: string): (r: Option<string>)
    ensures r.None? <==> Count(token, '.') != 2
    ensures r.Some? ==> '.' !in r.value && |Split(token, '.')| == 3 && r.value == Split(token, '.')[1]
  {
    SplitCount(token, '.');
    var parts := Split(token, '.');
    if |parts| != 3 then None else Some(parts[1])
  }

  /** `decode_jwt`: three dot-separated segments, the middle one padded,
      base64-decoded, UTF-8-decoded and parsed as claims. */
  function DecodeJwt(token: string, d: Decoders): (r: Result<JwtClaims, LoginError>)
    ensures r == Err(InvalidJwt) <==> Count(token, '.') != 2
    ensures r.Ok? ==>
      && MiddleSegment(token).Some?
      && var bytes := d.base64Decode(Padded(MiddleSegment(token).value));
      && bytes.Some?
      && d.utf8Decode(bytes.value).Some?
      && d.claimsJson(d.utf8Decode(bytes.value).value) == Some(r.value)
    ensures MiddleSegment(token).Some? ==>
      var bytes := d.base64Decode(Padded(MiddleSegment(token).value));
      && (r == Err(JwtBase64Failed) <==> bytes.None?)
      && (bytes.Some? ==> (r == Err(JwtUtf8Failed) <==> d.utf8Decode(bytes.value).None?))
    ensures
      (&& MiddleSegment(token).Some?
       && d.base64Decode(Padded(MiddleSegment(token).value)).Some?
       && d.utf8Decode(d.base64Decode(Padded(MiddleSegment(token).value)).value).Some?) ==>
      var claims := d.claimsJson(d.utf8Decode(d.base64Decode(Padded(MiddleSegment(token).value)).value).value);
      && (r == Err(JwtJsonFailed) <==> claims.None?)
      && (claims.Some? ==> r == Ok(claims.value))
    ensures r.Err? ==> r.error in {InvalidJwt, JwtBase64Failed, JwtUtf8Failed, JwtJsonFailed}
  {
    match MiddleSegment(token)
    case None => Err(InvalidJwt)
    case Some(segment) =>
      match d.base64Decode(Padded(segment))
      case None => Err(JwtBase64Failed)
      case Some(bytes) =>
        match d.utf8Decode(bytes)
        case None => Err(JwtUtf8Failed)
        case Some(text) =>
          match d.claimsJson(text)
          case None => Err(JwtJsonFailed)
          case Some(claims) => Ok(claims)
  }

  /** `validate_token`: the token decodes and its expiry is strictly after `now`. */
  function ValidateToken(token: string, now: int, d: Decoders): (r: Result<bool, LoginError>)
    ensures r.Ok? <==> DecodeJwt(token, d).Ok? && DecodeJwt(token, d).value.exp > now
    ensures r.Ok? ==> r.value
    ensures DecodeJwt(token, d).Ok? && DecodeJwt(token, d).value.exp <= now ==> r == Err(TokenExpired)
    ensures DecodeJwt(token, d).Err? ==> r == Err(DecodeJwt(token, d).error)
  {
    match DecodeJwt(token, d)
    case Err(e) => Err(e)
    case Ok(claims) => if claims.exp > now then Ok(true) else Err(TokenExpired)
  }

  /** A token whose claims decode and whose expiry is still ahead validates. */
  lemma FreshTokenValidates(token: string, now: int, d: Decoders, claims: JwtClaims)
    requires MiddleSegment(token).Some?
    requires d.base64Decode(Padded(MiddleSegment(token).value)).Some?
    requires d.utf8Decode(d.base64Decode(Padded(MiddleSegment(token).value)).value).Some?
    requires d.claimsJson(d.utf8Decode(d.base64Decode(Padded(MiddleSegment(token).value)).value).value) == Some(claims)
    requires claims.exp > now
    ensures DecodeJwt(token, d) == Ok(claims)
    ensures ValidateToken(token, now, d) == Ok(true)
  {
  }

  // ---------------------------------------------------------------------
  // perform_qr_auth

  /** One handshake request: URL, JSON body and the two headers carried on
      every request (bearer token and user number). */
  datatype HttpCall = HttpCall(url: string, body: Json, bearer: string, userNumber: string)

  /** What the transport gave back for one request. */
  datatype HttpReply = TransportError | Reply(status: int, body: string)

  /** `reqwest`'s `is_success`: a 2xx status. */
  predicate Succeeded(reply: HttpReply) {
    reply.Reply? && 200 <= reply.status < 300
  }

  function StepCall(step: Step, p: SsoPayload): HttpCall {
    var login := p.u + "/seqta/student/login";
    var body :=
      match step
      case FirstLogin => JObject(map["token" := JString(p.t)])
      case SecondLogin => JObject(map["jwt" := JString(p.t)])
      case Recovery => JObject(map["mode" := JString("info"), "recovery" := JString(p.t)])
      case Heartbeat => JObject(map["heartbeat" := JBool(true)])
      case AppLink => JObject(map[]);
    var url :=
      match step
      case FirstLogin => login
      case SecondLogin => login
      case Recovery => p.u + "/seqta/student/recover"
      case Heartbeat => p.u + "/seqta/student/heartbeat"
      case AppLink => p.u + "/seqta/student/load/profile";
    HttpCall(url, body, "Bearer " + p.t, p.n)
  }

  /** The five requests of a complete handshake. */
  function AllCalls(p: SsoPayload): (cs: seq<HttpCall>)
    ensures |cs| == 5 && forall i :: 0 <= i < 5 ==> cs[i] == StepCall(Steps[i], p)
  {
    [StepCall(FirstLogin, p), StepCall(SecondLogin, p), StepCall(Recovery, p),
     StepCall(Heartbeat, p), StepCall(AppLink, p)]
  }

  /** The error a failed reply turns into. */
  function StepError(step: Step, reply: HttpReply): LoginError
    requires !Succeeded(reply)
  {
    if reply.TransportError? then RequestFailed(step) else StatusFailed(step, reply.status)
  }

  datatype Exchange = Exchange(failure: Option<LoginError>, calls: seq<HttpCall>)

  /** Sends the requests `calls` (one per step) from `i` on, stopping at the
      first failure. */
  function SendFrom(calls: seq<HttpCall>, transport: Step -> HttpReply, i: nat): (x: Exchange)
    requires |calls| == 5 && i < 5
    ensures 1 <= |x.calls| <= 5 - i
    ensures x.calls == calls[i..i + |x.calls|]
    ensures forall k :: i <= k < i + |x.calls| - 1 ==> Succeeded(transport(Steps[k]))
    ensures var last := Steps[i + |x.calls| - 1];
      if Succeeded(transport(last)) then x.failure.None? && i + |x.calls| == 5
      else x.failure == Some(StepError(last, transport(last)))
    decreases 5 - i
  {
    var reply := transport(Steps[i]);
    if !Succeeded(reply) then Exchange(Some(StepError(Steps[i], reply)), [calls[i]])
    else if i == 4 then Exchange(None, [calls[i]])
    else
      var rest := SendFrom(calls, transport, i + 1);
      Exchange(rest.failure, [calls[i]] + rest.calls)
  }

  datatype QrOutcome = QrOutcome(result: Result<Session, LoginError>, calls: seq<HttpCall>)

  /** `perform_qr_auth`: the five requests in order, stopping at the first
      transport error or non-2xx status; on success the `load/profile` reply's
      app link is decoded and its token becomes the session token. */
  function PerformQrAuth(p: SsoPayload, transport: Step -> HttpReply, d: Decoders): (o: QrOutcome)
    ensures 1 <= |o.calls| <= 5 && o.calls == AllCalls(p)[..|o.calls|]
    ensures forall k :: 0 <= k < |o.calls| - 1 ==> Succeeded(transport(Steps[k]))
    ensures var last := Steps[|o.calls| - 1];
      !Succeeded(transport(last)) ==> o.result == Err(StepError(last, transport(last)))
    ensures |o.calls| < 5 ==> !Succeeded(transport(Steps[|o.calls| - 1]))
    ensures o.result.Ok? ==>
      && |o.calls| == 5
      && Succeeded(transport(AppLink))
      && d.appLinkJson(transport(AppLink).body).Some?
      && ParseDeeplink(d.appLinkJson(transport(AppLink).body).value, d).Ok?
      && o.result.value == Session(p.u, ParseDeeplink(d.appLinkJson(transport(AppLink).body).value, d).value.t, [])
    ensures (forall k :: 0 <= k < 5 ==> Succeeded(transport(Steps[k]))) ==>
      var link := d.appLinkJson(transport(AppLink).body);
      && (link.None? ==> o.result == Err(AppLinkJsonFailed))
      && (link.Some? && ParseDeeplink(link.value, d).Err? ==> o.result == Err(ParseDeeplink(link.value, d).error))
      && (link.Some? && ParseDeeplink(link.value, d).Ok? ==>
            o.result == Ok(Session(p.u, ParseDeeplink(link.value, d).value.t, [])))
  {
    var x := SendFrom(AllCalls(p), transport, 0);
    if x.failure.Some? then QrOutcome(Err(x.failure.value), x.calls)
    else
      var reply := transport(AppLink);
      match d.appLinkJson(reply.body)
      case None => QrOutcome(Err(AppLinkJsonFailed), x.calls)
      case Some(link) =>
        match ParseDeeplink(link, d)
        case Err(e) => QrOutcome(Err(e), x.calls)
        case Ok(deep) => QrOutcome(Ok(Session(p.u, deep.t, [])), x.calls)
  }

  /** If the first request already fails, nothing else is sent. */
  lemma FirstFailureStopsHandshake(p: SsoPayload, transport: Step -> HttpReply, d: Decoders)
    requires !Succeeded(transport(FirstLogin))
    ensures PerformQrAuth(p, transport, d).calls == [StepCall(FirstLogin, p)]
    ensures PerformQrAuth(p, transport, d).result == Err(StepError(FirstLogin, transport(FirstLogin)))
  {
  }

  /** With every request answered 2xx, exactly five requests are made. */
  lemma AllSucceedMakesFiveCalls(p: SsoPayload, transport: Step -> HttpReply, d: Decoders)
    requires forall k :: 0 <= k < 5 ==> Succeeded(transport(Steps[k]))
    ensures PerformQrAuth(p, transport, d).calls == AllCalls(p)
  {
  }

  // ---------------------------------------------------------------------
  // The deep-link branch of create_login_window

  /** Parse, then validate, then the handshake. A link that does not parse or
      whose token is expired makes no request. */
  function QrLogin(url: string, now: int, transport: Step -> HttpReply, d: Decoders): (o: QrOutcome)
    ensures ParseDeeplink(url, d).Err? ==> o == QrOutcome(Err(ParseDeeplink(url, d).error), [])
    ensures ParseDeeplink(url, d).Ok? && ValidateToken(ParseDeeplink(url, d).value.t, now, d).Err? ==>
      o == QrOutcome(Err(ValidateToken(ParseDeeplink(url, d).value.t, now, d).error), [])
    ensures o.calls != [] ==>
      ParseDeeplink(url, d).Ok? && DecodeJwt(ParseDeeplink(url, d).value.t, d).Ok?
      && DecodeJwt(ParseDeeplink(url, d).value.t, d).value.exp > now
    ensures ParseDeeplink(url, d).Ok? && ValidateToken(ParseDeeplink(url, d).value.t, now, d).Ok? ==>
      o == PerformQrAuth(ParseDeeplink(url, d).value, transport, d)
    ensures o.result.Ok? ==> o.result.value.baseUrl == ParseDeeplink(url, d).value.u && o.result.value.additionalCookies == []
    ensures o.result.Ok? ==>
      && |o.calls| == 5
      && d.appLinkJson(transport(AppLink).body).Some?
      && ParseDeeplink(d.appLinkJson(transport(AppLink).body).value, d).Ok?
      && o.result.value.jsessionid == ParseDeeplink(d.appLinkJson(transport(AppLink).body).value, d).value.t
  {
    match ParseDeeplink(url, d)
    case Err(e) => QrOutcome(Err(e), [])
    case Ok(payload) =>
      match ValidateToken(payload.t, now, d)
      case Err(e) => QrOutcome(Err(e), [])
      case Ok(_) => PerformQrAuth(payload, transport, d)
  }
}
