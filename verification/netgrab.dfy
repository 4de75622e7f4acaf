/** The credential injector of `src-tauri/src/utils/netgrab.rs`: the headers
    every portal API call carries, derived from the saved session; the full
    request URL; the `jwt` field added to POST bodies; and the capture of a
    rotated `JSESSIONID` from a reply's `set-cookie` header. The HTTP
    exchange itself is an input reply. */
module Netgrab {
  import opened Wrappers
  import opened Text
  import opened Seqs
  import opened Json
  import opened SessionStore

  /** Session tokens starting with this are JWTs from the QR sign-on. */
  const JwtPrefix := "eyJ"

  const SessionCookieAssign := "JSESSIONID="

  predicate IsJwtSession(s: Session) {
    StartsWith(s.jsessionid, JwtPrefix)
  }

  /** The request headers the injector sets (`None`: header not set). */
  datatype Headers = Headers(authorization: Option<string>, cookie: Option<string>, origin: Option<string>, referer: Option<string>)

  predicate IsSessionCookie(c: Cookie) {
    c.name == SessionCookieName
  }

  /** Values of the `JSESSIONID` entries, in list order. */
  function SessionCookieValues(cs: seq<Cookie>): (r: seq<string>)
    ensures |r| <= |cs|
    ensures r == [] <==> forall i :: 0 <= i < |cs| ==> !IsSessionCookie(cs[i])
  {
    if cs == [] then []
    else
      var init := cs[..|cs| - 1];
      var last := cs[|cs| - 1];
      assert forall i :: 0 <= i < |init| ==> init[i] == cs[i];
      SessionCookieValues(init) + (if IsSessionCookie(last) then [last.value] else [])
  }

  /** `name=value` for each cookie, in list order. */
  function NameValuePairs(cs: seq<Cookie>): (r: seq<string>)
    ensures |r| == |cs| && forall i :: 0 <= i < |cs| ==> r[i] == cs[i].name + "=" + cs[i].value
  {
    if cs == [] then []
    else NameValuePairs(cs[..|cs| - 1]) + [cs[|cs| - 1].name + "=" + cs[|cs| - 1].value]
  }

  /** `retain(|cookie| cookie.name != "JSESSIONID")`. */
  function WithoutSessionCookies(cs: seq<Cookie>): (r: seq<Cookie>)
    ensures forall i :: 0 <= i < |r| ==> !IsSessionCookie(r[i]) && r[i] in cs
    ensures forall i :: 0 <= i < |cs| && !IsSessionCookie(cs[i]) ==> cs[i] in r
    ensures SessionCookieValues(r) == []
  {
    Filter(cs, (c: Cookie) => !IsSessionCookie(c))
  }

  /** Removing the session cookies keeps every other cookie in its order. */
  lemma WithoutSessionCookiesKeepsOrder(cs: seq<Cookie>)
    ensures IsSubsequence(WithoutSessionCookies(cs), cs)
  {
    FilterIsSubsequence(cs, (c: Cookie) => !IsSessionCookie(c));
  }

  /** A JWT session holding several `JSESSIONID` entries is stale: the
      injector drops them all and saves the session. */
  predicate NeedsCleanup(s: Session) {
    IsJwtSession(s) && |SessionCookieValues(s.additionalCookies)| > 1
  }

  function CleanedUp(s: Session): (r: Session)
    ensures r.baseUrl == s.baseUrl && r.jsessionid == s.jsessionid
    ensures NeedsCleanup(s) ==> r.additionalCookies == WithoutSessionCookies(s.additionalCookies)
    ensures !NeedsCleanup(s) ==> r == s
    ensures IsJwtSession(s) ==> |SessionCookieValues(r.additionalCookies)| <= 1
  {
    if NeedsCleanup(s) then s.(additionalCookies := WithoutSessionCookies(s.additionalCookies)) else s
  }

  /** The cookie-branch header pieces: the token first when non-empty, then
      every auxiliary cookie. */
  function CookieParts(s: Session): (r: seq<string>)
    ensures r == [] <==> s.jsessionid == "" && s.additionalCookies == []
  {
    (if s.jsessionid != "" then [SessionCookieAssign + s.jsessionid] else []) + NameValuePairs(s.additionalCookies)
  }

  /** The headers `append_default_headers` sets for a loaded session. */
  function DefaultHeaders(s: Session): (h: Headers)
    ensures h.authorization.Some? <==> IsJwtSession(s)
    ensures IsJwtSession(s) ==> h.authorization == Some("Bearer " + s.jsessionid)
    ensures IsJwtSession(s) ==>
      (h.cookie.Some? <==> |SessionCookieValues(s.additionalCookies)| == 1)
    ensures IsJwtSession(s) && |SessionCookieValues(s.additionalCookies)| == 1 ==>
      h.cookie == Some(SessionCookieAssign + SessionCookieValues(s.additionalCookies)[0])
    ensures !IsJwtSession(s) ==>
      (h.cookie.None? <==> s.jsessionid == "" && s.additionalCookies == [])
    ensures !IsJwtSession(s) && h.cookie.Some? ==> h.cookie.value == Join(CookieParts(s), "; ")
    ensures h.origin.Some? <==> s.baseUrl != ""
    ensures h.referer == h.origin && (s.baseUrl != "" ==> h.origin == Some(s.baseUrl))
  {
    var site := if s.baseUrl != "" then Some(s.baseUrl) else None;
    if IsJwtSession(s) then
      var values := SessionCookieValues(s.additionalCookies);
      var cookie := if |values| == 1 then Some(SessionCookieAssign + values[0]) else None;
      Headers(Some("Bearer " + s.jsessionid), cookie, site, site)
    else
      var parts := CookieParts(s);
      Headers(None, if parts == [] then None else Some(Join(parts, "; ")), site, site)
  }

  lemma {:induction false} JoinStartsWithFirst(parts: seq<string>, sep: string)
    requires parts != []
    ensures StartsWith(Join(parts, sep), parts[0])
  {
    if |parts| > 1 {
      var rest := Join(parts[1..], sep);
      assert Join(parts, sep) == parts[0] + (sep + rest);
      assert (parts[0] + (sep + rest))[..|parts[0]|] == parts[0];
    }
  }

  /** In the cookie branch a non-empty token is sent first in the cookie header. */
  lemma CookieHeaderStartsWithToken(s: Session)
    requires !IsJwtSession(s) && s.jsessionid != ""
    ensures DefaultHeaders(s).cookie.Some?
    ensures StartsWith(DefaultHeaders(s).cookie.value, SessionCookieAssign + s.jsessionid)
  {
    JoinStartsWithFirst(CookieParts(s), "; ");
  }

  /** The counting loop of `append_default_headers`: the values of the
      `JSESSIONID` entries, in order. */
  method CollectSessionCookies(cs: seq<Cookie>) returns (values: seq<string>)
    ensures values == SessionCookieValues(cs)
  {
    values := [];
    for i := 0 to |cs|
      invariant values == SessionCookieValues(cs[..i])
    {
      assert cs[..i + 1][..i] == cs[..i];
      if cs[i].name == SessionCookieName {
        values := values + [cs[i].value];
      }
    }
    assert cs[..|cs|] == cs;
  }

  /** The JWT-branch cookie loop: one `JSESSIONID=<v>` piece per entry. */
  method SessionCookieHeaderParts(cs: seq<Cookie>) returns (parts: seq<string>)
    ensures |parts| == |SessionCookieValues(cs)|
    ensures forall k :: 0 <= k < |parts| ==> parts[k] == SessionCookieAssign + SessionCookieValues(cs)[k]
  {
    parts := [];
    for i := 0 to |cs|
      invariant |parts| == |SessionCookieValues(cs[..i])|
      invariant forall k :: 0 <= k < |parts| ==> parts[k] == SessionCookieAssign + SessionCookieValues(cs[..i])[k]
    {
      assert cs[..i + 1][..i] == cs[..i];
      if cs[i].name == SessionCookieName {
        parts := parts + [SessionCookieAssign + cs[i].value];
      }
    }
    assert cs[..|cs|] == cs;
  }

  /** The cookie-branch loop: the token piece, then `name=value` per cookie. */
  method CookieHeaderParts(s: Session) returns (parts: seq<string>)
    ensures parts == CookieParts(s)
  {
    parts := [];
    if s.jsessionid != "" {
      parts := [SessionCookieAssign + s.jsessionid];
    }
    ghost var head := parts;
    var cs := s.additionalCookies;
    for i := 0 to |cs|
      invariant parts == head + NameValuePairs(cs[..i])
    {
      assert cs[..i + 1][..i] == cs[..i];
      parts := parts + [cs[i].name + "=" + cs[i].value];
    }
    assert cs[..|cs|] == cs;
  }

  /** `append_default_headers`: loads the session, cleans up duplicated
      `JSESSIONID` entries of a JWT session (saving it), and builds the headers. */
  method AppendDefaultHeaders(store: Store) returns (h: Headers)
    modifies store`file
    ensures h == DefaultHeaders(CleanedUp(old(store.Load())))
    ensures NeedsCleanup(old(store.Load())) && store.writable ==>
      store.file == Some(store.json.serialize(CleanedUp(old(store.Load()))))
    ensures !NeedsCleanup(old(store.Load())) || !store.writable ==> store.file == old(store.file)
  {
    var session := store.Load();
    var site := if session.baseUrl != "" then Some(session.baseUrl) else None;
    if StartsWith(session.jsessionid, JwtPrefix) {
      var values := CollectSessionCookies(session.additionalCookies);
      var hasSessionCookie := values != [];
      if |values| > 1 {
        session := session.(additionalCookies := WithoutSessionCookies(session.additionalCookies));
        var _ := store.Save(session);
        hasSessionCookie := false;
      }
      var cookie: Option<string> := None;
      if hasSessionCookie {
        var parts := SessionCookieHeaderParts(session.additionalCookies);
        if parts != [] {
          cookie := Some(Join(parts, "; "));
        }
      }
      h := Headers(Some("Bearer " + session.jsessionid), cookie, site, site);
    } else {
      var parts := CookieHeaderParts(session);
      if parts != [] {
        h := Headers(None, Some(Join(parts, "; ")), site, site);
      } else {
        h := Headers(None, None, site, site);
      }
    }
  }

  /** The full request URL: an address starting with `http` is used as is,
      anything else is appended to the session's base URL. */
  function FullUrl(url: string, baseUrl: string): (r: string)
    ensures EndsWith(r, url)
    ensures StartsWith(url, "http") ==> r == url
    ensures !StartsWith(url, "http") ==> StartsWith(r, baseUrl) && |r| == |baseUrl| + |url|
  {
    var r := if StartsWith(url, "http") then url else baseUrl + url;
    assert r[|r| - |url|..] == url;
    r
  }

  /** The POST body: `{}` when none is given; for a JWT session an object body
      gets its `jwt` field set to the token; anything else is sent unchanged. */
  function PostBody(body: Option<Json>, s: Session): (r: Json)
    ensures r.JObject? <==> body.GetOr(JObject(map[])).JObject?
    ensures IsJwtSession(s) && r.JObject? ==>
      && r.fields.Keys == body.GetOr(JObject(map[])).fields.Keys + {"jwt"}
      && r.fields["jwt"] == JString(s.jsessionid)
      && forall k :: k in r.fields && k != "jwt" ==> r.fields[k] == body.GetOr(JObject(map[])).fields[k]
    ensures !IsJwtSession(s) || !r.JObject? ==> r == body.GetOr(JObject(map[]))
  {
    var b := body.GetOr(JObject(map[]));
    if IsJwtSession(s) && b.JObject? then JObject(b.fields["jwt" := JString(s.jsessionid)]) else b
  }

  /** The `JSESSIONID` value in a `set-cookie` header: the text between the
      first `JSESSIONID=` and the next `;`. */
  lemma AssignHasNoSemicolon()
    ensures ';' !in SessionCookieAssign
  {
  }

  function RotatedValue(setCookie: string): (r: Option<string>)
    ensures r.Some? ==> IndexOf(setCookie, SessionCookieAssign).Some?
    ensures r.Some? ==>
      var start := IndexOf(setCookie, SessionCookieAssign).value + |SessionCookieAssign|;
      && start + |r.value| < |setCookie|
      && setCookie[start..start + |r.value|] == r.value
      && setCookie[start + |r.value|] == ';'
      && ';' !in r.value
    ensures r.None? <==>
      IndexOf(setCookie, SessionCookieAssign).None?
      || ';' !in setCookie[IndexOf(setCookie, SessionCookieAssign).value..]
  {
    match IndexOf(setCookie, SessionCookieAssign)
    case None => None
    case Some(i) =>
      var part := setCookie[i..];
      if ';' !in part then None
      else
        var j := FirstIndex(part, ';');
        AssignHasNoSemicolon();
        assert part[..|SessionCookieAssign|] == SessionCookieAssign;
        assert j >= |SessionCookieAssign|;
        assert part[|SessionCookieAssign|..j] == setCookie[i + |SessionCookieAssign|..i + j];
        Some(part[|SessionCookieAssign|..j])
  }

  /** A header that starts with the assignment yields exactly the assigned value. */
  lemma RotatedValueRoundTrip(v: string, rest: string)
    requires ';' !in v
    ensures RotatedValue(SessionCookieAssign + v + ";" + rest) == Some(v)
  {
    var n := |SessionCookieAssign|;
    var head := SessionCookieAssign + v;
    var h := head + [';'] + rest;
    assert SessionCookieAssign + v + ";" + rest == h;
    assert OccursAt(h, SessionCookieAssign, 0);
    assert h[0..] == h;
    FirstIndexAfter(head, ';', rest);
    assert h[n..|head|] == v;
  }

  lemma FirstIndexAfter(a: string, c: char, b: string)
    requires c !in a
    ensures c in a + [c] + b && FirstIndex(a + [c] + b, c) == |a|
  {
    var s := a + [c] + b;
    assert s[|a|] == c;
    assert s[..|a|] == a;
  }

  /** The session after a rotation: every old `JSESSIONID` entry replaced by
      one appended entry without domain or path. */
  function Rotated(s: Session, value: string): (r: Session)
    ensures r.baseUrl == s.baseUrl && r.jsessionid == s.jsessionid
    ensures r.additionalCookies ==
      WithoutSessionCookies(s.additionalCookies) + [Cookie(SessionCookieName, value, None, None)]
  {
    s.(additionalCookies := WithoutSessionCookies(s.additionalCookies) + [Cookie(SessionCookieName, value, None, None)])
  }

  /** After a rotation the next request of a JWT session carries exactly the new cookie. */
  lemma RotationFeedsNextRequest(s: Session, value: string)
    requires IsJwtSession(s)
    ensures !NeedsCleanup(Rotated(s, value))
    ensures DefaultHeaders(Rotated(s, value)).cookie == Some(SessionCookieAssign + value)
  {
    var cs := Rotated(s, value).additionalCookies;
    var kept := WithoutSessionCookies(s.additionalCookies);
    assert cs[..|cs| - 1] == kept;
    assert SessionCookieValues(cs) == SessionCookieValues(kept) + [value];
  }

  datatype RequestMethod = Get | Post

  /** The request as sent: URL, method, injected headers and JSON body. */
  datatype ApiRequest = ApiRequest(url: string, verb: RequestMethod, headers: Headers, body: Option<Json>)

  /** The transport's answer: failure, or the first `set-cookie` value (when
      present and readable as text) and the reply text. */
  datatype ApiReply = SendFailed | Received(setCookie: Option<string>, text: string)

  datatype FetchError = HttpRequestFailed

  /** The value a reply rotates the session cookie to, for a JWT session. */
  function RotationOf(s: Session, reply: ApiReply): (r: Option<string>)
    ensures r.Some? ==> IsJwtSession(s)
  {
    if IsJwtSession(s) && reply.Received? && reply.setCookie.Some? then RotatedValue(reply.setCookie.value)
    else None
  }

  /** `fetch_api_data`: builds the request from the saved session, sends it,
      and for a JWT session stores a rotated `JSESSIONID` from the reply. */
  method FetchApiData(store: Store, url: string, verb: RequestMethod, body: Option<Json>, reply: ApiReply)
    returns (req: ApiRequest, r: Result<string, FetchError>)
    modifies store`file
    ensures var s := old(store.Load());
      && req.url == FullUrl(url, s.baseUrl)
      && req.verb == verb
      && req.headers == DefaultHeaders(CleanedUp(s))
      && req.body == (if verb == Post then Some(PostBody(body, s)) else None)
    ensures reply.SendFailed? ==> r == Err(HttpRequestFailed)
    ensures reply.Received? ==> r == Ok(reply.text)
    ensures var s := old(store.Load());
      store.file ==
        if !store.writable then old(store.file)
        else if RotationOf(s, reply).Some? then Some(store.json.serialize(Rotated(s, RotationOf(s, reply).value)))
        else if NeedsCleanup(s) then Some(store.json.serialize(CleanedUp(s)))
        else old(store.file)
  {
    var session := store.Load();
    var fullUrl := if StartsWith(url, "http") then url else session.baseUrl + url;
    var headers := AppendDefaultHeaders(store);
    var sentBody: Option<Json> := None;
    if verb == Post {
      var finalBody := body.GetOr(JObject(map[]));
      if StartsWith(session.jsessionid, JwtPrefix) && finalBody.JObject? {
        finalBody := JObject(finalBody.fields["jwt" := JString(session.jsessionid)]);
      }
      sentBody := Some(finalBody);
    }
    req := ApiRequest(fullUrl, verb, headers, sentBody);
    match reply
    case SendFailed =>
      r := Err(HttpRequestFailed);
    case Received(setCookie, text) =>
      if StartsWith(session.jsessionid, JwtPrefix) && setCookie.Some? {
        var value := RotatedValue(setCookie.value);
        if value.Some? {
          session := session.(additionalCookies :=
            WithoutSessionCookies(session.additionalCookies) + [Cookie(SessionCookieName, value.value, None, None)]);
          var _ := store.Save(session);
        }
      }
      r := Ok(text);
  }

  /** `clear_session`: sends the logout request (its outcome ignored), then
      removes the session file. */
  method ClearSession(store: Store, reply: ApiReply) returns (r: Result<(), IoError>)
    modifies store`file
    ensures r.Ok? <==> old(store.file).None? || store.writable
    ensures r.Ok? ==> store.file.None? && !store.Exists()
    ensures r.Err? ==> store.file == old(store.file) && store.file.Some?
  {
    var _, _ := FetchApiData(store, "/saml2?logout", Get, None, reply);
    r := store.ClearFile();
  }
}
