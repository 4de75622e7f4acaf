/** The interactive login window shared by `src-tauri/src/auth/login.rs`
    (desktop) and `src-tauri/src/mobilechanges/login.rs` (mobile): the portal
    address is normalised to `https://`, a window is opened at its welcome
    page, and a polling loop watches the window until a live `JSESSIONID`
    cookie for the portal host appears. Each loop iteration's view of the
    window is an input `Tick`; the clock is the tick's `now`. */
module LoginWindow {
  import opened Wrappers
  import opened Text
  import opened Seqs
  import opened SessionStore

  /** Iterations of the polling loop (`for _ in 0..1920`). */
  const MaxPolls := 1920

  /** Iterations skipped before looking at the window: `counter > 5` on desktop. */
  const DesktopGrace := 5

  /** `counter > 0` on mobile. */
  const MobileGrace := 0

  /** The fragment of the welcome page the window is opened at. */
  const WelcomeMarker := "#?page=/welcome"

  /** A cookie as the webview reports it; `expires` is its expiry instant, if any. */
  datatype WebCookie = WebCookie(name: string, value: string, domain: Option<string>, path: Option<string>, expires: Option<int>)

  /** The login window: its address and its cookies, each `None` when reading it failed. */
  datatype Window = Window(url: Option<string>, cookies: Option<seq<WebCookie>>)

  /** One loop iteration: the clock, and the window if it still exists. */
  datatype Tick = Tick(now: int, window: Option<Window>)

  datatype WatchOutcome = Found(session: Session, tick: nat) | TimedOut

  /** The parts of `url::Url` the login flow uses: its text and its host. */
  datatype ParsedUrl = ParsedUrl(text: string, host: Option<string>)

  /** Errors of `create_login_window` outside the deep-link branch. */
  datatype WindowError = InvalidUrl | LaunchUrlInvalid | WindowBuildFailed

  /** The address given by the user, with `https://` prepended unless present. */
  function NormaliseUrl(url: string): (r: string)
    ensures StartsWith(r, "https://")
    ensures StartsWith(url, "https://") ==> r == url
    ensures !StartsWith(url, "https://") ==> r == "https://" + url
  {
    if StartsWith(url, "https://") then url else "https://" + url
  }

  /** Normalising twice is normalising once. */
  lemma NormaliseIdempotent(url: string)
    ensures NormaliseUrl(NormaliseUrl(url)) == NormaliseUrl(url)
  {
  }

  /** The address the window is opened at: the parsed URL followed by the welcome page. */
  function LaunchUrl(parsed: ParsedUrl): (r: string)
    ensures Contains(r, WelcomeMarker)
    ensures StartsWith(r, parsed.text + "/") && EndsWith(r, WelcomeMarker)
    ensures |r| == |parsed.text| + 1 + |WelcomeMarker|
  {
    var launch := parsed.text + "/" + WelcomeMarker;
    assert OccursAt(launch, WelcomeMarker, |parsed.text| + 1);
    launch
  }

  /** A cookie that completes the login: named `JSESSIONID`, with a domain
      equal to the portal host (both absent counting as equal, as the source's
      `unwrap_or("None")` comparison does) and an expiry strictly after now. */
  predicate IsSessionCandidate(c: WebCookie, host: Option<string>, now: int) {
    && c.name == SessionCookieName
    && c.domain.GetOr("None") == host.GetOr("None")
    && c.expires.Some?
    && c.expires.value > now
  }

  /** A cookie kept beside the session token: not `JSESSIONID`, with a domain
      whose dot-trimmed form is a suffix of the host. */
  predicate SameSite(c: WebCookie, host: Option<string>) {
    && c.name != SessionCookieName
    && c.domain.Some?
    && host.Some?
    && EndsWith(host.value, TrimStart(c.domain.value, '.'))
  }

  function ToCookie(c: WebCookie): Cookie {
    Cookie(c.name, c.value, c.domain, c.path)
  }

  function MapToCookies(cs: seq<WebCookie>): (r: seq<Cookie>)
    ensures |r| == |cs| && forall i :: 0 <= i < |cs| ==> r[i] == ToCookie(cs[i])
  {
    if cs == [] then [] else [ToCookie(cs[0])] + MapToCookies(cs[1..])
  }

  function SameSiteFor(host: Option<string>): WebCookie -> bool {
    (c: WebCookie) => SameSite(c, host)
  }

  /** Converted cookies that were all same-site keep the same-site facts. */
  lemma {:induction false} ConvertedStaySameSite(kept: seq<WebCookie>, host: Option<string>)
    requires forall i :: 0 <= i < |kept| ==> SameSite(kept[i], host)
    ensures forall i :: 0 <= i < |kept| ==>
      && MapToCookies(kept)[i].name != SessionCookieName
      && MapToCookies(kept)[i].domain.Some? && host.Some?
      && EndsWith(host.value, TrimStart(MapToCookies(kept)[i].domain.value, '.'))
  {
    var r := MapToCookies(kept);
    forall i | 0 <= i < |kept|
      ensures r[i].name != SessionCookieName
      ensures r[i].domain.Some? && host.Some? && EndsWith(host.value, TrimStart(r[i].domain.value, '.'))
    {
      assert r[i] == ToCookie(kept[i]);
      assert SameSite(kept[i], host);
    }
  }

  /** Conversion keeps every cookie, converted. */
  lemma ConvertedContains(kept: seq<WebCookie>, c: WebCookie)
    requires c in kept
    ensures ToCookie(c) in MapToCookies(kept)
  {
    var j :| 0 <= j < |kept| && kept[j] == c;
    assert MapToCookies(kept)[j] == ToCookie(c);
  }

  /** The cookie-normalisation pipeline: filter with `SameSite`, convert, keep order. */
  function AuxiliaryCookies(cs: seq<WebCookie>, host: Option<string>): (r: seq<Cookie>)
    ensures forall i :: 0 <= i < |r| ==> r[i].name != SessionCookieName
    ensures forall i :: 0 <= i < |r| ==>
      r[i].domain.Some? && host.Some? && EndsWith(host.value, TrimStart(r[i].domain.value, '.'))
    ensures forall i :: 0 <= i < |cs| && SameSite(cs[i], host) ==> ToCookie(cs[i]) in r
  {
    var kept := Filter(cs, SameSiteFor(host));
    assert forall i :: 0 <= i < |kept| ==> SameSiteFor(host)(kept[i]);
    ConvertedStaySameSite(kept, host);
    forall i | 0 <= i < |cs| && SameSite(cs[i], host)
      ensures ToCookie(cs[i]) in MapToCookies(kept)
    {
      assert SameSiteFor(host)(cs[i]);
      ConvertedContains(kept, cs[i]);
    }
    MapToCookies(kept)
  }

  /** The kept cookies appear in the order the webview listed them. */
  lemma AuxiliaryCookiesKeepOrder(cs: seq<WebCookie>, host: Option<string>)
    ensures AuxiliaryCookies(cs, host) == MapToCookies(Filter(cs, SameSiteFor(host)))
    ensures IsSubsequence(Filter(cs, SameSiteFor(host)), cs)
  {
    FilterIsSubsequence(cs, SameSiteFor(host));
  }

  /** Index of the first session candidate. */
  function FirstCandidate(cs: seq<WebCookie>, host: Option<string>, now: int): (r: Option<nat>)
    ensures r.Some? ==> r.value < |cs| && IsSessionCandidate(cs[r.value], host, now)
    ensures r.Some? ==> forall j :: 0 <= j < r.value ==> !IsSessionCandidate(cs[j], host, now)
    ensures r.None? ==> forall j :: 0 <= j < |cs| ==> !IsSessionCandidate(cs[j], host, now)
  {
    if cs == [] then None
    else if IsSessionCandidate(cs[0], host, now) then Some(0)
    else match FirstCandidate(cs[1..], host, now)
      case None => None
      case Some(i) => Some(i + 1)
  }

  /** What one inspected tick yields: nothing while the window is gone, off
      the welcome page, or without readable cookies or a candidate; otherwise
      the session the source saves. An address that cannot be read does not
      stop the inspection. */
  function Harvest(tick: Tick, host: Option<string>, baseUrl: string): (r: Option<Session>)
    ensures r.Some? ==> tick.window.Some? && tick.window.value.cookies.Some?
    ensures r.Some? ==> tick.window.value.url.None? || Contains(tick.window.value.url.value, WelcomeMarker)
    ensures r.Some? ==> r.value.baseUrl == baseUrl
    ensures r.Some? ==>
      var cs := tick.window.value.cookies.value;
      && FirstCandidate(cs, host, tick.now).Some?
      && r.value.jsessionid == cs[FirstCandidate(cs, host, tick.now).value].value
    ensures r.Some? ==> r.value.additionalCookies == AuxiliaryCookies(tick.window.value.cookies.value, host)
  {
    match tick.window
    case None => None
    case Some(w) =>
      if w.url.Some? && !Contains(w.url.value, WelcomeMarker) then None
      else match w.cookies
        case None => None
        case Some(cs) =>
          match FirstCandidate(cs, host, tick.now)
          case None => None
          case Some(i) => Some(Session(baseUrl, cs[i].value, AuxiliaryCookies(cs, host)))
  }

  /** What the polling loop yields: a session exactly when some tick after the
      grace period, within the 1920 polls, harvests one, and then the first
      such tick and its session. */
  predicate IsWatchResult(o: WatchOutcome, ticks: seq<Tick>, host: Option<string>, baseUrl: string, grace: nat)
    requires |ticks| >= MaxPolls
  {
    && (o.Found? <==> exists i :: grace < i < MaxPolls && Harvest(ticks[i], host, baseUrl).Some?)
    && (o.Found? ==> grace < o.tick < MaxPolls && Harvest(ticks[o.tick], host, baseUrl) == Some(o.session))
    && (o.Found? ==> forall j :: grace < j < o.tick ==> Harvest(ticks[j], host, baseUrl).None?)
  }

  /** The scan of one tick's cookies for the session cookie. */
  method FindCandidate(cs: seq<WebCookie>, host: Option<string>, now: int) returns (r: Option<nat>)
    ensures r == FirstCandidate(cs, host, now)
  {
    for k := 0 to |cs|
      invariant forall j :: 0 <= j < k ==> !IsSessionCandidate(cs[j], host, now)
    {
      if IsSessionCandidate(cs[k], host, now) {
        assert FirstCandidate(cs, host, now) == Some(k);
        return Some(k);
      }
    }
    return None;
  }

  /** The polling loop of `create_login_window`. `counter` starts at 0 and is
      incremented at the end of every iteration, except that an inspected tick
      whose address lacks the welcome marker `continue`s past the increment.
      The first tick that harvests a session ends the loop. */
  method Watch(ticks: seq<Tick>, host: Option<string>, baseUrl: string, grace: nat) returns (o: WatchOutcome)
    requires |ticks| >= MaxPolls
    ensures IsWatchResult(o, ticks, host, baseUrl, grace)
  {
    var counter := 0;
    var i := 0;
    while i < MaxPolls
      invariant 0 <= i <= MaxPolls
      invariant counter <= i
      invariant i <= grace + 1 ==> counter == i
      invariant i > grace ==> counter > grace
      invariant forall j :: grace < j < i ==> Harvest(ticks[j], host, baseUrl).None?
    {
      var tick := ticks[i];
      if tick.window.Some? {
        var w := tick.window.value;
        if counter > grace {
          if w.url.Some? && !Contains(w.url.value, WelcomeMarker) {
            i := i + 1;
            continue;
          }
          if w.cookies.Some? {
            var cs := w.cookies.value;
            var found := FindCandidate(cs, host, tick.now);
            if found.Some? {
              return Found(Session(baseUrl, cs[found.value].value, AuxiliaryCookies(cs, host)), i);
            }
          }
        }
      }
      counter := counter + 1;
      i := i + 1;
    }
    return TimedOut;
  }

  /** `save_session`: the given URL and token, with no additional cookies. */
  method SaveSession(store: Store, baseUrl: string, jsessionid: string) returns (r: Result<(), IoError>)
    modifies store`file
    ensures r.Ok? <==> store.writable
    ensures r.Ok? && RoundTrips(store.json) ==> store.Load() == Session(baseUrl, jsessionid, [])
    ensures r.Ok? ==> store.file == Some(store.json.serialize(Session(baseUrl, jsessionid, [])))
    ensures r.Err? ==> store.file == old(store.file)
  {
    r := store.Save(Session(baseUrl, jsessionid, []));
  }

  /** The host's URL parser and whether the webview window can be built. */
  datatype Platform = Platform(parseUrl: string -> Option<ParsedUrl>, windowBuilds: bool)

  /** The URL-login path of `create_login_window`: normalise, parse, derive the
      welcome-page address, open the window and watch it; a harvested session
      is saved and a failed save is ignored. The window is opened and the
      command returns success before the watcher ends. */
  method OpenAndWatch(store: Store, url: string, platform: Platform, ticks: seq<Tick>, grace: nat)
    returns (r: Result<(), WindowError>, watched: Option<WatchOutcome>)
    requires |ticks| >= MaxPolls
    modifies store`file
    ensures var parsed := platform.parseUrl(NormaliseUrl(url));
      && (parsed.None? ==> r == Err(InvalidUrl))
      && (parsed.Some? && platform.parseUrl(LaunchUrl(parsed.value)).None? ==> r == Err(LaunchUrlInvalid))
      && (parsed.Some? && platform.parseUrl(LaunchUrl(parsed.value)).Some? && !platform.windowBuilds ==>
            r == Err(WindowBuildFailed))
      && (r.Ok? <==> parsed.Some? && platform.parseUrl(LaunchUrl(parsed.value)).Some? && platform.windowBuilds)
      && (watched.Some? ==> parsed.Some? && IsWatchResult(watched.value, ticks, parsed.value.host, NormaliseUrl(url), grace))
    ensures r.Ok? <==> watched.Some?
    ensures watched.Some? && watched.value.Found? && store.writable ==>
      store.file == Some(store.json.serialize(watched.value.session))
    ensures !(watched.Some? && watched.value.Found? && store.writable) ==> store.file == old(store.file)
  {
    var httpUrl := NormaliseUrl(url);
    var parsed := platform.parseUrl(httpUrl);
    if parsed.None? {
      return Err(InvalidUrl), None;
    }
    if platform.parseUrl(LaunchUrl(parsed.value)).None? {
      return Err(LaunchUrlInvalid), None;
    }
    if !platform.windowBuilds {
      return Err(WindowBuildFailed), None;
    }
    var o := Watch(ticks, parsed.value.host, httpUrl, grace);
    if o.Found? {
      var _ := store.Save(o.session);
    }
    return Ok(()), Some(o);
  }
}
