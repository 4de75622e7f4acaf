/** The desktop login commands of `src-tauri/src/auth/login.rs`: the
    `create_login_window` dispatch between the QR single-sign-on deep link and
    the interactive webview login, and `logout`. */
module DesktopLogin {
  import opened Wrappers
  import opened Text
  import opened SessionStore
  import opened Sso
  import opened LoginWindow
  import opened Netgrab

  /** Any address with this scheme is treated as a QR sign-on deep link. */
  const QrScheme := "seqtalearn://"

  datatype DesktopError =
    | SsoFailed(cause: LoginError)
    | SaveFailed
    | LaunchFailed(reason: WindowError)

  /** Which path the command took and what it did on it. */
  datatype Run =
    | Handshake(calls: seq<HttpCall>)
    | Interactive(watched: Option<WatchOutcome>)

  /** `create_login_window` on a desktop platform. A deep link is parsed,
      validated, exchanged and saved, and a failing save is an error; any
      other address goes through the watched login window. */
  method CreateLoginWindow(
    store: Store, url: string, now: int, transport: Step -> HttpReply, d: Decoders,
    platform: Platform, ticks: seq<Tick>)
    returns (r: Result<(), DesktopError>, run: Run)
    requires |ticks| >= MaxPolls
    modifies store`file
    ensures run.Handshake? <==> StartsWith(url, QrScheme)
    ensures var qr := QrLogin(url, now, transport, d);
      && (run.Handshake? ==> run.calls == qr.calls)
      && (run.Handshake? && qr.result.Err? ==> r == Err(SsoFailed(qr.result.error)) && store.file == old(store.file))
      && (run.Handshake? && qr.result.Ok? ==>
            && (r.Ok? <==> store.writable)
            && (r.Ok? ==> store.file == Some(store.json.serialize(qr.result.value)))
            && (r.Err? ==> r == Err(SaveFailed) && store.file == old(store.file)))
    ensures run.Interactive? ==>
      && (r.Ok? <==> run.watched.Some?)
      && (r.Err? ==> r.error.LaunchFailed? && store.file == old(store.file))
      && (run.watched.Some? ==>
            var parsed := platform.parseUrl(NormaliseUrl(url));
            parsed.Some? && IsWatchResult(run.watched.value, ticks, parsed.value.host, NormaliseUrl(url), DesktopGrace))
      && (run.watched.Some? && run.watched.value.Found? && store.writable ==>
            store.file == Some(store.json.serialize(run.watched.value.session)))
      && (!(run.watched.Some? && run.watched.value.Found? && store.writable) ==>
            store.file == old(store.file))
  {
    if StartsWith(url, QrScheme) {
      var qr := QrLogin(url, now, transport, d);
      run := Handshake(qr.calls);
      if qr.result.Err? {
        return Err(SsoFailed(qr.result.error)), run;
      }
      var saved := store.Save(qr.result.value);
      if saved.Err? {
        return Err(SaveFailed), run;
      }
      return Ok(()), run;
    }
    var launched, watched := OpenAndWatch(store, url, platform, ticks, DesktopGrace);
    run := Interactive(watched);
    if launched.Err? {
      return Err(LaunchFailed(launched.error)), run;
    }
    return Ok(()), run;
  }

  /** `logout`: true exactly when `clear_session` succeeded, after which no
      session is stored. */
  method Logout(store: Store, reply: ApiReply) returns (ok: bool)
    modifies store`file
    ensures ok <==> old(store.file).None? || store.writable
    ensures ok ==> store.file.None? && !store.Exists()
    ensures !ok ==> store.file == old(store.file) && store.file.Some?
  {
    var r := ClearSession(store, reply);
    ok := r.Ok?;
  }
}
