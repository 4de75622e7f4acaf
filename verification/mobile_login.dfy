/** The mobile login command of `src-tauri/src/mobilechanges/login.rs`: the
    same watched login window as on desktop, without the deep-link path and
    with a grace period of a single poll. */
module MobileLogin {
  import opened Wrappers
  import opened SessionStore
  import opened LoginWindow

  /** `create_login_window` on mobile. */
  method CreateLoginWindow(store: Store, url: string, platform: Platform, ticks: seq<Tick>)
    returns (r: Result<(), WindowError>, watched: Option<WatchOutcome>)
    requires |ticks| >= MaxPolls
    modifies store`file
    ensures r.Ok? <==> watched.Some?
    ensures r.Ok? <==> var parsed := platform.parseUrl(NormaliseUrl(url));
      parsed.Some? && platform.parseUrl(LaunchUrl(parsed.value)).Some? && platform.windowBuilds
    ensures watched.Some? ==>
      var parsed := platform.parseUrl(NormaliseUrl(url));
      parsed.Some? && IsWatchResult(watched.value, ticks, parsed.value.host, NormaliseUrl(url), MobileGrace)
    ensures watched.Some? && watched.value.Found? ==> watched.value.tick >= 1
    ensures watched.Some? && watched.value.Found? && store.writable ==>
      store.file == Some(store.json.serialize(watched.value.session))
    ensures !(watched.Some? && watched.value.Found? && store.writable) ==> store.file == old(store.file)
  {
    r, watched := OpenAndWatch(store, url, platform, ticks, MobileGrace);
  }
}
