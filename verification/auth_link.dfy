/** The `desqta://auth` deep link handled by the single-instance callback in
    `src-tauri/src/lib.rs`: the session cookie and portal address are read
    from the query string, percent-decoded, and saved as a fresh session.
    Percent-decoding is a parameter, `None` where the decoded bytes are not
    UTF-8. */
module AuthLink {
  import opened Wrappers
  import opened Text
  import opened SessionStore
  import opened LoginWindow
  import opened QueryParams

  const AuthPrefix := "desqta://auth"

  datatype Credentials = Credentials(cookie: Option<string>, url: Option<string>)

  /** The parameter loop: every `&`-separated parameter is split at its first
      `=`, and `cookie` and `url` values are decoded. */
  method ReadParams(query: string, dec: string -> Option<string>) returns (c: Credentials)
    ensures c.cookie == Latest(Split(query, '&'), "cookie", dec)
    ensures c.url == Latest(Split(query, '&'), "url", dec)
  {
    var params := Split(query, '&');
    var cookie: Option<string> := None;
    var url: Option<string> := None;
    for i := 0 to |params|
      invariant cookie == Latest(params[..i], "cookie", dec)
      invariant url == Latest(params[..i], "url", dec)
    {
      assert params[..i + 1][..i] == params[..i];
      match SplitOnce(params[i], '=') {
        case None =>
        case Some((key, value)) =>
          if key == "cookie" {
            var decoded := dec(value);
            if decoded.Some? {
              cookie := decoded;
            }
          } else if key == "url" {
            var decoded := dec(value);
            if decoded.Some? {
              url := decoded;
            }
          }
      }
    }
    assert params[..|params|] == params;
    return Credentials(cookie, url);
  }

  /** What a link yields before anything is saved. */
  function LinkCredentials(link: string, dec: string -> Option<string>): Credentials {
    match Query(link)
    case None => Credentials(None, None)
    case Some(q) => Credentials(Latest(Split(q, '&'), "cookie", dec), Latest(Split(q, '&'), "url", dec))
  }

  /** The single-instance callback for the command line `argv`. A session is
      saved exactly when `argv[1]` is an auth link that supplied both values,
      and then with the address as base URL, the cookie as token and no other
      cookies; otherwise the stored session is left alone. */
  method HandleAuthLink(store: Store, argv: seq<string>, dec: string -> Option<string>)
    returns (saved: Option<Result<(), IoError>>)
    modifies store`file
    ensures |argv| < 2 || !StartsWith(argv[1], AuthPrefix) ==> saved.None?
    ensures saved.Some? <==>
      && |argv| >= 2 && StartsWith(argv[1], AuthPrefix)
      && LinkCredentials(argv[1], dec).cookie.Some? && LinkCredentials(argv[1], dec).url.Some?
    ensures saved.Some? ==>
      var c := LinkCredentials(argv[1], dec);
      && (saved.value.Ok? <==> store.writable)
      && (saved.value.Ok? ==> store.file == Some(store.json.serialize(Session(c.url.value, c.cookie.value, []))))
    ensures saved.None? || saved.value.Err? ==> store.file == old(store.file)
  {
    if |argv| < 2 || !StartsWith(argv[1], AuthPrefix) {
      return None;
    }
    var found := Credentials(None, None);
    var query := Query(argv[1]);
    if query.Some? {
      found := ReadParams(query.value, dec);
    }
    if found.cookie.Some? && found.url.Some? {
      var r := SaveSession(store, found.url.value, found.cookie.value);
      return Some(r);
    }
    return None;
  }
}
