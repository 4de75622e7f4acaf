/** The persisted login session (`src-tauri/src/utils/session.rs`): one JSON
    file holding the portal base URL, the primary session token and the
    auxiliary cookies. */
module SessionStore {
  import opened Wrappers

  /** The name of the portal's session cookie, treated specially everywhere. */
  const SessionCookieName := "JSESSIONID"

  datatype Cookie = Cookie(name: string, value: string, domain: Option<string>, path: Option<string>)

  datatype Session = Session(baseUrl: string, jsessionid: string, additionalCookies: seq<Cookie>)

  /** `Session::default()`: every field empty. */
  const EmptySession := Session("", "", [])

  /** A session is usable when both the base URL and the token are set. */
  predicate Usable(s: Session) {
    s.baseUrl != "" && s.jsessionid != ""
  }

  /** The serde serialiser and parser of the session record. */
  datatype SessionJson = SessionJson(serialize: Session -> string, parse: string -> Option<Session>)

  /** Parsing what was serialised gives back the same session. */
  ghost predicate RoundTrips(j: SessionJson) {
    forall s :: j.parse(j.serialize(s)) == Some(s)
  }

  datatype IoError = WriteFailed | RemoveFailed

  /** The session file. `file` is its content (`None`: no file); `writable`
      says whether the file system currently accepts writes and deletions. */
  class Store {
    var file: Option<string>
    var writable: bool
    const json: SessionJson

    constructor (json: SessionJson, file: Option<string>, writable: bool)
      ensures this.json == json && this.file == file && this.writable == writable
    {
      this.json := json;
      this.file := file;
      this.writable := writable;
    }

    /** `Session::load`: the stored session, or the empty session when the file
        is missing or does not parse. Never fails. */
    function Load(): (s: Session)
      reads this
      ensures file.None? ==> s == EmptySession
      ensures file.Some? && json.parse(file.value).None? ==> s == EmptySession
      ensures file.Some? && json.parse(file.value).Some? ==> s == json.parse(file.value).value
    {
      match file
      case None => EmptySession
      case Some(text) => json.parse(text).GetOr(EmptySession)
    }

    /** `Session::exists`: the loaded session is usable. */
    predicate Exists()
      reads this
      ensures Exists() <==> Load().baseUrl != "" && Load().jsessionid != ""
    {
      var s := Load();
      !(s.baseUrl == "" || s.jsessionid == "")
    }

    /** `Session::save`: overwrites the file with the serialised session. */
    method Save(s: Session) returns (r: Result<(), IoError>)
      modifies this`file
      ensures r.Ok? <==> writable
      ensures r.Ok? ==> file == Some(json.serialize(s))
      ensures r.Ok? && RoundTrips(json) ==> Load() == s
      ensures r.Err? ==> file == old(file) && r.error == WriteFailed
    {
      if writable {
        file := Some(json.serialize(s));
        r := Ok(());
      } else {
        r := Err(WriteFailed);
      }
    }

    /** `Session::clear_file`: removes the file if there is one; a missing file
        is success. */
    method ClearFile() returns (r: Result<(), IoError>)
      modifies this`file
      ensures old(file).None? ==> r.Ok?
      ensures r.Ok? <==> old(file).None? || writable
      ensures r.Ok? ==> file.None? && Load() == EmptySession && !Exists()
      ensures r.Err? ==> file == old(file) && r.error == RemoveFailed
    {
      if file.Some? {
        if !writable {
          return Err(RemoveFailed);
        }
        file := None;
      }
      r := Ok(());
    }
  }

  /** Clearing twice: the second clear always succeeds once the first has. */
  method ClearFileIdempotent(store: Store) returns (first: Result<(), IoError>, second: Result<(), IoError>)
    modifies store
    ensures first.Ok? ==> second.Ok? && store.Load() == EmptySession
  {
    first := store.ClearFile();
    second := store.ClearFile();
  }
}
