/** The front end's error service (`src/lib/services/errorService.ts`): every
    reported error is queued and the app navigates to the error page, unless
    an error is already being handled (the re-entrancy guard stays up until
    its one-second timer fires) or the app is already on the error page.
    The current page, the clock, the user agent and `encodeURIComponent` are
    parameters. */
module ErrorService {
  import opened Wrappers
  import opened Text
  import opened QueryParams

  datatype ErrorInfo = ErrorInfo(
    message: string,
    status: Option<int>,
    stack: Option<string>,
    url: Option<string>,
    timestamp: string,
    userAgent: Option<string>)

  /** Where and when an error is reported from. */
  datatype Context = Context(href: string, pathname: string, timestamp: string, userAgent: string)

  const ErrorPath := "/error"
  const DefaultStatus := 500

  /** The template-literal rendering of an optional status. */
  function StatusText(status: Option<int>): (t: string)
    ensures '&' !in t && '?' !in t
    ensures status.None? ==> t == "undefined"
  {
    match status
    case Some(n) => IntToString(n)
    case None => "undefined"
  }

  /** The address of the error page for `info`. */
  function ErrorUrl(info: ErrorInfo, encode: string -> string): (u: string)
    ensures StartsWith(u, ErrorPath + "?status=")
  {
    ErrorPath + "?status=" + StatusText(info.status) + "&message=" + encode(info.message)
  }

  /** Reading the error page's query the way the auth link is read gives back
      the status text and the message, when `encode` escapes `&` and `?` and
      `decode` undoes it. */
  lemma ErrorUrlReadsBack(info: ErrorInfo, encode: string -> string, decode: string -> Option<string>)
    requires '&' !in encode(info.message) && '?' !in encode(info.message)
    requires decode(encode(info.message)) == Some(info.message)
    requires decode(StatusText(info.status)) == Some(StatusText(info.status))
    ensures Query(ErrorUrl(info, encode)).Some?
    ensures var params := Split(Query(ErrorUrl(info, encode)).value, '&');
      && Latest(params, "message", decode) == Some(info.message)
      && Latest(params, "status", decode) == Some(StatusText(info.status))
  {
    var st, e := StatusText(info.status), encode(info.message);
    var after := "status=" + st + "&message=" + e;
    assert ErrorUrl(info, encode) == ErrorPath + ['?'] + after;
    assert '?' !in after by {
      assert '?' !in "status=" && '?' !in "&message=";
    }
    QueryIsRest(ErrorPath, after);
    ParamsReadBack(st, e, info.message, decode);
  }

  /** The two parameters of the error page's query read back. */
  lemma ParamsReadBack(st: string, e: string, message: string, decode: string -> Option<string>)
    requires '&' !in st && '&' !in e
    requires decode(e) == Some(message) && decode(st) == Some(st)
    ensures var params := Split("status=" + st + "&message=" + e, '&');
      && Latest(params, "message", decode) == Some(message)
      && Latest(params, "status", decode) == Some(st)
  {
    var first, second := "status=" + st, "message=" + e;
    assert "status=" + st + "&message=" + e == first + "&" + second;
    assert "status=" == "status" + "=" && "message=" == "message" + "=";
    assert first == "status" + "=" + st && second == "message" + "=" + e;
    assert '=' !in "status" && '=' !in "message" && |"status"| != |"message"|;
    assert '&' !in first by {
      assert '&' !in "status=";
    }
    PairSplits(first, second);
    LatestOfPair(first, second, "status", st, "message", e, decode);
  }

  /** Reading `k1=v1&k2=v2` for two different keys. */
  lemma LatestOfPair(first: string, second: string, k1: string, v1: string, k2: string, v2: string,
                     decode: string -> Option<string>)
    requires first == k1 + "=" + v1 && second == k2 + "=" + v2
    requires '=' !in k1 && '=' !in k2 && k1 != k2
    requires decode(v1).Some? && decode(v2).Some?
    ensures Latest([first, second], k2, decode) == decode(v2)
    ensures Latest([first, second], k1, decode) == decode(v1)
  {
    ParamSupplies(k1, v1, decode);
    ParamSupplies(k2, v2, decode);
    assert ValueFor(second, k1, decode) == None;
    assert [first, second][..1] == [first];
  }

  /** With one `?` in the address, the query is all that follows it. */
  lemma QueryIsRest(before: string, after: string)
    requires '?' !in before && '?' !in after
    ensures Query(before + ['?'] + after) == Some(after)
  {
    var u := before + ['?'] + after;
    assert u[|before|] == '?';
    SplitOnceAt(before, '?', after);
    assert '?' in u;
    var q := Query(u).value;
    assert forall i :: 0 <= i < |after| ==> after[i] != '?';
    assert |q| == |after|;
    assert after[..|after|] == after;
  }

  lemma PairSplits(first: string, second: string)
    requires '&' !in first && '&' !in second
    ensures Split(first + "&" + second, '&') == [first, second]
  {
    assert first + "&" + second == first + ['&'] + second;
    SplitFirst(first, '&', second);
    SplitNoSeparator(second, '&');
    assert [first] + [second] == [first, second];
  }

  lemma ParamSupplies(key: string, value: string, decode: string -> Option<string>)
    requires '=' !in key
    ensures SplitOnce(key + "=" + value, '=') == Some((key, value))
    ensures ValueFor(key + "=" + value, key, decode) == decode(value)
  {
    assert key + "=" + value == key + ['='] + value;
    SplitOnceAt(key, '=', value);
  }

  /** The error raised through the public `handleError` helper. */
  datatype Raised = Message(text: string) | Thrown(errorMessage: string, errorStack: Option<string>)

  /** JavaScript truthiness of an optional string and an optional number. */
  predicate TruthyText(s: Option<string>) { s.Some? && s.value != "" }
  predicate TruthyNumber(n: Option<int>) { n.Some? && n.value != 0 }

  /** A rejected promise's reason, as far as the handler reads it. */
  datatype Reason = Reason(message: Option<string>, status: Option<int>, stack: Option<string>)

  /** The `unhandledrejection` listener: message and status fall back when
      absent or falsy. */
  function RejectionInfo(reason: Option<Reason>, ctx: Context): (e: ErrorInfo)
    ensures reason.Some? && TruthyText(reason.value.message) ==> e.message == reason.value.message.value
    ensures !(reason.Some? && TruthyText(reason.value.message)) ==> e.message == "Unhandled Promise Rejection"
    ensures e.status.Some? && e.status.value != 0
    ensures reason.Some? && TruthyNumber(reason.value.status) ==> e.status == reason.value.status
    ensures !(reason.Some? && TruthyNumber(reason.value.status)) ==> e.status == Some(DefaultStatus)
  {
    var message := if reason.Some? && TruthyText(reason.value.message) then reason.value.message.value
      else "Unhandled Promise Rejection";
    var status := if reason.Some? && TruthyNumber(reason.value.status) then reason.value.status.value
      else DefaultStatus;
    ErrorInfo(message, Some(status), if reason.Some? then reason.value.stack else None,
      Some(ctx.href), ctx.timestamp, Some(ctx.userAgent))
  }

  /** The `error` listener: status 500, message falling back when empty. */
  function ScriptErrorInfo(message: string, stack: Option<string>, ctx: Context): (e: ErrorInfo)
    ensures e.message != "" && e.status == Some(DefaultStatus)
    ensures message != "" ==> e.message == message
    ensures message == "" ==> e.message == "JavaScript Error"
  {
    ErrorInfo(if message != "" then message else "JavaScript Error", Some(DefaultStatus), stack,
      Some(ctx.href), ctx.timestamp, Some(ctx.userAgent))
  }

  /** Whether a completed fetch is reported: a non-success status other than
      401 and 403, which are left to the sign-in flow. */
  predicate ReportsResponse(ok: bool, status: int) {
    !ok && status != 401 && status != 403
  }

  /** The error recorded for a completed fetch with a failing status. */
  function ResponseInfo(status: int, statusText: string, ctx: Context): (e: ErrorInfo)
    ensures StartsWith(e.message, "HTTP ") && e.status == Some(status)
    ensures e.message == "HTTP " + IntToString(status) + ": " + statusText && e.stack.None?
  {
    ErrorInfo("HTTP " + IntToString(status) + ": " + statusText, Some(status), None,
      Some(ctx.href), ctx.timestamp, Some(ctx.userAgent))
  }

  /** The error recorded for a fetch that threw: the thrown error's message,
      or `Network Error` when something other than an `Error` was thrown. */
  function NetworkFailureInfo(thrown: Option<(string, Option<string>)>, ctx: Context): (e: ErrorInfo)
    ensures thrown.Some? ==> e.message == thrown.value.0 && e.stack == thrown.value.1
    ensures thrown.None? ==> e.message == "Network Error" && e.stack.None?
    ensures e.status == Some(DefaultStatus)
  {
    match thrown
    case Some((message, stack)) => ErrorInfo(message, Some(DefaultStatus), stack, Some(ctx.href), ctx.timestamp, Some(ctx.userAgent))
    case None => ErrorInfo("Network Error", Some(DefaultStatus), None, Some(ctx.href), ctx.timestamp, Some(ctx.userAgent))
  }

  /** The error recorded by `handleManualError`; the status defaults to 500
      only when it is not given. */
  function ManualInfo(error: Raised, status: Option<int>, ctx: Context): (e: ErrorInfo)
    ensures error.Message? ==> e.message == error.text && e.stack.None?
    ensures error.Thrown? ==> e.message == error.errorMessage && e.stack == error.errorStack
    ensures e.status == Some(status.GetOr(DefaultStatus))
  {
    ErrorInfo(
      if error.Message? then error.text else error.errorMessage,
      Some(status.GetOr(DefaultStatus)),
      if error.Thrown? then error.errorStack else None,
      Some(ctx.href), ctx.timestamp, Some(ctx.userAgent))
  }

  /** The effect of `handleError` on the queue `q`, the guard `h` and the
      navigations `n` (primed: afterwards): dropped while the guard is up;
      otherwise queued, the guard raised, and the error page opened unless
      `pathname` already is the error page. */
  predicate Handles(
    q: seq<ErrorInfo>, h: bool, n: seq<string>, q': seq<ErrorInfo>, h': bool, n': seq<string>,
    info: ErrorInfo, pathname: string, encode: string -> string)
  {
    && h'
    && (h ==> q' == q && n' == n)
    && (!h ==> q' == q + [info])
    && (!h && pathname != ErrorPath ==> n' == n + [ErrorUrl(info, encode)])
    && (!h && pathname == ErrorPath ==> n' == n)
  }

  class Service {
    var queue: seq<ErrorInfo>
    var handling: bool
    /** The addresses navigated to, in order. */
    var navigations: seq<string>

    constructor ()
      ensures queue == [] && !handling && navigations == []
    {
      queue := [];
      handling := false;
      navigations := [];
    }

    /** `handleError`: dropped while another error is being handled;
        otherwise queued, the guard raised, and the error page opened unless
        it is already showing. */
    method HandleError(info: ErrorInfo, pathname: string, encode: string -> string)
      modifies this
      ensures Handles(old(queue), old(handling), old(navigations), queue, handling, navigations, info, pathname, encode)
    {
      if handling {
        return;
      }
      handling := true;
      queue := queue + [info];
      if pathname != ErrorPath {
        navigations := navigations + [ErrorUrl(info, encode)];
      }
    }

    /** The one-second timer set by `handleError` firing. */
    method GuardTimerFires()
      modifies this
      ensures !handling && queue == old(queue) && navigations == old(navigations)
    {
      handling := false;
    }

    /** The fetch wrapper after a response arrived. */
    method OnResponse(ok: bool, status: int, statusText: string, ctx: Context, encode: string -> string)
      modifies this
      ensures ReportsResponse(ok, status) ==>
        Handles(old(queue), old(handling), old(navigations), queue, handling, navigations,
          ResponseInfo(status, statusText, ctx), ctx.pathname, encode)
      ensures !ReportsResponse(ok, status) ==>
        queue == old(queue) && handling == old(handling) && navigations == old(navigations)
    {
      if !ok && status != 401 && status != 403 {
        HandleError(ResponseInfo(status, statusText, ctx), ctx.pathname, encode);
      }
    }

    /** The fetch wrapper after the request threw; the error is rethrown. */
    method OnNetworkFailure(thrown: Option<(string, Option<string>)>, ctx: Context, encode: string -> string)
      modifies this
      ensures Handles(old(queue), old(handling), old(navigations), queue, handling, navigations,
        NetworkFailureInfo(thrown, ctx), ctx.pathname, encode)
    {
      HandleError(NetworkFailureInfo(thrown, ctx), ctx.pathname, encode);
    }

    /** `handleManualError`. */
    method HandleManualError(error: Raised, status: Option<int>, ctx: Context, encode: string -> string)
      modifies this
      ensures Handles(old(queue), old(handling), old(navigations), queue, handling, navigations,
        ManualInfo(error, status, ctx), ctx.pathname, encode)
    {
      HandleError(ManualInfo(error, status, ctx), ctx.pathname, encode);
    }

    /** `getErrorQueue`: the errors in the order they were accepted. */
    function GetErrorQueue(): (q: seq<ErrorInfo>)
      reads this
      ensures q == queue
    {
      queue
    }

    /** `clearErrorQueue`: empties the queue and leaves the guard alone. */
    method ClearErrorQueue()
      modifies this
      ensures queue == [] && handling == old(handling) && navigations == old(navigations)
    {
      queue := [];
    }
  }

  /** Two errors in a row before the guard's timer fires: only the first is
      queued and only the first navigates. */
  method SecondErrorSuppressed(s: Service, first: ErrorInfo, second: ErrorInfo, pathname: string, encode: string -> string)
    requires !s.handling
    modifies s
    ensures s.queue == old(s.queue) + [first]
    ensures pathname != ErrorPath ==> s.navigations == old(s.navigations) + [ErrorUrl(first, encode)]
  {
    s.HandleError(first, pathname, encode);
    s.HandleError(second, pathname, encode);
  }
}
