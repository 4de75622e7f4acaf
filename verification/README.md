# TauriSEQTA login, session and request core in Dafny

This project models the part of TauriSEQTA (DesQTA) that signs a student in to
a SEQTA Learn server. It also models what the app does with the resulting
session on every request, plus a handful of front-end services that keep state.

- **Session file** (`session.dfy`, module `SessionStore`). The `Store` class
  holds the contents of `session.json`. A missing or unparsable file loads as
  the empty session. A session "exists" only when both its base URL and its
  JSESSIONID are non-empty.
- **SSO / QR login** (`sso.dfy`, module `Sso`). This covers:
  - parsing a `seqtalearn://sso/` deep link;
  - JWT decoding, with base64 padding added up to a multiple of four;
  - token expiry;
  - the five-step HTTP handshake of `perform_qr_auth`, which stops at the
    first non-success reply.
- **Login windows** (`login_window.dfy`, `desktop_login.dfy`,
  `mobile_login.dfy`):
  - URL normalisation to `https://`;
  - the welcome-page launch URL;
  - the 1920-tick cookie watcher. It picks the first live, same-site
    `JSESSIONID` and keeps the other same-site cookies. On desktop it only
    looks once the window is on the welcome page. On mobile it waits through
    a grace tick;
  - saving the harvested session;
  - the desktop dispatch between the QR flow and the interactive window.
- **Requests** (`netgrab.dfy`, module `Netgrab`). This covers:
  - the headers added to every API call: Bearer plus at most one `JSESSIONID`
    cookie for JWT sessions, the joined cookie header otherwise, and
    origin/referer;
  - clean-up of duplicate `JSESSIONID` cookies;
  - the full URL;
  - the `jwt` field added to POST bodies;
  - `JSESSIONID` rotation from `set-cookie`;
  - clearing the session.
- **RSS conversion** (`xml_json.dfy`, module `XmlJson`). This models
  `channel_to_json`: the XML-to-JSON element conversion, which groups repeated
  children into arrays, and the `feeds` array built from the channel's
  `item`s.
- **Deep-link handler** (`auth_link.dfy`, module `AuthLink`). This models the
  `desqta://auth` single-instance handler. It reads `cookie` and `url` from
  the query, where the last decodable occurrence wins, and saves only when it
  has both. The query reading itself (`query_params.dfy`, module
  `QueryParams`) is shared with the error service, which puts its own query
  together.
- **Front-end services**:
  - the TTL cache (`cache.dfy`);
  - the CSS injection service (`css_injection.dfy`). It keeps a map from id
    to `<style>` element consistent with the elements in the document head;
  - the global error service (`error_service.dfy`). Its re-entrancy guard
    suppresses a second error until the guard timer fires;
  - the Draft.js renderer and file helpers (`draft_js.dfy`, `file_info.dfy`);
  - the editor's slash-command menu (`slash_commands.dfy`).

Library code is passed in as parameters rather than modelled:

- the URL, base64, UTF-8 and JSON decoders;
- `url::Url` parsing;
- the session (de)serialiser;
- the HTTP transport;
- the percent-encoder;
- the clock.

Where a round trip is claimed, the lemma states which inverse property it
needs from those parameters (`Inverts`, `RoundTrips`).

Where the code and its documentation disagree, the model follows the code:

- A session counts as JWT-based when its token starts with `eyJ`.
- A token whose `exp` equals the current time counts as expired.
- `getFileIcon` treats `text` MIME types as documents, but `getFileColor` does
  not.
- `injectThemeCSS` gives the DOM id `theme-theme-<name>`.
- On desktop, a tick whose URL is not the welcome page does not advance the
  poll counter (the `continue` skips `counter += 1`).

## Model

| member | source | states |
|---|---|---|
| SessionStore.Store.constructor | src-tauri/src/utils/session.rs:38-53 | a store starts with the given file contents, serialiser and writability |
| SessionStore.Store.Load | src-tauri/src/utils/session.rs:38-53 | a missing or unparsable file loads as the default (empty) session; otherwise the parsed session |
| SessionStore.Store.Exists | src-tauri/src/utils/session.rs:62-65 | a session exists exactly when both base URL and JSESSIONID are non-empty |
| SessionStore.Store.Save | src-tauri/src/utils/session.rs:56-59 | saving succeeds iff the file system accepts the write; afterwards the file holds the serialised session and, with a round-tripping serialiser, loads back as it; a failed write leaves the file untouched |
| SessionStore.Store.ClearFile | src-tauri/src/utils/session.rs:68-74 | removing succeeds when there is no file or the removal is accepted; afterwards no session exists; a failed removal leaves the file |
| SessionStore.ClearFileIdempotent | src-tauri/src/utils/session.rs:68-74 | clearing twice: once the first clear succeeds, the second also succeeds and the store stays empty |
| Sso.ParseDeeplink | src-tauri/src/auth/login.rs:77-102 | the `seqtalearn://sso/` prefix is checked first; each failure of URL decoding, base64 or later stages gives its own error, in pipeline order |
| Sso.DeeplinkRoundTrip | src-tauri/src/auth/login.rs:77-102 | a payload encoded as a deep link with encoders inverse to the decoders parses back to the same payload |
| Sso.Padded | src-tauri/src/auth/login.rs:116-119 | padding extends a JWT segment with at most three `=` to a multiple of four and leaves an aligned segment unchanged |
| Sso.PadPayload | src-tauri/src/auth/login.rs:116-119 | the padding loop produces exactly the padded segment |
| Sso.MiddleSegment | src-tauri/src/auth/login.rs:108-113 | a token has a payload segment iff it contains exactly two dots; it is the dot-free middle part |
| Sso.DecodeJwt | src-tauri/src/auth/login.rs:105-132 | a token without three parts is `InvalidJwt`; after that, base64, UTF-8 and JSON decoding of the padded middle segment each give their own error exactly when that stage fails, and a token whose stages all decode gives `Ok` with its claims |
| Sso.ValidateToken | src-tauri/src/auth/login.rs:135-145 | a token is valid iff it decodes and `exp` is strictly after now; an expired token and each decode failure give their own error |
| Sso.FreshTokenValidates | src-tauri/src/auth/login.rs:105-145 | a token whose claims decode and whose `exp` is after now decodes to those claims and validates |
| Sso.AllCalls | src-tauri/src/auth/login.rs:168-270 | the handshake consists of the five requests in order, each built from the payload |
| Sso.SendFrom | src-tauri/src/auth/login.rs:168-270 | from any step, the requests sent are a contiguous run of the handshake; all but the last succeeded, and the run ends at the first failure (with that step's error) or after the fifth step |
| Sso.PerformQrAuth | src-tauri/src/auth/login.rs:148-271 | the requests sent are a prefix of the handshake ending at the first failed step, with that step's error; when all five succeed, an undecodable app-link reply is `AppLinkJsonFailed`, a bad deep link gives its parse error, and otherwise the session is the payload's server with the app link's token and no cookies |
| Sso.FirstFailureStopsHandshake | src-tauri/src/auth/login.rs:168-180 | when the first login request fails nothing else is sent and its error is returned |
| Sso.AllSucceedMakesFiveCalls | src-tauri/src/auth/login.rs:168-270 | when every step succeeds all five requests are sent |
| Sso.QrLogin | src-tauri/src/auth/login.rs:277-293 | a bad deep link or an invalid/expired token fails before any request; a parsed link with an unexpired token runs exactly the handshake for its payload; a session obtained belongs to the deep link's server and carries the token from the app-link reply |
| LoginWindow.NormaliseUrl | src-tauri/src/auth/login.rs:301-305 | the result always starts with `https://`; an `https://` URL is kept, anything else gets the prefix |
| LoginWindow.NormaliseIdempotent | src-tauri/src/auth/login.rs:301-305 | normalising twice is the same as normalising once |
| LoginWindow.LaunchUrl | src-tauri/src/auth/login.rs:314 | the launch URL is the parsed URL followed by `/` and the welcome-page fragment, and nothing else |
| LoginWindow.AuxiliaryCookies | src-tauri/src/auth/login.rs:368-391 | the extra cookies kept are exactly the non-JSESSIONID cookies whose domain the host ends with |
| LoginWindow.AuxiliaryCookiesKeepOrder | src-tauri/src/auth/login.rs:368-391 | the extra cookies are the same-site cookies converted one by one, in their original order |
| LoginWindow.FirstCandidate | src-tauri/src/auth/login.rs:356-366 | the chosen cookie is the first live same-site JSESSIONID, and none exists when none is chosen |
| LoginWindow.FindCandidate | src-tauri/src/auth/login.rs:356-366 | the cookie loop finds exactly the first candidate |
| LoginWindow.Harvest | src-tauri/src/auth/login.rs:334-406 | a tick yields a session only when the window is on the welcome page (or has no URL) and has a candidate cookie; the session carries that cookie's value and the kept extra cookies |
| LoginWindow.Watch | src-tauri/src/auth/login.rs:334-417 | the watcher's outcome is the first harvesting tick within the poll budget, honouring the grace period and the counter rule, or a timeout |
| LoginWindow.SaveSession | src-tauri/src/auth/login.rs:57-65 | saving credentials writes a session with that base URL and token and no extra cookies, iff the file accepts writes |
| LoginWindow.OpenAndWatch | src-tauri/src/auth/login.rs:296-421 | an unparsable URL, an unparsable launch URL and a failed window build each give their own error; otherwise the watcher runs and a found session is saved |
| DesktopLogin.CreateLoginWindow | src-tauri/src/auth/login.rs:275-421 | a QR deep link runs the handshake and saves its session (or returns its error); any other URL opens the window and watches it, inspecting the window only once the poll counter has passed five; the file changes only when a session is found and saved |
| DesktopLogin.Logout | src-tauri/src/auth/login.rs:68-74 | logging out leaves no session file exactly when the removal succeeds |
| MobileLogin.CreateLoginWindow | src-tauri/src/mobilechanges/login.rs:42-175 | the mobile window opens iff both URLs parse and the window builds; the watcher skips the first tick, so a session is never found on tick 0, and a found session is saved |
| Netgrab.WithoutSessionCookies | src-tauri/src/utils/netgrab.rs:87-92 | the retained cookies are exactly the non-JSESSIONID ones |
| Netgrab.WithoutSessionCookiesKeepsOrder | src-tauri/src/utils/netgrab.rs:87-92 | retaining keeps the original order |
| Netgrab.CleanedUp | src-tauri/src/utils/netgrab.rs:76-92 | a JWT session with more than one JSESSIONID cookie loses all of them; any other session is unchanged; afterwards at most one remains |
| Netgrab.DefaultHeaders | src-tauri/src/utils/netgrab.rs:71-157 | JWT sessions get a Bearer header, plus a cookie header iff exactly one JSESSIONID cookie exists; other sessions get the `; `-joined cookie parts, present iff there is any cookie; origin and referer are the base URL when it is non-empty |
| Netgrab.CookieHeaderStartsWithToken | src-tauri/src/utils/netgrab.rs:129-134 | for a cookie session the header begins with its own JSESSIONID |
| Netgrab.SessionCookieHeaderParts | src-tauri/src/utils/netgrab.rs:102-107 | the loop produces `JSESSIONID=<v>` for each JSESSIONID cookie, in order |
| Netgrab.CookieHeaderParts | src-tauri/src/utils/netgrab.rs:129-139 | the loop produces the JSESSIONID part first (when set) and then every additional cookie |
| Netgrab.AppendDefaultHeaders | src-tauri/src/utils/netgrab.rs:71-157 | the headers are those of the cleaned-up session; the cleaned session is written back only when a clean-up happened |
| Netgrab.FullUrl | src-tauri/src/utils/netgrab.rs:172-176 | an `http` URL is used as is; otherwise the base URL is prefixed |
| Netgrab.PostBody | src-tauri/src/utils/netgrab.rs:198-209 | a missing body becomes `{}`; for JWT sessions an object body gains `jwt` with the token and keeps every other field; non-objects are untouched |
| Netgrab.RotatedValue | src-tauri/src/utils/netgrab.rs:214-245 | the rotated value is the text between the first `JSESSIONID=` and the next `;`; none when either is missing |
| Netgrab.RotatedValueRoundTrip | src-tauri/src/utils/netgrab.rs:214-245 | a `set-cookie` header built from a value and a `;` yields that value back |
| Netgrab.Rotated | src-tauri/src/utils/netgrab.rs:229-239 | rotation drops every JSESSIONID cookie and appends the new one |
| Netgrab.RotationFeedsNextRequest | src-tauri/src/utils/netgrab.rs:76-121 | after rotation a JWT session needs no clean-up and its next request sends exactly the rotated cookie |
| Netgrab.RotationOf | src-tauri/src/utils/netgrab.rs:214-245 | only JWT sessions rotate |
| Netgrab.FetchApiData | src-tauri/src/utils/netgrab.rs:160-268 | the request has the full URL, the verb, the default headers of the cleaned session and, for POST, the JWT-augmented body; transport failure is an error; the session file ends rotated, cleaned or unchanged |
| Netgrab.ClearSession | src-tauri/src/utils/netgrab.rs:489-495 | after the logout call the session file is removed iff removal succeeds, whatever the reply |
| XmlJson.XmlToJson | src-tauri/src/utils/netgrab.rs:363-400 | a text-only leaf becomes a string; any other element becomes an object with its text under `text`, and with an `@attributes` entry whenever it has attributes |
| XmlJson.AttributesKept | src-tauri/src/utils/netgrab.rs:376-399 | the `@attributes` entry holds the element's attributes, also when the element has text; only a child element named `@attributes` would be grouped with it |
| XmlJson.GroupCollects | src-tauri/src/utils/netgrab.rs:380-393 | folding the children stores, under each name, the grouping of all child values with that name: one value alone, several as an array |
| XmlJson.ChildrenGroupedByName | src-tauri/src/utils/netgrab.rs:363-400 | in the converted object each child name maps to the grouping of that name's children |
| XmlJson.ChannelJson | src-tauri/src/utils/netgrab.rs:402-434 | an object root gains `feeds`: the converted `item` children of `channel`, or empty without a channel; other fields are unchanged |
| QueryParams.Query | src-tauri/src/lib.rs:48 | the query is the text after the first `?` up to the next `?`; none without a `?` |
| QueryParams.ValueFor | src-tauri/src/lib.rs:52-70 | a parameter `key=v` supplies exactly the decoding of `v`; one without `=`, or naming another key, supplies nothing |
| QueryParams.LatestNoneIffNoneSupplied | src-tauri/src/lib.rs:50-77 | a key stays unset iff no parameter supplies a decodable value |
| QueryParams.LastSupplier | src-tauri/src/lib.rs:50-77 | the final value is supplied by a parameter after which none supplies one |
| QueryParams.LatestSuppliedWins | src-tauri/src/lib.rs:50-77 | when a key is set, the last supplying parameter wins |
| AuthLink.ReadParams | src-tauri/src/lib.rs:50-77 | the parameter loop leaves cookie and url at their latest supplied values |
| AuthLink.HandleAuthLink | src-tauri/src/lib.rs:40-97 | only `desqta://auth` links are handled; the session is saved iff both cookie and url were found, and the file changes only on a successful save |
| TtlCache.Cache.constructor | src/utils/cache.ts:6-21 | a new cache is empty with the 5-minute default |
| TtlCache.Cache.Lookup | src/utils/cache.ts:48-58 | a key is found iff present and not past its expiry; the result is the stored data |
| TtlCache.Cache.Set | src/utils/cache.ts:36-41 | the entry expires `ttl` minutes from now; it is found until then and absent afterwards; other keys are unaffected |
| TtlCache.Cache.Get | src/utils/cache.ts:48-58 | returns the live data; an expired entry is removed and nothing else changes |
| TtlCache.Cache.Has | src/utils/cache.ts:80-90 | true iff the key is live; an expired entry is removed |
| TtlCache.Cache.Clear | src/utils/cache.ts:63-65 | afterwards nothing is found |
| TtlCache.Cache.Delete | src/utils/cache.ts:71-73 | the key is never found afterwards; other keys are unaffected |
| TtlCache.Cache.SetDefaultTtl | src/utils/cache.ts:96-98 | only the default TTL changes |
| TtlCache.SetThenGet | src/utils/cache.ts:36-58 | a value read back at or before its expiry is the stored one; after expiry it is gone and removed |
| CssInjection.Detach | src/lib/services/cssInjectionService.ts:16-22 | removing an element keeps exactly the other head elements |
| CssInjection.AppendKeepsConsistent | src/lib/services/cssInjectionService.ts:4-14 | appending a fresh style element keeps the id map and the head consistent |
| CssInjection.RemoveKeepsConsistent | src/lib/services/cssInjectionService.ts:16-22 | removing an id's element keeps the id map and the head consistent |
| CssInjection.CssInjectionService.constructor | src/lib/services/cssInjectionService.ts:1-3 | the service starts with no styles |
| CssInjection.CssInjectionService.RemoveCss | src/lib/services/cssInjectionService.ts:16-22 | the id is forgotten and its element leaves the head; a missing id changes nothing |
| CssInjection.CssInjectionService.InjectCss | src/lib/services/cssInjectionService.ts:4-14 | any previous style for the id is removed, and the new element is appended last with DOM id `theme-<id>`; the id then reads back the new CSS |
| CssInjection.CssInjectionService.InjectThemeCss | src/lib/services/cssInjectionService.ts:24-26 | a theme is stored under `theme-<name>` with DOM id `theme-theme-<name>`; its element replaces any earlier one and is appended last to the head, and the theme reads back its CSS |
| CssInjection.CssInjectionService.InjectCustomCss | src/lib/services/cssInjectionService.ts:28-30 | user CSS is stored under `user-custom`; its element replaces any earlier one and is appended last to the head, and it reads back the CSS |
| CssInjection.CssInjectionService.RemoveAllCss | src/lib/services/cssInjectionService.ts:32-37 | afterwards no styles remain, in the map or the head |
| CssInjection.CssInjectionService.GetInjectedCss | src/lib/services/cssInjectionService.ts:39-42 | the CSS of an injected id, none otherwise |
| CssInjection.CssInjectionService.HasInjectedCss | src/lib/services/cssInjectionService.ts:44-46 | true iff the id has injected CSS |
| ErrorService.StatusText | src/lib/services/errorService.ts:126 | the status renders without `&` or `?`, and a missing status as `undefined` |
| ErrorService.ErrorUrl | src/lib/services/errorService.ts:126 | the navigation target is `/error?status=...` |
| ErrorService.ErrorUrlReadsBack | src/lib/services/errorService.ts:126 | with an encoder whose output the decoder inverts, the error page reads back the same status and message |
| ErrorService.RejectionInfo | src/lib/services/errorService.ts:24-33 | a falsy reason message becomes `Unhandled Promise Rejection`, and a falsy status becomes 500 |
| ErrorService.ScriptErrorInfo | src/lib/services/errorService.ts:36-45 | an empty message becomes `JavaScript Error`; the status is 500 |
| ErrorService.ResponseInfo | src/lib/services/errorService.ts:58-66 | a failed response is reported as `HTTP <status>: <statusText>` with its status and no stack |
| ErrorService.NetworkFailureInfo | src/lib/services/errorService.ts:74-83 | a thrown Error keeps its message and stack; anything else is `Network Error`; the status is 500 |
| ErrorService.ManualInfo | src/lib/services/errorService.ts:130-139 | a string is its own message, an Error gives message and stack; the status defaults to 500 |
| ErrorService.Service.constructor | src/lib/services/errorService.ts:14-20 | the queue starts empty and no error is being handled |
| ErrorService.Service.HandleError | src/lib/services/errorService.ts:90-127 | while an error is being handled, a new one is dropped; otherwise it is queued, the guard is set, and the app navigates to the error page unless already on `/error` |
| ErrorService.Service.GuardTimerFires | src/lib/services/errorService.ts:109-111 | the timer only clears the guard |
| ErrorService.Service.OnResponse | src/lib/services/errorService.ts:51-73 | non-ok responses other than 401/403 go through the error handler (queue, guard, navigation); any other response changes nothing |
| ErrorService.Service.OnNetworkFailure | src/lib/services/errorService.ts:74-86 | a failed fetch goes through the error handler: queued and navigated to unless an error is already being handled, and the guard is up afterwards |
| ErrorService.Service.HandleManualError | src/lib/services/errorService.ts:130-141 | a manual error goes through the error handler: queued and navigated to unless an error is already being handled, and the guard is up afterwards |
| ErrorService.Service.GetErrorQueue | src/lib/services/errorService.ts:144-146 | the queue as recorded |
| ErrorService.Service.ClearErrorQueue | src/lib/services/errorService.ts:149-151 | only the queue is emptied |
| ErrorService.SecondErrorSuppressed | src/lib/services/errorService.ts:90-112 | of two errors in a row only the first is queued and navigated to |
| DraftJs.Substring | src/routes/courses/utils.ts:28-30 | JavaScript `substring` takes the clamped slice |
| DraftJs.LinkTarget | src/routes/courses/utils.ts:31 | a non-empty `href` wins; otherwise the `url`, or `undefined` when there is none |
| DraftJs.Wrap | src/routes/courses/utils.ts:28-31 | wrapping a range keeps the text before and after it and puts the opening and closing tags around it |
| DraftJs.LinkKeepsEarlierText | src/routes/courses/utils.ts:22-33 | applying a link leaves all text before its offset unchanged, which is why ranges are applied from the end |
| DraftJs.LinkEntity | src/routes/courses/utils.ts:26-27 | a range is linked iff its key names a `LINK` entity |
| DraftJs.ApplyLinks | src/routes/courses/utils.ts:25-33 | the range loop applies every link range in order |
| DraftJs.NoLinksKeepText | src/routes/courses/utils.ts:21-34 | ranges none of which is a link leave the text unchanged |
| DraftJs.Insert | src/routes/courses/utils.ts:23 | inserting into a range list sorted by descending offset keeps it sorted, adding only the new range |
| DraftJs.InsertAddsOne | src/routes/courses/utils.ts:23 | insertion adds exactly one occurrence of the new range |
| DraftJs.SortDesc | src/routes/courses/utils.ts:23 | the ranges come out sorted by descending offset, as a permutation of the input |
| DraftJs.InsertIsStable | src/routes/courses/utils.ts:23 | insertion puts a range after existing ranges with the same offset |
| DraftJs.SortIsStable | src/routes/courses/utils.ts:23 | the sort is stable: ranges with equal offsets keep their original order |
| DraftJs.WrapBlock | src/routes/courses/utils.ts:37-46 | the three header types get their heading tags; every other type is a paragraph |
| DraftJs.PlainBlockKeepsText | src/routes/courses/utils.ts:17-46 | a block without link ranges renders as its own text inside the element its type selects |
| DraftJs.ConcatMapAppend | src/routes/courses/utils.ts:16-48 | mapping and joining distributes over concatenation of block lists |
| DraftJs.RenderDraftJsText | src/routes/courses/utils.ts:15-49 | no blocks render as the empty string; a single block renders as that block |
| DraftJs.RenderConcatenates | src/routes/courses/utils.ts:15-49 | the rendering of two block lists is the concatenation of their renderings |
| FileInfo.GetFileIcon | src/routes/courses/utils.ts:51-61 | the first keyword that matches, in the order pdf, image, video, audio, text/word, excel/spreadsheet, powerpoint/presentation, decides the icon; the fallback icon is used iff none matches |
| FileInfo.GetFileColor | src/routes/courses/utils.ts:63-72 | the first keyword that matches, in the order pdf, image, video, audio, word, excel/spreadsheet, powerpoint/presentation, decides the colour; the fallback colour is used iff none matches (`text` is not a keyword here) |
| FileInfo.IconAndColorFallbacks | src/routes/courses/utils.ts:51-72 | a type with the fallback icon also gets the fallback colour; the only types where they differ get the document icon because they contain `text` |
| FileInfo.ParseInt | src/routes/courses/utils.ts:75-76 | `parseInt` fails iff, after JavaScript white space (not NEL), sign and hex prefix, no digit follows |
| FileInfo.ParseIntReadsDecimal | src/routes/courses/utils.ts:75-76 | `parseInt` reads back any natural number written in decimal |
| FileInfo.ParseIntReadsLeadingDecimal | src/routes/courses/utils.ts:75-76 | a decimal number followed by text that is not a digit (such as `12 KB`) reads as that number, and with a leading `-` as its negation; only `0` followed by `x` switches to hexadecimal |
| FileInfo.ParseIntSkipsSpace | src/routes/courses/utils.ts:75-76 | JavaScript white space before the number does not change what `parseInt` returns |
| FileInfo.NextLineIsNotSkipped | src/routes/courses/utils.ts:75-76 | a size preceded by NEL (U+0085) does not parse, because NEL is not JavaScript white space |
| FileInfo.ScaleBytes | src/routes/courses/utils.ts:78-85 | the loop divides by 1024 until below 1024 or at GB, so value × 1024^unit equals the byte count |
| FileInfo.FormatFileSize | src/routes/courses/utils.ts:74-88 | an unparsable size is returned as is; otherwise the size is scaled |
| SlashCommands.Items | src/components/Editor/Plugins/Commands/suggestion.ts:4-63 | at most ten commands, each one whose lower-cased title starts with the lower-cased query |
| SlashCommands.ItemsComplete | src/components/Editor/Plugins/Commands/suggestion.ts:61-62 | every matching command is offered |
| SlashCommands.ItemsKeepOrder | src/components/Editor/Plugins/Commands/suggestion.ts:61-62 | the offered commands keep their menu order |
| SlashCommands.EmptyQueryOffersAll | src/components/Editor/Plugins/Commands/suggestion.ts:5-62 | an empty query offers the whole menu |

## Left out

- `unwrap()` panics are not modelled: header values, `base_url.parse()` and `Url` parsing are treated as total.
- The `reqwest` client, its cookie store and its proxy settings are not modelled. The HTTP transport is a parameter: a function from handshake step to reply, or an `ApiReply`.
- FetchApiData: caller-supplied extra headers, query parameters, the base64 image mode and the `return_url` mode are not modelled. The result is always the response text.
- `get_api_data`, `get_seqta_file`, `upload_seqta_file` and `post_api_data` are not modelled. They are thin wrappers around `fetch_api_data`.
- `get_rss_feed` is not modelled. It does HTTP, and RSS parsing, XML parsing and serialisation happen in libraries. XML arrives as an already parsed element tree.
- `open_url` is not modelled. It only builds a window.
- Tauri window plumbing is not modelled: titles and sizes, closing windows, `emit`, `force_reload` and the WebView's own navigation.
- The watcher thread and its `sleep` are not modelled. It is run synchronously over a sequence of observed ticks, and there is no concurrency.
- The non-desktop branch of `create_login_window` in `src-tauri/src/auth/login.rs` (lines 423-455) is not modelled. It stands in for the mobile module, which is modelled on its own.
- Mobile `logout` is not modelled. It calls a `Session::clear` that `src-tauri/src/utils/session.rs` does not define.
- `formatFileSize` rendering with `toFixed(1)` is not modelled, because it is floating-point formatting. The scaled value is an exact real.
- Sso.Padded: it counts characters, while the padding loop counts UTF-8 bytes. The two differ only for a segment with non-ASCII characters, which base64 decoding rejects either way.
- FileInfo.ParseInt: precision loss above 2^53 is not modelled.
- TtlCache.Cache.Set: the TTL is a whole number of minutes. `set` also accepts fractional minutes (half a minute is 30 000 ms); the callers in `src/lib/services/weatherService.ts` and `src/lib/services/authService.ts` pass whole minutes.
- Lower-casing in the slash-command filter covers ASCII letters only.
- Draft.js offsets count characters rather than UTF-16 code units.
- Browser-side effects are not modelled: DOM insertion, `goto`, `console` and `setTimeout`. The reset of the error guard after one second is an explicit step, `ErrorService.Service.GuardTimerFires`.
- `reportError` in the error service is not modelled. It only logs.
- These front-end pieces are not modelled: `sanitizeHtml`, link previews, `isValidUrl`, date formatting, and the `render` hooks of `suggestion.ts`.
- The editor commands' `command` callbacks are not modelled. They are represented by the `Action` they perform.
- The `getInstance` singletons of the cache and the error service are not modelled. Each is a single class instance passed explicitly.
- Time stamps, `userAgent` and page URLs in error records are not modelled. They are taken from a `Context` parameter.
- DraftJs.ApplyLink: it has no contract of its own; its meaning is stated by `DraftJs.Wrap` and `DraftJs.LinkKeepsEarlierText`.
