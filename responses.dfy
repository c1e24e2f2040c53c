/** The response side (`UnifiedResponseProcessor`): static assets, status
    classification, JavaScript detection, the status records of a tracking
    response, and the monitoring of `Set-Cookie` headers. */
module Responses {
  import opened Wrappers
  import opened Strings
  import opened Dicts
  import opened HandlerHelpers
  import opened Extraction
  import opened Records
  import opened Builder

  /** What the proxy hook hands over about one response. Header names are
      lower-case; `setCookies` is every `Set-Cookie` header in order;
      `responseTime` is the rendered round-trip time, or empty when the
      timestamps are missing. */
  datatype Response = Response(
    statusCode: int,
    headers: Dict<string>,
    setCookies: seq<string>,
    contentLength: nat,
    responseTime: string)

  // ---------------------------------------------------------------------
  // `_is_static_asset`

  const StaticExtensions: seq<string> := [
    ".js", ".html", ".css", ".js.map", ".css.map", ".png", ".jpg", ".jpeg",
    ".gif", ".svg", ".ico", ".woff", ".woff2", ".ttf", ".eot"
  ]

  /** The lower-cased path ends with a static-file extension. */
  predicate IsStaticAsset(path: string) {
    exists k | 0 <= k < |StaticExtensions| :: EndsWith(Lower(path), StaticExtensions[k])
  }

  /** Every path ending in ".js" is a static asset, so the ".js" test of
      `_is_javascript_content` never decides anything for a response that
      reaches it. */
  lemma JsSuffixIsStatic(path: string)
    requires EndsWith(path, ".js")
    ensures IsStaticAsset(path)
  {
    var low := Lower(path);
    var n := |path|;
    assert path[n - 3..] == ".js";
    assert path[n - 3] == '.' && path[n - 2] == 'j' && path[n - 1] == 's';
    assert low[n - 3..] == [low[n - 3], low[n - 2], low[n - 1]];
    assert EndsWith(low, StaticExtensions[0]);
  }

  // ---------------------------------------------------------------------
  // Status classification

  const SuccessStatusCodes: set<int> := {200, 204, 302}

  predicate IsSuccessStatus(code: int) {
    code in SuccessStatusCodes
  }

  predicate IsErrorStatus(code: int) {
    code >= 400
  }

  // ---------------------------------------------------------------------
  // `_is_javascript_content`

  const JsContentTypes: set<string> := {
    "javascript", "application/js", "text/js", "application/javascript",
    "text/javascript", "application/x-javascript", "text/x-javascript"
  }

  const JsPathPatterns: seq<string> := ["/gtm.js", "/gtag/js", "/analytics.js", "/ga.js", "/bat.js", "/uet.js"]

  /** The lower-cased media type without its parameters, stripped. */
  function MainType(contentType: string): string {
    var low := Lower(contentType);
    if ';' in low then Strip(Split(low, ";")[0]) else Strip(low)
  }

  /** Without a ";" the whole lower-cased type is its first ";"-piece, so
      both branches take the first piece. */
  lemma MainTypeIsFirstPiece(contentType: string)
    ensures MainType(contentType) == Strip(Split(Lower(contentType), ";")[0])
  {
    var low := Lower(contentType);
    if ';' !in low {
      ContainsChar(low, ';');
      SplitNoSep(low, ";");
    }
  }

  /** A JavaScript media type, a ".js" path, or a known script path. */
  predicate IsJavascriptContent(contentType: string, path: string) {
    MainType(contentType) in JsContentTypes || EndsWith(path, ".js") || AnyIn(path, JsPathPatterns)
  }

  /** For a path that is not a static asset only the media type and the
      script-path patterns count. */
  lemma JavascriptOutsideStatic(contentType: string, path: string)
    requires !IsStaticAsset(path)
    ensures IsJavascriptContent(contentType, path) <==> MainType(contentType) in JsContentTypes || AnyIn(path, JsPathPatterns)
  {
    if EndsWith(path, ".js") {
      JsSuffixIsStatic(path);
    }
  }

  // ---------------------------------------------------------------------
  // `_build_response_info`

  /** `_extract_request_type`. */
  function RequestType(httpMethod: string): (r: string)
    ensures httpMethod in {"GET", "POST", "HEAD"} ==> r == httpMethod
    ensures httpMethod !in {"GET", "POST", "HEAD"} ==> r == "UNKNOWN"
  {
    if httpMethod == "GET" then "GET"
    else if httpMethod == "POST" then "POST"
    else if httpMethod == "HEAD" then "HEAD"
    else "UNKNOWN"
  }

  /** `_get_response_size`. */
  function ResponseSize(contentLength: nat): (r: string)
    ensures r == NatToString(contentLength) + " bytes"
  {
    if contentLength > 0 then NatToString(contentLength) + " bytes" else "0 bytes"
  }

  /** A header value, when present and non-empty. */
  function NonEmptyHeader(headers: Dict<string>, name: string): (r: Option<string>)
    ensures r.Some? ==> r.value != "" && Some(r.value) == Get(headers, name)
    ensures r.None? ==> GetOr(headers, name, "") == ""
  {
    match Get(headers, name)
    case Some(v) => if v != "" then Some(v) else None
    case None => None
  }

  /** `_build_response_info`; the ETag is cut to 20 characters and "...". */
  function BuildResponseInfo(req: Request, resp: Response, isJs: bool): (r: ResponseInfo)
    ensures r.responseType == (if isJs then "JavaScript" else "Data")
    ensures r.statusCode == resp.statusCode
    ensures r.responseTime.Some? <==> resp.responseTime != ""
    ensures r.etag.Some? ==> |r.etag.value| <= 23
  {
    ResponseInfo(
      if isJs then "JavaScript" else "Data",
      GetOr(resp.headers, "content-type", ""),
      resp.statusCode,
      ResponseSize(resp.contentLength),
      RequestType(req.httpMethod),
      if resp.responseTime != "" then Some(resp.responseTime) else None,
      NonEmptyHeader(resp.headers, "cache-control"),
      match NonEmptyHeader(resp.headers, "etag")
      case Some(etag) => Some(Truncate(etag, 20))
      case None => None)
  }

  // ---------------------------------------------------------------------
  // `_handle_tracking_response`

  /** The status record of a tracking response: a failure warning for an
      error status, a status update for a success status, nothing otherwise.
      The hash is the one the request side computes for the same request. */
  function TrackingResponse(req: Request, resp: Response, platform: string, isJs: bool, digest: string -> string): (r: seq<LogRecord>)
    ensures |r| <= 1
    ensures |r| == 1 <==> IsErrorStatus(resp.statusCode) || IsSuccessStatus(resp.statusCode)
    ensures IsErrorStatus(resp.statusCode) ==>
              r[0].logType == "warning" && r[0].event == "tracking_request_failed" &&
              r[0].data == RequestFailed(platform, resp.statusCode, req.url, req.httpMethod,
                                         "Tracking request failed with HTTP " + IntToString(resp.statusCode),
                                         RequestHash(digest, req.url, req.body, req.httpMethod)) &&
              r[0].metadata == ResponseMeta(req.path, req.url, resp.headers, None)
    ensures IsSuccessStatus(resp.statusCode) ==>
              r[0].logType == "request_status_update" &&
              r[0].event == (if isJs then "javascript_endpoint_detected" else "status_received") &&
              r[0].data.StatusUpdate? &&
              r[0].data.requestHash == RequestHash(digest, req.url, req.body, req.httpMethod) &&
              (r[0].data.jsDescription.Some? <==> isJs) &&
              r[0].metadata == ResponseMeta(req.path, req.url, resp.headers, Some(r[0].data.info))
  {
    var hash := RequestHash(digest, req.url, req.body, req.httpMethod);
    var info := BuildResponseInfo(req, resp, isJs);
    if IsErrorStatus(resp.statusCode) then
      [LogRecord("warning", "tracking_request_failed",
                 RequestFailed(platform, resp.statusCode, req.url, req.httpMethod,
                               "Tracking request failed with HTTP " + IntToString(resp.statusCode), hash),
                 ResponseMeta(req.path, req.url, resp.headers, None))]
    else if IsSuccessStatus(resp.statusCode) then
      [LogRecord("request_status_update", if isJs then "javascript_endpoint_detected" else "status_received",
                 StatusUpdate(req.url, platform, resp.statusCode, req.httpMethod, hash, info,
                              if isJs then Some(platform + " JavaScript Library") else None),
                 ResponseMeta(req.path, req.url, resp.headers, Some(info)))]
    else []
  }

  // ---------------------------------------------------------------------
  // Relevant domains

  const TrackingWords: seq<string> := ["google", "facebook", "analytics", "doubleclick", "googlesyndication"]

  /** `_is_tracking_domain`. */
  predicate IsTrackingDomain(allHosts: set<string>, host: string) {
    host in allHosts || AnyIn(host, TrackingWords)
  }

  /** `_is_target_domain`, given the network location of `TARGET_DOMAIN`
      (None when it is unset or empty). */
  predicate IsTargetDomain(targetHost: Option<string>, host: string) {
    match targetHost
    case None => false
    case Some(t) => host == t || EndsWith(host, "." + t)
  }

  predicate IsRelevantDomain(allHosts: set<string>, targetHost: Option<string>, host: string) {
    IsTrackingDomain(allHosts, host) || IsTargetDomain(targetHost, host)
  }

  // ---------------------------------------------------------------------
  // Cookie names and attributes

  /** The name of the cookie a `Set-Cookie` header sets: its first
      ";"-piece, stripped, up to the first "=". */
  function CookieName(header: string): (r: string)
    ensures '=' !in r && ';' !in r
  {
    var first := Split(header, ";")[0];
    var nameValue := Strip(first);
    SplitPiecesFree(header, ";", 0);
    ContainsChar(first, ';');
    assert ';' !in nameValue by {
      if ';' in nameValue {
        StripInside(first, ';');
      }
    }
    if '=' in nameValue then
      SplitPiecesFree(nameValue, "=", 0);
      ContainsChar(Before(nameValue, "="), '=');
      assert ';' !in Before(nameValue, "=") by {
        if ';' in Before(nameValue, "=") {
          BeforeInside(nameValue, "=", ';');
        }
      }
      Before(nameValue, "=")
    else nameValue
  }

  /** A character of a stripped string is a character of the string. */
  lemma StripInside(s: string, c: char)
    requires c in Strip(s)
    ensures c in s
  {
    var l := LStrip(s);
    var i :| 0 <= i < |Strip(s)| && Strip(s)[i] == c;
    assert Strip(s)[i] == l[i];
    assert l[i] == s[|s| - |l| + i];
  }

  /** A character of the first piece of a split is a character of the string. */
  lemma BeforeInside(s: string, sep: string, c: char)
    requires |sep| > 0 && c in Before(s, sep)
    ensures c in s
  {
    if Contains(s, sep) {
      BeforeAfter(s, sep);
      assert s == Before(s, sep) + (sep + After(s, sep));
    } else {
      SplitNoSep(s, sep);
    }
  }

  /** The names of all headers, in order. */
  function CookieNames(headers: seq<string>): (r: seq<string>)
    ensures |r| == |headers|
    ensures forall i | 0 <= i < |r| :: r[i] == CookieName(headers[i])
  {
    seq(|headers|, i requires 0 <= i < |headers| => CookieName(headers[i]))
  }

  /** `_extract_cookie_names`: one name per header. */
  method ExtractCookieNames(headers: seq<string>) returns (names: seq<string>)
    ensures names == CookieNames(headers)
  {
    names := [];
    for i := 0 to |headers|
      invariant |names| == i
      invariant forall k | 0 <= k < i :: names[k] == CookieName(headers[k])
    {
      names := names + [CookieName(headers[i])];
    }
  }

  /** The value a header assigns: the text after the first "=" of its first
      ";"-piece, or empty. */
  function CookieValue(header: string): (r: string)
    ensures '=' !in header ==> r == ""
    ensures ';' !in r
  {
    if header != "" && '=' in header then
      var part := Split(header, ";")[0];
      SplitPiecesFree(header, ";", 0);
      ContainsChar(part, ';');
      if '=' in part then
        ContainsChar(part, '=');
        BeforeAfter(part, "=");
        assert ';' !in After(part, "=") by {
          assert part == Before(part, "=") + "=" + After(part, "=");
          assert part == (Before(part, "=") + "=") + After(part, "=");
        }
        After(part, "=")
      else ""
    else ""
  }

  /** A header `name=value; attributes` names its cookie `name` when the
      name is unpadded and the value has no trailing blank. */
  lemma CookieNameOf(n: string, v: string, attrs: string)
    requires |n| > 0 && !IsSpace(n[0]) && '=' !in n && ';' !in n
    requires ';' !in v && (|v| == 0 || !IsSpace(v[|v| - 1]))
    ensures CookieName(n + "=" + v + ";" + attrs) == n
  {
    var nv := n + "=" + v;
    assert n + "=" + v + ";" + attrs == nv + [';'] + attrs;
    SplitAfterFree(nv, attrs, ';');
    StripUnpadded(nv);
    assert '=' in nv by { assert nv[|n|] == '='; }
    assert nv == n + ['='] + v;
    SplitAfterFree(n, v, '=');
  }

  /** ... and the value it assigns is `value`, whatever it holds besides
      ";", since only the first "=" cuts. */
  lemma CookieValueOf(n: string, v: string, attrs: string)
    requires '=' !in n && ';' !in n && ';' !in v
    ensures CookieValue(n + "=" + v + ";" + attrs) == v
  {
    var nv := n + "=" + v;
    var header := n + "=" + v + ";" + attrs;
    assert header == nv + [';'] + attrs;
    assert '=' in header by { assert header[|n|] == '='; }
    SplitAfterFree(nv, attrs, ';');
    assert '=' in nv by { assert nv[|n|] == '='; }
    assert nv == n + ['='] + v;
    AfterFirst(n, v, '=');
  }

  /** A ";"-piece that, stripped and lower-cased, starts with `prefix`. */
  predicate IsAttribute(part: string, prefix: string) {
    StartsWith(Lower(Strip(part)), prefix)
  }

  /** The first element, from `i` on, that satisfies `p`. */
  function FirstWhere<T>(xs: seq<T>, p: T -> bool, i: nat): (r: Option<nat>)
    ensures r.Some? ==> i <= r.value < |xs| && p(xs[r.value])
    ensures r.Some? ==> forall k | i <= k < r.value :: !p(xs[k])
    ensures r.None? ==> forall k | i <= k < |xs| :: !p(xs[k])
    decreases |xs| - i
  {
    if i >= |xs| then None
    else if p(xs[i]) then Some(i)
    else FirstWhere(xs, p, i + 1)
  }

  /** The first ";"-piece, from `i` on, that is the attribute `prefix`. */
  function FirstAttribute(parts: seq<string>, prefix: string, i: nat): (r: Option<nat>)
    ensures r.Some? ==> i <= r.value < |parts| && IsAttribute(parts[r.value], prefix)
    ensures r.Some? ==> forall k | i <= k < r.value :: !IsAttribute(parts[k], prefix)
    ensures r.None? ==> forall k | i <= k < |parts| :: !IsAttribute(parts[k], prefix)
  {
    FirstWhere(parts, part => IsAttribute(part, prefix), i)
  }

  /** `_extract_same_site`: the value of the first `SameSite=` attribute,
      lower-cased then title-cased, or "None". */
  function SameSite(header: string): (r: string)
    ensures header == "" ==> r == "None"
    ensures FirstAttribute(Split(header, ";"), "samesite=", 0).None? ==> r == "None"
    ensures header != "" && FirstAttribute(Split(header, ";"), "samesite=", 0).Some? ==>
              r == Title(After(Lower(Strip(Split(header, ";")[FirstAttribute(Split(header, ";"), "samesite=", 0).value])), "="))
  {
    if header == "" then "None"
    else
      var parts := Split(header, ";");
      match FirstAttribute(parts, "samesite=", 0)
      case Some(i) => Title(After(Lower(Strip(parts[i])), "="))
      case None => "None"
  }

  /** The value of the first attribute named by `prefix` (case-insensitive),
      in its own case, or empty: `_extract_expires` and `_extract_max_age`. */
  function AttributeValue(header: string, prefix: string): (r: string)
    ensures header == "" || FirstAttribute(Split(header, ";"), prefix, 0).None? ==> r == ""
    ensures header != "" && FirstAttribute(Split(header, ";"), prefix, 0).Some? ==>
              r == After(Strip(Split(header, ";")[FirstAttribute(Split(header, ";"), prefix, 0).value]), "=")
  {
    if header == "" then ""
    else
      var parts := Split(header, ";");
      match FirstAttribute(parts, prefix, 0)
      case Some(i) => After(Strip(parts[i]), "=")
      case None => ""
  }

  function Expires(header: string): string {
    AttributeValue(header, "expires=")
  }

  function MaxAge(header: string): string {
    AttributeValue(header, "max-age=")
  }

  /** The cookie-setting details of one header. `HttpOnly` and `Secure` are
      case-sensitive substrings of the whole header. */
  function CookieDetailOf(name: string, header: string, host: string, path: string): (r: CookieDetail)
    ensures r.accessible == !r.httpOnly
    ensures r.httpOnly <==> Contains(header, "HttpOnly")
    ensures r.secure <==> Contains(header, "Secure")
  {
    CookieDetail(name, CookieValue(header), host, path,
                 !Contains(header, "HttpOnly"), Contains(header, "HttpOnly"), Contains(header, "Secure"),
                 SameSite(header), Expires(header), MaxAge(header))
  }

  /** The details of every name, each paired with the header at its index
      (or an empty header past the end). */
  function DetailedCookies(names: seq<string>, headers: seq<string>, host: string, path: string): (r: seq<CookieDetail>)
    ensures |r| == |names|
    ensures forall i | 0 <= i < |r| :: r[i].name == names[i]
  {
    seq(|names|, i requires 0 <= i < |names| => CookieDetailOf(names[i], if i < |headers| then headers[i] else "", host, path))
  }

  /** The loop of `_log_cookie_setting` that builds `detailed_cookies`. */
  method BuildDetailedCookies(names: seq<string>, headers: seq<string>, host: string, path: string) returns (details: seq<CookieDetail>)
    ensures details == DetailedCookies(names, headers, host, path)
  {
    details := [];
    for i := 0 to |names|
      invariant details == DetailedCookies(names[..i], headers, host, path)
    {
      var header := if i < |headers| then headers[i] else "";
      details := details + [CookieDetailOf(names[i], header, host, path)];
    }
    assert names[..|names|] == names;
  }

  /** How many flags are set. */
  function CountSet(flags: seq<bool>): (r: nat)
    ensures r <= |flags|
  {
    if |flags| == 0 then 0 else CountSet(flags[..|flags| - 1]) + (if flags[|flags| - 1] then 1 else 0)
  }

  /** `_log_cookie_setting`'s record. */
  function CookieRecord(host: string, path: string, url: string, names: seq<string>, tracking: bool, headers: seq<string>): (r: LogRecord)
    ensures r.logType == "cookie" && r.event == "cookie_set"
    ensures r.data.CookieSet? && r.data.cookies == names
    ensures r.data.cookieType == (if tracking then "tracking" else "target_domain") && r.data.trackingDomain == tracking
    ensures r.data.fullCookies == headers && |r.data.detailed| == |names|
    ensures r.data.cookieName.Some? <==> |names| == 1
    ensures r.data.httpOnlyCount <= |names| && r.data.secureCount <= |names|
  {
    var details := DetailedCookies(names, headers, host, path);
    LogRecord("cookie", "cookie_set",
              CookieSet(host, path, names, if tracking then "tracking" else "target_domain", headers,
                        if |names| == 1 then Some(names[0]) else None,
                        details,
                        CountSet(seq(|details|, i requires 0 <= i < |details| => details[i].httpOnly)),
                        CountSet(seq(|details|, i requires 0 <= i < |details| => details[i].secure)),
                        tracking),
              RequestMeta(path, [], url))
  }

  /** `_handle_cookie_setting`: one cookie record when the response sets
      cookies on a relevant host, with one name per header. */
  function CookieRecords(req: Request, resp: Response, allHosts: set<string>, targetHost: Option<string>): (r: seq<LogRecord>)
    ensures |r| <= 1
    ensures |r| == 1 <==> |resp.setCookies| > 0 && IsRelevantDomain(allHosts, targetHost, req.host)
    ensures |r| == 1 ==> r[0].data.CookieSet? && r[0].data.cookies == CookieNames(resp.setCookies) &&
                         r[0].data.trackingDomain == IsTrackingDomain(allHosts, req.host)
  {
    if |resp.setCookies| == 0 then []
    else if !IsRelevantDomain(allHosts, targetHost, req.host) then []
    else
      var names := CookieNames(resp.setCookies);
      if |names| == 0 then []
      else [CookieRecord(req.host, req.path, req.url, names, IsTrackingDomain(allHosts, req.host), resp.setCookies)]
  }
}
