/** The two proxy hooks: `process_request` turns a tracking request into
    one record per event, and `process_response` reports the status of the
    response and the cookies it sets. Requests and responses are matched
    only through the request hash both sides compute. */
module Pipeline {
  import opened Wrappers
  import opened Dicts
  import opened JsonValues
  import opened ConfigLoading
  import opened Extraction
  import opened Detection
  import opened Records
  import opened Builder
  import opened Responses

  /** How the processing of a flow ended: normally, with an exception caught
      and logged as a parse error, or with an exception escaping the hook. */
  datatype Ending = Completed | ParseError(exc: Exception) | Escaped(exc: Exception)

  /** The records logged, in order, and how processing ended. */
  datatype Outcome = Outcome(records: seq<LogRecord>, ending: Ending)

  /** What turns one parameter dict into the record it logs. */
  type EventBuilder = Dict<string> -> Result<LogRecord>

  /** The parameter dicts of extracted request data: one, or one per event. */
  function ParamDicts(x: Extracted): (r: seq<Dict<string>>)
    ensures x.Single? ==> r == [x.params]
    ensures x.Batch? ==> r == x.events
  {
    match x
    case Single(d) => [d]
    case Batch(events) => events
  }

  /** The builder the logger uses for the events of one request labelled
      `platform`: `process_marketing_pixel_event`. */
  function BuildFor(reg: Registry, platform: string, req: Request, loads: string -> Option<Json>, digest: string -> string)
    : EventBuilder
  {
    data => MarketingPixelEvent(reg, data, platform, req.path, req.url, req.body, req.httpMethod, loads, digest)
  }

  /** The builder run on each event in order; the first event whose
      platform info raises ends the run, keeping the records before it. */
  function EventRecords(build: EventBuilder, events: seq<Dict<string>>): (r: Outcome)
    ensures !r.ending.Escaped?
    ensures |r.records| <= |events|
    ensures r.ending.Completed? ==> |r.records| == |events|
    ensures r.ending.ParseError? ==> |r.records| < |events| && build(events[|r.records|]) == Raise(r.ending.exc)
    ensures forall i | 0 <= i < |r.records| :: build(events[i]) == Ok(r.records[i])
    decreases |events|
  {
    if |events| == 0 then Outcome([], Completed)
    else
      var init := events[..|events| - 1];
      var prev := EventRecords(build, init);
      assert forall i | 0 <= i < |init| :: init[i] == events[i];
      if !prev.ending.Completed? then prev
      else
        match build(events[|events| - 1])
        case Raise(e) => Outcome(prev.records, ParseError(e))
        case Ok(record) => Outcome(prev.records + [record], Completed)
  }

  /** Once an event has raised, the later events change nothing. */
  lemma {:induction false} EventRecordsStop(build: EventBuilder, events: seq<Dict<string>>, i: nat, n: nat)
    requires i <= n <= |events|
    requires !EventRecords(build, events[..i]).ending.Completed?
    ensures EventRecords(build, events[..n]) == EventRecords(build, events[..i])
    decreases n - i
  {
    if i < n {
      EventRecordsStop(build, events, i, n - 1);
      assert events[..n][..n - 1] == events[..n - 1];
    }
  }

  /** What the request hook logs for a tracking request labelled `platform`
      whose events `build` turns into records: an extraction error is caught
      as a parse error. */
  function RequestRecords(reg: Registry, req: Request, platform: string, build: EventBuilder): (r: Outcome)
    ensures RequestData(reg, req, platform).Raise? ==> r == Outcome([], ParseError(RequestData(reg, req, platform).exc))
    ensures RequestData(reg, req, platform).Ok? ==>
              r == EventRecords(build, ParamDicts(RequestData(reg, req, platform).value))
  {
    match RequestData(reg, req, platform)
    case Raise(e) => Outcome([], ParseError(e))
    case Ok(x) => EventRecords(build, ParamDicts(x))
  }

  /** The detected `detect_platform` gives: the cached one, else a fresh decision. */
  function Label(cache: map<string, string>, reg: Registry, req: Request): Result<string> {
    if CacheKey(req.host, req.path) in cache then Ok(cache[CacheKey(req.host, req.path)])
    else Detect(reg, req.host, req.path, Some(req))
  }

  /** The detector's cache after `detect_platform` on a request: a label
      decided afresh is stored under `host:path`; a hit or an error leaves the
      cache as it was. */
  function AfterDetect(cache: map<string, string>, reg: Registry, req: Request): (r: map<string, string>)
    ensures forall k | k != CacheKey(req.host, req.path) :: (k in r <==> k in cache) && (k in cache ==> r[k] == cache[k])
    ensures CacheKey(req.host, req.path) in r <==> CacheKey(req.host, req.path) in cache || Label(cache, reg, req).Ok?
    ensures CacheKey(req.host, req.path) in r ==> Label(cache, reg, req) == Ok(r[CacheKey(req.host, req.path)])
  {
    var key := CacheKey(req.host, req.path);
    var detected := Label(cache, reg, req);
    if key !in cache && detected.Ok? then cache[key := detected.value] else cache
  }

  /** Detection is stable: the cache left by one detection gives the same
      label again, so the response hook finds the label the request hook
      used for the same flow. */
  lemma DetectAgain(cache: map<string, string>, reg: Registry, req: Request)
    ensures Label(AfterDetect(cache, reg, req), reg, req) == Label(cache, reg, req)
  {
  }

  /** `process_request`: static assets and non-tracking requests log
      nothing; otherwise the platform is detected (a detection error
      escapes) and every event of the request is built and logged.
      `builders` gives the event builder of each platform; the logger's is
      `p => BuildFor(reg, p, flow.request, json.loads, MD5)`. */
  method ProcessRequest(detector: PlatformDetector, reg: Registry, allHosts: set<string>, allPaths: set<string>, flow: Flow,
                        builders: string -> EventBuilder) returns (out: Outcome)
    requires flow.Valid() && Keyed(flow.request.query)
    modifies detector, flow
    ensures flow.Valid()
    ensures IsStaticAsset(flow.request.path) || !TrackingRequest(reg, allHosts, allPaths, flow.request) ==>
              out == Outcome([], Completed) && detector.cache == old(detector.cache)
    ensures !IsStaticAsset(flow.request.path) && TrackingRequest(reg, allHosts, allPaths, flow.request) ==>
              var detected := Label(old(detector.cache), reg, flow.request);
              detector.cache == AfterDetect(old(detector.cache), reg, flow.request) &&
              (detected.Raise? ==> out == Outcome([], Escaped(detected.exc))) &&
              (detected.Ok? ==> out == RequestRecords(reg, flow.request, detected.value, builders(detected.value)))
  {
    var req := flow.request;
    if IsStaticAsset(req.path) {
      return Outcome([], Completed);
    }
    var tracking := detector.IsTrackingRequest(reg, allHosts, allPaths, flow);
    if !tracking {
      return Outcome([], Completed);
    }
    var detected := detector.DetectPlatform(reg, req.host, req.path, flow);
    if detected.Raise? {
      return Outcome([], Escaped(detected.exc));
    }
    var platform := detected.value;
    var extracted := ExtractRequestData(reg, req, platform);
    if extracted.Raise? {
      return Outcome([], ParseError(extracted.exc));
    }
    out := LogEvents(builders(platform), ParamDicts(extracted.value));
  }

  /** The loop of `process_request` over the events: each record is logged
      as it is built, and the first event that raises ends the loop. */
  method LogEvents(build: EventBuilder, events: seq<Dict<string>>) returns (out: Outcome)
    ensures out == EventRecords(build, events)
  {
    var records: seq<LogRecord> := [];
    var i := 0;
    while i < |events|
      invariant 0 <= i <= |events|
      invariant EventRecords(build, events[..i]) == Outcome(records, Completed)
    {
      var record := build(events[i]);
      assert events[..i + 1][..i] == events[..i];
      if record.Raise? {
        EventRecordsStop(build, events, i + 1, |events|);
        assert events[..|events|] == events;
        return Outcome(records, ParseError(record.exc));
      }
      records := records + [record.value];
      i := i + 1;
    }
    assert events[..|events|] == events;
    out := Outcome(records, Completed);
  }

  /** `process_response`: a static asset only has its cookies checked;
      otherwise the platform is detected (a detection error escapes), and
      the status record, if any, precedes the cookie record, if any. */
  method ProcessResponse(detector: PlatformDetector, reg: Registry, allHosts: set<string>, targetHost: Option<string>,
                         flow: Flow, resp: Response, digest: string -> string) returns (out: Outcome)
    requires flow.Valid() && Keyed(flow.request.query)
    modifies detector, flow
    ensures flow.Valid()
    ensures IsStaticAsset(flow.request.path) ==>
              out == Outcome(CookieRecords(flow.request, resp, allHosts, targetHost), Completed) &&
              detector.cache == old(detector.cache)
    ensures !IsStaticAsset(flow.request.path) ==>
              var detected := Label(old(detector.cache), reg, flow.request);
              detector.cache == AfterDetect(old(detector.cache), reg, flow.request) &&
              (detected.Raise? ==> out == Outcome([], Escaped(detected.exc))) &&
              (detected.Ok? ==> out == Outcome(
                 TrackingResponse(flow.request, resp, detected.value,
                                  IsJavascriptContent(GetOr(resp.headers, "content-type", ""), flow.request.path), digest) +
                 CookieRecords(flow.request, resp, allHosts, targetHost), Completed))
  {
    var req := flow.request;
    if IsStaticAsset(req.path) {
      return Outcome(CookieRecords(req, resp, allHosts, targetHost), Completed);
    }
    var detected := detector.DetectPlatform(reg, req.host, req.path, flow);
    if detected.Raise? {
      return Outcome([], Escaped(detected.exc));
    }
    var isJs := IsJavascriptContent(GetOr(resp.headers, "content-type", ""), req.path);
    out := Outcome(TrackingResponse(req, resp, detected.value, isJs, digest) + CookieRecords(req, resp, allHosts, targetHost), Completed);
  }

  /** Every event record of a request carries the hash the status record of
      its response carries, so the two can be matched. */
  lemma HashesCorrelate(reg: Registry, req: Request, platform: string, responsePlatform: string, resp: Response, isJs: bool,
                        loads: string -> Option<Json>, digest: string -> string, i: nat)
    requires i < |RequestRecords(reg, req, platform, BuildFor(reg, platform, req, loads, digest)).records|
    requires |TrackingResponse(req, resp, responsePlatform, isJs, digest)| == 1
    ensures RequestRecords(reg, req, platform, BuildFor(reg, platform, req, loads, digest)).records[i].data.requestHash ==
            TrackingResponse(req, resp, responsePlatform, isJs, digest)[0].data.requestHash
  {
    var x := RequestData(reg, req, platform).value;
    var events := ParamDicts(x);
    var build := BuildFor(reg, platform, req, loads, digest);
    var out := EventRecords(build, events);
    assert build(events[i]) == Ok(out.records[i]);
    assert MarketingPixelEvent(reg, events[i], platform, req.path, req.url, req.body, req.httpMethod, loads, digest) == Ok(out.records[i]);
  }
}
