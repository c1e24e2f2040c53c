/** The event builder, `process_marketing_pixel_event`: the identifiers a
    platform's handler reads from one parameter dict, turned into one
    structured log record. */
module Builder {
  import opened Wrappers
  import opened Strings
  import opened Dicts
  import opened JsonValues
  import opened ConfigLoading
  import opened HandlerIds
  import opened Handlers
  import opened Formatter
  import opened Records

  /** `_generate_request_hash`: the first 12 characters of the hex digest of
      `method|url|post_data`. The digest (MD5) is the parameter `digest`. */
  function RequestHash(digest: string -> string, url: string, postData: string, httpMethod: string): (r: string)
    ensures |r| <= 12 && StartsWith(digest(httpMethod + "|" + url + "|" + postData), r)
    ensures |digest(httpMethod + "|" + url + "|" + postData)| >= 12 ==> |r| == 12
  {
    Take(digest(httpMethod + "|" + url + "|" + postData), 12)
  }

  /** The parameter map of a platform missing from the registry. */
  const DefaultParamMap: Dict<string> := [
    ("pixel_id", "pixel_id"), ("event", "event_name"), ("value", "value"),
    ("currency", "currency"), ("url", "page_url"), ("ref", "referrer")
  ]

  /** `get_param_map_for_platform`. */
  function ParamMapFor(reg: Registry, platform: string): (r: Dict<string>)
    ensures HasKey(reg, platform) ==> r == Get(reg, platform).value.paramMap
    ensures !HasKey(reg, platform) ==> r == DefaultParamMap
  {
    match Get(reg, platform)
    case Some(config) => config.paramMap
    case None => DefaultParamMap
  }

  /** `mapped_data`: every platform key of the parameter map that the data
      holds, stored under its canonical name, in parameter-map order. */
  function MappedData(paramMap: Dict<string>, data: Dict<string>): (r: Dict<string>)
    ensures Keyed(r)
    ensures KeySet(r) == set i | 0 <= i < |paramMap| && HasKey(data, paramMap[i].0) :: paramMap[i].1
  {
    if |paramMap| == 0 then []
    else
      var init := paramMap[..|paramMap| - 1];
      var entry := paramMap[|paramMap| - 1];
      var r := MappedData(init, data);
      assert forall i | 0 <= i < |init| :: init[i] == paramMap[i];
      match Get(data, entry.0)
      case Some(v) =>
        PutKeySet(r, entry.1, v);
        Put(r, entry.1, v)
      case None => r
  }

  /** Two platform keys with the same canonical name: the later one present
      in the data decides the value. */
  lemma {:induction false} LaterMappingWins(paramMap: Dict<string>, data: Dict<string>, i: nat)
    requires i < |paramMap| && HasKey(data, paramMap[i].0)
    requires forall j | i < j < |paramMap| :: !(paramMap[j].1 == paramMap[i].1 && HasKey(data, paramMap[j].0))
    ensures Get(MappedData(paramMap, data), paramMap[i].1) == Get(data, paramMap[i].0)
    decreases |paramMap|
  {
    var init := paramMap[..|paramMap| - 1];
    var entry := paramMap[|paramMap| - 1];
    if i < |paramMap| - 1 {
      assert init[i] == paramMap[i];
      assert forall j | i < j < |init| :: init[j] == paramMap[j];
      LaterMappingWins(init, data, i);
      if HasKey(data, entry.0) {
        PutOther(MappedData(init, data), entry.1, Get(data, entry.0).value, paramMap[i].1);
      }
    }
  }

  /** The synthetic keys `_extract_request_data` adds. */
  predicate Internal(k: string) {
    StartsWith(k, "_request_")
  }

  /** `clean_data`: the data without its internal keys, in order. */
  function CleanData(data: Dict<string>): (r: Dict<string>)
    ensures |r| <= |data|
    ensures forall i | 0 <= i < |r| :: !Internal(r[i].0)
    ensures forall k :: HasKey(r, k) <==> HasKey(data, k) && !Internal(k)
    ensures forall k | !Internal(k) :: Get(r, k) == Get(data, k)
  {
    if |data| == 0 then []
    else
      var init := data[..|data| - 1];
      var last := data[|data| - 1];
      var r := CleanData(init);
      assert data == init + [last];
      if Internal(last.0) then
        assert forall k | !Internal(k) :: Get(data, k) == Get(init, k) by {
          forall k | !Internal(k) ensures Get(data, k) == Get(init, k) {
            GetSnoc(init, last.0, last.1, k);
          }
        }
        r
      else
        assert forall k | !Internal(k) :: Get(r + [last], k) == Get(data, k) by {
          forall k | !Internal(k) ensures Get(r + [last], k) == Get(data, k) {
            GetSnoc(init, last.0, last.1, k);
            GetSnoc(r, last.0, last.1, k);
          }
        }
        assert forall k | Internal(k) :: HasKey(r + [last], k) == false;
        r + [last]
  }

  /** `data.get(a, data.get(b, data.get(c, "")))`. */
  function Fallback(data: Dict<string>, a: string, b: string, c: string): (r: string)
    ensures HasKey(data, a) ==> Some(r) == Get(data, a)
    ensures !HasKey(data, a) && HasKey(data, b) ==> Some(r) == Get(data, b)
    ensures !HasKey(data, a) && !HasKey(data, b) && HasKey(data, c) ==> Some(r) == Get(data, c)
    ensures !HasKey(data, a) && !HasKey(data, b) && !HasKey(data, c) ==> r == ""
  {
    GetOr(data, a, GetOr(data, b, GetOr(data, c, "")))
  }

  /** The page URL: `dl`, else `url`, else `u`, else empty. */
  function PageUrl(data: Dict<string>): string {
    Fallback(data, "dl", "url", "u")
  }

  /** The referrer: `rl`, else `ref`, else `rf`, else empty. */
  function Referrer(data: Dict<string>): string {
    Fallback(data, "rl", "ref", "rf")
  }

  /** Neither an event name nor a pixel id: the builder's short-circuit. */
  predicate MissingIdentifiers(ids: Ids) {
    ids.eventName == "Unknown" && ids.pixelId == ""
  }

  /** `process_marketing_pixel_event`, returning the one record it logs. The
      handler's platform info may raise, and then no record is logged and
      the exception escapes; `_format_pixel_id` never raises, so its guard
      is not modelled. `loads` stands for `json.loads` and `digest` for MD5. */
  function MarketingPixelEvent(reg: Registry, data: Dict<string>, platform: string, requestPath: string, requestUrl: string,
                               postData: string, httpMethod: string, loads: string -> Option<Json>, digest: string -> string): (r: Result<LogRecord>)
    ensures r.Ok? ==> r.value.metadata == RequestMeta(requestPath, CleanData(data), requestUrl)
    ensures r.Ok? ==> (r.value.data.MissingIds? || r.value.data.PixelEvent?) && r.value.data.requestHash == RequestHash(digest, requestUrl, postData, httpMethod)
    ensures MissingIdentifiers(ExtractIdentifiers(GetEventHandler(reg, platform), data)) ==>
              r.Ok? && r.value.logType == "custom_tracking" && r.value.event == "not defined" &&
              r.value.data == MissingIds(platform, "Missing " + platform + " event name and pixel ID", r.value.data.requestHash)
    ensures !MissingIdentifiers(ExtractIdentifiers(GetEventHandler(reg, platform), data)) ==>
              (r.Ok? <==> ExtractPlatformInfo(GetEventHandler(reg, platform), data,
                                              MappedData(ParamMapFor(reg, platform), data),
                                              ExtractIdentifiers(GetEventHandler(reg, platform), data).eventName, loads).Ok?)
    ensures !MissingIdentifiers(ExtractIdentifiers(GetEventHandler(reg, platform), data)) && r.Ok? ==>
              var ids := ExtractIdentifiers(GetEventHandler(reg, platform), data);
              r.value.logType == "marketing_pixel_event" && r.value.event == ids.eventName &&
              r.value.data.PixelEvent? && r.value.data.platform == platform &&
              r.value.data.pixelId == ids.pixelId && r.value.data.eventType == ids.eventType &&
              r.value.data.property == FormatPixelId(ids.pixelId, platform) &&
              r.value.data.pageUrl == PageUrl(data) && r.value.data.referrerUrl == Referrer(data) &&
              r.value.data.mapped == MappedData(ParamMapFor(reg, platform), data) &&
              r.value.data.requestMethod == httpMethod
    ensures r.Raise? ==> GetEventHandler(reg, platform).kind == Taboola && r.exc != KeyError
  {
    var handler := GetEventHandler(reg, platform);
    var ids := ExtractIdentifiers(handler, data);
    var hash := RequestHash(digest, requestUrl, postData, httpMethod);
    var meta := RequestMeta(requestPath, CleanData(data), requestUrl);
    if MissingIdentifiers(ids) then
      Ok(LogRecord("custom_tracking", "not defined",
                   MissingIds(platform, "Missing " + platform + " event name and pixel ID", hash), meta))
    else
      var mapped := MappedData(ParamMapFor(reg, platform), data);
      match ExtractPlatformInfo(handler, data, mapped, ids.eventName, loads)
      case Raise(e) => Raise(e)
      case Ok(extra) =>
        Ok(LogRecord("marketing_pixel_event", ids.eventName,
                     PixelEvent(platform, ids.pixelId, FormatPixelId(ids.pixelId, platform), ids.eventType, extra,
                                PageUrl(data), Referrer(data), mapped, hash, httpMethod),
                     meta))
  }

  /** When the identifiers are missing, the platform info (the only part
      that decodes JSON) is never computed: the record is the same whatever
      `json.loads` does. */
  lemma ShortCircuitSkipsPlatformInfo(reg: Registry, data: Dict<string>, platform: string, requestPath: string, requestUrl: string,
                                      postData: string, httpMethod: string, loads1: string -> Option<Json>, loads2: string -> Option<Json>,
                                      digest: string -> string)
    requires MissingIdentifiers(ExtractIdentifiers(GetEventHandler(reg, platform), data))
    ensures MarketingPixelEvent(reg, data, platform, requestPath, requestUrl, postData, httpMethod, loads1, digest) ==
            MarketingPixelEvent(reg, data, platform, requestPath, requestUrl, postData, httpMethod, loads2, digest)
  {
  }

  /** Whatever the record, its raw data holds no internal key. */
  lemma RawDataClean(reg: Registry, data: Dict<string>, platform: string, requestPath: string, requestUrl: string,
                     postData: string, httpMethod: string, loads: string -> Option<Json>, digest: string -> string, k: string)
    requires MarketingPixelEvent(reg, data, platform, requestPath, requestUrl, postData, httpMethod, loads, digest).Ok?
    ensures var raw := MarketingPixelEvent(reg, data, platform, requestPath, requestUrl, postData, httpMethod, loads, digest).value.metadata.rawData;
            HasKey(raw, k) <==> HasKey(data, k) && !Internal(k)
  {
  }

  /** The handlers whose event names are fixed never take the short-circuit:
      they always produce a marketing event or raise. */
  lemma NamedKindsNeverMissing(reg: Registry, data: Dict<string>, platform: string, requestPath: string, requestUrl: string,
                               postData: string, httpMethod: string, loads: string -> Option<Json>, digest: string -> string)
    requires NamesEvents(GetEventHandler(reg, platform).kind)
    ensures var r := MarketingPixelEvent(reg, data, platform, requestPath, requestUrl, postData, httpMethod, loads, digest);
            r.Ok? ==> r.value.logType == "marketing_pixel_event"
  {
  }
}
