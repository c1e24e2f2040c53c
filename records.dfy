/** The structured log entries the engine emits (`log_structured`): a log
    type, an event name, a payload and metadata. The timestamp is not
    represented. */
module Records {
  import opened Wrappers
  import opened Dicts
  import opened Formatter

  /** `_build_response_info`. */
  datatype ResponseInfo = ResponseInfo(
    responseType: string,
    contentType: string,
    statusCode: int,
    responseSize: string,
    requestMethod: string,
    responseTime: Option<string>,
    cacheControl: Option<string>,
    etag: Option<string>)

  /** One entry of `detailed_cookies`; the constant fields `source` and
      `type` ("server_side") and `host` (equal to `domain`) are implied. */
  datatype CookieDetail = CookieDetail(
    name: string,
    value: string,
    domain: string,
    path: string,
    accessible: bool,
    httpOnly: bool,
    secure: bool,
    sameSite: string,
    expires: string,
    maxAge: string)

  datatype Payload =
    /** A request with neither event name nor pixel id; its `pixel_id` and
        `event_type` fields are empty. */
    | MissingIds(platform: string, message: string, requestHash: string)
    | PixelEvent(
        platform: string,
        pixelId: string,
        property: PixelInfo,
        eventType: string,
        extraInfo: seq<string>,
        pageUrl: string,
        referrerUrl: string,
        mapped: Dict<string>,
        requestHash: string,
        requestMethod: string)
    /** A successful response; `jsDescription` is present for JavaScript
        endpoints. */
    | StatusUpdate(
        requestUrl: string,
        platform: string,
        statusCode: int,
        httpMethod: string,
        requestHash: string,
        info: ResponseInfo,
        jsDescription: Option<string>)
    | RequestFailed(platform: string, statusCode: int, url: string, httpMethod: string, message: string, requestHash: string)
    | CookieSet(
        host: string,
        path: string,
        cookies: seq<string>,
        cookieType: string,
        fullCookies: seq<string>,
        cookieName: Option<string>,
        detailed: seq<CookieDetail>,
        httpOnlyCount: nat,
        secureCount: nat,
        trackingDomain: bool)

  datatype Metadata =
    | RequestMeta(requestPath: string, rawData: Dict<string>, requestUrl: string)
    | ResponseMeta(requestPath: string, requestUrl: string, responseHeaders: Dict<string>, responseInfo: Option<ResponseInfo>)

  datatype LogRecord = LogRecord(logType: string, event: string, data: Payload, metadata: Metadata)
}
