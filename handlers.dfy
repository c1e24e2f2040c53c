/** The event handlers: which handler a platform gets, and the dispatch of
    `extract_identifiers` and `extract_platform_info` on it. */
module Handlers {
  import opened Wrappers
  import opened Strings
  import opened Dicts
  import opened JsonValues
  import opened ConfigLoading
  import opened HandlerHelpers
  import opened HandlerIds
  import opened HandlerInfo

  /** The handler classes. */
  datatype HandlerKind =
    | Base | Ga4 | ServerGtm | Facebook | GoogleAds | LinkedIn | Pinterest | MicrosoftBing
    | MicrosoftClarity | DoubleClick | Taboola | PrivacySandbox | ConsentCollection | ConsentPlatform

  /** A handler: its class and the two keys its platform configuration names. */
  datatype Handler = Handler(kind: HandlerKind, pixelIdKey: string, eventNameKey: string)

  /** `EVENT_HANDLERS`: the handler class of each platform that has its own. */
  const EventHandlers: Dict<HandlerKind> := [
    ("GA4", Ga4),
    ("sGTM", ServerGtm),
    ("Server-side GTM", ServerGtm),
    ("Facebook", Facebook),
    ("Google Ads", GoogleAds),
    ("LinkedIn", LinkedIn),
    ("Pinterest", Pinterest),
    ("Microsoft/Bing", MicrosoftBing),
    ("Microsoft Clarity", MicrosoftClarity),
    ("DoubleClick", DoubleClick),
    ("Taboola", Taboola),
    ("Privacy Sandbox", PrivacySandbox),
    ("Google Consent Collection", ConsentCollection),
    ("Consent Management Platform", ConsentPlatform)
  ]

  /** `get_event_handler`: a platform missing from the registry gets the base
      handler with keys `pixel_id` and `event_name`, even when it has a
      handler class of its own; a registered platform gets its class (or the
      base class) with the keys of its configuration. */
  function GetEventHandler(registry: Registry, platform: string): (r: Handler)
    ensures !HasKey(registry, platform) ==> r == Handler(Base, "pixel_id", "event_name")
    ensures HasKey(registry, platform) ==>
              r.kind == GetOr(EventHandlers, platform, Base) &&
              r.pixelIdKey == Get(registry, platform).value.pixelIdKey &&
              r.eventNameKey == Get(registry, platform).value.eventNameKey
  {
    match Get(registry, platform)
    case None => Handler(Base, "pixel_id", "event_name")
    case Some(config) => Handler(GetOr(EventHandlers, platform, Base), config.pixelIdKey, config.eventNameKey)
  }

  /** A platform with its own class that is missing from the registry is
      still handled by the base handler. */
  lemma UnregisteredGa4IsBase(registry: Registry)
    requires !HasKey(registry, "GA4")
    ensures GetEventHandler(registry, "GA4").kind == Base
    ensures HasKey(EventHandlers, "GA4")
  {
    assert EventHandlers[0].0 == "GA4";
  }

  /** The handler kinds whose event names are all fixed or composed, so that
      they never report the name "Unknown". */
  predicate NamesEvents(kind: HandlerKind) {
    kind in {GoogleAds, MicrosoftClarity, Taboola, PrivacySandbox, ConsentCollection, ConsentPlatform}
  }

  /** `handler.extract_identifiers(data)`. */
  function ExtractIdentifiers(h: Handler, data: Dict<string>): (r: Ids)
    ensures NamesEvents(h.kind) ==> r.eventName != "Unknown"
    ensures h.kind == Base ==> r.eventType == "Standard Event"
  {
    match h.kind
    case Base => BaseIds(h.pixelIdKey, h.eventNameKey, data)
    case Ga4 => Ga4Ids(h.pixelIdKey, h.eventNameKey, data)
    case ServerGtm => ServerGtmIds(h.pixelIdKey, h.eventNameKey, data)
    case Facebook => FacebookIds(h.pixelIdKey, h.eventNameKey, data)
    case GoogleAds => GoogleAdsIds(h.pixelIdKey, data)
    case LinkedIn => LinkedInIds(h.pixelIdKey, data)
    case Pinterest => PinterestIds(h.pixelIdKey, h.eventNameKey, data)
    case MicrosoftBing => BingIds(h.pixelIdKey, h.eventNameKey, data)
    case MicrosoftClarity => ClarityIds(data)
    case DoubleClick => DoubleClickIds(data)
    case Taboola => TaboolaIds(h.pixelIdKey, data)
    case PrivacySandbox => PrivacySandboxIds(h.pixelIdKey, data)
    case ConsentCollection => ConsentCollectionIds(h.pixelIdKey, data)
    case ConsentPlatform => ConsentPlatformIds(h.pixelIdKey, data)
  }

  /** `handler.extract_platform_info(data, mapped, event_name)`, with
      `json.loads` given as `loads` (None for a decoding error). Only the
      Taboola handler can raise, and never KeyError. */
  function ExtractPlatformInfo(h: Handler, data: Dict<string>, mapped: Dict<string>, eventName: string,
                               loads: string -> Option<Json>): (r: Result<seq<string>>)
    ensures h.kind != Taboola ==> r.Ok?
    ensures r.Raise? ==> r.exc != KeyError
  {
    match h.kind
    case Ga4 => Ok(Ga4Info(data, eventName))
    case ServerGtm => Ok(ServerGtmInfo(data, eventName))
    case Facebook => Ok(FacebookInfo(mapped, loads))
    case GoogleAds => Ok(GoogleAdsInfo(mapped))
    case LinkedIn => Ok(LinkedInInfo(data, mapped, eventName))
    case MicrosoftBing => Ok(BingInfo(mapped))
    case MicrosoftClarity => Ok(ClarityInfo(data))
    case Taboola => TaboolaInfo(data, mapped, loads)
    case ConsentPlatform => Ok(ConsentPlatformInfo(mapped, loads))
    case _ => Ok(BaseInfo(mapped))
  }
}
