/** `extract_identifiers` of every event handler: from the flattened request
    parameters, the pixel (property) id, the event name and the event type.
    The synthetic keys `_request_path`, `_request_host` and `_request_url`
    carry the request's path, host and URL. */
module HandlerIds {
  import opened Wrappers
  import opened Strings
  import opened Dicts
  import opened HandlerHelpers
  import opened Floodlight

  datatype Ids = Ids(pixelId: string, eventName: string, eventType: string)

  /** Python `data.get(key, "")`. */
  function Val(data: Dict<string>, key: string): string {
    GetOr(data, key, "")
  }

  function PathOf(data: Dict<string>): string {
    Val(data, "_request_path")
  }

  /** The base handler: the pixel id and event name under the platform's
      configured keys, "Unknown" when the name is missing. */
  function BaseIds(pixelIdKey: string, eventNameKey: string, data: Dict<string>): (r: Ids)
    ensures !HasKey(data, pixelIdKey) ==> r.pixelId == ""
    ensures !HasKey(data, eventNameKey) ==> r.eventName == "Unknown"
    ensures HasKey(data, eventNameKey) ==> Some(r.eventName) == Get(data, eventNameKey)
    ensures r.eventType == "Standard Event"
  {
    Ids(Val(data, pixelIdKey), GetOr(data, eventNameKey, "Unknown"), "Standard Event")
  }

  /** The consent-mode pixel id: the container id `gtm`, or `CCM-<gcs>`. */
  function ConsentModePixel(data: Dict<string>): (r: string)
    ensures |r| > 0
    ensures Val(data, "gtm") == "" ==> StartsWith(r, "CCM-")
  {
    if Val(data, "gtm") != "" then Val(data, "gtm") else "CCM-" + GetOr(data, "gcs", "Unknown")
  }

  /** GA4: library loads, tag diagnostics and consent-mode pings are
      recognised by path, in that order; anything else is an analytics event
      named as the base handler names it. */
  function Ga4Ids(pixelIdKey: string, eventNameKey: string, data: Dict<string>): (r: Ids)
    ensures Contains(PathOf(data), "gtag/js") ==> r == Ids(Val(data, "id"), "gtag_library_load", "JavaScript Library")
    ensures !Contains(PathOf(data), "gtag/js") && Contains(PathOf(data), "/td") ==>
              r == Ids(Val(data, "id"), "tag_diagnostics", "Tag Diagnostics")
    ensures r.eventType == "Consent Mode" <==>
              !Contains(PathOf(data), "gtag/js") && !Contains(PathOf(data), "/td") && Contains(PathOf(data), "ccm/collect")
    ensures r.eventType == "Analytics Event" ==> r.pixelId == BaseIds(pixelIdKey, eventNameKey, data).pixelId
  {
    var path := PathOf(data);
    if Contains(path, "gtag/js") then Ids(Val(data, "id"), "gtag_library_load", "JavaScript Library")
    else if Contains(path, "/td") then Ids(Val(data, "id"), "tag_diagnostics", "Tag Diagnostics")
    else if Contains(path, "ccm/collect") then
      Ids(ConsentModePixel(data), GetOr(data, "en", "consent_mode_event"), "Consent Mode")
    else
      var base := BaseIds(pixelIdKey, eventNameKey, data);
      Ids(base.pixelId, base.eventName, "Analytics Event")
  }

  /** Server-side GTM: as GA4 without the tag-diagnostics case, and with its
      own library-load name and event type. */
  function ServerGtmIds(pixelIdKey: string, eventNameKey: string, data: Dict<string>): (r: Ids)
    ensures Contains(PathOf(data), "gtag/js") ==> r == Ids(Val(data, "id"), "gtag_library_load (sGTM)", "JavaScript Library")
    ensures r.eventType == "Consent Mode" <==> !Contains(PathOf(data), "gtag/js") && Contains(PathOf(data), "ccm/collect")
    ensures r.eventType == "Server-side Analytics" ==> r.pixelId == BaseIds(pixelIdKey, eventNameKey, data).pixelId
  {
    var path := PathOf(data);
    if Contains(path, "gtag/js") then Ids(Val(data, "id"), "gtag_library_load (sGTM)", "JavaScript Library")
    else if Contains(path, "ccm/collect") then
      Ids(ConsentModePixel(data), GetOr(data, "en", "consent_mode_event"), "Consent Mode")
    else
      var base := BaseIds(pixelIdKey, eventNameKey, data);
      Ids(base.pixelId, base.eventName, "Server-side Analytics")
  }

  /** The Facebook event type of a standard event name. */
  function FacebookEventType(name: string): (r: string)
    ensures r == "Page Tracking" <==> name == "PageView"
    ensures r == "E-commerce" <==> name in {"Purchase", "InitiateCheckout", "AddToCart"}
    ensures r == "Conversion" <==> name in {"Lead", "CompleteRegistration", "Subscribe"}
    ensures r == "Engagement" <==> name in {"ViewContent", "Search", "AddToWishlist"}
    ensures r == "Custom Event" <==> name !in {"PageView", "Purchase", "InitiateCheckout", "AddToCart", "Lead",
                                              "CompleteRegistration", "Subscribe", "ViewContent", "Search", "AddToWishlist"}
  {
    if name == "PageView" then "Page Tracking"
    else if name in ["Purchase", "InitiateCheckout", "AddToCart"] then "E-commerce"
    else if name in ["Lead", "CompleteRegistration", "Subscribe"] then "Conversion"
    else if name in ["ViewContent", "Search", "AddToWishlist"] then "Engagement"
    else "Custom Event"
  }

  /** Facebook: the base id and name, typed by the name. */
  function FacebookIds(pixelIdKey: string, eventNameKey: string, data: Dict<string>): (r: Ids)
    ensures r.pixelId == BaseIds(pixelIdKey, eventNameKey, data).pixelId
    ensures r.eventName == BaseIds(pixelIdKey, eventNameKey, data).eventName
    ensures r.eventType == FacebookEventType(r.eventName)
  {
    var base := BaseIds(pixelIdKey, eventNameKey, data);
    Ids(base.pixelId, base.eventName, FacebookEventType(base.eventName))
  }

  /** Google Ads path patterns and the event each names, in lookup order. */
  const AdsPathEvents: seq<(string, string)> := [
    ("/pagead/1p-conversion/", "enhanced_conversion"),
    ("/pagead/conversion/", "conversion_tracking"),
    ("/ads/conversion/", "conversion_tracking"),
    ("/pagead/1p-user-list/", "remarketing_user_list")
  ]

  /** Google Ads hit types `t` and the event name and type each gives. */
  const AdsHitTypes: Dict<(string, string)> := [
    ("sr", ("remarketing_audience", "Remarketing")),
    ("pageview", ("pageview_tracking", "Page Tracking")),
    ("event", ("custom_event", "Custom Event"))
  ]

  /** The Google Ads pixel id: the configured one, or else `AW-<id>` from a
      conversion path. */
  function AdsPixel(configured: string, path: string): (r: string)
    ensures configured != "" ==> r == configured
    ensures configured == "" && AdwordsId(path).Some? ==> r == "AW-" + AdwordsId(path).value && IsDigits(r[3..])
    ensures configured == "" && AdwordsId(path).None? ==> r == ""
  {
    match AdwordsId(path)
    case Some(id) => if configured == "" then "AW-" + id else configured
    case None => configured
  }

  /** Of the Google Ads path events only the first names an enhanced conversion. */
  lemma EnhancedOnlyFirst()
    ensures Contains(AdsPathEvents[0].1, "enhanced")
    ensures forall k | 1 <= k < |AdsPathEvents| :: !Contains(AdsPathEvents[k].1, "enhanced")
  {
    var e := "enhanced_conversion";
    assert e[..8] == "enhanced";
    assert OccursAt(e, "enhanced", 0);
    MissingChar("conversion_tracking", "enhanced", 'h');
    MissingChar("remarketing_user_list", "enhanced", 'h');
  }

  /** The Google Ads event name and type: a known path pattern decides first,
      then the hit type, then words in the path. */
  function AdsEvent(path: string, hitType: string): (r: (string, string))
    ensures Contains(path, AdsPathEvents[0].0) ==> r == ("enhanced_conversion", "Enhanced Conversion")
    ensures r.1 == "Enhanced Conversion" <==> Contains(path, AdsPathEvents[0].0)
    ensures r.0 != "Unknown"
    ensures (forall k | 0 <= k < |AdsPathEvents| :: !Contains(path, AdsPathEvents[k].0)) && HasKey(AdsHitTypes, hitType) ==>
              r == Get(AdsHitTypes, hitType).value
  {
    EnhancedOnlyFirst();
    match FirstHit(path, AdsPathEvents, 0)
    case Some(i) =>
      var name := AdsPathEvents[i].1;
      (name, if Contains(name, "enhanced") then "Enhanced Conversion" else "Conversion Tracking")
    case None =>
      match Get(AdsHitTypes, hitType)
      case Some(e) => e
      case None =>
        if Contains(path, "ga-audiences") then ("audience_building", "Audience Building")
        else if Contains(path, "conversion") then ("conversion_tracking", "Conversion Tracking")
        else
          assert ("hit_type_" + hitType)[0] == 'h';
          (if hitType != "" then "hit_type_" + hitType else "Ads Activity", "Ads Activity Tracking")
  }

  /** Google Ads: the pixel id with its conversion-path fallback, and the event. */
  function GoogleAdsIds(pixelIdKey: string, data: Dict<string>): (r: Ids)
    ensures r.pixelId == AdsPixel(Val(data, pixelIdKey), PathOf(data))
    ensures (r.eventName, r.eventType) == AdsEvent(PathOf(data), Val(data, "t"))
    ensures r.eventName != "Unknown"
  {
    var e := AdsEvent(PathOf(data), Val(data, "t"));
    Ids(AdsPixel(Val(data, pixelIdKey), PathOf(data)), e.0, e.1)
  }

  /** LinkedIn `/collect` requests: JS or beacon format, refined by the
      conversion, custom-event and value parameters in that order. */
  function LinkedInCollect(data: Dict<string>): (r: (string, string))
    ensures Val(data, "conversionId") != "" ==> r.1 == "Conversion Tracking"
    ensures Val(data, "conversionId") == "" && Val(data, "eventId") != "" ==> r.1 == "Custom Event Tracking"
  {
    var fmt := Val(data, "fmt");
    var mode := if fmt != "" then fmt else "beacon";
    if Val(data, "conversionId") != "" then ("Conversion Collection (" + mode + ")", "Conversion Tracking")
    else if Val(data, "eventId") != "" then ("Custom Event Collection (" + mode + ")", "Custom Event Tracking")
    else if Val(data, "v") != "" && Val(data, "v") != "0" then ("Value Tracking (" + mode + ")", "Value-based Tracking")
    else if fmt == "js" then ("Data Collection (JS)", "JavaScript Tracking")
    else ("Data Collection (Beacon)", "Beacon Tracking")
  }

  /** URL keywords and the page class each names, in lookup order (the
      keyword groups of the source, flattened in order). */
  const UrlEvents: seq<(string, (string, string))> := [
    ("checkout", ("Purchase Page", "E-commerce Tracking")),
    ("purchase", ("Purchase Page", "E-commerce Tracking")),
    ("order", ("Purchase Page", "E-commerce Tracking")),
    ("cart", ("Cart Page", "E-commerce Tracking")),
    ("basket", ("Cart Page", "E-commerce Tracking")),
    ("contact", ("Lead Page", "Lead Generation")),
    ("form", ("Lead Page", "Lead Generation")),
    ("signup", ("Registration Page", "Registration Tracking")),
    ("register", ("Registration Page", "Registration Tracking")),
    ("demo", ("Demo Request", "Lead Generation")),
    ("trial", ("Demo Request", "Lead Generation")),
    ("download", ("Download Page", "Content Engagement"))
  ]

  /** A custom event id is shown whole up to 10 characters, else by its first 8. */
  function ShortEventId(id: string): (r: string)
    ensures |id| <= 10 ==> r == id
    ensures |id| > 10 ==> |r| == 8 && StartsWith(id, r)
  {
    if |id| > 10 then id[..8] else id
  }

  /** LinkedIn requests on other paths, classified by parameters. */
  function LinkedInByParameters(data: Dict<string>): (r: (string, string))
    ensures Val(data, "conversionId") != "" ==> r == ("Conversion Event", "Conversion Tracking")
  {
    if Val(data, "conversionId") != "" then ("Conversion Event", "Conversion Tracking")
    else if Val(data, "eventId") != "" then ("Custom Event_" + ShortEventId(Val(data, "eventId")), "Custom Event Tracking")
    else if Val(data, "v") != "" && Val(data, "v") != "0" then ("Value Event", "Value-based Tracking")
    else if Lower(Val(data, "url")) != "" then Pick(Lower(Val(data, "url")), UrlEvents, ("Page View", "Page Tracking"))
    else if Val(data, "tm") == "gtmv2" then ("GTM Integration", "Tag Manager Event")
    else ("Insight Tag", "General Tracking")
  }

  /** LinkedIn: classified by path, then by parameters; a `li_fat_id` is
      appended to the name. */
  function LinkedInIds(pixelIdKey: string, data: Dict<string>): (r: Ids)
    ensures r.pixelId == Val(data, pixelIdKey)
    ensures var fat := Val(data, "li_fat_id");
      fat != "" ==> EndsWith(r.eventName, " (li_fat_id: " + fat + ")")
    ensures Contains(PathOf(data), "/collect") ==> r.eventType == LinkedInCollect(data).1
  {
    var path := PathOf(data);
    var e :=
      if Contains(path, "/collect") then LinkedInCollect(data)
      else if Contains(path, "/attribution_trigger") then ("Attribution Trigger", "Conversion Attribution")
      else if Contains(path, "/li.lms-analytics/") then ("LMS Analytics", "Learning Analytics")
      else if Contains(path, "/px") then ("Pixel Fire", "Pixel Tracking")
      else LinkedInByParameters(data);
    var fat := Val(data, "li_fat_id");
    var suffix := " (li_fat_id: " + fat + ")";
    var name := if fat != "" then e.0 + suffix else e.0;
    assert fat != "" ==> name[|name| - |suffix|..] == suffix;
    Ids(Val(data, pixelIdKey), name, e.1)
  }

  /** Pinterest keywords looked for in the upper-cased `dep`, in order. */
  const PinterestEvents: seq<(string, (string, string))> := [
    ("PAGE_LOAD", ("page_load", "Page Tracking")),
    ("CONVERSION", ("conversion", "Conversion")),
    ("CUSTOM", ("custom", "Custom Event"))
  ]

  /** Pinterest: the first keyword in `dep` names the event; otherwise the
      base handler's name with type "Pinterest Event". */
  function PinterestIds(pixelIdKey: string, eventNameKey: string, data: Dict<string>): (r: Ids)
    ensures r.pixelId == Val(data, pixelIdKey)
    ensures Contains(Upper(Val(data, "dep")), "PAGE_LOAD") ==> r.eventName == "page_load"
    ensures (forall k | 0 <= k < |PinterestEvents| :: !Contains(Upper(Val(data, "dep")), PinterestEvents[k].0)) ==>
              r == Ids(Val(data, pixelIdKey), GetOr(data, eventNameKey, "Unknown"), "Pinterest Event")
  {
    var dep := Upper(Val(data, "dep"));
    match FirstHit(dep, PinterestEvents, 0)
    case Some(i) => Ids(Val(data, pixelIdKey), PinterestEvents[i].1.0, PinterestEvents[i].1.1)
    case None => Ids(Val(data, pixelIdKey), GetOr(data, eventNameKey, "Unknown"), "Pinterest Event")
  }

  /** DoubleClick: Floodlight activities (whose synthesised name is replaced by
      "Floodlight Activity"), cookie matching, view-through conversions, GA4
      signals, and display tracking otherwise. */
  function DoubleClickIds(data: Dict<string>): (r: Ids)
    ensures Contains(PathOf(data), "/ddm/activity/") ==>
              r == Ids(DdmIds(PathOf(data)).0, "Floodlight Activity", "Floodlight Activity") && |r.pixelId| > 0
    ensures !Contains(PathOf(data), "/ddm/activity/") && Contains(PathOf(data), "activity") ==>
              r == Ids(ActivityIds(Val(data, "_request_url")).0, "Floodlight Activity", "Floodlight Activity")
    ensures r.eventType == "View-Through Conversion" && r.pixelId != "" ==> IsDigits(r.pixelId)
  {
    var path := PathOf(data);
    if Contains(path, "/ddm/activity/") then Ids(DdmIds(path).0, "Floodlight Activity", "Floodlight Activity")
    else if Contains(path, "activity") then
      Ids(ActivityIds(Val(data, "_request_url")).0, "Floodlight Activity", "Floodlight Activity")
    else if Contains(path, "google_com") then Ids("", "Cookie Matching", "Cookie Matching")
    else if Contains(path, "/pagead/viewthroughconversion/") then
      match SearchDigits(path, "/pagead/viewthroughconversion/", Slash)
      case Some(id) =>
        var cv := Val(data, "cv");
        Ids(id, if cv != "" then "View-Through Conversion ($" + cv + ")" else "View-Through Conversion",
            "View-Through Conversion")
      case None => Ids("", "View-Through Conversion", "View-Through Conversion")
    else if Contains(path, "/g/collect") then
      var t := Val(data, "t");
      Ids(Val(data, "tid"), if t == "dc" then "GA Signals" else if t != "" then "GA4 " + t else "GA4 Event",
          "Enhanced Conversion")
    else
      Ids(GetOr(data, "tid", GetOr(data, "label", "")), GetOr(data, "t", GetOr(data, "label", "DoubleClick Evenxxxt")),
          "Display Tracking")
  }

  /** Microsoft UET: insights, library and action paths, else the base name
      with "UET_Event" standing in for a missing one. */
  function BingIds(pixelIdKey: string, eventNameKey: string, data: Dict<string>): (r: Ids)
    ensures r.eventName != ""
    ensures Contains(PathOf(data), "/p/insights/t/") && SearchDigits(PathOf(data), "/p/insights/t/", Anything).Some? ==>
              IsDigits(r.pixelId)
    ensures r.eventType == "Conversion Tracking" <==>
              !Contains(PathOf(data), "/p/insights/t/") && !Contains(PathOf(data), "/p/insights/c/j") &&
              Contains(PathOf(data), "/action/") && Lower(Val(data, "evt")) in {"conversion", "goal", "purchase"}
  {
    var path := PathOf(data);
    var pixel := Val(data, pixelIdKey);
    var name := Val(data, eventNameKey);
    if Contains(path, "/p/insights/t/") then
      Ids(SearchDigits(path, "/p/insights/t/", Anything).GetOr(pixel), "UET_Insights", "Analytics Insights")
    else if Contains(path, "/p/insights/c/j") then Ids(pixel, "UET_JavaScript", "JavaScript Library")
    else if Contains(path, "/action/") then
      var evt := Val(data, "evt");
      Ids(pixel, if evt != "" then evt else "UET_Action",
          if Lower(evt) in ["conversion", "goal", "purchase"] then "Conversion Tracking" else "Action Tracking")
    else if Contains(path, "/bat.js") || Contains(path, "/uet.js") then Ids(pixel, "UET_Library_Load", "JavaScript Library")
    else Ids(pixel, if name == "" || name == "Unknown" then "UET_Event" else name, "UET Tracking")
  }

  const GoogleSandboxHosts: seq<string> :=
    ["google.com", "doubleclick.net", "googlesyndication.com", "region1.google-analytics.com"]

  /** Privacy Sandbox path patterns and the API each names, in lookup order. */
  const SandboxEvents: seq<(string, string)> := [
    ("/privacy_sandbox/topics/registration", "Topics Registration"),
    ("/privacy_sandbox/pixel/register/trigger", "Pixel Registration"),
    ("/privacy_sandbox/topics/", "Topics API"),
    ("/privacy_sandbox/fledge/", "FLEDGE"),
    ("/privacy_sandbox/attribution_reporting/", "Attribution Reporting"),
    ("/privacy_sandbox/trust_tokens/", "Trust Tokens"),
    ("/privacy_sandbox/private_aggregation/", "Private Aggregation"),
    ("/privacy_sandbox/shared_storage/", "Shared Storage"),
    ("/privacy_sandbox/", "Privacy Sandbox")
  ]

  /** The company behind a Privacy Sandbox request, from its host. */
  function SandboxOwner(host: string): (r: string)
    ensures r in {"Facebook", "Google", "Privacy Sandbox"}
    ensures r == "Facebook" <==> Contains(host, "facebook.com")
  {
    if Contains(host, "facebook.com") then "Facebook"
    else if AnyIn(host, GoogleSandboxHosts) then "Google"
    else "Privacy Sandbox"
  }

  /** Privacy Sandbox: the owner and API named from host and path. */
  function PrivacySandboxIds(pixelIdKey: string, data: Dict<string>): (r: Ids)
    ensures r.pixelId == Val(data, pixelIdKey)
    ensures StartsWith(r.eventName, SandboxOwner(Val(data, "_request_host")) + " ")
    ensures r.eventName != "Unknown"
    ensures r.eventType == "Privacy-Enhanced Tracking" <==> Val(data, "ev") == "PageView"
  {
    var owner := SandboxOwner(Val(data, "_request_host"));
    var api := Pick(PathOf(data), SandboxEvents, "Privacy Sandbox Event");
    var en := Val(data, "en");
    var name :=
      if Val(data, "ev") == "PageView" then owner + " " + "PageView"
      else if en != "" then owner + " " + (api + " " + en)
      else owner + " " + api;
    assert name[..|owner + " "|] == owner + " ";
    SpacedNotUnknown(name, |owner|);
    Ids(Val(data, pixelIdKey), name,
        if Val(data, "ev") == "PageView" then "Privacy-Enhanced Tracking" else "Privacy Sandbox")
  }

  /** A name with a space in it is not the placeholder "Unknown". */
  lemma SpacedNotUnknown(name: string, i: nat)
    requires i < |name| && name[i] == ' '
    ensures name != "Unknown"
  {
    assert forall j | 0 <= j < |"Unknown"| :: "Unknown"[j] != ' ';
  }

  /** Google consent collection: classified by `gcs` (where "G1" is checked
      before "G0"), then `gdpr`, then `dma`. */
  function ConsentCollectionIds(pixelIdKey: string, data: Dict<string>): (r: Ids)
    ensures r.pixelId == Val(data, pixelIdKey)
    ensures Contains(Val(data, "gcs"), "G1") ==> r.eventName == "Consent Granted"
    ensures !Contains(Val(data, "gcs"), "G1") && Contains(Val(data, "gcs"), "G0") ==> r.eventName == "Consent Denied"
    ensures r.eventType == "Consent Update" <==> Val(data, "gcs") != ""
    ensures r.eventName != "Unknown"
  {
    var gcs := Val(data, "gcs");
    var e :=
      if gcs != "" then
        (if Contains(gcs, "G1") then "Consent Granted" else if Contains(gcs, "G0") then "Consent Denied" else "Consent State Change",
         "Consent Update")
      else if Val(data, "gdpr") != "" then ("GDPR Compliance Check", "Privacy Compliance")
      else if Val(data, "dma") != "" then ("DMA Consent Processing", "Privacy Compliance")
      else ("Consent Collection", "Privacy Data Collection");
    assert Contains(gcs, "G1") ==> gcs != "";
    assert Contains(gcs, "G0") ==> gcs != "";
    Ids(Val(data, pixelIdKey), e.0, e.1)
  }

  /** The Taboola pixel id: the configured one, the publisher id from the
      path, or `<configured> (pub:<publisher>)` when both exist. */
  function TaboolaPixel(configured: string, path: string): (r: string)
    ensures TaboolaPublisher(path).None? ==> r == configured
    ensures TaboolaPublisher(path).Some? && configured == "" ==> r == TaboolaPublisher(path).value
    ensures TaboolaPublisher(path).Some? && configured != "" ==>
              r == configured + " (pub:" + TaboolaPublisher(path).value + ")"
  {
    match TaboolaPublisher(path)
    case Some(pub) => if configured == "" then pub else configured + " (pub:" + pub + ")"
    case None => configured
  }

  /** Taboola: the pixel id with its publisher, and the event from the path. */
  function TaboolaIds(pixelIdKey: string, data: Dict<string>): (r: Ids)
    ensures r.pixelId == TaboolaPixel(Val(data, pixelIdKey), PathOf(data))
    ensures r.eventType == "JSON Tracking" <==> Contains(PathOf(data), "/trc/") && Contains(PathOf(data), "/json")
    ensures r.eventName != "Unknown"
  {
    var path := PathOf(data);
    var e :=
      if Contains(path, "/trc/") then
        (if Contains(path, "/json") then ("Taboola Tracking Event", "JSON Tracking") else ("Taboola Pixel Fire", "Pixel Tracking"))
      else if Contains(path, "/actions/") then ("Taboola Action Event", "Action Tracking")
      else if Contains(path, "/libtrc/") then ("Taboola Library Load", "Library Loading")
      else ("Taboola Activity", "General Tracking");
    Ids(TaboolaPixel(Val(data, pixelIdKey), path), e.0, e.1)
  }

  /** A Taboola request on `/<digits>/...` with no configured id reports the
      digits as its pixel id. */
  lemma TaboolaPublisherPixel(pixelIdKey: string, data: Dict<string>, digits: string, rest: string)
    requires IsDigits(digits) && PathOf(data) == "/" + digits + "/" + rest && Val(data, pixelIdKey) == ""
    ensures TaboolaIds(pixelIdKey, data).pixelId == digits
  {
    PublisherOfPath(digits, rest);
  }

  const BannerPaths: seq<string> := ["/browser-ui/", "/otnotice/", "/cc.js", "/cs.js", "/uc.js"]
  const ApiPaths: seq<string> := ["/api/", "/consent/", "/groups/", "/choice.js"]
  const SettingsPaths: seq<string> := ["/settings/", "/latest/", "/scripttemplates/"]
  const PolicyPaths: seq<string> := ["/privacy-notice/", "/cookie-policy/"]

  /** Consent-management platforms: the provider from the host, the activity
      from the path. */
  function ConsentPlatformIds(pixelIdKey: string, data: Dict<string>): (r: Ids)
    ensures r.pixelId == Val(data, pixelIdKey)
    ensures StartsWith(r.eventName, CmpProvider(Val(data, "_request_host")) + " ")
    ensures r.eventName != "Unknown"
    ensures r.eventType == "Banner Display" <==> AnyIn(PathOf(data), BannerPaths)
  {
    var path := PathOf(data);
    var provider := CmpProvider(Val(data, "_request_host"));
    var e :=
      if AnyIn(path, BannerPaths) then ("Banner Load", "Banner Display")
      else if AnyIn(path, ApiPaths) then
        (if Contains(Lower(path), "consent") then ("Consent API", "Consent Processing")
         else if Contains(Lower(path), "settings") || Contains(Lower(path), "groups") then ("Settings Load", "Configuration")
         else ("API Request", "API Communication"))
      else if AnyIn(path, SettingsPaths) then ("Configuration", "Settings")
      else if AnyIn(path, PolicyPaths) then ("Policy Load", "Policy Display")
      else ("Activity", "Consent Management");
    var name := provider + " " + e.0;
    assert name[..|provider + " "|] == provider + " ";
    SpacedNotUnknown(name, |provider|);
    Ids(Val(data, pixelIdKey), name, e.1)
  }

  /** Microsoft Clarity: the project `id` and event type `t`, a missing or
      placeholder name becoming "session_collect". */
  function ClarityIds(data: Dict<string>): (r: Ids)
    ensures r.pixelId == Val(data, "id")
    ensures r.eventName != "" && r.eventName != "Unknown"
    ensures r.eventType == "Clarity Event"
  {
    var name := GetOr(data, "t", "clarity_event");
    Ids(Val(data, "id"), if name == "" || name == "Unknown" then "session_collect" else name, "Clarity Event")
  }
}
