/** `extract_platform_info` of every event handler: the extra lines a logged
    event carries, read from the raw parameters `data` or from `mapped`, the
    parameters renamed by the platform's parameter map. A missing or empty
    parameter contributes no line. */
module HandlerInfo {
  import opened Wrappers
  import opened Strings
  import opened Dicts
  import opened JsonValues
  import opened HandlerHelpers
  import opened Products
  import opened HandlerIds

  /** The line `<prefix><value>` when the value is non-empty. */
  function Line(d: Dict<string>, key: string, prefix: string): (r: seq<string>)
    ensures |r| == if Val(d, key) != "" then 1 else 0
    ensures |r| == 1 ==> r[0] == prefix + Val(d, key)
  {
    if Val(d, key) != "" then [prefix + Val(d, key)] else []
  }

  /** A line built from a non-empty value. */
  function LineOf(d: Dict<string>, key: string, text: string -> string): (r: seq<string>)
    ensures |r| == if Val(d, key) != "" then 1 else 0
    ensures |r| == 1 ==> r[0] == text(Val(d, key))
  {
    if Val(d, key) != "" then [text(Val(d, key))] else []
  }

  /** The base handler: value with currency, content name and ids, item count,
      order and page domain. */
  function BaseInfo(mapped: Dict<string>): (r: seq<string>)
    ensures |r| <= 6
    ensures Val(mapped, "value") != "" ==> |r| > 0 && r[0] == FormatValueCurrency(Val(mapped, "value"), Val(mapped, "currency"))
    ensures Val(mapped, "page_url") != "" ==> |r| > 0 && r[|r| - 1] == "domain: " + DomainOf(Val(mapped, "page_url"))
  {
    LineOf(mapped, "value", v => FormatValueCurrency(v, Val(mapped, "currency")))
    + LineOf(mapped, "content_name", v => "content: " + Truncate(v, 30))
    + LineOf(mapped, "content_ids", v => "ids: " + Take(v, 20))
    + Line(mapped, "num_items", "items: ")
    + Line(mapped, "order_id", "order: ")
    + LineOf(mapped, "page_url", v => "domain: " + DomainOf(v))
  }

  /** The experiments line: the number of `~`-separated experiment ids. */
  function ExperimentsLine(data: Dict<string>, key: string): (r: seq<string>)
    ensures |r| == if Val(data, key) != "" then 1 else 0
    ensures |r| == 1 ==> r[0] == "Experiments: " + NatToString(Occurrences(Val(data, key), '~') + 1)
  {
    LineOf(data, key, v => "Experiments: " + NatToString(ExperimentCount(v)))
  }

  /** A GA4 library load: container ids and the experiment count. */
  function LibraryInfo(data: Dict<string>): (r: seq<string>)
    ensures |r| <= 3
  {
    Line(data, "gtm", "GTM: ") + Line(data, "cx", "Container: ") + ExperimentsLine(data, "tag_exp")
  }

  /** A GA4 tag-diagnostics ping. */
  function DiagnosticsInfo(data: Dict<string>): (r: seq<string>)
    ensures |r| <= 8
    ensures Val(data, "dl") != "" ==> |r| > 0 && r[|r| - 1] == "Domain: " + DomainOf(Val(data, "dl"))
  {
    Line(data, "v", "Version: ") + Line(data, "t", "Type: ") + Line(data, "pid", "Page ID: ")
    + Line(data, "seq", "Sequence: ") + ExperimentsLine(data, "exp")
    + LineOf(data, "tdp", v => "Tag Data: " + Truncate(v, 20))
    + Line(data, "mbc", "MBC: ")
    + LineOf(data, "dl", v => "Domain: " + DomainOf(v))
  }

  function YesNo(flag: string): string {
    if flag == "1" then "Yes" else "No"
  }

  /** A consent-mode ping: consent state, GDPR and DMA flags, page domain. */
  function ConsentModeInfo(data: Dict<string>): (r: seq<string>)
    ensures |r| <= 7
    ensures Val(data, "gcs") != "" ==> |r| > 0 && r[0] == "GCS: " + Val(data, "gcs")
  {
    Line(data, "gcs", "GCS: ")
    + LineOf(data, "gdpr", v => "GDPR: " + YesNo(v))
    + LineOf(data, "gdpr_consent", v => "Consent: " + Truncate(v, 10))
    + LineOf(data, "npa", v => "Non-Personalized: " + YesNo(v))
    + Line(data, "dma", "DMA: ")
    + Line(data, "dma_cps", "DMA-CPS: ")
    + LineOf(data, "dl", v => "Domain: " + DomainOf(v))
  }

  /** The event parameters a GA4 event line shows, with their display names. */
  const EventParams: seq<(string, string)> := [
    ("gcs", "GCS"), ("ep.decision_id", "decision_id"), ("ep.slot_id", "slot_id"),
    ("ep.item_name", "item_name"), ("ep.type", "type"), ("ep.hostname", "hostname"),
    ("ep.dy_user", "dy_user"), ("ep.dy_session", "dy_session")
  ]

  /** The line of one event parameter: the consent state whole, any other
      value truncated to 50 characters. */
  function ParamLine(data: Dict<string>, param: (string, string)): (r: seq<string>)
    ensures |r| == if Val(data, param.0) != "" then 1 else 0
    ensures |r| == 1 && (param.0 == "gcs" || |Val(data, param.0)| <= 50) ==> r[0] == param.1 + ": " + Val(data, param.0)
    ensures |r| == 1 && param.0 != "gcs" && |Val(data, param.0)| > 50 ==>
              r[0] == param.1 + ": " + Val(data, param.0)[..50] + "..."
  {
    var v := Val(data, param.0);
    if v == "" then [] else [param.1 + ": " + (if param.0 == "gcs" then v else Truncate(v, 50))]
  }

  /** The lines of the present event parameters, in table order. */
  function EventParamLines(data: Dict<string>, params: seq<(string, string)>): (r: seq<string>)
    ensures |r| <= |params|
  {
    if |params| == 0 then []
    else EventParamLines(data, params[..|params| - 1]) + ParamLine(data, params[|params| - 1])
  }

  /** The event-parameter lines are exactly the lines of the present
      parameters: each present parameter has its line, and every line is the
      line of a present parameter. */
  lemma {:induction false} EventParamLinesExact(data: Dict<string>, params: seq<(string, string)>)
    ensures forall i | 0 <= i < |params| && Val(data, params[i].0) != "" ::
              ParamLine(data, params[i])[0] in EventParamLines(data, params)
    ensures forall j | 0 <= j < |EventParamLines(data, params)| ::
              exists i | 0 <= i < |params| ::
                Val(data, params[i].0) != "" && EventParamLines(data, params)[j] == ParamLine(data, params[i])[0]
    decreases |params|
  {
    if |params| > 0 {
      var init := params[..|params| - 1];
      var prev := EventParamLines(data, init);
      var r := EventParamLines(data, params);
      EventParamLinesExact(data, init);
      assert r == prev + ParamLine(data, params[|params| - 1]);
      forall i | 0 <= i < |params| && Val(data, params[i].0) != ""
        ensures ParamLine(data, params[i])[0] in r
      {
        if i < |init| {
          assert init[i] == params[i];
          assert ParamLine(data, init[i])[0] in prev;
        }
      }
      forall j | 0 <= j < |r|
        ensures exists i | 0 <= i < |params| :: Val(data, params[i].0) != "" && r[j] == ParamLine(data, params[i])[0]
      {
        if j < |prev| {
          assert r[j] == prev[j];
          var i :| 0 <= i < |init| && Val(data, init[i].0) != "" && prev[j] == ParamLine(data, init[i])[0];
          assert init[i] == params[i];
        } else {
          assert r[j] == ParamLine(data, params[|params| - 1])[0];
        }
      }
    } else {
      assert EventParamLines(data, params) == [];
    }
  }

  /** The first present parameter gives the first line. */
  lemma {:induction false} FirstParamLine(data: Dict<string>, params: seq<(string, string)>)
    requires |params| > 0 && Val(data, params[0].0) != ""
    ensures |EventParamLines(data, params)| > 0
    ensures EventParamLines(data, params)[0] == ParamLine(data, params[0])[0]
    decreases |params|
  {
    if |params| > 1 {
      var init := params[..|params| - 1];
      assert init[0] == params[0];
      FirstParamLine(data, init);
    } else {
      assert params[..0] == [];
    }
  }

  /** A GA4 event with a consent state lists it first and untruncated. */
  lemma ConsentStateFirst(data: Dict<string>)
    requires Val(data, "gcs") != ""
    ensures |Ga4EventInfo(data)| > 0 && Ga4EventInfo(data)[0] == "GCS: " + Val(data, "gcs")
  {
    var params := EventParams;
    assert params[0] == ("gcs", "GCS");
    FirstParamLine(data, params);
    assert "GCS" + ": " == "GCS: ";
    assert ParamLine(data, params[0]) == ["GCS: " + Val(data, "gcs")];
  }

  /** A GA4 analytics event: its event parameters, then its products. */
  function Ga4EventInfo(data: Dict<string>): (r: seq<string>)
    ensures |r| <= |EventParams| + 1
    ensures var lines := EventParamLines(data, EventParams);
      |r| == |lines| + (if |ParseProducts(data)| > 0 then 1 else 0) && r[..|lines|] == lines
    ensures |ParseProducts(data)| > 0 ==> r[|r| - 1] == ProductSummary(ParseProducts(data), Val(data, "en"))[0]
  {
    EventParamLines(data, EventParams) + ProductSummary(ParseProducts(data), Val(data, "en"))
  }

  /** `_extract_ga4_event_info`: the parameter loop, then the product line. */
  method ExtractGa4EventInfo(data: Dict<string>) returns (info: seq<string>)
    ensures info == Ga4EventInfo(data)
  {
    info := [];
    for i := 0 to |EventParams|
      invariant info == EventParamLines(data, EventParams[..i])
    {
      info := AddParamLine(data, EventParams, i, info);
    }
    assert EventParams[..|EventParams|] == EventParams;
    var products := ParseProductData(data);
    info := info + ProductSummary(products, Val(data, "en"));
  }

  /** One iteration of the parameter loop: the line of parameter `i`, if any,
      is appended. */
  method AddParamLine(data: Dict<string>, params: seq<(string, string)>, i: nat, info: seq<string>) returns (next: seq<string>)
    requires i < |params| && info == EventParamLines(data, params[..i])
    ensures next == EventParamLines(data, params[..i + 1])
  {
    assert params[..i + 1][..i] == params[..i];
    var (key, display) := params[i];
    var value := Val(data, key);
    next := info;
    if value != "" {
      if key == "gcs" {
        next := info + [display + ": " + value];
      } else {
        next := info + [display + ": " + Truncate(value, 50)];
      }
    }
  }

  /** GA4: library loads and tag diagnostics by event name, consent-mode
      pings by path, analytics events otherwise. */
  function Ga4Info(data: Dict<string>, eventName: string): (r: seq<string>)
    ensures eventName == "gtag_library_load" ==> r == LibraryInfo(data)
    ensures eventName == "tag_diagnostics" ==> r == DiagnosticsInfo(data)
  {
    if eventName == "gtag_library_load" then LibraryInfo(data)
    else if eventName == "tag_diagnostics" then DiagnosticsInfo(data)
    else if Contains(PathOf(data), "ccm/collect") then ConsentModeInfo(data)
    else Ga4EventInfo(data)
  }

  /** Server-side GTM: as GA4, with its own library-load name and no
      tag diagnostics. */
  function ServerGtmInfo(data: Dict<string>, eventName: string): (r: seq<string>)
    ensures eventName == "gtag_library_load (sGTM)" ==> r == LibraryInfo(data)
  {
    if eventName == "gtag_library_load (sGTM)" then LibraryInfo(data)
    else if Contains(PathOf(data), "ccm/collect") then ConsentModeInfo(data)
    else Ga4EventInfo(data)
  }

  /** Apart from library loads and tag diagnostics, server-side GTM reports
      what GA4 reports. */
  lemma ServerGtmLikeGa4(data: Dict<string>, eventName: string)
    requires eventName !in {"gtag_library_load", "gtag_library_load (sGTM)", "tag_diagnostics"}
    ensures ServerGtmInfo(data, eventName) == Ga4Info(data, eventName)
  {
  }

  /** The ids a `content_ids` list shows: its first three, each cut to 10
      characters. */
  function ShownIds(items: seq<Json>): (r: seq<string>)
    ensures |r| == if |items| < 3 then |items| else 3
    ensures forall k | 0 <= k < |r| :: r[k] == Take(Str(items[k]), 10)
  {
    var shown := Take3(items);
    seq(|shown|, k requires 0 <= k < |shown| => Take(Str(shown[k]), 10))
  }

  /** How a Facebook `content_ids` value is shown: a JSON list by its first
      three ids (each cut to 10 characters), anything else that is not
      bracketed, or that does not decode, by its first 20 characters;
      a bracketed value decoding to anything else gives no line. */
  function ContentIdsLines(value: string, loads: string -> Option<Json>): (r: seq<string>)
    ensures |r| <= 1
    ensures StartsWith(value, "[") && EndsWith(value, "]") && loads(value).Some? && loads(value).value.JArr? &&
              |loads(value).value.items| > 0 ==>
              r == ["ids: " + Join(ShownIds(loads(value).value.items), ", ")]
    ensures !(StartsWith(value, "[") && EndsWith(value, "]")) ==> r == ["id: " + Take(value, 20)]
    ensures StartsWith(value, "[") && EndsWith(value, "]") && loads(value).None? ==> r == ["id: " + Take(value, 20)]
    ensures |r| == 0 <==> StartsWith(value, "[") && EndsWith(value, "]") && loads(value).Some? &&
                          !(loads(value).value.JArr? && |loads(value).value.items| > 0)
  {
    if StartsWith(value, "[") && EndsWith(value, "]") then
      match loads(value)
      case None => ["id: " + Take(value, 20)]
      case Some(j) =>
        if j.JArr? && |j.items| > 0 then ["ids: " + Join(ShownIds(j.items), ", ")]
        else []
    else ["id: " + Take(value, 20)]
  }

  /** Facebook: content, category, value, content ids and item count. */
  function FacebookInfo(mapped: Dict<string>, loads: string -> Option<Json>): (r: seq<string>)
    ensures |r| <= 5
    ensures Val(mapped, "content_name") != "" ==> |r| > 0 && r[0] == "content: " + Truncate(Val(mapped, "content_name"), 30)
  {
    LineOf(mapped, "content_name", v => "content: " + Truncate(v, 30))
    + Line(mapped, "content_category", "category: ")
    + LineOf(mapped, "value", v => FormatValueCurrency(v, Val(mapped, "currency")))
    + (if Val(mapped, "content_ids") != "" then ContentIdsLines(Val(mapped, "content_ids"), loads) else [])
    + Line(mapped, "num_items", "items: ")
  }

  /** Google Ads: conversion label and consent state. */
  function GoogleAdsInfo(mapped: Dict<string>): (r: seq<string>)
    ensures |r| <= 2
    ensures Val(mapped, "conversion_label") != "" ==> |r| > 0 && r[0] == "label: " + Val(mapped, "conversion_label")
  {
    Line(mapped, "conversion_label", "label: ") + Line(mapped, "consent_state", "gcs: ")
  }

  /** What a LinkedIn collect request is used for, from its event name. */
  function LinkedInUsage(eventName: string): string {
    if Contains(eventName, "GTM") then "usage: base pixel tag"
    else if Contains(eventName, "Custom Event") then "usage: custom trigger"
    else if Contains(eventName, "Conversion") then "usage: conversion trigger"
    else "usage: audience building"
  }

  /** The LinkedIn lines that depend on the request path: format, timing and
      usage for collect requests, a fixed description for attribution
      triggers, nothing otherwise. */
  function LinkedInPathLines(path: string, mapped: Dict<string>, eventName: string): (r: seq<string>)
    ensures Contains(path, "/collect") ==>
              |r| >= 2 && r[|r| - 2] == "timing: page load" && r[|r| - 1] == LinkedInUsage(eventName)
    ensures !Contains(path, "/collect") && Contains(path, "/attribution_trigger") ==>
              r == ["type: conversion attribution", "timing: user conversion", "style: beacon-only"]
    ensures !Contains(path, "/collect") && !Contains(path, "/attribution_trigger") ==> r == []
  {
    if Contains(path, "/collect") then Line(mapped, "format", "format: ") + ["timing: page load", LinkedInUsage(eventName)]
    else if Contains(path, "/attribution_trigger") then
      ["type: conversion attribution", "timing: user conversion", "style: beacon-only"]
    else []
  }

  /** LinkedIn: the path-specific lines, then value, order, page domain and
      the LinkedIn ids. */
  function LinkedInInfo(data: Dict<string>, mapped: Dict<string>, eventName: string): (r: seq<string>)
    ensures var head := LinkedInPathLines(PathOf(data), mapped, eventName);
      |head| <= |r| <= |head| + 6 && r[..|head|] == head
    ensures var head := LinkedInPathLines(PathOf(data), mapped, eventName);
      Val(mapped, "value") != "" ==> |r| > |head| && r[|head|] == FormatValueCurrency(Val(mapped, "value"), Val(mapped, "currency"))
    ensures Val(mapped, "order_id") != "" ==> "order: " + Val(mapped, "order_id") in r
    ensures Val(mapped, "page_url") != "" ==> "domain: " + LinkedInDomainOf(Val(mapped, "page_url")) in r
    ensures Val(mapped, "partner_id") != "" ==> "partner: " + Val(mapped, "partner_id") in r
    ensures Val(mapped, "conversion_id") != "" ==> "conversion: " + Val(mapped, "conversion_id") in r
    ensures Val(mapped, "li_fat_id") != "" ==> |r| > 0 && r[|r| - 1] == "fat_id: " + Val(mapped, "li_fat_id")
  {
    var head := LinkedInPathLines(PathOf(data), mapped, eventName);
    var value := LineOf(mapped, "value", v => FormatValueCurrency(v, Val(mapped, "currency")));
    var ids := Line(mapped, "partner_id", "partner: ") + Line(mapped, "conversion_id", "conversion: ")
               + Line(mapped, "li_fat_id", "fat_id: ");
    var tail := value + Line(mapped, "order_id", "order: ")
                + LineOf(mapped, "page_url", v => "domain: " + LinkedInDomainOf(v)) + ids;
    assert (head + tail)[..|head|] == head;
    assert |value| > 0 ==> (head + tail)[|head|] == value[0];
    head + tail
  }

  /** Microsoft UET: goal value with currency, revenue and page domain. */
  function BingInfo(mapped: Dict<string>): (r: seq<string>)
    ensures |r| <= 3
    ensures Val(mapped, "goal_value") != "" ==>
              |r| > 0 && r[0] == FormatValueCurrency(Val(mapped, "goal_value"), Val(mapped, "goal_currency"))
  {
    LineOf(mapped, "goal_value", v => FormatValueCurrency(v, Val(mapped, "goal_currency")))
    + Line(mapped, "revenue", "revenue: ")
    + LineOf(mapped, "page_url", v => "domain: " + DomainOf(v))
  }

  /** Python sequencing of two steps that may raise: the first exception
      ends the computation, otherwise the lines are concatenated. */
  function Then(a: Result<seq<string>>, b: Result<seq<string>>): (r: Result<seq<string>>)
    ensures a.Raise? ==> r == a
    ensures a.Ok? && b.Raise? ==> r == b
    ensures a.Ok? && b.Ok? ==> r == Ok(a.value + b.value)
  {
    match a
    case Raise(e) => Raise(e)
    case Ok(x) => (match b case Raise(e) => Raise(e) case Ok(y) => Ok(x + y))
  }

  /** The domain of a decoded `u` member: a string is cut as a URL; any other
      value holding "//" has no `split` and raises AttributeError; a value
      without `in` raises TypeError; otherwise the value is shown whole. */
  function PayloadDomain(u: Json): (r: Result<string>)
    ensures u.JStr? ==> r == Ok(DomainOf(u.s))
    ensures r.Raise? ==> r.exc != KeyError
  {
    match HasIn(u, "//")
    case Raise(e) => Raise(e)
    case Ok(true) => if u.JStr? then Ok(DomainOf(u.s)) else Raise(AttributeError)
    case Ok(false) => Ok(Str(u))
  }

  /** `label + str(j[key])` when `key in j`. */
  function MemberLine(j: Json, key: string, prefix: string): (r: Result<seq<string>>)
    ensures j.JObj? && Lookup(j.members, key).Some? ==> r == Ok([prefix + Str(Lookup(j.members, key).value)])
    ensures j.JObj? && Lookup(j.members, key).None? ==> r == Ok([])
    ensures HasIn(j, key) == Ok(false) ==> r == Ok([])
    ensures !j.JObj? && HasIn(j, key) != Ok(false) ==> r == Raise(TypeError)
  {
    match HasIn(j, key)
    case Raise(e) => Raise(e)
    case Ok(false) => Ok([])
    case Ok(true) =>
      match Subscript(j, key)
      case Raise(e) => Raise(e)
      case Ok(v) => Ok([prefix + Str(v)])
  }

  /** The page domain of a decoded payload. */
  function PayloadUrl(j: Json): (r: Result<seq<string>>)
    ensures j.JObj? && Lookup(j.members, "u").Some? && Lookup(j.members, "u").value.JStr? ==>
              r == Ok(["domain: " + DomainOf(Lookup(j.members, "u").value.s)])
    ensures j.JObj? && Lookup(j.members, "u").None? ==> r == Ok([])
    ensures r.Raise? ==> r.exc != KeyError
  {
    match HasIn(j, "u")
    case Raise(e) => Raise(e)
    case Ok(false) => Ok([])
    case Ok(true) =>
      match Subscript(j, "u")
      case Raise(e) => Raise(e)
      case Ok(u) =>
        match PayloadDomain(u)
        case Raise(e) => Raise(e)
        case Ok(d) => Ok(["domain: " + d])
  }

  /** The event name and type of a decoded payload's `mpvd` object. */
  function PayloadEvent(j: Json): (r: Result<seq<string>>)
    ensures j.JObj? && (Lookup(j.members, "mpvd").None? || !Lookup(j.members, "mpvd").value.JObj?) ==> r == Ok([])
    ensures j.JObj? && Lookup(j.members, "mpvd").Some? && Lookup(j.members, "mpvd").value.JObj? ==>
              var m := Lookup(j.members, "mpvd").value.members;
              r.Ok? && |r.value| == (if Lookup(m, "en").Some? then 1 else 0) + (if Lookup(m, "it").Some? then 1 else 0) &&
              (Lookup(m, "en").Some? ==> r.value[0] == "event: " + Str(Lookup(m, "en").value)) &&
              (Lookup(m, "it").Some? ==> r.value[|r.value| - 1] == "type: " + Str(Lookup(m, "it").value))
    ensures HasIn(j, "mpvd") == Ok(false) ==> r == Ok([])
    ensures !j.JObj? && HasIn(j, "mpvd") != Ok(false) ==> r == Raise(TypeError)
  {
    match HasIn(j, "mpvd")
    case Raise(e) => Raise(e)
    case Ok(false) => Ok([])
    case Ok(true) =>
      match Subscript(j, "mpvd")
      case Raise(e) => Raise(e)
      case Ok(m) =>
        if m.JObj? then
          Ok((match Lookup(m.members, "en") case Some(v) => ["event: " + Str(v)] case None => [])
             + (match Lookup(m.members, "it") case Some(v) => ["type: " + Str(v)] case None => []))
        else Ok([])
  }

  /** The lines of a decoded Taboola payload. It cannot raise KeyError, the
      only exception besides a decoding error that the source catches; a
      payload that is not a dict, list or string raises TypeError, and a dict
      whose `u` is absent or a string does not raise. */
  function TaboolaPayload(j: Json): (r: Result<seq<string>>)
    ensures r.Raise? ==> r.exc != KeyError
    ensures !(j.JObj? || j.JArr? || j.JStr?) ==> r == Raise(TypeError)
    ensures j.JObj? && (Lookup(j.members, "u").None? || Lookup(j.members, "u").value.JStr?) ==> r.Ok?
  {
    var url := PayloadUrl(j);
    var cv := MemberLine(j, "cv", "version: ");
    var cbp := MemberLine(j, "cbp", "cmp: ");
    var event := PayloadEvent(j);
    Then(url, Then(cv, Then(cbp, event)))
  }

  /** A dict payload whose `u` is absent or a string: the page domain comes
      first, the version and CMP lines follow when present, and the `mpvd`
      event and type lines end the list. */
  lemma TaboolaPayloadDict(j: Json)
    requires j.JObj? && (Lookup(j.members, "u").None? || Lookup(j.members, "u").value.JStr?)
    ensures TaboolaPayload(j).Ok?
    ensures var lines := TaboolaPayload(j).value;
      (Lookup(j.members, "u").Some? ==> |lines| > 0 && lines[0] == "domain: " + DomainOf(Lookup(j.members, "u").value.s)) &&
      (Lookup(j.members, "cv").Some? ==> "version: " + Str(Lookup(j.members, "cv").value) in lines) &&
      (Lookup(j.members, "cbp").Some? ==> "cmp: " + Str(Lookup(j.members, "cbp").value) in lines)
    ensures var lines := TaboolaPayload(j).value;
      Lookup(j.members, "mpvd").Some? && Lookup(j.members, "mpvd").value.JObj? ==>
        var m := Lookup(j.members, "mpvd").value.members;
        (Lookup(m, "en").Some? ==> "event: " + Str(Lookup(m, "en").value) in lines) &&
        (Lookup(m, "it").Some? ==> |lines| > 0 && lines[|lines| - 1] == "type: " + Str(Lookup(m, "it").value))
  {
    var url := PayloadUrl(j).value;
    var cv := MemberLine(j, "cv", "version: ").value;
    var cbp := MemberLine(j, "cbp", "cmp: ").value;
    var event := PayloadEvent(j).value;
    assert TaboolaPayload(j).value == url + (cv + (cbp + event));
  }

  /** A list or string payload gives no line when none of the four keys is
      `in` it; otherwise subscripting it by a key raises TypeError. */
  lemma TaboolaPayloadNotDict(j: Json)
    requires j.JArr? || j.JStr?
    ensures TaboolaPayload(j) ==
            if HasIn(j, "u") == Ok(false) && HasIn(j, "cv") == Ok(false) && HasIn(j, "cbp") == Ok(false) &&
               HasIn(j, "mpvd") == Ok(false)
            then Ok([]) else Raise(TypeError)
  {
    assert PayloadUrl(j) == if HasIn(j, "u") == Ok(false) then Ok([]) else Raise(TypeError);
    assert PayloadEvent(j) == if HasIn(j, "mpvd") == Ok(false) then Ok([]) else Raise(TypeError);
    var none: seq<string> := [];
    assert none + none == none;
  }

  /** The value and page-domain lines that close the Taboola lines. */
  function ValueDomainLines(mapped: Dict<string>): (r: seq<string>)
    ensures |r| == (if Val(mapped, "value") != "" then 1 else 0) + (if Val(mapped, "page_url") != "" then 1 else 0)
    ensures Val(mapped, "value") != "" ==> r[0] == FormatValueCurrency(Val(mapped, "value"), Val(mapped, "currency"))
    ensures Val(mapped, "page_url") != "" ==> r[|r| - 1] == "domain: " + DomainOf(Val(mapped, "page_url"))
  {
    LineOf(mapped, "value", v => FormatValueCurrency(v, Val(mapped, "currency")))
    + LineOf(mapped, "page_url", v => "domain: " + DomainOf(v))
  }

  /** Taboola: the decoded `data` payload's lines, then value and page
      domain. A `data` value that does not decode contributes no line; an
      exception from the payload escapes. */
  function TaboolaInfo(data: Dict<string>, mapped: Dict<string>, loads: string -> Option<Json>): (r: Result<seq<string>>)
    ensures r.Raise? ==> r.exc != KeyError
    ensures Val(data, "data") == "" || loads(Unquote(Val(data, "data"))).None? ==> r == Ok(ValueDomainLines(mapped))
    ensures Val(data, "data") != "" && loads(Unquote(Val(data, "data"))).Some? ==>
              var payload := TaboolaPayload(loads(Unquote(Val(data, "data"))).value);
              (payload.Raise? ==> r == payload) && (payload.Ok? ==> r == Ok(payload.value + ValueDomainLines(mapped)))
  {
    var payload :=
      if Val(data, "data") != "" then
        match loads(Unquote(Val(data, "data")))
        case None => Ok([])
        case Some(j) => TaboolaPayload(j)
      else Ok([]);
    assert [] + ValueDomainLines(mapped) == ValueDomainLines(mapped);
    Then(payload, Ok(ValueDomainLines(mapped)))
  }

  /** A consent platform's `services`: the length of a bracketed value that
      decodes to something with a length, or else the first 20 characters. */
  function ServicesLine(value: string, loads: string -> Option<Json>): (r: string)
    ensures !(StartsWith(value, "[") && EndsWith(value, "]")) ==> r == "services: " + Take(value, 20)
    ensures StartsWith(value, "[") && EndsWith(value, "]") && loads(value).Some? && loads(value).value.JArr? ==>
              r == "services: " + NatToString(|loads(value).value.items|)
    ensures StartsWith(value, "[") && EndsWith(value, "]") && loads(value).Some? && Len(loads(value).value).Ok? ==>
              r == "services: " + NatToString(Len(loads(value).value).value)
    ensures StartsWith(value, "[") && EndsWith(value, "]") && (loads(value).None? || Len(loads(value).value).Raise?) ==>
              r == "services: " + Take(value, 20)
  {
    if StartsWith(value, "[") && EndsWith(value, "]") then
      match loads(value)
      case Some(j) => (match Len(j) case Ok(n) => "services: " + NatToString(n) case Raise(_) => "services: " + Take(value, 20))
      case None => "services: " + Take(value, 20)
    else "services: " + Take(value, 20)
  }

  /** Consent-management platforms: version, locale, ids, services, consent
      data and controller. */
  function ConsentPlatformInfo(mapped: Dict<string>, loads: string -> Option<Json>): (r: seq<string>)
    ensures |r| <= 12
    ensures Val(mapped, "version") != "" ==> |r| > 0 && r[0] == "version: " + Val(mapped, "version")
  {
    Line(mapped, "version", "version: ") + Line(mapped, "language", "lang: ") + Line(mapped, "location", "location: ")
    + Line(mapped, "group_id", "group: ") + Line(mapped, "domain_id", "domain: ")
    + Line(mapped, "website_id", "site: ") + Line(mapped, "cookiebot_id", "cbid: ")
    + LineOf(mapped, "services", v => ServicesLine(v, loads))
    + LineOf(mapped, "consent_data", v => "consent: " + Take(v, 15) + "...")
    + Line(mapped, "consent_id", "consent_id: ")
    + Line(mapped, "controller_id", "controller: ") + Line(mapped, "settings_id", "settings: ")
  }

  /** Microsoft Clarity, from the raw parameters: session and user ids cut to
      12 characters, timestamp, page and referrer domains. */
  function ClarityInfo(data: Dict<string>): (r: seq<string>)
    ensures |r| <= 5
    ensures Val(data, "sid") != "" ==> |r| > 0 && r[0] == "session: " + Take(Val(data, "sid"), 12) + "..."
  {
    LineOf(data, "sid", v => "session: " + Take(v, 12) + "...")
    + LineOf(data, "uid", v => "user: " + Take(v, 12) + "...")
    + Line(data, "ts", "timestamp: ")
    + LineOf(data, "url", v => "domain: " + DomainOf(v))
    + LineOf(data, "referrer", v => "referrer: " + DomainOf(v))
  }
}
