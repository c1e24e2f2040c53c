# GA4 + marketing pixel logger — detection and normalisation engine

A model of the core of the GA4 + Marketing Pixel Logger, an intercepting-proxy
addon that watches HTTP traffic for analytics and marketing tracking requests.
For every request it decides whether the request is tracking traffic, detects
which platform sent it (GA4, server-side GTM, Facebook, Google Ads, Floodlight,
LinkedIn, Bing, Taboola, consent platforms, Clarity and the others of the
platform registry), extracts one parameter dict or one dict per batched event
from the query string, form body or JSON body, and turns each dict into a
structured log record through the platform's handler. For every response it
logs a status record that carries the same request hash as the request's
records, and a cookie record when the response sets cookies.

The platform registry comes from the configuration loader: dotted lookups into
the loaded configuration, and the accessors that build the host and path sets,
the parameter maps and the UI maps of the platforms.

The model is split along the program's structure:

- `ConfigLoading` — the configuration loader and its registry accessors;
- `Scoring` — the server-side GTM confidence scorer;
- `Detection` — tracking-request recognition and platform detection, with the
  detector's cache as a class field;
- `Extraction` — `_extract_request_data`: query, form and JSON bodies, batches;
- `HandlerHelpers`, `Products`, `Floodlight`, `HandlerIds`, `HandlerInfo`,
  `Handlers` — the platform event handlers: identifiers and info lines;
- `Formatter` — pixel-id formatting;
- `Records`, `Builder` — log records and `process_marketing_pixel_event`;
- `Responses` — response status records and cookie records;
- `CookieExamples` — what the cookie record makes of a header
  `name=value; HttpOnly; Secure; SameSite=s`, and of one concrete such header;
- `Pipeline` — the request and response hooks;
- `Wrappers`, `Strings`, `Dicts`, `JsonValues` — Python's exceptions, string
  operations, insertion-ordered dicts and decoded JSON values.

## Model

| member | source | states |
|---|---|---|
| `ConfigLoading.WalkNonDict` | config_loader.py:52-56 | a dotted lookup that reaches a non-dict before its keys run out returns the default |
| `ConfigLoading.GetDotless` | config_loader.py:49-58 | a key without a dot is one lookup in the top-level dict, and the default when that key is absent or the config is not a dict |
| `ConfigLoading.GetDotted` | config_loader.py:49-58 | `a.rest` is the lookup of `a` followed by the lookup of `rest` from there, and the default when `a` is missing |
| `ConfigLoading.NestedIsDotted` | config_loader.py:105-111 | `get_all_platform_configs()` followed by a walk of the platform name is the dotted lookup `platformConfigs.<platform>` |
| `ConfigLoading.PlatformConfigDotless` | config_loader.py:105-107 | for a platform name without a dot, `get_platform_config` is that platform's entry in `platformConfigs`, or `{}` when it has none |
| `ConfigLoading.DictGet` | config_loader.py:62 | `d.get(key, default)` raises AttributeError exactly when `d` is not a dict |
| `ConfigLoading.Section` | config_loader.py:60-82 | a top-level section getter gives `{}` for a section the config lacks |
| `ConfigLoading.UiValue` | config_loader.py:84-103 | the single-platform icon, highlight-class and colour getters give the default for an empty platform config and for one without `ui` |
| `ConfigLoading.UiEntry` | config_loader.py:131-159 | one entry of an icon, highlight-class or colour map is the default when the platform config has no `ui` |
| `ConfigLoading.UiMapExact` | config_loader.py:131-159 | a UI map that completes has the platforms as keys in `platformConfigs` order, and maps each platform to the entry of its own config |
| `ConfigLoading.UiMapLast` | config_loader.py:131-159 | a map that was built is the earlier platforms' map with the last platform's entry put on top |
| `ConfigLoading.UiMapStep` | config_loader.py:131-159 | adding the last platform puts its entry under a new key after the others and leaves every earlier platform's entry as it was |
| `ConfigLoading.UiEntryAgreesWithGetter` | config_loader.py:84-103 | for a dot-free platform with a dict config, the map entry equals what the single-platform getter returns |
| `ConfigLoading.Members` | config_loader.py:117-129 | the strings that `set.update` adds for a list are exactly the list's strings |
| `ConfigLoading.FieldMembers` | config_loader.py:121 | a platform config without the field adds nothing to the union |
| `ConfigLoading.UnionExact` | config_loader.py:117-129 | a union that completes holds a string exactly when some platform's field holds it, and every platform's field was read without error |
| `ConfigLoading.UnionRaiseWitness` | config_loader.py:117-129 | a union that raises has a platform whose field raised |
| `ConfigLoading.UnionRaiseStays` | config_loader.py:120-121 | once the union has raised, the later platforms change nothing |
| `ConfigLoading.TextField` | config_loader.py:245-250 | a missing named-tuple text field takes its default, and a string field keeps its value |
| `ConfigLoading.AsPlatformConfig` | config_loader.py:238-253 | an empty platform config gives `None`; a non-dict truthy config raises AttributeError; each missing field takes its default (`name` the platform, `pixelIdKey` "id", `eventNameKey` "event", empty map, hosts and paths) |
| `ConfigLoading.DottedPlatformMissing` | config_loader.py:238-243 | a platform name with a dot whose first segment is not a platform decodes to `None` |
| `ConfigLoading.DottedConfigEmpty` | config_loader.py:105-107 | the config of such a dotted name is `{}` |
| `ConfigLoading.PlatformNames` | config_loader.py:64-66 | `get_platforms()` succeeds exactly when `platformConfigs` is a dict, and lists its keys in order |
| `ConfigLoading.DecodeAllExact` | config_loader.py:255-262 | a registry fill that completes decoded every listed name, and maps a name to its decoded value exactly when the name is listed and decodes to one |
| `ConfigLoading.DecodeAllRaiseStays` | config_loader.py:258-261 | once a name has raised, the later names change nothing |
| `ConfigLoading.UiMapRaiseStays` | config_loader.py:134-138 | once a platform's UI entry has raised, the later platforms change nothing |
| `ConfigLoading.ConfigLoader.constructor` | config_loader.py:13-26 | the loader holds the configuration it was given |
| `ConfigLoading.ConfigLoader.Get` | config_loader.py:38-58 | the loop over the dotted segments returns the dotted lookup; a dot-free key gives the top-level value or the default |
| `ConfigLoading.ConfigLoader.AllOf` | config_loader.py:117-129 | the union raises exactly when `platformConfigs` is not a dict or some platform's field raises; otherwise it holds exactly the strings found in some platform's field |
| `ConfigLoading.ConfigLoader.AllHosts` | config_loader.py:117-122 | `get_all_hosts()` holds exactly the hosts listed by some platform |
| `ConfigLoading.ConfigLoader.AllPaths` | config_loader.py:124-129 | `get_all_paths()` holds exactly the paths listed by some platform |
| `ConfigLoading.ConfigLoader.UiMap` | config_loader.py:131-159 | an icon, highlight-class or colour map is the fill over `platformConfigs` in order, and raises AttributeError when `platformConfigs` is not a dict |
| `ConfigLoading.ConfigLoader.PlatformsDict` | config_loader.py:255-262 | raises when `get_platforms()` does; otherwise it maps a name to its named tuple exactly when the name is a platform whose config is non-empty |
| `ConfigLoading.UiMapEach` | config_loader.py:133-139 | the loop over the platforms computes the UI map fill |
| `ConfigLoading.UiMapNext` | config_loader.py:134-138 | one turn of that loop extends the fill by one platform |
| `ConfigLoading.UnionEach` | config_loader.py:119-122 | the loop over the platforms computes the union |
| `ConfigLoading.DecodeEach` | config_loader.py:257-262 | the loop over the platform names computes the registry fill |
| `ConfigLoading.DecodeNext` | config_loader.py:258-261 | one turn of that loop extends the fill by one name |
| `Scoring.Count` | ga4-logger.py:1337-1339 | `_count_matching_params` never exceeds the number of indicators |
| `Scoring.CountMono` | ga4-logger.py:1337-1339 | a request with more keys never matches fewer indicators |
| `Scoring.CountExact` | ga4-logger.py:1337-1339 | the count is the number of indicator positions holding a key of the request, so an indicator listed twice counts twice |
| `Scoring.StartsWithHead` | ga4-logger.py:1371 | a string that starts with a non-empty prefix starts with that prefix's first character |
| `Scoring.PlatformKeyParams` | ga4-logger.py:1345-1353 | `_get_platform_key_params` lists each platform's pixel-id key and then its event-name key, in registry order, duplicates kept |
| `Scoring.BasicDetection` | ga4-logger.py:1355-1364 | basic detection says server-side exactly when one of the seven indicator alternatives holds, with platform "Custom Tracking" and score 1, and otherwise "None" with score 0 |
| `Scoring.HasGtmContainer` | ga4-logger.py:1369-1373 | no `gtm` key means no container; a container signal needs a string `gtm` value |
| `Scoring.HasTrackingId` | ga4-logger.py:1375-1376 | no `tid` key means no tracking-id signal |
| `Scoring.HasTrackingIndicators` | ga4-logger.py:1302-1335 | the disjunction of the indicator groups and the per-platform pixel-id keys; `BasicDetection` states when it holds |
| `Scoring.Score` | ga4-logger.py:1390-1413 | the weighted sum of the thirteen sGTM signals; `ScoreBounds`, `ScoreMono` and `CalculateScore` bound it, make it monotone and compute it step by step |
| `Scoring.WeightedSumBounds` | ga4-logger.py:1390-1413 | the weighted sum of the 13 signals lies between 0 and 23 |
| `Scoring.PartsMono` | ga4-logger.py:1394-1411 | each of the three signal groups is monotone in its signals |
| `Scoring.WeightedSumMono` | ga4-logger.py:1390-1413 | turning signals on never lowers the weighted sum |
| `Scoring.ScoreBounds` | ga4-logger.py:1390-1413 | an sGTM score lies between 0 and 23 |
| `Scoring.HasAnyMono` | ga4-logger.py:1341-1343 | a request with more keys still has any indicator the smaller one had |
| `Scoring.ScoreMono` | ga4-logger.py:1390-1413 | more keys and stronger container and tracking-id signals never lower the score |
| `Scoring.CalculateScore` | ga4-logger.py:1390-1413 | adding the weights one signal at a time gives the weighted sum, between 0 and 23 |
| `Scoring.AddCoreSignals` | ga4-logger.py:1394-1399 | the core sGTM block adds the weights of the container, tracking-id, GA4, consent and server-GTM signals |
| `Scoring.AddEnhancedSignals` | ga4-logger.py:1401-1407 | the enhanced block adds the weights of the event, tracking, session, value, e-commerce and timestamp signals |
| `Scoring.AddLegacySignals` | ga4-logger.py:1409-1411 | the legacy block adds one for `en` with `cid` and one for `gcs` |
| `Scoring.AdvancedDetection` | ga4-logger.py:1366-1388 | the advanced verdict is server-side exactly from a score of 1 and sGTM exactly from a score of 3, "Custom Tracking" below; it raises exactly when the `gtm` or `tid` test raises |
| `Scoring.AddKeyNeverLowers` | ga4-logger.py:1366-1413 | adding a new parameter never lowers the advanced score |
| `Scoring.AbsentKeys` | ga4-logger.py:1337-1343 | indicators that are not keys count zero and match nothing |
| `Scoring.SingleKey` | ga4-logger.py:1341-1343 | the only key of a one-entry request is its key |
| `Scoring.LoneGtmContainer` | ga4-logger.py:1366-1413 | a lone `gtm=GTM-…` scores 6 and is judged sGTM |
| `Scoring.SignalsOfGtmOnly` | ga4-logger.py:1390-1413 | a request whose only key is `gtm`, with a container, scores 6 |
| `Scoring.EmptyParamsScoreZero` | ga4-logger.py:1366-1388 | no parameters score 0, reported as "Custom Tracking" and not server-side |
| `Scoring.BasicWithoutAdvanced` | ga4-logger.py:1302-1413 | `dl` and `dr` alone pass the basic check but score 0 in the advanced one |
| `Scoring.SignalsOfPageOnly` | ga4-logger.py:1390-1413 | a request whose only keys are `dl` and `dr` scores 0 |
| `Scoring.AdvancedWithoutBasic` | ga4-logger.py:1302-1388 | an 11-character `gtm` value alone is sGTM for the advanced score while the basic check misses it |
| `Scoring.GtmOnlyMissesBasic` | ga4-logger.py:1302-1335 | a request whose only key is `gtm` fails all seven basic alternatives when no platform keys on `gtm` |
| `Scoring.SharedPlatformKeyCountsTwice` | ga4-logger.py:1330-1333 | a pixel-id key shared by two platforms counts twice, so that key alone passes the basic check |
| `Scoring.CountAtLeastTwo` | ga4-logger.py:1337-1339 | two matching indicator positions count at least two |
| `Scoring.CountAtLeastOne` | ga4-logger.py:1337-1339 | one matching indicator position counts at least one |
| `Detection.OnlyPostBodies` | ga4-logger.py:1285-1286 | a request that is not a POST contributes only its query parameters |
| `Detection.JsonBodyUnflattened` | ga4-logger.py:1290-1293 | a JSON dict body is merged unflattened: each of its keys holds the decoded value, and every other key keeps its query value |
| `Detection.LookupKeyed` | ga4-logger.py:1293 | in a dict with distinct keys, a lookup finds the value stored under the key |
| `Detection.NestedFlatten` | ga4-logger.py:2133-2162 | the flattener turns `{"a": {"b": "x"}}` into the single key `a.b` |
| `Detection.DetectorKeepsNesting` | ga4-logger.py:1280-1300 | for a JSON POST of `{"a": {"b": "x"}}`, the detector's parameters hold the nested dict under `a` |
| `Detection.BuilderFlattens` | ga4-logger.py:2084-2131 | for the same body, the event data holds the flattened key `a.b` |
| `Detection.ExtractorsDiffer` | ga4-logger.py:1280-1300 | the detector and the event builder see the same JSON body differently: nested under `a` for one, flattened to `a.b` for the other |
| `Detection.Flow.constructor` | ga4-logger.py:1282-1283 | a fresh flow has no memoised parameters |
| `Detection.IsRegionalGa4` | ga4-logger.py:1204-1224 | a GA4 collect path on a host matching one of the two regional patterns; the `Regional*` lemmas give hosts on either side |
| `Detection.LowerRun` | ga4-logger.py:1219-1220 | `[a-z]*` matches exactly the leading lower-case letters |
| `Detection.DollarCore` | ga4-logger.py:1217-1224 | an anchored `$` ignores at most one trailing newline, so the matched host is never longer than the host |
| `Detection.RegionalByParts` | ga4-logger.py:1216-1224 | a `region\d+` or `[a-z]{2,5}\d*` label followed by either suffix is regional, with or without one trailing newline |
| `Detection.RegionalRegion1` | ga4-logger.py:1217 | `region1.analytics.google.com` is regional |
| `Detection.RegionalWww` | ga4-logger.py:1220 | `www.google-analytics.com` is regional too, since `www` is a short label |
| `Detection.RegionalTrailingNewline` | ga4-logger.py:1219 | a host with one trailing newline still matches |
| `Detection.NotRegionalBareRegion` | ga4-logger.py:1216-1224 | `region.analytics.google.com` is not regional: `region` has no digits and more than five letters |
| `Detection.FirstHostPath` | ga4-logger.py:1236-1241 | the first pass finds the first platform, in table order, that lists the host with a path prefixing the request path |
| `Detection.FirstHost` | ga4-logger.py:1243-1246 | the second pass finds the first platform, in table order, that lists the host |
| `Detection.StandardPlatform` | ga4-logger.py:1226-1249 | Taboola and GTM specials, then the first host-and-path match, then the first host match, then "Custom"; `StandardFirstPass`, `StandardSecondPass` and `StandardFallback` state each step |
| `Detection.StandardFirstPass` | ga4-logger.py:1226-1241 | outside the Taboola and GTM special cases, the first host-and-path match wins |
| `Detection.StandardSecondPass` | ga4-logger.py:1243-1246 | without any host-and-path match, the first platform listing the host wins |
| `Detection.StandardFallback` | ga4-logger.py:1248-1249 | a host no platform lists is "Custom Tracking"; otherwise the answer names a platform that lists the host |
| `Detection.HostsUpTo` | ga4-logger.py:1254-1256 | the collected known hosts are exactly the hosts some platform lists |
| `Detection.ServerSideCheck` | ga4-logger.py:1251-1278 | Taboola `/trc/` requests and listed hosts are never scored; an unlisted host is "sGTM" exactly from an advanced score of 3 and "Custom Tracking" exactly from a score of 1 or 2 |
| `Detection.Detect` | ga4-logger.py:1169-1202 | the uncached label: privacy sandbox, consent collection, regional GA4, server-side check, then the standard platforms; `DetectPriority` and `DetectWithoutFlow` state the order |
| `Detection.DetectPriority` | ga4-logger.py:1169-1202 | privacy sandbox paths win, then the consent module on the four Google hosts, then regional GA4; "sGTM" comes only from the registry or, with a flow, from a score of at least 3 on an unlisted host |
| `Detection.DetectWithoutFlow` | ga4-logger.py:1192-1202 | without a flow detection cannot raise, and after the three special cases it is the standard search |
| `Detection.FlowMattersOnlyForSgtm` | ga4-logger.py:1193-1197 | a server-side verdict other than "sGTM" leaves the answer what it is without a flow |
| `Detection.KnownHostIgnoresFlow` | ga4-logger.py:1262-1263 | for a listed host the flow changes nothing |
| `Detection.PlatformDetector.constructor` | ga4-logger.py:1166-1167 | a new detector has an empty cache |
| `Detection.PlatformDetector.GetAllParams` | ga4-logger.py:1280-1300 | the parameters returned are the request's parameters, and they are memoised on the flow |
| `Detection.PlatformDetector.CheckServerSideTracking` | ga4-logger.py:1251-1278 | the loop over the registry collects the known hosts, and the method returns the server-side verdict |
| `Detection.PlatformDetector.DetectStandardPlatform` | ga4-logger.py:1226-1249 | the two scans over the registry return the standard platform |
| `Detection.PlatformDetector.DetectPlatform` | ga4-logger.py:1169-1202 | a cached label is returned and the cache is unchanged; otherwise the priority chain decides, its label is stored under `host:path`, and a scoring error stores nothing |
| `Detection.PlatformDetector.ClearCache` | ga4-logger.py:1415-1422 | a cache of at most 200 entries is kept; a larger one keeps exactly its entries labelled with one of the five common platforms, with their labels |
| `Detection.PlatformDetector.IsServerSideTrackingRequest` | ga4-logger.py:1459-1471 | the answer is the basic indicator check on the request's parameters |
| `Detection.PlatformDetector.IsTrackingRequest` | ga4-logger.py:1424-1457 | a request is tracking when the basic check passes, or when a listed host has a tracking path that prefixes the path or loosely matches it |
| `Detection.TrackingRequest` | ga4-logger.py:1424-1457 | tracking when the request carries tracking indicators or its host and path match a registered tracking path; `RootTrackingPathMatchesAll` and `UnlistedHostNeedsIndicators` are its consequences |
| `Detection.FlexibleIsContainment` | ga4-logger.py:1441-1451 | the loose comparison is plain containment of the stripped tracking path in the stripped request path |
| `Detection.RootTrackingPathMatchesAll` | ga4-logger.py:1441-1451 | a tracking path of "/" makes every request to a listed host a tracking request |
| `Detection.UnlistedHostNeedsIndicators` | ga4-logger.py:1424-1457 | a host outside the tracked hosts is a tracking request only through the basic parameter check |
| `Detection.ServerSideGtm` | ga4-logger.py:1473-1490 | a registry without GA4 raises KeyError; GA4's hosts are never sGTM; a true answer needs an advanced score of at least 3 |
| `Extraction.Flatten` | ga4-logger.py:2133-2158 | dicts and lists are flattened member by member under dotted and indexed keys, scalars stored under the prefix or `value`; `FlattenJson`, `FlattenKeyed`, `FlattenUnderPrefix`, `FlattenTopArray`, `ItemPlaced` and `MemberPlaced` give its properties |
| `Extraction.FlattenJson` | ga4-logger.py:2133-2158 | the recursive walk computes the flattened parameters of the value under the prefix |
| `Extraction.FlattenObject` | ga4-logger.py:2137-2143 | the loop over a dict's members computes the parameters of all its members, in order |
| `Extraction.FlattenArray` | ga4-logger.py:2145-2151 | the loop over a list's elements computes the parameters of all its elements, in order |
| `Extraction.AddMember` | ga4-logger.py:2138-2143 | one member extends the parameters by that member's key or nested parameters |
| `Extraction.AddItem` | ga4-logger.py:2146-2151 | one element extends the parameters by that element's key or nested parameters |
| `Extraction.AddValue` | ga4-logger.py:2140-2143 | a container is flattened under its key and merged in; a scalar is assigned, `None` as the empty string |
| `Extraction.FlattenKeyed` | ga4-logger.py:2133-2158 | flattening never produces the same key twice |
| `Extraction.StepKeyed` | ga4-logger.py:2140-2143 | one step keeps the keys distinct |
| `Extraction.FlattenMembersKeyed` | ga4-logger.py:2137-2143 | the members of a dict flatten to distinct keys |
| `Extraction.FlattenItemsKeyed` | ga4-logger.py:2145-2151 | the elements of a list flatten to distinct keys |
| `Extraction.FlattenUnderPrefix` | ga4-logger.py:2139-2147 | under a non-empty prefix every flattened key starts with that prefix |
| `Extraction.PrefixOfExtension` | ga4-logger.py:2139 | a key starting with `prefix + rest` starts with `prefix` |
| `Extraction.StepUnderPrefix` | ga4-logger.py:2139-2143 | a key a step adds under `prefix + rest` starts with `prefix` |
| `Extraction.MembersUnderPrefix` | ga4-logger.py:2137-2143 | a key from a dict's members under a prefix starts with it |
| `Extraction.ItemsUnderPrefix` | ga4-logger.py:2145-2151 | a key from a list's elements under a prefix starts with it |
| `Extraction.FlattenEmpty` | ga4-logger.py:2137-2151 | an empty dict or list contributes no parameters |
| `Extraction.FlattenTopScalar` | ga4-logger.py:2153-2156 | a top-level scalar is stored under `value`, `None` as the empty string |
| `Extraction.ExampleFirstItem` | ga4-logger.py:2146-2151 | the first element of `[1, 2]` under `a.b` is `a.b[0]` = "1" |
| `Extraction.ExampleArray` | ga4-logger.py:2145-2151 | `[1, 2]` under `a.b` flattens to `a.b[0]` = "1" and `a.b[1]` = "2" |
| `Extraction.ExampleUpdate` | ga4-logger.py:2141 | merging those two keys into an empty dict keeps them in order |
| `Extraction.ExampleInner` | ga4-logger.py:2137-2141 | `{"b": [1, 2]}` under `a` flattens to `a.b[0]` and `a.b[1]` |
| `Extraction.FlattenNestedExample` | ga4-logger.py:2133-2158 | `{"a": {"b": [1, 2]}}` flattens to `a.b[0]` = "1" and `a.b[1]` = "2" |
| `Extraction.JsonEvent` | ga4-logger.py:1130-1160 | one GA4 JSON event becomes the URL parameters overlaid with the common fields, the name and the event parameters; `ProcessJsonEvent` and `JsonEventKeepsOtherKeys` state what it keeps |
| `Extraction.WithName` | ga4-logger.py:1146-1147 | an event dict without `name` is left alone and one with it gets `en`; a value that supports no `in` raises TypeError |
| `Extraction.ProcessJsonEvent` | ga4-logger.py:1130-1160 | the copy of the URL parameters, with the common fields, the name and the parameters assigned in, is the batch event; a registry without GA4 raises KeyError |
| `Extraction.CopyCommonFields` | ga4-logger.py:1137-1143 | the loop over the GA4 parameter map assigns every mapped field present in the body, `non_personalized_ads` as `npa` = "1" or "0" |
| `Extraction.AddCommonField` | ga4-logger.py:1138-1143 | one map entry assigns its field when the body has it |
| `Extraction.CopyParams` | ga4-logger.py:1149-1158 | the loop over the event's `params` assigns each under its GA4 name or `ep.<key>`, a list under an `ep.` key joined with ", "; a non-dict `params` raises AttributeError |
| `Extraction.AddParam` | ga4-logger.py:1150-1158 | one event parameter is assigned under its name |
| `Extraction.CommonFieldsOther` | ga4-logger.py:1137-1143 | the common fields change no key outside the GA4 names and `npa` |
| `Extraction.EventParamsOther` | ga4-logger.py:1149-1158 | the event parameters change no key outside the GA4 names and the `ep.` keys |
| `Extraction.ParamOther` | ga4-logger.py:1151-1158 | assigning one event parameter leaves every key outside the event keys alone |
| `Extraction.NameDiffers` | ga4-logger.py:1151-1154 | a parameter's target key is always an event key |
| `Extraction.EntryIsEventKey` | ga4-logger.py:1151-1154 | the target key is a GA4 name of the map or an `ep.` key |
| `Extraction.JsonEventKeepsOtherKeys` | ga4-logger.py:1130-1160 | every URL parameter, the synthetic `_request_` keys included, survives into a batch event unless the event assigns that key itself |
| `Extraction.JsonEventNeedsGa4` | ga4-logger.py:1135 | without a GA4 registry entry every batch event raises KeyError |
| `Extraction.JsonEventParamsNotDict` | ga4-logger.py:1149-1150 | an event whose `params` is not a dict raises AttributeError |
| `Extraction.FirstValues` | ga4-logger.py:2126-2128 | every form field is kept, in order, with its first value |
| `Extraction.RequestData` | ga4-logger.py:2084-2131 | GET or an empty body gives the URL parameters alone, a GA4 batch one dict per event, JSON other bodies merged, form bodies by first value; `ExtractRequestData`, `GetIgnoresBody` and `BatchLength` state these |
| `Extraction.ExtractRequestData` | ga4-logger.py:2084-2131 | the URL parameters plus the three synthetic keys for a GET or an empty body; a GA4 batch is one dict per event, the first event that raises ending it; other JSON is flattened and merged; anything else merges the form fields |
| `Extraction.BatchRaiseStays` | ga4-logger.py:2111 | once an event has raised, the later events change nothing |
| `Extraction.BatchLength` | ga4-logger.py:2111 | a batch that completes has one dict per event, in order, each the event's own dict |
| `Extraction.GetIgnoresBody` | ga4-logger.py:2087-2099 | a GET or an empty body yields exactly the URL parameters and the synthetic keys, which are all present |
| `Extraction.FlattenTopArray` | ga4-logger.py:2146-2151 | at the top, every key flattened out of a list starts with `item_` |
| `Extraction.StepGet` | ga4-logger.py:2140-2151 | one member or element stores a scalar under its key, gives a container's flattened keys their values (`params.update`), and leaves every other key as it was |
| `Extraction.ItemPlaced` | ga4-logger.py:2146-2151 | element `i` goes under `prefix[i]` (`item_i` at the top): a scalar as its string (`None` as empty), a container as its own flattened keys |
| `Extraction.MemberPlaced` | ga4-logger.py:2138-2143 | member `key` goes under `prefix.key` (`key` at the top): a scalar as its string (`None` as empty), a container as its own flattened keys |
| `Builder.RequestHash` | ga4-logger.py:102-106 | the hash is the first 12 characters of the digest of `method\|url\|post_data`, all 12 when the digest is that long |
| `Builder.ParamMapFor` | ga4-logger.py:1499-1504 | a registered platform's own parameter map, the six-entry default for any other |
| `Builder.MappedData` | ga4-logger.py:1611-1613 | the mapped data has distinct keys, exactly the canonical names of the platform keys the data holds |
| `Builder.LaterMappingWins` | ga4-logger.py:1612-1613 | when two platform keys share a canonical name, the value comes from the later one present in the data |
| `Builder.CleanData` | ga4-logger.py:1645-1646 | the raw data keeps every key not starting with `_request_`, with its value, and drops the others |
| `Builder.Fallback` | ga4-logger.py:1637-1638 | the first of three keys present decides the value, the empty string when none is |
| `Builder.MarketingPixelEvent` | ga4-logger.py:1581-1651 | neither event name nor pixel id logs a `custom_tracking` / `not defined` record naming the platform; otherwise a `marketing_pixel_event` record named by the event, carrying the identifiers, the formatted property, the page and referrer URLs, the mapped data and the method, exactly when the platform info does not raise; every record carries the request hash and the cleaned raw data |
| `Builder.ShortCircuitSkipsPlatformInfo` | ga4-logger.py:1592-1603 | the missing-identifier record does not depend on how JSON is decoded, since the platform info is never computed |
| `Builder.RawDataClean` | ga4-logger.py:1592-1651 | whichever record is logged, its raw data holds exactly the data's keys that are not internal |
| `Builder.NamedKindsNeverMissing` | ga4-logger.py:1592-1603 | handlers whose event name is never "Unknown" always log a marketing event when they log at all |
| `Pipeline.BuildFor` | ga4-logger.py:1581-1651 | the event builder applied to every event of a request: the marketing-pixel record for the request's platform, path, URL, body and method |
| `Pipeline.ParamDicts` | ga4-logger.py:2070-2077 | a batch is processed event by event, a single dict on its own |
| `Pipeline.EventRecords` | ga4-logger.py:2070-2082 | the records are the built records of the events in order; the first event that raises ends the run as a parse error with the records before it logged |
| `Pipeline.EventRecordsStop` | ga4-logger.py:2072-2082 | once an event has raised, the events after it add nothing |
| `Pipeline.RequestRecords` | ga4-logger.py:2063-2082 | an extraction error is a parse error with nothing logged; otherwise the events of the extracted data are built in turn |
| `Pipeline.ProcessRequest` | ga4-logger.py:2049-2082 | a static asset or a non-tracking request logs nothing and leaves the cache alone; otherwise the cache becomes `AfterDetect` of the old one, a detection error escapes the hook, and the events are logged as `RequestRecords` says, for the cached or freshly detected platform |
| `Pipeline.LogEvents` | ga4-logger.py:2070-2082 | the loop over the events logs exactly `EventRecords` |
| `Pipeline.ProcessResponse` | ga4-logger.py:1766-1784 | a static asset has only its cookies reported and leaves the cache alone; otherwise the cache becomes `AfterDetect` of the old one, a detection error escapes, and else the status record, if any, comes before the cookie record, if any |
| `Pipeline.AfterDetect` | ga4-logger.py:1169-1202 | only the `host:path` entry can change; it is added exactly when it was missing and detection succeeded, and then holds the detected label |
| `Pipeline.DetectAgain` | ga4-logger.py:1171-1175 | detecting again on the cache a detection left gives the same label, so the response hook sees the label the request hook used |
| `Pipeline.HashesCorrelate` | ga4-logger.py:102-106 | every event record of a request carries the same request hash as the status record of its response |
| `Formatter.FirstPrefix` | ga4-logger.py:1514-1521 | the first prefix of the table, in order, that the id starts with; none when no prefix fits |
| `Formatter.ApplyRule` | ga4-logger.py:1513-1538 | a test rule gives a result exactly when the id passes its test |
| `Formatter.Classify` | ga4-logger.py:1511-1551 | a platform without a rule is typed `<platform> Pixel ID` with the upper-cased first three letters when it is one of the six named platforms, and `Pixel/Property ID` with the platform name otherwise |
| `Formatter.FormatPixelId` | ga4-logger.py:1506-1558 | an empty id gives three empty fields; any other keeps the id, takes the classified type and is formatted `<id> (<code>)` |
| `Formatter.Ga4Rule` | ga4-logger.py:32-36 | GA4 has the first rule of `PLATFORM_ID_FORMATTERS` |
| `Formatter.Ga4Prefixes` | ga4-logger.py:32-36 | GA4 ids are tried against `G-`, `UA-` and `CCM-`, in that order |
| `Formatter.Ga4Container` | ga4-logger.py:1522-1528 | a GA4 id matching no prefix is a GTM container when longer than 10 characters and generic otherwise |
| `Formatter.GoogleAdsRule` | ga4-logger.py:37-40 | Google Ads has the second rule |
| `Formatter.GoogleAdsPrefixes` | ga4-logger.py:37-40 | Google Ads ids are tried against `AW-`, then `G-`, and are generic otherwise |
| `Formatter.FacebookRule` | ga4-logger.py:41 | Facebook's rule requires at least 15 digits |
| `Formatter.FacebookIds` | ga4-logger.py:41 | a Facebook id is a pixel id exactly when it is at least 15 digits, and generic otherwise |
| `Formatter.TaboolaNamed` | ga4-logger.py:1541-1547 | Taboola, which has no rule, is typed `Taboola Pixel ID` coded `TAB` |
| `Strings.Truncate` | ga4-logger.py:181-183 | a value of at most the limit is kept whole; a longer one becomes its first `n` characters followed by `...`, three characters longer than the limit |
| `HandlerHelpers.JoinEndsWithLast` | ga4-logger.py:147 | the last piece of a split string is a suffix of the string |
| `HandlerHelpers.ContainsMiddle` | ga4-logger.py:147 | a piece cut out of a string occurs in it |
| `HandlerHelpers.DomainOf` | ga4-logger.py:147 | the domain occurs in the URL; after a `//` it holds no slash; without `//` it is the whole URL |
| `HandlerHelpers.LinkedInDomainOf` | ga4-logger.py:530 | the LinkedIn domain occurs in the URL and never holds a slash; with `//` it is the common domain |
| `HandlerHelpers.FormatValueCurrency` | ga4-logger.py:185-187 | the line starts with `value:` |
| `HandlerHelpers.StripKeepsPrefix` | ga4-logger.py:187 | stripping keeps a prefix that starts and ends with non-whitespace |
| `HandlerHelpers.RStripKeeps` | ga4-logger.py:187 | stripping the right never cuts into a non-whitespace character |
| `HandlerHelpers.RStripSpace` | ga4-logger.py:187 | a trailing blank is stripped away |
| `HandlerHelpers.FormatValueCurrencyShape` | ga4-logger.py:185-187 | with a currency the line is `value: <value> <currency>`, without one `value: <value>`, when the last word ends in non-whitespace |
| `HandlerHelpers.ExperimentCount` | ga4-logger.py:222 | the count of experiments is one more than the number of `~` separators |
| `HandlerHelpers.SplitCount` | ga4-logger.py:222 | splitting on one character gives one more piece than its occurrences |
| `HandlerHelpers.DigitRun` | ga4-logger.py:1566-1569 | the greedy `\d+` run: all digits, and not followed by a digit |
| `HandlerHelpers.Leftmost` | ga4-logger.py:1574 | `re.search` finds the leftmost match and none before it, or reports that there is none |
| `HandlerHelpers.GroupOccurs` | ga4-logger.py:1574-1575 | a match captures digits, and the literal followed by them occurs in the path |
| `HandlerHelpers.SearchDigits` | ga4-logger.py:1574-1575 | a captured group is digits following the literal in the text, and there is none exactly when the pattern matches nowhere |
| `HandlerHelpers.AdwordsFrom` | ga4-logger.py:1573-1576 | the id is digits, and none exactly when no remaining pattern matches anywhere |
| `HandlerHelpers.AdwordsId` | ga4-logger.py:1564-1576 | `_extract_adwords_id` gives digits, and None exactly when none of the four conversion patterns matches |
| `HandlerHelpers.AdwordsFirstPattern` | ga4-logger.py:1573-1575 | the id comes from the first pattern, in list order, that matches |
| `HandlerHelpers.TaboolaPublisher` | ga4-logger.py:839-840 | a publisher id is all digits |
| `HandlerHelpers.PublisherOfPath` | ga4-logger.py:839-841 | the path `/<digits>/<rest>` has the digits as publisher |
| `HandlerHelpers.NoPublisherWithoutDigits` | ga4-logger.py:839-840 | a path whose first segment is not all digits has no publisher |
| `HandlerHelpers.FirstHit` | ga4-logger.py:966-968 | the first table entry, in order, whose fragment occurs; none when no fragment occurs |
| `HandlerHelpers.Pick` | ga4-logger.py:966-970 | the value of the first fragment that occurs, or the default when none does |
| `HandlerHelpers.CmpProvider` | ga4-logger.py:947-970 | the provider of the earliest listed fragment in the lower-cased host, or "CMP" when none occurs |
| `Products.FieldName` | ga4-logger.py:1119-1120 | a known token prefix names one of the six product fields |
| `Products.ProductFrom` | ga4-logger.py:1117-1120 | the product of a token list has distinct keys, all product fields |
| `Products.ParseProducts` | ga4-logger.py:1107-1128 | at most one product per product key, each non-empty with distinct product fields |
| `Products.ParseProductData` | ga4-logger.py:1107-1128 | the loop over the product keys collects exactly `ParseProducts` |
| `Products.ParseProductValue` | ga4-logger.py:1114-1120 | the loop over the tokens of one decoded value builds exactly its product |
| `Products.ProductEntries` | ga4-logger.py:1110 | the filtered entries are all under product keys |
| `Products.ProductsReadOnlyProductKeys` | ga4-logger.py:1110-1112 | the products depend only on the entries under product keys |
| `Products.NameIdPrice` | ga4-logger.py:1114-1120 | the value `nm<a>~id<b>~pr<c>` gives the product name a, id b, price c, in that order |
| `Products.ThreeTokens` | ga4-logger.py:1115-1117 | such a value decodes and splits into its three tokens |
| `Products.SplitThree` | ga4-logger.py:1117 | three separator-free pieces joined by `~` split back into those pieces |
| `Products.ThreeFields` | ga4-logger.py:1117-1120 | the three tokens set name, id and price in order |
| `Products.KnownPrefixes` | ga4-logger.py:1119 | `nm`, `id` and `pr` name the name, id and price fields |
| `Products.TokenAppends` | ga4-logger.py:1118-1120 | a token whose field is not yet set appends that field with the token's value |
| `Products.ProductSummary` | ga4-logger.py:166-177 | no line without products; one product gives `product: ` and its name (or `Unknown`) cut to 15; several products on a `view_item_list` give `products (<count>): ` with the first three names cut to 12 and `...` beyond three; otherwise `products: <count> items` |
| `Products.ShownNames` | ga4-logger.py:173 | the names shown for an item list: those of the first three products, `Unknown` when absent, each cut to 12 characters |
| `Products.Take3` | ga4-logger.py:173 | `products[:3]`: the first three, or all when fewer |
| `Floodlight.ParamsFrom` | ga4-logger.py:617-623 | the parameters have distinct keys, exactly the text before the first `=` of each piece holding one |
| `Floodlight.ParseSemicolonParams` | ga4-logger.py:617-623 | the loop over the `;`-separated pieces builds exactly those parameters |
| `Floodlight.LastPieceWins` | ga4-logger.py:619-623 | a key holds the decoded value of the last piece that sets it |
| `Floodlight.FloodlightIds` | ga4-logger.py:625-643 | the pixel id is never empty (`src` or "Unknown") and the event name starts with `Floodlight_` |
| `Floodlight.ActivityIds` | ga4-logger.py:609-651 | a URL not on `ad.doubleclick.net` gives ("Unknown", "Floodlight_Activity") |
| `Floodlight.ActivityFromParams` | ga4-logger.py:611-645 | an `ad.doubleclick.net/activity;<params>` URL takes its ids from `<params>` |
| `Floodlight.DdmIds` | ga4-logger.py:653-688 | the DDM pixel id is never empty |
| `Floodlight.DdmFromParams` | ga4-logger.py:655-688 | a path `/ddm/activity/<params>?<query>` takes its ids from `<params>`, the query ignored |
| `Floodlight.SplitAt` | ga4-logger.py:612 | when the first separator follows `before`, splitting yields `before` and then the pieces of the rest |
| `HandlerIds.BaseIds` | ga4-logger.py:117-122 | the pixel id is empty without its key, the event name "Unknown" without its key and the stored value with it; the type is "Standard Event" |
| `HandlerIds.ConsentModePixel` | ga4-logger.py:208 | the consent-mode id is never empty: the container id, else `CCM-<gcs>` |
| `HandlerIds.Ga4Ids` | ga4-logger.py:193-214 | library loads and tag diagnostics are recognised first, by path; the type is Consent Mode exactly for a `ccm/collect` path neither of those claims; an analytics event keeps the base pixel id |
| `HandlerIds.ServerGtmIds` | ga4-logger.py:259-274 | a library load has its own sGTM name; Consent Mode exactly for a `ccm/collect` path that is not a library load; otherwise the base pixel id |
| `HandlerIds.FacebookEventType` | ga4-logger.py:306-317 | each of the four groups of standard names gets its type, and exactly the other names are custom events |
| `HandlerIds.FacebookIds` | ga4-logger.py:304-319 | the base id and name, typed by the name |
| `HandlerIds.AdsPixel` | ga4-logger.py:346-352 | a configured id is kept; without one a conversion path gives `AW-<digits>`, and otherwise the id stays empty |
| `HandlerIds.EnhancedOnlyFirst` | ga4-logger.py:355-366 | of the path events only the first names an enhanced conversion |
| `HandlerIds.AdsEvent` | ga4-logger.py:354-387 | the 1p-conversion path is an Enhanced Conversion, and only it; with no known path a known hit type decides; the name is never "Unknown" |
| `HandlerIds.GoogleAdsIds` | ga4-logger.py:345-387 | the pixel id with its conversion-path fallback and the path-then-hit-type event; never "Unknown" |
| `HandlerIds.LinkedInCollect` | ga4-logger.py:429-452 | a conversion id makes a conversion, else an event id a custom event |
| `HandlerIds.ShortEventId` | ga4-logger.py:460 | an event id of at most 10 characters is shown whole; a longer one by its first 8 characters |
| `HandlerIds.LinkedInByParameters` | ga4-logger.py:454-489 | a conversion id makes a conversion event before anything else is looked at |
| `HandlerIds.LinkedInIds` | ga4-logger.py:399-427 | the configured pixel id; a `li_fat_id` is appended to the name; a `/collect` path is typed by the collect rules |
| `HandlerIds.PinterestIds` | ga4-logger.py:549-564 | a `PAGE_LOAD` in the upper-cased `dep` wins; with no keyword the base name is typed "Pinterest Event" |
| `HandlerIds.DoubleClickIds` | ga4-logger.py:570-607 | a DDM path takes its never-empty id from the path and another activity path from the URL, both named "Floodlight Activity"; a view-through id is digits |
| `HandlerIds.BingIds` | ga4-logger.py:693-730 | the name is never empty; an insights path with digits takes them as id; Conversion Tracking exactly for an action path whose `evt` is a conversion, goal or purchase |
| `HandlerIds.SandboxOwner` | ga4-logger.py:759-765 | the owner is Facebook exactly for a `facebook.com` host, else Google or Privacy Sandbox |
| `HandlerIds.PrivacySandboxIds` | ga4-logger.py:754-792 | the name starts with the owner; never "Unknown"; Privacy-Enhanced Tracking exactly for a `PageView` |
| `HandlerIds.SpacedNotUnknown` | ga4-logger.py:787-792 | a name holding a space cannot be "Unknown" |
| `HandlerIds.ConsentCollectionIds` | ga4-logger.py:798-828 | `G1` in `gcs` is granted before `G0` is denied; Consent Update exactly when `gcs` is set; never "Unknown" |
| `HandlerIds.TaboolaPixel` | ga4-logger.py:838-842 | without a publisher the configured id; with one the publisher alone, or `<id> (pub:<publisher>)` |
| `HandlerIds.TaboolaIds` | ga4-logger.py:834-862 | the pixel id with its publisher; JSON Tracking exactly for a `/trc/` JSON path; never "Unknown" |
| `HandlerIds.TaboolaPublisherPixel` | ga4-logger.py:839-842 | with no configured id a `/<digits>/...` path reports the digits as pixel id |
| `HandlerIds.ConsentPlatformIds` | ga4-logger.py:913-945 | the name starts with the provider; never "Unknown"; Banner Display exactly for a banner path |
| `HandlerIds.ClarityIds` | ga4-logger.py:1025-1035 | the project id; a missing or placeholder name becomes "session_collect"; always a Clarity Event |
| `HandlerInfo.Line` | ga4-logger.py:143-144 | one line `<prefix><value>` exactly when the value is non-empty, none otherwise |
| `HandlerInfo.LineOf` | ga4-logger.py:129-131 | one line built from the value exactly when the value is non-empty, none otherwise |
| `HandlerInfo.BaseInfo` | ga4-logger.py:124-150 | at most six lines; the value-and-currency line comes first and the page domain last whenever they are present |
| `HandlerInfo.ExperimentsLine` | ga4-logger.py:221-223 | a non-empty experiment list gives one line counting its `~`-separated ids |
| `HandlerInfo.LibraryInfo` | ga4-logger.py:217-224 | a library load gives at most three lines |
| `HandlerInfo.DiagnosticsInfo` | ga4-logger.py:225-239 | at most eight lines, the page domain last when `dl` is set |
| `HandlerInfo.ConsentModeInfo` | ga4-logger.py:240-251 | at most seven lines, the consent state first when `gcs` is set |
| `HandlerInfo.ParamLine` | ga4-logger.py:157-163 | a present parameter gives one line `<display>: <value>`; the consent state is never cut, any other value longer than 50 characters is cut to 50 and followed by `...` |
| `HandlerInfo.EventParamLines` | ga4-logger.py:157-163 | at most one line per listed parameter |
| `HandlerInfo.EventParamLinesExact` | ga4-logger.py:157-163 | every present parameter has its line among the lines, and every line is the line of a present parameter |
| `HandlerInfo.FirstParamLine` | ga4-logger.py:157-163 | a present first parameter gives the first line |
| `HandlerInfo.ConsentStateFirst` | ga4-logger.py:24-27 | a GA4 event with a consent state shows it first and untruncated |
| `HandlerInfo.Ga4EventInfo` | ga4-logger.py:152-179 | the event-parameter lines come first, unchanged; one more line follows exactly when products were parsed, and it is the product summary line |
| `HandlerInfo.ExtractGa4EventInfo` | ga4-logger.py:152-179 | the loop over `EVENT_PARAMS` and the product summary give exactly `Ga4EventInfo` |
| `HandlerInfo.AddParamLine` | ga4-logger.py:157-163 | one iteration of the parameter loop extends the lines of the first `i` parameters to those of the first `i + 1` |
| `HandlerInfo.Ga4Info` | ga4-logger.py:216-253 | library loads and tag diagnostics are described by their own lines, chosen by event name |
| `HandlerInfo.ServerGtmInfo` | ga4-logger.py:276-298 | an sGTM library load is described like a GA4 one |
| `HandlerInfo.ServerGtmLikeGa4` | ga4-logger.py:276-298 | apart from library loads and tag diagnostics, sGTM describes a request exactly as GA4 does |
| `HandlerInfo.ContentIdsLines` | ga4-logger.py:327-336 | a value that is not bracketed, or does not decode, shows `id: ` and its first 20 characters; a decoded non-empty list shows `ids: ` and its first three ids, each cut to 10, joined by commas; no line exactly when it decodes to something other than a non-empty list |
| `HandlerInfo.ShownIds` | ga4-logger.py:332 | the ids shown for a decoded list: its first three, each cut to 10 characters |
| `HandlerInfo.FacebookInfo` | ga4-logger.py:321-339 | at most five lines, the truncated content name first when present |
| `HandlerInfo.GoogleAdsInfo` | ga4-logger.py:389-393 | at most two lines, the conversion label first when present |
| `HandlerInfo.LinkedInPathLines` | ga4-logger.py:496-518 | a `/collect` path ends with the timing and usage lines; an attribution trigger gives its three fixed lines; any other path none |
| `HandlerInfo.LinkedInInfo` | ga4-logger.py:491-543 | the path lines come first; the value line follows them when a value is present; the order, domain, partner and conversion lines are present for present fields; the `li_fat_id` line is last when present; at most six lines follow the path lines |
| `HandlerInfo.BingInfo` | ga4-logger.py:732-748 | at most three lines, the goal value with its currency first when present |
| `HandlerInfo.Then` | ga4-logger.py:869-898 | the first exception ends the computation; otherwise the lines are concatenated |
| `HandlerInfo.PayloadDomain` | ga4-logger.py:877-879 | a string `u` is cut to its domain; nothing here raises KeyError |
| `HandlerInfo.MemberLine` | ga4-logger.py:882-886 | a dict payload holding the key gives `<prefix><str(value)>`, one without it no line; a list or string that does not hold the key gives no line, one that does raises TypeError, as does any other value |
| `HandlerInfo.PayloadUrl` | ga4-logger.py:876-879 | a string `u` gives its domain line, an absent one nothing; never KeyError |
| `HandlerInfo.PayloadEvent` | ga4-logger.py:888-893 | a dict payload without a dict `mpvd` gives no line; with one, an `event:` line first when it has `en` and a `type:` line last when it has `it`, and nothing else; a list or string holding `mpvd` raises TypeError |
| `HandlerInfo.TaboolaPayload` | ga4-logger.py:875-893 | never KeyError; a payload that is not a dict, list or string raises TypeError; a dict whose `u` is absent or a string does not raise |
| `HandlerInfo.TaboolaPayloadDict` | ga4-logger.py:875-893 | for such a dict the domain line of `u` comes first, the version and CMP lines are present for `cv` and `cbp`, and the `mpvd` event line is present and its type line last |
| `HandlerInfo.TaboolaPayloadNotDict` | ga4-logger.py:875-893 | a list or string payload gives no line unless one of `u`, `cv`, `cbp`, `mpvd` is `in` it, and then raises TypeError |
| `HandlerInfo.ValueDomainLines` | ga4-logger.py:898-905 | a value line (with its currency) first when a value is present, a domain line last when a page URL is present, and nothing else |
| `HandlerInfo.TaboolaInfo` | ga4-logger.py:864-907 | never KeyError; without a `data` payload, or with one that does not decode, only the value and domain lines; a decoded payload that raises makes the whole info raise, otherwise its lines precede the value and domain lines |
| `HandlerInfo.ServicesLine` | ga4-logger.py:996-1005 | a value that is not bracketed, or does not decode, or decodes to something without a length, shows its first 20 characters; one that decodes to a list, string or dict shows its length |
| `HandlerInfo.ConsentPlatformInfo` | ga4-logger.py:972-1019 | at most twelve lines, the version first when present |
| `HandlerInfo.ClarityInfo` | ga4-logger.py:1037-1063 | at most five lines, the session id cut to 12 characters first when present |
| `Handlers.GetEventHandler` | ga4-logger.py:1085-1096 | an unregistered platform gets the base handler with keys `pixel_id` and `event_name`; a registered one gets its class from `EVENT_HANDLERS`, or the base class, with its configured keys |
| `Handlers.UnregisteredGa4IsBase` | ga4-logger.py:1066-1090 | GA4 has a class of its own, yet without a registry entry it is handled by the base handler |
| `Handlers.ExtractIdentifiers` | ga4-logger.py:117-1035 | the six handlers whose names are fixed or composed never report "Unknown"; the base handler always reports a Standard Event |
| `Handlers.ExtractPlatformInfo` | ga4-logger.py:1102-1105 | only the Taboola handler can raise, and never KeyError |
| `Responses.IsStaticAsset` | ga4-logger.py:1560-1562 | a path is static when its lower-cased form ends in one of the listed extensions; `JsSuffixIsStatic` shows every `.js` path is one |
| `Responses.IsSuccessStatus` | ga4-logger.py:1674-1676 | success is membership in the listed status codes; `TrackingResponse` reports a success record only for them |
| `Responses.IsErrorStatus` | ga4-logger.py:1678-1680 | an error is any status of 400 or more; `TrackingResponse` gives a failure record exactly then |
| `Responses.IsJavascriptContent` | ga4-logger.py:1694-1714 | JavaScript when the media type before `;` is a listed script type, the path ends in `.js`, or it holds a script-path pattern; `MainTypeIsFirstPiece` and `JavascriptOutsideStatic` relate it to the response path |
| `Responses.JsSuffixIsStatic` | ga4-logger.py:1560-1562 | every path ending in `.js` is a static asset, so `_is_javascript_content`'s `.js` test never decides for a response that reaches it |
| `Responses.MainTypeIsFirstPiece` | ga4-logger.py:1698-1703 | both branches of the `;` test give the stripped first `;`-piece of the lower-cased type |
| `Responses.JavascriptOutsideStatic` | ga4-logger.py:1694-1714 | outside static assets a response is JavaScript exactly when its media type is a JavaScript type or its path holds a script pattern |
| `Responses.RequestType` | ga4-logger.py:2023-2032 | GET, POST and HEAD are kept and every other method is "UNKNOWN" |
| `Responses.ResponseSize` | ga4-logger.py:1716-1720 | the size is the content length followed by " bytes", "0 bytes" for an empty body |
| `Responses.NonEmptyHeader` | ga4-logger.py:1722-1732 | a header is reported only when present and non-empty, with its own value |
| `Responses.BuildResponseInfo` | ga4-logger.py:1734-1754 | the type is JavaScript or Data by the flag, the status is the response's, the time is present exactly when it was measured, and the ETag shown is at most 23 characters |
| `Responses.TrackingResponse` | ga4-logger.py:1786-1864 | an error status gives one failure warning, a success status one status update, any other status nothing; both carry the request hash and a JavaScript endpoint gets a description |
| `Responses.IsTrackingDomain` | ga4-logger.py:1896-1899 | a host is a tracking domain when it is a registered host or holds a tracking word |
| `Responses.IsTargetDomain` | ga4-logger.py:1901-1909 | a host is the target domain when it equals the configured network location or ends in `.` followed by it; nothing is the target when none is configured |
| `Responses.IsRelevantDomain` | ga4-logger.py:1892-1894 | relevant means a tracking or a target domain; `CookieRecords` reports cookies only for relevant hosts |
| `Responses.CookieName` | ga4-logger.py:1915-1918 | a cookie name never holds `=` or `;`; `CookieNameOf` gives the exact name |
| `Responses.CookieNameOf` | ga4-logger.py:1915-1918 | for `name=value;attributes` with an unpadded name and no `=` or `;` in it, the name is exactly `name`: the text before the first `=` of the stripped first `;`-piece |
| `Responses.StripInside` | ga4-logger.py:1916 | a character of a stripped string is a character of the string |
| `Responses.BeforeInside` | ga4-logger.py:1917 | a character of the first piece of a split is a character of the string |
| `Responses.CookieNames` | ga4-logger.py:1911-1920 | one name per header, in order |
| `Responses.ExtractCookieNames` | ga4-logger.py:1911-1920 | the loop over the headers collects exactly `CookieNames` |
| `Responses.CookieValue` | ga4-logger.py:1931-1937 | a header without `=` gives an empty value; a value never holds `;`; `CookieValueOf` gives the exact value |
| `Responses.CookieValueOf` | ga4-logger.py:1931-1937 | for `name=value;attributes` with no `=` in the name and no `;` in name or value, the value is exactly `value`, `=` signs in it included, since only the first `=` cuts |
| `Responses.FirstWhere` | ga4-logger.py:1989-1992 | the first element satisfying the test, and none before it; none when no element does |
| `Responses.FirstAttribute` | ga4-logger.py:1989-1992 | the first `;`-piece that is the named attribute, case-insensitively |
| `Responses.SameSite` | ga4-logger.py:1984-1995 | an empty header or one without the attribute gives "None"; otherwise the first attribute's value, title-cased |
| `Responses.AttributeValue` | ga4-logger.py:1997-2021 | an empty header or one without the attribute gives the empty string; otherwise the first attribute's value in its own case |
| `Responses.CookieDetailOf` | ga4-logger.py:1936-1950 | a cookie is accessible exactly when not HttpOnly; HttpOnly and Secure are case-sensitive substrings of the header |
| `Responses.DetailedCookies` | ga4-logger.py:1928-1950 | one detail per name, in order, each under its name |
| `Responses.BuildDetailedCookies` | ga4-logger.py:1928-1950 | the loop over the names builds exactly `DetailedCookies` |
| `Responses.CountSet` | ga4-logger.py:1964-1965 | a count of set flags never exceeds the number of flags |
| `Responses.CookieRecord` | ga4-logger.py:1922-1982 | a `cookie` / `cookie_set` record with the names, the type by domain, the full headers, one detail per name, a single `cookie_name` exactly for one cookie, and flag counts bounded by the names |
| `Responses.CookieRecords` | ga4-logger.py:1866-1890 | one cookie record exactly when the response sets cookies on a relevant host, with one name per header and the tracking-domain flag |
| `CookieExamples.FlaggedPieces` | ga4-logger.py:1915 | `name=value; HttpOnly; Secure; SameSite=s` cuts at `;` into exactly the pair and the three attribute pieces |
| `CookieExamples.FlaggedPair` | ga4-logger.py:1915-1918 | the name and the value of such a header are `name` and `value` |
| `CookieExamples.FlaggedWords` | ga4-logger.py:1943-1949 | such a header contains both `HttpOnly` and `Secure` |
| `CookieExamples.FlaggedSameSite` | ga4-logger.py:1984-1995 | only the fourth piece is a SameSite attribute, so the SameSite value is `s` lower-cased then title-cased |
| `CookieExamples.FlaggedCookie` | ga4-logger.py:1911-1950 | such a header yields the one name `name` and a detail with value `value`, HttpOnly, not accessible, Secure, SameSite `Title(Lower(s))` |
| `CookieExamples.PairNotAttribute` | ga4-logger.py:1990-1993 | an unpadded pair whose second letter differs from the attribute prefix's is not that attribute |
| `CookieExamples.SidCookie` | ga4-logger.py:1911-1995 | `sid=abc123; HttpOnly; Secure; SameSite=Strict` yields the names `["sid"]` and a detail with value `abc123`, HttpOnly, not accessible, Secure and SameSite `Strict` |

## Left out

- Timestamps of log records: the clock is not modelled, and records carry no time.
- Writing log output (`log_structured`, the logger, console printing): the model returns the records that would be written.
- The proxy framework's flow objects and hook registration: a request and a response are plain values, and the flow's memoised extraction is an `Option` field.
- Parsing `TARGET_DOMAIN` with `urlparse`: the target host is the parameter `targetHost`.
- MD5 is the parameter `digest`, `json.loads` is the parameter `loads` (and the request's decoded JSON body is the field `Request.json`), and `parse_qs` on a form body is the field `Request.form`.
- `unquote` of percent escapes at or above `%80` (multi-byte UTF-8): only ASCII escapes are decoded.
- Unicode digits and case folding outside ASCII: `isdigit` and `lower` are modelled on ASCII only.
- Python's `str`/`repr` of non-string values is modelled only as far as the handlers use it; JSON numbers are kept as their text, so floating point is not modelled.
- JSON objects are assumed to have distinct keys; `ConfigLoading.UiMapExact` requires it.
- Header names are assumed to be lower-case already, as the proxy framework delivers them.
- The other scripts of the repository (`bechtle.py`, `start-logging.py`, the research scripts) are not part of this model; `config.py` is modelled only through the scorer's indicator lists, taken as its defaults.
- Reading and reloading the configuration file (`_load_config`, `reload`) and the global loader instance behind the module-level functions: the configuration is a decoded JSON value given to the accessors, and the module-level functions that only delegate to the loader are the loader's accessors.
- Debug logging: it writes output and changes no state.
- The Taboola handler's `KeyError` guard: no modelled path raises `KeyError`, so the guard never fires; `HandlerInfo.TaboolaInfo` states this.
- The `try` around `_format_pixel_id` in the event builder: the formatter never raises, so the guard is not modelled.
- The LinkedIn handler's `event trigger` timing: it is the alternative of a `/collect` test made inside the branch where the path already contains `/collect`, so it is unreachable and every `/collect` path gets `timing: page load`.
- The constant fields of a detailed cookie (`source`, `type`, `host` equal to `domain`) are implied, not stored.
- Logging of a parse error is modelled as the ending `Pipeline.ParseError` of the outcome.
- The detector's cache is a `map` from cache key to platform; its size is not bounded.
- Pipeline.ProcessRequest: the event builder is a parameter (the logger passes Pipeline.BuildFor), so its contract holds for any builder.
- A JSON event `name` that is not a string is stored through its string form.
- The platform-info functions are written as concatenations of optional lines; their contracts state how many lines there are and which line leads or ends the list, not every line.
- HandlerInfo.BaseInfo: states the line count and the value and domain lines, not the other lines.
- HandlerInfo.LibraryInfo: states only the line count.
- HandlerInfo.DiagnosticsInfo: states the line count and the domain line, not the other lines.
- HandlerInfo.ConsentModeInfo: states the line count and the GCS line, not the other lines.
- HandlerInfo.FacebookInfo: states the line count and the content line, not the other lines.
- HandlerInfo.GoogleAdsInfo: states the line count and the label line, not the other line.
- HandlerInfo.BingInfo: states the line count and the goal-value line, not the other lines.
- HandlerInfo.ConsentPlatformInfo: states the line count and the version line, not the other lines.
- HandlerInfo.ClarityInfo: states the line count and the session line, not the other lines.
- HandlerInfo.Ga4Info: states which helper produces the lines for the library-load and diagnostics events, not the lines of other events.
- HandlerInfo.ServerGtmInfo: states which helper produces the lines for the library-load event, not the lines of other events.
- ConfigLoading.TextField: configuration values are assumed well-typed; a non-string value (a numeric `pixelIdKey`, say) is read through its string form, where the source would use the value as it is.
- ConfigLoading.ParamMapField: configuration values are assumed well-typed; a `paramMap` that is not a dict is read as the empty map, where the source keeps the value as it is.
- ConfigLoading.AsPlatformConfig: builds on `TextField`, `ParamMapField` and `Members`, so it shares their reading of ill-typed values.
- ConfigLoading.Members: configuration values are assumed well-typed; number, boolean and null entries of a `hosts` or `paths` list are dropped, where the source keeps them and the detector's `startswith` (ga4-logger.py:1240) would raise TypeError on a path entry.
- HandlerInfo.EventParamLines: its order is stated only through `HandlerInfo.Ga4EventInfo` and the loop; `HandlerInfo.EventParamLinesExact` states which lines occur, not their order.
- HandlerInfo.LinkedInInfo: states the position of the path, value and `fat_id` lines; the order, domain, partner and conversion lines are stated present, not their positions.
- HandlerInfo.TaboolaPayload: the positions of the version and CMP lines and of the `mpvd` event line are stated as membership in `HandlerInfo.TaboolaPayloadDict`.
- A request's query is `dict(request.query)`, so its keys are distinct; `Pipeline.ProcessRequest` and `Pipeline.ProcessResponse` require that.
