/** Server-side tracking detection from request parameters: the basic
    indicator check and the weighted sGTM score. Both look only at which
    parameter keys are present, plus the values of `gtm` and `tid`. */
module Scoring {
  import opened Wrappers
  import opened Strings
  import opened JsonValues
  import opened Dicts
  import opened ConfigLoading

  /** The detector's view of a request's parameters. Query and form values
      are strings; a JSON body contributes values of any JSON type. */
  type Params = Dict<Json>

  // The default indicator lists of the server-tracking configuration.
  const Ga4Params: seq<string> := ["en", "cid", "sid", "_p", "dl", "dr", "dt"]
  const ConsentParams: seq<string> := ["gcs", "dma", "dma_cps", "gdpr", "gdpr_consent"]
  const GtmIdPrefixes: seq<string> := ["GTM-", "G-", "AW-", "DC-"]
  const TrackingIdPrefixes: seq<string> := ["G-", "GA-", "GTM-", "AW-", "DC-"]
  const EventParams: seq<string> := ["event", "event_name", "en", "ev", "action", "event_action", "category", "event_category"]
  const TrackingParams: seq<string> := ["track", "tracking", "pixel", "pixel_id", "id", "user_id", "uid", "client_id", "cid"]
  const SessionParams: seq<string> := ["session", "session_id", "sid", "visit", "visit_id", "s"]
  const ValueParams: seq<string> := ["value", "revenue", "price", "amount", "val", "total"]
  const EcommerceParams: seq<string> := ["currency", "item_id", "product_id", "sku", "quantity", "product_name", "item_name"]
  const TimestampParams: seq<string> := ["timestamp", "time", "t", "_p", "ts"]
  const ServerGtmParams: seq<string> := ["gtm", "container_id", "gtm_container", "server_container_url"]

  /** `_count_matching_params`: how many entries of `inds` are keys of
      `params`; an indicator listed twice counts twice. */
  function Count(params: Params, inds: seq<string>): (r: nat)
    ensures r <= |inds|
  {
    if |inds| == 0 then 0
    else Count(params, inds[..|inds| - 1]) + (if HasKey(params, inds[|inds| - 1]) then 1 else 0)
  }

  /** `_has_any_params`. */
  predicate HasAny(params: Params, inds: seq<string>) {
    exists i | 0 <= i < |inds| :: HasKey(params, inds[i])
  }

  /** Every key of `p` is a key of `q`. */
  ghost predicate KeysWithin(p: Params, q: Params) {
    forall k :: HasKey(p, k) ==> HasKey(q, k)
  }

  lemma {:induction false} CountMono(p: Params, q: Params, inds: seq<string>)
    requires KeysWithin(p, q)
    ensures Count(p, inds) <= Count(q, inds)
  {
    if |inds| > 0 {
      CountMono(p, q, inds[..|inds| - 1]);
    }
  }

  /** `Count` is the number of positions of `inds` that hold a key of `params`. */
  lemma {:induction false} CountExact(params: Params, inds: seq<string>, hits: set<nat>)
    requires forall i :: i in hits <==> 0 <= i < |inds| && HasKey(params, inds[i])
    ensures Count(params, inds) == |hits|
  {
    if |inds| > 0 {
      var n := |inds| - 1;
      var init := inds[..n];
      var rest := hits - {n};
      assert forall i | 0 <= i < n :: init[i] == inds[i];
      CountExact(params, init, rest);
      if HasKey(params, inds[n]) {
        assert hits == rest + {n};
      } else {
        assert hits == rest;
      }
    }
  }

  lemma StartsWithHead(s: string, p: string)
    requires |p| > 0 && StartsWith(s, p)
    ensures |s| > 0 && s[0] == p[0]
  {
    assert s[..|p|][0] == s[0];
  }

  /** `_get_platform_key_params`: each platform's pixel-id key and event-name
      key, in registry order, duplicates kept. */
  function PlatformKeyParams(reg: Registry): (r: seq<string>)
    ensures |r| == 2 * |reg|
    ensures forall i | 0 <= i < |reg| :: r[2 * i] == reg[i].1.pixelIdKey && r[2 * i + 1] == reg[i].1.eventNameKey
  {
    if |reg| == 0 then []
    else PlatformKeyParams(reg[..|reg| - 1]) + [reg[|reg| - 1].1.pixelIdKey, reg[|reg| - 1].1.eventNameKey]
  }

  /** `_has_tracking_indicators`: the basic check, seven alternatives. */
  predicate HasTrackingIndicators(params: Params, reg: Registry) {
    || Count(params, Ga4Params) >= 2
    || HasAny(params, EventParams)
    || Count(params, TrackingParams) >= 2
    || (HasAny(params, ConsentParams) && HasAny(params, ServerGtmParams))
    || (HasAny(params, SessionParams) && HasAny(params, ValueParams))
    || Count(params, EcommerceParams) >= 2
    || Count(params, PlatformKeyParams(reg)) >= 2
  }

  /** The result dict of the server-side detectors. */
  datatype Verdict = Verdict(isServerSide: bool, platform: string, score: int)

  /** Basic detection (`advanced_scoring=False`). */
  function BasicDetection(params: Params, reg: Registry): (r: Verdict)
    ensures r.isServerSide <==> HasTrackingIndicators(params, reg)
    ensures r.isServerSide ==> r == Verdict(true, "Custom Tracking", 1)
    ensures !r.isServerSide ==> r == Verdict(false, "None", 0)
  {
    if HasTrackingIndicators(params, reg) then Verdict(true, "Custom Tracking", 1)
    else Verdict(false, "None", 0)
  }

  predicate StartsWithAny(s: string, prefixes: seq<string>) {
    exists i | 0 <= i < |prefixes| :: StartsWith(s, prefixes[i])
  }

  /** `has_gtm_container`: `params.get('gtm', '')` is truthy and starts with a
      container prefix or is longer than 10 characters. A truthy non-string
      has no `startswith` and raises `AttributeError`. */
  function HasGtmContainer(params: Params): (r: Result<bool>)
    ensures !HasKey(params, "gtm") ==> r == Ok(false)
    ensures r.Ok? && r.value ==> Get(params, "gtm").Some? && Get(params, "gtm").value.JStr?
  {
    var v := GetOr(params, "gtm", JStr(""));
    if !Truthy(v) then Ok(false)
    else if !v.JStr? then Raise(AttributeError)
    else Ok(StartsWithAny(v.s, GtmIdPrefixes) || |v.s| > 10)
  }

  /** `has_tracking_id`: `params.get('tid', '')` is truthy and starts with a
      tracking-id prefix; a truthy non-string raises `AttributeError`. */
  function HasTrackingId(params: Params): (r: Result<bool>)
    ensures !HasKey(params, "tid") ==> r == Ok(false)
  {
    var v := GetOr(params, "tid", JStr(""));
    if !Truthy(v) then Ok(false)
    else if !v.JStr? then Raise(AttributeError)
    else Ok(StartsWithAny(v.s, TrackingIdPrefixes))
  }

  /** The 13 signals of `_calculate_sgtm_score`, in source order. */
  datatype Signals = Signals(
    gtmContainer: bool, trackingId: bool, ga4Params: bool, consent: bool,
    serverGtmParams: bool, event: bool, tracking: bool, session: bool,
    value: bool, ecommerce: bool, timestamp: bool, ga4Pair: bool, consentState: bool)

  function SignalsOf(params: Params, hasGtm: bool, hasTid: bool): Signals {
    Signals(
      hasGtm,
      hasTid,
      Count(params, Ga4Params) >= 3,
      HasAny(params, ConsentParams),
      Count(params, ServerGtmParams) >= 1,
      HasAny(params, EventParams),
      Count(params, TrackingParams) >= 2,
      HasAny(params, SessionParams),
      HasAny(params, ValueParams),
      Count(params, EcommerceParams) >= 2,
      HasAny(params, TimestampParams),
      HasKey(params, "en") && HasKey(params, "cid"),
      HasKey(params, "gcs"))
  }

  function W(b: bool, w: nat): int {
    if b then w else 0
  }

  // The weighted sum in the source's three groups: the core sGTM signals
  // (1-5), the enhanced parameter signals (6-11) and the legacy checks (12-13).
  function CoreWeight(s: Signals): int {
    W(s.gtmContainer, 4) + W(s.trackingId, 2) + W(s.ga4Params, 2) + W(s.consent, 1) + W(s.serverGtmParams, 2)
  }

  function EnhancedWeight(s: Signals): int {
    W(s.event, 3) + W(s.tracking, 2) + W(s.session, 1) + W(s.value, 1) + W(s.ecommerce, 2) + W(s.timestamp, 1)
  }

  function LegacyWeight(s: Signals): int {
    W(s.ga4Pair, 1) + W(s.consentState, 1)
  }

  /** The weights of the true signals. */
  function WeightedSum(s: Signals): int {
    CoreWeight(s) + EnhancedWeight(s) + LegacyWeight(s)
  }

  /** Every signal of `s` holds in `t`. */
  predicate Weaker(s: Signals, t: Signals) {
    && (s.gtmContainer ==> t.gtmContainer) && (s.trackingId ==> t.trackingId)
    && (s.ga4Params ==> t.ga4Params) && (s.consent ==> t.consent)
    && (s.serverGtmParams ==> t.serverGtmParams) && (s.event ==> t.event)
    && (s.tracking ==> t.tracking) && (s.session ==> t.session)
    && (s.value ==> t.value) && (s.ecommerce ==> t.ecommerce)
    && (s.timestamp ==> t.timestamp) && (s.ga4Pair ==> t.ga4Pair)
    && (s.consentState ==> t.consentState)
  }

  /** A weighted sum lies between 0 and 23, the sum of all weights. */
  lemma WeightedSumBounds(s: Signals)
    ensures 0 <= WeightedSum(s) <= 23
  {
  }

  lemma PartsMono(s: Signals, t: Signals)
    requires Weaker(s, t)
    ensures CoreWeight(s) <= CoreWeight(t)
    ensures EnhancedWeight(s) <= EnhancedWeight(t)
    ensures LegacyWeight(s) <= LegacyWeight(t)
  {
  }

  /** Turning signals on never lowers the weighted sum. */
  lemma WeightedSumMono(s: Signals, t: Signals)
    requires Weaker(s, t)
    ensures WeightedSum(s) <= WeightedSum(t)
  {
    PartsMono(s, t);
  }

  /** The sGTM score of a request. */
  function Score(params: Params, hasGtm: bool, hasTid: bool): int {
    WeightedSum(SignalsOf(params, hasGtm, hasTid))
  }

  lemma ScoreBounds(params: Params, hasGtm: bool, hasTid: bool)
    ensures 0 <= Score(params, hasGtm, hasTid) <= 23
  {
    WeightedSumBounds(SignalsOf(params, hasGtm, hasTid));
  }

  lemma HasAnyMono(p: Params, q: Params, inds: seq<string>)
    requires KeysWithin(p, q)
    ensures HasAny(p, inds) ==> HasAny(q, inds)
  {
    if HasAny(p, inds) {
      var j :| 0 <= j < |inds| && HasKey(p, inds[j]);
      assert HasKey(q, inds[j]);
    }
  }

  /** More keys and stronger container/tracking-id signals never lower the score. */
  lemma ScoreMono(p: Params, q: Params, gp: bool, gq: bool, tp: bool, tq: bool)
    requires KeysWithin(p, q) && (gp ==> gq) && (tp ==> tq)
    ensures Score(p, gp, tp) <= Score(q, gq, tq)
  {
    CountMono(p, q, Ga4Params);
    CountMono(p, q, ServerGtmParams);
    CountMono(p, q, TrackingParams);
    CountMono(p, q, EcommerceParams);
    HasAnyMono(p, q, ConsentParams);
    HasAnyMono(p, q, EventParams);
    HasAnyMono(p, q, SessionParams);
    HasAnyMono(p, q, ValueParams);
    HasAnyMono(p, q, TimestampParams);
    WeightedSumMono(SignalsOf(p, gp, tp), SignalsOf(q, gq, tq));
  }

  /** `_calculate_sgtm_score`: adds each signal's weight in turn, group by
      group as the source lays them out. */
  method CalculateScore(params: Params, hasGtm: bool, hasTid: bool) returns (score: int)
    ensures score == Score(params, hasGtm, hasTid)
    ensures 0 <= score <= 23
  {
    score := AddCoreSignals(params, hasGtm, hasTid, 0);
    score := AddEnhancedSignals(params, hasGtm, hasTid, score);
    score := AddLegacySignals(params, hasGtm, hasTid, score);
    ScoreBounds(params, hasGtm, hasTid);
  }

  /** The core sGTM indicators: container, tracking id, GA4 parameters,
      consent, server-GTM parameters. */
  method AddCoreSignals(params: Params, hasGtm: bool, hasTid: bool, score0: int) returns (score: int)
    ensures score == score0 + CoreWeight(SignalsOf(params, hasGtm, hasTid))
  {
    score := score0;
    if hasGtm { score := score + 4; }
    if hasTid { score := score + 2; }
    if Count(params, Ga4Params) >= 3 { score := score + 2; }
    if HasAny(params, ConsentParams) { score := score + 1; }
    if Count(params, ServerGtmParams) >= 1 { score := score + 2; }
  }

  /** The enhanced parameter detection: event, tracking, session, value,
      e-commerce and timestamp parameters. */
  method AddEnhancedSignals(params: Params, hasGtm: bool, hasTid: bool, score0: int) returns (score: int)
    ensures score == score0 + EnhancedWeight(SignalsOf(params, hasGtm, hasTid))
  {
    score := score0;
    if HasAny(params, EventParams) { score := score + 3; }
    if Count(params, TrackingParams) >= 2 { score := score + 2; }
    if HasAny(params, SessionParams) { score := score + 1; }
    if HasAny(params, ValueParams) { score := score + 1; }
    if Count(params, EcommerceParams) >= 2 { score := score + 2; }
    if HasAny(params, TimestampParams) { score := score + 1; }
  }

  /** The legacy checks: `en` with `cid`, and `gcs`. */
  method AddLegacySignals(params: Params, hasGtm: bool, hasTid: bool, score0: int) returns (score: int)
    ensures score == score0 + LegacyWeight(SignalsOf(params, hasGtm, hasTid))
  {
    score := score0;
    if HasKey(params, "en") && HasKey(params, "cid") { score := score + 1; }
    if HasKey(params, "gcs") { score := score + 1; }
  }

  /** `_advanced_server_side_detection`: server-side from a score of 1, sGTM
      from a score of 3, "Custom Tracking" below that. */
  function AdvancedDetection(params: Params): (r: Result<Verdict>)
    ensures r.Ok? ==> 0 <= r.value.score <= 23
    ensures r.Ok? ==> (r.value.isServerSide <==> r.value.score >= 1)
    ensures r.Ok? ==> (r.value.platform == "sGTM" <==> r.value.score >= 3)
    ensures r.Ok? && r.value.score < 3 ==> r.value.platform == "Custom Tracking"
    ensures r.Raise? <==> HasGtmContainer(params).Raise? || HasTrackingId(params).Raise?
  {
    match HasGtmContainer(params)
    case Raise(e) => Raise(e)
    case Ok(g) =>
      match HasTrackingId(params)
      case Raise(e) => Raise(e)
      case Ok(t) =>
        var score := Score(params, g, t);
        ScoreBounds(params, g, t);
        Ok(Verdict(score >= 1, if score >= 3 then "sGTM" else "Custom Tracking", score))
  }

  /** Adding a new key never lowers the advanced score. */
  lemma AddKeyNeverLowers(params: Params, k: string, v: Json)
    requires !HasKey(params, k)
    requires AdvancedDetection(params).Ok? && AdvancedDetection(Put(params, k, v)).Ok?
    ensures AdvancedDetection(params).value.score <= AdvancedDetection(Put(params, k, v)).value.score
  {
    var q := Put(params, k, v);
    forall key ensures HasKey(params, key) ==> HasKey(q, key) {
      if key != k { PutOther(params, k, v, key); }
    }
    if k != "gtm" { PutOther(params, k, v, "gtm"); }
    if k != "tid" { PutOther(params, k, v, "tid"); }
    var gp, gq := HasGtmContainer(params).value, HasGtmContainer(q).value;
    var tp, tq := HasTrackingId(params).value, HasTrackingId(q).value;
    ScoreMono(params, q, gp, gq, tp, tq);
  }

  /** Indicators that are not keys count nothing and match nothing. */
  lemma AbsentKeys(p: Params, inds: seq<string>)
    requires forall i | 0 <= i < |inds| :: !HasKey(p, inds[i])
    ensures Count(p, inds) == 0 && !HasAny(p, inds)
  {
    CountExact(p, inds, {});
  }

  /** The only key of `[(k, v)]` is `k`. */
  lemma SingleKey(k: string, v: Json)
    ensures HasKey([(k, v)], k)
    ensures forall key :: HasKey([(k, v)], key) <==> key == k
  {
    var p: Params := [(k, v)];
    assert p[0].0 == k;
  }

  /** A lone `gtm` container id scores 6 (4 for the container, 2 for a
      server-GTM parameter) and is judged sGTM. */
  lemma LoneGtmContainer(id: string)
    requires StartsWith(id, "GTM-")
    ensures AdvancedDetection([("gtm", JStr(id))]) == Ok(Verdict(true, "sGTM", 6))
  {
    var p: Params := [("gtm", JStr(id))];
    SingleKey("gtm", JStr(id));
    assert Get(p, "gtm") == Some(JStr(id));
    assert StartsWith(id, GtmIdPrefixes[0]);
    assert HasGtmContainer(p) == Ok(true);
    assert HasTrackingId(p) == Ok(false);
    SignalsOfGtmOnly(p);
  }

  /** The signals of a request whose only key is `gtm`: the container signal
      and the server-GTM parameter signal. */
  lemma SignalsOfGtmOnly(p: Params)
    requires forall key :: HasKey(p, key) <==> key == "gtm"
    ensures Score(p, true, false) == 6
  {
    AbsentKeys(p, Ga4Params);
    AbsentKeys(p, ConsentParams);
    AbsentKeys(p, EventParams);
    AbsentKeys(p, TrackingParams);
    AbsentKeys(p, SessionParams);
    AbsentKeys(p, ValueParams);
    AbsentKeys(p, EcommerceParams);
    AbsentKeys(p, TimestampParams);
    CountExact(p, ServerGtmParams, {0});
    assert !HasKey(p, "en") && !HasKey(p, "gcs");
  }

  /** No parameters score 0, which still reports "Custom Tracking" and not
      server-side. */
  lemma EmptyParamsScoreZero()
    ensures AdvancedDetection([]) == Ok(Verdict(false, "Custom Tracking", 0))
  {
    var p: Params := [];
    assert forall k :: !HasKey(p, k);
    assert HasGtmContainer(p) == Ok(false) && HasTrackingId(p) == Ok(false);
    AbsentKeys(p, Ga4Params);
    AbsentKeys(p, ConsentParams);
    AbsentKeys(p, ServerGtmParams);
    AbsentKeys(p, EventParams);
    AbsentKeys(p, TrackingParams);
    AbsentKeys(p, SessionParams);
    AbsentKeys(p, ValueParams);
    AbsentKeys(p, EcommerceParams);
    AbsentKeys(p, TimestampParams);
  }

  /** `dl` and `dr` alone pass the basic check (two GA4 parameters) but score
      0 in the advanced one (which asks for three). */
  lemma BasicWithoutAdvanced(reg: Registry)
    ensures var p: Params := [("dl", JStr("u")), ("dr", JStr("r"))];
            BasicDetection(p, reg).isServerSide && AdvancedDetection(p) == Ok(Verdict(false, "Custom Tracking", 0))
  {
    var p: Params := [("dl", JStr("u")), ("dr", JStr("r"))];
    assert p[0].0 == "dl" && p[1].0 == "dr";
    assert forall k :: HasKey(p, k) <==> k == "dl" || k == "dr";
    CountExact(p, Ga4Params, {4, 5});
    assert HasTrackingIndicators(p, reg);
    assert HasGtmContainer(p) == Ok(false) && HasTrackingId(p) == Ok(false);
    SignalsOfPageOnly(p);
  }

  lemma SignalsOfPageOnly(p: Params)
    requires forall k :: HasKey(p, k) <==> k == "dl" || k == "dr"
    ensures Score(p, false, false) == 0
  {
    CountExact(p, Ga4Params, {4, 5});
    AbsentKeys(p, ConsentParams);
    AbsentKeys(p, ServerGtmParams);
    AbsentKeys(p, EventParams);
    AbsentKeys(p, TrackingParams);
    AbsentKeys(p, SessionParams);
    AbsentKeys(p, ValueParams);
    AbsentKeys(p, EcommerceParams);
    AbsentKeys(p, TimestampParams);
    assert !HasKey(p, "en") && !HasKey(p, "gcs");
  }

  /** An 11-character `gtm` value alone is sGTM for the advanced score, while the
      basic check misses it when no platform keys its pixel id or event name
      by `gtm`. */
  lemma AdvancedWithoutBasic(reg: Registry)
    requires forall i | 0 <= i < |reg| :: reg[i].1.pixelIdKey != "gtm" && reg[i].1.eventNameKey != "gtm"
    ensures var p: Params := [("gtm", JStr("abcdefghijk"))];
            !BasicDetection(p, reg).isServerSide && AdvancedDetection(p) == Ok(Verdict(true, "sGTM", 6))
  {
    var p: Params := [("gtm", JStr("abcdefghijk"))];
    SingleKey("gtm", JStr("abcdefghijk"));
    assert Get(p, "gtm") == Some(JStr("abcdefghijk"));
    assert HasGtmContainer(p) == Ok(true);
    assert HasTrackingId(p) == Ok(false);
    SignalsOfGtmOnly(p);
    GtmOnlyMissesBasic(p, reg);
  }

  /** A request whose only key is `gtm` fails all seven basic alternatives
      when no platform keys its pixel id or event name by `gtm`. */
  lemma GtmOnlyMissesBasic(p: Params, reg: Registry)
    requires forall key :: HasKey(p, key) <==> key == "gtm"
    requires forall i | 0 <= i < |reg| :: reg[i].1.pixelIdKey != "gtm" && reg[i].1.eventNameKey != "gtm"
    ensures !HasTrackingIndicators(p, reg)
  {
    AbsentKeys(p, Ga4Params);
    AbsentKeys(p, EventParams);
    AbsentKeys(p, TrackingParams);
    AbsentKeys(p, ConsentParams);
    AbsentKeys(p, SessionParams);
    AbsentKeys(p, EcommerceParams);
    var keys := PlatformKeyParams(reg);
    forall i | 0 <= i < |keys| ensures !HasKey(p, keys[i]) {
      assert keys[i] == if i % 2 == 0 then reg[i / 2].1.pixelIdKey else reg[i / 2].1.eventNameKey;
    }
    AbsentKeys(p, keys);
  }

  /** A key shared by two platforms counts twice among the platform keys, so
      that key alone passes the basic check. */
  lemma SharedPlatformKeyCountsTwice(reg: Registry, k: string, v: Json)
    requires |reg| >= 2 && reg[0].1.pixelIdKey == k && reg[1].1.pixelIdKey == k
    ensures BasicDetection([(k, v)], reg).isServerSide
  {
    var p: Params := [(k, v)];
    var keys := PlatformKeyParams(reg);
    assert p[0].0 == k;
    assert keys[0] == k && keys[2] == k;
    CountAtLeastTwo(p, keys, 0, 2);
  }

  lemma {:induction false} CountAtLeastTwo(p: Params, inds: seq<string>, i: nat, j: nat)
    requires i < j < |inds| && HasKey(p, inds[i]) && HasKey(p, inds[j])
    ensures Count(p, inds) >= 2
  {
    if j < |inds| - 1 {
      CountAtLeastTwo(p, inds[..|inds| - 1], i, j);
    } else {
      CountAtLeastOne(p, inds[..|inds| - 1], i);
    }
  }

  lemma {:induction false} CountAtLeastOne(p: Params, inds: seq<string>, i: nat)
    requires i < |inds| && HasKey(p, inds[i])
    ensures Count(p, inds) >= 1
  {
    if i < |inds| - 1 {
      CountAtLeastOne(p, inds[..|inds| - 1], i);
    }
  }
}
