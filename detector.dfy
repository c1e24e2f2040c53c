/** `UnifiedPlatformDetector`: which marketing platform a request belongs
    to, decided by a priority chain over host, path and (for server-side
    GTM) the request's parameters, with a cache keyed by `host:path`. */
module Detection {
  import opened Wrappers
  import opened Strings
  import opened JsonValues
  import opened Dicts
  import opened ConfigLoading
  import opened Scoring
  import opened Extraction

  // ---------------------------------------------------------------------
  // `_get_all_params`: the detector's own parameter view

  /** The query parameters as parameter values. */
  function QueryParams(q: Dict<string>): Params {
    seq(|q|, i requires 0 <= i < |q| => (q[i].0, JStr(q[i].1)))
  }

  /** Form fields with at least one value, each with its first value. */
  function FormParams(form: Dict<seq<string>>): Params
    decreases |form|
  {
    if |form| == 0 then []
    else
      var init := FormParams(form[..|form| - 1]);
      var last := form[|form| - 1];
      if |last.1| > 0 then init + [(last.0, JStr(last.1[0]))] else init
  }

  /** The parameters the detector scores: the query, and for a POST with a
      body either the decoded JSON dict merged in unflattened (JSON content
      type, or a body starting with `{`), or the form fields (form content
      type). A body that does not decode, or decodes to a non-dict, adds
      nothing. */
  function AllParams(req: Request): Params {
    var base := QueryParams(req.query);
    if req.httpMethod == "POST" && req.body != "" then
      var ct := Lower(req.contentType);
      if Contains(ct, "application/json") || StartsWith(Strip(req.body), "{") then
        match req.json
        case Some(JObj(ms)) => Update(base, ms)
        case _ => base
      else if Contains(ct, "application/x-www-form-urlencoded") then Update(base, FormParams(req.form))
      else base
    else base
  }

  /** Only a POST contributes its body to the detector's parameters. */
  lemma OnlyPostBodies(req: Request)
    requires req.httpMethod != "POST"
    ensures AllParams(req) == QueryParams(req.query)
  {
  }

  /** A JSON dict body is merged without flattening: each of its keys holds the
      decoded value itself, nested dicts included, and every other key keeps
      its query value. */
  lemma JsonBodyUnflattened(req: Request, k: string)
    requires req.httpMethod == "POST" && req.body != "" && Contains(Lower(req.contentType), "application/json")
    requires req.json.Some? && req.json.value.JObj? && Keyed(req.json.value.members)
    ensures Dicts.Get(AllParams(req), k) ==
              if HasKey(req.json.value.members, k) then Lookup(req.json.value.members, k)
              else Dicts.Get(QueryParams(req.query), k)
  {
    var ms := req.json.value.members;
    GetUpdate(QueryParams(req.query), ms, k);
    if HasKey(ms, k) {
      var i :| 0 <= i < |ms| && ms[i].0 == k;
      GetKeyed(ms, i);
      LookupKeyed(ms, i);
    }
  }

  lemma {:induction false} LookupKeyed(ms: seq<(string, Json)>, i: nat)
    requires Keyed(ms) && i < |ms|
    ensures Lookup(ms, ms[i].0) == Some(ms[i].1)
  {
    if i > 0 {
      assert ms[0].0 != ms[i].0;
      var tail := ms[1..];
      assert Keyed(tail) by {
        forall a, b | 0 <= a < b < |tail| ensures tail[a].0 != tail[b].0 {
          assert tail[a] == ms[a + 1] && tail[b] == ms[b + 1];
        }
      }
      LookupKeyed(tail, i - 1);
      assert tail[i - 1] == ms[i];
    }
  }

  /** A JSON POST whose body decodes to `{"a": {"b": "x"}}`. */
  predicate NestedJsonPost(req: Request) {
    req.httpMethod == "POST" && req.body != "" && req.query == [] &&
    Contains(Lower(req.contentType), "application/json") && StartsWith(Strip(req.body), "{") &&
    req.json == Some(JObj([("a", JObj([("b", JStr("x"))]))]))
  }

  lemma NestedFlatten()
    ensures Flatten(JObj([("a", JObj([("b", JStr("x"))]))]), "") == [("a.b", "x")]
  {
    var inner := JObj([("b", JStr("x"))]);
    assert MemberKey("a", "b") == "a.b";
    assert Flatten(inner, "a") == [("a.b", "x")] by {
      assert Put([], "a.b", "x") == [("a.b", "x")];
    }
    assert [("a.b", "x")][..0] == [];
  }

  /** The detector keeps the nested dict of such a body under its key `a`. */
  lemma DetectorKeepsNesting(req: Request)
    requires NestedJsonPost(req)
    ensures AllParams(req) == [("a", JObj([("b", JStr("x"))]))]
  {
    var ms := [("a", JObj([("b", JStr("x"))]))];
    assert QueryParams(req.query) == [];
    assert ms[..0] == [];
    assert Update([], ms) == Put([], "a", ms[0].1);
  }

  /** The event builder flattens such a body to the key `a.b`. */
  lemma BuilderFlattens(reg: Registry, req: Request)
    requires NestedJsonPost(req)
    ensures RequestData(reg, req, "Facebook") == Ok(Single(Update(Seed(req), [("a.b", "x")])))
  {
    assert LooksLikeJson(req.body);
    NestedFlatten();
  }

  /** The two extractors differ: the same JSON POST body gives the event
      builder the flattened key `a.b`, but gives the detector the key `a`
      holding the nested dict. */
  lemma ExtractorsDiffer(reg: Registry, req: Request)
    requires NestedJsonPost(req)
    ensures AllParams(req) == [("a", JObj([("b", JStr("x"))]))]
    ensures RequestData(reg, req, "Facebook") == Ok(Single(Update(Seed(req), [("a.b", "x")])))
  {
    DetectorKeepsNesting(req);
    BuilderFlattens(reg, req);
  }

  /** The flow as the detector sees it: its request, and the parameter dict
      `_get_all_params` memoises on it (`_all_params_dict`). */
  class Flow {
    const request: Request
    var memo: Option<Params>

    /** The memo, once set, is the request's parameters. */
    predicate Valid()
      reads this
    {
      memo.Some? ==> memo.value == AllParams(request)
    }

    constructor(req: Request)
      ensures request == req && memo == None && Valid()
    {
      request := req;
      memo := None;
    }
  }

  // ---------------------------------------------------------------------
  // `_is_regional_ga4`

  const Ga4Paths: seq<string> := ["/g/collect", "/g/s/collect", "/collect", "/r/collect", "/gtag/js", "/mp/collect", "/td"]

  /** The number of leading lower-case ASCII letters. */
  function LowerRun(s: string): (n: nat)
    ensures n <= |s|
    ensures forall i | 0 <= i < n :: IsLowerLetter(s[i])
    ensures n < |s| ==> !IsLowerLetter(s[n])
  {
    if |s| > 0 && IsLowerLetter(s[0]) then 1 + LowerRun(s[1..]) else 0
  }

  /** `\d*` */
  predicate OptDigits(s: string) {
    |s| == 0 || IsDigits(s)
  }

  /** `region\d+` */
  predicate RegionLabel(l: string) {
    StartsWith(l, "region") && IsDigits(l[6..])
  }

  /** `[a-z]{2,5}\d*` */
  predicate ShortLabel(l: string) {
    2 <= LowerRun(l) <= 5 && OptDigits(l[LowerRun(l)..])
  }

  /** The host as an anchored `...$` sees it: one trailing newline is ignored. */
  function DollarCore(host: string): (r: string)
    ensures |r| <= |host|
  {
    if |host| > 0 && host[|host| - 1] == '\n' then host[..|host| - 1] else host
  }

  /** `host` is a regional label followed by `suffix`. */
  predicate LabelBefore(host: string, suffix: string) {
    EndsWith(host, suffix) &&
    (RegionLabel(host[..|host| - |suffix|]) || ShortLabel(host[..|host| - |suffix|]))
  }

  /** The four regional host patterns. */
  predicate RegionalHost(host: string) {
    LabelBefore(DollarCore(host), ".analytics.google.com") ||
    LabelBefore(DollarCore(host), ".google-analytics.com")
  }

  predicate IsRegionalGa4(host: string, path: string) {
    StartsWithAny(path, Ga4Paths) && RegionalHost(host)
  }

  /** A good label followed by one of the two suffixes is regional, with or
      without one trailing newline. */
  lemma RegionalByParts(lab: string, suffix: string)
    requires suffix == ".analytics.google.com" || suffix == ".google-analytics.com"
    requires RegionLabel(lab) || ShortLabel(lab)
    ensures RegionalHost(lab + suffix) && RegionalHost(lab + suffix + "\n")
  {
    var h := lab + suffix;
    assert DollarCore(h) == h;
    assert DollarCore(h + "\n") == h;
    assert h[..|h| - |suffix|] == lab;
    assert h[|h| - |suffix|..] == suffix;
  }

  lemma RegionalRegion1()
    ensures RegionalHost("region1" + ".analytics.google.com")
  {
    assert "region1"[..6] == "region" && "region1"[6..] == "1";
    RegionalByParts("region1", ".analytics.google.com");
  }

  /** The short-label pattern also admits the ordinary `www.` host. */
  lemma RegionalWww()
    ensures RegionalHost("www" + ".google-analytics.com")
  {
    assert LowerRun("www") == 3 by {
      assert "www"[1..] == "ww" && "ww"[1..] == "w" && "w"[1..] == "";
    }
    RegionalByParts("www", ".google-analytics.com");
  }

  /** `$` also matches before a final newline. */
  lemma RegionalTrailingNewline()
    ensures RegionalHost("eu2" + ".analytics.google.com" + "\n")
  {
    assert LowerRun("eu2") == 2 by {
      assert "eu2"[1..] == "u2" && "u2"[1..] == "2";
    }
    assert "eu2"[2..] == "2";
    RegionalByParts("eu2", ".analytics.google.com");
  }

  /** `region` without digits is neither a `region\d+` label nor a label of
      at most five letters. */
  lemma NotRegionalBareRegion()
    ensures !RegionalHost("region" + ".analytics.google.com")
  {
    var lab, suffix := "region", ".analytics.google.com";
    var h := lab + suffix;
    assert DollarCore(h) == h;
    assert h[..|h| - |suffix|] == lab;
    assert lab[6..] == "";
    assert LowerRun(lab) == 6 by {
      assert lab[1..] == "egion" && "egion"[1..] == "gion" && "gion"[1..] == "ion";
      assert "ion"[1..] == "on" && "on"[1..] == "n" && "n"[1..] == "";
    }
    assert !EndsWith(h, ".google-analytics.com") by {
      assert h[|h| - 21..] == suffix;
      assert suffix[1] != ".google-analytics.com"[1];
    }
  }

  // ---------------------------------------------------------------------
  // `_detect_standard_platform`

  /** Taboola's `/trc/` endpoints, recognised before the registry. */
  predicate TaboolaTrc(host: string, path: string) {
    host == "trc.taboola.com" && Contains(path, "/trc/")
  }

  /** The GTM script on any domain. */
  predicate GtmScript(path: string) {
    path == "/gtm.js" || StartsWith(path, "/gtm.js?")
  }

  /** A platform lists the host and one of its paths prefixes the path. */
  predicate HostPathMatch(pc: PlatformConfig, host: string, path: string) {
    host in pc.hosts && exists p | p in pc.paths :: StartsWith(path, p)
  }

  /** The first registry entry from `i` on that matches host and path. */
  function FirstHostPath(reg: Registry, host: string, path: string, i: nat): (r: Option<nat>)
    requires i <= |reg|
    ensures r.Some? ==> i <= r.value < |reg| && HostPathMatch(reg[r.value].1, host, path)
    ensures r.Some? ==> forall j | i <= j < r.value :: !HostPathMatch(reg[j].1, host, path)
    ensures r.None? ==> forall j | i <= j < |reg| :: !HostPathMatch(reg[j].1, host, path)
    decreases |reg| - i
  {
    if i == |reg| then None
    else if HostPathMatch(reg[i].1, host, path) then Some(i)
    else FirstHostPath(reg, host, path, i + 1)
  }

  /** The first registry entry from `i` on that lists the host. */
  function FirstHost(reg: Registry, host: string, i: nat): (r: Option<nat>)
    requires i <= |reg|
    ensures r.Some? ==> i <= r.value < |reg| && host in reg[r.value].1.hosts
    ensures r.Some? ==> forall j | i <= j < r.value :: host !in reg[j].1.hosts
    ensures r.None? ==> forall j | i <= j < |reg| :: host !in reg[j].1.hosts
    decreases |reg| - i
  {
    if i == |reg| then None
    else if host in reg[i].1.hosts then Some(i)
    else FirstHost(reg, host, i + 1)
  }

  function StandardPlatform(reg: Registry, host: string, path: string): string {
    if TaboolaTrc(host, path) then "Taboola"
    else if GtmScript(path) then "GA4"
    else
      match FirstHostPath(reg, host, path, 0)
      case Some(i) => reg[i].0
      case None =>
        match FirstHost(reg, host, 0)
        case Some(i) => reg[i].0
        case None => "Custom Tracking"
  }

  /** First pass: the first entry, in table order, listing the host with a
      matching path prefix wins. */
  lemma StandardFirstPass(reg: Registry, host: string, path: string, i: nat)
    requires !TaboolaTrc(host, path) && !GtmScript(path)
    requires i < |reg| && HostPathMatch(reg[i].1, host, path)
    requires forall j | 0 <= j < i :: !HostPathMatch(reg[j].1, host, path)
    ensures StandardPlatform(reg, host, path) == reg[i].0
  {
    var f := FirstHostPath(reg, host, path, 0);
    assert f.Some? && f.value == i;
  }

  /** Second pass: without any host-and-path match, the first entry listing
      the host wins. */
  lemma StandardSecondPass(reg: Registry, host: string, path: string, i: nat)
    requires !TaboolaTrc(host, path) && !GtmScript(path)
    requires forall j | 0 <= j < |reg| :: !HostPathMatch(reg[j].1, host, path)
    requires i < |reg| && host in reg[i].1.hosts
    requires forall j | 0 <= j < i :: host !in reg[j].1.hosts
    ensures StandardPlatform(reg, host, path) == reg[i].0
  {
    var f := FirstHostPath(reg, host, path, 0);
    assert f.None?;
    var g := FirstHost(reg, host, 0);
    assert g.Some? && g.value == i;
  }

  /** A host no platform lists is "Custom Tracking" (outside the two special
      cases); any other answer names a platform listing the host. */
  lemma StandardFallback(reg: Registry, host: string, path: string)
    requires !TaboolaTrc(host, path) && !GtmScript(path)
    ensures (forall j | 0 <= j < |reg| :: host !in reg[j].1.hosts) ==> StandardPlatform(reg, host, path) == "Custom Tracking"
    ensures (exists j | 0 <= j < |reg| :: host in reg[j].1.hosts) ==>
              exists j | 0 <= j < |reg| :: host in reg[j].1.hosts && StandardPlatform(reg, host, path) == reg[j].0
  {
  }

  // ---------------------------------------------------------------------
  // `_check_server_side_tracking`

  /** The hosts of the first `n` platforms. */
  function HostsUpTo(reg: Registry, n: nat): (r: set<string>)
    requires n <= |reg|
    ensures forall h :: h in r <==> exists i | 0 <= i < n :: h in reg[i].1.hosts
  {
    if n == 0 then {}
    else
      HostsUpTo(reg, n - 1) + reg[n - 1].1.hosts
  }

  /** Every host some platform lists. */
  function KnownHosts(reg: Registry): set<string> {
    HostsUpTo(reg, |reg|)
  }

  /** The server-side verdict for a request to a host no platform lists:
      "sGTM" from an advanced score of 3, "Custom Tracking" from 1, nothing
      below that. Taboola's `/trc/` endpoints and every listed host are never
      scored. Scoring raises when `gtm` or `tid` is not a string. */
  function ServerSideCheck(reg: Registry, host: string, path: string, req: Request): (r: Result<Option<string>>)
    ensures TaboolaTrc(host, path) || host in KnownHosts(reg) ==> r == Ok(None)
    ensures r == Ok(Some("sGTM")) <==>
              !TaboolaTrc(host, path) && host !in KnownHosts(reg) &&
              AdvancedDetection(AllParams(req)).Ok? && AdvancedDetection(AllParams(req)).value.score >= 3
    ensures r == Ok(Some("Custom Tracking")) <==>
              !TaboolaTrc(host, path) && host !in KnownHosts(reg) &&
              AdvancedDetection(AllParams(req)).Ok? && 1 <= AdvancedDetection(AllParams(req)).value.score < 3
    ensures r.Ok? && r.value.Some? ==> r.value.value in {"sGTM", "Custom Tracking"}
  {
    if TaboolaTrc(host, path) then Ok(None)
    else if host in KnownHosts(reg) then Ok(None)
    else
      match AdvancedDetection(AllParams(req))
      case Raise(e) => Raise(e)
      case Ok(v) =>
        if v.isServerSide && v.platform == "sGTM" then Ok(Some("sGTM"))
        else if v.isServerSide && v.platform == "Custom Tracking" then Ok(Some("Custom Tracking"))
        else Ok(None)
  }

  // ---------------------------------------------------------------------
  // `detect_platform`

  /** The cache key. */
  function CacheKey(host: string, path: string): string {
    host + ":" + path
  }

  predicate PrivacySandboxPath(path: string) {
    Contains(path, "/privacy-sandbox") || Contains(path, "/privacy_sandbox")
  }

  const ConsentHosts: seq<string> := ["www.google.com", "google.com", "www.googletagmanager.com", "googletagmanager.com"]

  /** The uncached decision of `detect_platform`; `req` is the flow's request,
      absent when no flow is given. */
  function Detect(reg: Registry, host: string, path: string, req: Option<Request>): Result<string> {
    if PrivacySandboxPath(path) then Ok("Privacy Sandbox")
    else if path == "/ccm/collect" && host in ConsentHosts then Ok("Google Consent Collection")
    else if IsRegionalGa4(host, path) then Ok("GA4")
    else if req.Some? then
      match ServerSideCheck(reg, host, path, req.value)
      case Raise(e) => Raise(e)
      case Ok(v) => if v == Some("sGTM") then Ok("sGTM") else Ok(StandardPlatform(reg, host, path))
    else Ok(StandardPlatform(reg, host, path))
  }

  /** The priority chain: privacy sandbox paths on any host, then the consent
      module on the four Google hosts, then regional GA4, then sGTM (only with
      a flow and an advanced score of at least 3), then the standard search. */
  lemma DetectPriority(reg: Registry, host: string, path: string, req: Option<Request>)
    ensures PrivacySandboxPath(path) ==> Detect(reg, host, path, req) == Ok("Privacy Sandbox")
    ensures !PrivacySandboxPath(path) && path == "/ccm/collect" && host in ConsentHosts ==>
              Detect(reg, host, path, req) == Ok("Google Consent Collection")
    ensures !PrivacySandboxPath(path) && !(path == "/ccm/collect" && host in ConsentHosts) && IsRegionalGa4(host, path) ==>
              Detect(reg, host, path, req) == Ok("GA4")
    ensures Detect(reg, host, path, req) == Ok("sGTM") ==>
              StandardPlatform(reg, host, path) == "sGTM" ||
              (req.Some? && host !in KnownHosts(reg) &&
               AdvancedDetection(AllParams(req.value)).Ok? && AdvancedDetection(AllParams(req.value)).value.score >= 3)
  {
  }

  /** Without a flow nothing is scored, so detection cannot fail. */
  lemma DetectWithoutFlow(reg: Registry, host: string, path: string)
    ensures Detect(reg, host, path, None).Ok?
    ensures !PrivacySandboxPath(path) && !(path == "/ccm/collect" && host in ConsentHosts) && !IsRegionalGa4(host, path) ==>
              Detect(reg, host, path, None) == Ok(StandardPlatform(reg, host, path))
  {
  }

  /** The flow changes the answer only through an sGTM verdict: a
      "Custom Tracking" or empty verdict falls through to the standard search,
      and a listed host is decided exactly as without a flow. */
  lemma FlowMattersOnlyForSgtm(reg: Registry, host: string, path: string, req: Request)
    requires ServerSideCheck(reg, host, path, req).Ok? && ServerSideCheck(reg, host, path, req) != Ok(Some("sGTM"))
    ensures Detect(reg, host, path, Some(req)) == Detect(reg, host, path, None)
  {
  }

  lemma KnownHostIgnoresFlow(reg: Registry, host: string, path: string, req: Request)
    requires host in KnownHosts(reg)
    ensures Detect(reg, host, path, Some(req)) == Detect(reg, host, path, None)
  {
  }

  const CommonPlatforms: set<string> := {"GA4", "Facebook", "TikTok", "Google Ads", "sGTM"}

  /** The detector with its `platform_cache`. */
  class PlatformDetector {
    var cache: map<string, string>

    constructor()
      ensures cache == map[]
    {
      cache := map[];
    }

    /** `_get_all_params`: the memoised parameters of the flow. */
    method GetAllParams(flow: Flow) returns (params: Params)
      requires flow.Valid()
      modifies flow
      ensures params == AllParams(flow.request)
      ensures flow.memo == Some(params) && flow.Valid()
    {
      if flow.memo.Some? {
        return flow.memo.value;
      }
      params := AllParams(flow.request);
      flow.memo := Some(params);
    }

    /** `_check_server_side_tracking`, collecting the listed hosts platform by
      platform and reading the flow's parameters only for unlisted hosts. */
    method CheckServerSideTracking(reg: Registry, host: string, path: string, flow: Flow) returns (r: Result<Option<string>>)
      requires flow.Valid()
      modifies flow
      ensures flow.Valid()
      ensures r == ServerSideCheck(reg, host, path, flow.request)
    {
      var known: set<string> := {};
      var i := 0;
      while i < |reg|
        invariant 0 <= i <= |reg|
        invariant known == HostsUpTo(reg, i)
      {
        known := known + reg[i].1.hosts;
        i := i + 1;
      }
      if TaboolaTrc(host, path) {
        return Ok(None);
      }
      if host in known {
        return Ok(None);
      }
      var params := GetAllParams(flow);
      var v := AdvancedDetection(params);
      if v.Raise? {
        return Raise(v.exc);
      }
      if v.value.isServerSide && v.value.platform == "sGTM" {
        r := Ok(Some("sGTM"));
      } else if v.value.isServerSide && v.value.platform == "Custom Tracking" {
        r := Ok(Some("Custom Tracking"));
      } else {
        r := Ok(None);
      }
    }

    /** `_detect_standard_platform`, scanning the registry twice in table order. */
    method DetectStandardPlatform(reg: Registry, host: string, path: string) returns (platform: string)
      ensures platform == StandardPlatform(reg, host, path)
    {
      if TaboolaTrc(host, path) {
        return "Taboola";
      }
      if GtmScript(path) {
        return "GA4";
      }
      var i := 0;
      while i < |reg|
        invariant 0 <= i <= |reg|
        invariant FirstHostPath(reg, host, path, 0) == FirstHostPath(reg, host, path, i)
      {
        if HostPathMatch(reg[i].1, host, path) {
          return reg[i].0;
        }
        i := i + 1;
      }
      i := 0;
      while i < |reg|
        invariant 0 <= i <= |reg|
        invariant FirstHost(reg, host, 0) == FirstHost(reg, host, i)
      {
        if host in reg[i].1.hosts {
          return reg[i].0;
        }
        i := i + 1;
      }
      platform := "Custom Tracking";
    }

    /** `detect_platform`: a cached label is returned as it is; otherwise the
      priority chain decides and its label is stored under `host:path`. A
      scoring error escapes and stores nothing. */
    method DetectPlatform(reg: Registry, host: string, path: string, flow: Flow?) returns (r: Result<string>)
      requires flow != null ==> flow.Valid()
      modifies this, flow
      ensures flow != null ==> flow.Valid()
      ensures CacheKey(host, path) in old(cache) ==> r == Ok(old(cache)[CacheKey(host, path)]) && cache == old(cache)
      ensures CacheKey(host, path) !in old(cache) ==>
                r == Detect(reg, host, path, if flow == null then None else Some(flow.request))
      ensures CacheKey(host, path) !in old(cache) && r.Ok? ==> cache == old(cache)[CacheKey(host, path) := r.value]
      ensures r.Raise? ==> cache == old(cache)
    {
      var key := CacheKey(host, path);
      if key in cache {
        return Ok(cache[key]);
      }
      if PrivacySandboxPath(path) {
        cache := cache[key := "Privacy Sandbox"];
        return Ok("Privacy Sandbox");
      }
      if path == "/ccm/collect" && host in ConsentHosts {
        cache := cache[key := "Google Consent Collection"];
        return Ok("Google Consent Collection");
      }
      if IsRegionalGa4(host, path) {
        cache := cache[key := "GA4"];
        return Ok("GA4");
      }
      if flow != null {
        var verdict := CheckServerSideTracking(reg, host, path, flow);
        if verdict.Raise? {
          return Raise(verdict.exc);
        }
        if verdict.value == Some("sGTM") {
          cache := cache[key := "sGTM"];
          return Ok("sGTM");
        }
      }
      var platform := DetectStandardPlatform(reg, host, path);
      cache := cache[key := platform];
      r := Ok(platform);
    }

    /** `clear_cache`: beyond 200 entries only the entries labelled with one
      of the five common platforms are kept. */
    method ClearCache()
      modifies this
      ensures |old(cache)| <= 200 ==> cache == old(cache)
      ensures |old(cache)| > 200 ==> forall k :: k in cache <==> k in old(cache) && old(cache)[k] in CommonPlatforms
      ensures |old(cache)| > 200 ==> forall k | k in cache :: cache[k] == old(cache)[k]
    {
      if |cache| > 200 {
        var common := map k | k in cache && cache[k] in CommonPlatforms :: cache[k];
        cache := common;
      }
    }

    /** `is_server_side_tracking_request`: the basic (parameter-only) check. */
    method IsServerSideTrackingRequest(reg: Registry, flow: Flow) returns (b: bool)
      requires flow.Valid()
      modifies flow
      ensures flow.Valid()
      ensures b == HasTrackingIndicators(AllParams(flow.request), reg)
    {
      var params := GetAllParams(flow);
      b := BasicDetection(params, reg).isServerSide;
    }

    /** `is_tracking_request`: the basic server-side check, then a listed host
      with a tracking path that prefixes the path or, loosely, occurs in it. */
    method IsTrackingRequest(reg: Registry, allHosts: set<string>, allPaths: set<string>, flow: Flow) returns (b: bool)
      requires flow.Valid()
      modifies flow
      ensures flow.Valid()
      ensures b == TrackingRequest(reg, allHosts, allPaths, flow.request)
    {
      var serverSide := IsServerSideTrackingRequest(reg, flow);
      if serverSide {
        return true;
      }
      var host := flow.request.host;
      var path := flow.request.path;
      if host in allHosts {
        if exists p | p in allPaths :: StartsWith(path, p) {
          return true;
        }
        var rest := allPaths;
        while rest != {}
          invariant rest <= allPaths
          invariant forall p | p in allPaths - rest :: !FlexibleMatch(p, path)
          decreases |rest|
        {
          var p :| p in rest;
          if FlexibleMatch(p, path) {
            return true;
          }
          rest := rest - {p};
        }
      }
      b := false;
    }
  }

  /** The loose comparison of `is_tracking_request`, as written: the tracking
      path without trailing slashes against the request path without trailing
      slashes and query. */
  predicate FlexibleMatch(trackingPath: string, path: string) {
    var cleanTracking := RStrip(trackingPath, '/');
    var cleanRequest := Split(RStrip(path, '/'), "?")[0];
    Contains(cleanRequest, cleanTracking) ||
    StartsWith(cleanRequest, cleanTracking) ||
    (EndsWith(cleanTracking, "/") && StartsWith(cleanRequest, RStrip(cleanTracking, '/')))
  }

  /** The loose comparison is plain containment: the prefix test implies it
      and the third test can never hold, since the stripped tracking path
      does not end in a slash. */
  lemma FlexibleIsContainment(trackingPath: string, path: string)
    ensures FlexibleMatch(trackingPath, path) <==>
              Contains(Split(RStrip(path, '/'), "?")[0], RStrip(trackingPath, '/'))
  {
    var ct := RStrip(trackingPath, '/');
    var cr := Split(RStrip(path, '/'), "?")[0];
    if StartsWith(cr, ct) {
      StartsWithContains(cr, ct);
    }
    assert !EndsWith(ct, "/");
  }

  predicate TrackingPath(allHosts: set<string>, allPaths: set<string>, host: string, path: string) {
    host in allHosts &&
    ((exists p | p in allPaths :: StartsWith(path, p)) || (exists p | p in allPaths :: FlexibleMatch(p, path)))
  }

  function TrackingRequest(reg: Registry, allHosts: set<string>, allPaths: set<string>, req: Request): bool {
    HasTrackingIndicators(AllParams(req), reg) || TrackingPath(allHosts, allPaths, req.host, req.path)
  }

  /** A tracking path of "/" makes every request to a listed host a tracking
      request, whatever its path. */
  lemma RootTrackingPathMatchesAll(allHosts: set<string>, allPaths: set<string>, host: string, path: string)
    requires host in allHosts && "/" in allPaths
    ensures TrackingPath(allHosts, allPaths, host, path)
  {
    assert RStrip("/", '/') == "" by {
      assert StartsWith("/", RStrip("/", '/'));
    }
    var cr := Split(RStrip(path, '/'), "?")[0];
    assert OccursAt(cr, "", 0);
    assert FlexibleMatch("/", path);
  }

  /** A host no platform and no tracking list knows is a tracking request only
      through the basic parameter check. */
  lemma UnlistedHostNeedsIndicators(reg: Registry, allHosts: set<string>, allPaths: set<string>, req: Request)
    requires req.host !in allHosts
    ensures TrackingRequest(reg, allHosts, allPaths, req) == HasTrackingIndicators(AllParams(req), reg)
  {
  }

  /** `is_server_side_gtm_request`: the registry must hold GA4 and (when the
      host is not a GA4 host) DoubleClick, else `KeyError`; their hosts are
      never sGTM; any other host is sGTM from an advanced score of 3. */
  function ServerSideGtm(reg: Registry, host: string, req: Request): (r: Result<bool>)
    ensures !HasKey(reg, "GA4") ==> r == Raise(KeyError)
    ensures HasKey(reg, "GA4") && host in Dicts.Get(reg, "GA4").value.hosts ==> r == Ok(false)
    ensures r == Ok(true) ==> AdvancedDetection(AllParams(req)).Ok? && AdvancedDetection(AllParams(req)).value.score >= 3
  {
    match Dicts.Get(reg, "GA4")
    case None => Raise(KeyError)
    case Some(ga4) =>
      if host in ga4.hosts then Ok(false)
      else
        match Dicts.Get(reg, "DoubleClick")
        case None => Raise(KeyError)
        case Some(dc) =>
          if host in dc.hosts then Ok(false)
          else
            match AdvancedDetection(AllParams(req))
            case Raise(e) => Raise(e)
            case Ok(v) => Ok(v.isServerSide && v.platform == "sGTM")
  }
}
