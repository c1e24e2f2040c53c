/** `_format_pixel_id`: the kind of a pixel (property) id and its display
    form `<id> (<code>)`, from per-platform rules. */
module Formatter {
  import opened Wrappers
  import opened Strings
  import opened Dicts

  /** The display fields of a pixel id. */
  datatype PixelInfo = PixelInfo(id: string, kind: string, formatted: string)

  /** The tests the per-platform rules apply to an id. */
  datatype IdTest =
    | DigitsAtLeast(n: nat)   // ASCII digits only, at least n of them
    | AtLeast(n: nat)         // at least n characters
    | DashAtLeast(n: nat)     // holds a "-" and has at least n characters
    | Digits                  // ASCII digits only
    | Always

  /** A platform's rule: an ordered prefix table, or one test with the
      (type, code) it gives. */
  datatype IdRule =
    | Prefixes(table: seq<(string, (string, string))>)
    | Check(test: IdTest, kind: string, code: string)

  /** `PLATFORM_ID_FORMATTERS`, its prefix dicts and lambdas written as rules. */
  const IdRules: Dict<IdRule> := [
    ("GA4", Prefixes([("G-", ("GA4 Measurement ID", "GA4")),
                      ("UA-", ("Universal Analytics ID", "UA")),
                      ("CCM-", ("GA4 Consent Mode", "CCM"))])),
    ("Google Ads", Prefixes([("AW-", ("Google Ads Conversion ID", "Ads")),
                             ("G-", ("GA4 → Google Ads", "GA4→Ads"))])),
    ("Facebook", Check(DigitsAtLeast(15), "Facebook Pixel ID", "FB")),
    ("TikTok", Check(AtLeast(10), "TikTok Pixel Code", "TT")),
    ("Snapchat", Check(DashAtLeast(30), "Snapchat Pixel ID", "SC")),
    ("Pinterest", Check(Digits, "Pinterest Tag ID", "PIN")),
    ("LinkedIn", Check(Digits, "LinkedIn Partner ID", "LI")),
    ("Twitter/X", Check(Always, "Twitter/X Pixel ID", "X")),
    ("Microsoft/Bing", Check(Digits, "Bing UET Tag ID", "UET"))
  ]

  /** Platforms named after themselves: `<platform> Pixel ID`, coded by the
      first three letters upper-cased. */
  const NamedPlatforms: seq<string> := ["Amazon", "Criteo", "Reddit", "Quora", "Outbrain", "Taboola"]

  predicate Passes(test: IdTest, pid: string) {
    match test
    case DigitsAtLeast(n) => IsDigits(pid) && |pid| >= n
    case AtLeast(n) => |pid| >= n
    case DashAtLeast(n) => '-' in pid && |pid| >= n
    case Digits => IsDigits(pid)
    case Always => true
  }

  /** The first prefix, from `i` on, that the id starts with. */
  function FirstPrefix(pid: string, table: seq<(string, (string, string))>, i: nat): (r: Option<nat>)
    ensures r.Some? ==> i <= r.value < |table| && StartsWith(pid, table[r.value].0)
    ensures r.Some? ==> forall k | i <= k < r.value :: !StartsWith(pid, table[k].0)
    ensures r.None? ==> forall k | i <= k < |table| :: !StartsWith(pid, table[k].0)
    decreases |table| - i
  {
    if i >= |table| then None
    else if StartsWith(pid, table[i].0) then Some(i)
    else FirstPrefix(pid, table, i + 1)
  }

  /** What a platform's rule says about an id, if anything. A GA4 id no
      prefix matches that is longer than 10 characters is a GTM container. */
  function ApplyRule(rule: IdRule, pid: string, platform: string): (r: Option<(string, string)>)
    ensures rule.Check? ==> (r.Some? <==> Passes(rule.test, pid))
  {
    match rule
    case Prefixes(table) =>
      (match FirstPrefix(pid, table, 0)
       case Some(i) => Some(table[i].1)
       case None =>
         if platform == "GA4" && |pid| > 10 && !StartsWith(pid, "G-") && !StartsWith(pid, "UA-") then
           Some(("GTM Container (CCM)", "GTM-CCM"))
         else None)
    case Check(test, kind, code) => if Passes(test, pid) then Some((kind, code)) else None
  }

  /** The (type, code) of a non-empty id: its platform's rule, else the
      named-platform form, else the generic "Pixel/Property ID" coded by the
      platform name. */
  function Classify(pid: string, platform: string): (r: (string, string))
    ensures !HasKey(IdRules, platform) && platform !in NamedPlatforms ==> r == ("Pixel/Property ID", platform)
    ensures !HasKey(IdRules, platform) && platform in NamedPlatforms ==> r == (platform + " Pixel ID", Upper(Take(platform, 3)))
  {
    var byRule :=
      match Get(IdRules, platform)
      case Some(rule) => ApplyRule(rule, pid, platform)
      case None => None;
    match byRule
    case Some(result) => result
    case None =>
      if platform in NamedPlatforms then (platform + " Pixel ID", Upper(Take(platform, 3)))
      else ("Pixel/Property ID", platform)
  }

  /** `_format_pixel_id`: all fields empty for an empty id; otherwise the id
      itself, its type, and `<id> (<code>)`. */
  function FormatPixelId(pid: string, platform: string): (r: PixelInfo)
    ensures pid == "" ==> r == PixelInfo("", "", "")
    ensures pid != "" ==> r.id == pid && r.kind == Classify(pid, platform).0 &&
                          r.formatted == pid + " (" + Classify(pid, platform).1 + ")"
  {
    if pid == "" then PixelInfo("", "", "")
    else
      var c := Classify(pid, platform);
      PixelInfo(pid, c.0, pid + " (" + c.1 + ")")
  }

  lemma Ga4Rule()
    ensures Get(IdRules, "GA4") == Some(IdRules[0].1)
  {
    assert IdRules[0].0 == "GA4";
  }

  /** GA4 prefixes are tried in order G-, UA-, CCM-. */
  lemma Ga4Prefixes(pid: string)
    ensures StartsWith(pid, "G-") ==> Classify(pid, "GA4") == ("GA4 Measurement ID", "GA4")
    ensures !StartsWith(pid, "G-") && StartsWith(pid, "UA-") ==> Classify(pid, "GA4") == ("Universal Analytics ID", "UA")
    ensures !StartsWith(pid, "G-") && !StartsWith(pid, "UA-") && StartsWith(pid, "CCM-") ==>
              Classify(pid, "GA4") == ("GA4 Consent Mode", "CCM")
  {
    Ga4Rule();
  }

  /** A GA4 id longer than 10 characters that starts with none of the GA4
      prefixes is reported as a GTM container; a shorter one falls back to
      the generic type. */
  lemma Ga4Container(pid: string)
    requires !StartsWith(pid, "G-") && !StartsWith(pid, "UA-") && !StartsWith(pid, "CCM-")
    ensures |pid| > 10 ==> Classify(pid, "GA4") == ("GTM Container (CCM)", "GTM-CCM")
    ensures |pid| <= 10 ==> Classify(pid, "GA4") == ("Pixel/Property ID", "GA4")
  {
    Ga4Rule();
    assert "GA4" !in NamedPlatforms;
  }

  lemma GoogleAdsRule()
    ensures Get(IdRules, "Google Ads") == Some(IdRules[1].1)
  {
    assert IdRules[0].0 != "Google Ads";
    assert IdRules[1].0 == "Google Ads";
  }

  /** Google Ads ids: AW- before G-; other ids are generic. */
  lemma GoogleAdsPrefixes(pid: string)
    ensures StartsWith(pid, "AW-") ==> Classify(pid, "Google Ads") == ("Google Ads Conversion ID", "Ads")
    ensures !StartsWith(pid, "AW-") && StartsWith(pid, "G-") ==> Classify(pid, "Google Ads") == ("GA4 → Google Ads", "GA4→Ads")
    ensures !StartsWith(pid, "AW-") && !StartsWith(pid, "G-") ==> Classify(pid, "Google Ads") == ("Pixel/Property ID", "Google Ads")
  {
    GoogleAdsRule();
    assert "Google Ads" !in NamedPlatforms;
  }

  lemma FacebookRule()
    ensures Get(IdRules, "Facebook") == Some(Check(DigitsAtLeast(15), "Facebook Pixel ID", "FB"))
  {
    assert IdRules[0].0 != "Facebook";
    assert IdRules[1].0 != "Facebook";
    assert IdRules[2].0 == "Facebook";
  }

  /** A Facebook id is a pixel id exactly when it is at least 15 ASCII digits. */
  lemma FacebookIds(pid: string)
    ensures IsDigits(pid) && |pid| >= 15 ==> Classify(pid, "Facebook") == ("Facebook Pixel ID", "FB")
    ensures !(IsDigits(pid) && |pid| >= 15) ==> Classify(pid, "Facebook") == ("Pixel/Property ID", "Facebook")
  {
    FacebookRule();
    assert "Facebook" !in NamedPlatforms;
  }

  /** Taboola has no rule of its own and is a named platform. */
  lemma TaboolaNamed(pid: string)
    ensures Classify(pid, "Taboola") == ("Taboola" + " Pixel ID", Upper(Take("Taboola", 3)))
  {
    var k := "Taboola";
    assert NamedPlatforms[5] == k;
    assert forall i | 0 <= i < |IdRules| :: IdRules[i].0 != k;
  }
}
