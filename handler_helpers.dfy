/** Helpers the event handlers share: the domain of a page URL, the
    value/currency line, the count of `~`-separated experiments, the
    `re.search` patterns that pull a numeric id out of a path, and the ordered
    lookup tables the handlers scan for their first match. */
module HandlerHelpers {
  import opened Wrappers
  import opened Strings

  /** The last piece of a join is a suffix of it. */
  lemma {:induction false} JoinEndsWithLast(parts: seq<string>, sep: string)
    requires |parts| > 0
    ensures EndsWith(Join(parts, sep), Last(parts))
    decreases |parts|
  {
    if |parts| > 1 {
      JoinEndsWithLast(parts[1..], sep);
      assert Last(parts[1..]) == Last(parts);
    }
  }

  /** `s` occurs in `a + s + b`. */
  lemma ContainsMiddle(a: string, s: string, b: string)
    ensures Contains(a + s + b, s)
  {
    assert (a + s + b)[|a|..|a| + |s|] == s;
    assert OccursAt(a + s + b, s, |a|);
  }

  /** The domain the handlers show for a page URL: the text after the last "//"
      up to the next "/", or the whole URL when it holds no "//". */
  function DomainOf(url: string): (r: string)
    ensures Contains(url, r)
    ensures Contains(url, "//") ==> '/' !in r
    ensures !Contains(url, "//") ==> r == url
  {
    if Contains(url, "//") then
      var pieces := Split(url, "//");
      var tail := Last(pieces);
      var r := Before(tail, "/");
      JoinSplit(url, "//");
      JoinEndsWithLast(pieces, "//");
      SplitPrefix(tail, "/");
      SplitPiecesFree(tail, "/", 0);
      ContainsChar(r, '/');
      assert url == url[..|url| - |tail|] + r + tail[|r|..];
      ContainsMiddle(url[..|url| - |tail|], r, tail[|r|..]);
      r
    else
      assert OccursAt(url, url, 0);
      url
  }

  /** The LinkedIn handler's variant: without "//" the URL is also cut at
      its first "/", so the result never holds a slash. */
  function LinkedInDomainOf(url: string): (r: string)
    ensures Contains(url, r)
    ensures '/' !in r
    ensures Contains(url, "//") ==> r == DomainOf(url)
  {
    if Contains(url, "//") then DomainOf(url)
    else
      var r := Before(url, "/");
      SplitPrefix(url, "/");
      SplitPiecesFree(url, "/", 0);
      ContainsChar(r, '/');
      assert url == "" + r + url[|r|..];
      ContainsMiddle("", r, url[|r|..]);
      r
  }

  const ValueLabel := "value:"

  /** The base handler's `value: <value> <currency>` line, with surrounding
      whitespace stripped. */
  function FormatValueCurrency(value: string, currency: string): (r: string)
    ensures StartsWith(r, ValueLabel)
  {
    var s := ValueLabel + " " + value + " " + currency;
    assert s[..|ValueLabel|] == ValueLabel;
    StripKeepsPrefix(s, |ValueLabel|);
    Strip(s)
  }

  /** Stripping keeps a prefix that begins and ends with non-whitespace. */
  lemma StripKeepsPrefix(s: string, k: nat)
    requires 0 < k <= |s| && !IsSpace(s[0]) && !IsSpace(s[k - 1])
    ensures StartsWith(Strip(s), s[..k])
  {
    assert LStrip(s) == s;
    RStripKeeps(s, k);
  }

  lemma {:induction false} RStripKeeps(s: string, k: nat)
    requires 0 < k <= |s| && !IsSpace(s[k - 1])
    ensures |RStripWhere(s, IsSpace)| >= k
    decreases |s|
  {
    if IsSpace(s[|s| - 1]) {
      RStripKeeps(s[..|s| - 1], k);
    }
  }

  /** Dropping one trailing blank before stripping changes nothing. */
  lemma RStripSpace(s: string)
    ensures RStripWhere(s + " ", IsSpace) == RStripWhere(s, IsSpace)
  {
    assert (s + " ")[..|s + " "| - 1] == s;
  }

  /** With a currency the line is `value: <value> <currency>`; without one it is
      `value: <value>`, as long as the last word carries no trailing blank. */
  lemma FormatValueCurrencyShape(value: string, currency: string)
    requires |currency| > 0 ==> !IsSpace(currency[|currency| - 1])
    requires |currency| == 0 ==> |value| > 0 && !IsSpace(value[|value| - 1])
    ensures |currency| > 0 ==> FormatValueCurrency(value, currency) == ValueLabel + " " + value + " " + currency
    ensures |currency| == 0 ==> FormatValueCurrency(value, currency) == ValueLabel + " " + value
  {
    var s := ValueLabel + " " + value + " " + currency;
    if |currency| > 0 {
      assert s[0] == 'v';
      StripUnpadded(s);
    } else {
      var t := ValueLabel + " " + value;
      assert s == t + " ";
      assert LStrip(s) == s;
      RStripSpace(t);
      assert t[|t| - 1] == value[|value| - 1];
      assert RStripWhere(t, IsSpace) == t;
    }
  }

  /** The number of occurrences of `c` in `s`. */
  function Occurrences(s: string, c: char): nat {
    if |s| == 0 then 0 else (if s[0] == c then 1 else 0) + Occurrences(s[1..], c)
  }

  /** The tag-experiment count `len(exp.split('~'))`. */
  function ExperimentCount(exp: string): (r: nat)
    ensures r == Occurrences(exp, '~') + 1
  {
    SplitCount(exp, '~');
    |Split(exp, "~")|
  }

  /** Splitting on one character gives one more piece than it has occurrences. */
  lemma {:induction false} SplitCount(s: string, c: char)
    ensures |Split(s, [c])| == Occurrences(s, c) + 1
    decreases |s|
  {
    if |s| >= 1 {
      SplitCount(s[1..], c);
    }
  }

  /** The length of the run of ASCII digits at the start of `s`. */
  function DigitRun(s: string): (n: nat)
    ensures n <= |s|
    ensures forall i | 0 <= i < n :: IsDigit(s[i])
    ensures n < |s| ==> !IsDigit(s[n])
  {
    if |s| > 0 && IsDigit(s[0]) then 1 + DigitRun(s[1..]) else 0
  }

  /** What the patterns demand right after the digits: nothing, a "/", or one
      of "/", "?" and the end of the text (Python's `$` also matches just
      before a final newline). */
  datatype Follow = Anything | Slash | SlashQueryOrEnd

  predicate FollowOk(rest: string, f: Follow) {
    match f
    case Anything => true
    case Slash => |rest| > 0 && rest[0] == '/'
    case SlashQueryOrEnd => |rest| == 0 || rest == "\n" || rest[0] == '/' || rest[0] == '?'
  }

  /** `tail` starts with one or more digits, followed as `f` demands. Since
      `\d+` is greedy and what follows is never a digit, the digits are the
      whole run. */
  predicate GroupAt(tail: string, f: Follow) {
    DigitRun(tail) > 0 && FollowOk(tail[DigitRun(tail)..], f)
  }

  /** The pattern `lit(\d+)<f>` matches at index `i` of `s`. */
  predicate MatchesAt(s: string, lit: string, f: Follow, i: int) {
    OccursAt(s, lit, i) && GroupAt(s[i + |lit|..], f)
  }

  /** `re.search`: the leftmost index from `i` on where the pattern matches. */
  function Leftmost(s: string, lit: string, f: Follow, i: nat): (r: Option<nat>)
    ensures r.Some? ==> i <= r.value && MatchesAt(s, lit, f, r.value)
    ensures r.Some? ==> forall k | i <= k < r.value :: !MatchesAt(s, lit, f, k)
    ensures r.None? ==> forall k | i <= k :: !MatchesAt(s, lit, f, k)
    decreases |s| - i
  {
    if i > |s| then None
    else if MatchesAt(s, lit, f, i) then Some(i)
    else Leftmost(s, lit, f, i + 1)
  }

  /** The digits captured by a match at index `i`. */
  function Group(s: string, lit: string, i: nat): string
    requires i + |lit| <= |s|
  {
    var tail := s[i + |lit|..];
    tail[..DigitRun(tail)]
  }

  /** A match at `i` captures digits, and the literal followed by them
      occurs in the text. */
  lemma GroupOccurs(s: string, lit: string, f: Follow, i: nat)
    requires MatchesAt(s, lit, f, i)
    ensures IsDigits(Group(s, lit, i)) && Contains(s, lit + Group(s, lit, i))
  {
    var g := Group(s, lit, i);
    var j := i + |lit|;
    assert s[i..j] == lit;
    assert s[j..j + |g|] == g;
    assert s[i..j + |g|] == s[i..j] + s[j..j + |g|];
    assert OccursAt(s, lit + g, i);
  }

  /** `match.group(1)` of `re.search(lit + r'(\d+)' + f, s)`. */
  function SearchDigits(s: string, lit: string, f: Follow): (r: Option<string>)
    ensures r.Some? ==> IsDigits(r.value) && Contains(s, lit + r.value)
    ensures r.None? <==> forall k :: !MatchesAt(s, lit, f, k)
  {
    match Leftmost(s, lit, f, 0)
    case None => None
    case Some(i) =>
      GroupOccurs(s, lit, f, i);
      Some(Group(s, lit, i))
  }

  /** The Google Ads conversion path patterns, in the order they are tried. */
  const AdwordsPaths: seq<string> :=
    ["/pagead/1p-conversion/", "/pagead/conversion/", "/pagead/1p-user-list/", "/ads/conversion/"]

  /** The numeric id of the first pattern, from `n` on, that matches the path. */
  function AdwordsFrom(path: string, n: nat): (r: Option<string>)
    ensures r.Some? ==> IsDigits(r.value)
    ensures r.None? <==> forall k, i | n <= k < |AdwordsPaths| :: !MatchesAt(path, AdwordsPaths[k], SlashQueryOrEnd, i)
    decreases |AdwordsPaths| - n
  {
    if n >= |AdwordsPaths| then None
    else
      match SearchDigits(path, AdwordsPaths[n], SlashQueryOrEnd)
      case Some(id) => Some(id)
      case None => AdwordsFrom(path, n + 1)
  }

  /** `_extract_adwords_id`: the conversion id of a Google Ads path. */
  function AdwordsId(path: string): (r: Option<string>)
    ensures r.Some? ==> IsDigits(r.value)
    ensures r.None? <==> forall k, i | 0 <= k < |AdwordsPaths| :: !MatchesAt(path, AdwordsPaths[k], SlashQueryOrEnd, i)
  {
    AdwordsFrom(path, 0)
  }

  /** Patterns are tried in order: the id comes from the first pattern that
      matches anywhere in the path. */
  lemma {:induction false} AdwordsFirstPattern(path: string, n: nat, k: nat)
    requires n <= k < |AdwordsPaths|
    requires SearchDigits(path, AdwordsPaths[k], SlashQueryOrEnd).Some?
    requires forall j | n <= j < k :: SearchDigits(path, AdwordsPaths[j], SlashQueryOrEnd).None?
    ensures AdwordsFrom(path, n) == SearchDigits(path, AdwordsPaths[k], SlashQueryOrEnd)
    decreases k - n
  {
    var here := SearchDigits(path, AdwordsPaths[n], SlashQueryOrEnd);
    if n < k {
      assert here.None?;
      AdwordsFirstPattern(path, n + 1, k);
      assert AdwordsFrom(path, n) == AdwordsFrom(path, n + 1);
    } else {
      assert here.Some?;
    }
  }

  /** A path `/<digits>/...` yields the digits as its publisher segment. */
  function TaboolaPublisher(path: string): (r: Option<string>)
    ensures r.Some? ==> IsDigits(r.value)
  {
    var segments := Split(path, "/");
    if |segments| > 1 && IsDigits(segments[1]) then Some(segments[1]) else None
  }

  /** The publisher id of `/<digits>/<rest>` is the digits. */
  lemma PublisherOfPath(digits: string, rest: string)
    requires IsDigits(digits)
    ensures TaboolaPublisher("/" + digits + "/" + rest) == Some(digits)
  {
    assert '/' !in digits;
    SplitAfterFree(digits, rest, '/');
    SplitAfterFree("", digits + "/" + rest, '/');
    assert "" + "/" + (digits + "/" + rest) == "/" + digits + "/" + rest;
  }

  /** A path whose first segment is not all digits has no publisher. */
  lemma NoPublisherWithoutDigits(seg: string, rest: string)
    requires '/' !in seg && !IsDigits(seg)
    ensures TaboolaPublisher("/" + seg + "/" + rest).None?
  {
    SplitAfterFree(seg, rest, '/');
    SplitAfterFree("", seg + "/" + rest, '/');
    assert "" + "/" + (seg + "/" + rest) == "/" + seg + "/" + rest;
  }

  /** Some needle of `needles` occurs in `s` (Python `any(p in s for p in needles)`). */
  predicate AnyIn(s: string, needles: seq<string>) {
    exists k | 0 <= k < |needles| :: Contains(s, needles[k])
  }

  /** The first entry, from `i` on, whose needle occurs in `s`. */
  function FirstHit<V>(s: string, table: seq<(string, V)>, i: nat): (r: Option<nat>)
    ensures r.Some? ==> i <= r.value < |table| && Contains(s, table[r.value].0)
    ensures r.Some? ==> forall k | i <= k < r.value :: !Contains(s, table[k].0)
    ensures r.None? ==> forall k | i <= k < |table| :: !Contains(s, table[k].0)
    decreases |table| - i
  {
    if i >= |table| then None
    else if Contains(s, table[i].0) then Some(i)
    else FirstHit(s, table, i + 1)
  }

  /** The value of the first entry whose needle occurs in `s`, or `default`. */
  function Pick<V>(s: string, table: seq<(string, V)>, default: V): (r: V)
    ensures (forall k | 0 <= k < |table| :: !Contains(s, table[k].0)) ==> r == default
    ensures forall k | 0 <= k < |table| && Contains(s, table[k].0) ::
      exists j | 0 <= j <= k :: Contains(s, table[j].0) && r == table[j].1
  {
    match FirstHit(s, table, 0)
    case Some(j) => table[j].1
    case None => default
  }

  /** The consent-management providers, keyed by a host fragment, in lookup order. */
  const CmpProviders: seq<(string, string)> := [
    ("usercentrics", "Usercentrics"),
    ("cookielaw.org", "OneTrust"),
    ("onetrust.com", "OneTrust"),
    ("optanon", "OneTrust"),
    ("cookiebot.com", "Cookiebot"),
    ("consentmanager", "ConsentManager"),
    ("consensu.org", "ConsentManager"),
    ("iubenda.com", "Iubenda"),
    ("cookie-script.com", "CookieScript"),
    ("cdn.cookie-script.com", "CookieScript"),
    ("consent.cookie-script.com", "CookieScript"),
    ("quantcast.com", "Quantcast"),
    ("trustarc.com", "TrustArc"),
    ("didomi", "Didomi")
  ]

  /** `_detect_cmp_provider`: the provider of the first fragment in the
      lower-cased host, or "CMP". */
  function CmpProvider(host: string): (r: string)
    ensures (forall k | 0 <= k < |CmpProviders| :: !Contains(Lower(host), CmpProviders[k].0)) ==> r == "CMP"
    ensures forall k | 0 <= k < |CmpProviders| && Contains(Lower(host), CmpProviders[k].0) ::
      exists j | 0 <= j <= k :: Contains(Lower(host), CmpProviders[j].0) && r == CmpProviders[j].1
  {
    Pick(Lower(host), CmpProviders, "CMP")
  }
}
