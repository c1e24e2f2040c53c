/** DoubleClick Floodlight activity parameters, written into the URL path as
    `;key=value;key=value...` after `/ddm/activity/` or `activity;`. */
module Floodlight {
  import opened Wrappers
  import opened Strings
  import opened Dicts

  /** The parameters of a list of `key=value` pieces: a piece without "="
      is skipped, the key is the text before its first "=", the value the
      URL-decoded text after it, and a repeated key keeps its last value. */
  function ParamsFrom(pieces: seq<string>): (r: Dict<string>)
    ensures Keyed(r)
    ensures KeySet(r) == set i | 0 <= i < |pieces| && Contains(pieces[i], "=") :: Before(pieces[i], "=")
  {
    if |pieces| == 0 then []
    else
      var init := pieces[..|pieces| - 1];
      var p := pieces[|pieces| - 1];
      var r := ParamsFrom(init);
      assert forall i | 0 <= i < |init| :: init[i] == pieces[i];
      if Contains(p, "=") then
        PutKeySet(r, Before(p, "="), Unquote(After(p, "=")));
        Put(r, Before(p, "="), Unquote(After(p, "=")))
      else r
  }

  /** The parameters of `key=value;key=value...`. */
  function SemicolonParams(s: string): Dict<string> {
    ParamsFrom(Split(s, ";"))
  }

  method ParseSemicolonParams(s: string) returns (params: Dict<string>)
    ensures params == SemicolonParams(s)
  {
    var pieces := Split(s, ";");
    params := [];
    for i := 0 to |pieces|
      invariant params == ParamsFrom(pieces[..i])
    {
      assert pieces[..i + 1][..i] == pieces[..i];
      var piece := pieces[i];
      if Contains(piece, "=") {
        params := Put(params, Before(piece, "="), Unquote(After(piece, "=")));
      }
    }
    assert pieces[..|pieces|] == pieces;
  }

  /** A key holds the value of the last piece that sets it. */
  lemma {:induction false} LastPieceWins(pieces: seq<string>, i: nat)
    requires i < |pieces| && Contains(pieces[i], "=")
    requires forall j | i < j < |pieces| :: !(Contains(pieces[j], "=") && Before(pieces[j], "=") == Before(pieces[i], "="))
    ensures Get(ParamsFrom(pieces), Before(pieces[i], "=")) == Some(Unquote(After(pieces[i], "=")))
    decreases |pieces|
  {
    var init := pieces[..|pieces| - 1];
    var p := pieces[|pieces| - 1];
    if i < |pieces| - 1 {
      assert init[i] == pieces[i];
      assert forall j | i < j < |init| :: init[j] == pieces[j];
      LastPieceWins(init, i);
      if Contains(p, "=") {
        PutOther(ParamsFrom(init), Before(p, "="), Unquote(After(p, "=")), Before(pieces[i], "="));
      }
    }
  }

  /** The pixel id and event name built from activity parameters: the
      advertiser `src` (or "Unknown"), and `Floodlight_<type>[_<cat>]` with an
      `_ord<ord>` suffix unless the order is missing or "1". */
  function FloodlightIds(params: Dict<string>): (r: (string, string))
    ensures |r.0| > 0
    ensures StartsWith(r.1, "Floodlight_")
  {
    var src := GetOr(params, "src", "");
    var activityType := GetOr(params, "type", "");
    var category := GetOr(params, "cat", "");
    var ord := GetOr(params, "ord", "");
    var pixel := if src != "" then src else "Unknown";
    var name :=
      if activityType != "" && category != "" then "Floodlight_" + activityType + "_" + category
      else if activityType != "" then "Floodlight_" + activityType
      else "Floodlight_Activity";
    (pixel, if ord != "" && ord != "1" then name + "_ord" + ord else name)
  }

  const AdHost := "://ad.doubleclick.net/"
  const ActivityPrefix := "activity;"

  /** `_extract_activity_semicolon_params`: the ids of an
      `ad.doubleclick.net/activity;...` URL, or ("Unknown", "Floodlight_Activity"). */
  function ActivityIds(url: string): (r: (string, string))
    ensures !Contains(url, AdHost) ==> r == ("Unknown", "Floodlight_Activity")
  {
    if Contains(url, AdHost) then
      var part := Last(Split(url, AdHost));
      if StartsWith(part, ActivityPrefix) then FloodlightIds(SemicolonParams(part[|ActivityPrefix|..]))
      else ("Unknown", "Floodlight_Activity")
    else ("Unknown", "Floodlight_Activity")
  }

  /** A URL whose only `://ad.doubleclick.net/` is followed by
      `activity;<params>` takes its ids from `<params>`. */
  lemma ActivityFromParams(before: string, params: string)
    requires !Contains(before + AdHost[..|AdHost| - 1], AdHost)
    requires !Contains(ActivityPrefix + params, AdHost)
    ensures ActivityIds(before + AdHost + ActivityPrefix + params) == FloodlightIds(SemicolonParams(params))
  {
    var rest := ActivityPrefix + params;
    var url := before + AdHost + rest;
    assert url == before + AdHost + ActivityPrefix + params;
    assert url[|before|..|before| + |AdHost|] == AdHost;
    assert OccursAt(url, AdHost, |before|);
    SplitAt(before, rest, AdHost);
    SplitNoSep(rest, AdHost);
    assert rest[..|ActivityPrefix|] == ActivityPrefix;
    assert rest[|ActivityPrefix|..] == params;
  }

  const DdmMarker := "/ddm/activity/"

  /** `_extract_ddm_activity_info`: the ids of a `/ddm/activity/...` path, read
      from the text after its last marker up to the first "?". */
  function DdmIds(path: string): (r: (string, string))
    ensures |r.0| > 0
  {
    FloodlightIds(SemicolonParams(Before(Last(Split(path, DdmMarker)), "?")))
  }

  /** A path `<before>/ddm/activity/<params>?<query>` takes its ids from `<params>`. */
  lemma DdmFromParams(before: string, params: string, query: string)
    requires !Contains(before + DdmMarker[..|DdmMarker| - 1], DdmMarker)
    requires !Contains(params + "?" + query, DdmMarker)
    requires '?' !in params
    ensures DdmIds(before + DdmMarker + params + "?" + query) == FloodlightIds(SemicolonParams(params))
  {
    var rest := params + "?" + query;
    assert before + DdmMarker + params + "?" + query == before + DdmMarker + rest;
    SplitAt(before, rest, DdmMarker);
    SplitNoSep(rest, DdmMarker);
    SplitAfterFree(params, query, '?');
  }

  /** When the first separator starts right after `before`, the first piece
      is `before`. */
  lemma {:induction false} SplitAt(before: string, rest: string, sep: string)
    requires |sep| > 0 && !Contains(before + sep[..|sep| - 1], sep)
    ensures Split(before + sep + rest, sep) == [before] + Split(rest, sep)
    decreases |before|
  {
    var s := before + sep + rest;
    if |before| == 0 {
      assert s == sep + rest;
      assert s[..|sep|] == sep;
      assert s[|sep|..] == rest;
    } else {
      var w := before + sep[..|sep| - 1];
      assert w[..|sep|] == s[..|sep|];
      assert !OccursAt(w, sep, 0);
      assert s[1..] == before[1..] + sep + rest;
      assert w[1..] == before[1..] + sep[..|sep| - 1];
      ContainsTail(w, sep, 1);
      SplitAt(before[1..], rest, sep);
      assert [before[0]] + before[1..] == before;
    }
  }
}
