/** The request-side parameter extraction that feeds the event builder:
    `_extract_request_data`, `_flatten_json_to_params` and
    `process_json_event`. Every value it produces is a string. */
module Extraction {
  import opened Wrappers
  import opened Strings
  import opened JsonValues
  import opened Dicts
  import opened ConfigLoading

  /** What the proxy hook hands over about one request. `query` is
      `dict(request.query)`, one entry per parameter name (the hooks require
      its keys to be distinct); `json` is what `json.loads` makes of the body
      (`None` when it raises a decode error); `form` is what `parse_qs` makes
      of it. */
  datatype Request = Request(
    httpMethod: string,
    url: string,
    host: string,
    path: string,
    query: Dict<string>,
    contentType: string,
    body: string,
    json: Option<Json>,
    form: Dict<seq<string>>)

  /** A single parameter dict, or one dict per event of a GA4 JSON batch. */
  datatype Extracted = Single(params: Dict<string>) | Batch(events: seq<Dict<string>>)

  // ---------------------------------------------------------------------
  // `_flatten_json_to_params`

  /** How a scalar is written: `None` becomes the empty string, anything else
      its `str()`. */
  function Leaf(v: Json): string {
    if v.JNull? then "" else Str(v)
  }

  /** The key of an object member: `prefix.key`, or `key` at the top. */
  function MemberKey(prefix: string, key: string): string {
    if prefix != "" then prefix + "." + key else key
  }

  /** The key of an array element: `prefix[i]`, or `item_i` at the top. */
  function ItemKey(prefix: string, i: nat): string {
    if prefix != "" then prefix + "[" + NatToString(i) + "]" else "item_" + NatToString(i)
  }

  /** The flattened parameters of `j` under `prefix`. */
  function Flatten(j: Json, prefix: string): Dict<string>
    decreases j, 1
  {
    match j
    case JObj(ms) => FlattenMembers(j, |ms|, prefix)
    case JArr(items) => FlattenItems(j, |items|, prefix)
    case _ => [(if prefix != "" then prefix else "value", Leaf(j))]
  }

  /** Adding one member or element under `key`: a container is flattened
      under `key` and merged in, a scalar is assigned. */
  function Step(acc: Dict<string>, key: string, v: Json): Dict<string>
    decreases v, 2
  {
    if IsContainer(v) then Update(acc, Flatten(v, key)) else Put(acc, key, Leaf(v))
  }

  /** The parameters of the first `n` members of the object `j`. */
  function FlattenMembers(j: Json, n: nat, prefix: string): Dict<string>
    requires j.JObj? && n <= |j.members|
    decreases j, 0, n
  {
    if n == 0 then []
    else Step(FlattenMembers(j, n - 1, prefix), MemberKey(prefix, j.members[n - 1].0), j.members[n - 1].1)
  }

  /** The parameters of the first `n` elements of the array `j`. */
  function FlattenItems(j: Json, n: nat, prefix: string): Dict<string>
    requires j.JArr? && n <= |j.items|
    decreases j, 0, n
  {
    if n == 0 then []
    else Step(FlattenItems(j, n - 1, prefix), ItemKey(prefix, n - 1), j.items[n - 1])
  }

  /** `_flatten_json_to_params`: walks objects and arrays, updating the
      result dict in place with each member's or element's parameters. */
  method FlattenJson(j: Json, prefix: string) returns (params: Dict<string>)
    ensures params == Flatten(j, prefix)
    decreases j, 3
  {
    if j.JObj? {
      params := FlattenObject(j, prefix);
    } else if j.JArr? {
      params := FlattenArray(j, prefix);
    } else {
      params := [(if prefix != "" then prefix else "value", Leaf(j))];
    }
  }

  method FlattenObject(j: Json, prefix: string) returns (params: Dict<string>)
    requires j.JObj?
    ensures params == FlattenMembers(j, |j.members|, prefix)
    decreases j, 2
  {
    params := [];
    var i := 0;
    while i < |j.members|
      invariant 0 <= i <= |j.members|
      invariant params == FlattenMembers(j, i, prefix)
    {
      params := AddMember(j, i, prefix, params);
      i := i + 1;
    }
  }

  method FlattenArray(j: Json, prefix: string) returns (params: Dict<string>)
    requires j.JArr?
    ensures params == FlattenItems(j, |j.items|, prefix)
    decreases j, 2
  {
    params := [];
    var i := 0;
    while i < |j.items|
      invariant 0 <= i <= |j.items|
      invariant params == FlattenItems(j, i, prefix)
    {
      params := AddItem(j, i, prefix, params);
      i := i + 1;
    }
  }

  method AddMember(j: Json, i: nat, prefix: string, params: Dict<string>) returns (r: Dict<string>)
    requires j.JObj? && i < |j.members| && params == FlattenMembers(j, i, prefix)
    ensures r == FlattenMembers(j, i + 1, prefix)
    decreases j, 1
  {
    r := AddValue(params, MemberKey(prefix, j.members[i].0), j.members[i].1);
  }

  method AddItem(j: Json, i: nat, prefix: string, params: Dict<string>) returns (r: Dict<string>)
    requires j.JArr? && i < |j.items| && params == FlattenItems(j, i, prefix)
    ensures r == FlattenItems(j, i + 1, prefix)
    decreases j, 1
  {
    r := AddValue(params, ItemKey(prefix, i), j.items[i]);
  }

  method AddValue(acc: Dict<string>, key: string, v: Json) returns (r: Dict<string>)
    ensures r == Step(acc, key, v)
    decreases v, 4
  {
    if IsContainer(v) {
      var sub := FlattenJson(v, key);
      r := Update(acc, sub);
    } else {
      r := Put(acc, key, Leaf(v));
    }
  }

  /** Flattening never repeats a key. */
  lemma {:induction false} FlattenKeyed(j: Json, prefix: string)
    ensures Keyed(Flatten(j, prefix))
    decreases j, 1
  {
    match j
    case JObj(ms) => FlattenMembersKeyed(j, |ms|, prefix);
    case JArr(items) => FlattenItemsKeyed(j, |items|, prefix);
    case _ =>
  }

  lemma StepKeyed(acc: Dict<string>, key: string, v: Json)
    requires Keyed(acc)
    ensures Keyed(Step(acc, key, v))
  {
    if IsContainer(v) {
      UpdateKeys(acc, Flatten(v, key));
    }
  }

  lemma {:induction false} FlattenMembersKeyed(j: Json, n: nat, prefix: string)
    requires j.JObj? && n <= |j.members|
    ensures Keyed(FlattenMembers(j, n, prefix))
    decreases j, 0, n
  {
    if n > 0 {
      FlattenMembersKeyed(j, n - 1, prefix);
      StepKeyed(FlattenMembers(j, n - 1, prefix), MemberKey(prefix, j.members[n - 1].0), j.members[n - 1].1);
    }
  }

  lemma {:induction false} FlattenItemsKeyed(j: Json, n: nat, prefix: string)
    requires j.JArr? && n <= |j.items|
    ensures Keyed(FlattenItems(j, n, prefix))
    decreases j, 0, n
  {
    if n > 0 {
      FlattenItemsKeyed(j, n - 1, prefix);
      StepKeyed(FlattenItems(j, n - 1, prefix), ItemKey(prefix, n - 1), j.items[n - 1]);
    }
  }

  /** Under a non-empty prefix every flattened key starts with that prefix,
      so nested values never collide with their parent's siblings. */
  lemma {:induction false} FlattenUnderPrefix(j: Json, prefix: string, k: string)
    requires prefix != "" && HasKey(Flatten(j, prefix), k)
    ensures StartsWith(k, prefix)
    decreases j, 1
  {
    match j
    case JObj(ms) => MembersUnderPrefix(j, |ms|, prefix, k);
    case JArr(items) => ItemsUnderPrefix(j, |items|, prefix, k);
    case _ =>
  }

  lemma PrefixOfExtension(prefix: string, rest: string, k: string)
    requires StartsWith(k, prefix + rest)
    ensures StartsWith(k, prefix)
  {
    assert k[..|prefix|] == (prefix + rest)[..|prefix|];
  }

  /** A key added by a step under `prefix + rest` starts with `prefix`. */
  lemma {:induction false} StepUnderPrefix(acc: Dict<string>, prefix: string, rest: string, v: Json, k: string)
    requires prefix != "" && HasKey(Step(acc, prefix + rest, v), k) && !HasKey(acc, k)
    ensures StartsWith(k, prefix)
    decreases v, 2
  {
    var key := prefix + rest;
    if IsContainer(v) {
      UpdateKeySet(acc, Flatten(v, key));
      assert k in KeySet(Flatten(v, key));
      FlattenUnderPrefix(v, key, k);
      PrefixOfExtension(prefix, rest, k);
    } else {
      PutKeySet(acc, key, Leaf(v));
      assert k == key;
      assert k[..|prefix|] == prefix;
    }
  }

  lemma {:induction false} MembersUnderPrefix(j: Json, n: nat, prefix: string, k: string)
    requires j.JObj? && n <= |j.members| && prefix != ""
    requires HasKey(FlattenMembers(j, n, prefix), k)
    ensures StartsWith(k, prefix)
    decreases j, 0, n
  {
    var acc := FlattenMembers(j, n - 1, prefix);
    if HasKey(acc, k) {
      MembersUnderPrefix(j, n - 1, prefix, k);
    } else {
      assert MemberKey(prefix, j.members[n - 1].0) == prefix + ("." + j.members[n - 1].0);
      StepUnderPrefix(acc, prefix, "." + j.members[n - 1].0, j.members[n - 1].1, k);
    }
  }

  lemma {:induction false} ItemsUnderPrefix(j: Json, n: nat, prefix: string, k: string)
    requires j.JArr? && n <= |j.items| && prefix != ""
    requires HasKey(FlattenItems(j, n, prefix), k)
    ensures StartsWith(k, prefix)
    decreases j, 0, n
  {
    var acc := FlattenItems(j, n - 1, prefix);
    if HasKey(acc, k) {
      ItemsUnderPrefix(j, n - 1, prefix, k);
    } else {
      assert ItemKey(prefix, n - 1) == prefix + ("[" + NatToString(n - 1) + "]");
      StepUnderPrefix(acc, prefix, "[" + NatToString(n - 1) + "]", j.items[n - 1], k);
    }
  }

  /** At the top, every key flattened out of an array starts with `item_`. */
  lemma {:induction false} FlattenTopArray(j: Json, k: string)
    requires j.JArr? && HasKey(Flatten(j, ""), k)
    ensures StartsWith(k, "item_")
  {
    TopItemsPrefix(j, |j.items|, k);
  }

  lemma {:induction false} TopItemsPrefix(j: Json, n: nat, k: string)
    requires j.JArr? && n <= |j.items|
    requires HasKey(FlattenItems(j, n, ""), k)
    ensures StartsWith(k, "item_")
    decreases n
  {
    var acc := FlattenItems(j, n - 1, "");
    if HasKey(acc, k) {
      TopItemsPrefix(j, n - 1, k);
    } else {
      assert ItemKey("", n - 1) == "item_" + NatToString(n - 1);
      StepUnderPrefix(acc, "item_", NatToString(n - 1), j.items[n - 1], k);
    }
  }

  /** One step's effect on lookups: a scalar is stored under `key`; a
      container's own flattened keys take its values; every other key keeps
      the value it had. */
  lemma StepGet(acc: Dict<string>, key: string, v: Json, k: string)
    ensures !IsContainer(v) ==> Get(Step(acc, key, v), k) == (if k == key then Some(Leaf(v)) else Get(acc, k))
    ensures IsContainer(v) ==>
              Get(Step(acc, key, v), k) == (if HasKey(Flatten(v, key), k) then Get(Flatten(v, key), k) else Get(acc, k))
  {
    if IsContainer(v) {
      FlattenKeyed(v, key);
      GetUpdate(acc, Flatten(v, key), k);
    } else if k != key {
      PutOther(acc, key, Leaf(v), k);
    }
  }

  /** The `i`-th element of an array is placed under `ItemKey(prefix, i)`:
      a scalar as its `Leaf`, a container as its own flattened keys. */
  lemma ItemPlaced(j: Json, i: nat, prefix: string, k: string)
    requires j.JArr? && i < |j.items|
    ensures !IsContainer(j.items[i]) ==> Get(FlattenItems(j, i + 1, prefix), ItemKey(prefix, i)) == Some(Leaf(j.items[i]))
    ensures IsContainer(j.items[i]) && HasKey(Flatten(j.items[i], ItemKey(prefix, i)), k) ==>
              Get(FlattenItems(j, i + 1, prefix), k) == Get(Flatten(j.items[i], ItemKey(prefix, i)), k)
  {
    StepGet(FlattenItems(j, i, prefix), ItemKey(prefix, i), j.items[i], k);
  }

  /** The `i`-th member of an object is placed under `MemberKey(prefix, name)`:
      a scalar as its `Leaf`, a container as its own flattened keys. */
  lemma MemberPlaced(j: Json, i: nat, prefix: string, k: string)
    requires j.JObj? && i < |j.members|
    ensures !IsContainer(j.members[i].1) ==>
              Get(FlattenMembers(j, i + 1, prefix), MemberKey(prefix, j.members[i].0)) == Some(Leaf(j.members[i].1))
    ensures IsContainer(j.members[i].1) && HasKey(Flatten(j.members[i].1, MemberKey(prefix, j.members[i].0)), k) ==>
              Get(FlattenMembers(j, i + 1, prefix), k) == Get(Flatten(j.members[i].1, MemberKey(prefix, j.members[i].0)), k)
  {
    StepGet(FlattenMembers(j, i, prefix), MemberKey(prefix, j.members[i].0), j.members[i].1, k);
  }

  /** Empty objects and arrays contribute no parameters. */
  lemma FlattenEmpty(prefix: string)
    ensures Flatten(JObj([]), prefix) == [] && Flatten(JArr([]), prefix) == []
  {
  }

  /** A top-level scalar is stored under `value`; `None` as the empty string. */
  lemma FlattenTopScalar(v: Json)
    requires !IsContainer(v)
    ensures Flatten(v, "") == [("value", if v.JNull? then "" else Str(v))]
  {
  }

  lemma ExampleFirstItem()
    ensures FlattenItems(JArr([JInt(1), JInt(2)]), 1, "a.b") == [("a.b[0]", "1")]
  {
    var j := JArr([JInt(1), JInt(2)]);
    assert ItemKey("a.b", 0) == "a.b[0]" by { assert NatToString(0) == "0"; }
    assert Leaf(JInt(1)) == "1";
    assert FlattenItems(j, 0, "a.b") == [];
    assert FlattenItems(j, 1, "a.b") == Step([], "a.b[0]", JInt(1));
    assert Put([], "a.b[0]", "1") == [("a.b[0]", "1")];
  }

  lemma ExampleArray()
    ensures FlattenItems(JArr([JInt(1), JInt(2)]), 2, "a.b") == [("a.b[0]", "1"), ("a.b[1]", "2")]
  {
    var one := [("a.b[0]", "1")];
    ExampleFirstItem();
    assert ItemKey("a.b", 1) == "a.b[1]" by { assert NatToString(1) == "1"; }
    assert Leaf(JInt(2)) == "2";
    assert Find(one, "a.b[1]").None?;
    assert Put(one, "a.b[1]", "2") == [("a.b[0]", "1"), ("a.b[1]", "2")];
  }

  lemma ExampleUpdate()
    ensures Update([], [("a.b[0]", "1"), ("a.b[1]", "2")]) == [("a.b[0]", "1"), ("a.b[1]", "2")]
  {
    var one := [("a.b[0]", "1")];
    var both := [("a.b[0]", "1"), ("a.b[1]", "2")];
    assert Update([], one) == one by { assert one[..0] == []; }
    assert both[..1] == one;
    assert Find(one, "a.b[1]").None?;
  }

  /** `{"b": [1, 2]}` under the prefix `a` flattens to `a.b[0]` and `a.b[1]`. */
  lemma ExampleInner()
    ensures Flatten(JObj([("b", JArr([JInt(1), JInt(2)]))]), "a") == [("a.b[0]", "1"), ("a.b[1]", "2")]
  {
    var arr := JArr([JInt(1), JInt(2)]);
    var inner := JObj([("b", arr)]);
    ExampleArray();
    ExampleUpdate();
    assert MemberKey("a", "b") == "a.b";
    assert Flatten(arr, "a.b") == [("a.b[0]", "1"), ("a.b[1]", "2")];
    assert FlattenMembers(inner, 0, "a") == [];
    assert Flatten(inner, "a") == Step([], "a.b", arr);
  }

  /** `{"a": {"b": [1, 2]}}` flattens to `a.b[0]` = "1" and `a.b[1]` = "2". */
  lemma FlattenNestedExample()
    ensures Flatten(JObj([("a", JObj([("b", JArr([JInt(1), JInt(2)]))]))]), "")
         == [("a.b[0]", "1"), ("a.b[1]", "2")]
  {
    var inner := JObj([("b", JArr([JInt(1), JInt(2)]))]);
    var outer := JObj([("a", inner)]);
    ExampleInner();
    ExampleUpdate();
    assert MemberKey("", "a") == "a";
    assert FlattenMembers(outer, 0, "") == [];
    assert Flatten(outer, "") == Step([], "a", inner);
  }

  // ---------------------------------------------------------------------
  // `process_json_event`

  /** The common fields of a GA4 JSON batch copied by the GA4 parameter map:
      each mapped key present in the body is stored under its GA4 name, and
      `non_personalized_ads` becomes `npa` = "1" or "0" by truthiness. */
  function CommonFields(m: Dict<string>, body: seq<(string, Json)>, d: Dict<string>): Dict<string>
    decreases |m|
  {
    if |m| == 0 then d
    else
      var acc := CommonFields(m[..|m| - 1], body, d);
      var entry := m[|m| - 1];
      match Lookup(body, entry.0)
      case None => acc
      case Some(v) =>
        if entry.0 == "non_personalized_ads" then Put(acc, "npa", if Truthy(v) then "1" else "0")
        else Put(acc, entry.1, Str(v))
  }

  /** Where one event parameter goes: under its GA4 name when the map knows
      it, else under `ep.<key>`. */
  function ParamName(m: Dict<string>, key: string): string {
    match Dicts.Get(m, key)
    case Some(name) => name
    case None => "ep." + key
  }

  /** How one event parameter is written: a list under an `ep.` key is
      joined with ", ", anything else is its `str()`. */
  function ParamText(m: Dict<string>, key: string, v: Json): string {
    if Dicts.Get(m, key).None? && v.JArr? then
      Join(seq(|v.items|, i requires 0 <= i < |v.items| => Str(v.items[i])), ", ")
    else Str(v)
  }

  /** The parameters `ps` assigned into `d` in order. */
  function EventParams(m: Dict<string>, ps: seq<(string, Json)>, d: Dict<string>): Dict<string>
    decreases |ps|
  {
    if |ps| == 0 then d
    else
      var last := ps[|ps| - 1];
      Put(EventParams(m, ps[..|ps| - 1], d), ParamName(m, last.0), ParamText(m, last.0, last.1))
  }

  /** The event's name, if it has one: `'name' in event` (a `TypeError` for
      values that support no `in`), then `event['name']` (a `TypeError` for
      anything but a dict). */
  function WithName(event: Json, d: Dict<string>): (r: Result<Dict<string>>)
    ensures event.JObj? && Lookup(event.members, "name").None? ==> r == Ok(d)
    ensures event.JObj? && Lookup(event.members, "name").Some? ==>
              r == Ok(Put(d, "en", Str(Lookup(event.members, "name").value)))
    ensures !(event.JObj? || event.JArr? || event.JStr?) ==> r == Raise(TypeError)
  {
    match HasIn(event, "name")
    case Raise(e) => Raise(e)
    case Ok(has) =>
      if !has then Ok(d)
      else
        match Subscript(event, "name")
        case Raise(e) => Raise(e)
        case Ok(n) => Ok(Put(d, "en", Str(n)))
  }

  /** The event's parameters, if it has any; a non-dict value has no `items`
      and raises `AttributeError`. */
  function WithParams(m: Dict<string>, event: Json, d: Dict<string>): Result<Dict<string>> {
    match HasIn(event, "params")
    case Raise(e) => Raise(e)
    case Ok(has) =>
      if !has then Ok(d)
      else
        match Subscript(event, "params")
        case Raise(e) => Raise(e)
        case Ok(ps) =>
          if !ps.JObj? then Raise(AttributeError)
          else Ok(EventParams(m, ps.members, d))
  }

  /** One event of a GA4 JSON batch as a parameter dict. The GA4 entry of the
      registry must exist (`KeyError` otherwise). */
  function JsonEvent(reg: Registry, body: seq<(string, Json)>, event: Json, urlParams: Dict<string>): Result<Dict<string>> {
    match Dicts.Get(reg, "GA4")
    case None => Raise(KeyError)
    case Some(ga4) =>
      var m := ga4.paramMap;
      match WithName(event, CommonFields(m, body, urlParams))
      case Raise(e) => Raise(e)
      case Ok(d) => WithParams(m, event, d)
  }

  /** `process_json_event`: copies the URL parameters, then assigns the
      common fields, the name and the parameters into the copy. */
  method ProcessJsonEvent(reg: Registry, body: seq<(string, Json)>, event: Json, urlParams: Dict<string>)
    returns (r: Result<Dict<string>>)
    ensures r == JsonEvent(reg, body, event, urlParams)
  {
    var ga4 := Dicts.Get(reg, "GA4");
    if ga4.None? {
      return Raise(KeyError);
    }
    var m := ga4.value.paramMap;
    var eventData := CopyCommonFields(m, body, urlParams);
    var named := WithName(event, eventData);
    if named.Raise? {
      return named;
    }
    r := CopyParams(m, event, named.value);
  }

  method CopyCommonFields(m: Dict<string>, body: seq<(string, Json)>, urlParams: Dict<string>)
    returns (eventData: Dict<string>)
    ensures eventData == CommonFields(m, body, urlParams)
  {
    eventData := urlParams;
    var i := 0;
    while i < |m|
      invariant 0 <= i <= |m|
      invariant eventData == CommonFields(m[..i], body, urlParams)
    {
      eventData := AddCommonField(m, body, i, urlParams, eventData);
      i := i + 1;
    }
    assert m[..|m|] == m;
  }

  method AddCommonField(m: Dict<string>, body: seq<(string, Json)>, i: nat, d: Dict<string>, eventData: Dict<string>)
    returns (r: Dict<string>)
    requires i < |m| && eventData == CommonFields(m[..i], body, d)
    ensures r == CommonFields(m[..i + 1], body, d)
  {
    assert m[..i + 1][..i] == m[..i];
    var jsonKey := m[i].0;
    var found := Lookup(body, jsonKey);
    r := eventData;
    if found.Some? {
      if jsonKey == "non_personalized_ads" {
        r := Put(eventData, "npa", if Truthy(found.value) then "1" else "0");
      } else {
        r := Put(eventData, m[i].1, Str(found.value));
      }
    }
  }

  method CopyParams(m: Dict<string>, event: Json, d: Dict<string>) returns (r: Result<Dict<string>>)
    ensures r == WithParams(m, event, d)
  {
    var hasParams := HasIn(event, "params");
    if hasParams.Raise? {
      return Raise(hasParams.exc);
    }
    if !hasParams.value {
      return Ok(d);
    }
    var ps := Subscript(event, "params");
    if ps.Raise? {
      return Raise(ps.exc);
    }
    if !ps.value.JObj? {
      return Raise(AttributeError);
    }
    var members := ps.value.members;
    var eventData := d;
    var k := 0;
    while k < |members|
      invariant 0 <= k <= |members|
      invariant eventData == EventParams(m, members[..k], d)
    {
      eventData := AddParam(m, members, k, d, eventData);
      k := k + 1;
    }
    assert members[..|members|] == members;
    r := Ok(eventData);
  }

  method AddParam(m: Dict<string>, ps: seq<(string, Json)>, k: nat, d: Dict<string>, eventData: Dict<string>)
    returns (r: Dict<string>)
    requires k < |ps| && eventData == EventParams(m, ps[..k], d)
    ensures r == EventParams(m, ps[..k + 1], d)
  {
    assert ps[..k + 1][..k] == ps[..k];
    r := Put(eventData, ParamName(m, ps[k].0), ParamText(m, ps[k].0, ps[k].1));
  }

  /** The keys `process_json_event` may assign: the GA4 names of the map,
      `npa`, `en` and `ep.` keys. */
  predicate EventKey(m: Dict<string>, k: string) {
    (exists i | 0 <= i < |m| :: m[i].1 == k) || k == "npa" || k == "en" || StartsWith(k, "ep.")
  }

  lemma {:induction false} CommonFieldsOther(m: Dict<string>, body: seq<(string, Json)>, d: Dict<string>, k: string)
    requires !EventKey(m, k)
    ensures Dicts.Get(CommonFields(m, body, d), k) == Dicts.Get(d, k)
    decreases |m|
  {
    if |m| > 0 {
      var init := m[..|m| - 1];
      var entry := m[|m| - 1];
      assert forall i | 0 <= i < |init| :: init[i] == m[i];
      CommonFieldsOther(init, body, d, k);
      var acc := CommonFields(init, body, d);
      match Lookup(body, entry.0)
      case None =>
      case Some(v) =>
        if entry.0 == "non_personalized_ads" {
          PutOther(acc, "npa", if Truthy(v) then "1" else "0", k);
        } else {
          PutOther(acc, entry.1, Str(v), k);
        }
    }
  }

  lemma {:induction false} EventParamsOther(m: Dict<string>, ps: seq<(string, Json)>, d: Dict<string>, k: string)
    requires !EventKey(m, k)
    ensures Dicts.Get(EventParams(m, ps, d), k) == Dicts.Get(d, k)
    decreases |ps|
  {
    if |ps| > 0 {
      EventParamsOther(m, ps[..|ps| - 1], d, k);
      ParamOther(m, EventParams(m, ps[..|ps| - 1], d), ps[|ps| - 1].0, ps[|ps| - 1].1, k);
    }
  }

  /** Assigning one event parameter leaves a key outside the event keys alone. */
  lemma ParamOther(m: Dict<string>, acc: Dict<string>, key: string, v: Json, k: string)
    requires !EventKey(m, k)
    ensures Dicts.Get(Put(acc, ParamName(m, key), ParamText(m, key, v)), k) == Dicts.Get(acc, k)
  {
    NameDiffers(m, key, k);
    PutOther(acc, ParamName(m, key), ParamText(m, key, v), k);
  }

  lemma NameDiffers(m: Dict<string>, key: string, k: string)
    requires !EventKey(m, k)
    ensures ParamName(m, key) != k
  {
    EntryIsEventKey(m, key);
  }

  lemma EntryIsEventKey(m: Dict<string>, key: string)
    ensures EventKey(m, ParamName(m, key))
  {
    if Dicts.Get(m, key).Some? {
      var i :| 0 <= i < |m| && m[i] == (key, Dicts.Get(m, key).value);
    } else {
      assert StartsWith(ParamName(m, key), "ep.");
    }
  }

  /** Every URL parameter (including the synthetic `_request_` keys) survives
      into a batch event unless the event assigns that key itself. */
  lemma JsonEventKeepsOtherKeys(reg: Registry, body: seq<(string, Json)>, event: Json, urlParams: Dict<string>, k: string)
    requires JsonEvent(reg, body, event, urlParams).Ok?
    requires !EventKey(Dicts.Get(reg, "GA4").value.paramMap, k)
    ensures Dicts.Get(JsonEvent(reg, body, event, urlParams).value, k) == Dicts.Get(urlParams, k)
  {
    var m := Dicts.Get(reg, "GA4").value.paramMap;
    var d := CommonFields(m, body, urlParams);
    CommonFieldsOther(m, body, urlParams, k);
    var named := WithName(event, d).value;
    if named != d {
      PutOther(d, "en", Str(Lookup(event.members, "name").value), k);
    }
    if HasIn(event, "params").value {
      var ps := Subscript(event, "params").value;
      EventParamsOther(m, ps.members, named, k);
    }
  }

  /** Without a GA4 registry entry every batch event raises `KeyError`. */
  lemma JsonEventNeedsGa4(reg: Registry, body: seq<(string, Json)>, event: Json, urlParams: Dict<string>)
    requires !HasKey(reg, "GA4")
    ensures JsonEvent(reg, body, event, urlParams) == Raise(KeyError)
  {
  }

  /** An event whose `params` is not a dict raises `AttributeError`. */
  lemma JsonEventParamsNotDict(reg: Registry, body: seq<(string, Json)>, ms: seq<(string, Json)>, urlParams: Dict<string>)
    requires HasKey(reg, "GA4")
    requires Lookup(ms, "params").Some? && !Lookup(ms, "params").value.JObj?
    ensures JsonEvent(reg, body, JObj(ms), urlParams) == Raise(AttributeError)
  {
  }

  // ---------------------------------------------------------------------
  // `_extract_request_data`

  /** The URL parameters plus the three synthetic keys the handlers read. */
  function Seed(req: Request): Dict<string> {
    Put(Put(Put(req.query, "_request_path", req.path), "_request_host", req.host), "_request_url", req.url)
  }

  /** A body is tried as JSON when, stripped, it starts with `{` or `[`. */
  predicate LooksLikeJson(body: string) {
    StartsWith(Strip(body), "{") || StartsWith(Strip(body), "[")
  }

  /** The `events` list of a GA4 JSON batch body, if it has one. */
  function EventsOf(j: Json): Option<seq<Json>> {
    if j.JObj? then
      match Lookup(j.members, "events")
      case Some(JArr(events)) => Some(events)
      case _ => None
    else None
  }

  /** Form fields with their first value (the empty string for none). */
  function FirstValues(form: Dict<seq<string>>): (r: Dict<string>)
    ensures |r| == |form|
    ensures forall i | 0 <= i < |form| :: r[i].0 == form[i].0
  {
    seq(|form|, i requires 0 <= i < |form| => (form[i].0, if |form[i].1| > 0 then form[i].1[0] else ""))
  }

  function BatchUpTo(reg: Registry, body: seq<(string, Json)>, events: seq<Json>, n: nat, seed: Dict<string>): Result<seq<Dict<string>>>
    requires n <= |events|
  {
    if n == 0 then Ok([])
    else
      match BatchUpTo(reg, body, events, n - 1, seed)
      case Raise(e) => Raise(e)
      case Ok(prev) =>
        match JsonEvent(reg, body, events[n - 1], seed)
        case Raise(e) => Raise(e)
        case Ok(d) => Ok(prev + [d])
  }

  /** The request data, as `_extract_request_data` returns it. */
  function RequestData(reg: Registry, req: Request, platform: string): Result<Extracted> {
    var seed := Seed(req);
    if req.httpMethod == "GET" || req.body == "" then Ok(Single(seed))
    else if LooksLikeJson(req.body) && req.json.Some? then
      var j := req.json.value;
      if platform == "GA4" && EventsOf(j).Some? then
        match BatchUpTo(reg, j.members, EventsOf(j).value, |EventsOf(j).value|, seed)
        case Raise(e) => Raise(e)
        case Ok(events) => Ok(Batch(events))
      else Ok(Single(Update(seed, Flatten(j, ""))))
    else Ok(Single(Update(seed, FirstValues(req.form))))
  }

  /** `_extract_request_data`. */
  method ExtractRequestData(reg: Registry, req: Request, platform: string) returns (r: Result<Extracted>)
    ensures r == RequestData(reg, req, platform)
  {
    var urlParams := req.query;
    urlParams := Put(urlParams, "_request_path", req.path);
    urlParams := Put(urlParams, "_request_host", req.host);
    urlParams := Put(urlParams, "_request_url", req.url);
    if req.httpMethod == "GET" || req.body == "" {
      return Ok(Single(urlParams));
    }
    if LooksLikeJson(req.body) && req.json.Some? {
      var j := req.json.value;
      var events := EventsOf(j);
      if platform == "GA4" && events.Some? {
        var batch: seq<Dict<string>> := [];
        var i := 0;
        while i < |events.value|
          invariant 0 <= i <= |events.value|
          invariant BatchUpTo(reg, j.members, events.value, i, urlParams) == Ok(batch)
        {
          var d := ProcessJsonEvent(reg, j.members, events.value[i], urlParams);
          if d.Raise? {
            BatchRaiseStays(reg, j.members, events.value, i + 1, |events.value|, urlParams);
            return Raise(d.exc);
          }
          batch := batch + [d.value];
          i := i + 1;
        }
        return Ok(Batch(batch));
      }
      var flat := FlattenJson(j, "");
      return Ok(Single(Update(urlParams, flat)));
    }
    r := Ok(Single(Update(urlParams, FirstValues(req.form))));
  }

  lemma {:induction false} BatchRaiseStays(reg: Registry, body: seq<(string, Json)>, events: seq<Json>, i: nat, n: nat, seed: Dict<string>)
    requires i <= n <= |events|
    requires BatchUpTo(reg, body, events, i, seed).Raise?
    ensures BatchUpTo(reg, body, events, n, seed) == BatchUpTo(reg, body, events, i, seed)
    decreases n - i
  {
    if i < n {
      BatchRaiseStays(reg, body, events, i, n - 1, seed);
    }
  }

  /** A batch has one parameter dict per event, in order. */
  lemma {:induction false} BatchLength(reg: Registry, body: seq<(string, Json)>, events: seq<Json>, n: nat, seed: Dict<string>)
    requires n <= |events|
    requires BatchUpTo(reg, body, events, n, seed).Ok?
    ensures |BatchUpTo(reg, body, events, n, seed).value| == n
    ensures forall i | 0 <= i < n :: JsonEvent(reg, body, events[i], seed).Ok? && BatchUpTo(reg, body, events, n, seed).value[i] == JsonEvent(reg, body, events[i], seed).value
  {
    if n > 0 {
      BatchLength(reg, body, events, n - 1, seed);
    }
  }

  /** A GET request or an empty body yields exactly the URL parameters and the
      three synthetic keys, whatever the body decodes to. */
  lemma GetIgnoresBody(reg: Registry, req: Request, platform: string)
    requires req.httpMethod == "GET" || req.body == ""
    ensures RequestData(reg, req, platform) == Ok(Single(Seed(req)))
    ensures HasKey(Seed(req), "_request_path") && HasKey(Seed(req), "_request_host") && HasKey(Seed(req), "_request_url")
  {
    var s1 := Put(req.query, "_request_path", req.path);
    var s2 := Put(s1, "_request_host", req.host);
    PutOther(s2, "_request_url", req.url, "_request_path");
    PutOther(s1, "_request_host", req.host, "_request_path");
    PutOther(s2, "_request_url", req.url, "_request_host");
  }
}
