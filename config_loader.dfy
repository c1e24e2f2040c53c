/** The configuration loader: a dotted-path lookup over the loaded JSON
    configuration, the per-platform UI getters and maps, the host and path
    unions, and the typed platform registry built from `platformConfigs`. */
module ConfigLoading {
  import opened Wrappers
  import opened Strings
  import opened JsonValues
  import opened Dicts

  const DefaultIcon := "<i class=\"fa-solid fa-mobile brand-icon\"></i>"
  const DefaultHighlightClass := "universal-highlight-default"
  const DefaultColor := "#6366F1"

  /** The value reached by following `keys` from `v`, where every step must be a
      key of a dict; `default` as soon as a step fails. */
  function Walk(v: Json, keys: seq<string>, default: Json): Json
    decreases |keys|
  {
    if |keys| == 0 then v
    else if v.JObj? && Lookup(v.members, keys[0]).Some? then
      Walk(Lookup(v.members, keys[0]).value, keys[1..], default)
    else default
  }

  /** `config.get(key, default)`: the dotted key split on "." and walked. */
  function GetPath(config: Json, key: string, default: Json): Json {
    Walk(config, Split(key, "."), default)
  }

  /** A walk that meets a non-dict before its keys run out gives the default. */
  lemma WalkNonDict(v: Json, keys: seq<string>, default: Json)
    requires |keys| > 0 && !v.JObj?
    ensures Walk(v, keys, default) == default
  {
  }

  /** A key without a dot is a single lookup in the top-level dict. */
  lemma GetDotless(config: Json, key: string, default: Json)
    requires '.' !in key
    ensures config.JObj? && Lookup(config.members, key).Some? ==>
              GetPath(config, key, default) == Lookup(config.members, key).value
    ensures !(config.JObj? && Lookup(config.members, key).Some?) ==>
              GetPath(config, key, default) == default
  {
    ContainsChar(key, '.');
    assert "." == ['.'];
    SplitNoSep(key, ".");
    assert [key][1..] == [];
    assert GetPath(config, key, default) == Walk(config, [key], default);
  }

  /** `a.rest` looks `a` up first and then walks `rest` from there. */
  lemma GetDotted(config: Json, a: string, rest: string, default: Json)
    requires '.' !in a
    ensures config.JObj? && Lookup(config.members, a).Some? ==>
              GetPath(config, a + "." + rest, default) == GetPath(Lookup(config.members, a).value, rest, default)
    ensures !(config.JObj? && Lookup(config.members, a).Some?) ==>
              GetPath(config, a + "." + rest, default) == default
  {
    SplitAfterFree(a, rest, '.');
    assert a + "." + rest == a + ['.'] + rest;
  }

  /** `get_all_platform_configs()`: the `platformConfigs` entry, or `{}`. */
  function AllPlatformConfigs(config: Json): Json {
    Walk(config, ["platformConfigs"], JObj([]))
  }

  /** `get_platform_config(platform)`: the dotted lookup `platformConfigs.<platform>`,
      that is, `platform` split on "." and walked from `platformConfigs`. */
  function PlatformConfigOf(config: Json, platform: string): Json {
    Walk(AllPlatformConfigs(config), Split(platform, "."), JObj([]))
  }

  /** Looking up `k` and then walking `p` is the dotted lookup of `k.p`; with
      `k` = "platformConfigs" these are `get_all_platform_configs()` followed by
      the rest of `get_platform_config(p)`. */
  lemma NestedIsDotted(config: Json, k: string, p: string)
    requires '.' !in k
    ensures Walk(config, [k], JObj([])) == GetPath(config, k, JObj([]))
    ensures Walk(Walk(config, [k], JObj([])), Split(p, "."), JObj([])) == GetPath(config, k + "." + p, JObj([]))
  {
    GetDotless(config, k, JObj([]));
    GetDotted(config, k, p, JObj([]));
    assert [k][1..] == [];
  }

  /** For a platform name without a dot, the platform's config is its entry
      in `platformConfigs`, or `{}` when there is none. */
  lemma PlatformConfigDotless(config: Json, platform: string)
    requires '.' !in platform
    ensures AllPlatformConfigs(config).JObj? && Lookup(AllPlatformConfigs(config).members, platform).Some? ==>
              PlatformConfigOf(config, platform) == Lookup(AllPlatformConfigs(config).members, platform).value
    ensures !(AllPlatformConfigs(config).JObj? && Lookup(AllPlatformConfigs(config).members, platform).Some?) ==>
              PlatformConfigOf(config, platform) == JObj([])
  {
    GetDotless(AllPlatformConfigs(config), platform, JObj([]));
  }

  /** Python `d.get(key, default)` on a value that must be a dict. */
  function DictGet(d: Json, key: string, default: Json): (r: Result<Json>)
    ensures r.Raise? <==> !d.JObj?
    ensures r.Raise? ==> r.exc == AttributeError
  {
    if d.JObj? then Ok(Lookup(d.members, key).GetOr(default)) else Raise(AttributeError)
  }

  /** A top-level section such as `get_ui_config()`: `config.get(name, {})`. */
  function Section(config: Json, name: string): (r: Result<Json>)
    ensures config.JObj? && Lookup(config.members, name).None? ==> r == Ok(JObj([]))
  {
    DictGet(config, name, JObj([]))
  }

  /** A single-platform UI getter (`get_platform_icon`, `..._highlight_class`,
      `..._color`): the `field` of the platform's `ui` dict, or `default`
      when the platform config is empty or has no `ui`. */
  function UiValue(config: Json, platform: string, field: string, default: string): (r: Result<Json>)
    ensures !Truthy(PlatformConfigOf(config, platform)) ==> r == Ok(JStr(default))
    ensures (PlatformConfigOf(config, platform).JObj? && Lookup(PlatformConfigOf(config, platform).members, "ui").None?)
              ==> r == Ok(JStr(default))
  {
    var pc := PlatformConfigOf(config, platform);
    if !Truthy(pc) then Ok(JStr(default))
    else
      match HasIn(pc, "ui")
      case Raise(e) => Raise(e)
      case Ok(has) =>
        if !has then Ok(JStr(default))
        else
          match Subscript(pc, "ui")
          case Raise(e) => Raise(e)
          case Ok(ui) => DictGet(ui, field, JStr(default))
  }

  function PlatformIcon(config: Json, platform: string): Result<Json> {
    UiValue(config, platform, "icon", DefaultIcon)
  }

  function PlatformHighlightClass(config: Json, platform: string): Result<Json> {
    UiValue(config, platform, "highlightClass", DefaultHighlightClass)
  }

  function PlatformColor(config: Json, platform: string): Result<Json> {
    UiValue(config, platform, "color", DefaultColor)
  }

  /** One entry of a UI map (`get_platform_icon_map` and friends):
      `cfg['ui'][field]` when `'ui' in cfg and field in cfg['ui']`, else `default`. */
  function UiEntry(cfg: Json, field: string, default: string): (r: Result<Json>)
    ensures cfg.JObj? && Lookup(cfg.members, "ui").None? ==> r == Ok(JStr(default))
  {
    match HasIn(cfg, "ui")
    case Raise(e) => Raise(e)
    case Ok(has) =>
      if !has then Ok(JStr(default))
      else
        match Subscript(cfg, "ui")
        case Raise(e) => Raise(e)
        case Ok(ui) =>
          match HasIn(ui, field)
          case Raise(e) => Raise(e)
          case Ok(hasField) =>
            if !hasField then Ok(JStr(default)) else Subscript(ui, field)
  }

  /** `UiEntry` for one field, as a function of the platform config. */
  function UiEntryOf(field: string, default: string): Json -> Result<Json> {
    cfg => UiEntry(cfg, field, default)
  }

  /** A UI map over the platform entries `ms`, in order, with `entry` giving
      each platform's value; the first entry that raises ends the fill. */
  function UiMapOf(ms: seq<(string, Json)>, entry: Json -> Result<Json>): Result<Dict<Json>>
    decreases |ms|
  {
    if |ms| == 0 then Ok([])
    else
      var last := ms[|ms| - 1];
      match UiMapOf(ms[..|ms| - 1], entry)
      case Raise(e) => Raise(e)
      case Ok(m) =>
        match entry(last.1)
        case Raise(e) => Raise(e)
        case Ok(v) => Ok(Put(m, last.0, v))
  }

  /** A successful UI map has the platforms' keys in `platformConfigs` order,
      and maps each platform to the value of its own config. */
  lemma {:induction false} UiMapExact(ms: seq<(string, Json)>, entry: Json -> Result<Json>)
    requires Keyed(ms) && UiMapOf(ms, entry).Ok?
    ensures Keys(UiMapOf(ms, entry).value) == Keys(ms)
    ensures forall k | 0 <= k < |ms| :: entry(ms[k].1).Ok? && Dicts.Get(UiMapOf(ms, entry).value, ms[k].0) == Some(entry(ms[k].1).value)
    decreases |ms|
  {
    if |ms| > 0 {
      var init := ms[..|ms| - 1];
      KeyedInit(ms);
      UiMapExact(init, entry);
      UiMapStep(ms, entry);
    }
  }

  /** A map that was built holds the earlier platforms' map with the last
      platform's entry put on top. */
  lemma UiMapLast(ms: seq<(string, Json)>, entry: Json -> Result<Json>)
    requires |ms| > 0 && UiMapOf(ms, entry).Ok?
    ensures UiMapOf(ms[..|ms| - 1], entry).Ok? && entry(ms[|ms| - 1].1).Ok?
    ensures UiMapOf(ms, entry).value ==
              Put(UiMapOf(ms[..|ms| - 1], entry).value, ms[|ms| - 1].0, entry(ms[|ms| - 1].1).value)
  {
  }

  /** The last platform's entry is added under a new key after the others. */
  lemma UiMapStep(ms: seq<(string, Json)>, entry: Json -> Result<Json>)
    requires |ms| > 0 && Keyed(ms) && UiMapOf(ms, entry).Ok?
    requires var init := ms[..|ms| - 1];
             UiMapOf(init, entry).Ok? && Keys(UiMapOf(init, entry).value) == Keys(init) &&
             forall k | 0 <= k < |init| :: entry(init[k].1).Ok? && Dicts.Get(UiMapOf(init, entry).value, init[k].0) == Some(entry(init[k].1).value)
    ensures Keys(UiMapOf(ms, entry).value) == Keys(ms)
    ensures forall k | 0 <= k < |ms| :: entry(ms[k].1).Ok? && Dicts.Get(UiMapOf(ms, entry).value, ms[k].0) == Some(entry(ms[k].1).value)
  {
    var init := ms[..|ms| - 1];
    var last := ms[|ms| - 1];
    KeyedInit(ms);
    var m := UiMapOf(init, entry).value;
    UiMapLast(ms, entry);
    var v := entry(last.1).value;
    PutNewKey(m, Keys(init), last.0, v);
    KeysSnoc(ms);
    var r := Put(m, last.0, v);
    forall k | 0 <= k < |init|
      ensures entry(ms[k].1).Ok? && Dicts.Get(r, ms[k].0) == Some(entry(ms[k].1).value)
    {
      assert init[k] == ms[k] && ms[k].0 != last.0;
      PutOther(m, last.0, v, ms[k].0);
    }
    assert Dicts.Get(r, last.0) == Some(v);
    forall k | 0 <= k < |ms|
      ensures entry(ms[k].1).Ok? && Dicts.Get(r, ms[k].0) == Some(entry(ms[k].1).value)
    {
      if k == |init| {
        assert ms[k] == last;
      }
    }
  }

  /** A platform whose config is a dict and whose `ui`, when present, is a dict
      gets the same value in the UI map as from the single-platform getter. */
  lemma UiEntryAgreesWithGetter(config: Json, platform: string, field: string, default: string)
    requires '.' !in platform
    requires AllPlatformConfigs(config).JObj?
    requires Lookup(AllPlatformConfigs(config).members, platform).Some?
    requires Lookup(AllPlatformConfigs(config).members, platform).value.JObj?
    requires var cfg := Lookup(AllPlatformConfigs(config).members, platform).value;
             Lookup(cfg.members, "ui").Some? ==> Lookup(cfg.members, "ui").value.JObj?
    ensures UiEntry(Lookup(AllPlatformConfigs(config).members, platform).value, field, default)
            == UiValue(config, platform, field, default)
  {
    PlatformConfigDotless(config, platform);
  }

  /** The strings Python's `set(v)` or `s.update(v)` adds for a config value:
      a list's strings, a string's characters, a dict's keys. A list holding a
      list or dict, and any non-iterable value, raises `TypeError`. */
  function Members(v: Json): (r: Result<set<string>>)
    ensures v.JArr? && r.Ok? ==> forall s :: s in r.value <==> JStr(s) in v.items
  {
    match v
    case JArr(items) =>
      if exists k | 0 <= k < |items| :: IsContainer(items[k]) then Raise(TypeError)
      else Ok(set k | 0 <= k < |items| && items[k].JStr? :: items[k].s)
    case JStr(s) => Ok(set k | 0 <= k < |s| :: [s[k]])
    case JObj(ms) => Ok(set k | 0 <= k < |ms| :: ms[k].0)
    case _ => Raise(TypeError)
  }

  /** `platform_config.get(field, [])` fed to `set.update`. */
  function FieldMembers(pc: Json, field: string): (r: Result<set<string>>)
    ensures pc.JObj? && Lookup(pc.members, field).None? ==> r == Ok({})
  {
    match DictGet(pc, field, JArr([]))
    case Raise(e) => Raise(e)
    case Ok(v) =>
      if v == JArr([]) then
        assert Members(v).Ok? && forall s :: s !in Members(v).value;
        assert Members(v).value == {};
        Members(v)
      else Members(v)
  }

  /** The union of `field` over the platform configs `ms`, in order; the
      first config whose field raises ends the union. */
  function UnionOf(ms: seq<(string, Json)>, field: string): Result<set<string>>
    decreases |ms|
  {
    if |ms| == 0 then Ok({})
    else
      match UnionOf(ms[..|ms| - 1], field)
      case Raise(e) => Raise(e)
      case Ok(s) =>
        match FieldMembers(ms[|ms| - 1].1, field)
        case Raise(e) => Raise(e)
        case Ok(t) => Ok(s + t)
  }

  /** A successful union holds exactly the members of every platform's field. */
  lemma {:induction false} UnionExact(ms: seq<(string, Json)>, field: string, h: string)
    requires UnionOf(ms, field).Ok?
    ensures forall k | 0 <= k < |ms| :: FieldMembers(ms[k].1, field).Ok?
    ensures h in UnionOf(ms, field).value <==> exists k | 0 <= k < |ms| :: h in FieldMembers(ms[k].1, field).value
    decreases |ms|
  {
    if |ms| > 0 {
      var init := ms[..|ms| - 1];
      assert forall k | 0 <= k < |init| :: init[k] == ms[k];
      UnionExact(init, field, h);
    }
  }

  /** A union that raised has a platform whose field raised. */
  lemma {:induction false} UnionRaiseWitness(ms: seq<(string, Json)>, field: string)
    requires UnionOf(ms, field).Raise?
    ensures exists k | 0 <= k < |ms| :: FieldMembers(ms[k].1, field).Raise?
    decreases |ms|
  {
    var init := ms[..|ms| - 1];
    if UnionOf(init, field).Raise? {
      UnionRaiseWitness(init, field);
      var k :| 0 <= k < |init| && FieldMembers(init[k].1, field).Raise?;
      assert init[k] == ms[k];
    } else {
      assert FieldMembers(ms[|ms| - 1].1, field).Raise?;
    }
  }

  /** A union that raised stays raised. */
  lemma {:induction false} UnionRaiseStays(ms: seq<(string, Json)>, i: nat, n: nat, field: string)
    requires i <= n <= |ms| && UnionOf(ms[..i], field).Raise?
    ensures UnionOf(ms[..n], field) == UnionOf(ms[..i], field)
    decreases n - i
  {
    if i < n {
      UnionRaiseStays(ms, i, n - 1, field);
      assert ms[..n][..n - 1] == ms[..n - 1];
    }
  }

  /** Every platform config yields its `field` without raising. */
  predicate UnionOk(pcs: Json, field: string) {
    pcs.JObj? && forall k | 0 <= k < |pcs.members| :: FieldMembers(pcs.members[k].1, field).Ok?
  }

  /** `h` is in the `field` list of some platform config. */
  predicate InSomeField(pcs: Json, field: string, h: string)
    requires UnionOk(pcs, field)
  {
    exists k | 0 <= k < |pcs.members| :: h in FieldMembers(pcs.members[k].1, field).value
  }

  /** A decoded `platformConfigs` entry: `PlatformConfig` without the two
      optional description fields. */
  datatype PlatformConfig = PlatformConfig(
    name: string,
    hosts: set<string>,
    paths: set<string>,
    paramMap: Dict<string>,
    pixelIdKey: string,
    eventNameKey: string)

  /** The ordered platform table (`PLATFORMS`), in `platformConfigs` order. */
  type Registry = seq<(string, PlatformConfig)>

  /** A string field with a default; a non-string value is rendered with `str()`. */
  function TextField(cfg: seq<(string, Json)>, key: string, default: string): (r: string)
    ensures Lookup(cfg, key).None? ==> r == default
    ensures Lookup(cfg, key).Some? && Lookup(cfg, key).value.JStr? ==> r == Lookup(cfg, key).value.s
  {
    match Lookup(cfg, key)
    case None => default
    case Some(v) => Str(v)
  }

  /** A `paramMap` dict with its values rendered by `str()`; a missing or
      non-dict map is `{}`. */
  function ParamMapField(cfg: seq<(string, Json)>): Dict<string> {
    match Lookup(cfg, "paramMap")
    case Some(JObj(ms)) => seq(|ms|, k requires 0 <= k < |ms| => (ms[k].0, Str(ms[k].1)))
    case _ => []
  }

  /** `get_platform_config_as_namedtuple(platform)`: `None` for an empty
      config; defaults for every missing field. */
  function AsPlatformConfig(config: Json, platform: string): (r: Result<Option<PlatformConfig>>)
    ensures !Truthy(PlatformConfigOf(config, platform)) ==> r == Ok(None)
    ensures Truthy(PlatformConfigOf(config, platform)) && !PlatformConfigOf(config, platform).JObj? ==>
              r == Raise(AttributeError)
    ensures r.Ok? && r.value.Some? ==> var cfg := PlatformConfigOf(config, platform).members;
              && (Lookup(cfg, "name").None? ==> r.value.value.name == platform)
              && (Lookup(cfg, "pixelIdKey").None? ==> r.value.value.pixelIdKey == "id")
              && (Lookup(cfg, "eventNameKey").None? ==> r.value.value.eventNameKey == "event")
              && (Lookup(cfg, "paramMap").None? ==> r.value.value.paramMap == [])
              && (Lookup(cfg, "hosts").None? ==> r.value.value.hosts == {})
              && (Lookup(cfg, "paths").None? ==> r.value.value.paths == {})
  {
    var pc := PlatformConfigOf(config, platform);
    if !Truthy(pc) then Ok(None)
    else if !pc.JObj? then Raise(AttributeError)
    else
      match FieldMembers(pc, "hosts")
      case Raise(e) => Raise(e)
      case Ok(hosts) =>
        match FieldMembers(pc, "paths")
        case Raise(e) => Raise(e)
        case Ok(paths) =>
          Ok(Some(PlatformConfig(
            TextField(pc.members, "name", platform), hosts, paths, ParamMapField(pc.members),
            TextField(pc.members, "pixelIdKey", "id"), TextField(pc.members, "eventNameKey", "event"))))
  }

  /** A platform whose name contains a dot is looked up as a nested path, so
      when the text before the first dot is not itself a platform the lookup
      finds nothing. */
  lemma DottedPlatformMissing(config: Json, a: string, rest: string)
    requires '.' !in a
    requires AllPlatformConfigs(config).JObj? && Lookup(AllPlatformConfigs(config).members, a).None?
    ensures AsPlatformConfig(config, a + "." + rest) == Ok(None)
  {
    DottedConfigEmpty(config, a, rest);
    assert !Truthy(JObj([]));
  }

  /** Such a dotted platform name resolves to the default `{}`. */
  lemma DottedConfigEmpty(config: Json, a: string, rest: string)
    requires '.' !in a
    requires AllPlatformConfigs(config).JObj? && Lookup(AllPlatformConfigs(config).members, a).None?
    ensures PlatformConfigOf(config, a + "." + rest) == JObj([])
  {
    var all := AllPlatformConfigs(config);
    GetDotted(all, a, rest, JObj([]));
    assert PlatformConfigOf(config, a + "." + rest) == GetPath(all, a + "." + rest, JObj([]));
  }

  /** `get_platforms()`: the keys of `platformConfigs`. */
  function PlatformNames(config: Json): (r: Result<seq<string>>)
    ensures r.Ok? <==> AllPlatformConfigs(config).JObj?
    ensures r.Ok? ==> r.value == Keys(AllPlatformConfigs(config).members)
  {
    var pcs := AllPlatformConfigs(config);
    if pcs.JObj? then Ok(Keys(pcs.members)) else Raise(AttributeError)
  }

  /** A dict filled from `names` in order: each name's decoded value is
      stored when there is one, and the first raise ends the fill. */
  function DecodeAll(names: seq<string>, decode: string -> Result<Option<PlatformConfig>>): Result<Registry>
    decreases |names|
  {
    if |names| == 0 then Ok([])
    else
      var last := names[|names| - 1];
      match DecodeAll(names[..|names| - 1], decode)
      case Raise(e) => Raise(e)
      case Ok(d) =>
        match decode(last)
        case Raise(e) => Raise(e)
        case Ok(None) => Ok(d)
        case Ok(Some(v)) => Ok(Put(d, last, v))
  }

  /** A successful fill maps a name to its decoded value exactly when the name
      is listed and decodes to one. */
  lemma {:induction false} DecodeAllExact(names: seq<string>, decode: string -> Result<Option<PlatformConfig>>, name: string)
    requires DecodeAll(names, decode).Ok?
    ensures forall k | 0 <= k < |names| :: decode(names[k]).Ok?
    ensures Dicts.Get(DecodeAll(names, decode).value, name) == if name in names then decode(name).value else None
    decreases |names|
  {
    if |names| > 0 {
      var init := names[..|names| - 1];
      var last := names[|names| - 1];
      DecodeAllExact(init, decode, name);
      var prev := DecodeAll(init, decode).value;
      assert names == init + [last];
      assert (name in names) == (name in init || name == last);
      match decode(last) {
        case Ok(Some(v)) =>
          if name != last {
            PutOther(prev, last, v, name);
          }
        case Ok(None) =>
        case Raise(_) =>
      }
    }
  }

  /** The loaded configuration, as `ConfigLoader` holds it after loading. */
  class ConfigLoader {
    var config: Json

    constructor(config: Json)
      ensures this.config == config
    {
      this.config := config;
    }

    /** `get(key, default)`: walks the dotted segments one at a time. */
    method Get(key: string, default: Json) returns (r: Json)
      ensures r == GetPath(config, key, default)
      ensures '.' !in key && config.JObj? && Lookup(config.members, key).Some? ==> r == Lookup(config.members, key).value
      ensures '.' !in key && !(config.JObj? && Lookup(config.members, key).Some?) ==> r == default
    {
      if '.' !in key {
        GetDotless(config, key, default);
      }
      var keys := Split(key, ".");
      var value := config;
      var i := 0;
      while i < |keys|
        invariant 0 <= i <= |keys|
        invariant Walk(value, keys[i..], default) == GetPath(config, key, default)
      {
        assert keys[i..][1..] == keys[i + 1..];
        if value.JObj? && Lookup(value.members, keys[i]).Some? {
          value := Lookup(value.members, keys[i]).value;
        } else {
          return default;
        }
        i := i + 1;
      }
      return value;
    }

    /** `get_all_hosts()` (field "hosts") and `get_all_paths()` (field "paths"):
        the union of that list over every platform config. */
    method AllOf(field: string) returns (r: Result<set<string>>)
      ensures r.Raise? <==> (!AllPlatformConfigs(config).JObj? ||
                exists k | 0 <= k < |AllPlatformConfigs(config).members| ::
                  FieldMembers(AllPlatformConfigs(config).members[k].1, field).Raise?)
      ensures r.Ok? ==> (UnionOk(AllPlatformConfigs(config), field) &&
                forall h :: h in r.value <==> InSomeField(AllPlatformConfigs(config), field, h))
    {
      var pcs := AllPlatformConfigs(config);
      if !pcs.JObj? {
        return Raise(AttributeError);
      }
      var ms := pcs.members;
      r := UnionEach(ms, field);
      if r.Ok? {
        UnionExact(ms, field, "");
        forall h ensures h in r.value <==> InSomeField(pcs, field, h) {
          UnionExact(ms, field, h);
        }
      } else {
        UnionRaiseWitness(ms, field);
      }
    }

    method AllHosts() returns (r: Result<set<string>>)
      ensures r.Ok? ==> (UnionOk(AllPlatformConfigs(config), "hosts") &&
                forall h :: h in r.value <==> InSomeField(AllPlatformConfigs(config), "hosts", h))
    {
      r := AllOf("hosts");
    }

    method AllPaths() returns (r: Result<set<string>>)
      ensures r.Ok? ==> (UnionOk(AllPlatformConfigs(config), "paths") &&
                forall p :: p in r.value <==> InSomeField(AllPlatformConfigs(config), "paths", p))
    {
      r := AllOf("paths");
    }

    /** `get_platform_icon_map()` and its highlight-class and color siblings. */
    method UiMap(field: string, default: string) returns (r: Result<Dict<Json>>)
      ensures AllPlatformConfigs(config).JObj? ==>
                r == UiMapOf(AllPlatformConfigs(config).members, UiEntryOf(field, default))
      ensures !AllPlatformConfigs(config).JObj? ==> r == Raise(AttributeError)
    {
      var pcs := AllPlatformConfigs(config);
      if !pcs.JObj? {
        return Raise(AttributeError);
      }
      r := UiMapEach(pcs.members, UiEntryOf(field, default));
    }

    /** `get_platforms_dict()`: every platform whose config decodes, keyed by name. */
    method PlatformsDict() returns (r: Result<Registry>)
      ensures PlatformNames(config).Raise? ==> r.Raise?
      ensures r.Ok? ==> (PlatformNames(config).Ok? &&
                (forall name | name in PlatformNames(config).value :: AsPlatformConfig(config, name).Ok?) &&
                forall name :: Dicts.Get(r.value, name) ==
                  if name in PlatformNames(config).value then AsPlatformConfig(config, name).value else None)
    {
      var names := PlatformNames(config);
      if names.Raise? {
        return Raise(names.exc);
      }
      var ns := names.value;
      var cfg := config;
      r := DecodeEach(ns, name => AsPlatformConfig(cfg, name));
      if r.Ok? {
        forall name
          ensures name in ns ==> AsPlatformConfig(config, name).Ok?
          ensures Dicts.Get(r.value, name) == if name in ns then AsPlatformConfig(config, name).value else None
        {
          DecodeAllExact(ns, name => AsPlatformConfig(cfg, name), name);
        }
      }
    }
  }

  /** The loop of the UI maps: each platform's UI value is stored under its
      name in turn, and the first raise ends the loop. */
  method UiMapEach(ms: seq<(string, Json)>, entry: Json -> Result<Json>) returns (r: Result<Dict<Json>>)
    ensures r == UiMapOf(ms, entry)
  {
    r := Ok([]);
    var i := 0;
    while i < |ms| && r.Ok?
      invariant 0 <= i <= |ms|
      invariant r == UiMapOf(ms[..i], entry)
    {
      r := UiMapNext(ms, i, entry, r.value);
      i := i + 1;
    }
    if r.Raise? {
      UiMapRaiseStays(ms, i, |ms|, entry);
    }
    assert ms[..|ms|] == ms;
  }

  /** One turn of that loop. */
  method UiMapNext(ms: seq<(string, Json)>, i: nat, entry: Json -> Result<Json>, m: Dict<Json>) returns (r: Result<Dict<Json>>)
    requires i < |ms| && UiMapOf(ms[..i], entry) == Ok(m)
    ensures r == UiMapOf(ms[..i + 1], entry)
  {
    assert ms[..i + 1][..i] == ms[..i];
    var x := entry(ms[i].1);
    if x.Raise? {
      return Raise(x.exc);
    }
    r := Ok(Put(m, ms[i].0, x.value));
  }

  /** The loop of `get_all_hosts()` and `get_all_paths()`: each platform's
      field is added in turn, and the first raise ends the loop. */
  method UnionEach(ms: seq<(string, Json)>, field: string) returns (r: Result<set<string>>)
    ensures r == UnionOf(ms, field)
  {
    r := Ok({});
    var i := 0;
    while i < |ms| && r.Ok?
      invariant 0 <= i <= |ms|
      invariant r == UnionOf(ms[..i], field)
    {
      assert ms[..i + 1][..i] == ms[..i];
      var t := FieldMembers(ms[i].1, field);
      if t.Raise? {
        r := Raise(t.exc);
      } else {
        r := Ok(r.value + t.value);
      }
      i := i + 1;
    }
    if r.Raise? {
      UnionRaiseStays(ms, i, |ms|, field);
    }
    assert ms[..|ms|] == ms;
  }

  /** The loop of `get_platforms_dict()`: each name is decoded in turn, its
      value stored when there is one, and the first raise ends the loop. */
  method DecodeEach(names: seq<string>, decode: string -> Result<Option<PlatformConfig>>) returns (r: Result<Registry>)
    ensures r == DecodeAll(names, decode)
  {
    r := Ok([]);
    var i := 0;
    while i < |names| && r.Ok?
      invariant 0 <= i <= |names|
      invariant r == DecodeAll(names[..i], decode)
    {
      r := DecodeNext(names, i, decode, r.value);
      i := i + 1;
    }
    if r.Raise? {
      DecodeAllRaiseStays(names, i, |names|, decode);
    }
    assert names[..|names|] == names;
  }

  /** One turn of that loop: the next name's value, if any, is stored. */
  method DecodeNext(names: seq<string>, i: nat, decode: string -> Result<Option<PlatformConfig>>, d: Registry) returns (r: Result<Registry>)
    requires i < |names| && DecodeAll(names[..i], decode) == Ok(d)
    ensures r == DecodeAll(names[..i + 1], decode)
  {
    assert names[..i + 1][..i] == names[..i];
    var x := decode(names[i]);
    if x.Raise? {
      return Raise(x.exc);
    }
    r := Ok(d);
    if x.value.Some? {
      r := Ok(Put(d, names[i], x.value.value));
    }
  }

  /** Once a name has raised, the later names change nothing. */
  lemma {:induction false} DecodeAllRaiseStays(names: seq<string>, i: nat, n: nat, decode: string -> Result<Option<PlatformConfig>>)
    requires i <= n <= |names| && DecodeAll(names[..i], decode).Raise?
    ensures DecodeAll(names[..n], decode) == DecodeAll(names[..i], decode)
    decreases n - i
  {
    if i < n {
      DecodeAllRaiseStays(names, i, n - 1, decode);
      assert names[..n][..n - 1] == names[..n - 1];
    }
  }

  /** Once a platform's UI value has raised, the later platforms change nothing. */
  lemma {:induction false} UiMapRaiseStays(ms: seq<(string, Json)>, i: nat, n: nat, entry: Json -> Result<Json>)
    requires i <= n <= |ms| && UiMapOf(ms[..i], entry).Raise?
    ensures UiMapOf(ms[..n], entry) == UiMapOf(ms[..i], entry)
    decreases n - i
  {
    if i < n {
      UiMapRaiseStays(ms, i, n - 1, entry);
      assert ms[..n][..n - 1] == ms[..n - 1];
    }
  }

}
