/** Decoded JSON values as Python holds them after `json.loads`, with the
    Python operations the engine applies to them: `str()`, `repr()`,
    truthiness, `in`, `[...]` and `len()`. */
module JsonValues {
  import opened Wrappers
  import opened Strings

  /** A decoded JSON value. A float is carried as the text Python's `str()`
      gives it, since no arithmetic is done on it. An object's members are in
      document order with distinct keys. */
  datatype Json =
    | JNull
    | JBool(b: bool)
    | JInt(i: int)
    | JFloat(text: string)
    | JStr(s: string)
    | JArr(items: seq<Json>)
    | JObj(members: seq<(string, Json)>)

  predicate IsContainer(j: Json) {
    j.JArr? || j.JObj?
  }

  /** Python truthiness: `None`, `False`, zero, and empty strings,
      lists and dicts are false. */
  predicate Truthy(j: Json) {
    match j
    case JNull => false
    case JBool(b) => b
    case JInt(i) => i != 0
    case JFloat(t) => t != "0.0" && t != "-0.0"
    case JStr(s) => |s| > 0
    case JArr(items) => |items| > 0
    case JObj(ms) => |ms| > 0
  }

  /** Python `str(j)`. */
  function Str(j: Json): string {
    match j
    case JStr(s) => s
    case _ => Repr(j)
  }

  /** Python `repr(j)`. */
  function Repr(j: Json): string {
    match j
    case JNull => "None"
    case JBool(b) => if b then "True" else "False"
    case JInt(i) => IntToString(i)
    case JFloat(t) => t
    case JStr(s) => ReprString(s)
    case JArr(items) =>
      "[" + Join(seq(|items|, k requires 0 <= k < |items| => Repr(items[k])), ", ") + "]"
    case JObj(ms) =>
      "{" + Join(seq(|ms|, k requires 0 <= k < |ms| => ReprString(ms[k].0) + ": " + Repr(ms[k].1)), ", ") + "}"
  }

  /** The quote `repr` puts around a string: a single quote, unless the string
      holds a single quote and no double quote. */
  function QuoteFor(s: string): char {
    if '\'' in s && '"' !in s then '"' else '\''
  }

  const HexDigits := "0123456789abcdef"

  /** How `repr` writes one character inside quotes `q`. Control characters
      and U+007F..U+00A0 and U+00AD become `\xHH`; other characters are kept. */
  function EscapeChar(c: char, q: char): (r: string)
    ensures |r| >= 1
  {
    if c == '\\' then "\\\\"
    else if c == q then ['\\', q]
    else if c == '\n' then "\\n"
    else if c == '\r' then "\\r"
    else if c == '\t' then "\\t"
    else if c as int < 0x20 || 0x7F <= c as int <= 0xA0 || c as int == 0xAD then
      ['\\', 'x', HexDigits[c as int / 16 % 16], HexDigits[c as int % 16]]
    else [c]
  }

  function EscapeAll(s: string, q: char): string {
    if |s| == 0 then "" else EscapeChar(s[0], q) + EscapeAll(s[1..], q)
  }

  function ReprString(s: string): (r: string)
    ensures |r| >= 2
  {
    var q := QuoteFor(s);
    [q] + EscapeAll(s, q) + [q]
  }

  /** A character `repr` writes as itself. */
  predicate Plain(c: char) {
    0x20 <= c as int < 0x7F && c != '\\' && c != '\''
  }

  /** A string of plain characters is written between single quotes as it is. */
  lemma {:induction false} ReprPlain(s: string)
    requires forall k | 0 <= k < |s| :: Plain(s[k])
    ensures Repr(JStr(s)) == "'" + s + "'"
  {
    assert '\'' !in s;
    EscapePlain(s);
  }

  lemma {:induction false} EscapePlain(s: string)
    requires forall k | 0 <= k < |s| :: Plain(s[k])
    ensures EscapeAll(s, '\'') == s
  {
    if |s| > 0 {
      EscapePlain(s[1..]);
      assert [s[0]] + s[1..] == s;
    }
  }

  /** The first value stored under `key`. */
  function Lookup(ms: seq<(string, Json)>, key: string): (r: Option<Json>)
    ensures r.Some? <==> exists k | 0 <= k < |ms| :: ms[k].0 == key
    ensures r.Some? ==> exists k | 0 <= k < |ms| :: ms[k] == (key, r.value)
  {
    if |ms| == 0 then None
    else if ms[0].0 == key then Some(ms[0].1)
    else
      var r := Lookup(ms[1..], key);
      assert forall k | 0 <= k < |ms| - 1 :: ms[1..][k] == ms[k + 1];
      r
  }

  /** Python `key in j` for a string `key`: a key of a dict, an element of a
      list, a substring of a string; any other value raises `TypeError`. */
  function HasIn(j: Json, key: string): (r: Result<bool>)
    ensures r.Raise? <==> !(j.JObj? || j.JArr? || j.JStr?)
    ensures j.JObj? && r.Ok? ==> (r.value <==> Lookup(j.members, key).Some?)
    ensures j.JStr? && r.Ok? ==> (r.value <==> Contains(j.s, key))
  {
    match j
    case JObj(ms) => Ok(Lookup(ms, key).Some?)
    case JArr(items) => Ok(JStr(key) in items)
    case JStr(s) => Ok(Contains(s, key))
    case _ => Raise(TypeError)
  }

  /** Python `j[key]` for a string `key`: a missing dict key raises `KeyError`,
      any non-dict raises `TypeError`. */
  function Subscript(j: Json, key: string): (r: Result<Json>)
    ensures r.Ok? <==> j.JObj? && Lookup(j.members, key).Some?
    ensures r.Raise? && j.JObj? ==> r.exc == KeyError
    ensures r.Raise? && !j.JObj? ==> r.exc == TypeError
  {
    match j
    case JObj(ms) =>
      (match Lookup(ms, key)
       case Some(v) => Ok(v)
       case None => Raise(KeyError))
    case _ => Raise(TypeError)
  }

  /** Python `len(j)`: strings, lists and dicts have a length, other values
      raise `TypeError`. */
  function Len(j: Json): (r: Result<nat>)
    ensures r.Ok? <==> (j.JStr? || j.JArr? || j.JObj?)
    ensures r.Raise? ==> r.exc == TypeError
  {
    match j
    case JStr(s) => Ok(|s|)
    case JArr(items) => Ok(|items|)
    case JObj(ms) => Ok(|ms|)
    case _ => Raise(TypeError)
  }
}
