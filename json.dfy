/**
  JSON values and `JSON.stringify`. `JSON.parse` is not defined here: the modules that
  use it take it as a function argument, since only its round trip with `Stringify` and
  its failure on malformed text matter to them.
*/
module Json {
  import opened Wrappers
  import opened Text

  datatype Json =
    | JNull
    | JBool(b: bool)
    | JNumber(n: int)
    | JString(s: string)
    | JArray(items: seq<Json>)
    | JObject(fields: seq<(string, Json)>)

  /** `obj.key` on a parsed value: the last field of that name (as `JSON.parse` keeps the
      last of duplicate keys); `None` is `undefined`. Only objects have fields. */
  function Get(j: Json, key: string): (r: Option<Json>)
    ensures r.Some? ==> j.JObject? && exists i :: 0 <= i < |j.fields| && j.fields[i] == (key, r.value)
  {
    if j.JObject? then LastField(j.fields, key) else None
  }

  function LastField(fields: seq<(string, Json)>, key: string): (r: Option<Json>)
    ensures r.Some? ==> exists i :: 0 <= i < |fields| && fields[i] == (key, r.value)
    ensures r.None? ==> forall i :: 0 <= i < |fields| ==> fields[i].0 != key
  {
    if fields == [] then None
    else if fields[|fields| - 1].0 == key then Some(fields[|fields| - 1].1)
    else LastField(fields[..|fields| - 1], key)
  }

  function HexDigit(d: nat): char
    requires d < 16
  {
    if d < 10 then ('0' as int + d) as char else ('a' as int + d - 10) as char
  }

  /** How `JSON.stringify` writes one character inside a string literal. */
  function EscapeChar(c: char): (r: string)
    ensures |r| >= 1 && (r[0] == '\\' <==> c == '"' || c == '\\' || c < ' ')
  {
    if c == '"' then "\\\""
    else if c == '\\' then "\\\\"
    else if c == '\n' then "\\n"
    else if c == '\r' then "\\r"
    else if c == '\t' then "\\t"
    else if c == '\U{8}' then "\\b"
    else if c == '\U{C}' then "\\f"
    else if c < ' ' then "\\u00" + [HexDigit(c as int / 16), HexDigit(c as int % 16)]
    else [c]
  }

  function Escape(s: string): string {
    if s == [] then "" else EscapeChar(s[0]) + Escape(s[1..])
  }

  /** A string literal: the escaped text between double quotes. */
  function Quote(s: string): (r: string)
    ensures |r| >= 2 && r[0] == '"' && r[|r| - 1] == '"'
  {
    "\"" + Escape(s) + "\""
  }

  /** `JSON.stringify(j)`: never empty. */
  function Stringify(j: Json): (r: string)
    ensures |r| >= 1
    ensures j.JObject? ==> r[0] == '{'
    decreases j, 1
  {
    match j
    case JNull => "null"
    case JBool(b) => if b then "true" else "false"
    case JNumber(n) => if n < 0 then "-" + DecimalString(-n) else DecimalString(n)
    case JString(s) => Quote(s)
    case JArray(items) => "[" + Items(j, 0) + "]"
    case JObject(fields) => "{" + Members(j, 0) + "}"
  }

  /** The comma-separated items of an array from index `i` on. */
  function Items(j: Json, i: nat): string
    requires j.JArray? && i <= |j.items|
    decreases j, 0, |j.items| - i
  {
    if i == |j.items| then ""
    else (if i == 0 then "" else ",") + Stringify(j.items[i]) + Items(j, i + 1)
  }

  /** The comma-separated `"key":value` members of an object from index `i` on. */
  function Members(j: Json, i: nat): string
    requires j.JObject? && i <= |j.fields|
    decreases j, 0, |j.fields| - i
  {
    if i == |j.fields| then ""
    else (if i == 0 then "" else ",") + Quote(j.fields[i].0) + ":" + Stringify(j.fields[i].1) + Members(j, i + 1)
  }

  /** What a `JSON.parse` has to satisfy for the properties stated about it: it reads back
      what `Stringify` wrote. */
  predicate ReadsBack(parse: string -> Option<Json>, j: Json) {
    parse(Stringify(j)) == Some(j)
  }
}
