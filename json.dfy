/**
 * The JSON-like values that the logger stores as payloads, with JavaScript
 * truthiness and `JSON.stringify` (compact, and with a two-space indent).
 */
module Json {
  import opened Strings

  /** An object keeps its properties in enumeration order. Numbers are integers. */
  datatype Json =
    | JNull
    | JBool(b: bool)
    | JNum(n: int)
    | JStr(s: string)
    | JArr(items: seq<Json>)
    | JObj(fields: seq<(string, Json)>)

  /** JavaScript truthiness of a value. */
  predicate Truthy(v: Json) {
    match v
    case JNull => false
    case JBool(b) => b
    case JNum(n) => n != 0
    case JStr(s) => s != ""
    case _ => true
  }

  function HexDigit(d: nat): char
    requires d < 16
  {
    "0123456789abcdef"[d]
  }

  /** One character of a JSON string literal. */
  function EscapeChar(c: char): string {
    if c == '"' then "\\\""
    else if c == '\\' then "\\\\"
    else if c == '\U{0008}' then "\\b"
    else if c == '\t' then "\\t"
    else if c == '\n' then "\\n"
    else if c == '\U{000C}' then "\\f"
    else if c == '\r' then "\\r"
    else if (c as int) < 0x20 then "\\u00" + [HexDigit(c as int / 16), HexDigit(c as int % 16)]
    else [c]
  }

  function EscapeString(s: string): string {
    if s == [] then "" else EscapeChar(s[0]) + EscapeString(s[1..])
  }

  function Quote(s: string): string {
    "\"" + EscapeString(s) + "\""
  }

  /**
   * `JSON.stringify(v, null, gap)` with `gap` the indent step ("" for the
   * compact form) and `indent` the current indentation.
   */
  function Stringify(v: Json, gap: string, indent: string): string
    decreases v
  {
    match v
    case JNull => "null"
    case JBool(b) => if b then "true" else "false"
    case JNum(n) => IntToString(n)
    case JStr(s) => Quote(s)
    case JArr(items) =>
      if items == [] then "[]"
      else
        var inner := indent + gap;
        var parts := seq(|items|, i requires 0 <= i < |items| => Stringify(items[i], gap, inner));
        if gap == "" then "[" + Join(parts, ",") + "]"
        else "[\n" + inner + Join(parts, ",\n" + inner) + "\n" + indent + "]"
    case JObj(fields) =>
      if fields == [] then "{}"
      else
        var inner := indent + gap;
        var parts := seq(|fields|, i requires 0 <= i < |fields| =>
          Quote(fields[i].0) + (if gap == "" then ":" else ": ") + Stringify(fields[i].1, gap, inner));
        if gap == "" then "{" + Join(parts, ",") + "}"
        else "{\n" + inner + Join(parts, ",\n" + inner) + "\n" + indent + "}"
  }

  /** `JSON.stringify(v)`. */
  function Compact(v: Json): string {
    Stringify(v, "", "")
  }

  /** `JSON.stringify(v, null, 2)`. */
  function Pretty(v: Json): string {
    Stringify(v, "  ", "")
  }
}
