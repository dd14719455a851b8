/** JSON values: the payload parts the tools pass through without looking
    inside (custom field values, comment documents, allowed values), and
    `JSON.stringify` for the one place where a tool turns such a value into
    text. */
module Json {
  import opened Text

  datatype Json =
    | JNull
    | JBool(b: bool)
    | JNumber(n: int)
    | JString(s: string)
    | JArray(items: seq<Json>)
    | JObject(entries: seq<(string, Json)>)

  /** The keys of an object's entry list are pairwise different, as they are
      for every JavaScript object. */
  predicate DistinctKeys<V>(entries: seq<(string, V)>) {
    forall i, j :: 0 <= i < j < |entries| ==> entries[i].0 != entries[j].0
  }

  /** A lower-case hexadecimal digit. */
  function HexDigit(d: nat): (r: char)
    requires d < 16
    ensures ('0' <= r <= '9') || ('a' <= r <= 'f')
  {
    if d < 10 then ('0' as int + d) as char else ('a' as int + (d - 10)) as char
  }

  /** One character of a string literal, escaped as `JSON.stringify` does:
      the quote and the backslash, the five control characters with a short
      form, and every other character below U+0020 as `\u00xx`. */
  function EscapeChar(c: char): (r: string)
    ensures r != [] && forall k :: 0 <= k < |r| ==> r[k] >= ' '
    ensures c >= ' ' && c != '"' && c != '\\' ==> r == [c]
    ensures (c < ' ' || c == '"' || c == '\\') ==> r[0] == '\\' && |r| >= 2
  {
    if c == '"' then "\\\""
    else if c == '\\' then "\\\\"
    else if c == '\U{8}' then "\\b"
    else if c == '\t' then "\\t"
    else if c == '\n' then "\\n"
    else if c == '\U{C}' then "\\f"
    else if c == '\r' then "\\r"
    else if c < ' ' then "\\u00" + [HexDigit(c as int / 16), HexDigit(c as int % 16)]
    else [c]
  }

  /** A string literal in double quotes. */
  function Quote(s: string): string {
    "\"" + Escape(s) + "\""
  }

  /** The escaped characters of a string: no raw control character is left. */
  function Escape(s: string): (r: string)
    ensures forall k :: 0 <= k < |r| ==> r[k] >= ' '
    ensures |r| >= |s|
  {
    if s == [] then "" else EscapeChar(s[0]) + Escape(s[1..])
  }

  /** A character that stands for itself inside a string literal. */
  predicate Plain(c: char) {
    c >= ' ' && c != '"' && c != '\\'
  }

  /** Text without quotes, backslashes or control characters is written as it is. */
  lemma {:induction false} EscapePlain(s: string)
    requires forall k :: 0 <= k < |s| ==> Plain(s[k])
    ensures Escape(s) == s
    decreases |s|
  {
    if s != [] {
      EscapePlain(s[1..]);
      assert [s[0]] + s[1..] == s;
    }
  }

  /** Escaping is applied character by character, so it distributes over
      concatenation. */
  lemma {:induction false} EscapeAppend(a: string, b: string)
    ensures Escape(a + b) == Escape(a) + Escape(b)
    decreases |a|
  {
    if a != [] {
      assert (a + b)[0] == a[0] && (a + b)[1..] == a[1..] + b;
      EscapeAppend(a[1..], b);
    } else {
      assert a + b == b;
    }
  }

  /** `JSON.stringify(j)` without indentation. */
  function Serialize(j: Json): string
    decreases j
  {
    match j
    case JNull => "null"
    case JBool(b) => if b then "true" else "false"
    case JNumber(n) => IntToString(n)
    case JString(s) => Quote(s)
    case JArray(items) =>
      "[" + Join(seq(|items|, i requires 0 <= i < |items| => Serialize(items[i])), ",") + "]"
    case JObject(entries) =>
      "{" + Join(seq(|entries|, i requires 0 <= i < |entries| =>
                       Quote(entries[i].0) + ":" + Serialize(entries[i].1)), ",") + "}"
  }
}
