/** The pieces of JavaScript value and string semantics that the route handler and the components
    rely on: JSON values with their truthiness, and `trim`, `startsWith`, `substring` and `charAt`. */
module Js {
  import opened Wrappers

  /** A value as `JSON.parse` produces it. */
  datatype JsonValue =
    | JNull
    | JBool(b: bool)
    | JNumber(n: real)
    | JString(s: string)
    | JArray(items: seq<JsonValue>)
    | JObject(fields: map<string, JsonValue>)

  /** ECMAScript ToBoolean on a value that may be `undefined` (`None`): `undefined`, `null`, `false`,
      `0` and `""` are falsy; every array and every object, even an empty one, is truthy. */
  function Truthy(v: Option<JsonValue>): (b: bool)
    ensures !b <==> v in {None, Some(JNull), Some(JBool(false)), Some(JNumber(0.0)), Some(JString(""))}
  {
    match v
    case None => false
    case Some(JNull) => false
    case Some(JBool(flag)) => flag
    case Some(JNumber(n)) => n != 0.0
    case Some(JString(s)) => s != ""
    case Some(JArray(_)) => true
    case Some(JObject(_)) => true
  }

  /** `v || fallback`: the left operand when it is truthy, the right one otherwise. */
  function Or(v: Option<JsonValue>, fallback: JsonValue): (r: JsonValue)
    ensures Truthy(v) ==> r == v.value
    ensures !Truthy(v) ==> r == fallback
    ensures Truthy(Some(fallback)) ==> Truthy(Some(r))
  {
    if Truthy(v) then v.value else fallback
  }

  /** The five fields the route handler reads from a parsed model reply. */
  const FieldNames: set<string> := {"title", "datetime", "location", "description", "type"}

  /** `v.key` for one of the plain keys the handler reads (none of which the prototypes of JSON values
      define): an object's own field, and `undefined` on every other non-null value. Reading a
      property of `null` throws a TypeError, which callers handle before they get here. */
  function Property(v: JsonValue, key: string): (r: Option<JsonValue>)
    requires v != JNull && key in FieldNames
    ensures r.Some? <==> v.JObject? && key in v.fields
    ensures r.Some? ==> r.value == v.fields[key]
  {
    match v
    case JObject(fields) => if key in fields then Some(fields[key]) else None
    case _ => None
  }

  /** White space and line terminators as `String.prototype.trim` strips them (ECMAScript, sections
      "White Space" and "Line Terminators"): TAB, VT, FF, SP, NBSP, ZWNBSP, the other Unicode space
      separators, LF, CR, LS and PS. */
  predicate IsWhitespace(c: char) {
    c == '\t' || c == '\U{B}' || c == '\U{C}' || c == ' ' || c == '\U{A0}' || c == '\U{FEFF}'
    || c == '\U{1680}' || ('\U{2000}' <= c <= '\U{200A}') || c == '\U{202F}' || c == '\U{205F}'
    || c == '\U{3000}' || c == '\n' || c == '\r' || c == '\U{2028}' || c == '\U{2029}'
  }

  predicate AllWhitespace(s: string) {
    forall i :: 0 <= i < |s| ==> IsWhitespace(s[i])
  }

  /** `s` without its leading white space: a suffix of `s` that is empty or starts with a
      non-white-space character, everything before it being white space. */
  function TrimStart(s: string): (r: string)
    ensures |r| <= |s| && r == s[|s| - |r|..]
    ensures AllWhitespace(s[..|s| - |r|])
    ensures r == [] || !IsWhitespace(r[0])
  {
    if s != [] && IsWhitespace(s[0]) then TrimStart(s[1..]) else s
  }

  /** `s` without its trailing white space: a prefix of `s` that is empty or ends with a
      non-white-space character, everything after it being white space. */
  function TrimEnd(s: string): (r: string)
    ensures |r| <= |s| && r == s[..|r|]
    ensures AllWhitespace(s[|r|..])
    ensures r == [] || !IsWhitespace(r[|r| - 1])
  {
    if s != [] && IsWhitespace(s[|s| - 1]) then TrimEnd(s[..|s| - 1]) else s
  }

  /** `s.trim()`. */
  function Trim(s: string): (r: string)
    ensures |r| <= |s|
    ensures r == [] || (!IsWhitespace(r[0]) && !IsWhitespace(r[|r| - 1]))
  {
    TrimEnd(TrimStart(s))
  }

  lemma {:induction false} TrimStartPadded(pad: string, x: string)
    requires AllWhitespace(pad)
    requires x == [] || !IsWhitespace(x[0])
    ensures TrimStart(pad + x) == x
  {
    if pad == [] {
      assert pad + x == x;
    } else {
      assert (pad + x)[1..] == pad[1..] + x;
      TrimStartPadded(pad[1..], x);
    }
  }

  lemma {:induction false} TrimEndPadded(x: string, pad: string)
    requires AllWhitespace(pad)
    requires x == [] || !IsWhitespace(x[|x| - 1])
    ensures TrimEnd(x + pad) == x
  {
    if pad == [] {
      assert x + pad == x;
    } else {
      var shorter := pad[..|pad| - 1];
      assert (x + pad)[..|x + pad| - 1] == x + shorter;
      TrimEndPadded(x, shorter);
    }
  }

  /** Trimming removes exactly the white-space padding around a text that neither starts nor ends
      with white space. */
  lemma TrimPadded(before: string, x: string, after: string)
    requires AllWhitespace(before) && AllWhitespace(after)
    requires x == [] || (!IsWhitespace(x[0]) && !IsWhitespace(x[|x| - 1]))
    ensures Trim(before + x + after) == x
  {
    if x == [] {
      assert before + x + after == before + after;
      TrimStartPadded(before + after, []);
      assert before + after + [] == before + after;
    } else {
      assert before + x + after == before + (x + after);
      assert (x + after)[0] == x[0];
      TrimStartPadded(before, x + after);
      TrimEndPadded(x, after);
    }
  }

  /** `s.startsWith(prefix)`. */
  function StartsWith(s: string, prefix: string): (b: bool)
    ensures b <==> |prefix| <= |s| && forall i :: 0 <= i < |prefix| ==> s[i] == prefix[i]
  {
    |prefix| <= |s| && s[..|prefix|] == prefix
  }

  /** `s.substring(0, n)` for `n >= 0`: the first `n` characters, or all of `s` when it is shorter. */
  function Prefix(s: string, n: nat): (r: string)
    ensures |r| <= n && |r| <= |s|
    ensures r == s[..|r|]
    ensures |s| <= n ==> r == s
    ensures n <= |s| ==> |r| == n
  {
    if n <= |s| then s[..n] else s
  }

  /** `s.charAt(0)`: the first character as a string, or `""` for the empty string. */
  function FirstChar(s: string): (r: string)
    ensures |r| == if s == [] then 0 else 1
    ensures r == s[..|r|]
  {
    if s == [] then "" else [s[0]]
  }

  /** `s?.[0]`: the first character, or `undefined` for the empty string. */
  function FirstIndex(s: string): (r: Option<char>)
    ensures r.Some? <==> s != []
    ensures r.Some? ==> r.value == s[0]
  {
    if s == [] then None else Some(s[0])
  }
}
