/** The pieces of JavaScript's semantics the client code relies on: JSON
    response values, truthiness (`||`, `!`), optional member access (`?.`),
    `Object.values`, `Array.prototype.flat` and `join`, and `String.prototype.trim`. */
module JsRuntime {
  import opened Wrappers
  import Whitespace

  /** A JSON value as axios hands it to the client. Object members keep the
      order in which they were written. That is the order `Object.values`
      returns them in for keys that do not look like array indices, which
      covers every key the server writes (field names, "error", "status").
      Numbers are integers here. */
  datatype Json =
    | JNull
    | JBool(b: bool)
    | JNumber(n: int)
    | JString(s: string)
    | JArray(items: seq<Json>)
    | JObject(members: seq<(string, Json)>)

  /** JavaScript truthiness, as used by `!x`, `x || y` and `x && y`. */
  predicate Truthy(v: Json) {
    match v
    case JNull => false
    case JBool(b) => b
    case JNumber(n) => n != 0
    case JString(s) => s != ""
    case JArray(_) => true
    case JObject(_) => true
  }

  /** `a || b` where `a` may be `undefined` (None). */
  function Or(a: Option<Json>, b: Json): (r: Json)
    ensures a.Some? && Truthy(a.value) ==> r == a.value
    ensures !(a.Some? && Truthy(a.value)) ==> r == b
  {
    if a.Some? && Truthy(a.value) then a.value else b
  }

  /** The value of the first member named `key`. */
  function Lookup(members: seq<(string, Json)>, key: string): (r: Option<Json>)
    ensures r.None? <==> forall k :: 0 <= k < |members| ==> members[k].0 != key
    ensures r.Some? ==> exists k :: 0 <= k < |members| && members[k] == (key, r.value)
  {
    if |members| == 0 then None
    else if members[0].0 == key then Some(members[0].1)
    else
      var r := Lookup(members[1..], key);
      assert forall k :: 1 <= k < |members| ==> members[k] == members[1..][k - 1];
      r
  }

  /** `v?.key`: a member of an object; anything else has no such member. */
  function Member(v: Option<Json>, key: string): (r: Option<Json>)
    ensures r.Some? ==> v.Some? && v.value.JObject?
    ensures v.Some? && v.value.JObject? ==> r == Lookup(v.value.members, key)
  {
    match v
    case Some(JObject(ms)) => Lookup(ms, key)
    case _ => None
  }

  /** `v?.[0]`: the first element of an array, the first character of a
      string, the member named "0" of an object. */
  function Index0(v: Option<Json>): (r: Option<Json>)
    ensures v.Some? && v.value.JArray? ==> (r.Some? <==> |v.value.items| > 0)
    ensures v.Some? && v.value.JArray? && |v.value.items| > 0 ==> r == Some(v.value.items[0])
    ensures v.Some? && v.value.JString? ==> (r.Some? <==> |v.value.s| > 0)
    ensures v.Some? && v.value.JObject? ==> r == Lookup(v.value.members, "0")
    ensures v.None? || v.value.JNull? || v.value.JBool? || v.value.JNumber? ==> r.None?
  {
    match v
    case Some(JArray(items)) => if |items| == 0 then None else Some(items[0])
    case Some(JString(s)) => if |s| == 0 then None else Some(JString([s[0]]))
    case Some(JObject(ms)) => Lookup(ms, "0")
    case _ => None
  }

  /** `typeof v === 'object'` for a value that is not `null`. */
  predicate IsObject(v: Json) {
    v.JObject? || v.JArray?
  }

  /** `Object.values(v)`: the elements of an array, the member values of an object. */
  function Values(v: Json): (r: seq<Json>)
    requires IsObject(v)
    ensures v.JArray? ==> r == v.items
    ensures v.JObject? ==> |r| == |v.members| && forall k :: 0 <= k < |r| ==> r[k] == v.members[k].1
  {
    match v
    case JArray(items) => items
    case JObject(ms) => seq(|ms|, k requires 0 <= k < |ms| => ms[k].1)
  }

  /** `vs.flat()`: arrays among the values are replaced by their elements. */
  function Flat(vs: seq<Json>): (r: seq<Json>)
    ensures (forall k :: 0 <= k < |vs| ==> !vs[k].JArray?) ==> r == vs
  {
    if |vs| == 0 then []
    else (if vs[0].JArray? then vs[0].items else [vs[0]]) + Flat(vs[1..])
  }

  /** Decimal digits of a natural number. */
  function NatText(n: nat): (r: string)
    ensures |r| > 0
    decreases n
  {
    var d := "0123456789"[n % 10];
    if n < 10 then [d] else NatText(n / 10) + [d]
  }

  /** Every character of the decimal text is a digit. */
  lemma {:induction false} NatTextDigits(n: nat)
    ensures forall k :: 0 <= k < |NatText(n)| ==> '0' <= NatText(n)[k] <= '9'
    decreases n
  {
    if n >= 10 {
      NatTextDigits(n / 10);
    }
  }

  /** `String(n)` for an integer. */
  function IntText(n: int): string {
    if n < 0 then "-" + NatText(-n) else NatText(n)
  }

  /** The parts separated by `sep`, as `parts.join(sep)` writes them. */
  function Join(parts: seq<string>, sep: string): string {
    if |parts| == 0 then ""
    else if |parts| == 1 then parts[0]
    else parts[0] + sep + Join(parts[1..], sep)
  }

  /** How `join` writes one element: `null` as the empty string, nested
      arrays with `","`, objects as "[object Object]". */
  function ElementText(v: Json): string {
    match v
    case JNull => ""
    case JBool(b) => if b then "true" else "false"
    case JNumber(n) => IntText(n)
    case JString(s) => s
    case JArray(items) => Join(seq(|items|, k requires 0 <= k < |items| => ElementText(items[k])), ",")
    case JObject(_) => "[object Object]"
  }

  /** `${v}` in a template literal, for a value that may be `undefined`. */
  function StringOf(v: Option<Json>): (r: string)
    ensures v.None? ==> r == "undefined"
    ensures v == Some(JNull) ==> r == "null"
    ensures v.Some? && v.value.JNumber? ==> r == IntText(v.value.n)
    ensures v.Some? && v.value.JString? ==> r == v.value.s
  {
    match v
    case None => "undefined"
    case Some(JNull) => "null"
    case Some(j) => ElementText(j)
  }

  /** `vs.join(sep)`. */
  function JoinValues(vs: seq<Json>, sep: string): string {
    Join(seq(|vs|, k requires 0 <= k < |vs| => ElementText(vs[k])), sep)
  }

  /** A character that `trim` removes: ECMAScript's WhiteSpace and LineTerminator. */
  predicate IsSpace(c: char) {
    || c == '\t' || c == '\n' || c == '\U{000B}' || c == '\U{000C}' || c == '\r'
    || c == ' ' || c == '\U{00A0}' || c == '\U{1680}'
    || ('\U{2000}' <= c <= '\U{200A}')
    || c == '\U{2028}' || c == '\U{2029}' || c == '\U{202F}' || c == '\U{205F}'
    || c == '\U{3000}' || c == '\U{FEFF}'
  }

  /** Every character is white space. */
  predicate IsBlank(s: string) {
    Whitespace.AllIn(IsSpace, s)
  }

  /** `s.trim()`: the string without its leading and trailing white space. */
  function Trim(s: string): (r: string)
    ensures |r| <= |s|
  {
    Whitespace.StripEmptyIffBlank(IsSpace, s);
    Whitespace.Strip(IsSpace, s)
  }

  /** `!s.trim()` holds exactly for the strings made of white space only. */
  lemma TrimEmptyIffBlank(s: string)
    ensures Trim(s) == "" <==> IsBlank(s)
  {
    Whitespace.StripEmptyIffBlank(IsSpace, s);
  }
}
