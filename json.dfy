/** An abstract JSON document, as produced by Go's encoding/json, and its
    rendering to text. Objects keep their members in the order the encoder
    writes them. */
module Json {
  import opened Wrappers

  datatype Value =
    | JNull
    | JBool(b: bool)
    | JNumber(n: int)
    | JString(s: string)
    | JArray(items: seq<Value>)
    | JObject(members: seq<Member>)

  datatype Member = Member(key: string, value: Value)

  /** The keys of an object's members, in order. */
  function Keys(ms: seq<Member>): (ks: seq<string>)
    ensures |ks| == |ms|
  {
    if ms == [] then [] else [ms[0].key] + Keys(ms[1..])
  }

  /** The value of the first member named `k`. Go's decoder keeps the last
      of several members with the same key, so this is what a decoder sees
      only when the keys are distinct, as they are in every encoding of the
      SDK's records (AliasFieldsTags, PlainFieldsTags). */
  function Lookup(ms: seq<Member>, k: string): (r: Option<Value>)
    ensures r.None? <==> k !in Keys(ms)
  {
    if ms == [] then None
    else if ms[0].key == k then Some(ms[0].value)
    else Lookup(ms[1..], k)
  }

  lemma LookupCons(m: Member, tail: seq<Member>, k: string)
    ensures Lookup([m] + tail, k) == if m.key == k then Some(m.value) else Lookup(tail, k)
    ensures Keys([m] + tail) == [m.key] + Keys(tail)
  {
    assert ([m] + tail)[0] == m;
    assert ([m] + tail)[1..] == tail;
  }

  lemma {:induction false} KeysAppend(a: seq<Member>, b: seq<Member>)
    ensures Keys(a + b) == Keys(a) + Keys(b)
  {
    if a == [] {
      assert a + b == b;
    } else {
      assert (a + b)[1..] == a[1..] + b;
      KeysAppend(a[1..], b);
    }
  }

  // ---------------------------------------------------------------------
  // Rendering, following encoding/json's compact output with its default
  // HTML-safe escaping.

  /** The compact text of a value; its first character tells its kind. */
  function Render(v: Value): (r: string)
    ensures |r| >= 1
    ensures v.JObject? ==> r[0] == '{' && r[|r| - 1] == '}'
    ensures v.JArray? ==> r[0] == '[' && r[|r| - 1] == ']'
    ensures v.JString? ==> r[0] == '"'
    decreases v
  {
    match v
    case JNull => "null"
    case JBool(b) => if b then "true" else "false"
    case JNumber(n) => if n < 0 then "-" + Digits(-n) else Digits(n)
    case JString(s) => Quote(s)
    case JArray(items) => "[" + RenderItems(items) + "]"
    case JObject(ms) => "{" + RenderMembers(ms) + "}"
  }

  function RenderItems(items: seq<Value>): string
    decreases items
  {
    if items == [] then ""
    else if |items| == 1 then Render(items[0])
    else Render(items[0]) + "," + RenderItems(items[1..])
  }

  function RenderMembers(ms: seq<Member>): string
    decreases ms
  {
    if ms == [] then ""
    else
      var head := Quote(ms[0].key) + ":" + Render(ms[0].value);
      if |ms| == 1 then head else head + "," + RenderMembers(ms[1..])
  }

  function Quote(s: string): (r: string)
    ensures |r| >= 2 && r[0] == '"'
  {
    "\"" + Escape(s) + "\""
  }

  function Escape(s: string): string
  {
    if s == [] then "" else EscapeChar(s[0]) + Escape(s[1..])
  }

  /** Characters the encoder never rewrites. */
  predicate IsPlain(c: char) {
    ' ' <= c && c != '"' && c != '\\' && c != '<' && c != '>' && c != '&'
    && c != '\U{2028}' && c != '\U{2029}'
  }

  /** The escape encoding/json writes for one character, as of Go 1.22,
      which writes backspace and form feed as `\b` and `\f`. */
  function EscapeChar(c: char): string
  {
    if IsPlain(c) then [c]
    else if c == '"' then "\\\""
    else if c == '\\' then "\\\\"
    else if c == '\U{0008}' then "\\b"
    else if c == '\U{000C}' then "\\f"
    else if c == '\n' then "\\n"
    else if c == '\r' then "\\r"
    else if c == '\t' then "\\t"
    else if c == '\U{2028}' then "\\u2028"
    else if c == '\U{2029}' then "\\u2029"
    else "\\u00" + [HexDigit(c as int / 16 % 16), HexDigit(c as int % 16)]
  }

  function HexDigit(d: int): char
    requires 0 <= d < 16
  {
    "0123456789abcdef"[d]
  }

  function Digits(n: nat): (r: string)
    decreases n
  {
    if n < 10 then ["0123456789"[n]] else Digits(n / 10) + ["0123456789"[n % 10]]
  }

  // ---------------------------------------------------------------------

  lemma {:induction false} DigitsStartWithDigit(n: nat)
    ensures |Digits(n)| > 0 && '0' <= Digits(n)[0] <= '9'
    decreases n
  {
    if n >= 10 {
      DigitsStartWithDigit(n / 10);
    }
  }

  /** A string with no character the encoder rewrites is written as itself. */
  lemma {:induction false} EscapePlain(s: string)
    requires forall i :: 0 <= i < |s| ==> IsPlain(s[i])
    ensures Escape(s) == s
  {
    if s != [] {
      EscapePlain(s[1..]);
    }
  }

  /** Such a string is quoted without escapes. */
  lemma QuotePlain(s: string)
    requires forall i :: 0 <= i < |s| ==> IsPlain(s[i])
    ensures Quote(s) == "\"" + s + "\""
  {
    EscapePlain(s);
  }

  /** The text `{}` is exactly the rendering of the empty object: comparing an
      encoder's output with "{}" asks whether the encoded object has no
      members. */
  lemma RenderIsEmptyObject(v: Value)
    ensures Render(v) == "{}" <==> v == JObject([])
  {
    match v
    case JNumber(n) =>
      DigitsStartWithDigit(if n < 0 then -n else n);
      assert Render(v)[0] != '{';
    case JObject(ms) =>
      if ms != [] {
        var r := RenderMembers(ms);
        assert r[0] == '"';
        assert Render(v)[1] == '"';
      }
    case _ =>
      assert Render(v)[0] != '{';
  }
}
