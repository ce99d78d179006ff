/**
 * JSON values as the gateway handles them after `JSON.parse`, and the
 * JavaScript notions the gateway applies to them: property lookup,
 * truthiness, strict equality with `true`, `JSON.stringify`, and the string
 * coercion performed by `+=` on a string.
 */
module Js {
  import opened Text

  datatype Option<+T> = None | Some(value: T)

  /** A JSON document. Numbers are integers here; object members keep insertion order. */
  datatype Json =
    | JNull
    | JBool(b: bool)
    | JNum(n: int)
    | JStr(s: string)
    | JArr(items: seq<Json>)
    | JObj(members: seq<Member>)

  datatype Member = Member(key: string, value: Json)

  /** The exceptions that occur in the modelled code. */
  datatype Exn =
    | SyntaxError              // JSON.parse on text that is not a JSON document
    | TypeError                // an illegal stream-controller call, or a property read on null/undefined
    | Network(reason: string)  // an upstream HTTP or transport failure

  /** Member lookup in a member list; as with `JSON.parse`, the last of duplicate keys wins. */
  function Lookup(members: seq<Member>, key: string): (r: Option<Json>)
    ensures r.None? <==> forall i :: 0 <= i < |members| ==> members[i].key != key
    ensures r.Some? ==> exists i :: 0 <= i < |members| && members[i] == Member(key, r.value)
    decreases |members|
  {
    if |members| == 0 then None
    else if members[|members| - 1].key == key then Some(members[|members| - 1].value)
    else Lookup(members[..|members| - 1], key)
  }

  /**
   * `v.key` for a value that is not `null`: None stands for `undefined`, and
   * booleans, numbers, strings and arrays have none of the keys read here.
   * Reading a property of `null` throws a TypeError instead; the one place that
   * can meet `null`, the chunk decoder, models that throw itself.
   */
  function Get(v: Json, key: string): (r: Option<Json>)
    ensures r.Some? ==> v.JObj? && exists i :: 0 <= i < |v.members| && v.members[i] == Member(key, r.value)
    ensures v.JObj? && (exists i :: 0 <= i < |v.members| && v.members[i].key == key) ==> r.Some?
  {
    if v.JObj? then Lookup(v.members, key) else None
  }

  /** ECMAScript ToBoolean: undefined, null, false, 0 and "" are falsy. */
  function Truthy(o: Option<Json>): (b: bool)
    ensures IsTrue(o) ==> b
    ensures b ==> o.Some? && o.value != JNull && o.value != JBool(false) && o.value != JNum(0) && o.value != JStr("")
  {
    match o
    case None => false
    case Some(JNull) => false
    case Some(JBool(b)) => b
    case Some(JNum(n)) => n != 0
    case Some(JStr(s)) => s != ""
    case Some(_) => true
  }

  /** `x === true`. */
  predicate IsTrue(o: Option<Json>) {
    o == Some(JBool(true))
  }

  /** The acknowledgement `{ success: true }`. */
  function SuccessAck(): Json {
    JObj([Member("success", JBool(true))])
  }

  function Digit(d: nat): char
    requires d < 10
  {
    "0123456789"[d]
  }

  function NatToDecimal(n: nat): (r: string)
    ensures |r| > 0
    ensures forall i :: 0 <= i < |r| ==> '0' <= r[i] <= '9'
  {
    if n < 10 then [Digit(n)] else NatToDecimal(n / 10) + [Digit(n % 10)]
  }

  /** Number::toString for an integer. */
  function IntToDecimal(n: int): (r: string)
    ensures |r| > 0
    ensures forall i :: 0 <= i < |r| ==> r[i] == '-' || '0' <= r[i] <= '9'
  {
    if n < 0 then "-" + NatToDecimal(-n) else NatToDecimal(n)
  }

  function HexDigit(d: nat): char
    requires d < 16
  {
    "0123456789abcdef"[d]
  }

  /** The JSON.stringify escape of one character of a string. */
  function EscapeChar(c: char): (r: string)
    ensures '\n' !in r
  {
    if c == '"' then "\\\""
    else if c == '\\' then "\\\\"
    else if c == '\U{08}' then "\\b"
    else if c == '\U{0C}' then "\\f"
    else if c == '\n' then "\\n"
    else if c == '\r' then "\\r"
    else if c == '\t' then "\\t"
    else if c < ' ' then "\\u00" + [HexDigit(c as nat / 16), HexDigit(c as nat % 16)]
    else [c]
  }

  function Escape(s: string): (r: string)
    ensures '\n' !in r
    decreases |s|
  {
    if |s| == 0 then "" else EscapeChar(s[0]) + Escape(s[1..])
  }

  function Quote(s: string): (r: string)
    ensures '\n' !in r
  {
    "\"" + Escape(s) + "\""
  }

  /**
   * `JSON.stringify(v)`, without indentation. It never emits a raw line feed
   * (line feeds inside strings are escaped) and always starts with a non-blank
   * character, so one serialised value is exactly one non-blank line.
   */
  function Stringify(v: Json): (r: string)
    ensures '\n' !in r
    ensures |r| > 0 && !IsJsWhitespace(r[0])
    decreases v, 2
  {
    match v
    case JNull => "null"
    case JBool(b) => if b then "true" else "false"
    case JNum(n) => IntToDecimal(n)
    case JStr(s) => Quote(s)
    case JArr(items) => "[" + StringifyItems(items) + "]"
    case JObj(members) => "{" + StringifyMembers(members) + "}"
  }

  function StringifyItems(items: seq<Json>): (r: string)
    ensures '\n' !in r
    decreases items, 1
  {
    if |items| == 0 then ""
    else if |items| == 1 then Stringify(items[0])
    else Stringify(items[0]) + "," + StringifyItems(items[1..])
  }

  function StringifyMembers(members: seq<Member>): (r: string)
    ensures '\n' !in r
    decreases members, 1
  {
    if |members| == 0 then ""
    else
      var m := members[0];
      var first := Quote(m.key) + ":" + Stringify(m.value);
      if |members| == 1 then first else first + "," + StringifyMembers(members[1..])
  }

  /** The newline-delimited framing the relay writes for one value: `JSON.stringify(value) + '\n'`. */
  function Frame(v: Json): string {
    Stringify(v) + "\n"
  }

  /** The frames of a sequence of values, concatenated in order. */
  function Ndjson(vs: seq<Json>): string
    decreases |vs|
  {
    if |vs| == 0 then "" else Frame(vs[0]) + Ndjson(vs[1..])
  }

  function Serialised(vs: seq<Json>): (r: seq<string>)
    ensures |r| == |vs|
    ensures forall i :: 0 <= i < |vs| ==> r[i] == Stringify(vs[i])
    decreases |vs|
  {
    if |vs| == 0 then [] else [Stringify(vs[0])] + Serialised(vs[1..])
  }

  /** Newline-delimited text is the serialised values joined by line feeds, plus a final empty line. */
  lemma {:induction false} NdjsonIsJoin(vs: seq<Json>)
    ensures Ndjson(vs) == Join(Serialised(vs) + [""], '\n')
    decreases |vs|
  {
    if |vs| > 0 {
      NdjsonIsJoin(vs[1..]);
      var rest := Serialised(vs[1..]) + [""];
      assert Serialised(vs) + [""] == [Stringify(vs[0])] + rest;
      assert Join([Stringify(vs[0])] + rest, '\n') == Stringify(vs[0]) + ['\n'] + Join(rest, '\n') by {
        assert ([Stringify(vs[0])] + rest)[1..] == rest;
      }
    }
  }

  /**
   * Splitting newline-delimited text into its non-blank lines gives back exactly
   * the serialised values, one per line, in order.
   */
  lemma LinesOfNdjson(vs: seq<Json>)
    ensures Lines(Ndjson(vs)) == Serialised(vs)
  {
    var parts := Serialised(vs) + [""];
    NdjsonIsJoin(vs);
    forall i | 0 <= i < |parts| ensures '\n' !in parts[i] {
      if i < |vs| { assert parts[i] == Stringify(vs[i]); }
    }
    SplitJoin(parts, '\n');
    NonBlankAppend(Serialised(vs), [""]);
    forall i | 0 <= i < |vs| ensures !Blank(Serialised(vs)[i]) {
      assert Serialised(vs)[i] == Stringify(vs[i]);
    }
    NonBlankOfNonBlank(Serialised(vs));
    TrimEmptyIffBlank("");
    assert NonBlank([""]) == [];
  }

  /** What `s += x` appends for a value `x`: ECMAScript ToString after ToPrimitive. */
  function JsToString(o: Option<Json>): string {
    match o
    case None => "undefined"
    case Some(v) => ValueToString(v)
  }

  function ValueToString(v: Json): string
    decreases v, 1
  {
    match v
    case JNull => "null"
    case JBool(b) => if b then "true" else "false"
    case JNum(n) => IntToDecimal(n)
    case JStr(s) => s
    case JArr(items) => JoinElements(items)
    case JObj(_) => "[object Object]"
  }

  /** `Array.prototype.join(",")`: null elements become empty strings. */
  function JoinElements(items: seq<Json>): string
    decreases items, 0
  {
    if |items| == 0 then ""
    else
      var first := if items[0].JNull? then "" else ValueToString(items[0]);
      if |items| == 1 then first else first + "," + JoinElements(items[1..])
  }
}
