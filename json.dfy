/** Decoded JSON values as the bot sees them after the HTTP body has been parsed,
    and the parts of Python's `str`/`repr` the bot's f-strings and exception
    messages rely on. */
module Json {

  datatype Option<+T> = None | Some(value: T)

  /** A JSON value after decoding into Python objects. An object is a Python
      dict: its pairs are kept in iteration (insertion) order, and a decoded
      dict has no repeated key. Numbers with a fraction part are not modelled. */
  datatype Json =
    | JNull
    | JBool(b: bool)
    | JInt(i: int)
    | JStr(s: string)
    | JList(items: seq<Json>)
    | JObject(fields: seq<(string, Json)>)

  /** `d[key]` on a dict: the value bound to the first pair carrying `key`. */
  function Lookup(fields: seq<(string, Json)>, key: string): (r: Option<Json>)
    ensures r.None? <==> forall i :: 0 <= i < |fields| ==> fields[i].0 != key
    ensures r.Some? ==>
      exists i :: 0 <= i < |fields| && fields[i] == (key, r.value) &&
        forall j :: 0 <= j < i ==> fields[j].0 != key
  {
    if fields == [] then None
    else if fields[0].0 == key then Some(fields[0].1)
    else
      var r := Lookup(fields[1..], key);
      assert forall i :: 1 <= i < |fields| ==> fields[i] == fields[1..][i - 1];
      r
  }

  /** Python truthiness: `None`, `False`, `0`, `""`, `[]` and `{}` are false. */
  predicate Truthy(v: Json): (b: bool)
    ensures b <==> v !in {JNull, JBool(false), JInt(0), JStr(""), JList([]), JObject([])}
  {
    match v
    case JNull => false
    case JBool(b) => b
    case JInt(i) => i != 0
    case JStr(s) => s != ""
    case JList(items) => items != []
    case JObject(fields) => fields != []
  }

  predicate IsDigit(c: char) { '0' <= c <= '9' }

  function DigitChar(d: nat): (c: char)
    requires d < 10
    ensures IsDigit(c) && c as int - '0' as int == d
  {
    ('0' as int + d) as char
  }

  /** The decimal digits of `n`, most significant first, without leading zeros. */
  function NatStr(n: nat): (s: string)
    ensures |s| > 0 && forall i :: 0 <= i < |s| ==> IsDigit(s[i])
    ensures |s| > 1 ==> s[0] != '0'
  {
    if n < 10 then [DigitChar(n)] else NatStr(n / 10) + [DigitChar(n % 10)]
  }

  /** The number a string of decimal digits denotes. */
  function DigitsValue(s: string): nat
    requires forall i :: 0 <= i < |s| ==> IsDigit(s[i])
  {
    if s == [] then 0
    else
      assert IsDigit(s[|s| - 1]);
      10 * DigitsValue(s[..|s| - 1]) + (s[|s| - 1] as int - '0' as int)
  }

  /** Reading the digits back gives the number: `int(str(n)) == n`. */
  lemma {:induction false} NatStrRoundTrip(n: nat)
    ensures DigitsValue(NatStr(n)) == n
  {
    if n >= 10 {
      NatStrRoundTrip(n / 10);
      var s := NatStr(n);
      assert s[..|s| - 1] == NatStr(n / 10);
    }
  }

  /** Python's `str(i)` for an int. */
  function IntStr(i: int): (s: string)
    ensures |s| > 0
    ensures i >= 0 <==> s[0] != '-'
  {
    if i < 0 then "-" + NatStr(-i) else NatStr(i)
  }

  /** Different integers print differently, so `str(i)` identifies `i`. */
  lemma IntStrInjective(a: int, b: int)
    requires IntStr(a) == IntStr(b)
    ensures a == b
  {
    if a < 0 {
      assert IntStr(a)[1..] == NatStr(-a);
      assert IntStr(b)[1..] == NatStr(-b);
      NatStrRoundTrip(-a);
      NatStrRoundTrip(-b);
    } else {
      NatStrRoundTrip(a);
      NatStrRoundTrip(b);
    }
  }

  /** The body of a quoted Python string literal: backslashes, the chosen
      quote and the three common control characters are escaped. */
  function Escape(s: string, quote: char): string {
    if s == [] then ""
    else
      var c := s[0];
      var e := if c == '\\' then "\\\\"
               else if c == quote then ['\\', quote]
               else if c == '\n' then "\\n"
               else if c == '\r' then "\\r"
               else if c == '\t' then "\\t"
               else [c];
      e + Escape(s[1..], quote)
  }

  /** Reads the body of a quoted literal back: a backslash and the character
      after it stand for one character. */
  function Unescape(t: string): string {
    if t == [] then ""
    else if t[0] == '\\' && |t| >= 2 then
      var c := t[1];
      [if c == 'n' then '\n' else if c == 'r' then '\r' else if c == 't' then '\t' else c] + Unescape(t[2..])
    else [t[0]] + Unescape(t[1..])
  }

  /** Escaping is undone by reading the literal back, for either quote. */
  lemma {:induction false} EscapeRoundTrip(s: string, quote: char)
    requires quote == '\'' || quote == '"'
    ensures Unescape(Escape(s, quote)) == s
  {
    if s != [] {
      EscapeRoundTrip(s[1..], quote);
      var c := s[0];
      var rest := Escape(s[1..], quote);
      var t := Escape(s, quote);
      if c == '\\' || c == quote || c == '\n' || c == '\r' || c == '\t' {
        assert t[0] == '\\' && t[2..] == rest;
      } else {
        assert t == [c] + rest;
        assert t[1..] == rest;
      }
      assert s == [c] + s[1..];
    }
  }

  /** Python's `repr` of a str: single quotes, unless the text holds a single
      quote and no double quote; between the quotes, the escaped text. */
  function StrRepr(s: string): (r: string)
    ensures |r| >= 2 && (r[0] == '\'' || r[0] == '"') && r[|r| - 1] == r[0]
    ensures r[0] == '"' <==> '\'' in s && '"' !in s
    ensures r[1..|r| - 1] == Escape(s, r[0])
  {
    if '\'' in s && '"' !in s then "\"" + Escape(s, '"') + "\""
    else "'" + Escape(s, '\'') + "'"
  }

  /** No character of `s` needs an escape inside single quotes. */
  predicate Plain(s: string) {
    forall i :: 0 <= i < |s| ==> s[i] !in {'\\', '\'', '"', '\n', '\r', '\t'}
  }

  /** Text with nothing to escape is printed as itself in single quotes,
      as in `repr('homeworks') == "'homeworks'"`. */
  lemma {:induction false} PlainRepr(s: string)
    requires Plain(s)
    ensures StrRepr(s) == "'" + s + "'"
  {
    PlainEscape(s);
  }

  lemma {:induction false} PlainEscape(s: string)
    requires Plain(s)
    ensures Escape(s, '\'') == s
  {
    if s != [] {
      assert Plain(s[1..]) by {
        forall i | 0 <= i < |s[1..]| ensures s[1..][i] == s[i + 1] { }
      }
      PlainEscape(s[1..]);
      assert s == [s[0]] + s[1..];
    }
  }

  /** Different strings have different reprs. */
  lemma StrReprInjective(a: string, b: string)
    requires StrRepr(a) == StrRepr(b)
    ensures a == b
  {
    var r := StrRepr(a);
    EscapeRoundTrip(a, r[0]);
    EscapeRoundTrip(b, r[0]);
  }

  function BoolStr(b: bool): string {
    if b then "True" else "False"
  }

  /** Python's `str(v)`, which is what an f-string substitutes: a str as it
      is, anything else as its `repr`, which is never empty. */
  function Str(v: Json): (r: string)
    ensures v.JStr? ==> r == v.s
    ensures !v.JStr? ==> r == Repr(v) && r != ""
  {
    if v.JStr? then v.s else Repr(v)
  }

  /** Python's `repr(v)`; containers show their elements by `repr`. */
  function Repr(v: Json): (r: string)
    ensures |r| > 0
    ensures v.JInt? ==> r == IntStr(v.i)
    ensures v.JStr? ==> r == StrRepr(v.s)
    ensures v.JList? ==> r[0] == '[' && r[|r| - 1] == ']'
    ensures v.JObject? ==> r[0] == '{' && r[|r| - 1] == '}'
    decreases v, 1
  {
    match v
    case JNull => "None"
    case JBool(b) => BoolStr(b)
    case JInt(i) => IntStr(i)
    case JStr(s) => StrRepr(s)
    case JList(items) => "[" + ReprItems(v, items) + "]"
    case JObject(fields) => "{" + ReprFields(v, fields) + "}"
  }

  function ReprItems(ghost parent: Json, items: seq<Json>): string
    requires forall i :: 0 <= i < |items| ==> items[i] < parent
    decreases parent, 0, |items|
  {
    if items == [] then ""
    else if |items| == 1 then Repr(items[0])
    else Repr(items[0]) + ", " + ReprItems(parent, items[1..])
  }

  function ReprFields(ghost parent: Json, fields: seq<(string, Json)>): string
    requires forall i :: 0 <= i < |fields| ==> fields[i].1 < parent
    decreases parent, 0, |fields|
  {
    if fields == [] then ""
    else
      var pair := StrRepr(fields[0].0) + ": " + Repr(fields[0].1);
      if |fields| == 1 then pair
      else pair + ", " + ReprFields(parent, fields[1..])
  }
}
