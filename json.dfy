/** The part of JSON (RFC 8259) that annotation values travel in: null,
    booleans, integers and strings. `Serialize` writes a value as
    `JsonConvert.SerializeObject` does; the parsers read the texts that
    the annotation appender produces, and fail on anything they do not
    recognise. */
module Json {
  import opened Wrappers
  import Hex

  datatype Value = Null | Bool(b: bool) | Int(i: int) | Str(s: string)

  // ---------------------------------------------------------------------
  // Serialisation

  predicate IsDigit(c: char) {
    '0' <= c <= '9'
  }

  function DecimalDigit(d: nat): (c: char)
    requires d < 10
    ensures IsDigit(c)
  {
    ('0' as int + d) as char
  }

  /** Decimal digits of `n`, most significant first. */
  function NatToString(n: nat): (r: string)
    ensures |r| >= 1 && forall i :: 0 <= i < |r| ==> IsDigit(r[i])
  {
    if n < 10 then [DecimalDigit(n)] else NatToString(n / 10) + [DecimalDigit(n % 10)]
  }

  /** How a string character is written inside quotes: the quote, the
      backslash and the control characters are escaped, and so are U+0085,
      U+2028 and U+2029; hexadecimal escapes use lowercase digits. */
  function EscapeChar(c: char): string {
    if c == '"' then "\\\""
    else if c == '\\' then "\\\\"
    else if c == '\n' then "\\n"
    else if c == '\r' then "\\r"
    else if c == '\t' then "\\t"
    else if c == '\U{0008}' then "\\b"
    else if c == '\U{000C}' then "\\f"
    else if c < ' ' then UnicodeEscape(c as int)
    else if c == '\U{0085}' || c == '\U{2028}' || c == '\U{2029}' then UnicodeEscape(c as int)
    else [c]
  }

  /** `\\u` and four lowercase hexadecimal digits of `code`. */
  function UnicodeEscape(code: nat): string
    requires code < 0x10000
  {
    "\\u" + [Hex.HexDigit(code / 16 / 16 / 16), Hex.HexDigit(code / 16 / 16 % 16),
            Hex.HexDigit(code / 16 % 16), Hex.HexDigit(code % 16)]
  }

  function Escape(s: string): string {
    if s == [] then [] else EscapeChar(s[0]) + Escape(s[1..])
  }

  function Serialize(v: Value): string {
    match v
    case Null => "null"
    case Bool(b) => if b then "true" else "false"
    case Int(i) => if i < 0 then "-" + NatToString(-i) else NatToString(i)
    case Str(s) => "\"" + Escape(s) + "\""
  }

  // ---------------------------------------------------------------------
  // Parsing. Every parser returns what it read and the text after it.

  predicate IsWs(c: char) {
    c == ' ' || c == '\t' || c == '\n' || c == '\r'
  }

  function SkipWs(s: string): (r: string)
    ensures |r| <= |s|
    ensures r == [] || !IsWs(r[0])
  {
    if |s| > 0 && IsWs(s[0]) then SkipWs(s[1..]) else s
  }

  /** The text after `lit`, when `s` begins with `lit`. */
  function Expect(s: string, lit: string): (r: Option<string>)
    ensures r.Some? ==> |r.value| == |s| - |lit|
    decreases |lit|
  {
    if lit == [] then Some(s)
    else if |s| > 0 && s[0] == lit[0] then Expect(s[1..], lit[1..])
    else None
  }

  /** Number of leading decimal digits of `s`. */
  function DigitRun(s: string): (n: nat)
    ensures n <= |s|
    ensures forall i :: 0 <= i < n ==> IsDigit(s[i])
    ensures n == |s| || !IsDigit(s[n])
  {
    if |s| > 0 && IsDigit(s[0]) then 1 + DigitRun(s[1..]) else 0
  }

  function DigitsValue(ds: string): nat
    requires forall i :: 0 <= i < |ds| ==> IsDigit(ds[i])
  {
    if ds == [] then 0
    else
      assert IsDigit(ds[|ds| - 1]);
      DigitsValue(ds[..|ds| - 1]) * 10 + (ds[|ds| - 1] as int - '0' as int)
  }

  /** An integer: an optional minus sign and digits without a leading zero. */
  function ParseInt(s: string): (r: Option<(int, string)>)
    ensures r.Some? ==> |r.value.1| < |s|
  {
    var neg := |s| > 0 && s[0] == '-';
    var t := if neg then s[1..] else s;
    var n := DigitRun(t);
    if n == 0 || (t[0] == '0' && n > 1) then None
    else
      var m: int := DigitsValue(t[..n]);
      Some((if neg then -m else m, t[n..]))
  }

  /** The character an escape sequence stands for, given the text after the
      backslash, and how many characters of that text the escape takes. */
  function Unescape(s: string): (r: Option<(char, nat)>)
    ensures r.Some? ==> 1 <= r.value.1 <= |s|
  {
    if |s| == 0 then None
    else if s[0] == '"' then Some(('"', 1))
    else if s[0] == '\\' then Some(('\\', 1))
    else if s[0] == '/' then Some(('/', 1))
    else if s[0] == 'b' then Some(('\U{0008}', 1))
    else if s[0] == 'f' then Some(('\U{000C}', 1))
    else if s[0] == 'n' then Some(('\n', 1))
    else if s[0] == 'r' then Some(('\r', 1))
    else if s[0] == 't' then Some(('\t', 1))
    else if s[0] == 'u' && |s| >= 5
         && Hex.IsHexDigit(s[1]) && Hex.IsHexDigit(s[2])
         && Hex.IsHexDigit(s[3]) && Hex.IsHexDigit(s[4]) then
      var v := Hex.DigitValue(s[1]) * 4096 + Hex.DigitValue(s[2]) * 256
               + Hex.DigitValue(s[3]) * 16 + Hex.DigitValue(s[4]);
      // a lone surrogate is not a character of its own
      if 0xD800 <= v <= 0xDFFF then None else Some((v as char, 5))
    else None
  }

  /** The characters of a string literal up to its closing quote, which the
      rest begins after. */
  function ParseStringBody(s: string): (r: Option<(string, string)>)
    ensures r.Some? ==> |r.value.1| < |s|
    decreases |s|
  {
    if |s| == 0 then None
    else if s[0] == '"' then Some(([], s[1..]))
    else if s[0] == '\\' then
      var (c, k) :- Unescape(s[1..]);
      var (t, rest) :- ParseStringBody(s[1 + k..]);
      Some(([c] + t, rest))
    else
      var (t, rest) :- ParseStringBody(s[1..]);
      Some(([s[0]] + t, rest))
  }

  function ParseString(s: string): (r: Option<(string, string)>)
    ensures r.Some? ==> |r.value.1| < |s|
  {
    var a :- Expect(s, "\"");
    ParseStringBody(a)
  }

  /** A value, told apart by its first character. */
  function ParseValue(s: string): (r: Option<(Value, string)>)
    ensures r.Some? ==> |r.value.1| < |s|
  {
    if |s| == 0 then None
    else if s[0] == 'n' then
      var rest :- Expect(s, "null");
      Some((Null, rest))
    else if s[0] == 't' then
      var rest :- Expect(s, "true");
      Some((Bool(true), rest))
    else if s[0] == 'f' then
      var rest :- Expect(s, "false");
      Some((Bool(false), rest))
    else if s[0] == '"' then
      var (t, rest) :- ParseString(s);
      Some((Str(t), rest))
    else if s[0] == '-' || IsDigit(s[0]) then
      var (i, rest) :- ParseInt(s);
      Some((Int(i), rest))
    else None
  }

  /** `{ "Key" : <string>`, up to the key's closing quote. */
  function ParseKeyField(s: string): (r: Option<(string, string)>)
    ensures r.Some? ==> |r.value.1| < |s|
  {
    var a :- Expect(s, "{");
    var b :- Expect(SkipWs(a), "\"Key\"");
    var c :- Expect(SkipWs(b), ":");
    ParseString(SkipWs(c))
  }

  /** `, "Value" : <value> }`, the rest of a key/value object. */
  function ParseValueField(s: string): (r: Option<(Value, string)>)
    ensures r.Some? ==> |r.value.1| < |s|
  {
    var e :- Expect(SkipWs(s), ",");
    var f :- Expect(SkipWs(e), "\"Value\"");
    var g :- Expect(SkipWs(f), ":");
    var (v, h) :- ParseValue(SkipWs(g));
    var rest :- Expect(SkipWs(h), "}");
    Some((v, rest))
  }

  /** One `{ "Key" : <string> , "Value" : <value> }` object. */
  function ParsePair(s: string): (r: Option<((string, Value), string)>)
    ensures r.Some? ==> |r.value.1| < |s|
  {
    var (key, d) :- ParseKeyField(s);
    var (v, rest) :- ParseValueField(d);
    Some(((key, v), rest))
  }

  function ParseTail(s: string): (r: Option<(seq<(string, Value)>, string)>)
    ensures r.Some? ==> |r.value.1| < |s|
    decreases |s|
  {
    var t := SkipWs(s);
    if |t| > 0 && t[0] == ']' then Some(([], t[1..]))
    else if |t| > 0 && t[0] == ',' then
      var (p, u) :- ParsePair(SkipWs(t[1..]));
      var (ps, rest) :- ParseTail(u);
      Some(([p] + ps, rest))
    else None
  }

  /** `JsonConvert.DeserializeObject<List<KeyValuePair<string, object>>>`:
      the whole text must be one array of pairs, surrounded by nothing but
      whitespace; any other text is a failure. */
  function DecodePairs(text: string): Option<seq<(string, Value)>> {
    var a :- Expect(SkipWs(text), "[");
    var b := SkipWs(a);
    var (ps, rest) :-
      if |b| > 0 && b[0] == ']' then Some(([], b[1..]))
      else
        var (p, u) :- ParsePair(b);
        var (more, rest) :- ParseTail(u);
        Some(([p] + more, rest));
    if SkipWs(rest) == [] then Some(ps) else None
  }

  // ---------------------------------------------------------------------
  // Round trips

  lemma {:induction false} ExpectPrefix(lit: string, t: string)
    ensures Expect(lit + t, lit) == Some(t)
    decreases |lit|
  {
    if lit != [] {
      assert (lit + t)[1..] == lit[1..] + t;
      ExpectPrefix(lit[1..], t);
    } else {
      assert lit + t == t;
    }
  }

  lemma {:induction false} SkipWsPrefix(w: string, t: string)
    requires forall i :: 0 <= i < |w| ==> IsWs(w[i])
    requires t == [] || !IsWs(t[0])
    ensures SkipWs(w + t) == t
    decreases |w|
  {
    if |w| > 0 {
      assert (w + t)[1..] == w[1..] + t;
      SkipWsPrefix(w[1..], t);
    } else {
      assert w + t == t;
    }
  }

  lemma {:induction false} SkipWsNone(t: string)
    requires t == [] || !IsWs(t[0])
    ensures SkipWs(t) == t
  {
  }

  lemma {:induction false} DigitsValueOfNatToString(n: nat)
    ensures DigitsValue(NatToString(n)) == n
    ensures NatToString(n)[0] == '0' ==> n == 0
  {
    var r := NatToString(n);
    if n >= 10 {
      DigitsValueOfNatToString(n / 10);
      assert r[..|r| - 1] == NatToString(n / 10);
    }
  }

  /** The digits of `n` followed by a non-digit are read back as `n`. */
  lemma {:induction false} DigitRunOfNatToString(n: nat, rest: string)
    requires rest == [] || !IsDigit(rest[0])
    ensures DigitRun(NatToString(n) + rest) == |NatToString(n)|
  {
    var ds := NatToString(n);
    DigitRunPrefix(ds, rest);
  }

  lemma {:induction false} DigitRunPrefix(ds: string, rest: string)
    requires forall i :: 0 <= i < |ds| ==> IsDigit(ds[i])
    requires rest == [] || !IsDigit(rest[0])
    ensures DigitRun(ds + rest) == |ds|
    decreases |ds|
  {
    if |ds| > 0 {
      assert (ds + rest)[1..] == ds[1..] + rest;
      DigitRunPrefix(ds[1..], rest);
    } else {
      assert ds + rest == rest;
    }
  }

  /** Digits without a leading zero, then a non-digit: read back as their
      value, with or without a minus sign in front. */
  lemma {:induction false} ParseDigits(ds: string, rest: string, m: nat)
    requires |ds| >= 1 && forall i :: 0 <= i < |ds| ==> IsDigit(ds[i])
    requires ds[0] == '0' ==> |ds| == 1
    requires DigitsValue(ds) == m
    requires rest == [] || !IsDigit(rest[0])
    ensures ParseInt(ds + rest) == Some((m, rest))
    ensures ParseInt("-" + ds + rest) == Some((-(m as int), rest))
  {
    var t := ds + rest;
    DigitRunPrefix(ds, rest);
    assert t[..|ds|] == ds;
    assert t[|ds|..] == rest;
    assert t[0] == ds[0];
    assert ("-" + ds + rest)[1..] == t;
  }

  lemma {:induction false} ParseIntRoundTrip(i: int, rest: string)
    requires rest == [] || !IsDigit(rest[0])
    ensures ParseInt(Serialize(Int(i)) + rest) == Some((i, rest))
  {
    var m := if i < 0 then -i else i;
    var ds := NatToString(m);
    DigitsValueOfNatToString(m);
    assert ds[0] == '0' ==> |ds| == 1 by {
      if ds[0] == '0' {
        assert m == 0;
      }
    }
    ParseDigits(ds, rest, m);
  }

  lemma {:induction false} Unescape4(a: char, b: char, c: char, d: char, t: string)
    requires Hex.IsHexDigit(a) && Hex.IsHexDigit(b) && Hex.IsHexDigit(c) && Hex.IsHexDigit(d)
    ensures var v := Hex.DigitValue(a) * 4096 + Hex.DigitValue(b) * 256
                     + Hex.DigitValue(c) * 16 + Hex.DigitValue(d);
            !(0xD800 <= v <= 0xDFFF) ==> Unescape(['u', a, b, c, d] + t) == Some((v as char, 5))
  {
    var s := ['u', a, b, c, d] + t;
    assert s[0] == 'u' && s[1] == a && s[2] == b && s[3] == c && s[4] == d;
  }

  /** A `\\u` escape is read back as the code it was written for. */
  lemma {:induction false} UnicodeEscapeRoundTrip(code: nat, t: string)
    requires code < 0x10000 && !(0xD800 <= code <= 0xDFFF)
    ensures |UnicodeEscape(code)| == 6 && UnicodeEscape(code)[0] == '\\'
    ensures Unescape(UnicodeEscape(code)[1..] + t) == Some((code as char, 5))
  {
    var q1 := code / 16;
    var q2 := q1 / 16;
    var d3, d2, d1, d0 := q2 / 16, q2 % 16, q1 % 16, code % 16;
    assert code == q1 * 16 + d0 && q1 == q2 * 16 + d1 && q2 == d3 * 16 + d2;
    Hex.DigitValueOfHexDigit(d3);
    Hex.DigitValueOfHexDigit(d2);
    Hex.DigitValueOfHexDigit(d1);
    Hex.DigitValueOfHexDigit(d0);
    var a, b, c, d := Hex.HexDigit(d3), Hex.HexDigit(d2), Hex.HexDigit(d1), Hex.HexDigit(d0);
    assert UnicodeEscape(code)[1..] == ['u', a, b, c, d];
    Unescape4(a, b, c, d, t);
  }

  /** The escape of a character is read back as that character. */
  lemma {:induction false} EscapeCharRoundTrip(c: char, t: string)
    ensures |EscapeChar(c)| >= 1
    ensures EscapeChar(c)[0] == '\\' ==>
      |EscapeChar(c)| >= 2 && Unescape(EscapeChar(c)[1..] + t) == Some((c, |EscapeChar(c)| - 1))
    ensures EscapeChar(c)[0] != '\\' ==> EscapeChar(c) == [c] && c != '"' && c != '\\'
  {
    if c != '"' && c != '\\' && c != '\n' && c != '\r' && c != '\t'
       && c != '\U{0008}' && c != '\U{000C}'
       && (c < ' ' || c == '\U{0085}' || c == '\U{2028}' || c == '\U{2029}') {
      UnicodeEscapeRoundTrip(c as int, t);
    }
  }

  /** One step of `ParseStringBody`: an escape `e` that stands for `c`,
      then the rest of the body. */
  lemma {:induction false} BodyStep(e: string, tail: string, c: char, t: string, rest: string)
    requires |e| >= 1
    requires e[0] == '\\' ==> |e| >= 2 && Unescape(e[1..] + tail) == Some((c, |e| - 1))
    requires e[0] != '\\' ==> e == [c] && c != '"'
    requires ParseStringBody(tail) == Some((t, rest))
    ensures ParseStringBody(e + tail) == Some(([c] + t, rest))
  {
    var text := e + tail;
    if e[0] == '\\' {
      assert text[1..] == e[1..] + tail;
      assert text[1 + (|e| - 1)..] == tail;
    } else {
      assert text[1..] == tail;
    }
  }

  /** An escaped string followed by its closing quote is read back as the
      original string. */
  lemma {:induction false} EscapeRoundTrip(s: string, rest: string)
    ensures ParseStringBody(Escape(s) + "\"" + rest) == Some((s, rest))
    decreases |s|
  {
    if s == [] {
      var text := "\"" + rest;
      assert Escape(s) + "\"" + rest == text;
      assert text[1..] == rest;
    } else {
      var e := EscapeChar(s[0]);
      var tail := Escape(s[1..]) + "\"" + rest;
      assert Escape(s) + "\"" + rest == e + tail;
      EscapeRoundTrip(s[1..], rest);
      EscapeCharRoundTrip(s[0], tail);
      BodyStep(e, tail, s[0], s[1..], rest);
      assert [s[0]] + s[1..] == s;
    }
  }

  lemma {:induction false} LiteralValueRoundTrip(v: Value, rest: string)
    requires v.Null? || v.Bool?
    ensures ParseValue(Serialize(v) + rest) == Some((v, rest))
  {
    var lit := Serialize(v);
    ExpectPrefix(lit, rest);
    assert (lit + rest)[0] == lit[0];
  }

  lemma {:induction false} IntValueRoundTrip(i: int, rest: string)
    requires rest == [] || !IsDigit(rest[0])
    ensures ParseValue(Serialize(Int(i)) + rest) == Some((Int(i), rest))
  {
    var text := Serialize(Int(i)) + rest;
    ParseIntRoundTrip(i, rest);
    var ds := NatToString(if i < 0 then -i else i);
    assert i >= 0 ==> text[0] == ds[0];
    assert i < 0 ==> text[0] == '-';
  }

  lemma {:induction false} StrValueStep(x: string, t: string, rest: string)
    requires |x| > 0 && x[0] == '"' && ParseString(x) == Some((t, rest))
    ensures ParseValue(x) == Some((Str(t), rest))
  {
  }

  /** A quote, then a string body: the string parser reads the body. */
  lemma {:induction false} QuoteThenBody(body: string, t: string, rest: string)
    requires ParseStringBody(body) == Some((t, rest))
    ensures ParseString("\"" + body) == Some((t, rest)) && ("\"" + body)[0] == '"'
  {
    ExpectPrefix("\"", body);
  }

  lemma {:induction false} StrValueRoundTrip(s: string, rest: string)
    ensures ParseValue(Serialize(Str(s)) + rest) == Some((Str(s), rest))
  {
    var body := Escape(s) + "\"" + rest;
    assert Serialize(Str(s)) + rest == "\"" + body;
    EscapeRoundTrip(s, rest);
    QuoteThenBody(body, s, rest);
    StrValueStep("\"" + body, s, rest);
  }

  /** A serialised value is read back as that value, provided what follows
      it cannot be taken for more digits. */
  lemma {:induction false} ParseValueRoundTrip(v: Value, rest: string)
    requires rest == [] || !IsDigit(rest[0])
    ensures ParseValue(Serialize(v) + rest) == Some((v, rest))
  {
    match v
    case Null => LiteralValueRoundTrip(v, rest);
    case Bool(b) => LiteralValueRoundTrip(v, rest);
    case Int(i) => IntValueRoundTrip(i, rest);
    case Str(s) => StrValueRoundTrip(s, rest);
  }
}
