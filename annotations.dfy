/** `XRayMiniprofilerExtensions`: annotations travel to the exporter inside
    the command string of a custom timing in the "xrayAnnotations"
    category, as JSON objects joined by commas. The exporter wraps that
    text in brackets and decodes it as a list of key/value pairs. */
module Annotations {
  import opened Wrappers
  import opened Json
  import opened Profiling

  const Category: string := "xrayAnnotations"

  /** `StartXRayAnnotations`: a fresh custom timing with an empty command
      string (the profiler files it under `Category`). */
  method StartXRayAnnotations(nowMs: real) returns (t: CustomTiming)
    ensures fresh(t) && t.commandString == "" && t.startMs == nowMs
    ensures t.durationMs == None && t.firstFetchMs == None && !t.errored
  {
    t := new CustomTiming("", "", nowMs);
  }

  /** The fixed text around the key and the value of one annotation. */
  const KeyOpen: string := "{ \"Key\" : "
  const ValueOpen: string := " , \"Value\" : "
  const Close: string := "}"

  /** The text appended for one annotation; the key goes in unescaped. */
  function Block(key: string, value: Value): string {
    KeyOpen + "\"" + key + "\"" + ValueOpen + Serialize(value) + Close
  }

  /** The command string after one annotation is appended to `cs`. */
  function Appended(cs: string, key: string, value: Value): string {
    (if cs == "" then cs else cs + ",") + Block(key, value)
  }

  /** `AddXRayAnnotation`. */
  method AddXRayAnnotation(timing: CustomTiming, key: string, value: Value)
    modifies timing
    ensures timing.commandString == Appended(old(timing.commandString), key, value)
    ensures timing.durationMs == old(timing.durationMs) && timing.errored == old(timing.errored)
    ensures timing.firstFetchMs == old(timing.firstFetchMs)
  {
    if timing.commandString != "" {
      timing.commandString := timing.commandString + ",";
    }
    timing.commandString := timing.commandString + Block(key, value);
  }

  /** The command string of an annotation timing that started empty and had
      `pairs` appended in order. */
  function AppendAll(pairs: seq<(string, Value)>): string {
    if pairs == [] then ""
    else
      var last := pairs[|pairs| - 1];
      Appended(AppendAll(pairs[..|pairs| - 1]), last.0, last.1)
  }

  /** A key the exporter can read back: the appender does not escape it, so
      a quote or a backslash in it would end or bend the JSON string. */
  predicate PlainKey(key: string) {
    '"' !in key && '\\' !in key
  }

  /** What the exporter reads from an annotation timing's command string
      (nothing when decoding fails). */
  function DecodeAnnotations(commandString: string): seq<(string, Value)> {
    DecodePairs("[" + commandString + "]").GetOr([])
  }
}

/** What the appender writes is what the exporter decodes. */
module AnnotationRoundTrip {
  import opened Wrappers
  import opened Json
  import opened Annotations

  /** A literal followed by one blank: `Expect` strips the literal and
      `SkipWs` the blank. */
  lemma {:induction false} LiteralThenBlank(lit: string, t: string)
    requires t == [] || !IsWs(t[0])
    ensures Expect(lit + " " + t, lit) == Some(" " + t)
    ensures SkipWs(" " + t) == t
  {
    assert lit + " " + t == lit + (" " + t);
    ExpectPrefix(lit, " " + t);
    SkipWsPrefix(" ", t);
  }

  /** How the key field is read, step by step, stated over the texts
      between the steps. */
  lemma {:induction false} KeyFieldChain(s: string, a: string, b: string, c: string, d: string, x: string, key: string, t: string)
    requires Expect(s, "{") == Some(a) && SkipWs(a) == b
    requires Expect(b, "\"Key\"") == Some(c) && SkipWs(c) == d
    requires Expect(d, ":") == Some(x) && ParseString(SkipWs(x)) == Some((key, t))
    ensures ParseKeyField(s) == Some((key, t))
  {
  }

  lemma {:induction false} KeyOpenShape(x: string)
    ensures KeyOpen + x == "{" + " " + ("\"Key\"" + " " + (":" + " " + x))
  {
  }

  /** `KeyOpen`, then a JSON string: the key field reads the string. */
  lemma {:induction false} KeyFieldSteps(x: string, key: string, t: string)
    requires ParseString(x) == Some((key, t)) && |x| > 0 && x[0] == '"'
    ensures ParseKeyField(KeyOpen + x) == Some((key, t))
  {
    var p3 := ":" + " " + x;
    var p1 := "\"Key\"" + " " + p3;
    KeyOpenShape(x);
    LiteralThenBlank("{", p1);
    LiteralThenBlank("\"Key\"", p3);
    LiteralThenBlank(":", x);
    KeyFieldChain(KeyOpen + x, " " + p1, p1, " " + p3, p3, " " + x, key, t);
  }

  /** How the value field is read, step by step. */
  lemma {:induction false} ValueFieldChain(s: string, a: string, b: string, c: string, d: string, e: string, f: string, v: Value, h: string, rest: string)
    requires SkipWs(s) == a && Expect(a, ",") == Some(b) && SkipWs(b) == c
    requires Expect(c, "\"Value\"") == Some(d) && SkipWs(d) == e
    requires Expect(e, ":") == Some(f) && ParseValue(SkipWs(f)) == Some((v, h))
    requires Expect(SkipWs(h), Close) == Some(rest)
    ensures ParseValueField(s) == Some((v, rest))
  {
  }

  lemma {:induction false} ValueOpenShape(x: string)
    ensures ValueOpen + x == " " + ("," + " " + ("\"Value\"" + " " + (":" + " " + x)))
  {
  }

  /** `ValueOpen`, then a value and `Close`: the value field reads the
      value. */
  lemma {:induction false} ValueFieldSteps(x: string, v: Value, rest: string)
    requires x == [] || !IsWs(x[0])
    requires ParseValue(x) == Some((v, Close + rest))
    ensures ParseValueField(ValueOpen + x) == Some((v, rest))
  {
    var r6 := ":" + " " + x;
    var r4 := "\"Value\"" + " " + r6;
    var r2 := "," + " " + r4;
    ValueOpenShape(x);
    SkipWsPrefix(" ", r2);
    LiteralThenBlank(",", r4);
    LiteralThenBlank("\"Value\"", r6);
    LiteralThenBlank(":", x);
    SkipWsNone(Close + rest);
    ExpectPrefix(Close, rest);
    ValueFieldChain(ValueOpen + x, r2, " " + r4, r4, " " + r6, r6, " " + x, v, Close + rest, rest);
  }

  /** A quoted plain key is read back as the key. */
  lemma {:induction false} QuotedKeyRoundTrip(key: string, t: string)
    requires PlainKey(key)
    ensures ParseString("\"" + key + "\"" + t) == Some((key, t))
  {
    var body := key + "\"" + t;
    assert "\"" + key + "\"" + t == "\"" + body;
    ExpectPrefix("\"", body);
    PlainKeyRoundTrip(key, t);
  }

  lemma {:induction false} Regroup(a: string, b: string, c: string, d: string, e: string, f: string, g: string, h: string)
    ensures a + b + c + d + e + f + g + h == a + ((b + c + d + e) + (f + (g + h)))
  {
  }

  lemma {:induction false} PlainKeyRoundTrip(key: string, rest: string)
    requires PlainKey(key)
    ensures ParseStringBody(key + "\"" + rest) == Some((key, rest))
    decreases |key|
  {
    var s := key + "\"" + rest;
    if key == [] {
      assert s == "\"" + rest;
      assert s[1..] == rest;
    } else {
      assert s[0] == key[0];
      assert s[1..] == key[1..] + "\"" + rest;
      PlainKeyRoundTrip(key[1..], rest);
      assert [key[0]] + key[1..] == key;
    }
  }

  lemma {:induction false} SerializeStart(v: Value)
    ensures |Serialize(v)| > 0 && !IsWs(Serialize(v)[0])
  {
    match v
    case Null =>
    case Bool(b) =>
    case Int(i) =>
    case Str(x) =>
  }

  /** One appended block is read back as its key and value. */
  lemma {:induction false} BlockRoundTrip(key: string, value: Value, rest: string)
    requires PlainKey(key)
    ensures ParsePair(Block(key, value) + rest) == Some(((key, value), rest))
  {
    var y := Serialize(value) + (Close + rest);
    var z := ValueOpen + y;
    var q := "\"" + key + "\"" + ValueOpen;
    Regroup(KeyOpen, "\"", key, "\"", ValueOpen, Serialize(value), Close, rest);
    assert Block(key, value) + rest == KeyOpen + ("\"" + key + "\"" + z);
    QuotedKeyRoundTrip(key, z);
    KeyFieldSteps("\"" + key + "\"" + z, key, z);
    SerializeStart(value);
    ParseValueRoundTrip(value, Close + rest);
    ValueFieldSteps(y, value, rest);
  }

  /** The text after the first block: `,` and a block for each later pair. */
  function Commas(pairs: seq<(string, Value)>): string {
    if pairs == [] then "" else "," + Block(pairs[0].0, pairs[0].1) + Commas(pairs[1..])
  }

  lemma {:induction false} CommasSnoc(pairs: seq<(string, Value)>, p: (string, Value))
    ensures Commas(pairs + [p]) == Commas(pairs) + ("," + Block(p.0, p.1))
    decreases |pairs|
  {
    if pairs == [] {
      assert [p][1..] == [];
    } else {
      assert (pairs + [p])[1..] == pairs[1..] + [p];
      CommasSnoc(pairs[1..], p);
    }
  }

  lemma {:induction false} BlockNonEmpty(key: string, value: Value)
    ensures |Block(key, value)| > 0
  {
    assert |KeyOpen| > 0;
  }

  lemma {:induction false} AppendedNonEmpty(cs: string, key: string, value: Value)
    requires cs != ""
    ensures Appended(cs, key, value) == cs + ("," + Block(key, value))
  {
  }

  /** The appended text is the first block followed by `Commas` of the rest. */
  lemma {:induction false} AppendAllShape(pairs: seq<(string, Value)>)
    requires pairs != []
    ensures AppendAll(pairs) == Block(pairs[0].0, pairs[0].1) + Commas(pairs[1..])
    decreases |pairs|
  {
    var n := |pairs|;
    var last := pairs[n - 1];
    var init := pairs[..n - 1];
    if n == 1 {
      assert init == [];
      assert pairs[1..] == [];
    } else {
      assert init[0] == pairs[0];
      assert init[1..] + [last] == pairs[1..];
      var b0 := Block(pairs[0].0, pairs[0].1);
      var c := Commas(init[1..]);
      var tail := "," + Block(last.0, last.1);
      AppendAllShape(init);
      assert AppendAll(init) == b0 + c;
      BlockNonEmpty(pairs[0].0, pairs[0].1);
      AppendedNonEmpty(AppendAll(init), last.0, last.1);
      assert AppendAll(pairs) == (b0 + c) + tail;
      CommasSnoc(init[1..], last);
      assert Commas(pairs[1..]) == c + tail;
    }
  }

  /** One step of the tail: a comma, a pair, and the rest of the tail. */
  lemma {:induction false} TailStep(x: string, p: (string, Value), u: string, ps: seq<(string, Value)>, rest: string)
    requires x == [] || !IsWs(x[0])
    requires ParsePair(x) == Some((p, u)) && ParseTail(u) == Some((ps, rest))
    ensures ParseTail("," + x) == Some(([p] + ps, rest))
  {
    SkipWsNone("," + x);
    assert ("," + x)[1..] == x;
    SkipWsNone(x);
  }

  lemma {:induction false} Regroup5(a: string, b: string, c: string, d: string, e: string)
    ensures a + b + c + d + e == a + (b + (c + d + e))
  {
  }

  lemma {:induction false} CommasUnfold(pairs: seq<(string, Value)>, rest: string)
    requires pairs != []
    ensures Commas(pairs) + "]" + rest
         == "," + (Block(pairs[0].0, pairs[0].1) + (Commas(pairs[1..]) + "]" + rest))
  {
    var b := Block(pairs[0].0, pairs[0].1);
    var c := Commas(pairs[1..]);
    assert Commas(pairs) == "," + b + c;
    Regroup5(",", b, c, "]", rest);
  }

  lemma {:induction false} BlockStart(key: string, value: Value, t: string)
    ensures |Block(key, value) + t| > 0 && (Block(key, value) + t)[0] == '{'
  {
    assert (Block(key, value) + t)[0] == KeyOpen[0];
  }

  lemma {:induction false} CommasRoundTrip(pairs: seq<(string, Value)>, rest: string)
    requires forall i :: 0 <= i < |pairs| ==> PlainKey(pairs[i].0)
    ensures ParseTail(Commas(pairs) + "]" + rest) == Some((pairs, rest))
    decreases |pairs|
  {
    if pairs == [] {
      var s := "]" + rest;
      assert Commas(pairs) + "]" + rest == s;
      SkipWsNone(s);
      assert s[1..] == rest;
    } else {
      var p := pairs[0];
      var after := Commas(pairs[1..]) + "]" + rest;
      CommasUnfold(pairs, rest);
      BlockStart(p.0, p.1, after);
      BlockRoundTrip(p.0, p.1, after);
      CommasRoundTrip(pairs[1..], rest);
      TailStep(Block(p.0, p.1) + after, p, after, pairs[1..], rest);
      assert [p] + pairs[1..] == pairs;
    }
  }

  /** How a non-empty list is decoded, step by step. */
  lemma {:induction false} DecodeChain(text: string, a: string, p: (string, Value), u: string, more: seq<(string, Value)>, rest: string)
    requires SkipWs(text) == text && Expect(text, "[") == Some(a) && SkipWs(a) == a
    requires |a| > 0 && a[0] != ']'
    requires ParsePair(a) == Some((p, u)) && ParseTail(u) == Some((more, rest)) && rest == []
    ensures DecodePairs(text) == Some([p] + more)
  {
  }

  /** The bracketed text of an empty annotation list. */
  lemma {:induction false} DecodeEmpty()
    ensures DecodePairs("[" + AppendAll([]) + "]") == Some([])
  {
    assert "[" + AppendAll([]) + "]" == "[]";
    ExpectPrefix("[", "]");
    assert "]"[1..] == [];
  }

  lemma {:induction false} Bracketed(a: string, b: string, c: string)
    requires a == b + c
    ensures "[" + a + "]" == "[" + (b + (c + "]" + ""))
  {
  }

  lemma {:induction false} DecodeNonEmpty(pairs: seq<(string, Value)>)
    requires pairs != []
    requires forall i :: 0 <= i < |pairs| ==> PlainKey(pairs[i].0)
    ensures DecodePairs("[" + AppendAll(pairs) + "]") == Some(pairs)
  {
    var p := pairs[0];
    var b := Block(p.0, p.1);
    var c := Commas(pairs[1..]);
    var after := c + "]" + "";
    var body := b + after;
    AppendAllShape(pairs);
    Bracketed(AppendAll(pairs), b, c);
    SkipWsNone("[" + body);
    ExpectPrefix("[", body);
    BlockStart(p.0, p.1, after);
    SkipWsNone(body);
    BlockRoundTrip(p.0, p.1, after);
    CommasRoundTrip(pairs[1..], "");
    DecodeChain("[" + body, body, p, after, pairs[1..], "");
    assert [p] + pairs[1..] == pairs;
  }

  /** Decoding the appended annotations gives back exactly the pairs, in
      order; for an empty command string that is the empty list. */
  lemma {:induction false} AppendDecodeRoundTrip(pairs: seq<(string, Value)>)
    requires forall i :: 0 <= i < |pairs| ==> PlainKey(pairs[i].0)
    ensures DecodePairs("[" + AppendAll(pairs) + "]") == Some(pairs)
    ensures DecodeAnnotations(AppendAll(pairs)) == pairs
  {
    if pairs == [] {
      DecodeEmpty();
    } else {
      DecodeNonEmpty(pairs);
    }
  }
}
