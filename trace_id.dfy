/** The X-Ray trace id built for a profiling session: the version `1`, the
    session start as Unix seconds in unpadded lowercase hexadecimal, and 24
    random hexadecimal digits, joined by hyphens. */
module TraceId {
  import opened Wrappers
  import opened Strings
  import opened Hex

  /** The number of random hexadecimal digits in a trace id. */
  const RandomNumberHexDigits := 24

  /** C#'s `(int)` of a decimal before its range check: truncation toward
      zero, the integer nearest `x` on the side of zero. */
  function TruncateToInt(x: real): (n: int)
    ensures 0.0 <= x ==> 0 <= n && n as real <= x < n as real + 1.0
    ensures x < 0.0 ==> n <= 0 && n as real - 1.0 < x <= n as real
  {
    if x >= 0.0 then x.Floor else -((-x).Floor)
  }

  /** The random part the source draws: 24 lowercase hexadecimal digits. */
  predicate IsRandomPart(random: string) {
    |random| == RandomNumberHexDigits && forall i :: 0 <= i < |random| ==> IsLowerHexDigit(random[i])
  }

  /** The trace id for a session started at `when` (Unix seconds); `random`
      stands for the digits the source draws from its random generator.
      The cast of the epoch to a 32-bit integer throws when it does not fit. */
  function NewId(when: real, random: string): Result<string, Exception> {
    var epoch := TruncateToInt(when);
    if !IsInt32(epoch) then Err(OverflowException)
    else Ok(Join(["1", Int32ToHex(epoch), random], "-"))
  }

  /** `NewId` fails exactly for start times whose truncation leaves the
      32-bit range. */
  lemma {:induction false} NewIdFailsOutsideInt32(when: real, random: string)
    ensures NewId(when, random).Err? <==> (when <= -2147483649.0 || when >= 2147483648.0)
    ensures NewId(when, random).Err? ==> NewId(when, random).error == OverflowException
  {
    var n := TruncateToInt(when);
    if when >= 2147483648.0 {
      assert n >= 2147483648;
    } else if when <= -2147483649.0 {
      assert n <= -2147483649;
    } else if when >= 0.0 {
      assert n < 2147483648;
    } else {
      assert n > -2147483649;
    }
  }

  lemma {:induction false} NoHyphenInHex(s: string)
    requires forall i :: 0 <= i < |s| ==> IsLowerHexDigit(s[i])
    ensures '-' !in s
  {
  }

  lemma {:induction false} NewIdSplit(when: real, random: string)
    requires IsRandomPart(random)
    requires NewId(when, random).Ok?
    ensures Split(NewId(when, random).value, "-") == ["1", Int32ToHex(TruncateToInt(when)), random]
  {
    var parts := ["1", Int32ToHex(TruncateToInt(when)), random];
    NoHyphenInHex(parts[1]);
    NoHyphenInHex(random);
    assert forall k :: 0 <= k < |parts| ==> '-' !in parts[k];
    SplitJoin(parts, '-');
  }

  /** A successful trace id splits on `-` into exactly three fields: the
      version `1`, the hexadecimal epoch and the random digits. The epoch
      field reads back as the truncated start time modulo 2^32, so as the
      start time's whole seconds when that is not negative; it has one to
      eight digits and no leading zero unless the epoch is zero. */
  lemma {:induction false} NewIdFields(when: real, random: string)
    requires IsRandomPart(random)
    requires NewId(when, random).Ok?
    ensures var fields := Split(NewId(when, random).value, "-");
      && |fields| == 3 && fields[0] == "1" && fields[2] == random
      && 1 <= |fields[1]| <= 8
      && (forall i :: 0 <= i < |fields[1]| ==> IsLowerHexDigit(fields[1][i]))
      && HexValue(fields[1]) == TruncateToInt(when) % 0x1_0000_0000
      && (when >= 0.0 ==> HexValue(fields[1]) == when.Floor)
      && (fields[1][0] == '0' <==> TruncateToInt(when) == 0)
  {
    var epoch := TruncateToInt(when);
    NewIdSplit(when, random);
    Int32ToHexFacts(epoch);
    var n := if epoch < 0 then epoch + 0x1_0000_0000 else epoch;
    ToHexRoundTrip(n);
    if epoch < 0 {
      assert n != 0;
    }
  }

  /** From July 1978 (epoch 2^28) until the 32-bit range ends, the epoch
      field has the eight digits the X-Ray trace-id format asks for. */
  lemma {:induction false} NewIdEightDigitsSince1978(when: real, random: string)
    requires 268435456.0 <= when < 2147483648.0
    requires IsRandomPart(random)
    ensures NewId(when, random).Ok?
    ensures var fields := Split(NewId(when, random).value, "-");
      |fields| == 3 && |fields[1]| == 8
  {
    var epoch := TruncateToInt(when);
    assert 268435456 <= epoch < 2147483648;
    NewIdSplit(when, random);
    assert Pow16(7) == 268435456;
    ToHexAtLeast(epoch, 7);
    Int32ToHexFacts(epoch);
  }

  /** A number of at least 16^k has more than k hexadecimal digits. */
  lemma {:induction false} ToHexAtLeast(n: nat, k: nat)
    requires n >= Pow16(k)
    ensures |ToHex(n)| > k
    decreases k
  {
    if k > 0 {
      assert n / 16 >= Pow16(k - 1);
      ToHexAtLeast(n / 16, k - 1);
    }
  }

  /** Before July 1978 the epoch field is shorter than eight digits: a
      start time of 1000 seconds gives the field `3e8`. */
  lemma {:induction false} NewIdShortEpoch(random: string)
    requires IsRandomPart(random)
    ensures NewId(1000.0, random) == Ok("1-3e8-" + random)
  {
    assert TruncateToInt(1000.0) == 1000;
    assert HexDigit(3) == '3' && HexDigit(14) == 'e' && HexDigit(8) == '8';
    assert ToHex(62) == ToHex(3) + [HexDigit(14)] == "3e";
    assert ToHex(1000) == ToHex(62) + [HexDigit(8)] == "3e8";
    assert Int32ToHex(1000) == "3e8";
    assert Join(["1", "3e8", random], "-") == "1" + "-" + Join(["3e8", random], "-");
    assert Join(["3e8", random], "-") == "3e8" + "-" + Join([random], "-");
    assert NewId(1000.0, random).value == Join(["1", "3e8", random], "-");
    assert "1" + "-" + ("3e8" + "-" + random) == "1-3e8-" + random;
  }
}
