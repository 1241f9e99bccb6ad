/** Base16 as Go's `encoding/hex` implements it (section 8 of RFC 4648):
    encoding writes lowercase digits, high nibble first; decoding accepts
    both cases, reports the first character that is not a hex digit, and
    reports an odd length only after checking that last character. */
module Hex {
  import opened Types
  import opened Wrappers

  predicate IsLowerHex(c: char) {
    '0' <= c <= '9' || 'a' <= c <= 'f'
  }

  predicate IsLowerHexString(s: string) {
    forall i | 0 <= i < |s| :: IsLowerHex(s[i])
  }

  /** The lowercase digit of a nibble. */
  function DigitOf(n: nat): (c: char)
    requires n < 16
    ensures IsLowerHex(c)
  {
    if n < 10 then ('0' as int + n) as char else ('a' as int + n - 10) as char
  }

  /** The value of a hex digit of either case (Go's reverse table). */
  function NibbleOf(c: char): (r: Option<nat>)
    ensures r.Some? <==> ('0' <= c <= '9' || 'a' <= c <= 'f' || 'A' <= c <= 'F')
    ensures r.Some? ==> r.value < 16
  {
    if '0' <= c <= '9' then Some(c as int - '0' as int)
    else if 'a' <= c <= 'f' then Some(c as int - 'a' as int + 10)
    else if 'A' <= c <= 'F' then Some(c as int - 'A' as int + 10)
    else None
  }

  /** hex.EncodeToString: two lowercase digits per byte, high nibble first. */
  function EncodeToString(b: Bytes): (s: string)
    ensures |s| == 2 * |b|
    ensures IsLowerHexString(s)
    ensures forall i | 0 <= i < |b| :: s[2 * i] == DigitOf(b[i] / 16) && s[2 * i + 1] == DigitOf(b[i] % 16)
  {
    if b == [] then ""
    else [DigitOf(b[0] / 16), DigitOf(b[0] % 16)] + EncodeToString(b[1..])
  }

  /** hex.DecodeString, with Go's order of error reports. */
  function DecodeString(s: string): (r: Result<Bytes, Error>)
    ensures r.Ok? ==> |s| == 2 * |r.value|
  {
    if |s| == 0 then Ok([])
    else if |s| == 1 then
      (if NibbleOf(s[0]).None? then Err(InvalidByte(s[0])) else Err(OddLength))
    else if NibbleOf(s[0]).None? then Err(InvalidByte(s[0]))
    else if NibbleOf(s[1]).None? then Err(InvalidByte(s[1]))
    else
      match DecodeString(s[2..])
      case Err(e) => Err(e)
      case Ok(rest) => Ok([(NibbleOf(s[0]).value * 16 + NibbleOf(s[1]).value) as byte] + rest)
  }

  /** Decoding what was encoded gives the bytes back. */
  lemma {:induction false} DecodeEncode(b: Bytes)
    ensures DecodeString(EncodeToString(b)) == Ok(b)
  {
    if b != [] {
      var s := EncodeToString(b);
      assert s[2..] == EncodeToString(b[1..]);
      DecodeEncode(b[1..]);
      assert NibbleOf(s[0]) == Some(b[0] / 16);
      assert NibbleOf(s[1]) == Some(b[0] % 16);
      assert [b[0]] + b[1..] == b;
    }
  }

  /** Decoding succeeds exactly on even-length strings of hex digits. */
  lemma {:induction false} DecodeSucceedsIff(s: string)
    ensures DecodeString(s).Ok? <==> (|s| % 2 == 0 && forall i | 0 <= i < |s| :: NibbleOf(s[i]).Some?)
  {
    if |s| >= 2 {
      DecodeSucceedsIff(s[2..]);
      assert forall i | 2 <= i < |s| :: s[i] == s[2..][i - 2];
    }
  }

  /** Encoding is injective: different byte strings never share a hex form. */
  lemma EncodeInjective(a: Bytes, b: Bytes)
    requires EncodeToString(a) == EncodeToString(b)
    ensures a == b
  {
    DecodeEncode(a);
    DecodeEncode(b);
  }

  /** 'A'..'F' become 'a'..'f'; every other character is kept. */
  function LowerOf(c: char): char {
    if 'A' <= c <= 'F' then (c as int + 32) as char else c
  }

  /** The lowercase form of a string. */
  function ToLowerHex(s: string): (r: string)
    ensures |r| == |s|
  {
    seq(|s|, i requires 0 <= i < |s| => LowerOf(s[i]))
  }

  lemma NibbleDigits(c: char, hi: nat, lo: nat)
    requires NibbleOf(c) == Some(hi) && hi < 16 && lo < 16
    ensures (hi * 16 + lo) / 16 == hi && (hi * 16 + lo) % 16 == lo
    ensures DigitOf(hi) == LowerOf(c)
  {
  }

  /** Re-encoding what was decoded gives the input in lowercase: decoding
      is case-insensitive, encoding is lowercase. */
  lemma {:induction false} EncodeDecode(s: string, b: Bytes)
    requires DecodeString(s) == Ok(b)
    ensures EncodeToString(b) == ToLowerHex(s)
  {
    if |s| >= 2 {
      var rest := b[1..];
      assert DecodeString(s[2..]) == Ok(rest);
      EncodeDecode(s[2..], rest);
      var hi, lo := NibbleOf(s[0]).value, NibbleOf(s[1]).value;
      assert b[0] == hi * 16 + lo;
      NibbleDigits(s[0], hi, lo);
      NibbleDigits(s[1], lo, 0);
      assert EncodeToString(b) == [DigitOf(hi), DigitOf(lo)] + EncodeToString(rest);
      assert ToLowerHex(s)[2..] == ToLowerHex(s[2..]);
      assert ToLowerHex(s) == [ToLowerHex(s)[0], ToLowerHex(s)[1]] + ToLowerHex(s)[2..];
    }
  }
}
