/** common/utils/converter.go: hex conversion of the fixed-width protocol
    arrays. The three string-to-array functions return the zero array
    together with an error when decoding fails or the decoded length is
    not the array's width. */
module Converter {
  import opened Types
  import opened Wrappers
  import opened Hex

  /** HashToString: the 64-character lowercase hex form of a hash. */
  function HashToString(h: Hash): (s: string)
    ensures |s| == 2 * HashLen && IsLowerHexString(s)
    ensures forall i | 0 <= i < HashLen :: s[2 * i] == DigitOf(h[i] / 16) && s[2 * i + 1] == DigitOf(h[i] % 16)
  {
    EncodeToString(h)
  }

  function AddressToString(a: Address): (s: string)
    ensures |s| == 2 * AddressLen && IsLowerHexString(s)
  {
    EncodeToString(a)
  }

  function SignatureToString(sig: Signature): (s: string)
    ensures |s| == 2 * SignatureLen && IsLowerHexString(s)
  {
    EncodeToString(sig)
  }

  /** The shared shape of StringToHash, StringToAddress and
      StringToSignature: decode, then check the decoded length. */
  function DecodeFixed(str: string, width: nat): (r: Result<Bytes, Error>)
    ensures r.Ok? <==> (DecodeString(str).Ok? && |DecodeString(str).value| == width)
    ensures r.Ok? ==> r.value == DecodeString(str).value && |r.value| == width
    ensures DecodeString(str).Ok? && |DecodeString(str).value| != width ==>
              r == Err(WrongLength(|DecodeString(str).value|, width))
  {
    match DecodeString(str)
    case Err(e) => Err(e)
    case Ok(b) => if |b| != width then Err(WrongLength(|b|, width)) else Ok(b)
  }

  /** StringToHash: the decoded hash, or the zero hash and an error. */
  function StringToHash(str: string): (r: (Hash, Option<Error>))
    ensures r.1.None? <==> DecodeFixed(str, HashLen).Ok?
    ensures r.1.None? ==> DecodeString(str) == Ok(r.0)
    ensures r.1.Some? ==> r.0 == ZeroHash() && Err(r.1.value) == DecodeFixed(str, HashLen)
  {
    match DecodeFixed(str, HashLen)
    case Err(e) => (ZeroHash(), Some(e))
    case Ok(b) => (b, None)
  }

  function StringToAddress(str: string): (r: (Address, Option<Error>))
    ensures r.1.None? <==> DecodeFixed(str, AddressLen).Ok?
    ensures r.1.None? ==> DecodeString(str) == Ok(r.0)
    ensures r.1.Some? ==> r.0 == seq(AddressLen, i => 0) && Err(r.1.value) == DecodeFixed(str, AddressLen)
  {
    match DecodeFixed(str, AddressLen)
    case Err(e) => (seq(AddressLen, i => 0), Some(e))
    case Ok(b) => (b, None)
  }

  function StringToSignature(str: string): (r: (Signature, Option<Error>))
    ensures r.1.None? <==> DecodeFixed(str, SignatureLen).Ok?
    ensures r.1.None? ==> DecodeString(str) == Ok(r.0)
    ensures r.1.Some? ==> r.0 == seq(SignatureLen, i => 0) && Err(r.1.value) == DecodeFixed(str, SignatureLen)
  {
    match DecodeFixed(str, SignatureLen)
    case Err(e) => (seq(SignatureLen, i => 0), Some(e))
    case Ok(b) => (b, None)
  }

  /** HashToBytes: a 32-byte copy of the hash (in this value model every
      sequence is a fresh copy). */
  function HashToBytes(h: Hash): (b: Bytes)
    ensures |b| == HashLen && forall i | 0 <= i < HashLen :: b[i] == h[i]
  {
    h[..]
  }

  /** BytesToHash: Go's slice-to-array conversion, which reads the first 32
      bytes and panics on a shorter slice. */
  function BytesToHash(b: Bytes): (h: Hash)
    requires |b| >= HashLen
    ensures forall i | 0 <= i < HashLen :: h[i] == b[i]
  {
    b[..HashLen]
  }

  /** The hex form of a hash decodes back to it. */
  lemma HashRoundTrip(h: Hash)
    ensures StringToHash(HashToString(h)) == (h, None)
  {
    DecodeEncode(h);
  }

  lemma AddressRoundTrip(a: Address)
    ensures StringToAddress(AddressToString(a)) == (a, None)
  {
    DecodeEncode(a);
  }

  lemma SignatureRoundTrip(sig: Signature)
    ensures StringToSignature(SignatureToString(sig)) == (sig, None)
  {
    DecodeEncode(sig);
  }

  /** A string that is not hex of even length is rejected with the zero
      array, whatever the target width. */
  lemma RejectsNonHex(str: string)
    requires |str| % 2 == 1 || exists i | 0 <= i < |str| :: NibbleOf(str[i]).None?
    ensures StringToHash(str).1.Some? && StringToHash(str).0 == ZeroHash()
    ensures StringToAddress(str).1.Some? && StringToSignature(str).1.Some?
  {
    DecodeSucceedsIff(str);
  }

  /** Exactly the even-length hex strings of 2 * width characters are accepted. */
  lemma AcceptsIff(str: string)
    ensures StringToHash(str).1.None? <==> (|str| == 2 * HashLen && forall i | 0 <= i < |str| :: NibbleOf(str[i]).Some?)
    ensures StringToAddress(str).1.None? <==> (|str| == 2 * AddressLen && forall i | 0 <= i < |str| :: NibbleOf(str[i]).Some?)
    ensures StringToSignature(str).1.None? <==> (|str| == 2 * SignatureLen && forall i | 0 <= i < |str| :: NibbleOf(str[i]).Some?)
  {
    DecodeSucceedsIff(str);
  }

  /** A string decoding to the wrong number of bytes is rejected with the
      WrongLength error. */
  lemma RejectsWrongWidth(str: string)
    requires DecodeString(str).Ok?
    ensures |DecodeString(str).value| != HashLen ==> StringToHash(str) == (ZeroHash(), Some(WrongLength(|DecodeString(str).value|, HashLen)))
    ensures |DecodeString(str).value| != AddressLen ==> StringToAddress(str).1 == Some(WrongLength(|DecodeString(str).value|, AddressLen))
    ensures |DecodeString(str).value| != SignatureLen ==> StringToSignature(str).1 == Some(WrongLength(|DecodeString(str).value|, SignatureLen))
  {
  }

  /** The hex form of a hash is injective. */
  lemma HashToStringInjective(a: Hash, b: Hash)
    requires HashToString(a) == HashToString(b)
    ensures a == b
  {
    EncodeInjective(a, b);
  }

  lemma BytesRoundTrip(h: Hash)
    ensures BytesToHash(HashToBytes(h)) == h
  {
  }
}
