/**
 * `signData` and `verifySignature` (index.js lines 15-21): the signature a
 * sender attaches is "sha1=" followed by the lower-case hex digest of
 * HMAC-SHA1 over the raw body; a claimed signature is accepted when its
 * bytes equal the expected signature's bytes.
 */
module Verifier {
  import opened Js

  const SignaturePrefix := "sha1="

  predicate IsHexDigit(c: char) {
    '0' <= c <= '9' || 'a' <= c <= 'f'
  }

  /** The lower-case hex digit of a nibble. */
  function HexDigit(n: int): (c: char)
    requires 0 <= n < 16
    ensures IsHexDigit(c)
  {
    if n < 10 then (48 + n) as char else (87 + n) as char
  }

  /** The nibble a hex digit stands for; inverse of HexDigit. */
  function HexValue(c: char): (n: int)
    requires IsHexDigit(c)
    ensures 0 <= n < 16 && HexDigit(n) == c
  {
    if c <= '9' then c as int - 48 else c as int - 87
  }

  /** `digest('hex')`: two lower-case hex digits per byte, high nibble first. */
  function Hex(d: Bytes): (r: string)
    ensures |r| == 2 * |d|
    ensures forall i :: 0 <= i < |r| ==> IsHexDigit(r[i])
  {
    if d == [] then [] else [HexDigit(d[0] / 16), HexDigit(d[0] % 16)] + Hex(d[1..])
  }

  predicate IsHex(s: string) {
    |s| % 2 == 0 && forall i :: 0 <= i < |s| ==> IsHexDigit(s[i])
  }

  /** Reads hex text back into bytes. */
  function UnHex(s: string): (d: Bytes)
    requires IsHex(s)
    ensures |d| == |s| / 2
  {
    if s == [] then [] else [16 * HexValue(s[0]) + HexValue(s[1])] + UnHex(s[2..])
  }

  lemma {:induction false} UnHexHex(d: Bytes)
    ensures IsHex(Hex(d)) && UnHex(Hex(d)) == d
  {
    if d != [] {
      var h := Hex(d);
      assert h[2..] == Hex(d[1..]);
      UnHexHex(d[1..]);
      assert HexValue(h[0]) == d[0] / 16 && HexValue(h[1]) == d[0] % 16;
    }
  }

  /** Different digests never have the same hex text. */
  lemma HexInjective(a: Bytes, b: Bytes)
    ensures Hex(a) == Hex(b) <==> a == b
  {
    if Hex(a) == Hex(b) {
      UnHexHex(a);
      UnHexHex(b);
    }
  }

  /** `signData(secret, data)`. */
  function SignData(rt: Runtime, secret: Value, data: Bytes): (r: string)
    ensures |r| == 45 && r[..5] == SignaturePrefix
    ensures forall i :: 5 <= i < 45 ==> IsHexDigit(r[i])
    ensures r[5..] == Hex(rt.hmacSha1(secret, data))
  {
    SignaturePrefix + Hex(rt.hmacSha1(secret, data))
  }

  /**
   * `bufferEq` of buffer-equal-constant-time: false on a length mismatch,
   * otherwise a comparison of every position. Its timing is not modelled.
   */
  function BufferEq(a: Bytes, b: Bytes): (r: bool)
    ensures r <==> a == b
    ensures |a| != |b| ==> !r
  {
    |a| == |b| && forall i :: 0 <= i < |a| ==> a[i] == b[i]
  }

  /** `verifySignature(secret, data, signature)`. */
  function VerifySignature(rt: Runtime, secret: Value, data: Bytes, signature: string): (r: bool)
    ensures r <==> rt.encodeUtf8(signature) == rt.encodeUtf8(SignData(rt, secret, data))
  {
    BufferEq(rt.encodeUtf8(signature), rt.encodeUtf8(SignData(rt, secret, data)))
  }

  /** A signature made by SignData is accepted for the same secret and data. */
  lemma SignatureRoundTrip(rt: Runtime, secret: Value, data: Bytes)
    ensures VerifySignature(rt, secret, data, SignData(rt, secret, data))
  {
  }

  /** Encoded buffers of different lengths are always rejected. */
  lemma LengthMismatchRejected(rt: Runtime, secret: Value, data: Bytes, signature: string)
    requires |rt.encodeUtf8(signature)| != |rt.encodeUtf8(SignData(rt, secret, data))|
    ensures !VerifySignature(rt, secret, data, signature)
  {
  }

  /** Under an injective encoding, acceptance is exactly string equality with the expected signature. */
  lemma VerifyIffExpected(rt: Runtime, secret: Value, data: Bytes, signature: string)
    requires Injective(rt.encodeUtf8)
    ensures VerifySignature(rt, secret, data, signature)
        <==> signature == SignaturePrefix + Hex(rt.hmacSha1(secret, data))
  {
  }

  /**
   * A signature computed over one body verifies another body exactly when
   * the two HMAC digests coincide: forging needs an HMAC collision.
   */
  lemma OtherBodyNeedsCollision(rt: Runtime, secret: Value, signed: Bytes, data: Bytes)
    requires Injective(rt.encodeUtf8)
    ensures VerifySignature(rt, secret, data, SignData(rt, secret, signed))
        <==> rt.hmacSha1(secret, data) == rt.hmacSha1(secret, signed)
  {
    var a, b := rt.hmacSha1(secret, data), rt.hmacSha1(secret, signed);
    HexInjective(a, b);
    if SignData(rt, secret, signed) == SignData(rt, secret, data) {
      assert Hex(a) == SignData(rt, secret, data)[5..];
    }
  }
}
