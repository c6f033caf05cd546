/** The embedding step: the external embedding service, and the
    deterministic fallback used whenever that call raises, which turns the
    SHA-256 hex digest of the text into one value per two hex digits. The
    fallback values are `int(pair, 16) / 255`; the model keeps the integer
    numerators 0..255. */
module Embedding {
  import opened Wrappers

  predicate IsHexDigit(c: char) {
    '0' <= c <= '9' || 'a' <= c <= 'f' || 'A' <= c <= 'F'
  }

  predicate IsLowerHexDigit(c: char) {
    '0' <= c <= '9' || 'a' <= c <= 'f'
  }

  predicate IsHexString(s: string) {
    forall i | 0 <= i < |s| :: IsHexDigit(s[i])
  }

  /** What `hashlib.sha256(...).hexdigest()` returns: 64 lower-case hex digits. */
  predicate IsSha256Hex(h: string) {
    |h| == 64 && forall i | 0 <= i < |h| :: IsLowerHexDigit(h[i])
  }

  type HexDigest = h: string | IsSha256Hex(h)
    witness seq(64, i => '0')

  /** Digits of the digest looked at: `range(0, min(len(h), 768), 2)`. */
  const DigestLimit: nat := 768

  /** Dimension of the fallback vector for a SHA-256 digest. */
  const FallbackDimension: nat := 32

  /** `int(c, 16)` for one hex digit. */
  function HexValue(c: char): (v: nat)
    requires IsHexDigit(c)
    ensures v < 16
  {
    if '0' <= c <= '9' then c as int - '0' as int
    else if 'a' <= c <= 'f' then c as int - 'a' as int + 10
    else c as int - 'A' as int + 10
  }

  /** `int(h[i:i+2], 16)` for `i` in `0, 2, 4, ...`; a trailing odd digit
      stands alone, as the slice `h[i:i+2]` is then one character long. */
  function PairValues(h: string): (vs: seq<nat>)
    requires IsHexString(h)
    ensures |vs| == (|h| + 1) / 2
    ensures forall k | 0 <= k < |vs| :: vs[k] <= 255
  {
    if |h| == 0 then []
    else if |h| == 1 then [HexValue(h[0])]
    else [16 * HexValue(h[0]) + HexValue(h[1])] + PairValues(h[2..])
  }

  /** Numerators of the fallback embedding of a digest. */
  function FallbackNumerators(h: string): (vs: seq<nat>)
    requires IsHexString(h)
  {
    var n := if |h| < DigestLimit then |h| else DigestLimit;
    PairValues(h[..n])
  }

  /** The k-th value is made of the digits at 2k and 2k+1, in digest order. */
  lemma {:induction false} PairValuesAt(h: string, k: nat)
    requires IsHexString(h) && |h| % 2 == 0 && k < |h| / 2
    ensures PairValues(h)[k] == 16 * HexValue(h[2 * k]) + HexValue(h[2 * k + 1])
  {
    if k > 0 {
      PairValuesAt(h[2..], k - 1);
    }
  }

  /** For a SHA-256 digest the fallback has exactly 32 entries, each in
      0..255 and made of the digest's digits in order. */
  lemma FallbackOfDigest(h: HexDigest)
    ensures |FallbackNumerators(h)| == FallbackDimension
    ensures forall k | 0 <= k < FallbackDimension ::
      FallbackNumerators(h)[k] <= 255 &&
      FallbackNumerators(h)[k] == 16 * HexValue(h[2 * k]) + HexValue(h[2 * k + 1])
  {
    assert h[..64] == h;
    forall k | 0 <= k < FallbackDimension
      ensures FallbackNumerators(h)[k] == 16 * HexValue(h[2 * k]) + HexValue(h[2 * k + 1])
    {
      PairValuesAt(h, k);
    }
  }

  function LowerHexDigit(d: nat): char
    requires d < 16
  {
    if d < 10 then ('0' as int + d) as char else ('a' as int + d - 10) as char
  }

  /** Lower-case two-digit hex text of each value. */
  function ToHex(vs: seq<nat>): string
    requires forall k | 0 <= k < |vs| :: vs[k] <= 255
  {
    if vs == [] then ""
    else [LowerHexDigit(vs[0] / 16), LowerHexDigit(vs[0] % 16)] + ToHex(vs[1..])
  }

  lemma LowerHexDigitOfValue(c: char)
    requires IsLowerHexDigit(c)
    ensures LowerHexDigit(HexValue(c)) == c
  {
  }

  lemma {:induction false} ToHexOfPairs(h: string)
    requires |h| % 2 == 0 && IsHexString(h)
    requires forall i | 0 <= i < |h| :: IsLowerHexDigit(h[i])
    ensures ToHex(PairValues(h)) == h
    decreases |h|
  {
    if |h| > 0 {
      var v := 16 * HexValue(h[0]) + HexValue(h[1]);
      assert v / 16 == HexValue(h[0]) && v % 16 == HexValue(h[1]);
      LowerHexDigitOfValue(h[0]);
      LowerHexDigitOfValue(h[1]);
      ToHexOfPairs(h[2..]);
      assert PairValues(h) == [v] + PairValues(h[2..]);
      assert h == [h[0], h[1]] + h[2..];
    }
  }

  /** The fallback loses nothing of the digest: printing its numerators as
      two-digit hex gives the digest back. */
  lemma FallbackRoundTrip(h: HexDigest)
    ensures ToHex(FallbackNumerators(h)) == h
  {
    assert h[..64] == h;
    ToHexOfPairs(h);
  }

  /** An embedding: the service's floats, or the fallback's numerators
      (each value being numerator / 255). */
  datatype Vector = ServiceVector(values: seq<real>) | FallbackVector(numerators: seq<nat>)

  /** `get_embedding(text)`: the service's answer when the call succeeds
      (`service` yields None when it raises), otherwise the fallback built
      from the SHA-256 digest of the text. */
  function GetEmbedding(text: string, service: string -> Option<seq<real>>,
                        sha256: string -> HexDigest): (v: Vector)
    ensures service(text).Some? ==> v == ServiceVector(service(text).value)
    ensures service(text).None? ==> v == FallbackVector(FallbackNumerators(sha256(text)))
    ensures v.FallbackVector? ==>
      |v.numerators| == FallbackDimension &&
      forall k | 0 <= k < FallbackDimension :: v.numerators[k] <= 255
  {
    match service(text)
    case Some(values) => ServiceVector(values)
    case None =>
      var h := sha256(text);
      FallbackOfDigest(h);
      FallbackVector(FallbackNumerators(h))
  }
}
