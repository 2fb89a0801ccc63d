/** `rsaPublicKeyFromJWK` of `oauth_client_auth.go`: the modulus is an unbounded integer, the exponent is
    folded into a signed 64-bit integer (section 6.3.1 of RFC 7518). */
module RsaExponent {
  import opened Wrappers
  import opened GoInts
  import opened Base64

  function BigEndian(bytes: seq<byte>): nat {
    if bytes == [] then 0 else BigEndian(bytes[..|bytes| - 1]) * 256 + bytes[|bytes| - 1]
  }

  datatype Jwk = Jwk(kty: string, n: string, e: string)

  datatype PublicKey = PublicKey(modulus: nat, exponent: int)

  lemma WrapUp(x: int)
    ensures ToInt64(x) == x - (x + TWO63) / TWO64 * TWO64
  {
  }

  /** Two integers congruent modulo 2^64 have the same low 64 bits. */
  lemma ToInt64Congruent(x: int, k: int)
    ensures ToInt64(x + k * TWO64) == ToInt64(x)
  {
  }

  /** One turn of the loop on the wrapped value is one turn on the unbounded value, wrapped. */
  lemma FoldStep(v: int, b: byte)
    ensures ToInt64(ToInt64(v) * 256 + b) == ToInt64(v * 256 + b)
  {
    WrapUp(v);
    var k := (v + TWO63) / TWO64;
    ToInt64Congruent(v * 256 + b, -k * 256);
    assert ToInt64(v) * 256 + b == v * 256 + b + -k * 256 * TWO64;
  }

  /** The exponent loop: `e<<8 | b` on 64-bit integers. Shifting clears the low eight bits, so the `or`
      with a byte is an addition. */
  method FoldExponent(bytes: seq<byte>) returns (e: int)
    ensures e == ToInt64(BigEndian(bytes))
  {
    e := 0;
    for i := 0 to |bytes|
      invariant e == ToInt64(BigEndian(bytes[..i]))
    {
      assert bytes[..i + 1][..i] == bytes[..i];
      FoldStep(BigEndian(bytes[..i]), bytes[i]);
      e := ToInt64(e * 256 + bytes[i]);
    }
    assert bytes[..|bytes|] == bytes;
  }

  function PublicKeySpec(key: Jwk): Option<PublicKey> {
    if key.kty != "RSA" || key.n == "" || key.e == "" then None
    else
      match (Decode(RAW_URL_ENCODING, key.n), Decode(RAW_URL_ENCODING, key.e))
      case (Some(nBytes), Some(eBytes)) =>
        var e := ToInt64(BigEndian(eBytes));
        if e <= 0 then None else Some(PublicKey(BigEndian(nBytes), e))
      case _ => None
  }

  method RsaPublicKeyFromJwk(key: Jwk) returns (result: Option<PublicKey>)
    ensures result == PublicKeySpec(key)
  {
    if key.kty != "RSA" || key.n == "" || key.e == "" {
      return None;
    }
    var nBytes := Decode(RAW_URL_ENCODING, key.n);
    if nBytes.None? {
      return None;
    }
    var eBytes := Decode(RAW_URL_ENCODING, key.e);
    if eBytes.None? {
      return None;
    }
    var e := FoldExponent(eBytes.value);
    if e <= 0 {
      return None;
    }
    return Some(PublicKey(BigEndian(nBytes.value), e));
  }

  lemma EncodedNotEmpty(bytes: seq<byte>)
    requires bytes != []
    ensures Encode(RAW_URL_ENCODING, bytes) != ""
  {
  }

  /** The key that carries two byte strings is read back as those bytes. */
  lemma KeyOfBytes(nBytes: seq<byte>, eBytes: seq<byte>)
    requires nBytes != [] && eBytes != []
    ensures var e := ToInt64(BigEndian(eBytes));
            PublicKeySpec(Jwk("RSA", Encode(RAW_URL_ENCODING, nBytes), Encode(RAW_URL_ENCODING, eBytes))) ==
            if e <= 0 then None else Some(PublicKey(BigEndian(nBytes), e))
  {
    EncodedNotEmpty(nBytes);
    EncodedNotEmpty(eBytes);
    var n, e := Encode(RAW_URL_ENCODING, nBytes), Encode(RAW_URL_ENCODING, eBytes);
    assert Decode(RAW_URL_ENCODING, n) == Some(nBytes) by { RoundTrip(RAW_URL_ENCODING, nBytes); }
    assert Decode(RAW_URL_ENCODING, e) == Some(eBytes) by { RoundTrip(RAW_URL_ENCODING, eBytes); }
  }

  /** The texts of the key decode to the two byte strings: any text that Go's decoder accepts for them, canonical or
      not. */
  ghost predicate Carries(key: Jwk, nBytes: seq<byte>, eBytes: seq<byte>) {
    && key.kty == "RSA" && key.n != "" && key.e != ""
    && Decode(RAW_URL_ENCODING, key.n) == Some(nBytes) && Decode(RAW_URL_ENCODING, key.e) == Some(eBytes)
  }

  lemma WrappedExactly(v: nat)
    ensures ToInt64(v) == v <==> v < TWO63
  {
  }

  /** A key is accepted with the exponent it means exactly when that exponent is positive and below 2^63, whatever
      leading zeros it carries. */
  lemma ExponentExactly(key: Jwk, nBytes: seq<byte>, eBytes: seq<byte>)
    requires Carries(key, nBytes, eBytes)
    ensures PublicKeySpec(key) == Some(PublicKey(BigEndian(nBytes), BigEndian(eBytes)))
            <==> 0 < BigEndian(eBytes) < TWO63
  {
    WrappedExactly(BigEndian(eBytes));
  }

  /** It is accepted with another exponent exactly when that exponent needs more than 63 bits and its low 64 bits read
      as a positive number; it is then taken for that number. */
  lemma MisreadExactly(key: Jwk, nBytes: seq<byte>, eBytes: seq<byte>)
    requires Carries(key, nBytes, eBytes)
    ensures var v := BigEndian(eBytes);
            && (PublicKeySpec(key).Some? && PublicKeySpec(key).value.exponent != v <==> v >= TWO63 && ToInt64(v) > 0)
            && (PublicKeySpec(key).Some? ==> PublicKeySpec(key).value == PublicKey(BigEndian(nBytes), ToInt64(v)))
  {
    WrappedExactly(BigEndian(eBytes));
  }

  /** And it is refused exactly when those low 64 bits read as zero or a negative number. */
  lemma RefusedExactly(key: Jwk, nBytes: seq<byte>, eBytes: seq<byte>)
    requires Carries(key, nBytes, eBytes)
    ensures PublicKeySpec(key).None? <==> ToInt64(BigEndian(eBytes)) <= 0
  {
  }

  /** A text that is not empty and, without its line breaks, unpadded base64url. */
  ghost predicate Readable(text: string) {
    text != "" && Shaped(RAW_URL_ENCODING, StripNewlines(text))
  }

  lemma AcceptedText(text: string)
    ensures Decode(RAW_URL_ENCODING, text).Some? <==> Shaped(RAW_URL_ENCODING, StripNewlines(text))
  {
    Base64.AcceptedExactly(RAW_URL_ENCODING, text);
  }

  /** Over all keys: one is accepted exactly when it is an RSA key whose two texts are not empty and decode, and the low
      64 bits of its exponent read as a positive number. */
  lemma AcceptedExactly(key: Jwk)
    ensures PublicKeySpec(key).Some?
            <==> exists nBytes, eBytes :: Carries(key, nBytes, eBytes) && ToInt64(BigEndian(eBytes)) > 0
    ensures key.kty != "RSA" || !Readable(key.n) || !Readable(key.e) ==> PublicKeySpec(key).None?
  {
    AcceptedText(key.n);
    AcceptedText(key.e);
    if PublicKeySpec(key).Some? {
      var nBytes, eBytes := Decode(RAW_URL_ENCODING, key.n).value, Decode(RAW_URL_ENCODING, key.e).value;
      assert Carries(key, nBytes, eBytes);
    }
  }

  function Pow256(n: nat): nat {
    if n == 0 then 1 else Pow256(n - 1) * 256
  }

  lemma {:induction false} BigEndianSplit(high: seq<byte>, low: seq<byte>)
    ensures BigEndian(high + low) == BigEndian(high) * Pow256(|low|) + BigEndian(low)
  {
    if low == [] {
      assert high + low == high;
    } else {
      var n := |low| - 1;
      BigEndianSplit(high, low[..n]);
      assert (high + low)[..|high + low| - 1] == high + low[..n];
      assert BigEndian(high) * Pow256(n) * 256 == BigEndian(high) * (Pow256(n) * 256);
    }
  }

  lemma EightBytes()
    ensures Pow256(8) == TWO64
  {
  }

  /** Bytes before the last eight never influence the exponent, however long the input is. */
  lemma OnlyLowEightBytes(high: seq<byte>, low: seq<byte>)
    requires |low| == 8
    ensures ToInt64(BigEndian(high + low)) == ToInt64(BigEndian(low))
  {
    BigEndianSplit(high, low);
    EightBytes();
    ToInt64Congruent(BigEndian(low), BigEndian(high));
  }

  lemma {:induction false} LeadingZeros(zeros: seq<byte>)
    requires forall i :: 0 <= i < |zeros| ==> zeros[i] == 0
    ensures BigEndian(zeros) == 0
  {
    if zeros != [] {
      LeadingZeros(zeros[..|zeros| - 1]);
    }
  }

  lemma SmallEightBytes(b: byte)
    ensures BigEndian([0, 0, 0, 0, 0, 0, 0, b]) == b
  {
    var zeros := [0, 0, 0, 0, 0, 0, 0];
    LeadingZeros(zeros);
    assert zeros + [b] == [0, 0, 0, 0, 0, 0, 0, b];
    assert (zeros + [b])[..7] == zeros;
  }

  lemma OverlongValue()
    ensures BigEndian([1, 0, 0, 0, 0, 0, 0, 0, 3]) == TWO64 + 3 && ToInt64(TWO64 + 3) == 3
  {
    var low := [0, 0, 0, 0, 0, 0, 0, 3];
    SmallEightBytes(3);
    BigEndianSplit([1], low);
    EightBytes();
    assert [1] + low == [1, 0, 0, 0, 0, 0, 0, 0, 3] && [1][..0] == [];
  }

  /** So the nine bytes of 2^64 + 3, in a key with any modulus, are taken for 3. */
  lemma OverlongExponentIsTruncated(nBytes: seq<byte>, eBytes: seq<byte>)
    requires nBytes != [] && eBytes == [1, 0, 0, 0, 0, 0, 0, 0, 3]
    ensures BigEndian(eBytes) == TWO64 + 3
    ensures PublicKeySpec(Jwk("RSA", Encode(RAW_URL_ENCODING, nBytes), Encode(RAW_URL_ENCODING, eBytes)))
            == Some(PublicKey(BigEndian(nBytes), 3))
  {
    OverlongValue();
    KeyOfBytes(nBytes, eBytes);
  }
}
