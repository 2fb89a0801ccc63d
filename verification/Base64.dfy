/** Go's `encoding/base64`, in its four standard variants (sections 4 and 5 of RFC 4648).
    Carriage returns and line feeds are skipped, and unused trailing bits are not checked. */
module Base64 {
  import opened Wrappers

  type byte = x: int | 0 <= x < 256
  type sextet = x: int | 0 <= x < 64

  datatype Encoding = Encoding(urlSafe: bool, padded: bool)

  const STD_ENCODING := Encoding(false, true)
  const RAW_STD_ENCODING := Encoding(false, false)
  const URL_ENCODING := Encoding(true, true)
  const RAW_URL_ENCODING := Encoding(true, false)

  function Symbol(enc: Encoding, v: sextet): char {
    if v < 26 then ('A' as int + v) as char
    else if v < 52 then ('a' as int + v - 26) as char
    else if v < 62 then ('0' as int + v - 52) as char
    else if v == 62 then (if enc.urlSafe then '-' else '+')
    else (if enc.urlSafe then '_' else '/')
  }

  function SymbolValue(enc: Encoding, c: char): Option<sextet> {
    if 'A' <= c <= 'Z' then Some(c as int - 'A' as int)
    else if 'a' <= c <= 'z' then Some(c as int - 'a' as int + 26)
    else if '0' <= c <= '9' then Some(c as int - '0' as int + 52)
    else if c == (if enc.urlSafe then '-' else '+') then Some(62)
    else if c == (if enc.urlSafe then '_' else '/') then Some(63)
    else None
  }

  function EncodeBlock(enc: Encoding, a: byte, b: byte, c: byte): string {
    [Symbol(enc, a / 4), Symbol(enc, a % 4 * 16 + b / 16), Symbol(enc, b % 16 * 4 + c / 64), Symbol(enc, c % 64)]
  }

  function DecodeBlock(p: sextet, q: sextet, r: sextet, t: sextet): seq<byte> {
    [p * 4 + q / 16, q % 16 * 16 + r / 4, r % 4 * 64 + t]
  }

  /** `EncodeToString`. */
  function Encode(enc: Encoding, data: seq<byte>): string {
    if |data| == 0 then ""
    else if |data| == 1 then EncodeBlock(enc, data[0], 0, 0)[..2] + (if enc.padded then "==" else "")
    else if |data| == 2 then EncodeBlock(enc, data[0], data[1], 0)[..3] + (if enc.padded then "=" else "")
    else EncodeBlock(enc, data[0], data[1], data[2]) + Encode(enc, data[3..])
  }

  function Kept(c: char): string {
    if c == '\r' || c == '\n' then [] else [c]
  }

  function StripNewlines(s: string): string {
    if s == [] then [] else Kept(s[0]) + StripNewlines(s[1..])
  }

  /** Number of leading symbols of the alphabet, at most four: one quantum of the decoder. */
  function QuantumLength(enc: Encoding, s: string): (n: nat)
    ensures n <= 4 && n <= |s|
    ensures forall i :: 0 <= i < n ==> SymbolValue(enc, s[i]).Some?
    ensures n < 4 && n < |s| ==> SymbolValue(enc, s[n]).None?
  {
    if |s| < 1 || SymbolValue(enc, s[0]).None? then 0
    else if |s| < 2 || SymbolValue(enc, s[1]).None? then 1
    else if |s| < 3 || SymbolValue(enc, s[2]).None? then 2
    else if |s| < 4 || SymbolValue(enc, s[3]).None? then 3
    else 4
  }

  /** What must follow a last quantum of `n` symbols. */
  predicate GoodTail(enc: Encoding, n: nat, tail: string) {
    if enc.padded then (n == 2 && tail == "==") || (n == 3 && tail == "=")
    else (n == 2 || n == 3) && tail == ""
  }

  function DecodeQuanta(enc: Encoding, s: string): Option<seq<byte>> {
    if s == "" then Some([])
    else
      var n := QuantumLength(enc, s);
      if n < 4 then
        if !GoodTail(enc, n, s[n..]) then None
        else
          var r := if n == 3 then SymbolValue(enc, s[2]).value else 0;
          Some(DecodeBlock(SymbolValue(enc, s[0]).value, SymbolValue(enc, s[1]).value, r, 0)[..n - 1])
      else
        match DecodeQuanta(enc, s[4..])
        case None => None
        case Some(rest) =>
          Some(DecodeBlock(SymbolValue(enc, s[0]).value, SymbolValue(enc, s[1]).value,
                           SymbolValue(enc, s[2]).value, SymbolValue(enc, s[3]).value) + rest)
  }

  /** `DecodeString`. */
  function Decode(enc: Encoding, s: string): Option<seq<byte>> {
    DecodeQuanta(enc, StripNewlines(s))
  }

  predicate IsSymbolText(enc: Encoding, s: string) {
    forall c :: c in s ==> SymbolValue(enc, c).Some? || (enc.padded && c == '=')
  }

  lemma SymbolRoundTrip(enc: Encoding, v: sextet)
    ensures SymbolValue(enc, Symbol(enc, v)) == Some(v)
  {
  }

  lemma BlockRoundTrip(a: byte, b: byte, c: byte)
    ensures DecodeBlock(a / 4, a % 4 * 16 + b / 16, b % 16 * 4 + c / 64, c % 64) == [a, b, c]
  {
  }

  ghost function Number24(a: int, b: int, c: int): int {
    a * 0x1_0000 + b * 0x100 + c
  }

  ghost function SextetNumber(p: int, q: int, r: int, t: int): int {
    p * 0x4_0000 + q * 0x1000 + r * 0x40 + t
  }

  /** The three bytes and the four sextets of a block are one number of 24 bits. */
  lemma BlockIsNumber(p: sextet, q: sextet, r: sextet, t: sextet)
    ensures var bytes := DecodeBlock(p, q, r, t);
            |bytes| == 3 && Number24(bytes[0], bytes[1], bytes[2]) == SextetNumber(p, q, r, t)
  {
  }

  lemma BlockSymbols(enc: Encoding, a: byte, b: byte, c: byte)
    ensures IsSymbolText(enc, EncodeBlock(enc, a, b, c))
  {
  }

  lemma {:induction false} EncodedSymbols(enc: Encoding, data: seq<byte>)
    ensures IsSymbolText(enc, Encode(enc, data))
  {
    if |data| == 0 {
    } else if |data| < 3 {
      BlockSymbols(enc, data[0], if |data| == 2 then data[1] else 0, 0);
    } else {
      BlockSymbols(enc, data[0], data[1], data[2]);
      EncodedSymbols(enc, data[3..]);
    }
  }

  lemma {:induction false} StripOfSymbols(enc: Encoding, s: string)
    requires IsSymbolText(enc, s)
    ensures StripNewlines(s) == s
  {
    if s != [] {
      assert s[0] in s;
      StripOfSymbols(enc, s[1..]);
    }
  }

  /** A full quantum of symbols is read back, whatever follows it. */
  lemma FullQuantum(enc: Encoding, p: sextet, q: sextet, r: sextet, t: sextet, rest: string)
    ensures var s := [Symbol(enc, p), Symbol(enc, q), Symbol(enc, r), Symbol(enc, t)] + rest;
            DecodeQuanta(enc, s) ==
            match DecodeQuanta(enc, rest)
            case None => None
            case Some(more) => Some(DecodeBlock(p, q, r, t) + more)
  {
    SymbolRoundTrip(enc, p);
    SymbolRoundTrip(enc, q);
    SymbolRoundTrip(enc, r);
    SymbolRoundTrip(enc, t);
    var s := [Symbol(enc, p), Symbol(enc, q), Symbol(enc, r), Symbol(enc, t)] + rest;
    assert s[4..] == rest;
  }

  /** A last quantum of two or three symbols is read back. */
  lemma LastQuantum(enc: Encoding, p: sextet, q: sextet, r: sextet, n: nat)
    requires n == 2 ==> r == 0
    requires 2 <= n <= 3
    ensures var s := [Symbol(enc, p), Symbol(enc, q), Symbol(enc, r)][..n]
                     + (if !enc.padded then "" else if n == 2 then "==" else "=");
            DecodeQuanta(enc, s) == Some(DecodeBlock(p, q, r, 0)[..n - 1])
  {
    SymbolRoundTrip(enc, p);
    SymbolRoundTrip(enc, q);
    SymbolRoundTrip(enc, r);
    var tail := if !enc.padded then "" else if n == 2 then "==" else "=";
    var s := [Symbol(enc, p), Symbol(enc, q), Symbol(enc, r)][..n] + tail;
    assert s[n..] == tail;
    assert QuantumLength(enc, s) == n;
  }

  /** The sextets of a block. */
  lemma BlockSextets(enc: Encoding, a: byte, b: byte, c: byte) returns (p: sextet, q: sextet, r: sextet, t: sextet)
    ensures EncodeBlock(enc, a, b, c) == [Symbol(enc, p), Symbol(enc, q), Symbol(enc, r), Symbol(enc, t)]
    ensures DecodeBlock(p, q, r, t) == [a, b, c]
    ensures (c == 0 ==> t == 0) && (b == 0 && c == 0 ==> r == 0)
  {
    BlockRoundTrip(a, b, c);
    p, q, r, t := a / 4, a % 4 * 16 + b / 16, b % 16 * 4 + c / 64, c % 64;
  }

  lemma ShortRoundTrip(enc: Encoding, data: seq<byte>)
    requires 1 <= |data| <= 2
    ensures DecodeQuanta(enc, Encode(enc, data)) == Some(data)
  {
    var a, b := data[0], if |data| == 2 then data[1] else 0;
    var p, q, r, t := BlockSextets(enc, a, b, 0);
    LastQuantum(enc, p, q, r, |data| + 1);
    assert data == [a, b, 0][..|data|];
    assert EncodeBlock(enc, a, b, 0)[..|data| + 1] == [Symbol(enc, p), Symbol(enc, q), Symbol(enc, r)][..|data| + 1];
  }

  lemma {:induction false} QuantaRoundTrip(enc: Encoding, data: seq<byte>)
    ensures DecodeQuanta(enc, Encode(enc, data)) == Some(data)
  {
    if |data| == 0 {
    } else if |data| < 3 {
      ShortRoundTrip(enc, data);
    } else {
      var p, q, r, t := BlockSextets(enc, data[0], data[1], data[2]);
      QuantaRoundTrip(enc, data[3..]);
      FullQuantum(enc, p, q, r, t, Encode(enc, data[3..]));
      assert [data[0], data[1], data[2]] + data[3..] == data;
    }
  }

  /** Decoding inverts encoding, in each variant. */
  lemma RoundTrip(enc: Encoding, data: seq<byte>)
    ensures Decode(enc, Encode(enc, data)) == Some(data)
  {
    EncodedSymbols(enc, data);
    StripOfSymbols(enc, Encode(enc, data));
    QuantaRoundTrip(enc, data);
  }

  lemma EncodeInjective(enc: Encoding, x: seq<byte>, y: seq<byte>)
    requires Encode(enc, x) == Encode(enc, y)
    ensures x == y
  {
    RoundTrip(enc, x);
    RoundTrip(enc, y);
  }

  /** Two variants that accept a text see the same quanta in it. */
  lemma SameQuanta(e: Encoding, f: Encoding, s: string)
    requires s != "" && DecodeQuanta(e, s).Some? && DecodeQuanta(f, s).Some?
    ensures QuantumLength(e, s) == QuantumLength(f, s)
  {
    var m, n := QuantumLength(e, s), QuantumLength(f, s);
    assert m < 4 ==> GoodTail(e, m, s[m..]);
    assert n < 4 ==> GoodTail(f, n, s[n..]);
    assert m < 4 && e.padded ==> s[m] == '=';
    assert n < 4 && f.padded ==> s[n] == '=';
  }

  lemma SymbolsAgree(e: Encoding, f: Encoding, c: char)
    requires SymbolValue(e, c).Some? && SymbolValue(f, c).Some?
    ensures SymbolValue(e, c) == SymbolValue(f, c)
  {
  }

  lemma {:induction false} QuantaAgree(e: Encoding, f: Encoding, s: string)
    requires DecodeQuanta(e, s).Some? && DecodeQuanta(f, s).Some?
    ensures DecodeQuanta(e, s) == DecodeQuanta(f, s)
  {
    if s != "" {
      SameQuanta(e, f, s);
      var n := QuantumLength(e, s);
      forall i | 0 <= i < n ensures SymbolValue(e, s[i]) == SymbolValue(f, s[i]) {
        SymbolsAgree(e, f, s[i]);
      }
      if n == 4 {
        QuantaAgree(e, f, s[4..]);
      }
    }
  }

  /** Two variants that both accept a text decode it to the same bytes. */
  lemma VariantsAgree(e: Encoding, f: Encoding, s: string)
    requires Decode(e, s).Some? && Decode(f, s).Some?
    ensures Decode(e, s) == Decode(f, s)
  {
    QuantaAgree(e, f, StripNewlines(s));
  }

  // --- the alphabet, and which texts are accepted ----------------------------------------------------------

  /** The symbols are those of tables 1 and 2 of RFC 4648, in their order. */
  lemma SymbolsOfAlphabet(enc: Encoding, upper: string, lower: string, digits: string, v: sextet)
    requires upper == "ABCDEFGHIJKLMNOPQRSTUVWXYZ" && lower == "abcdefghijklmnopqrstuvwxyz" && digits == "0123456789"
    ensures Symbol(enc, v) == (upper + lower + digits + (if enc.urlSafe then "-_" else "+/"))[v]
  {
  }

  lemma KeptFirst(kept: string, a: string, b: string, rest: string, all: string)
    requires rest == a + b && all == kept + rest
    ensures all == (kept + a) + b
  {
  }

  lemma {:induction false} StripOfJoined(a: string, b: string)
    ensures StripNewlines(a + b) == StripNewlines(a) + StripNewlines(b)
  {
    if a == [] {
      assert a + b == b;
    } else {
      var rest := a[1..];
      StripOfJoined(rest, b);
      assert (a + b)[0] == a[0] && (a + b)[1..] == rest + b;
      KeptFirst(Kept(a[0]), StripNewlines(rest), StripNewlines(b), StripNewlines(rest + b), StripNewlines(a + b));
    }
  }

  /** A text that is broken into lines decodes as if it were not. */
  lemma LineBreakIgnored(enc: Encoding, before: string, br: string, after: string)
    requires br == "\r" || br == "\n" || br == "\r\n"
    ensures Decode(enc, before + br + after) == Decode(enc, before + after)
  {
    StripOfJoined(before + br, after);
    StripOfJoined(before, br);
    StripOfJoined(before, after);
    assert br[1..] == "" || br[1..] == "\n";
    assert StripNewlines(br[1..]) == "";
    assert StripNewlines(br) == "";
    assert StripNewlines(before) + "" == StripNewlines(before);
  }

  function PaddingOf(enc: Encoding, k: nat): string {
    if !enc.padded then "" else if k % 4 == 2 then "==" else if k % 4 == 3 then "=" else ""
  }

  /** The text is `k` symbols, not one more than a multiple of four, and the padding that the variant asks for. */
  ghost predicate Shape(enc: Encoding, s: string, k: nat) {
    && k <= |s| && k % 4 != 1 && s[k..] == PaddingOf(enc, k)
    && forall i :: 0 <= i < k ==> SymbolValue(enc, s[i]).Some?
  }

  lemma ShapeShort(enc: Encoding, s: string, k: nat)
    requires Shape(enc, s, k) && s != "" && k < 4
    ensures QuantumLength(enc, s) == k && GoodTail(enc, k, s[k..])
  {
    assert k < |s| ==> s[k] == PaddingOf(enc, k)[0];
  }

  lemma ShapeLater(enc: Encoding, s: string, k: nat)
    requires 4 <= |s| && forall i :: 0 <= i < 4 ==> SymbolValue(enc, s[i]).Some?
    ensures Shape(enc, s[4..], k) <==> Shape(enc, s, k + 4)
  {
    assert k + 4 <= |s| ==> s[4..][k..] == s[k + 4..];
    assert forall i :: 4 <= i < |s| ==> s[i] == s[4..][i - 4];
    if Shape(enc, s[4..], k) {
      forall i | 0 <= i < k + 4 ensures SymbolValue(enc, s[i]).Some? {
        assert i >= 4 ==> s[i] == s[4..][i - 4];
      }
    }
  }

  lemma {:induction false} ShapeDecodes(enc: Encoding, s: string, k: nat)
    requires Shape(enc, s, k)
    ensures DecodeQuanta(enc, s).Some?
    decreases |s|
  {
    if s != "" && k < 4 {
      ShapeShort(enc, s, k);
    } else if s != "" {
      ShapeLater(enc, s, k - 4);
      ShapeDecodes(enc, s[4..], k - 4);
    }
  }

  lemma {:induction false} DecodedShape(enc: Encoding, s: string) returns (k: nat)
    requires DecodeQuanta(enc, s).Some?
    ensures Shape(enc, s, k)
    decreases |s|
  {
    k := QuantumLength(enc, s);
    if k == 4 {
      k := DecodedShape(enc, s[4..]);
      ShapeLater(enc, s, k);
      k := k + 4;
    }
  }

  ghost predicate Shaped(enc: Encoding, s: string) {
    exists k :: Shape(enc, s, k)
  }

  /** Exactly the texts of that shape, once line breaks are taken out, are accepted. */
  lemma AcceptedExactly(enc: Encoding, s: string)
    ensures Decode(enc, s).Some? <==> Shaped(enc, StripNewlines(s))
  {
    var t := StripNewlines(s);
    if Decode(enc, s).Some? {
      var k := DecodedShape(enc, t);
    }
    if k :| Shape(enc, t, k) {
      ShapeDecodes(enc, t, k);
    }
  }
}
