/** The parts of Go's `strings`, `unicode` and `fmt` packages that the service relies on. */
module GoStrings {

  /** Go's `unicode.IsSpace`. */
  predicate IsSpace(c: char) {
    || '\t' <= c <= '\r'
    || c in {' ', '\U{0085}', '\U{00A0}', '\U{1680}', '\U{2028}', '\U{2029}', '\U{202F}', '\U{205F}', '\U{3000}'}
    || '\U{2000}' <= c <= '\U{200A}'
  }

  ghost predicate SpaceFree(s: string) {
    forall c :: c in s ==> !IsSpace(c)
  }

  predicate HasPrefix(s: string, prefix: string) {
    prefix <= s
  }

  predicate HasSuffix(s: string, suffix: string) {
    |suffix| <= |s| && s[|s| - |suffix|..] == suffix
  }

  function TrimLeft(s: string): (t: string)
    ensures |t| <= |s|
    ensures t == [] || !IsSpace(t[0])
    ensures t == s[|s| - |t|..]
  {
    if s != [] && IsSpace(s[0]) then TrimLeft(s[1..]) else s
  }

  function TrimRight(s: string): (t: string)
    ensures |t| <= |s|
    ensures t == [] || !IsSpace(t[|t| - 1])
    ensures t == s[..|t|]
  {
    if s != [] && IsSpace(s[|s| - 1]) then TrimRight(s[..|s| - 1]) else s
  }

  /** Go's `strings.TrimSpace`. */
  function TrimSpace(s: string): (t: string)
    ensures t == [] || (!IsSpace(t[0]) && !IsSpace(t[|t| - 1]))
  {
    TrimRight(TrimLeft(s))
  }

  lemma TrimSpaceOfTrimmed(s: string)
    requires s == [] || (!IsSpace(s[0]) && !IsSpace(s[|s| - 1]))
    ensures TrimSpace(s) == s
  {
  }

  ghost predicate AllSpace(s: string) {
    forall c :: c in s ==> IsSpace(c)
  }

  lemma TrimLeftFirst(s: string, rest: string)
    requires s != [] && IsSpace(s[0]) && s[1..] == rest
    ensures TrimLeft(s) == TrimLeft(rest)
  {
  }

  lemma {:induction false} TrimLeftOfPadded(pad: string, s: string)
    requires AllSpace(pad) && (s == [] || !IsSpace(s[0]))
    ensures TrimLeft(pad + s) == s
  {
    if pad == [] {
      assert pad + s == s;
    } else {
      assert pad[0] in pad;
      TrimLeftFirst(pad + s, pad[1..] + s);
      TrimLeftOfPadded(pad[1..], s);
    }
  }

  lemma TrimRightLast(s: string, rest: string)
    requires s != [] && IsSpace(s[|s| - 1]) && s[..|s| - 1] == rest
    ensures TrimRight(s) == TrimRight(rest)
  {
  }

  lemma {:induction false} TrimRightOfPadded(s: string, pad: string)
    requires AllSpace(pad) && (s == [] || !IsSpace(s[|s| - 1]))
    ensures TrimRight(s + pad) == s
  {
    if pad == [] {
      assert s + pad == s;
    } else {
      var n := |pad| - 1;
      assert pad[n] in pad;
      TrimRightLast(s + pad, s + pad[..n]);
      TrimRightOfPadded(s, pad[..n]);
    }
  }

  /** Trimming removes exactly the white space around a text. */
  lemma TrimSpaceOfPadded(before: string, s: string, after: string)
    requires AllSpace(before) && AllSpace(after)
    requires s != [] && !IsSpace(s[0]) && !IsSpace(s[|s| - 1])
    ensures TrimSpace(before + s + after) == s
  {
    assert before + s + after == before + (s + after);
    TrimLeftOfPadded(before, s + after);
    TrimRightOfPadded(s, after);
  }

  lemma TrimSpaceIdempotent(s: string)
    ensures TrimSpace(TrimSpace(s)) == TrimSpace(s)
  {
  }

  /** Length of the longest prefix without white space. */
  function WordLength(s: string): (n: nat)
    ensures n <= |s|
    ensures SpaceFree(s[..n])
    ensures n < |s| ==> IsSpace(s[n])
  {
    if s == [] || IsSpace(s[0]) then 0
    else
      var n := WordLength(s[1..]);
      assert s[..n + 1] == [s[0]] + s[1..][..n];
      n + 1
  }

  /** Go's `strings.Fields`: the maximal runs of characters that are not white space. */
  function Fields(s: string): (words: seq<string>)
    ensures forall w :: w in words ==> w != [] && SpaceFree(w)
  {
    if s == [] then []
    else if IsSpace(s[0]) then Fields(s[1..])
    else
      var n := WordLength(s);
      [s[..n]] + Fields(s[n..])
  }

  lemma {:induction false} WordLengthOfPrefix(w: string, rest: string)
    requires SpaceFree(w)
    requires rest == [] || IsSpace(rest[0])
    ensures WordLength(w + rest) == |w|
  {
    if w == [] {
      assert w + rest == rest;
    } else {
      assert w[0] in w;
      WordLengthOfPrefix(w[1..], rest);
      assert (w + rest)[1..] == w[1..] + rest;
    }
  }

  lemma FieldsOfWord(w: string, rest: string)
    requires w != [] && SpaceFree(w)
    requires rest == [] || IsSpace(rest[0])
    ensures Fields(w + rest) == [w] + Fields(rest)
  {
    WordLengthOfPrefix(w, rest);
    assert w[0] in w && (w + rest)[0] == w[0];
    assert (w + rest)[..|w|] == w && (w + rest)[|w|..] == rest;
  }

  lemma {:induction false} FieldsSkipSpace(pad: string, rest: string)
    requires AllSpace(pad)
    ensures Fields(pad + rest) == Fields(rest)
  {
    if pad == [] {
      assert pad + rest == rest;
    } else {
      assert pad[0] in pad;
      FieldsSkipSpace(pad[1..], rest);
      assert (pad + rest)[1..] == pad[1..] + rest;
    }
  }

  /** Two words separated by white space are split into exactly those two words. */
  lemma FieldsOfPair(a: string, gap: string, b: string)
    requires a != [] && SpaceFree(a) && b != [] && SpaceFree(b) && gap != "" && AllSpace(gap)
    ensures Fields(a + gap + b) == [a, b]
  {
    assert gap[0] in gap;
    FieldsOfWord(a, gap + b);
    FieldsSkipSpace(gap, b);
    FieldsOfWord(b, "");
    assert b + "" == b;
    assert a + gap + b == a + (gap + b);
  }

  /** Simple case folding of one character onto ASCII, as `strings.EqualFold` sees it. */
  function Fold(c: char): char {
    if 'A' <= c <= 'Z' then c - 'A' + 'a'
    else if c == '\U{017F}' then 's'
    else if c == '\U{212A}' then 'k'
    else c
  }

  /** Go's `strings.EqualFold` against a lower-case ASCII word. */
  predicate EqualFoldAscii(s: string, lower: string) {
    |s| == |lower| && forall i :: 0 <= i < |s| ==> Fold(s[i]) == lower[i]
  }

  predicate AllDigits(s: string) {
    forall i :: 0 <= i < |s| ==> '0' <= s[i] <= '9'
  }

  /** Go's `%d` for a natural number. */
  function FormatNat(n: nat): string {
    var digit := [('0' as int + n % 10) as char];
    if n < 10 then digit else FormatNat(n / 10) + digit
  }

  lemma {:induction false} FormatNatDigits(n: nat)
    ensures FormatNat(n) != "" && AllDigits(FormatNat(n))
  {
    if n >= 10 {
      FormatNatDigits(n / 10);
    }
  }

  function DigitsValue(s: string): nat
    requires AllDigits(s)
  {
    if s == [] then 0
    else DigitsValue(s[..|s| - 1]) * 10 + (s[|s| - 1] as int - '0' as int)
  }

  lemma {:induction false} FormatNatValue(n: nat)
    ensures AllDigits(FormatNat(n)) && DigitsValue(FormatNat(n)) == n
  {
    FormatNatDigits(n);
    var s := FormatNat(n);
    if n < 10 {
      assert s[..|s| - 1] == [];
    } else {
      FormatNatValue(n / 10);
      assert s[..|s| - 1] == FormatNat(n / 10);
    }
  }

  /** Decimal formatting never gives two numbers the same text. */
  lemma FormatNatInjective(m: nat, n: nat)
    requires FormatNat(m) == FormatNat(n)
    ensures m == n
  {
    FormatNatValue(m);
    FormatNatValue(n);
  }
}
