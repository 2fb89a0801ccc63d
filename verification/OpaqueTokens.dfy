/** `randomOpaque` of `oauth_metadata.go`: a prefix naming the kind of value, then the random draw in
    unpadded base64url. */
module OpaqueTokens {
  import opened GoStrings
  import opened Base64

  datatype Kind = AccessToken | RefreshToken | AuthorizationCode | ClientId | SessionId

  type Draw = seq<byte>

  function Prefix(kind: Kind): string {
    match kind
    case AccessToken => "tlmcp_at_"
    case RefreshToken => "tlmcp_rt_"
    case AuthorizationCode => "tlmcp_code_"
    case ClientId => "tlmcp_client_"
    case SessionId => "tlmcp_session_"
  }

  function Opaque(kind: Kind, draw: Draw): string {
    Prefix(kind) + Encode(RAW_URL_ENCODING, draw)
  }

  /** Distinct draws, and distinct kinds, never give the same text. */
  lemma OpaqueInjective(k: Kind, x: Draw, l: Kind, y: Draw)
    requires Opaque(k, x) == Opaque(l, y)
    ensures k == l && x == y
  {
    var s, t := Opaque(k, x), Opaque(l, y);
    assert s[6] == Prefix(k)[6] && t[6] == Prefix(l)[6];
    assert s[7] == Prefix(k)[7] && t[7] == Prefix(l)[7];
    assert s[|Prefix(k)|..] == Encode(RAW_URL_ENCODING, x);
    assert t[|Prefix(l)|..] == Encode(RAW_URL_ENCODING, y);
    EncodeInjective(RAW_URL_ENCODING, x, y);
  }

  /** Given the text alone, so that nothing about its making is in the way. */
  lemma OpaqueStays(kind: Kind, draw: Draw) returns (text: string)
    ensures text == Opaque(kind, draw) && SpaceFree(text) && TrimSpace(text) == text && text != ""
    ensures Prefix(kind) <= text
  {
    OpaqueSpaceFree(kind, draw);
    text := Opaque(kind, draw);
  }

  /** No opaque value contains white space, so trimming and field splitting leave it alone. */
  lemma OpaqueSpaceFree(kind: Kind, draw: Draw)
    ensures SpaceFree(Opaque(kind, draw)) && TrimSpace(Opaque(kind, draw)) == Opaque(kind, draw)
    ensures Opaque(kind, draw) != ""
  {
    var e := Encode(RAW_URL_ENCODING, draw);
    EncodedSymbols(RAW_URL_ENCODING, draw);
    var s := Opaque(kind, draw);
    forall c | c in s ensures !IsSpace(c) {
      if c in e {
        assert SymbolValue(RAW_URL_ENCODING, c).Some?;
      } else {
        assert c in Prefix(kind);
      }
    }
    assert s[0] in s && s[|s| - 1] in s;
    TrimSpaceOfTrimmed(s);
  }
}
