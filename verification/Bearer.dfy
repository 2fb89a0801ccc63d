/** Credentials on the wire: `apiKeyFromRequest`, `resolveTensorlakeAPIKey` and `serverForAPIKey` of `encore_api.go`. */
module Bearer {
  import opened Wrappers
  import opened GoStrings
  import opened OpaqueTokens
  import opened OAuth
  import opened OAuthRuns
  import opened OAuthTokens
  import opened OAuthWorld

  /** `apiKeyFromRequest`: the key already resolved in the request's context, or the Bearer credential, or nothing. */
  function ApiKeyFromRequest(context: Option<string>, authorization: string): string {
    if context.Some? && context.value != "" then context.value
    else
      var parts := Fields(TrimSpace(authorization));
      if |parts| != 2 || !EqualFoldAscii(parts[0], "bearer") then "" else TrimSpace(parts[1])
  }

  /** Where `resolveTensorlakeAPIKey` sends a credential. */
  datatype Route = NoCredential | Lookup(token: string) | RawKey(key: string)

  function RouteOf(credential: string): Route {
    if credential == "" then NoCredential
    else if HasPrefix(credential, "tlmcp_at_") then Lookup(credential)
    else RawKey(credential)
  }

  /** The words that fold to Bearer. */
  lemma BearerWord(scheme: string)
    ensures EqualFoldAscii(scheme, "bearer")
            <==> && |scheme| == 6 && scheme[0] in "bB" && scheme[1] in "eE" && scheme[2] in "aA" && scheme[3] in "rR"
                 && scheme[4] in "eE" && scheme[5] in "rR"
  {
    var word := "bearer";
    if |scheme| == 6 {
      assert EqualFoldAscii(scheme, word) <==> && Fold(scheme[0]) == word[0] && Fold(scheme[1]) == word[1]
                                               && Fold(scheme[2]) == word[2] && Fold(scheme[3]) == word[3]
                                               && Fold(scheme[4]) == word[4] && Fold(scheme[5]) == word[5];
    }
  }

  lemma TrimSpaceOfWord(s: string)
    requires SpaceFree(s)
    ensures TrimSpace(s) == s
  {
  }

  /** A header made of a word and a token, with white space between them and around. */
  ghost function Header(before: string, scheme: string, gap: string, token: string, after: string): string {
    before + (scheme + gap + token) + after
  }

  ghost predicate Padding(before: string, gap: string, after: string) {
    AllSpace(before) && AllSpace(gap) && AllSpace(after) && gap != ""
  }

  /** It is taken apart into exactly those. */
  lemma HeaderParts(before: string, scheme: string, gap: string, token: string, after: string)
    requires SpaceFree(scheme) && scheme != "" && SpaceFree(token) && token != "" && Padding(before, gap, after)
    ensures Fields(TrimSpace(Header(before, scheme, gap, token, after))) == [scheme, token]
  {
    var header := scheme + gap + token;
    assert header[0] == scheme[0] && scheme[0] in scheme;
    assert header[|header| - 1] == token[|token| - 1] && token[|token| - 1] in token;
    TrimSpaceOfPadded(before, header, after);
    FieldsOfPair(scheme, gap, token);
  }

  /** The token comes back exactly when the word before it is Bearer in any case. */
  lemma BearerRecovers(before: string, scheme: string, gap: string, token: string, after: string)
    requires SpaceFree(scheme) && scheme != "" && SpaceFree(token) && token != "" && Padding(before, gap, after)
    ensures ApiKeyFromRequest(None, Header(before, scheme, gap, token, after))
            == if EqualFoldAscii(scheme, "bearer") then token else ""
  {
    HeaderParts(before, scheme, gap, token, after);
    TrimSpaceOfWord(token);
  }

  /** A key already resolved is used whatever the header says; once the header is deleted it is the one used even when
      it is empty, so that the server reached is the server of the resolved key. */
  lemma ResolvedKeyWins(key: string, authorization: string)
    ensures key != "" ==> ApiKeyFromRequest(Some(key), authorization) == key
    ensures key == "" ==> ApiKeyFromRequest(Some(key), authorization) == ApiKeyFromRequest(None, authorization)
    ensures ApiKeyFromRequest(Some(key), "") == key
  {
  }

  /** A credential never contains white space, whatever the header. */
  lemma CredentialSpaceFree(authorization: string)
    ensures SpaceFree(ApiKeyFromRequest(None, authorization))
  {
    var parts := Fields(TrimSpace(authorization));
    if |parts| == 2 {
      assert parts[1] in parts;
      TrimSpaceOfWord(parts[1]);
    }
  }

  /** An access token sent as a Bearer credential is recovered unchanged and routed to the lookup of its session. */
  lemma AccessTokenRouted(before: string, scheme: string, gap: string, draw: Draw, after: string)
    requires SpaceFree(scheme) && EqualFoldAscii(scheme, "bearer") && Padding(before, gap, after)
    ensures RouteOf(ApiKeyFromRequest(None, Header(before, scheme, gap, Opaque(AccessToken, draw), after)))
            == Lookup(Opaque(AccessToken, draw))
  {
    var token := OpaqueStays(AccessToken, draw);
    BearerRecovers(before, scheme, gap, token, after);
  }

  /** No other opaque value is taken for an access token. */
  lemma OthersNotRouted(kind: Kind, draw: Draw)
    requires kind != AccessToken
    ensures !RouteOf(Opaque(kind, draw)).Lookup?
  {
    var s := Opaque(kind, draw);
    assert s[6] == Prefix(kind)[6];
  }

  /** A request with the header resolves to the key in the given state. */
  ghost predicate Authorizes(w: World, s: State, authorization: string, key: string) {
    match RouteOf(ApiKeyFromRequest(None, authorization))
    case NoCredential => false
    case Lookup(token) => exists id :: ResolvesBy(w, s, token, id, key)
    case RawKey(raw) => key == raw
  }

  /** A Bearer credential that does not start like an access token is itself the key, and the only one. */
  lemma OtherCredentialIsTheKey(w: World, s: State, before: string, scheme: string, gap: string, credential: string,
                                after: string, key: string)
    requires SpaceFree(scheme) && EqualFoldAscii(scheme, "bearer") && Padding(before, gap, after)
    requires SpaceFree(credential) && credential != "" && !("tlmcp_at_" <= credential)
    ensures Authorizes(w, s, Header(before, scheme, gap, credential, after), key) <==> key == credential
  {
    BearerRecovers(before, scheme, gap, credential, after);
  }

  /** Without the word Bearer no key is authorized. */
  lemma OtherSchemeAuthorizesNone(w: World, s: State, before: string, scheme: string, gap: string, token: string,
                                  after: string, key: string)
    requires SpaceFree(scheme) && scheme != "" && !EqualFoldAscii(scheme, "bearer") && Padding(before, gap, after)
    requires SpaceFree(token) && token != ""
    ensures !Authorizes(w, s, Header(before, scheme, gap, token, after), key)
  {
    BearerRecovers(before, scheme, gap, token, after);
  }

  lemma IssuedTokenAuthorizesIn(w: World, events: seq<Event>, states: seq<State>, i: nat, j: nat, id: string,
                                key: string, authorization: string)
    requires Run(w, events, states) && i < j <= |events| && Issues(w, states[i], events[i], id)
    requires RouteOf(ApiKeyFromRequest(None, authorization)) == Lookup(IssuedAccess(w, events[i]))
    ensures Authorizes(w, states[j], authorization, key)
            <==> Alive(states[j], IssuedAccess(w, events[i]), events[i].readAt, id, key)
  {
    if other :| ResolvesBy(w, states[j], IssuedAccess(w, events[i]), other, key) {
      IssuedTokenResolvesExactly(w, events, states, i, j, id, other, key);
    }
    IssuedTokenResolvesExactly(w, events, states, i, j, id, id, key);
  }

  /** The token, issued to the session at the given time, is neither replaced nor expired, and the key is that of the
      session's account. */
  ghost predicate Alive(s: State, token: string, readAt: int, id: string, key: string) {
    && Sha256(token) !in s.retiredAccess && s.clock < readAt + 3_600_000_000_000
    && id in s.sessions && s.sessions[id].tenant in s.accounts && key == s.accounts[s.sessions[id].tenant].apiKey
  }

  /** In every run, a token issued at `i` and sent at `j` as a Bearer credential authorizes its own session's key
      exactly until its pair is replaced or it is an hour old, and never another. */
  lemma IssuedTokenAuthorizes(net: Net, events: seq<Event>, states: seq<State>, i: nat, j: nat, id: string, key: string,
                              before: string, scheme: string, gap: string, after: string)
    requires Run(Actual(net), events, states) && i < j <= |events| && Issues(Actual(net), states[i], events[i], id)
    requires SpaceFree(scheme) && EqualFoldAscii(scheme, "bearer") && Padding(before, gap, after)
    ensures Authorizes(Actual(net), states[j],
                       Header(before, scheme, gap, Opaque(AccessToken, events[i].access), after), key)
            <==> Alive(states[j], Opaque(AccessToken, events[i].access), events[i].readAt, id, key)
  {
    AccessTokenRouted(before, scheme, gap, events[i].access, after);
    IssuedTokenAuthorizesIn(Actual(net), events, states, i, j, id, key,
                            Header(before, scheme, gap, Opaque(AccessToken, events[i].access), after));
  }

  /** The servers of the tenants: `tenantServers`, keyed by the SHA-256 of the key. A server is named by its number. */
  class Servers {
    var tenantServers: map<Digest, nat>
    var created: nat

    /** No two keys share a server. */
    ghost predicate Valid()
      reads this
    {
      && (forall h :: h in tenantServers ==> tenantServers[h] < created)
      && (forall g, h :: g in tenantServers && h in tenantServers && tenantServers[g] == tenantServers[h] ==> g == h)
    }

    constructor ()
      ensures Valid() && tenantServers == map[]
    {
      tenantServers, created := map[], 0;
    }

    /** `serverForAPIKey`, under its lock: the server of the key, which is new when the key is. */
    method ServerForApiKey(apiKey: string) returns (server: nat)
      requires Valid()
      modifies this
      ensures Valid()
      ensures Sha256(apiKey) in tenantServers && server == tenantServers[Sha256(apiKey)]
      ensures Sha256(apiKey) in old(tenantServers) ==> tenantServers == old(tenantServers) && created == old(created)
      ensures Sha256(apiKey) !in old(tenantServers) ==> server == old(created)
      ensures forall key :: Sha256(key) in old(tenantServers) ==>
                              && Sha256(key) in tenantServers
                              && tenantServers[Sha256(key)] == old(tenantServers)[Sha256(key)]
      ensures forall key :: key != apiKey && Sha256(key) in tenantServers ==> tenantServers[Sha256(key)] != server
    {
      var hash := Sha256(apiKey);
      if hash in tenantServers {
        return tenantServers[hash];
      }
      server := created;
      tenantServers, created := tenantServers[hash := server], created + 1;
    }
  }
}
