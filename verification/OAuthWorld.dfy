/** The functions of texts behind the OAuth state machine: scopes, redirect addresses and metadata addresses of
    `oauth_metadata.go`. Parsing an address, recognising a loopback IP and the S256 transformation are parameters. */
module OAuthWorld {
  import opened Wrappers
  import opened GoStrings
  import opened OpaqueTokens
  import opened OAuth
  import opened OAuthInvariant
  import opened OAuthSteps
  import opened OAuthRuns
  import opened OAuthCodes
  import opened OAuthTokens
  import opened OAuthRules

  datatype Url = Url(scheme: string, host: string, hostname: string, path: string, rawQuery: string, fragment: string,
                     hasUser: bool)

  datatype Net = Net(parse: string -> Option<Url>, loopback: string -> bool, s256: string -> string)

  const MCP := "mcp"
  const OFFLINE := "offline_access"

  predicate ScopeAllowed(scope: string) {
    forall item :: item in Fields(scope) ==> item == MCP || item == OFFLINE
  }

  predicate ScopeContains(scope: string, wanted: string) {
    wanted in Fields(scope)
  }

  predicate ValidRedirectUri(net: Net, raw: string) {
    var u := net.parse(raw);
    && u.Some? && u.value.scheme != "" && u.value.host != "" && u.value.fragment == "" && !u.value.hasUser
    && (u.value.scheme == "https"
        || (u.value.scheme == "http"
            && (EqualFoldAscii(u.value.hostname, "localhost") || net.loopback(u.value.hostname))))
  }

  predicate ValidMetadataUrl(net: Net, id: string) {
    var u := net.parse(id);
    && u.Some? && u.value.scheme == "https" && EqualFoldAscii(u.value.hostname, "chatgpt.com")
    && (u.value.path == "/oauth/client.json"
        || (HasPrefix(u.value.path, "/oauth/") && HasSuffix(u.value.path, "/client.json")))
    && u.value.rawQuery == "" && u.value.fragment == "" && !u.value.hasUser
  }

  function Actual(net: Net): World {
    World((kind, draw) => Opaque(kind, draw), text => TrimSpace(text), net.s256,
          scope => ScopeAllowed(scope), scope => ScopeContains(scope, MCP),
          raw => ValidRedirectUri(net, raw), id => ValidMetadataUrl(net, id))
  }

  /** What the state machine assumes of its functions holds of the actual ones. */
  lemma ActualProper(net: Net)
    ensures Proper(Actual(net))
  {
    var w := Actual(net);
    forall k, x, l, y | w.mint(k, x) == w.mint(l, y) ensures k == l && x == y {
      OpaqueInjective(k, x, l, y);
    }
    forall x ensures w.trim(w.trim(x)) == w.trim(x) {
      TrimSpaceIdempotent(x);
    }
  }

  /** Nor does trimming alter what the service hands out. */
  lemma ActualMintTrimmed(net: Net)
    ensures MintTrimmed(Actual(net))
  {
    var w := Actual(net);
    forall k, x ensures w.trim(w.mint(k, x)) == w.mint(k, x) && w.mint(k, x) != "" {
      var text := OpaqueStays(k, x);
      assert w.mint(k, x) == text;
    }
  }

  /** An issued refresh token, sent as it was answered, rotates exactly until its pair is replaced or its thirty days
      have passed, for its own client and session. */
  lemma RefreshTokenRedeemable(net: Net, events: seq<Event>, states: seq<State>, i: nat, j: nat,
                               id: string, e: Event, other: string)
    requires Run(Actual(net), events, states) && i < j <= |events| && Issues(Actual(net), states[i], events[i], id)
    requires e.Rotate? && e.renewal.refreshToken == Opaque(RefreshToken, events[i].refresh)
    ensures var w, s := Actual(net), states[j];
            Rotates(w, s, e, other)
            <==> && other == id && id in s.sessions
                 && AuthenticatedAs(w, s.clients, e.tokenClient, s.sessions[id].clientId)
                 && OwnResource(e.origin, TrimSpace(e.renewal.resource))
                 && Sha256(Opaque(RefreshToken, events[i].refresh)) !in s.retiredRefresh
                 && s.clock < events[i].readAt + 2_592_000_000_000_000
  {
    ActualMintTrimmed(net);
    IssuedRefreshRenews(Actual(net), events, states, i, j, id, e, other);
  }

  /** An issued code, sent as it was handed out, is taken exactly while it was not taken before and its ten minutes have
      not passed, by its client, with the bindings of its grant. */
  lemma CodeIsRedeemable(net: Net, events: seq<Event>, states: seq<State>, i: nat, j: nat, g: Grant, e: Event)
    requires Run(Actual(net), events, states) && i < j <= |events| && StoresCode(states[i], events[i], g)
    requires e.TakeCode? && e.exchange.code == Opaque(AuthorizationCode, events[i].code)
    ensures var w, s, d := Actual(net), states[j], Sha256(Opaque(AuthorizationCode, events[i].code));
            TakesCode(w, s, e, d)
            <==> && AuthenticatedAs(w, s.clients, e.tokenClient, g.clientId) && Carries(w, e.exchange, e.origin, g)
                 && d !in s.taken && s.clock < events[i].readAt + 600_000_000_000
  {
    ActualMintTrimmed(net);
    IssuedCodeExchanges(Actual(net), events, states, i, j, g, e);
  }

  /** The scope names mcp and nothing that is not supported. */
  ghost predicate SupportedScope(scope: string) {
    "mcp" in Fields(scope) && forall item :: item in Fields(scope) ==> item == "mcp" || item == "offline_access"
  }

  /** The address is https, or http to the local host, without fragment or user information. */
  ghost predicate SafeRedirect(net: Net, uri: string) {
    && net.parse(uri).Some?
    && var u := net.parse(uri).value;
       && u.host != "" && u.fragment == "" && !u.hasUser
       && (u.scheme == "https"
           || (u.scheme == "http" && (EqualFoldAscii(u.hostname, "localhost") || net.loopback(u.hostname))))
  }

  /** The address of a metadata document: of chatgpt.com, over https, with nothing but the path of a client. */
  ghost predicate DocumentAddress(net: Net, id: string) {
    && net.parse(id).Some?
    && var u := net.parse(id).value;
       && u.scheme == "https" && EqualFoldAscii(u.hostname, "chatgpt.com")
       && u.rawQuery == "" && u.fragment == "" && !u.hasUser
       && (u.path == "/oauth/client.json" || exists name :: u.path == DocumentPath(name))
  }

  ghost function DocumentPath(name: string): string {
    "/oauth/" + name + "/client.json"
  }

  /** Exactly the supported scopes that contain mcp are accepted. */
  lemma ScopeExactly(net: Net, scope: string)
    ensures Actual(net).scopeAllowed(scope) && Actual(net).scopeContainsMcp(scope) <==> SupportedScope(scope)
  {
  }

  /** Among them mcp, alone or with offline_access in either order. */
  lemma UsualScopes(mcp: string, offline: string, gap: string)
    requires mcp == "mcp" && offline == "offline_access" && gap != "" && AllSpace(gap)
    ensures SupportedScope(mcp) && SupportedScope(mcp + gap + offline) && SupportedScope(offline + gap + mcp)
    ensures !SupportedScope(offline)
  {
    OneField(mcp);
    OneField(offline);
    FieldsOfPair(mcp, gap, offline);
    FieldsOfPair(offline, gap, mcp);
  }

  lemma OneField(word: string)
    requires word != "" && SpaceFree(word)
    ensures Fields(word) == [word]
  {
    FieldsOfWord(word, "");
    assert word + "" == word;
  }

  /** Exactly the safe redirect addresses are accepted. */
  lemma RedirectExactly(net: Net, uri: string)
    ensures Actual(net).validRedirect(uri) <==> SafeRedirect(net, uri)
  {
  }

  lemma DocumentName(path: string, before: string, after: string)
    requires before == "/oauth/" && after == "/client.json"
    requires before <= path && HasSuffix(path, after) && path != before[..6] + after
    ensures |path| >= 19 && path == before + path[7..|path| - 12] + after
  {
    var k := |path| - 12;
    assert path[k..] == after && path[..7] == before;
    assert path[k] == after[0] && path[k + 1] == after[1] && path[1] == before[1];
    assert forall x :: 0 <= x < 7 ==> path[x] == before[x];
    assert path[..6] == before[..6];
    assert k > 6 ==> path == path[..7] + path[7..k] + path[k..];
  }

  lemma DocumentPaths(path: string)
    ensures path == "/oauth/client.json" || (HasPrefix(path, "/oauth/") && HasSuffix(path, "/client.json"))
            <==> path == "/oauth/client.json" || exists name :: path == DocumentPath(name)
  {
    if HasPrefix(path, "/oauth/") && HasSuffix(path, "/client.json") && path != "/oauth/client.json" {
      assert "/oauth/client.json" == "/oauth/"[..6] + "/client.json";
      DocumentName(path, "/oauth/", "/client.json");
      assert path == DocumentPath(path[7..|path| - 12]);
    }
  }

  /** Exactly the addresses of client documents are accepted. */
  lemma DocumentExactly(net: Net, id: string)
    ensures Actual(net).metadataUrl(id) <==> DocumentAddress(net, id)
  {
    if net.parse(id).Some? {
      var path := net.parse(id).value.path;
      DocumentPaths(path);
    }
  }

  /** In every run each stored code has a supported scope, and a safe redirect address that parses again when the user
      is sent back. */
  lemma CodesAreSafe(net: Net, events: seq<Event>, states: seq<State>, i: nat, d: Digest)
    requires Run(Actual(net), events, states) && i <= |events| && d in states[i].codes
    ensures SupportedScope(states[i].codes[d].scope) && SafeRedirect(net, states[i].codes[d].redirectUri)
  {
    CodeScopeAndRedirect(Actual(net), events, states, i, d);
    ScopeExactly(net, states[i].codes[d].scope);
    RedirectExactly(net, states[i].codes[d].redirectUri);
  }

  /** Each session has a supported scope. */
  lemma SessionsAreScoped(net: Net, events: seq<Event>, states: seq<State>, i: nat, id: string)
    requires Run(Actual(net), events, states) && i <= |events| && id in states[i].sessions
    ensures SupportedScope(states[i].sessions[id].scope)
  {
    SessionScope(Actual(net), events, states, i, id);
    ScopeExactly(net, states[i].sessions[id].scope);
  }
}
