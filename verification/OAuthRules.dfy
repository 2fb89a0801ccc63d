/** What the OAuth handlers accept, stated of the fields of a request and the rows of the tables alone: who counts as an
    authenticated client, which authorization requests begin, which exchanges and renewals are granted. */
module OAuthRules {
  import opened Wrappers
  import opened GoStrings
  import opened OpaqueTokens
  import opened OAuth
  import opened OAuthInvariant
  import opened OAuthSteps
  import opened OAuthRuns
  import opened OAuthCodes
  import opened OAuthTokens

  // --- who the client is ---------------------------------------------------------------------------------

  /** The document fetched for the id is acceptable. */
  ghost predicate Trusted(w: World, id: string, fetched: Option<Metadata>) {
    && w.metadataUrl(id) && fetched.Some?
    && (fetched.value.clientId == "" || fetched.value.clientId == id) && fetched.value.supportsNone
    && |fetched.value.redirectUris| > 0 && forall uri :: uri in fetched.value.redirectUris ==> w.validRedirect(uri)
  }

  /** The client is known by its id: registered, or for an https address by its document. */
  ghost predicate KnownClient(w: World, clients: map<string, Client>, id: string, fetched: Option<Metadata>) {
    if HasPrefix(id, "https://") then Trusted(w, id, fetched) else id in clients
  }

  /** The assertion, and nothing else in the request, identifies the client. */
  ghost predicate AssertedAs(w: World, c: TokenClient, who: string) {
    && w.trim(c.assertionText) != ""
    && w.trim(c.assertionType) == "urn:ietf:params:oauth:client-assertion-type:jwt-bearer"
    && c.assertion.verified && c.assertion.issuer == who && c.assertion.subject == who
    && who != "" && w.trim(who) == who && (w.trim(c.clientId) == "" || w.trim(c.clientId) == who)
    && Trusted(w, who, c.fetched)
  }

  ghost predicate AuthenticatedAs(w: World, clients: map<string, Client>, c: TokenClient, who: string) {
    if w.trim(c.assertionText) == "" && w.trim(c.assertionType) == ""
    then who == w.trim(c.clientId) && who != "" && KnownClient(w, clients, who, c.fetched)
    else AssertedAs(w, c, who)
  }

  lemma MetadataExactly(w: World, id: string, fetched: Option<Metadata>)
    ensures LoadMetadataClient(w, id, fetched).Some? <==> Trusted(w, id, fetched)
    ensures LoadMetadataClient(w, id, fetched).Some? ==>
              LoadMetadataClient(w, id, fetched).value == fetched.value.redirectUris
  {
    if fetched.Some? {
      var uris := fetched.value.redirectUris;
      assert ValidRedirects(w, uris) <==> |uris| > 0 && forall uri :: uri in uris ==> w.validRedirect(uri);
    }
  }

  /** A token request is authenticated as a client exactly when its id is registered or its document acceptable, or,
      with an assertion, when that is verified and names the client as issuer and subject. */
  lemma AuthenticatedExactly(w: World, clients: map<string, Client>, c: TokenClient, who: string)
    requires TrimIdempotent(w)
    ensures Authenticate(w, clients, c) == Some(who) <==> AuthenticatedAs(w, clients, c, who)
  {
    MetadataExactly(w, who, c.fetched);
  }

  /** Without an assertion, an id that is no https address authenticates exactly as a registered client. */
  lemma PublicClientExactly(w: World, clients: map<string, Client>, c: TokenClient, who: string)
    requires w.trim(c.assertionText) == "" && w.trim(c.assertionType) == ""
    requires !HasPrefix(w.trim(c.clientId), "https://")
    ensures Authenticate(w, clients, c) == Some(who) <==> who == w.trim(c.clientId) && who != "" && who in clients
  {
  }

  // --- which authorizations begin ------------------------------------------------------------------------

  /** The scope asked for, mcp when none is named. */
  ghost function AskedScope(w: World, form: AuthorizationForm): string {
    if w.trim(form.scope) == "" then "mcp" else w.trim(form.scope)
  }

  /** The redirect addresses of the client: as registered, or as in its document. */
  ghost predicate MayRedirect(w: World, clients: map<string, Client>, id: string, fetched: Option<Metadata>,
                              uri: string)
  {
    && KnownClient(w, clients, id, fetched)
    && uri in if HasPrefix(id, "https://") then fetched.value.redirectUris else clients[id].redirectUris
  }

  /** The key entered is accepted and not blank, the form is complete, the scope is supported and contains mcp, and the
      redirect address is one of the client's. */
  ghost predicate Authorizes(w: World, clients: map<string, Client>, e: Event)
    requires e.BeginAuthorization?
  {
    && e.accepted && w.trim(e.form.apiKey) != "" && Complete(w, e.form, e.origin)
    && w.scopeAllowed(AskedScope(w, e.form)) && w.scopeContainsMcp(AskedScope(w, e.form))
    && MayRedirect(w, clients, w.trim(e.form.clientId), e.fetched, w.trim(e.form.redirectUri))
  }

  /** Exactly then an authorization begins. */
  lemma BeginsExactly(w: World, s: State, e: Event)
    requires e.BeginAuthorization?
    ensures Begins(w, s, e) <==> Authorizes(w, s.clients, e)
  {
    MetadataExactly(w, w.trim(e.form.clientId), e.fetched);
  }

  /** The grant holds what the form says, trimmed. */
  lemma BegunGrant(w: World, s: State, e: Event)
    requires Begins(w, s, e)
    ensures var g := Validate(w, s, e.form, e.origin, e.fetched).value;
            && g.apiKey == w.trim(e.form.apiKey) && g.clientId == w.trim(e.form.clientId)
            && g.redirectUri == w.trim(e.form.redirectUri) && g.challenge == w.trim(e.form.codeChallenge)
            && g.scope == AskedScope(w, e.form) && g.resource == w.trim(e.form.resource)
  {
  }

  // --- which exchanges are granted -------------------------------------------------------------------------

  /** The resource named is this endpoint, if any is. */
  ghost predicate OwnResource(origin: string, resource: string) {
    resource == "" || resource == origin + "/mcp"
  }

  /** The exchange repeats the redirect address and resource of the grant and holds a verifier of its challenge. */
  ghost predicate Carries(w: World, form: ExchangeForm, origin: string, g: Grant) {
    && w.trim(form.redirectUri) == g.redirectUri
    && 43 <= |w.trim(form.verifier)| <= 128 && w.s256(w.trim(form.verifier)) == g.challenge
    && OwnResource(origin, w.trim(form.resource))
    && (w.trim(form.resource) == "" || g.resource == "" || w.trim(form.resource) == g.resource)
  }

  /** The code is stored for the client that the request authenticates as, with the bindings that the request carries,
      and has not expired. */
  ghost predicate Redeems(w: World, s: State, c: TokenClient, form: ExchangeForm, origin: string) {
    && w.trim(form.code) != "" && w.trim(form.redirectUri) != "" && Sha256(w.trim(form.code)) in s.codes
    && var row := s.codes[Sha256(w.trim(form.code))];
       && AuthenticatedAs(w, s.clients, c, row.clientId) && w.trim(form.redirectUri) == row.redirectUri
       && 43 <= |w.trim(form.verifier)| <= 128 && w.s256(w.trim(form.verifier)) == row.challenge
       && OwnResource(origin, w.trim(form.resource))
       && (w.trim(form.resource) == "" || row.resource == "" || w.trim(form.resource) == row.resource)
       && s.clock < row.expiresAt
  }

  /** Exactly then the exchange takes it. */
  lemma RedeemsExactly(w: World, s: State, c: TokenClient, form: ExchangeForm, origin: string)
    requires TrimIdempotent(w)
    ensures Takes(w, s, c, form, origin) <==> Redeems(w, s, c, form, origin)
  {
    if Sha256(w.trim(form.code)) in s.codes {
      AuthenticatedExactly(w, s.clients, c, s.codes[Sha256(w.trim(form.code))].clientId);
    }
  }

  lemma StoredGrant(w: World, events: seq<Event>, states: seq<State>, i: nat, j: nat, g: Grant)
    requires Run(w, events, states) && i < j <= |events| && StoresCode(states[i], events[i], g)
    ensures g.clientId != "" && g.redirectUri != ""
    ensures HasPrefix(g.clientId, "https://") || g.clientId in states[j].clients
  {
    InvAt(w, events, states, i);
    LaterAt(w, events, states, i, j);
    assert FlightOk(w, states[i], states[i].flights[events[i].request]);
  }

  lemma CarriesExactly(w: World, form: ExchangeForm, origin: string, g: Grant)
    requires w.trim(form.code) != "" && g.redirectUri != ""
    ensures Carries(w, form, origin, g)
            <==> && WellFormedExchange(w, form, origin) && w.trim(form.redirectUri) == g.redirectUri
                 && w.s256(w.trim(form.verifier)) == g.challenge
                 && (w.trim(form.resource) == "" || g.resource == "" || w.trim(form.resource) == g.resource)
  {
  }

  /** From its issue on, a code sent as it was handed out is taken exactly by an exchange that authenticates as the
      client of the grant and carries its bindings, while it was not taken before and is under ten minutes old. */
  lemma IssuedCodeExchanges(w: World, events: seq<Event>, states: seq<State>, i: nat, j: nat, g: Grant, e: Event)
    requires Run(w, events, states) && MintTrimmed(w) && i < j <= |events| && StoresCode(states[i], events[i], g)
    requires e.TakeCode? && e.exchange.code == w.mint(AuthorizationCode, events[i].code)
    ensures var s, d := states[j], Sha256(e.exchange.code);
            TakesCode(w, s, e, d)
            <==> && AuthenticatedAs(w, s.clients, e.tokenClient, g.clientId) && Carries(w, e.exchange, e.origin, g)
                 && d !in s.taken && s.clock < events[i].readAt + 600_000_000_000
  {
    IssuedCodeTakenExactly(w, events, states, i, j, g, e);
    StoredGrant(w, events, states, i, j, g);
    CarriesExactly(w, e.exchange, e.origin, g);
    AuthenticatedExactly(w, states[j].clients, e.tokenClient, g.clientId);
  }

  /** For a registered client, without an assertion, its own id is all the authentication there is. */
  lemma RegisteredClientExchanges(w: World, events: seq<Event>, states: seq<State>, i: nat, j: nat, g: Grant, e: Event)
    requires Run(w, events, states) && MintTrimmed(w) && i < j <= |events| && StoresCode(states[i], events[i], g)
    requires e.TakeCode? && e.exchange.code == w.mint(AuthorizationCode, events[i].code)
    requires w.trim(e.tokenClient.assertionText) == "" && w.trim(e.tokenClient.assertionType) == ""
    requires !HasPrefix(g.clientId, "https://")
    ensures var s, d := states[j], Sha256(e.exchange.code);
            TakesCode(w, s, e, d)
            <==> && w.trim(e.tokenClient.clientId) == g.clientId && Carries(w, e.exchange, e.origin, g)
                 && d !in s.taken && s.clock < events[i].readAt + 600_000_000_000
  {
    IssuedCodeExchanges(w, events, states, i, j, g, e);
    StoredGrant(w, events, states, i, j, g);
  }

  // --- which renewals are granted --------------------------------------------------------------------------

  /** The token is the current refresh token of the session, unexpired, and the request authenticates as its client. */
  ghost predicate Renews(w: World, s: State, e: Event, id: string)
    requires e.Rotate?
  {
    && w.trim(e.renewal.refreshToken) != "" && OwnResource(e.origin, w.trim(e.renewal.resource))
    && id in s.sessions && s.sessions[id].refreshHash == Sha256(w.trim(e.renewal.refreshToken))
    && AuthenticatedAs(w, s.clients, e.tokenClient, s.sessions[id].clientId)
    && s.clock < s.sessions[id].refreshExpiresAt
  }

  /** Exactly then the renewal replaces its pair. */
  lemma RotatesExactly(w: World, s: State, e: Event, id: string)
    requires TrimIdempotent(w) && e.Rotate?
    ensures Rotates(w, s, e, id) <==> Renews(w, s, e, id)
  {
    if id in s.sessions {
      AuthenticatedExactly(w, s.clients, e.tokenClient, s.sessions[id].clientId);
    }
  }

  lemma SessionClient(w: World, events: seq<Event>, states: seq<State>, j: nat, id: string)
    requires Run(w, events, states) && j <= |events| && id in states[j].sessions
    ensures var who := states[j].sessions[id].clientId;
            who != "" && (HasPrefix(who, "https://") || who in states[j].clients)
  {
    InvAt(w, events, states, j);
    var s := states[j];
    assert SessionOk(w, s, id, s.sessions[id]);
    assert IssueOk(w, s, s.origins[id].code, s.granted[s.origins[id].code]);
  }

  /** From its issue on, a refresh token sent as it was answered rotates exactly its own session, for a request that
      authenticates as the session's client and names no other resource, until the pair is replaced or is thirty days
      old. */
  lemma IssuedRefreshRenews(w: World, events: seq<Event>, states: seq<State>, i: nat, j: nat,
                            id: string, e: Event, other: string)
    requires Run(w, events, states) && MintTrimmed(w) && i < j <= |events| && Issues(w, states[i], events[i], id)
    requires e.Rotate? && e.renewal.refreshToken == IssuedRefresh(w, events[i])
    ensures var s := states[j];
            Rotates(w, s, e, other)
            <==> && other == id && id in s.sessions
                 && AuthenticatedAs(w, s.clients, e.tokenClient, s.sessions[id].clientId)
                 && OwnResource(e.origin, w.trim(e.renewal.resource))
                 && Sha256(e.renewal.refreshToken) !in s.retiredRefresh
                 && s.clock < events[i].readAt + 2_592_000_000_000_000
  {
    IssuedRefreshRotatesExactly(w, events, states, i, j, id, e, other);
    if id in states[j].sessions {
      AuthenticatedExactly(w, states[j].clients, e.tokenClient, states[j].sessions[id].clientId);
    }
  }

  /** For the session of a registered client, without an assertion. */
  lemma RegisteredClientRenews(w: World, events: seq<Event>, states: seq<State>, i: nat, j: nat,
                               id: string, e: Event)
    requires Run(w, events, states) && MintTrimmed(w) && i < j <= |events| && Issues(w, states[i], events[i], id)
    requires e.Rotate? && e.renewal.refreshToken == IssuedRefresh(w, events[i])
    requires w.trim(e.tokenClient.assertionText) == "" && w.trim(e.tokenClient.assertionType) == ""
    requires id in states[j].sessions && !HasPrefix(states[j].sessions[id].clientId, "https://")
    ensures var s := states[j];
            Rotates(w, s, e, id)
            <==> && w.trim(e.tokenClient.clientId) == s.sessions[id].clientId
                 && OwnResource(e.origin, w.trim(e.renewal.resource))
                 && Sha256(e.renewal.refreshToken) !in s.retiredRefresh
                 && s.clock < events[i].readAt + 2_592_000_000_000_000
  {
    IssuedRefreshRenews(w, events, states, i, j, id, e, id);
    SessionClient(w, events, states, j, id);
  }
}
