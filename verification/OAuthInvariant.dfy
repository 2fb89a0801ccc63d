/** What every legal run of the OAuth state machine keeps. */
module OAuthInvariant {
  import opened GoStrings
  import opened OpaqueTokens
  import opened OAuth

  ghost predicate MintInjective(w: World) {
    forall k, x, l, y :: w.mint(k, x) == w.mint(l, y) ==> k == l && x == y
  }

  ghost predicate TrimIdempotent(w: World) {
    forall x :: w.trim(w.trim(x)) == w.trim(x)
  }

  /** Trimming leaves a minted text alone, so that one sent back as it was handed out is found. */
  ghost predicate MintTrimmed(w: World) {
    forall k, x :: w.trim(w.mint(k, x)) == w.mint(k, x) && w.mint(k, x) != ""
  }

  ghost predicate Proper(w: World) {
    MintInjective(w) && TrimIdempotent(w)
  }

  // --- what never goes back ------------------------------------------------------------------------------

  ghost predicate Within<K, V>(a: map<K, V>, b: map<K, V>) {
    forall k :: k in a ==> k in b && b[k] == a[k]
  }

  ghost predicate KeysKept(a: map<Digest, Account>, b: map<Digest, Account>) {
    forall d :: d in a ==> d in b && b[d].apiKey == a[d].apiKey
  }

  /** The row keeps its tenant, client and scope; when its pair changes, both old hashes are retired. */
  ghost predicate RowKept(t: State, was: Session, row: Session) {
    && row.tenant == was.tenant && row.clientId == was.clientId && row.scope == was.scope
    && (row == was || (was.accessHash in t.retiredAccess && was.refreshHash in t.retiredRefresh))
  }

  ghost predicate SessionsKept(s: State, t: State) {
    forall id :: id in s.sessions ==> id in t.sessions && RowKept(t, s.sessions[id], t.sessions[id])
  }

  /** `t` may come after `s` in a run. */
  ghost predicate Later(s: State, t: State) {
    && s.log <= t.log && s.clock <= t.clock
    && s.drawn <= t.drawn && s.issued <= t.issued
    && s.retiredAccess <= t.retiredAccess && s.retiredRefresh <= t.retiredRefresh
    && KeysKept(s.accounts, t.accounts) && Within(s.clients, t.clients)
    && Within(s.granted, t.granted) && Within(s.taken, t.taken) && Within(s.origins, t.origins)
    && SessionsKept(s, t)
  }

  lemma LaterTransitive(s: State, t: State, u: State)
    requires Later(s, t) && Later(t, u)
    ensures Later(s, u)
  {
  }

  // --- the invariant ---------------------------------------------------------------------------------------

  ghost predicate AccountOk(w: World, tenant: Digest, a: Account) {
    tenant == Sha256(a.apiKey) && w.trim(a.apiKey) == a.apiKey
  }

  /** A stored key hashes to its tenant id. */
  ghost predicate AccountsOk(w: World, s: State) {
    forall t :: t in s.accounts ==> AccountOk(w, t, s.accounts[t])
  }

  /** Registered ids were minted, and registered redirect lists are valid. */
  ghost predicate ClientsOk(w: World, s: State) {
    forall id :: id in s.clients ==> id in s.issued && ValidRedirects(w, s.clients[id].redirectUris)
  }

  /** Every text handed out was minted from a draw. */
  ghost predicate IssuedOk(w: World, s: State) {
    forall text :: text in s.issued ==> exists k, x :: x in s.drawn && w.mint(k, x) == text
  }

  /** The form asks for a code with an S256 challenge, names a client and a redirect address, and no other resource. */
  ghost predicate Complete(w: World, form: AuthorizationForm, origin: string) {
    && w.trim(form.clientId) != "" && w.trim(form.redirectUri) != "" && w.trim(form.codeChallenge) != ""
    && w.trim(form.responseType) == "code" && form.challengeMethod == "S256"
    && (w.trim(form.resource) == "" || w.trim(form.resource) == origin + "/mcp")
  }

  /** The event is the accepted authorization request that the grant records. */
  ghost predicate Begun(w: World, e: Event, g: Grant) {
    && e.BeginAuthorization? && e.accepted
    && g.apiKey == w.trim(e.form.apiKey) && g.apiKey != ""
    && g.clientId == w.trim(e.form.clientId) && g.redirectUri == w.trim(e.form.redirectUri)
    && g.scope == NormalScope(w.trim(e.form.scope)) && g.resource == w.trim(e.form.resource)
    && g.challenge == w.trim(e.form.codeChallenge) && Complete(w, e.form, e.origin)
  }

  /** The redirect list is the registered one, or the one in the document fetched then. */
  ghost predicate Listed(s: State, e: Event, g: Grant) {
    e.BeginAuthorization?
    && if HasPrefix(g.clientId, "https://") then e.fetched.Some? && e.fetched.value.redirectUris == g.allowed
       else g.clientId in s.clients && s.clients[g.clientId].redirectUris == g.allowed
  }

  ghost predicate GrantOk(w: World, s: State, g: Grant) {
    && g.began < |s.log| && Begun(w, s.log[g.began], g) && Listed(s, s.log[g.began], g)
    && w.scopeAllowed(g.scope) && w.scopeContainsMcp(g.scope)
    && g.redirectUri in g.allowed && ValidRedirects(w, g.allowed)
  }

  ghost predicate StoredBy(w: World, s: State, d: Digest, i: Issue) {
    && i.grant.began < i.stored < |s.log| && s.log[i.stored].StoreCode?
    && d == Sha256(w.mint(AuthorizationCode, s.log[i.stored].code)) && i.expiresAt == s.log[i.stored].readAt + CODE_TTL
  }

  ghost predicate IssueOk(w: World, s: State, d: Digest, i: Issue) {
    GrantOk(w, s, i.grant) && StoredBy(w, s, d, i) && Tenant(w, i.grant.apiKey) in s.accounts && d.preimage in s.issued
  }

  ghost predicate GrantedOk(w: World, s: State) {
    forall d :: d in s.granted ==> IssueOk(w, s, d, s.granted[d])
  }

  /** The table holds exactly the codes granted and not taken, each bound as it was granted. */
  ghost predicate CodesOk(w: World, s: State) {
    && (forall d :: d in s.codes <==> d in s.granted && d !in s.taken)
    && (forall d :: d in s.codes ==> s.codes[d] == Row(w, s.granted[d].grant, s.granted[d].expiresAt))
  }

  /** The event is an exchange of the code that meets the bindings of its grant. */
  ghost predicate TakenBy(w: World, e: Event, d: Digest, i: Issue) {
    && e.TakeCode? && d == Sha256(w.trim(e.exchange.code)) && WellFormedExchange(w, e.exchange, e.origin)
    && w.trim(e.exchange.redirectUri) == i.grant.redirectUri && w.s256(w.trim(e.exchange.verifier)) == i.grant.challenge
    && (w.trim(e.exchange.resource) == "" || i.grant.resource == "" || w.trim(e.exchange.resource) == i.grant.resource)
  }

  ghost predicate TakeOk(w: World, s: State, d: Digest, at: nat) {
    d in s.granted && s.granted[d].stored < at < |s.log| && TakenBy(w, s.log[at], d, s.granted[d])
  }

  ghost predicate TakenOk(w: World, s: State) {
    forall d :: d in s.taken ==> TakeOk(w, s, d, s.taken[d])
  }

  ghost predicate CreatedBy(w: World, s: State, id: string, o: Origin) {
    && o.code in s.taken && s.taken[o.code] < o.created < |s.log|
    && s.log[o.created].StoreSession? && id == w.mint(SessionId, s.log[o.created].session) && id in s.issued
  }

  /** Each session was created for one taken code, and no two for the same. */
  ghost predicate OriginsOk(w: World, s: State) {
    && (forall id :: id in s.origins ==> CreatedBy(w, s, id, s.origins[id]))
    && (forall i, j :: i in s.origins && j in s.origins && s.origins[i].code == s.origins[j].code ==> i == j)
  }

  /** The row has the tenant, client and scope of the grant. */
  ghost predicate RowOf(w: World, g: Grant, tenant: Digest, clientId: string, scope: string) {
    tenant == Tenant(w, g.apiKey) && clientId == g.clientId && scope == g.scope
  }

  ghost predicate SessionOk(w: World, s: State, id: string, row: Session) {
    && id in s.origins && s.origins[id].code in s.granted
    && RowOf(w, s.granted[s.origins[id].code].grant, row.tenant, row.clientId, row.scope)
    && row.accessHash.preimage in s.issued && row.refreshHash.preimage in s.issued
    && row.accessExpiresAt - ACCESS_TTL == row.refreshExpiresAt - REFRESH_TTL <= s.clock
  }

  ghost predicate SessionsOk(w: World, s: State) {
    && (forall id :: id in s.sessions ==> SessionOk(w, s, id, s.sessions[id]))
    && (forall id :: id in s.origins ==> id in s.sessions)
  }

  /** No two sessions share a token, and no session has a retired one. */
  ghost predicate TokensOk(s: State) {
    && Unique(s.sessions)
    && (forall id :: id in s.sessions ==> s.sessions[id].accessHash !in s.retiredAccess
                                          && s.sessions[id].refreshHash !in s.retiredRefresh)
    && (forall d :: d in s.retiredAccess ==> d.preimage in s.issued)
    && (forall d :: d in s.retiredRefresh ==> d.preimage in s.issued)
  }

  /** No session was created for the code. */
  ghost predicate Unspent(s: State, d: Digest) {
    forall id :: id in s.origins ==> s.origins[id].code != d
  }

  ghost predicate FlightOk(w: World, s: State, f: Flight) {
    match f
    case KeyEntered(g) => GrantOk(w, s, g)
    case AccountStored(g) => GrantOk(w, s, g) && Tenant(w, g.apiKey) in s.accounts
    case CodeTaken(d, tenant, clientId, scope) =>
      && d in s.taken && d in s.granted && RowOf(w, s.granted[d].grant, tenant, clientId, scope)
      && tenant in s.accounts && Unspent(s, d)
    case SelectionPending(tenant, _) => tenant in s.accounts
  }

  ghost predicate FlightsOk(w: World, s: State) {
    && (forall r :: r in s.flights ==> FlightOk(w, s, s.flights[r]))
    && (forall q, r :: (q in s.flights && r in s.flights && s.flights[q].CodeTaken? && s.flights[r].CodeTaken?
                        && s.flights[q].code == s.flights[r].code) ==> q == r)
  }

  ghost predicate Inv(w: World, s: State) {
    && AccountsOk(w, s) && ClientsOk(w, s) && IssuedOk(w, s)
    && GrantedOk(w, s) && CodesOk(w, s) && TakenOk(w, s)
    && OriginsOk(w, s) && SessionsOk(w, s) && TokensOk(s) && FlightsOk(w, s)
  }

  lemma InitialInv(w: World, clock: int)
    ensures Inv(w, Initial(clock))
  {
  }

  // --- facts that later states keep ------------------------------------------------------------------------

  lemma GrantStays(w: World, s: State, t: State, g: Grant)
    requires Later(s, t) && GrantOk(w, s, g)
    ensures GrantOk(w, t, g)
  {
  }

  lemma IssueStays(w: World, s: State, t: State, d: Digest, i: Issue)
    requires Later(s, t) && IssueOk(w, s, d, i)
    ensures IssueOk(w, t, d, i)
  {
  }

  lemma FlightStays(w: World, s: State, t: State, f: Flight)
    requires Later(s, t) && FlightOk(w, s, f)
    requires f.CodeTaken? ==> Unspent(t, f.code)
    ensures FlightOk(w, t, f)
  {
  }

  // --- tables that an event leaves alone -----------------------------------------------------------------------

  lemma GrantedFrame(w: World, s: State, t: State)
    requires GrantedOk(w, s) && Later(s, t) && t.granted == s.granted
    ensures GrantedOk(w, t)
  {
    forall d | d in t.granted ensures IssueOk(w, t, d, t.granted[d]) {
      IssueStays(w, s, t, d, s.granted[d]);
    }
  }

  lemma TakenFrame(w: World, s: State, t: State)
    requires TakenOk(w, s) && Later(s, t) && t.taken == s.taken
    ensures TakenOk(w, t)
  {
  }

  lemma CodesFrame(w: World, s: State, t: State)
    requires CodesOk(w, s) && t.codes == s.codes && t.granted == s.granted && t.taken == s.taken
    ensures CodesOk(w, t)
  {
  }

  lemma OriginsFrame(w: World, s: State, t: State)
    requires OriginsOk(w, s) && Later(s, t) && t.origins == s.origins
    ensures OriginsOk(w, t)
  {
  }

  lemma SessionsFrame(w: World, s: State, t: State)
    requires SessionsOk(w, s) && Later(s, t) && t.sessions == s.sessions && t.origins == s.origins
    ensures SessionsOk(w, t)
  {
  }

  lemma TokensFrame(s: State, t: State)
    requires TokensOk(s) && Later(s, t)
    requires t.sessions == s.sessions && t.retiredAccess == s.retiredAccess && t.retiredRefresh == s.retiredRefresh
    ensures TokensOk(t)
  {
  }

  /** Flights that go on are those there were. */
  ghost predicate NoNewFlights(s: State, t: State) {
    forall r :: r in t.flights ==> r in s.flights && t.flights[r] == s.flights[r]
  }

  lemma FlightsFrame(w: World, s: State, t: State)
    requires FlightsOk(w, s) && Later(s, t) && t.origins == s.origins && NoNewFlights(s, t)
    ensures FlightsOk(w, t)
  {
    forall r | r in t.flights ensures FlightOk(w, t, t.flights[r]) {
      FlightStays(w, s, t, s.flights[r]);
    }
  }

  /** The event leaves the codes, the sessions and their history alone. */
  ghost predicate SameGrants(s: State, t: State) {
    && t.codes == s.codes && t.granted == s.granted && t.taken == s.taken
    && t.sessions == s.sessions && t.origins == s.origins
    && t.retiredAccess == s.retiredAccess && t.retiredRefresh == s.retiredRefresh
  }

  lemma GrantsFrame(w: World, s: State, t: State)
    requires Inv(w, s) && Later(s, t) && SameGrants(s, t)
    ensures GrantedOk(w, t) && CodesOk(w, t) && TakenOk(w, t) && OriginsOk(w, t) && SessionsOk(w, t) && TokensOk(t)
  {
    GrantedFrame(w, s, t);
    CodesFrame(w, s, t);
    TakenFrame(w, s, t);
    OriginsFrame(w, s, t);
    SessionsFrame(w, s, t);
    TokensFrame(s, t);
  }

  lemma AccountsFrame(w: World, s: State, t: State)
    requires AccountsOk(w, s) && ClientsOk(w, s) && IssuedOk(w, s)
    requires t.accounts == s.accounts && t.clients == s.clients && t.issued == s.issued && t.drawn == s.drawn
    ensures AccountsOk(w, t) && ClientsOk(w, t) && IssuedOk(w, t)
  {
  }

  lemma SameSessionsKept(s: State, t: State)
    requires t.sessions == s.sessions
    ensures SessionsKept(s, t)
  {
  }

  lemma IssuedMore(w: World, s: State, t: State, kind: Kind, x: Draw)
    requires IssuedOk(w, s) && t.drawn == s.drawn + {x} && t.issued == s.issued + {w.mint(kind, x)}
    ensures IssuedOk(w, t)
  {
  }
}
