/** The OAuth grant state machine of `oauth_authorize.go`, `oauth_token.go`, `oauth_metadata.go` and `db.go` over the
    four tables of the migration. Every event is one SQL statement with what its handler does up to the next one;
    the events of any number of requests interleave. */
module OAuth {
  import opened Wrappers
  import opened GoStrings
  import opened OpaqueTokens

  /** SHA-256 as a free constructor: it is taken to be injective. */
  datatype Digest = Sha256(preimage: string)

  /** The functions of texts that the handlers use; `OAuthWorld` defines them. */
  datatype World = World(
    mint: (Kind, Draw) -> string,
    trim: string -> string,
    s256: string -> string,
    scopeAllowed: string -> bool,
    scopeContainsMcp: string -> bool,
    validRedirect: string -> bool,
    metadataUrl: string -> bool)

  // Nanoseconds, as in Go's `time.Duration`.
  const SECOND := 1_000_000_000
  const ACCESS_TTL := 3600 * SECOND
  const REFRESH_TTL := 30 * 24 * 3600 * SECOND
  const CODE_TTL := 600 * SECOND

  // --- tables --------------------------------------------------------------------------------------------

  datatype Account = Account(apiKey: string, primary: Option<string>)

  datatype Client = Client(redirectUris: seq<string>)

  datatype Code = Code(tenant: Digest, clientId: string, redirectUri: string, scope: string, resource: string,
                       challenge: string, expiresAt: int)

  datatype Session = Session(tenant: Digest, clientId: string, scope: string, accessHash: Digest, refreshHash: Digest,
                             accessExpiresAt: int, refreshExpiresAt: int)

  // --- requests ------------------------------------------------------------------------------------------

  datatype AuthorizationForm = AuthorizationForm(clientId: string, redirectUri: string, responseType: string,
                                                 scope: string, codeChallenge: string, challengeMethod: string,
                                                 resource: string, apiKey: string)

  /** A fetched client metadata document. */
  datatype Metadata = Metadata(clientId: string, supportsNone: bool, redirectUris: seq<string>)

  /** The issuer and subject of a client assertion, and whether its signature, lifetime and audience verify. */
  datatype Assertion = Assertion(issuer: string, subject: string, verified: bool)

  datatype TokenClient = TokenClient(clientId: string, assertionText: string, assertionType: string,
                                     assertion: Assertion, fetched: Option<Metadata>)

  datatype ExchangeForm = ExchangeForm(code: string, redirectUri: string, verifier: string, resource: string)

  datatype RefreshForm = RefreshForm(refreshToken: string, resource: string)

  /** An authorization that passed validation: the key entered, the bindings, the client's redirect list, and the
      position in the log of the event that began it. */
  datatype Grant = Grant(apiKey: string, clientId: string, redirectUri: string, scope: string, resource: string,
                         challenge: string, allowed: seq<string>, began: nat)

  /** A handler between two statements. */
  datatype Flight =
    | KeyEntered(grant: Grant)
    | AccountStored(grant: Grant)
    | CodeTaken(code: Digest, tenant: Digest, clientId: string, scope: string)
    | SelectionPending(tenant: Digest, sandboxId: string)

  datatype Event =
    | Tick(elapsed: nat)
    | Register(client: Draw, uris: seq<string>, authMethod: string)
    | BeginAuthorization(request: nat, form: AuthorizationForm, origin: string, fetched: Option<Metadata>,
                         accepted: bool)
    | StoreAccount(request: nat)
    | StoreCode(request: nat, code: Draw, readAt: int)
    | TakeCode(request: nat, tokenClient: TokenClient, exchange: ExchangeForm, origin: string)
    | StoreSession(request: nat, access: Draw, refresh: Draw, session: Draw, readAt: int)
    | Rotate(tokenClient: TokenClient, renewal: RefreshForm, origin: string, access: Draw, refresh: Draw, readAt: int)
    | BeginSelection(request: nat, apiKey: string, sandboxId: string)
    | StoreSelection(request: nat)
    | Drop(request: nat)

  // --- state ---------------------------------------------------------------------------------------------

  /** A code that was stored: its grant, its expiry, and the position of the event that stored it. */
  datatype Issue = Issue(grant: Grant, expiresAt: int, stored: nat)

  /** Where a session comes from: the code that was exchanged, and the position of the event that stored it. */
  datatype Origin = Origin(code: Digest, created: nat)

  /** The four tables, the clock and the handlers in flight; then the history. */
  datatype State = State(
    accounts: map<Digest, Account>,
    clients: map<string, Client>,
    codes: map<Digest, Code>,
    sessions: map<string, Session>,
    clock: int,
    flights: map<nat, Flight>,
    drawn: set<Draw>,
    issued: set<string>,
    granted: map<Digest, Issue>,
    taken: map<Digest, nat>,
    origins: map<string, Origin>,
    retiredAccess: set<Digest>,
    retiredRefresh: set<Digest>,
    log: seq<Event>)

  function Initial(clock: int): State {
    State(map[], map[], map[], map[], clock, map[], {}, {}, map[], map[], map[], {}, {}, [])
  }

  // --- client lookup and authentication --------------------------------------------------------------------

  predicate ValidRedirects(w: World, uris: seq<string>) {
    uris != [] && forall i :: 0 <= i < |uris| ==> w.validRedirect(uris[i])
  }

  /** `loadChatGPTCIMDClient`: the redirect list of a fetched document. */
  function LoadMetadataClient(w: World, id: string, fetched: Option<Metadata>): Option<seq<string>> {
    if w.metadataUrl(id) && fetched.Some?
       && (fetched.value.clientId == "" || fetched.value.clientId == id) && fetched.value.supportsNone
       && ValidRedirects(w, fetched.value.redirectUris)
    then Some(fetched.value.redirectUris)
    else None
  }

  function LoadRegisteredClient(clients: map<string, Client>, id: string): Option<seq<string>> {
    if id in clients then Some(clients[id].redirectUris) else None
  }

  /** `loadOAuthClient`. */
  function LoadClient(w: World, clients: map<string, Client>, id: string, fetched: Option<Metadata>)
    : Option<seq<string>>
  {
    if HasPrefix(id, "https://") then LoadMetadataClient(w, id, fetched) else LoadRegisteredClient(clients, id)
  }

  const ASSERTION_TYPE := "urn:ietf:params:oauth:client-assertion-type:jwt-bearer"

  /** `verifyChatGPTClientAssertion`. */
  function VerifyAssertion(w: World, c: TokenClient, expected: string): Option<string> {
    var id := if expected != "" then expected else w.trim(c.assertion.issuer);
    if id != "" && c.assertion.issuer == id && c.assertion.subject == id && c.assertion.verified
       && LoadMetadataClient(w, id, c.fetched).Some?
    then Some(id)
    else None
  }

  /** `authenticateTokenClient`. */
  function Authenticate(w: World, clients: map<string, Client>, c: TokenClient): Option<string> {
    var id := w.trim(c.clientId);
    var text, kind := w.trim(c.assertionText), w.trim(c.assertionType);
    if text != "" || kind != "" then
      if text == "" || kind != ASSERTION_TYPE then None else VerifyAssertion(w, c, w.trim(id))
    else if id == "" then None
    else if LoadClient(w, clients, id, c.fetched).Some? then Some(id)
    else None
  }

  /** `validateResource`. */
  predicate ValidResource(origin: string, resource: string) {
    resource == "" || resource == origin + "/mcp"
  }

  // --- the statements --------------------------------------------------------------------------------------

  /** `tenantIDForAPIKey`. */
  function Tenant(w: World, apiKey: string): Digest {
    Sha256(w.trim(apiKey))
  }

  /** `upsertAccount`. */
  function Upsert(w: World, accounts: map<Digest, Account>, apiKey: string): map<Digest, Account> {
    var key := w.trim(apiKey);
    var tenant := Tenant(w, key);
    accounts[tenant := Account(key, if tenant in accounts then accounts[tenant].primary else None)]
  }

  predicate Registrable(w: World, uris: seq<string>, authMethod: string) {
    (authMethod == "" || authMethod == "none") && ValidRedirects(w, uris)
  }

  /** `OAuthRegister`. */
  function DoRegister(w: World, s: State, client: Draw, uris: seq<string>, authMethod: string): State {
    if !Registrable(w, uris, authMethod) then s
    else
      var id := w.mint(ClientId, client);
      s.(clients := if id in s.clients then s.clients else s.clients[id := Client(uris)],
         drawn := s.drawn + {client}, issued := s.issued + {id})
  }

  function NormalScope(scope: string): string {
    if scope == "" then "mcp" else scope
  }

  /** `readAuthorizationRequest` and `validateAuthorizationRequest`: the grant, without an account yet. */
  function Validate(w: World, s: State, form: AuthorizationForm, origin: string, fetched: Option<Metadata>)
    : Option<Grant>
  {
    var id, uri, challenge := w.trim(form.clientId), w.trim(form.redirectUri), w.trim(form.codeChallenge);
    var scope, resource := NormalScope(w.trim(form.scope)), w.trim(form.resource);
    if id == "" || w.trim(form.responseType) != "code" || uri == "" then None
    else if form.challengeMethod != "S256" || challenge == "" then None
    else if !w.scopeAllowed(scope) || !w.scopeContainsMcp(scope) || !ValidResource(origin, resource) then None
    else
      var allowed := LoadClient(w, s.clients, id, fetched);
      if allowed.None? || uri !in allowed.value then None
      else Some(Grant(w.trim(form.apiKey), id, uri, scope, resource, challenge, allowed.value, |s.log|))
  }

  /** `OAuthAuthorize` up to the check of the key by Tensorlake. */
  function DoBegin(w: World, s: State, request: nat, form: AuthorizationForm, origin: string, fetched: Option<Metadata>,
                   accepted: bool): State
  {
    var grant := Validate(w, s, form, origin, fetched);
    if grant.Some? && grant.value.apiKey != "" && accepted
    then s.(flights := s.flights[request := KeyEntered(grant.value)])
    else s
  }

  function DoStoreAccount(w: World, s: State, request: nat): State {
    if request in s.flights && s.flights[request].KeyEntered? then
      var g := s.flights[request].grant;
      s.(accounts := Upsert(w, s.accounts, g.apiKey), flights := s.flights[request := AccountStored(g)])
    else s
  }

  function Row(w: World, g: Grant, expiresAt: int): Code {
    Code(Tenant(w, g.apiKey), g.clientId, g.redirectUri, g.scope, g.resource, g.challenge, expiresAt)
  }

  /** The INSERT of a code; the primary key and the reference to the account are constraints. */
  function DoStoreCode(w: World, s: State, request: nat, code: Draw, readAt: int): State {
    if request in s.flights && s.flights[request].AccountStored? then
      var g := s.flights[request].grant;
      var text := w.mint(AuthorizationCode, code);
      var row := Row(w, g, readAt + CODE_TTL);
      var ok := Sha256(text) !in s.codes && row.tenant in s.accounts;
      s.(codes := if ok then s.codes[Sha256(text) := row] else s.codes,
         granted := if ok then s.granted[Sha256(text) := Issue(g, row.expiresAt, |s.log|)] else s.granted,
         flights := s.flights - {request}, drawn := s.drawn + {code}, issued := s.issued + {text})
    else s
  }

  /** The WHERE clause of the DELETE. */
  predicate Redeemable(row: Code, clientId: string, redirectUri: string, challenge: string, resource: string,
                       now: int)
  {
    && row.clientId == clientId && row.redirectUri == redirectUri && row.challenge == challenge
    && row.expiresAt > now && (resource == "" || row.resource == "" || row.resource == resource)
  }

  /** The checks made again on the returned row. */
  predicate Rechecked(row: Code, clientId: string, redirectUri: string, challenge: string, resource: string) {
    && clientId == row.clientId && redirectUri == row.redirectUri && challenge == row.challenge
    && !(row.resource != "" && resource != "" && resource != row.resource)
  }

  /** What `exchangeAuthorizationCode` demands of a request before it looks at the table. */
  predicate WellFormedExchange(w: World, form: ExchangeForm, origin: string) {
    && w.trim(form.code) != "" && w.trim(form.redirectUri) != "" && w.trim(form.verifier) != ""
    && 43 <= |w.trim(form.verifier)| <= 128
    && ValidResource(origin, w.trim(form.resource))
  }

  /** The exchange deletes its code. */
  predicate Takes(w: World, s: State, c: TokenClient, form: ExchangeForm, origin: string) {
    && Authenticate(w, s.clients, c).Some? && Authenticate(w, s.clients, c).value != ""
    && WellFormedExchange(w, form, origin)
    && Sha256(w.trim(form.code)) in s.codes
    && Redeemable(s.codes[Sha256(w.trim(form.code))], Authenticate(w, s.clients, c).value, w.trim(form.redirectUri),
                  w.s256(w.trim(form.verifier)), w.trim(form.resource), s.clock)
  }

  /** The DELETE and the checks after it; when one of those failed the code would be gone without a flight. */
  function DoTakeCode(w: World, s: State, request: nat, c: TokenClient, form: ExchangeForm, origin: string): State {
    if !Takes(w, s, c, form, origin) then s
    else
      var code := Sha256(w.trim(form.code));
      var row := s.codes[code];
      var clientId := Authenticate(w, s.clients, c).value;
      var ok := Rechecked(row, clientId, w.trim(form.redirectUri), w.s256(w.trim(form.verifier)),
                          w.trim(form.resource));
      s.(codes := s.codes - {code}, taken := s.taken[code := |s.log|],
         flights := if ok then s.flights[request := CodeTaken(code, row.tenant, clientId, row.scope)] else s.flights)
  }

  /** The UNIQUE constraints on the two hash columns. */
  predicate Unique(sessions: map<string, Session>) {
    forall i, j :: i in sessions && j in sessions
                   && (sessions[i].accessHash == sessions[j].accessHash
                       || sessions[i].refreshHash == sessions[j].refreshHash)
                   ==> i == j
  }

  /** The INSERT of a session; the keys and the reference to the account are constraints. */
  function DoStoreSession(w: World, s: State, request: nat, access: Draw, refresh: Draw, session: Draw, readAt: int)
    : State
  {
    if request in s.flights && s.flights[request].CodeTaken? then
      var f := s.flights[request];
      var a, r, id := w.mint(AccessToken, access), w.mint(RefreshToken, refresh), w.mint(SessionId, session);
      var row :=
        Session(f.tenant, f.clientId, f.scope, Sha256(a), Sha256(r), readAt + ACCESS_TTL, readAt + REFRESH_TTL);
      var ok := id !in s.sessions && f.tenant in s.accounts && Unique(s.sessions[id := row]);
      s.(sessions := if ok then s.sessions[id := row] else s.sessions,
         origins := if ok then s.origins[id := Origin(f.code, |s.log|)] else s.origins,
         flights := s.flights - {request}, drawn := s.drawn + {access, refresh, session},
         issued := s.issued + {a, r, id})
    else s
  }

  /** The WHERE clause of the UPDATE. */
  predicate Renewable(row: Session, refreshHash: Digest, clientId: string, now: int) {
    row.refreshHash == refreshHash && row.clientId == clientId && row.refreshExpiresAt > now
  }

  function Renewed(row: Session, access: string, refresh: string, readAt: int): Session {
    row.(accessHash := Sha256(access), refreshHash := Sha256(refresh),
         accessExpiresAt := readAt + ACCESS_TTL, refreshExpiresAt := readAt + REFRESH_TTL)
  }

  /** The UPDATE, row by row. */
  function Updated(sessions: map<string, Session>, hash: Digest, clientId: string, now: int,
                   access: string, refresh: string, readAt: int): map<string, Session>
  {
    map id | id in sessions ::
      if Renewable(sessions[id], hash, clientId, now) then Renewed(sessions[id], access, refresh, readAt)
      else sessions[id]
  }

  /** What `rotateRefreshToken` demands of a request before it draws new tokens. */
  predicate WellFormedRenewal(w: World, s: State, c: TokenClient, form: RefreshForm, origin: string) {
    && Authenticate(w, s.clients, c).Some? && Authenticate(w, s.clients, c).value != ""
    && w.trim(form.refreshToken) != "" && ValidResource(origin, w.trim(form.resource))
  }

  /** The rows that the UPDATE changes. */
  function RenewedIds(sessions: map<string, Session>, hash: Digest, clientId: string, now: int): set<string> {
    set id | id in sessions && Renewable(sessions[id], hash, clientId, now)
  }

  function AccessHashes(sessions: map<string, Session>, ids: set<string>): set<Digest> {
    set id | id in ids && id in sessions :: sessions[id].accessHash
  }

  function RefreshHashes(sessions: map<string, Session>, ids: set<string>): set<Digest> {
    set id | id in ids && id in sessions :: sessions[id].refreshHash
  }

  function DoRotate(w: World, s: State, c: TokenClient, form: RefreshForm, origin: string,
                    access: Draw, refresh: Draw, readAt: int): State
  {
    if !WellFormedRenewal(w, s, c, form, origin) then s
    else
      var a, r := w.mint(AccessToken, access), w.mint(RefreshToken, refresh);
      var hash, clientId := Sha256(w.trim(form.refreshToken)), Authenticate(w, s.clients, c).value;
      var ids := RenewedIds(s.sessions, hash, clientId, s.clock);
      var after := Updated(s.sessions, hash, clientId, s.clock, a, r, readAt);
      var ok := Unique(after);
      s.(sessions := if ok then after else s.sessions,
         retiredAccess := if ok then s.retiredAccess + AccessHashes(s.sessions, ids) else s.retiredAccess,
         retiredRefresh := if ok then s.retiredRefresh + RefreshHashes(s.sessions, ids) else s.retiredRefresh,
         drawn := s.drawn + {access, refresh}, issued := s.issued + {a, r})
  }

  /** `setPrimarySandboxID`: the upsert, then the UPDATE. */
  function DoBeginSelection(w: World, s: State, request: nat, apiKey: string, sandboxId: string): State {
    s.(accounts := Upsert(w, s.accounts, apiKey),
       flights := s.flights[request := SelectionPending(Tenant(w, w.trim(apiKey)), w.trim(sandboxId))])
  }

  function DoStoreSelection(s: State, request: nat): State {
    if request in s.flights && s.flights[request].SelectionPending? then
      var f := s.flights[request];
      s.(accounts := if f.tenant in s.accounts
                     then s.accounts[f.tenant := Account(s.accounts[f.tenant].apiKey, Some(f.sandboxId))]
                     else s.accounts,
         flights := s.flights - {request})
    else s
  }

  function Act(w: World, s: State, e: Event): State {
    match e
    case Tick(elapsed) => s.(clock := s.clock + elapsed)
    case Register(client, uris, authMethod) => DoRegister(w, s, client, uris, authMethod)
    case BeginAuthorization(request, form, origin, fetched, accepted) =>
      DoBegin(w, s, request, form, origin, fetched, accepted)
    case StoreAccount(request) => DoStoreAccount(w, s, request)
    case StoreCode(request, code, readAt) => DoStoreCode(w, s, request, code, readAt)
    case TakeCode(request, c, form, origin) => DoTakeCode(w, s, request, c, form, origin)
    case StoreSession(request, access, refresh, session, readAt) =>
      DoStoreSession(w, s, request, access, refresh, session, readAt)
    case Rotate(c, form, origin, access, refresh, readAt) => DoRotate(w, s, c, form, origin, access, refresh, readAt)
    case BeginSelection(request, apiKey, sandboxId) => DoBeginSelection(w, s, request, apiKey, sandboxId)
    case StoreSelection(request) => DoStoreSelection(s, request)
    case Drop(request) => s.(flights := s.flights - {request})
  }

  function Logged(s: State, e: Event): State {
    s.(log := s.log + [e])
  }

  function Step(w: World, s: State, e: Event): State {
    Logged(Act(w, s, e), e)
  }

  /** Random draws are fresh with respect to the whole history, a handler reads the clock before its statement runs,
      and requests have names of their own. */
  predicate Legal(s: State, e: Event) {
    && (e.BeginAuthorization? || e.TakeCode? || e.BeginSelection? ==> e.request !in s.flights)
    && (e.StoreCode? || e.StoreSession? || e.Rotate? ==> e.readAt <= s.clock)
    && (e.Register? ==> |e.client| == 24 && e.client !in s.drawn)
    && (e.StoreCode? ==> |e.code| == 32 && e.code !in s.drawn)
    && (e.StoreSession? || e.Rotate? ==> |e.access| == |e.refresh| == 32 && e.access != e.refresh)
    && (e.StoreSession? || e.Rotate? ==> e.access !in s.drawn && e.refresh !in s.drawn)
    && (e.StoreSession? ==> |e.session| == 24 && e.session !in s.drawn)
  }

  // --- reading -------------------------------------------------------------------------------------------

  /** The session answers the SELECT of `apiKeyForOAuthAccessToken` for the token. */
  ghost predicate Selected(s: State, token: string, id: string) {
    && id in s.sessions && s.sessions[id].accessHash == Sha256(token) && s.sessions[id].accessExpiresAt > s.clock
    && s.sessions[id].tenant in s.accounts
  }

  /** `apiKeyForOAuthAccessToken` answers the key, through the given session. */
  ghost predicate ResolvesBy(w: World, s: State, token: string, id: string, key: string) {
    && Selected(s, token, id) && w.scopeContainsMcp(s.sessions[id].scope)
    && s.accounts[s.sessions[id].tenant].apiKey == key
  }

  /** The session is the one whose pair the renewal replaces. */
  ghost predicate Rotates(w: World, s: State, e: Event, id: string) {
    && e.Rotate? && WellFormedRenewal(w, s, e.tokenClient, e.renewal, e.origin)
    && id in s.sessions
    && Renewable(s.sessions[id], Sha256(w.trim(e.renewal.refreshToken)),
                 Authenticate(w, s.clients, e.tokenClient).value, s.clock)
  }
}
