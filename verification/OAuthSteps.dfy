/** Every legal event of the OAuth state machine keeps the invariant and takes nothing back. */
module OAuthSteps {
  import opened Wrappers
  import opened GoStrings
  import opened OpaqueTokens
  import opened OAuth
  import opened OAuthInvariant

  /** Only the flights and the log change. */
  ghost predicate FlightsDo(s: State, t: State, e: Event, flights: map<nat, Flight>) {
    && SameGrants(s, t) && t.accounts == s.accounts && t.clients == s.clients && t.drawn == s.drawn
    && t.issued == s.issued
    && t.clock == s.clock && t.flights == flights && t.log == s.log + [e]
  }

  // --- events that leave codes and sessions alone ---------------------------------------------------------

  lemma LaterQuiet(s: State, t: State)
    requires SameGrants(s, t) && s.log <= t.log && s.clock <= t.clock && s.drawn <= t.drawn && s.issued <= t.issued
    requires KeysKept(s.accounts, t.accounts) && Within(s.clients, t.clients)
    ensures Later(s, t)
  {
  }

  lemma Quiet(w: World, s: State, t: State)
    requires Inv(w, s) && Later(s, t) && SameGrants(s, t)
    requires AccountsOk(w, t) && ClientsOk(w, t) && IssuedOk(w, t) && FlightsOk(w, t)
    ensures Inv(w, t)
  {
    GrantsFrame(w, s, t);
  }

  lemma FlightAdded(w: World, s: State, t: State, request: nat, f: Flight)
    requires FlightsOk(w, s) && Later(s, t) && t.origins == s.origins
    requires t.flights == s.flights[request := f] && FlightOk(w, t, f) && !f.CodeTaken?
    ensures FlightsOk(w, t)
  {
    forall r | r in t.flights ensures FlightOk(w, t, t.flights[r]) {
      if r != request {
        FlightStays(w, s, t, s.flights[r]);
      }
    }
  }

  /** An event after which at most some flights are gone. */
  lemma FlightsEnded(w: World, s: State, t: State)
    requires Inv(w, s) && SameGrants(s, t) && s.log <= t.log && s.clock <= t.clock
    requires t.accounts == s.accounts && t.clients == s.clients && t.issued == s.issued && t.drawn == s.drawn
    requires NoNewFlights(s, t)
    ensures Inv(w, t) && Later(s, t)
  {
    LaterQuiet(s, t);
    AccountsFrame(w, s, t);
    FlightsFrame(w, s, t);
    Quiet(w, s, t);
  }

  lemma TickKeeps(w: World, s: State, elapsed: nat)
    requires Inv(w, s)
    ensures var t := Step(w, s, Tick(elapsed)); Inv(w, t) && Later(s, t)
  {
    FlightsEnded(w, s, Step(w, s, Tick(elapsed)));
  }

  lemma DropEffect(w: World, s: State, request: nat)
    ensures FlightsDo(s, Step(w, s, Drop(request)), Drop(request), s.flights - {request})
  {
  }

  lemma DropKeeps(w: World, s: State, request: nat)
    requires Inv(w, s)
    ensures var t := Step(w, s, Drop(request)); Inv(w, t) && Later(s, t)
  {
    DropEffect(w, s, request);
    FlightsEnded(w, s, Step(w, s, Drop(request)));
  }

  /** An event that is refused only lengthens the log. */
  lemma RefusedKeeps(w: World, s: State, e: Event)
    requires Inv(w, s) && Act(w, s, e) == s
    ensures var t := Step(w, s, e); Inv(w, t) && Later(s, t)
  {
    FlightsEnded(w, s, Step(w, s, e));
  }

  lemma Registered(w: World, s: State, t: State, client: Draw, uris: seq<string>)
    requires Inv(w, s) && RegisterDoes(w, s, t, client, uris)
    ensures Inv(w, t) && Later(s, t)
  {
    LaterQuiet(s, t);
    IssuedMore(w, s, t, ClientId, client);
    FlightsFrame(w, s, t);
    Quiet(w, s, t);
  }

  /** What a registration that is not refused does. */
  ghost predicate RegisterDoes(w: World, s: State, t: State, client: Draw, uris: seq<string>) {
    && ValidRedirects(w, uris) && SameGrants(s, t) && s.log <= t.log && s.clock <= t.clock
    && t.drawn == s.drawn + {client} && t.issued == s.issued + {w.mint(ClientId, client)}
    && t.accounts == s.accounts && t.flights == s.flights
    && (t.clients == s.clients
        || (w.mint(ClientId, client) !in s.clients && t.clients == s.clients[w.mint(ClientId, client) := Client(uris)]))
  }

  lemma RegisterEffect(w: World, s: State, e: Event)
    requires e.Register? && Registrable(w, e.uris, e.authMethod)
    ensures RegisterDoes(w, s, Step(w, s, e), e.client, e.uris)
  {
  }

  lemma RegisterRefused(w: World, s: State, e: Event)
    requires e.Register? && !Registrable(w, e.uris, e.authMethod)
    ensures Act(w, s, e) == s
  {
  }

  lemma RegisterKeeps(w: World, s: State, e: Event)
    requires Inv(w, s) && e.Register?
    ensures Inv(w, Step(w, s, e)) && Later(s, Step(w, s, e))
  {
    if Registrable(w, e.uris, e.authMethod) {
      RegisterEffect(w, s, e);
      Registered(w, s, Step(w, s, e), e.client, e.uris);
    } else {
      RegisterRefused(w, s, e);
      RefusedKeeps(w, s, e);
    }
  }

  /** What validation establishes. */
  lemma ValidGrant(w: World, s: State, form: AuthorizationForm, origin: string, fetched: Option<Metadata>)
    requires ClientsOk(w, s) && Validate(w, s, form, origin, fetched).Some?
    ensures var g := Validate(w, s, form, origin, fetched).value;
            && g.redirectUri in g.allowed && ValidRedirects(w, g.allowed)
            && w.scopeAllowed(g.scope) && w.scopeContainsMcp(g.scope)
    ensures var g := Validate(w, s, form, origin, fetched).value;
            if HasPrefix(g.clientId, "https://") then fetched.Some? && fetched.value.redirectUris == g.allowed
            else g.clientId in s.clients && s.clients[g.clientId].redirectUris == g.allowed
  {
  }

  /** The request is accepted: a handler with a grant goes on. */
  ghost predicate Begins(w: World, s: State, e: Event) {
    && e.BeginAuthorization? && e.accepted
    && Validate(w, s, e.form, e.origin, e.fetched).Some?
    && Validate(w, s, e.form, e.origin, e.fetched).value.apiKey != ""
  }

  lemma BeginEffect(w: World, s: State, e: Event)
    requires Begins(w, s, e)
    ensures FlightsDo(s, Step(w, s, e), e,
                      s.flights[e.request := KeyEntered(Validate(w, s, e.form, e.origin, e.fetched).value)])
  {
  }

  lemma GrantBegun(w: World, s: State, t: State, e: Event)
    requires ClientsOk(w, s) && Begins(w, s, e)
    requires t.log == s.log + [e] && t.clients == s.clients
    ensures GrantOk(w, t, Validate(w, s, e.form, e.origin, e.fetched).value)
  {
    ValidGrant(w, s, e.form, e.origin, e.fetched);
    assert t.log[|s.log|] == e;
  }

  lemma FlightStarted(w: World, s: State, t: State, e: Event, request: nat, f: Flight)
    requires Inv(w, s) && FlightsDo(s, t, e, s.flights[request := f]) && FlightOk(w, t, f) && !f.CodeTaken?
    ensures Inv(w, t) && Later(s, t)
  {
    LaterQuiet(s, t);
    FlightAdded(w, s, t, request, f);
    AccountsFrame(w, s, t);
    Quiet(w, s, t);
  }

  lemma BeginKeeps(w: World, s: State, e: Event)
    requires Inv(w, s) && e.BeginAuthorization?
    ensures Inv(w, Step(w, s, e)) && Later(s, Step(w, s, e))
  {
    if Begins(w, s, e) {
      BeginEffect(w, s, e);
      GrantBegun(w, s, Step(w, s, e), e);
      FlightStarted(w, s, Step(w, s, e), e, e.request, KeyEntered(Validate(w, s, e.form, e.origin, e.fetched).value));
    } else {
      RefusedKeeps(w, s, e);
    }
  }

  /** An upsert adds the account of the trimmed key when it is missing, and never changes the key or the selection of
      an account. */
  lemma UpsertKeeps(w: World, accounts: map<Digest, Account>, apiKey: string)
    requires TrimIdempotent(w) && forall d :: d in accounts ==> AccountOk(w, d, accounts[d])
    ensures var after := Upsert(w, accounts, apiKey);
            && KeysKept(accounts, after)
            && (forall d :: d in after ==> AccountOk(w, d, after[d]))
            && Tenant(w, apiKey) in after && Tenant(w, w.trim(apiKey)) == Tenant(w, apiKey)
    ensures var after := Upsert(w, accounts, apiKey);
            && after.Keys == accounts.Keys + {Sha256(w.trim(apiKey))}
            && after[Sha256(w.trim(apiKey))].apiKey == w.trim(apiKey)
            && (forall d :: d in accounts ==> after[d].primary == accounts[d].primary)
            && (Sha256(w.trim(apiKey)) !in accounts ==> after[Sha256(w.trim(apiKey))].primary == None)
  {
  }

  /** An upsert for some request, whose flight goes on. */
  ghost predicate UpsertDoes(w: World, s: State, t: State, apiKey: string, request: nat, f: Flight) {
    && SameGrants(s, t) && s.log <= t.log && s.clock == t.clock
    && t.accounts == Upsert(w, s.accounts, apiKey) && t.clients == s.clients
    && t.drawn == s.drawn && t.issued == s.issued && t.flights == s.flights[request := f]
  }

  lemma UpsertLater(w: World, s: State, t: State, apiKey: string, request: nat, f: Flight)
    requires TrimIdempotent(w) && AccountsOk(w, s) && UpsertDoes(w, s, t, apiKey, request, f)
    ensures Later(s, t) && AccountsOk(w, t)
    ensures Tenant(w, apiKey) in t.accounts && Tenant(w, w.trim(apiKey)) == Tenant(w, apiKey)
  {
    UpsertKeeps(w, s.accounts, apiKey);
    LaterQuiet(s, t);
  }

  lemma Upserted(w: World, s: State, t: State, apiKey: string, request: nat, f: Flight)
    requires Inv(w, s) && UpsertDoes(w, s, t, apiKey, request, f) && Later(s, t) && AccountsOk(w, t)
    requires FlightOk(w, t, f) && !f.CodeTaken?
    ensures Inv(w, t)
  {
    FlightAdded(w, s, t, request, f);
    Quiet(w, s, t);
  }

  lemma StoreAccountEffect(w: World, s: State, request: nat)
    requires request in s.flights && s.flights[request].KeyEntered?
    ensures var g := s.flights[request].grant;
            UpsertDoes(w, s, Step(w, s, StoreAccount(request)), g.apiKey, request, AccountStored(g))
  {
  }

  lemma StoreAccountKeeps(w: World, s: State, request: nat)
    requires Proper(w) && Inv(w, s) && request in s.flights && s.flights[request].KeyEntered?
    ensures var t := Step(w, s, StoreAccount(request)); Inv(w, t) && Later(s, t)
  {
    var t := Step(w, s, StoreAccount(request));
    var g := s.flights[request].grant;
    StoreAccountEffect(w, s, request);
    UpsertLater(w, s, t, g.apiKey, request, AccountStored(g));
    assert FlightOk(w, s, s.flights[request]);
    GrantStays(w, s, t, g);
    Upserted(w, s, t, g.apiKey, request, AccountStored(g));
  }

  lemma BeginSelectionEffect(w: World, s: State, e: Event)
    requires e.BeginSelection?
    ensures UpsertDoes(w, s, Step(w, s, e), e.apiKey, e.request,
                       SelectionPending(Tenant(w, w.trim(e.apiKey)), w.trim(e.sandboxId)))
  {
  }

  lemma BeginSelectionKeeps(w: World, s: State, e: Event)
    requires Proper(w) && Inv(w, s) && e.BeginSelection?
    ensures Inv(w, Step(w, s, e)) && Later(s, Step(w, s, e))
  {
    var f := SelectionPending(Tenant(w, w.trim(e.apiKey)), w.trim(e.sandboxId));
    BeginSelectionEffect(w, s, e);
    UpsertLater(w, s, Step(w, s, e), e.apiKey, e.request, f);
    Upserted(w, s, Step(w, s, e), e.apiKey, e.request, f);
  }

  ghost predicate SelectionDoes(w: World, s: State, t: State) {
    && SameGrants(s, t) && s.log <= t.log && s.clock == t.clock && t.clients == s.clients
    && t.drawn == s.drawn && t.issued == s.issued && NoNewFlights(s, t)
    && KeysKept(s.accounts, t.accounts) && AccountsOk(w, t)
  }

  lemma StoreSelectionEffect(w: World, s: State, e: Event)
    requires AccountsOk(w, s) && e.StoreSelection? && e.request in s.flights && s.flights[e.request].SelectionPending?
    ensures SelectionDoes(w, s, Step(w, s, e))
  {
  }

  lemma SelectionStored(w: World, s: State, t: State)
    requires Inv(w, s) && SelectionDoes(w, s, t)
    ensures Inv(w, t) && Later(s, t)
  {
    LaterQuiet(s, t);
    FlightsFrame(w, s, t);
    Quiet(w, s, t);
  }

  lemma StoreSelectionKeeps(w: World, s: State, e: Event)
    requires Inv(w, s) && e.StoreSelection? && e.request in s.flights && s.flights[e.request].SelectionPending?
    ensures Inv(w, Step(w, s, e)) && Later(s, Step(w, s, e))
  {
    StoreSelectionEffect(w, s, e);
    SelectionStored(w, s, Step(w, s, e));
  }

  // --- storing a code -----------------------------------------------------------------------------------

  /** The code that the INSERT stores is new, and its account exists: no constraint fails. */
  lemma CodeIsNew(w: World, s: State, request: nat, code: Draw)
    requires Proper(w) && Inv(w, s) && code !in s.drawn
    requires request in s.flights && s.flights[request].AccountStored?
    ensures var d := Sha256(w.mint(AuthorizationCode, code));
            && d !in s.codes && d !in s.granted && d !in s.taken
            && Tenant(w, s.flights[request].grant.apiKey) in s.accounts
  {
  }

  ghost predicate StoreCodeDoes(w: World, s: State, t: State, e: Event, d: Digest, i: Issue)
    requires e.StoreCode?
  {
    && t.accounts == s.accounts && t.clients == s.clients && t.log == s.log + [e] && t.clock == s.clock
    && t.drawn == s.drawn + {e.code} && t.issued == s.issued + {w.mint(AuthorizationCode, e.code)}
    && t.codes == s.codes[d := Row(w, i.grant, i.expiresAt)] && t.granted == s.granted[d := i] && t.taken == s.taken
    && t.sessions == s.sessions && t.origins == s.origins
    && t.retiredAccess == s.retiredAccess && t.retiredRefresh == s.retiredRefresh
    && t.flights == s.flights - {e.request}
  }

  lemma StoreCodeEffect(w: World, s: State, e: Event)
    requires e.StoreCode? && e.request in s.flights && s.flights[e.request].AccountStored?
    requires Sha256(w.mint(AuthorizationCode, e.code)) !in s.codes
    requires Tenant(w, s.flights[e.request].grant.apiKey) in s.accounts
    ensures StoreCodeDoes(w, s, Step(w, s, e), e, Sha256(w.mint(AuthorizationCode, e.code)),
                          Issue(s.flights[e.request].grant, e.readAt + CODE_TTL, |s.log|))
  {
  }

  lemma GrantedMore(w: World, s: State, t: State, d: Digest, i: Issue)
    requires GrantedOk(w, s) && Later(s, t) && t.granted == s.granted[d := i] && IssueOk(w, t, d, i)
    ensures GrantedOk(w, t)
  {
    forall c | c in t.granted ensures IssueOk(w, t, c, t.granted[c]) {
      if c != d {
        IssueStays(w, s, t, c, s.granted[c]);
      }
    }
  }

  lemma StoreCodeLater(w: World, s: State, t: State, e: Event, d: Digest, i: Issue)
    requires e.StoreCode? && StoreCodeDoes(w, s, t, e, d, i) && d !in s.granted
    ensures Later(s, t)
  {
  }

  lemma CodesMore(w: World, s: State, t: State, d: Digest, i: Issue)
    requires CodesOk(w, s) && d !in s.granted && d !in s.taken
    requires t.codes == s.codes[d := Row(w, i.grant, i.expiresAt)] && t.granted == s.granted[d := i]
    requires t.taken == s.taken
    ensures CodesOk(w, t)
  {
  }

  lemma NewIssue(w: World, s: State, t: State, e: Event, d: Digest, i: Issue)
    requires e.StoreCode? && StoreCodeDoes(w, s, t, e, d, i) && Later(s, t)
    requires GrantOk(w, s, i.grant) && Tenant(w, i.grant.apiKey) in s.accounts
    requires d == Sha256(w.mint(AuthorizationCode, e.code)) && i.expiresAt == e.readAt + CODE_TTL && i.stored == |s.log|
    ensures IssueOk(w, t, d, i)
  {
  }

  lemma SessionsQuiet(w: World, s: State, t: State)
    requires TakenOk(w, s) && OriginsOk(w, s) && SessionsOk(w, s) && TokensOk(s) && FlightsOk(w, s) && Later(s, t)
    requires t.taken == s.taken && t.sessions == s.sessions && t.origins == s.origins
    requires t.retiredAccess == s.retiredAccess && t.retiredRefresh == s.retiredRefresh && NoNewFlights(s, t)
    ensures TakenOk(w, t) && OriginsOk(w, t) && SessionsOk(w, t) && TokensOk(t) && FlightsOk(w, t)
  {
    TakenFrame(w, s, t);
    OriginsFrame(w, s, t);
    SessionsFrame(w, s, t);
    TokensFrame(s, t);
    FlightsFrame(w, s, t);
  }

  lemma AccountsSame(w: World, s: State, t: State)
    requires AccountsOk(w, s) && ClientsOk(w, s) && t.accounts == s.accounts && t.clients == s.clients
    requires s.issued <= t.issued
    ensures AccountsOk(w, t) && ClientsOk(w, t)
  {
  }

  lemma CodeStored(w: World, s: State, t: State, e: Event, d: Digest, i: Issue)
    requires Inv(w, s) && Later(s, t) && IssueOk(w, t, d, i) && d !in s.granted && d !in s.taken
    requires e.StoreCode? && StoreCodeDoes(w, s, t, e, d, i)
    ensures Inv(w, t)
  {
    AccountsSame(w, s, t);
    IssuedMore(w, s, t, AuthorizationCode, e.code);
    GrantedMore(w, s, t, d, i);
    CodesMore(w, s, t, d, i);
    SessionsQuiet(w, s, t);
  }

  lemma CodeGranted(w: World, s: State, t: State, e: Event, d: Digest, i: Issue)
    requires Inv(w, s) && e.StoreCode? && StoreCodeDoes(w, s, t, e, d, i)
    requires d == Sha256(w.mint(AuthorizationCode, e.code)) && d !in s.granted && d !in s.taken
    requires GrantOk(w, s, i.grant) && Tenant(w, i.grant.apiKey) in s.accounts
    requires i.expiresAt == e.readAt + CODE_TTL && i.stored == |s.log|
    ensures Inv(w, t) && Later(s, t)
  {
    StoreCodeLater(w, s, t, e, d, i);
    NewIssue(w, s, t, e, d, i);
    CodeStored(w, s, t, e, d, i);
  }

  lemma StoreCodeKeeps(w: World, s: State, e: Event)
    requires Proper(w) && Inv(w, s) && Legal(s, e)
    requires e.StoreCode? && e.request in s.flights && s.flights[e.request].AccountStored?
    ensures Inv(w, Step(w, s, e)) && Later(s, Step(w, s, e))
  {
    CodeIsNew(w, s, e.request, e.code);
    StoreCodeEffect(w, s, e);
    assert FlightOk(w, s, s.flights[e.request]);
    CodeGranted(w, s, Step(w, s, e), e, Sha256(w.mint(AuthorizationCode, e.code)),
                Issue(s.flights[e.request].grant, e.readAt + CODE_TTL, |s.log|));
  }

  // --- taking a code ------------------------------------------------------------------------------------

  /** The guard of the DELETE implies every check made after it. */
  lemma RechecksHold(w: World, s: State, c: TokenClient, form: ExchangeForm, origin: string)
    requires Takes(w, s, c, form, origin)
    ensures Rechecked(s.codes[Sha256(w.trim(form.code))], Authenticate(w, s.clients, c).value, w.trim(form.redirectUri),
                      w.s256(w.trim(form.verifier)), w.trim(form.resource))
  {
  }

  /** The exchange in the event deletes the code `d`. */
  ghost predicate TakesCode(w: World, s: State, e: Event, d: Digest) {
    e.TakeCode? && Takes(w, s, e.tokenClient, e.exchange, e.origin) && d == Sha256(w.trim(e.exchange.code))
  }

  ghost predicate TakeDoes(s: State, t: State, e: Event, d: Digest, row: Code)
    requires e.TakeCode?
  {
    && t.accounts == s.accounts && t.clients == s.clients && t.log == s.log + [e] && t.clock == s.clock
    && t.drawn == s.drawn && t.issued == s.issued && t.granted == s.granted
    && t.codes == s.codes - {d} && t.taken == s.taken[d := |s.log|]
    && t.sessions == s.sessions && t.origins == s.origins
    && t.retiredAccess == s.retiredAccess && t.retiredRefresh == s.retiredRefresh
    && t.flights == s.flights[e.request := CodeTaken(d, row.tenant, row.clientId, row.scope)]
  }

  lemma TakeEffect(w: World, s: State, e: Event, d: Digest)
    requires TakesCode(w, s, e, d)
    ensures TakeDoes(s, Step(w, s, e), e, d, s.codes[d])
  {
  }

  lemma TakeLater(w: World, s: State, t: State, e: Event, d: Digest, row: Code)
    requires e.TakeCode? && TakeDoes(s, t, e, d, row) && d !in s.taken
    ensures Later(s, t)
  {
  }

  lemma TakenMore(w: World, s: State, t: State, d: Digest, at: nat)
    requires TakenOk(w, s) && Later(s, t) && t.taken == s.taken[d := at] && TakeOk(w, t, d, at)
    ensures TakenOk(w, t)
  {
  }

  lemma TakenCodeUnspent(w: World, s: State, d: Digest)
    requires OriginsOk(w, s) && d !in s.taken
    ensures Unspent(s, d)
  {
  }

  lemma NewTake(w: World, s: State, t: State, e: Event, d: Digest)
    requires TakesCode(w, s, e, d) && d in s.granted && IssueOk(w, s, d, s.granted[d])
    requires s.codes[d] == Row(w, s.granted[d].grant, s.granted[d].expiresAt)
    requires t.log == s.log + [e] && t.granted == s.granted
    ensures TakeOk(w, t, d, |s.log|)
  {
  }

  lemma TakeFlights(w: World, s: State, t: State, e: Event, d: Digest, row: Code)
    requires FlightsOk(w, s) && Later(s, t) && e.TakeCode? && TakeDoes(s, t, e, d, row) && d !in s.taken
    requires FlightOk(w, t, CodeTaken(d, row.tenant, row.clientId, row.scope))
    ensures FlightsOk(w, t)
  {
    forall r | r in t.flights ensures FlightOk(w, t, t.flights[r]) {
      if r != e.request {
        FlightStays(w, s, t, s.flights[r]);
      }
    }
    forall r | r in s.flights && s.flights[r].CodeTaken? ensures s.flights[r].code != d {
      assert FlightOk(w, s, s.flights[r]);
    }
  }

  lemma CodesLess(w: World, s: State, t: State, d: Digest, at: nat)
    requires CodesOk(w, s) && t.codes == s.codes - {d} && t.taken == s.taken[d := at] && t.granted == s.granted
    ensures CodesOk(w, t)
  {
  }

  lemma CodeIsTaken(w: World, s: State, t: State, e: Event, d: Digest, row: Code)
    requires Inv(w, s) && Later(s, t) && d !in s.taken && TakeOk(w, t, d, |s.log|)
    requires e.TakeCode? && TakeDoes(s, t, e, d, row)
    requires FlightOk(w, t, CodeTaken(d, row.tenant, row.clientId, row.scope))
    ensures Inv(w, t)
  {
    AccountsFrame(w, s, t);
    GrantedFrame(w, s, t);
    CodesLess(w, s, t, d, |s.log|);
    TakenMore(w, s, t, d, |s.log|);
    OriginsFrame(w, s, t);
    SessionsFrame(w, s, t);
    TokensFrame(s, t);
    TakeFlights(w, s, t, e, d, row);
  }

  lemma TakeKeeps(w: World, s: State, e: Event, d: Digest)
    requires Inv(w, s) && TakesCode(w, s, e, d)
    ensures Inv(w, Step(w, s, e)) && Later(s, Step(w, s, e))
  {
    var t := Step(w, s, e);
    TakeEffect(w, s, e, d);
    TakeLater(w, s, t, e, d, s.codes[d]);
    TakenCodeUnspent(w, s, d);
    assert IssueOk(w, s, d, s.granted[d]);
    NewTake(w, s, t, e, d);
    CodeIsTaken(w, s, t, e, d, s.codes[d]);
  }
}
