/** The handlers of `oauth_authorize.go`, `oauth_token.go`, `oauth_metadata.go` and `db.go` in the form of the Go code:
    they insert, update and delete rows, and other requests run between their statements. */
module OAuthService {
  import opened Wrappers
  import opened OpaqueTokens
  import opened OAuth
  import opened OAuthInvariant
  import opened OAuthSteps
  import opened OAuthSessions
  import opened OAuthRuns
  import opened OAuthCodes
  import opened OAuthRules

  datatype TokenResponse = TokenResponse(accessToken: string, refreshToken: string, scope: string)

  datatype OAuthError =
    | InvalidClient
    | InvalidRequest
    | InvalidGrant
    | InvalidTarget
    | InvalidClientMetadata
    | InvalidAccessToken
    | ServerError

  function Exec(w: World, s: State, events: seq<Event>): State {
    if events == [] then s else Step(w, Exec(w, s, events[..|events| - 1]), events[|events| - 1])
  }

  ghost predicate LegalRun(w: World, s: State, events: seq<Event>) {
    events == []
    || (LegalRun(w, s, events[..|events| - 1]) && Legal(Exec(w, s, events[..|events| - 1]), events[|events| - 1]))
  }

  /** The states before, between and after the events. */
  ghost function StatesOf(w: World, s: State, events: seq<Event>): (states: seq<State>)
    ensures |states| == |events| + 1 && states[|events|] == Exec(w, s, events)
  {
    if events == [] then [s] else StatesOf(w, s, events[..|events| - 1]) + [Exec(w, s, events)]
  }

  lemma {:induction false} StatesFollow(w: World, s: State, events: seq<Event>)
    requires LegalRun(w, s, events)
    ensures Follows(Next(w), events, StatesOf(w, s, events), |events|) && StatesOf(w, s, events)[0] == s
  {
    if events != [] {
      var n := |events| - 1;
      StatesFollow(w, s, events[..n]);
      FollowsMore(Next(w), events[..n], StatesOf(w, s, events[..n]), events[n], Exec(w, s, events), n);
      assert events[..n] + [events[n]] == events;
    }
  }

  lemma {:induction false} FollowsMore(next: (State, Event, State) -> bool, events: seq<Event>, states: seq<State>,
                                       e: Event, t: State, n: nat)
    requires |states| == |events| + 1 && n <= |events| && Follows(next, events, states, n)
    ensures Follows(next, events + [e], states + [t], n)
  {
    if n > 0 {
      FollowsMore(next, events, states, e, t, n - 1);
    }
  }

  /** Whatever state legal events lead to from empty tables is the last state of a run, so that what is proved of runs
      holds of the service. */
  lemma LegalRunsAreRuns(w: World, clock: int, events: seq<Event>)
    requires Proper(w) && LegalRun(w, Initial(clock), events)
    ensures var states := StatesOf(w, Initial(clock), events);
            Run(w, events, states) && states[|events|] == Exec(w, Initial(clock), events)
  {
    StatesFollow(w, Initial(clock), events);
  }

  /** The event belongs to the handler of the request. */
  predicate Of(e: Event, request: nat) {
    match e
    case BeginAuthorization(r, _, _, _, _) => r == request
    case StoreAccount(r) => r == request
    case StoreCode(r, _, _) => r == request
    case TakeCode(r, _, _, _) => r == request
    case StoreSession(r, _, _, _, _) => r == request
    case BeginSelection(r, _, _) => r == request
    case StoreSelection(r) => r == request
    case Drop(r) => r == request
    case _ => false
  }

  /** Legal events of other requests. */
  ghost predicate Elsewhere(w: World, s: State, request: nat, events: seq<Event>) {
    LegalRun(w, s, events) && forall i :: 0 <= i < |events| ==> !Of(events[i], request)
  }

  lemma FlightStep(w: World, s: State, request: nat, e: Event)
    requires request in s.flights && !Of(e, request)
    ensures request in Step(w, s, e).flights && Step(w, s, e).flights[request] == s.flights[request]
  {
  }

  lemma {:induction false} FlightKept(w: World, s: State, request: nat, events: seq<Event>)
    requires request in s.flights && forall i :: 0 <= i < |events| ==> !Of(events[i], request)
    ensures request in Exec(w, s, events).flights && Exec(w, s, events).flights[request] == s.flights[request]
  {
    if events != [] {
      var n := |events| - 1;
      FlightKept(w, s, request, events[..n]);
      FlightStep(w, Exec(w, s, events[..n]), request, events[n]);
    }
  }

  lemma {:induction false} InvExec(w: World, s: State, events: seq<Event>)
    requires Proper(w) && Inv(w, s) && LegalRun(w, s, events)
    ensures Inv(w, Exec(w, s, events))
  {
    if events != [] {
      var n := |events| - 1;
      InvExec(w, s, events[..n]);
      InvStep(w, Exec(w, s, events[..n]), events[n]);
    }
  }

  lemma AfterOthers(w: World, s: State, request: nat, others: seq<Event>)
    requires Proper(w) && Inv(w, s) && request in s.flights && Elsewhere(w, s, request, others)
    ensures var t := Exec(w, s, others);
            Inv(w, t) && request in t.flights && t.flights[request] == s.flights[request]
  {
    FlightKept(w, s, request, others);
    InvExec(w, s, others);
  }

  /** What an event does to the codes and the sessions; the other tables stay. */
  ghost predicate Writes(s: State, t: State, codes: map<Digest, Code>, sessions: map<string, Session>) {
    && t.accounts == s.accounts && t.clients == s.clients && t.clock == s.clock
    && t.codes == codes && t.sessions == sessions
  }

  lemma ExchangeWrites(w: World, s: State, e: Event, d: Digest)
    requires e.TakeCode? && d == Sha256(w.trim(e.exchange.code))
    ensures !Takes(w, s, e.tokenClient, e.exchange, e.origin) ==> Writes(s, Step(w, s, e), s.codes, s.sessions)
    ensures Takes(w, s, e.tokenClient, e.exchange, e.origin) ==>
              && Writes(s, Step(w, s, e), s.codes - {d}, s.sessions) && d in s.codes
              && Step(w, s, e).flights == s.flights[e.request :=
                   CodeTaken(d, s.codes[d].tenant, s.codes[d].clientId, s.codes[d].scope)]
  {
  }

  /** The constraints on a new session row. */
  ghost predicate Admits(accounts: map<Digest, Account>, sessions: map<string, Session>, id: string, row: Session) {
    id !in sessions && row.tenant in accounts && Unique(sessions[id := row])
  }

  lemma InsertWrites(w: World, s: State, e: Event)
    requires e.StoreSession? && e.request in s.flights && s.flights[e.request].CodeTaken?
    ensures var id, row := w.mint(SessionId, e.session), SessionRow(w, s.flights[e.request], e);
            Writes(s, Step(w, s, e), s.codes,
                   if Admits(s.accounts, s.sessions, id, row) then s.sessions[id := row] else s.sessions)
  {
  }

  lemma InsertAdmitted(w: World, s: State, e: Event, d: Digest)
    requires Proper(w) && Inv(w, s) && Stores(s, e, d)
    ensures Admits(s.accounts, s.sessions, w.mint(SessionId, e.session), SessionRow(w, s.flights[e.request], e))
  {
    SessionIsNew(w, s, e, d);
  }

  lemma RenewalWrites(w: World, s: State, e: Event)
    requires e.Rotate?
    ensures !WellFormedRenewal(w, s, e.tokenClient, e.renewal, e.origin)
            ==> Writes(s, Step(w, s, e), s.codes, s.sessions)
    ensures WellFormedRenewal(w, s, e.tokenClient, e.renewal, e.origin) ==>
              var after := RotateUpdate(w, s, e, Authenticate(w, s.clients, e.tokenClient).value);
              Writes(s, Step(w, s, e), s.codes, if Unique(after) then after else s.sessions)
  {
  }

  /** A renewal breaks no UNIQUE constraint. */
  lemma RenewalAdmitted(w: World, s: State, e: Event)
    requires MintInjective(w) && IssuedOk(w, s) && SessionsOk(w, s) && TokensOk(s)
    requires e.Rotate? && e.access !in s.drawn && e.refresh !in s.drawn
    requires WellFormedRenewal(w, s, e.tokenClient, e.renewal, e.origin)
    ensures Unique(RotateUpdate(w, s, e, Authenticate(w, s.clients, e.tokenClient).value))
  {
    var clientId := Authenticate(w, s.clients, e.tokenClient).value;
    if id :| id in s.sessions && Renewable(s.sessions[id], WantedHash(w, e), clientId, s.clock) {
      RotateOneUpdate(w, s, e, id, clientId);
    } else {
      UpdatedNone(s.sessions, WantedHash(w, e), clientId, s.clock,
                  w.mint(AccessToken, e.access), w.mint(RefreshToken, e.refresh), e.readAt);
    }
  }

  lemma AuthorizationRefused(w: World, s: State, e: Event)
    requires e.BeginAuthorization? && !Begins(w, s, e)
    ensures Act(w, s, e) == s
  {
  }

  lemma AuthorizationWrites(w: World, s: State, e: Event)
    requires e.BeginAuthorization?
    ensures Writes(s, Step(w, s, e), s.codes, s.sessions)
    ensures Step(w, s, e).flights ==
            if Begins(w, s, e)
            then s.flights[e.request := KeyEntered(Validate(w, s, e.form, e.origin, e.fetched).value)]
            else s.flights
  {
    if Begins(w, s, e) {
      BeginEffect(w, s, e);
    } else {
      AuthorizationRefused(w, s, e);
    }
  }

  lemma AccountWrites(w: World, s: State, request: nat)
    requires request in s.flights && s.flights[request].KeyEntered?
    ensures var t, g := Step(w, s, StoreAccount(request)), s.flights[request].grant;
            && t.clients == s.clients && t.codes == s.codes && t.sessions == s.sessions && t.clock == s.clock
            && t.accounts == Upsert(w, s.accounts, g.apiKey) && t.flights == s.flights[request := AccountStored(g)]
  {
  }

  lemma CodeWrites(w: World, s: State, request: nat, code: Draw, readAt: int)
    requires request in s.flights && s.flights[request].AccountStored?
    ensures var d, row := Sha256(w.mint(AuthorizationCode, code)), Row(w, s.flights[request].grant, readAt + CODE_TTL);
            Writes(s, Step(w, s, StoreCode(request, code, readAt)),
                   if d !in s.codes && row.tenant in s.accounts then s.codes[d := row] else s.codes, s.sessions)
  {
  }

  lemma SelectionWrites(w: World, s: State, e: Event)
    requires e.BeginSelection?
    ensures var t := Step(w, s, e);
            && t.clients == s.clients && t.codes == s.codes && t.sessions == s.sessions && t.clock == s.clock
            && t.accounts == Upsert(w, s.accounts, e.apiKey)
            && t.flights == s.flights[e.request := SelectionPending(Tenant(w, w.trim(e.apiKey)), w.trim(e.sandboxId))]
  {
  }

  lemma PrimaryWrites(w: World, s: State, request: nat)
    requires request in s.flights && s.flights[request].SelectionPending?
    ensures var t, f := Step(w, s, StoreSelection(request)), s.flights[request];
            && t.clients == s.clients && t.codes == s.codes && t.sessions == s.sessions && t.clock == s.clock
            && t.accounts == if f.tenant in s.accounts
                             then s.accounts[f.tenant := Account(s.accounts[f.tenant].apiKey, Some(f.sandboxId))]
                             else s.accounts
  {
  }

  lemma DropWrites(w: World, s: State, request: nat)
    ensures Writes(s, Step(w, s, Drop(request)), s.codes, s.sessions)
  {
    DropEffect(w, s, request);
  }

  lemma DropOutcome(w: World, s: State, request: nat)
    requires Inv(w, s) && request in s.flights
    ensures Inv(w, Step(w, s, Drop(request))) && Writes(s, Step(w, s, Drop(request)), s.codes, s.sessions)
    ensures s.flights[request].CodeTaken? ==> Burned(Step(w, s, Drop(request)), s.flights[request].code)
  {
    DropKeeps(w, s, request);
    DropWrites(w, s, request);
    if s.flights[request].CodeTaken? {
      DropBurnsIn(w, s, request);
    }
  }

  lemma InvNext(w: World, s: State, e: Event)
    requires Proper(w) && Inv(w, s) && Legal(s, e)
    ensures Inv(w, Step(w, s, e))
  {
    InvStep(w, s, e);
  }

  /** The database. The fields are the tables and the clock; `model` is the state of the state machine, history
      included, which every method advances by the events it makes and `Valid` ties to the tables. */
  class Service {
    const w: World
    var accounts: map<Digest, Account>
    var clients: map<string, Client>
    var codes: map<Digest, Code>
    var sessions: map<string, Session>
    var clock: int
    var model: State

    /** The tables are those of the given state. */
    ghost predicate Tables(s: State)
      reads this
    {
      accounts == s.accounts && clients == s.clients && codes == s.codes && sessions == s.sessions && clock == s.clock
    }

    ghost predicate Valid()
      reads this
    {
      Tables(model)
    }

    /** The service before its first request. */
    constructor (w: World, clock: int)
      ensures Valid() && this.w == w && model == Initial(clock) && Inv(w, model)
    {
      this.w, this.clock, this.model := w, clock, Initial(clock);
      accounts, clients, codes, sessions := map[], map[], map[], map[];
      InitialInv(w, clock);
    }

    method Become(s: State)
      modifies this
      ensures model == s && Valid()
    {
      model := s;
      accounts, clients, codes, sessions, clock := s.accounts, s.clients, s.codes, s.sessions, s.clock;
    }

    /** Other requests run while this one is between two statements. */
    method Pause(request: nat, others: seq<Event>)
      requires Proper(w) && Inv(w, model) && request in model.flights && Elsewhere(w, model, request, others)
      modifies this
      ensures Valid() && model == Exec(w, old(model), others) && Inv(w, model)
      ensures request in model.flights && model.flights[request] == old(model).flights[request]
    {
      AfterOthers(w, model, request, others);
      Become(Exec(w, model, others));
    }

    /** `OAuthRegister`: a list with an unsupported address, or another way to authenticate, is refused. */
    method OAuthRegister(client: Draw, uris: seq<string>, authMethod: string) returns (r: Result<string, OAuthError>)
      requires Valid()
      modifies this
      ensures Valid() && model == Step(w, old(model), Register(client, uris, authMethod))
      ensures r.Ok? <==> && (authMethod == "" || authMethod == "none") && uris != []
                         && (forall uri :: uri in uris ==> w.validRedirect(uri))
                         && w.mint(ClientId, client) !in old(clients)
      ensures r.Ok? ==> r.value == w.mint(ClientId, client) && clients == old(clients)[r.value := Client(uris)]
      ensures r.Err? ==> clients == old(clients)
    {
      model := Step(w, model, Register(client, uris, authMethod));
      if authMethod != "" && authMethod != "none" {
        return Err(InvalidClientMetadata);
      }
      if !ValidRedirects(w, uris) {
        return Err(InvalidClientMetadata);
      }
      var id := w.mint(ClientId, client);
      if id in clients {
        return Err(ServerError);
      }
      clients := clients[id := Client(uris)];
      return Ok(id);
    }

    // --- exchanging a code ------------------------------------------------------------------------------

    /** The checks of `exchangeAuthorizationCode` before the DELETE. */
    method CheckExchange(c: TokenClient, form: ExchangeForm, origin: string) returns (r: Result<string, OAuthError>)
      ensures r.Ok? <==> && Authenticate(w, clients, c).Some? && Authenticate(w, clients, c).value != ""
                         && WellFormedExchange(w, form, origin)
      ensures r.Ok? ==> Authenticate(w, clients, c) == Some(r.value)
      ensures r.Err? ==>
                r.error == if Authenticate(w, clients, c).None? then InvalidClient
                           else if "" in {w.trim(form.code), w.trim(form.redirectUri), w.trim(form.verifier)}
                                   || Authenticate(w, clients, c).value == "" then InvalidRequest
                           else if 43 <= |w.trim(form.verifier)| <= 128 then InvalidTarget else InvalidGrant
    {
      var who := Authenticate(w, clients, c);
      if who.None? {
        return Err(InvalidClient);
      }
      var verifier := w.trim(form.verifier);
      if w.trim(form.code) == "" || who.value == "" || w.trim(form.redirectUri) == "" || verifier == "" {
        return Err(InvalidRequest);
      }
      if |verifier| < 43 || |verifier| > 128 {
        return Err(InvalidGrant);
      }
      if !ValidResource(origin, w.trim(form.resource)) {
        return Err(InvalidTarget);
      }
      return Ok(who.value);
    }

    /** The DELETE ... RETURNING. */
    method DeleteCode(code: Digest, clientId: string, redirectUri: string, challenge: string, resource: string)
      returns (row: Option<Code>)
      modifies `codes
      ensures row == (if && code in old(codes)
                         && Redeemable(old(codes)[code], clientId, redirectUri, challenge, resource, clock)
                      then Some(old(codes)[code]) else None)
      ensures codes == if row.Some? then old(codes) - {code} else old(codes)
    {
      row := None;
      if code in codes && Redeemable(codes[code], clientId, redirectUri, challenge, resource, clock) {
        row := Some(codes[code]);
        codes := codes - {code};
      }
    }

    /** The DELETE and the checks made again on the row that it returned, which never fail. */
    method DeleteAndRecheck(code: Digest, clientId: string, redirectUri: string, challenge: string, resource: string)
      returns (r: Result<Code, OAuthError>)
      modifies `codes
      ensures r.Ok?
              <==> code in old(codes) && Redeemable(old(codes)[code], clientId, redirectUri, challenge, resource, clock)
      ensures r.Ok? ==> r.value == old(codes)[code] && codes == old(codes) - {code}
      ensures r.Err? ==> r.error == InvalidGrant && codes == old(codes)
    {
      var row := DeleteCode(code, clientId, redirectUri, challenge, resource);
      if row.None? {
        return Err(InvalidGrant);
      }
      if clientId != row.value.clientId || redirectUri != row.value.redirectUri || challenge != row.value.challenge {
        return Err(InvalidGrant);
      }
      if row.value.resource != "" && resource != "" && resource != row.value.resource {
        return Err(InvalidTarget);
      }
      return Ok(row.value);
    }

    method TakeRow(c: TokenClient, form: ExchangeForm, origin: string, ghost s: State)
      returns (r: Result<Code, OAuthError>)
      requires Tables(s)
      modifies `codes
      ensures r.Ok? <==> Takes(w, s, c, form, origin)
      ensures r.Ok? ==> Sha256(w.trim(form.code)) in s.codes && r.value == s.codes[Sha256(w.trim(form.code))]
      ensures codes == if r.Ok? then s.codes - {Sha256(w.trim(form.code))} else s.codes
    {
      var who := CheckExchange(c, form, origin);
      if who.Err? {
        return Err(who.error);
      }
      r := DeleteAndRecheck(Sha256(w.trim(form.code)), who.value, w.trim(form.redirectUri),
                            w.s256(w.trim(form.verifier)), w.trim(form.resource));
    }

    /** `exchangeAuthorizationCode` up to there, as the event it is. */
    method TakeAuthorizationCode(request: nat, c: TokenClient, form: ExchangeForm, origin: string)
      returns (r: Result<Code, OAuthError>)
      requires Valid()
      modifies this
      ensures Valid() && model == Step(w, old(model), TakeCode(request, c, form, origin))
      ensures r.Ok? <==> Takes(w, old(model), c, form, origin)
      ensures r.Ok? ==> Sha256(w.trim(form.code)) in old(codes) && r.value == old(codes)[Sha256(w.trim(form.code))]
      ensures r.Ok? ==> model.flights == old(model).flights[request :=
                          CodeTaken(Sha256(w.trim(form.code)), r.value.tenant, r.value.clientId, r.value.scope)]
      ensures r.Err? ==> codes == old(codes) && sessions == old(sessions)
    {
      ExchangeWrites(w, model, TakeCode(request, c, form, origin), Sha256(w.trim(form.code)));
      r := TakeRow(c, form, origin, model);
      model := Step(w, model, TakeCode(request, c, form, origin));
    }

    /** The INSERT of `createOAuthSession`, which its constraints may refuse. */
    method InsertSession(id: string, row: Session) returns (ok: bool)
      modifies `sessions
      ensures ok <==> Admits(accounts, old(sessions), id, row)
      ensures sessions == if ok then old(sessions)[id := row] else old(sessions)
    {
      ok := id !in sessions && row.tenant in accounts && Unique(sessions[id := row]);
      if ok {
        sessions := sessions[id := row];
      }
    }

    /** `createOAuthSession`. */
    method CreateOAuthSession(request: nat, row: Code, access: Draw, refresh: Draw, session: Draw, readAt: int)
      returns (r: Result<TokenResponse, OAuthError>)
      requires Valid() && request in model.flights && model.flights[request].CodeTaken?
      requires var f := model.flights[request];
               row.tenant == f.tenant && row.clientId == f.clientId && row.scope == f.scope
      modifies this
      ensures Valid() && model == Step(w, old(model), StoreSession(request, access, refresh, session, readAt))
      ensures r.Ok? <==> Admits(old(accounts), old(sessions), w.mint(SessionId, session),
                                SessionRow(w, old(model).flights[request],
                                           StoreSession(request, access, refresh, session, readAt)))
      ensures r.Ok? ==> r.value == TokenResponse(w.mint(AccessToken, access), w.mint(RefreshToken, refresh), row.scope)
    {
      InsertWrites(w, model, StoreSession(request, access, refresh, session, readAt));
      var accessToken, refreshToken := w.mint(AccessToken, access), w.mint(RefreshToken, refresh);
      var ok := InsertSession(w.mint(SessionId, session),
                              Session(row.tenant, row.clientId, row.scope, Sha256(accessToken), Sha256(refreshToken),
                                      readAt + ACCESS_TTL, readAt + REFRESH_TTL));
      model := Step(w, model, StoreSession(request, access, refresh, session, readAt));
      return if ok then Ok(TokenResponse(accessToken, refreshToken, row.scope)) else Err(ServerError);
    }

    /** The handler gives up between two statements: the random source or its next statement failed. */
    method Abandon(request: nat)
      requires Valid() && Inv(w, model) && request in model.flights
      modifies this
      ensures Valid() && Inv(w, model) && model == Step(w, old(model), Drop(request))
      ensures accounts == old(accounts) && clients == old(clients) && codes == old(codes) && sessions == old(sessions)
      ensures old(model).flights[request].CodeTaken? ==> Burned(model, old(model).flights[request].code)
    {
      DropOutcome(w, model, request);
      model := Step(w, model, Drop(request));
    }

    /** The rest of `exchangeAuthorizationCode`, after other requests; `fails` says that the random source or the INSERT
        fails. */
    method FinishExchange(request: nat, row: Code, others: seq<Event>, fails: bool,
                          access: Draw, refresh: Draw, session: Draw, readAt: int)
      returns (r: Result<TokenResponse, OAuthError>)
      requires Proper(w) && Inv(w, model) && request in model.flights && model.flights[request].CodeTaken?
      requires var f := model.flights[request];
               row.tenant == f.tenant && row.clientId == f.clientId && row.scope == f.scope
      requires Elsewhere(w, model, request, others)
      requires !fails ==> Legal(Exec(w, model, others), StoreSession(request, access, refresh, session, readAt))
      modifies this
      ensures Valid() && Inv(w, model)
      ensures !fails ==>
                && model == Step(w, Exec(w, old(model), others),
                                 StoreSession(request, access, refresh, session, readAt))
                && r == Ok(TokenResponse(w.mint(AccessToken, access), w.mint(RefreshToken, refresh), row.scope))
      ensures fails ==>
                && model == Step(w, Exec(w, old(model), others), Drop(request)) && r == Err(ServerError)
                && Burned(model, old(model).flights[request].code)
    {
      Pause(request, others);
      if fails {
        Abandon(request);
        return Err(ServerError);
      }
      InsertAdmitted(w, model, StoreSession(request, access, refresh, session, readAt), model.flights[request].code);
      InvNext(w, model, StoreSession(request, access, refresh, session, readAt));
      r := CreateOAuthSession(request, row, access, refresh, session, readAt);
    }

    /** `exchangeAuthorizationCode`, with other requests between the DELETE and the INSERT, or a failure there: it
        answers tokens exactly when it takes the code and does not fail; when it fails after that the code is burned;
        and when it does not take the code it changes no table. */
    method ExchangeAuthorizationCode(request: nat, c: TokenClient, form: ExchangeForm, origin: string,
                                     others: seq<Event>, fails: bool,
                                     access: Draw, refresh: Draw, session: Draw, readAt: int)
      returns (r: Result<TokenResponse, OAuthError>)
      requires Valid() && Proper(w) && Inv(w, model) && request !in model.flights
      requires Elsewhere(w, Step(w, model, TakeCode(request, c, form, origin)), request, others)
      requires !fails ==> Legal(Exec(w, Step(w, model, TakeCode(request, c, form, origin)), others),
                                StoreSession(request, access, refresh, session, readAt))
      modifies this
      ensures Valid() && Inv(w, model)
      ensures r.Ok? <==> Redeems(w, old(model), c, form, origin) && !fails
      ensures r.Ok? ==>
                && model == Step(w, Exec(w, Step(w, old(model), TakeCode(request, c, form, origin)), others),
                                 StoreSession(request, access, refresh, session, readAt))
                && r.value == TokenResponse(w.mint(AccessToken, access), w.mint(RefreshToken, refresh),
                                            old(codes)[Sha256(w.trim(form.code))].scope)
      ensures Redeems(w, old(model), c, form, origin) && fails ==>
                && model == Step(w, Exec(w, Step(w, old(model), TakeCode(request, c, form, origin)), others),
                                 Drop(request))
                && r == Err(ServerError) && Burned(model, Sha256(w.trim(form.code)))
      ensures !Redeems(w, old(model), c, form, origin) ==>
                && model == Step(w, old(model), TakeCode(request, c, form, origin))
                && codes == old(codes) && sessions == old(sessions)
    {
      RedeemsExactly(w, model, c, form, origin);
      InvNext(w, model, TakeCode(request, c, form, origin));
      var row := TakeAuthorizationCode(request, c, form, origin);
      if row.Err? {
        return Err(row.error);
      }
      r := FinishExchange(request, row.value, others, fails, access, refresh, session, readAt);
    }

    // --- renewing a pair --------------------------------------------------------------------------------

    /** The UPDATE ... RETURNING of `rotateRefreshToken`: the scope of the row that it changed. */
    method UpdateSessions(hash: Digest, clientId: string, access: string, refresh: string, readAt: int)
      returns (scope: Option<string>, ghost id: string)
      requires Unique(Updated(sessions, hash, clientId, clock, access, refresh, readAt))
      modifies `sessions
      ensures sessions == Updated(old(sessions), hash, clientId, clock, access, refresh, readAt)
      ensures scope.None? ==> forall i :: i in old(sessions) ==> !Renewable(old(sessions)[i], hash, clientId, clock)
      ensures scope.Some? ==> && id in old(sessions) && Renewable(old(sessions)[id], hash, clientId, clock)
                              && scope.value == old(sessions)[id].scope
    {
      scope, id := None, "";
      if i :| i in sessions && Renewable(sessions[i], hash, clientId, clock) {
        scope, id := Some(sessions[i].scope), i;
      }
      sessions := Updated(sessions, hash, clientId, clock, access, refresh, readAt);
    }

    /** `rotateRefreshToken`, on the tables. */
    method RotateRow(e: Event, ghost s: State) returns (r: Result<TokenResponse, OAuthError>, ghost id: string)
      requires Tables(s) && e.Rotate?
      requires WellFormedRenewal(w, s, e.tokenClient, e.renewal, e.origin) ==>
                 Unique(RotateUpdate(w, s, e, Authenticate(w, s.clients, e.tokenClient).value))
      modifies `sessions
      ensures r.Ok? ==> Rotates(w, s, e, id)
      ensures r.Ok? ==> r.value == TokenResponse(w.mint(AccessToken, e.access), w.mint(RefreshToken, e.refresh),
                                                 s.sessions[id].scope)
      ensures r.Err? ==> forall i :: !Rotates(w, s, e, i)
      ensures sessions == if WellFormedRenewal(w, s, e.tokenClient, e.renewal, e.origin)
                          then RotateUpdate(w, s, e, Authenticate(w, s.clients, e.tokenClient).value) else s.sessions
    {
      id := "";
      var who := Authenticate(w, clients, e.tokenClient);
      if who.None? {
        return Err(InvalidClient), id;
      }
      var refreshToken := w.trim(e.renewal.refreshToken);
      if refreshToken == "" || who.value == "" {
        return Err(InvalidRequest), id;
      }
      if !ValidResource(e.origin, w.trim(e.renewal.resource)) {
        return Err(InvalidTarget), id;
      }
      var access, refresh := w.mint(AccessToken, e.access), w.mint(RefreshToken, e.refresh);
      var scope, found := UpdateSessions(Sha256(refreshToken), who.value, access, refresh, e.readAt);
      return if scope.None? then Err(InvalidGrant) else Ok(TokenResponse(access, refresh, scope.value)), found;
    }

    /** The same, as the event it is. */
    method RotatePair(e: Event) returns (r: Result<TokenResponse, OAuthError>, ghost id: string)
      requires Valid() && e.Rotate?
      requires WellFormedRenewal(w, model, e.tokenClient, e.renewal, e.origin) ==>
                 Unique(RotateUpdate(w, model, e, Authenticate(w, model.clients, e.tokenClient).value))
      modifies this
      ensures Valid() && model == Step(w, old(model), e)
      ensures r.Ok? ==> Rotates(w, old(model), e, id)
      ensures r.Ok? ==> r.value == TokenResponse(w.mint(AccessToken, e.access), w.mint(RefreshToken, e.refresh),
                                                 old(sessions)[id].scope)
      ensures r.Err? ==> forall i :: !Rotates(w, old(model), e, i)
    {
      RenewalWrites(w, model, e);
      r, id := RotateRow(e, model);
      model := Step(w, model, e);
    }

    /** `rotateRefreshToken`: it answers a new pair, with the scope of the session, exactly when the token sent is the
        current one of a session of the client. */
    method RotateRefreshToken(e: Event) returns (r: Result<TokenResponse, OAuthError>, ghost id: string)
      requires Valid() && Proper(w) && Inv(w, model) && e.Rotate? && Legal(model, e)
      modifies this
      ensures Valid() && Inv(w, model) && model == Step(w, old(model), e)
      ensures r.Ok? ==> Renews(w, old(model), e, id)
      ensures r.Ok? ==> r.value == TokenResponse(w.mint(AccessToken, e.access), w.mint(RefreshToken, e.refresh),
                                                 old(sessions)[id].scope)
      ensures r.Err? ==> forall i :: !Renews(w, old(model), e, i)
    {
      InvNext(w, model, e);
      if WellFormedRenewal(w, model, e.tokenClient, e.renewal, e.origin) {
        RenewalAdmitted(w, model, e);
      }
      forall i ensures Rotates(w, model, e, i) <==> Renews(w, model, e, i) {
        RotatesExactly(w, model, e, i);
      }
      r, id := RotatePair(e);
    }

    // --- authorizing ------------------------------------------------------------------------------------

    /** `upsertAccount`. */
    method UpsertAccount(apiKey: string) returns (tenant: Digest)
      modifies `accounts
      ensures accounts == Upsert(w, old(accounts), apiKey)
      ensures tenant == Tenant(w, w.trim(apiKey)) && tenant in accounts && accounts[tenant].apiKey == w.trim(apiKey)
    {
      var key := w.trim(apiKey);
      tenant := Tenant(w, key);
      accounts := accounts[tenant := Account(key, if tenant in accounts then accounts[tenant].primary else None)];
    }

    /** `OAuthAuthorize` up to the check of the key, which `accepted` answers. */
    method BeginAuthorization(e: Event) returns (r: Option<Grant>)
      requires Valid() && e.BeginAuthorization?
      modifies this
      ensures Valid() && model == Step(w, old(model), e)
      ensures r.Some? <==> Begins(w, old(model), e)
      ensures r.Some? ==> model.flights == old(model).flights[e.request := KeyEntered(r.value)]
    {
      AuthorizationWrites(w, model, e);
      r := Validate(w, model, e.form, e.origin, e.fetched);
      if r.Some? && (r.value.apiKey == "" || !e.accepted) {
        r := None;
      }
      model := Step(w, model, e);
    }

    /** The upsert of `completeAuthorization`. */
    method StoreGrantAccount(request: nat, g: Grant)
      requires Valid() && request in model.flights && model.flights[request] == KeyEntered(g)
      modifies this
      ensures Valid() && model == Step(w, old(model), StoreAccount(request))
      ensures model.flights == old(model).flights[request := AccountStored(g)]
    {
      AccountWrites(w, model, request);
      var tenant := UpsertAccount(g.apiKey);
      model := Step(w, model, StoreAccount(request));
    }

    /** The INSERT of `completeAuthorization`, which its constraints may refuse. */
    method StoreGrantCode(request: nat, g: Grant, code: Draw, readAt: int) returns (ok: bool)
      requires Valid() && request in model.flights && model.flights[request] == AccountStored(g)
      modifies this
      ensures Valid() && model == Step(w, old(model), StoreCode(request, code, readAt))
      ensures ok <==> Sha256(w.mint(AuthorizationCode, code)) !in old(codes) && Tenant(w, g.apiKey) in old(accounts)
    {
      CodeWrites(w, model, request, code, readAt);
      var d, row := Sha256(w.mint(AuthorizationCode, code)), Row(w, g, readAt + CODE_TTL);
      ok := d !in codes && row.tenant in accounts;
      if ok {
        codes := codes[d := row];
      }
      model := Step(w, model, StoreCode(request, code, readAt));
    }

    /** The last part of `completeAuthorization`: `fails` says that the random source or the INSERT fails. */
    method FinishAuthorization(request: nat, g: Grant, between: seq<Event>, fails: bool, code: Draw, readAt: int)
      returns (r: Option<string>)
      requires Proper(w) && Inv(w, model) && request in model.flights && model.flights[request] == AccountStored(g)
      requires Elsewhere(w, model, request, between)
      requires !fails ==> Legal(Exec(w, model, between), StoreCode(request, code, readAt))
      modifies this
      ensures Valid() && Inv(w, model)
      ensures r == if fails then None else Some(w.mint(AuthorizationCode, code))
      ensures model == Step(w, Exec(w, old(model), between),
                            if fails then Drop(request) else StoreCode(request, code, readAt))
    {
      Pause(request, between);
      if fails {
        Abandon(request);
        return None;
      }
      CodeIsNew(w, model, request, code);
      InvNext(w, model, StoreCode(request, code, readAt));
      var ok := StoreGrantCode(request, g, code, readAt);
      return Some(w.mint(AuthorizationCode, code));
    }

    /** `OAuthAuthorize` and `completeAuthorization` for a posted form, with other requests between the statements, or a
        failure of the upsert (`accountFails`) or of what follows it (`codeFails`): it answers a code exactly when the
        request is valid, the key accepted, and nothing fails. */
    method CompleteAuthorization(e: Event, before: seq<Event>, accountFails: bool, between: seq<Event>, codeFails: bool,
                                 code: Draw, readAt: int)
      returns (r: Option<string>)
      requires Valid() && Proper(w) && Inv(w, model) && e.BeginAuthorization? && e.request !in model.flights
      requires Elsewhere(w, Step(w, model, e), e.request, before)
      requires var stored := Step(w, Exec(w, Step(w, model, e), before), StoreAccount(e.request));
               && (!accountFails ==> Elsewhere(w, stored, e.request, between))
               && (!accountFails && !codeFails ==> Legal(Exec(w, stored, between), StoreCode(e.request, code, readAt)))
      modifies this
      ensures Valid() && Inv(w, model)
      ensures r.Some? <==> Authorizes(w, old(clients), e) && !accountFails && !codeFails
      ensures r.Some? ==> r.value == w.mint(AuthorizationCode, code)
      ensures !Authorizes(w, old(clients), e) ==> model == Step(w, old(model), e)
      ensures Authorizes(w, old(clients), e) && accountFails ==>
                model == Step(w, Exec(w, Step(w, old(model), e), before), Drop(e.request))
      ensures Authorizes(w, old(clients), e) && !accountFails ==>
                model == Step(w, Exec(w, Step(w, Exec(w, Step(w, old(model), e), before), StoreAccount(e.request)),
                                      between),
                              if codeFails then Drop(e.request) else StoreCode(e.request, code, readAt))
    {
      BeginsExactly(w, model, e);
      InvNext(w, model, e);
      var grant := BeginAuthorization(e);
      if grant.None? {
        return None;
      }
      Pause(e.request, before);
      if accountFails {
        Abandon(e.request);
        return None;
      }
      InvNext(w, model, StoreAccount(e.request));
      StoreGrantAccount(e.request, grant.value);
      r := FinishAuthorization(e.request, grant.value, between, codeFails, code, readAt);
    }

    // --- resolving a token, selecting a sandbox ---------------------------------------------------------------

    /** `apiKeyForOAuthAccessToken`. */
    method ApiKeyForOAuthAccessToken(token: string) returns (r: Result<string, OAuthError>)
      requires Valid() && Unique(sessions)
      ensures r.Ok? <==> exists id, key :: ResolvesBy(w, model, token, id, key)
      ensures r.Ok? ==> exists id :: ResolvesBy(w, model, token, id, r.value)
    {
      var hash := Sha256(token);
      if id :| id in sessions && sessions[id].accessHash == hash && sessions[id].accessExpiresAt > clock
               && sessions[id].tenant in accounts
      {
        if !w.scopeContainsMcp(sessions[id].scope) {
          return Err(InvalidAccessToken);
        }
        assert ResolvesBy(w, model, token, id, accounts[sessions[id].tenant].apiKey);
        return Ok(accounts[sessions[id].tenant].apiKey);
      }
      return Err(InvalidAccessToken);
    }

    /** The UPDATE of `setPrimarySandboxID`. */
    method UpdatePrimary(request: nat)
      requires Valid() && request in model.flights && model.flights[request].SelectionPending?
      modifies this
      ensures Valid() && model == Step(w, old(model), StoreSelection(request))
      ensures var f := old(model).flights[request];
              f.tenant in old(accounts) ==> f.tenant in accounts && accounts[f.tenant].primary == Some(f.sandboxId)
                                            && accounts[f.tenant].apiKey == old(accounts)[f.tenant].apiKey
    {
      PrimaryWrites(w, model, request);
      var f := model.flights[request];
      if f.tenant in accounts {
        accounts := accounts[f.tenant := Account(accounts[f.tenant].apiKey, Some(f.sandboxId))];
      }
      model := Step(w, model, StoreSelection(request));
    }

    /** The upsert of `setPrimarySandboxID`. */
    method BeginPrimary(e: Event)
      requires Valid() && e.BeginSelection?
      modifies this
      ensures Valid() && model == Step(w, old(model), e)
      ensures model.flights
              == old(model).flights[e.request := SelectionPending(Tenant(w, w.trim(e.apiKey)), w.trim(e.sandboxId))]
    {
      SelectionWrites(w, model, e);
      var tenant := UpsertAccount(e.apiKey);
      model := Step(w, model, e);
    }

    /** `setPrimarySandboxID`, with other requests between the upsert and the UPDATE, or a failure of either. */
    method SetPrimarySandboxId(e: Event, upsertFails: bool, others: seq<Event>, updateFails: bool) returns (ok: bool)
      requires Valid() && Proper(w) && Inv(w, model) && e.BeginSelection? && e.request !in model.flights
      requires !upsertFails ==> Elsewhere(w, Step(w, model, e), e.request, others)
      modifies this
      ensures Valid() && Inv(w, model)
      ensures ok <==> !upsertFails && !updateFails
      ensures upsertFails ==> model == old(model)
      ensures !upsertFails ==> model == Step(w, Exec(w, Step(w, old(model), e), others),
                                             if updateFails then Drop(e.request) else StoreSelection(e.request))
      ensures ok ==> var tenant := Tenant(w, w.trim(e.apiKey));
                     tenant in accounts && accounts[tenant].primary == Some(w.trim(e.sandboxId))
    {
      if upsertFails {
        return false;
      }
      InvNext(w, model, e);
      BeginPrimary(e);
      Pause(e.request, others);
      if updateFails {
        Abandon(e.request);
        return false;
      }
      InvNext(w, model, StoreSelection(e.request));
      FlightSpends(w, model, e.request);
      UpdatePrimary(e.request);
      return true;
    }
  }
}
