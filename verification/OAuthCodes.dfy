/** What every run promises about authorization codes. */
module OAuthCodes {
  import opened Wrappers
  import opened GoStrings
  import opened OpaqueTokens
  import opened OAuth
  import opened OAuthInvariant
  import opened OAuthSteps
  import opened OAuthSessions
  import opened OAuthRuns

  // --- single use ----------------------------------------------------------------------------------------

  lemma TakesMarks(w: World, s: State, e: Event, d: Digest)
    requires CodesOk(w, s) && TakesCode(w, s, e, d)
    ensures d !in s.taken && d in Step(w, s, e).taken
  {
  }

  lemma TakesMarksAt(w: World, events: seq<Event>, states: seq<State>, i: nat, d: Digest)
    requires Run(w, events, states) && i < |events| && TakesCode(w, states[i], events[i], d)
    ensures d !in states[i].taken && d in states[i + 1].taken
  {
    InvAt(w, events, states, i);
    StepAt(w, events, states, i);
    TakesMarks(w, states[i], events[i], d);
  }

  lemma TakenStays(w: World, events: seq<Event>, states: seq<State>, i: nat, j: nat, d: Digest)
    requires Run(w, events, states) && i <= j <= |events| && d in states[i].taken
    ensures d in states[j].taken
  {
    LaterAt(w, events, states, i, j);
  }

  /** Over any interleaving, each authorization code is taken by at most one exchange. */
  lemma CodeTakenOnce(w: World, events: seq<Event>, states: seq<State>, i: nat, j: nat, d: Digest)
    requires Run(w, events, states) && i < j < |events| && TakesCode(w, states[i], events[i], d)
    ensures !TakesCode(w, states[j], events[j], d)
  {
    TakesMarksAt(w, events, states, i, d);
    TakenStays(w, events, states, i + 1, j, d);
    if TakesCode(w, states[j], events[j], d) {
      TakesMarksAt(w, events, states, j, d);
    }
  }

  /** The bindings of the exchange are those of the authorization, and the code is still valid. */
  ghost predicate Meets(w: World, i: Issue, clientId: string, form: ExchangeForm, now: int) {
    && clientId == i.grant.clientId && w.trim(form.redirectUri) == i.grant.redirectUri
    && w.s256(w.trim(form.verifier)) == i.grant.challenge && now < i.expiresAt
    && (w.trim(form.resource) == "" || i.grant.resource == "" || w.trim(form.resource) == i.grant.resource)
  }

  lemma TakesExactlyIn(w: World, s: State, e: Event)
    requires CodesOk(w, s) && e.TakeCode?
    ensures var d, who := Sha256(w.trim(e.exchange.code)), Authenticate(w, s.clients, e.tokenClient);
            TakesCode(w, s, e, d)
            <==> && who.Some? && who.value != "" && WellFormedExchange(w, e.exchange, e.origin)
                 && d in s.granted && d !in s.taken
                 && Meets(w, s.granted[d], who.value, e.exchange, s.clock)
  {
  }

  /** An exchange takes the code it names exactly when its client is authenticated, the code was granted and not yet
      taken, and client, redirect, verifier, resource and time meet the grant. */
  lemma ExchangeExactly(w: World, events: seq<Event>, states: seq<State>, i: nat)
    requires Run(w, events, states) && i < |events| && events[i].TakeCode?
    ensures var s, e := states[i], events[i];
            var d, who := Sha256(w.trim(e.exchange.code)), Authenticate(w, s.clients, e.tokenClient);
            TakesCode(w, s, e, d)
            <==> && who.Some? && who.value != "" && WellFormedExchange(w, e.exchange, e.origin)
                 && d in s.granted && d !in s.taken
                 && Meets(w, s.granted[d], who.value, e.exchange, s.clock)
  {
    InvAt(w, events, states, i);
    TakesExactlyIn(w, states[i], events[i]);
  }

  /** The event stores the code of the grant. */
  ghost predicate StoresCode(s: State, e: Event, g: Grant) {
    e.StoreCode? && e.request in s.flights && s.flights[e.request] == AccountStored(g)
  }

  /** From its issue on, an authorization code sent as it was handed out is taken exactly while it was not taken before
      and its ten minutes have not passed, by the client it was granted to, with the bindings of the grant. */
  lemma IssuedCodeTakenExactly(w: World, events: seq<Event>, states: seq<State>, i: nat, j: nat, g: Grant, e: Event)
    requires Run(w, events, states) && MintTrimmed(w) && i < j <= |events| && StoresCode(states[i], events[i], g)
    requires e.TakeCode? && e.exchange.code == w.mint(AuthorizationCode, events[i].code)
    ensures var s, d, who := states[j], Sha256(e.exchange.code), Authenticate(w, states[j].clients, e.tokenClient);
            TakesCode(w, s, e, d)
            <==> && who == Some(g.clientId) && g.clientId != "" && WellFormedExchange(w, e.exchange, e.origin)
                 && w.trim(e.exchange.redirectUri) == g.redirectUri
                 && w.s256(w.trim(e.exchange.verifier)) == g.challenge
                 && (w.trim(e.exchange.resource) == "" || g.resource == "" || w.trim(e.exchange.resource) == g.resource)
                 && d !in s.taken && s.clock < events[i].readAt + CODE_TTL
  {
    var issue := IssuedCodeKnown(w, events, states, i, j, g);
    InvAt(w, events, states, j);
    TakesExactlyIn(w, states[j], e);
  }

  lemma CodeJustIssued(w: World, events: seq<Event>, states: seq<State>, i: nat, g: Grant) returns (issue: Issue)
    requires Run(w, events, states) && i < |events| && StoresCode(states[i], events[i], g)
    ensures var d := Sha256(w.mint(AuthorizationCode, events[i].code));
            d in states[i + 1].granted && states[i + 1].granted[d] == issue
    ensures issue.grant == g && issue.expiresAt == events[i].readAt + CODE_TTL
  {
    InvAt(w, events, states, i);
    StepAt(w, events, states, i);
    CodeIsStored(w, states[i], events[i]);
    issue := Issue(g, events[i].readAt + CODE_TTL, |states[i].log|);
  }

  lemma IssuedCodeKnown(w: World, events: seq<Event>, states: seq<State>, i: nat, j: nat, g: Grant)
    returns (issue: Issue)
    requires Run(w, events, states) && i < j <= |events| && StoresCode(states[i], events[i], g)
    ensures var d := Sha256(w.mint(AuthorizationCode, events[i].code));
            d in states[j].granted && states[j].granted[d] == issue
    ensures issue.grant == g && issue.expiresAt == events[i].readAt + CODE_TTL
  {
    issue := CodeJustIssued(w, events, states, i, g);
    LaterAt(w, events, states, i + 1, j);
  }

  /** The tables and the flights are the same. */
  ghost predicate NothingChanged(s: State, t: State) {
    && t.accounts == s.accounts && t.clients == s.clients && t.codes == s.codes && t.sessions == s.sessions
    && t.clock == s.clock && t.flights == s.flights
  }

  /** A refused exchange leaves every table unchanged. */
  lemma RefusedExchangeChangesNothing(w: World, s: State, e: Event)
    requires e.TakeCode? && !TakesCode(w, s, e, Sha256(w.trim(e.exchange.code)))
    ensures NothingChanged(s, Step(w, s, e))
  {
  }

  /** A successful one removes its code, changes nothing else in the tables, and hands the handler the tenant, client
      and scope of the grant; the checks it makes again never fail. */
  lemma ExchangeTakesOneCode(w: World, events: seq<Event>, states: seq<State>, i: nat, d: Digest)
    requires Run(w, events, states) && i < |events| && TakesCode(w, states[i], events[i], d)
    ensures var s, t, e := states[i], states[i + 1], events[i];
            && t.accounts == s.accounts && t.clients == s.clients && t.sessions == s.sessions
            && d in s.codes && t.codes == s.codes - {d} && d in s.granted
            && var g := s.granted[d].grant;
               t.flights == s.flights[e.request := CodeTaken(d, Tenant(w, g.apiKey), g.clientId, g.scope)]
  {
    InvAt(w, events, states, i);
    StepAt(w, events, states, i);
    TakeEffect(w, states[i], events[i], d);
  }

  // --- sessions, taken codes, granted codes --------------------------------------------------------------------

  /** An injective function does not enlarge a set. */
  lemma {:induction false} InjectionCounts<A, B>(xs: set<A>, ys: set<B>, f: map<A, B>)
    requires xs <= f.Keys && forall x :: x in xs ==> f[x] in ys
    requires forall x, y :: x in xs && y in xs && f[x] == f[y] ==> x == y
    ensures |xs| <= |ys|
  {
    if xs != {} {
      var x :| x in xs;
      InjectionCounts(xs - {x}, ys - {f[x]}, f);
    }
  }

  lemma SubsetCounts<A>(xs: set<A>, ys: set<A>)
    requires xs <= ys
    ensures |xs| <= |ys|
  {
    assert ys == xs + (ys - xs);
  }

  ghost function CodeOf(s: State): map<string, Digest> {
    map id | id in s.origins :: s.origins[id].code
  }

  lemma CountsIn(w: World, s: State)
    requires OriginsOk(w, s) && SessionsOk(w, s) && TakenOk(w, s)
    ensures |s.sessions.Keys| <= |s.taken.Keys| <= |s.granted.Keys|
  {
    var f := CodeOf(s);
    forall id | id in s.sessions.Keys ensures id in f && f[id] in s.taken.Keys {
      assert SessionOk(w, s, id, s.sessions[id]);
      assert CreatedBy(w, s, id, s.origins[id]);
    }
    InjectionCounts(s.sessions.Keys, s.taken.Keys, f);
    forall d | d in s.taken.Keys ensures d in s.granted.Keys {
      assert TakeOk(w, s, d, s.taken[d]);
    }
    SubsetCounts(s.taken.Keys, s.granted.Keys);
  }

  /** There are never more sessions than taken codes, nor more taken codes than granted ones, and no two sessions
      come from the same code. */
  lemma SessionsFromCodes(w: World, events: seq<Event>, states: seq<State>, i: nat)
    requires Run(w, events, states) && i <= |events|
    ensures var s := states[i];
            && |s.sessions.Keys| <= |s.taken.Keys| <= |s.granted.Keys|
            && (forall id :: id in s.sessions ==> id in s.origins && s.origins[id].code in s.taken)
            && (forall a, b :: a in s.sessions && b in s.sessions && s.origins[a].code == s.origins[b].code ==> a == b)
  {
    InvAt(w, events, states, i);
    var s := states[i];
    CountsIn(w, s);
    forall id | id in s.sessions ensures id in s.origins && s.origins[id].code in s.taken {
      assert SessionOk(w, s, id, s.sessions[id]);
      assert CreatedBy(w, s, id, s.origins[id]);
    }
  }

  // --- a burned code -------------------------------------------------------------------------------------

  /** The code is taken, no session came from it, and no handler is about to store one. */
  ghost predicate Burned(s: State, d: Digest) {
    && d in s.taken && Unspent(s, d)
    && forall r :: r in s.flights && s.flights[r].CodeTaken? ==> s.flights[r].code != d
  }

  lemma FlightsComeFrom(w: World, s: State, e: Event, r: nat)
    requires r in Step(w, s, e).flights && Step(w, s, e).flights[r].CodeTaken?
    ensures (r in s.flights && s.flights[r] == Step(w, s, e).flights[r])
            || TakesCode(w, s, e, Step(w, s, e).flights[r].code)
  {
  }

  lemma NoFlightReturns(w: World, s: State, e: Event, d: Digest)
    requires CodesOk(w, s) && Burned(s, d)
    ensures forall r :: r in Step(w, s, e).flights && Step(w, s, e).flights[r].CodeTaken?
              ==> Step(w, s, e).flights[r].code != d
  {
    forall r | r in Step(w, s, e).flights && Step(w, s, e).flights[r].CodeTaken?
      ensures Step(w, s, e).flights[r].code != d
    {
      FlightsComeFrom(w, s, e, r);
      if TakesCode(w, s, e, Step(w, s, e).flights[r].code) {
        TakesMarks(w, s, e, Step(w, s, e).flights[r].code);
      }
    }
  }

  lemma StaysUnspent(w: World, s: State, e: Event, d: Digest)
    requires Burned(s, d)
    ensures Unspent(Step(w, s, e), d)
  {
  }

  lemma BurnedNext(w: World, events: seq<Event>, states: seq<State>, i: nat, d: Digest)
    requires Run(w, events, states) && i < |events| && Burned(states[i], d)
    ensures Burned(states[i + 1], d)
  {
    InvAt(w, events, states, i);
    StepAt(w, events, states, i);
    TakenStays(w, events, states, i, i + 1, d);
    NoFlightReturns(w, states[i], events[i], d);
    StaysUnspent(w, states[i], events[i], d);
  }

  lemma {:induction false} BurnedStays(w: World, events: seq<Event>, states: seq<State>, i: nat, j: nat, d: Digest)
    requires Run(w, events, states) && i <= j <= |events| && Burned(states[i], d)
    ensures Burned(states[j], d)
    decreases j
  {
    if i < j {
      BurnedStays(w, events, states, i, j - 1, d);
      BurnedNext(w, events, states, j - 1, d);
    }
  }

  lemma DropBurnsIn(w: World, s: State, request: nat)
    requires FlightsOk(w, s) && request in s.flights && s.flights[request].CodeTaken?
    ensures Burned(Step(w, s, Drop(request)), s.flights[request].code)
  {
    FlightSpends(w, s, request);
    DropEffect(w, s, request);
  }

  lemma DropBurns(w: World, events: seq<Event>, states: seq<State>, i: nat, request: nat)
    requires Run(w, events, states) && i < |events| && events[i] == Drop(request)
    requires request in states[i].flights && states[i].flights[request].CodeTaken?
    ensures Burned(states[i + 1], states[i].flights[request].code)
  {
    InvAt(w, events, states, i);
    StepAt(w, events, states, i);
    DropBurnsIn(w, states[i], request);
  }

  /** A failure between the DELETE and the INSERT burns the code: no exchange ever takes it again and no session ever
      comes from it. */
  lemma FailureBurnsCode(w: World, events: seq<Event>, states: seq<State>, i: nat, j: nat, request: nat)
    requires Run(w, events, states) && i < j <= |events| && events[i] == Drop(request)
    requires request in states[i].flights && states[i].flights[request].CodeTaken?
    ensures var d := states[i].flights[request].code;
            Unspent(states[j], d) && (j < |events| ==> !TakesCode(w, states[j], events[j], d))
  {
    var d := states[i].flights[request].code;
    DropBurns(w, events, states, i, request);
    BurnedStays(w, events, states, i + 1, j, d);
    if j < |events| && TakesCode(w, states[j], events[j], d) {
      TakesMarksAt(w, events, states, j, d);
    }
  }

  // --- constraints -----------------------------------------------------------------------------------------

  lemma ClientIsNew(w: World, s: State, client: Draw)
    requires MintInjective(w) && IssuedOk(w, s) && ClientsOk(w, s) && client !in s.drawn
    ensures w.mint(ClientId, client) !in s.clients
  {
  }

  /** The INSERT of a client that is accepted always succeeds. */
  lemma ClientInsertSucceeds(w: World, events: seq<Event>, states: seq<State>, i: nat)
    requires Run(w, events, states) && i < |events|
    requires events[i].Register? && Registrable(w, events[i].uris, events[i].authMethod)
    ensures var id := w.mint(ClientId, events[i].client);
            id !in states[i].clients && states[i + 1].clients == states[i].clients[id := Client(events[i].uris)]
  {
    InvAt(w, events, states, i);
    StepAt(w, events, states, i);
    ClientIsNew(w, states[i], events[i].client);
  }

  lemma CodeIsStored(w: World, s: State, e: Event)
    requires Proper(w) && Inv(w, s) && e.StoreCode? && e.code !in s.drawn
    requires e.request in s.flights && s.flights[e.request].AccountStored?
    ensures var d := Sha256(w.mint(AuthorizationCode, e.code));
            && d !in s.granted
            && StoreCodeDoes(w, s, Step(w, s, e), e, d, Issue(s.flights[e.request].grant, e.readAt + CODE_TTL, |s.log|))
  {
    CodeIsNew(w, s, e.request, e.code);
    StoreCodeEffect(w, s, e);
  }

  lemma CodeAdded(w: World, s: State, t: State, e: Event)
    requires Proper(w) && Inv(w, s) && Legal(s, e) && e.StoreCode? && t == Step(w, s, e)
    requires e.request in s.flights && s.flights[e.request].AccountStored?
    ensures var d := Sha256(w.mint(AuthorizationCode, e.code));
            && d !in s.granted && d in t.granted
            && t.codes == s.codes[d := Row(w, s.flights[e.request].grant, e.readAt + CODE_TTL)]
  {
    CodeIsStored(w, s, e);
  }

  /** With an account stored, the INSERT of the code always succeeds. */
  lemma CodeInsertSucceeds(w: World, events: seq<Event>, states: seq<State>, i: nat)
    requires Run(w, events, states) && i < |events| && events[i].StoreCode?
    requires var s := states[i]; events[i].request in s.flights && s.flights[events[i].request].AccountStored?
    ensures var s, t := states[i], states[i + 1];
            var d := Sha256(w.mint(AuthorizationCode, events[i].code));
            && d !in s.granted && d in t.granted
            && t.codes == s.codes[d := Row(w, s.flights[events[i].request].grant, events[i].readAt + CODE_TTL)]
  {
    InvAt(w, events, states, i);
    StepAt(w, events, states, i);
    CodeAdded(w, states[i], states[i + 1], events[i]);
  }

  /** With a code taken, the INSERT of the session always succeeds. */
  lemma SessionInsertSucceeds(w: World, events: seq<Event>, states: seq<State>, i: nat, d: Digest)
    requires Run(w, events, states) && i < |events| && Stores(states[i], events[i], d)
    ensures var s, t, e := states[i], states[i + 1], events[i];
            var id := w.mint(SessionId, e.session);
            && id !in s.sessions && t.origins == s.origins[id := Origin(d, i)]
            && t.sessions == s.sessions[id := SessionRow(w, s.flights[e.request], e)]
  {
    InvAt(w, events, states, i);
    StepAt(w, events, states, i);
    LogAt(w, events, states, i);
    SessionIsNew(w, states[i], events[i], d);
    StoreSessionEffect(w, states[i], events[i], d);
  }

  // --- bindings ------------------------------------------------------------------------------------------

  /** Every stored code has a supported scope that contains mcp, and a redirect address that is valid and was on its
      client's list when the user authorized it. */
  lemma CodeBindings(w: World, events: seq<Event>, states: seq<State>, i: nat, d: Digest) returns (began: nat)
    requires Run(w, events, states) && i <= |events| && d in states[i].codes
    ensures began < i && events[began].BeginAuthorization? && events[began].accepted
    ensures var row, e := states[i].codes[d], events[began];
            && w.scopeAllowed(row.scope) && w.scopeContainsMcp(row.scope) && w.validRedirect(row.redirectUri)
            && row.clientId == w.trim(e.form.clientId) && row.redirectUri == w.trim(e.form.redirectUri)
            && row.challenge == w.trim(e.form.codeChallenge) && Complete(w, e.form, e.origin)
            && row.tenant == Tenant(w, w.trim(e.form.apiKey))
            && if HasPrefix(row.clientId, "https://")
               then e.fetched.Some? && row.redirectUri in e.fetched.value.redirectUris
               else row.clientId in states[i].clients
                    && row.redirectUri in states[i].clients[row.clientId].redirectUris
  {
    InvAt(w, events, states, i);
    LogAt(w, events, states, i);
    var s := states[i];
    assert IssueOk(w, s, d, s.granted[d]);
    began := s.granted[d].grant.began;
    assert s.log[began] == events[began];
  }

  lemma CodeScopeAndRedirect(w: World, events: seq<Event>, states: seq<State>, i: nat, d: Digest)
    requires Run(w, events, states) && i <= |events| && d in states[i].codes
    ensures w.scopeAllowed(states[i].codes[d].scope) && w.scopeContainsMcp(states[i].codes[d].scope)
    ensures w.validRedirect(states[i].codes[d].redirectUri)
  {
    var began := CodeBindings(w, events, states, i, d);
  }
}
