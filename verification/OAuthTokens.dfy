/** What every run promises about sessions and their tokens. */
module OAuthTokens {
  import opened Wrappers
  import opened OpaqueTokens
  import opened OAuth
  import opened OAuthInvariant
  import opened OAuthSessions
  import opened OAuthRuns

  // --- rotation ------------------------------------------------------------------------------------------

  lemma RotateEffectAt(w: World, events: seq<Event>, states: seq<State>, i: nat, id: string)
    requires Run(w, events, states) && i < |events| && Rotates(w, states[i], events[i], id)
    ensures RotateDoes(w, states[i], states[i + 1], events[i],
                       states[i].sessions[id := RenewedRow(w, states[i].sessions[id], events[i])],
                       {states[i].sessions[id].accessHash}, {states[i].sessions[id].refreshHash})
  {
    InvAt(w, events, states, i);
    StepAt(w, events, states, i);
    RotateOneEffect(w, states[i], events[i], id);
  }

  lemma RetiredIsDead(w: World, events: seq<Event>, states: seq<State>, i: nat, j: nat,
                      access: Digest, refresh: Digest, id: string)
    requires Run(w, events, states) && i <= j <= |events| && id in states[j].sessions
    requires access in states[i].retiredAccess && refresh in states[i].retiredRefresh
    ensures states[j].sessions[id].accessHash != access && states[j].sessions[id].refreshHash != refresh
  {
    LaterAt(w, events, states, i, j);
    InvAt(w, events, states, j);
  }

  /** A replaced pair is dead: at no later position is either token in any session, so neither resolves or rotates. */
  lemma ReplacedPairIsDead(w: World, events: seq<Event>, states: seq<State>, i: nat, j: nat, id: string, other: string)
    requires Run(w, events, states) && i < j <= |events| && Rotates(w, states[i], events[i], id)
    requires other in states[j].sessions
    ensures states[j].sessions[other].accessHash != states[i].sessions[id].accessHash
    ensures states[j].sessions[other].refreshHash != states[i].sessions[id].refreshHash
  {
    RotateEffectAt(w, events, states, i, id);
    var row := states[i].sessions[id];
    RetiredIsDead(w, events, states, i + 1, j, row.accessHash, row.refreshHash, other);
  }

  /** Each refresh token rotates at most once, however requests race. */
  lemma RefreshTokenRotatesOnce(w: World, events: seq<Event>, states: seq<State>, i: nat, j: nat, id: string,
                                other: string)
    requires Run(w, events, states) && i < j < |events|
    requires Rotates(w, states[i], events[i], id) && events[j].Rotate?
    requires w.trim(events[j].renewal.refreshToken) == w.trim(events[i].renewal.refreshToken)
    ensures !Rotates(w, states[j], events[j], other)
  {
    if Rotates(w, states[j], events[j], other) {
      ReplacedPairIsDead(w, events, states, i, j, id, other);
    }
  }

  /** Every session has one pair, and no two sessions share a token. */
  lemma PairsAreUnshared(w: World, events: seq<Event>, states: seq<State>, i: nat, a: string, b: string)
    requires Run(w, events, states) && i <= |events| && a in states[i].sessions && b in states[i].sessions
    requires states[i].sessions[a].accessHash == states[i].sessions[b].accessHash
             || states[i].sessions[a].refreshHash == states[i].sessions[b].refreshHash
    ensures a == b
  {
    InvAt(w, events, states, i);
  }

  /** At most one session has the refresh token that is sent. */
  lemma RotatesOne(w: World, events: seq<Event>, states: seq<State>, i: nat, id: string, other: string)
    requires Run(w, events, states) && i < |events|
    requires Rotates(w, states[i], events[i], id) && Rotates(w, states[i], events[i], other)
    ensures other == id
  {
    PairsAreUnshared(w, events, states, i, other, id);
  }

  /** A rotation replaces the pair and the expiries of the one session whose refresh token was sent, by its client and
      in time; it changes nothing else in the tables. */
  lemma RotationExactly(w: World, events: seq<Event>, states: seq<State>, i: nat, id: string)
    requires Run(w, events, states) && i < |events| && Rotates(w, states[i], events[i], id)
    ensures var s, t, e := states[i], states[i + 1], events[i];
            && t.accounts == s.accounts && t.clients == s.clients && t.codes == s.codes && t.flights == s.flights
            && t.sessions == s.sessions[id := s.sessions[id].(
                 accessHash := Sha256(w.mint(AccessToken, e.access)),
                 refreshHash := Sha256(w.mint(RefreshToken, e.refresh)),
                 accessExpiresAt := e.readAt + ACCESS_TTL, refreshExpiresAt := e.readAt + REFRESH_TTL)]
  {
    RotateEffectAt(w, events, states, i, id);
  }

  /** A renewal that finds no such session changes no table. */
  lemma RefusedRotationChangesNothing(w: World, events: seq<Event>, states: seq<State>, i: nat)
    requires Run(w, events, states) && i < |events| && events[i].Rotate?
    requires forall id :: !Rotates(w, states[i], events[i], id)
    ensures var s, t := states[i], states[i + 1];
            && t.accounts == s.accounts && t.clients == s.clients && t.codes == s.codes && t.sessions == s.sessions
            && t.flights == s.flights
  {
    InvAt(w, events, states, i);
    StepAt(w, events, states, i);
    var e := events[i];
    if WellFormedRenewal(w, states[i], e.tokenClient, e.renewal, e.origin) {
      RotateNoneEffect(w, states[i], e);
    }
  }

  // --- provenance ----------------------------------------------------------------------------------------

  /** The four events that a session comes from: the authorization, the INSERT of its code, the exchange, and the
      INSERT of the session. */
  ghost predicate ComesFrom(w: World, events: seq<Event>, id: string, began: nat, stored: nat, taken: nat,
                            created: nat)
  {
    && began < stored < taken < created < |events|
    && events[began].BeginAuthorization? && events[began].accepted
    && events[stored].StoreCode?
    && events[taken].TakeCode?
    && Sha256(w.trim(events[taken].exchange.code)) == Sha256(w.mint(AuthorizationCode, events[stored].code))
    && w.trim(events[taken].exchange.redirectUri) == w.trim(events[began].form.redirectUri)
    && w.s256(w.trim(events[taken].exchange.verifier)) == w.trim(events[began].form.codeChallenge)
    && events[created].StoreSession? && id == w.mint(SessionId, events[created].session)
  }

  lemma SessionComesFrom(w: World, s: State, id: string) returns (began: nat, stored: nat, taken: nat, created: nat)
    requires Inv(w, s) && id in s.sessions
    ensures ComesFrom(w, s.log, id, began, stored, taken, created)
    ensures var row, form := s.sessions[id], s.log[began].form;
            && row.tenant == Tenant(w, w.trim(form.apiKey)) && row.tenant in s.accounts
            && row.clientId == w.trim(form.clientId) && row.scope == NormalScope(w.trim(form.scope))
            && w.scopeAllowed(row.scope) && w.scopeContainsMcp(row.scope)
  {
    assert SessionOk(w, s, id, s.sessions[id]);
    var o := s.origins[id];
    assert CreatedBy(w, s, id, o);
    assert TakeOk(w, s, o.code, s.taken[o.code]);
    var i := s.granted[o.code];
    assert IssueOk(w, s, o.code, i);
    began, stored, taken, created := i.grant.began, i.stored, s.taken[o.code], o.created;
  }

  /** Every session has a supported scope that contains mcp. */
  lemma SessionScope(w: World, events: seq<Event>, states: seq<State>, i: nat, id: string)
    requires Run(w, events, states) && i <= |events| && id in states[i].sessions
    ensures w.scopeAllowed(states[i].sessions[id].scope) && w.scopeContainsMcp(states[i].sessions[id].scope)
  {
    InvAt(w, events, states, i);
    var began, stored, taken, created := SessionComesFrom(w, states[i], id);
  }

  lemma AccountKey(w: World, s: State, apiKey: string)
    requires Proper(w) && AccountsOk(w, s) && Tenant(w, w.trim(apiKey)) in s.accounts
    ensures s.accounts[Tenant(w, w.trim(apiKey))].apiKey == w.trim(apiKey)
  {
  }

  /** Whenever an access token resolves, through any number of rotations and interleaved requests, the key returned is
      the trimmed key entered in the authorization whose code started that session. */
  lemma ResolvedKeyWasEntered(w: World, events: seq<Event>, states: seq<State>, j: nat, token: string, id: string,
                              key: string)
    returns (began: nat, stored: nat, taken: nat, created: nat)
    requires Run(w, events, states) && j <= |events| && ResolvesBy(w, states[j], token, id, key)
    ensures ComesFrom(w, events[..j], id, began, stored, taken, created)
    ensures key == w.trim(events[began].form.apiKey)
    ensures states[j].sessions[id].clientId == w.trim(events[began].form.clientId)
    ensures states[j].sessions[id].scope == NormalScope(w.trim(events[began].form.scope))
  {
    InvAt(w, events, states, j);
    LogAt(w, events, states, j);
    began, stored, taken, created := SessionComesFrom(w, states[j], id);
    AccountKey(w, states[j], events[began].form.apiKey);
  }

  /** A session keeps its tenant, client and scope for ever, and its tenant keeps its key. */
  lemma SessionKeepsIdentity(w: World, events: seq<Event>, states: seq<State>, i: nat, j: nat, id: string)
    requires Run(w, events, states) && i <= j <= |events| && id in states[i].sessions
    ensures id in states[j].sessions
    ensures var a, b := states[i].sessions[id], states[j].sessions[id];
            && b.tenant == a.tenant && b.clientId == a.clientId && b.scope == a.scope
            && a.tenant in states[i].accounts && a.tenant in states[j].accounts
            && states[j].accounts[a.tenant].apiKey == states[i].accounts[a.tenant].apiKey
  {
    LaterAt(w, events, states, i, j);
    InvAt(w, events, states, i);
    var began, stored, taken, created := SessionComesFrom(w, states[i], id);
    assert RowKept(states[j], states[i].sessions[id], states[j].sessions[id]);
  }

  // --- resolving -----------------------------------------------------------------------------------------

  /** The check of the scope after the SELECT never fails: every selected session resolves, to one key. */
  lemma SelectedResolves(w: World, events: seq<Event>, states: seq<State>, j: nat, token: string, id: string)
    requires Run(w, events, states) && j <= |events| && Selected(states[j], token, id)
    ensures ResolvesBy(w, states[j], token, id, states[j].accounts[states[j].sessions[id].tenant].apiKey)
  {
    InvAt(w, events, states, j);
    var began, stored, taken, created := SessionComesFrom(w, states[j], id);
  }

  /** A token resolves through at most one session, so to at most one key. */
  lemma ResolvesOnce(w: World, events: seq<Event>, states: seq<State>, j: nat, token: string,
                     a: string, key: string, b: string, other: string)
    requires Run(w, events, states) && j <= |events|
    requires ResolvesBy(w, states[j], token, a, key) && ResolvesBy(w, states[j], token, b, other)
    ensures a == b && key == other
  {
    PairsAreUnshared(w, events, states, j, a, b);
  }

  /** The event gives session `id` the access token minted from its draw. */
  ghost predicate Issues(w: World, s: State, e: Event, id: string) {
    || (e.StoreSession? && e.request in s.flights && s.flights[e.request].CodeTaken?
        && id == w.mint(SessionId, e.session))
    || Rotates(w, s, e, id)
  }

  function IssuedAccess(w: World, e: Event): string
    requires e.StoreSession? || e.Rotate?
  {
    w.mint(AccessToken, e.access)
  }

  function IssuedRefresh(w: World, e: Event): string
    requires e.StoreSession? || e.Rotate?
  {
    w.mint(RefreshToken, e.refresh)
  }

  lemma IssuesGives(w: World, events: seq<Event>, states: seq<State>, i: nat, id: string)
    requires Run(w, events, states) && i < |events| && Issues(w, states[i], events[i], id)
    ensures id in states[i + 1].sessions
    ensures states[i + 1].sessions[id].accessHash == Sha256(IssuedAccess(w, events[i]))
    ensures states[i + 1].sessions[id].accessExpiresAt == events[i].readAt + ACCESS_TTL
    ensures states[i + 1].sessions[id].refreshHash == Sha256(IssuedRefresh(w, events[i]))
    ensures states[i + 1].sessions[id].refreshExpiresAt == events[i].readAt + REFRESH_TTL
  {
    InvAt(w, events, states, i);
    StepAt(w, events, states, i);
    if events[i].StoreSession? {
      var d := states[i].flights[events[i].request].code;
      SessionIsNew(w, states[i], events[i], d);
      StoreSessionEffect(w, states[i], events[i], d);
    } else {
      RotateOneEffect(w, states[i], events[i], id);
    }
  }

  /** From its issue on, an access token resolves exactly until its pair is replaced or it expires, always through its
      own session and to the key of that session's account. */
  lemma IssuedTokenResolvesExactly(w: World, events: seq<Event>, states: seq<State>, i: nat, j: nat,
                                   id: string, other: string, key: string)
    requires Run(w, events, states) && i < j <= |events| && Issues(w, states[i], events[i], id)
    ensures var s, token := states[j], IssuedAccess(w, events[i]);
            ResolvesBy(w, s, token, other, key)
            <==> && other == id && Sha256(token) !in s.retiredAccess && s.clock < events[i].readAt + ACCESS_TTL
                 && id in s.sessions && s.sessions[id].tenant in s.accounts
                 && key == s.accounts[s.sessions[id].tenant].apiKey
  {
    var s, token := states[j], IssuedAccess(w, events[i]);
    IssuesGives(w, events, states, i, id);
    SessionKeepsIdentity(w, events, states, i + 1, j, id);
    RowSince(w, events, states, i + 1, j, id);
    InvAt(w, events, states, j);
    if ResolvesBy(w, s, token, other, key) {
      assert Sha256(token) !in s.retiredAccess;
      PairsAreUnshared(w, events, states, j, other, id);
    }
    if Selected(s, token, id) {
      SelectedResolves(w, events, states, j, token, id);
    }
  }

  /** The renewal would be accepted from the client of the given session. */
  ghost predicate RenewalFrom(w: World, s: State, e: Event, id: string) {
    && e.Rotate? && id in s.sessions && s.sessions[id].clientId != ""
    && Authenticate(w, s.clients, e.tokenClient) == Some(s.sessions[id].clientId)
    && ValidResource(e.origin, w.trim(e.renewal.resource))
  }

  /** From its issue on, a refresh token sent as it was answered rotates exactly until its pair is replaced or its
      thirty days have passed, for the client of its session, with a valid resource, and always its own session. */
  lemma IssuedRefreshRotatesExactly(w: World, events: seq<Event>, states: seq<State>, i: nat, j: nat,
                                    id: string, e: Event, other: string)
    requires Run(w, events, states) && MintTrimmed(w) && i < j <= |events| && Issues(w, states[i], events[i], id)
    requires e.Rotate? && e.renewal.refreshToken == IssuedRefresh(w, events[i])
    ensures Rotates(w, states[j], e, other)
            <==> && other == id && RenewalFrom(w, states[j], e, id)
                 && Sha256(IssuedRefresh(w, events[i])) !in states[j].retiredRefresh
                 && states[j].clock < events[i].readAt + REFRESH_TTL
  {
    var token, expiresAt := IssuedRefreshKnown(w, events, states, i, j, id);
    TokensAt(w, events, states, j);
    RenewsExactly(w, states[j], e, id, token, expiresAt, other);
  }

  lemma TokensAt(w: World, events: seq<Event>, states: seq<State>, i: nat)
    requires Run(w, events, states) && i <= |events|
    ensures TokensOk(states[i])
  {
    InvAt(w, events, states, i);
  }

  lemma IssuedRefreshKnown(w: World, events: seq<Event>, states: seq<State>, i: nat, j: nat, id: string)
    returns (token: string, expiresAt: int)
    requires Run(w, events, states) && MintTrimmed(w) && i < j <= |events| && Issues(w, states[i], events[i], id)
    ensures token == IssuedRefresh(w, events[i]) && expiresAt == events[i].readAt + REFRESH_TTL
    ensures w.trim(token) == token && token != "" && id in states[j].sessions
    ensures Sha256(token) in states[j].retiredRefresh
            || (states[j].sessions[id].refreshHash == Sha256(token)
                && states[j].sessions[id].refreshExpiresAt == expiresAt)
  {
    IssuesGives(w, events, states, i, id);
    RowSince(w, events, states, i + 1, j, id);
    token, expiresAt := IssuedRefresh(w, events[i]), events[i].readAt + REFRESH_TTL;
  }

  lemma RenewsExactly(w: World, s: State, e: Event, id: string, token: string, expiresAt: int, other: string)
    requires TokensOk(s) && e.Rotate? && e.renewal.refreshToken == token && w.trim(token) == token != ""
    requires id in s.sessions
    requires Sha256(token) in s.retiredRefresh
             || (s.sessions[id].refreshHash == Sha256(token) && s.sessions[id].refreshExpiresAt == expiresAt)
    ensures Rotates(w, s, e, other)
            <==> other == id && RenewalFrom(w, s, e, id) && Sha256(token) !in s.retiredRefresh && s.clock < expiresAt
  {
  }

  /** The row of a session is as it was, or both its old tokens are retired. */
  lemma RowSince(w: World, events: seq<Event>, states: seq<State>, i: nat, j: nat, id: string)
    requires Run(w, events, states) && i <= j <= |events| && id in states[i].sessions
    ensures id in states[j].sessions
    ensures states[j].sessions[id] == states[i].sessions[id]
            || (states[i].sessions[id].accessHash in states[j].retiredAccess
                && states[i].sessions[id].refreshHash in states[j].retiredRefresh)
  {
    LaterAt(w, events, states, i, j);
    assert RowKept(states[j], states[i].sessions[id], states[j].sessions[id]);
  }

  // --- lifetimes -----------------------------------------------------------------------------------------

  lemma ExpiriesIn(w: World, s: State, id: string)
    requires SessionsOk(w, s) && id in s.sessions
    ensures s.sessions[id].accessExpiresAt == s.sessions[id].refreshExpiresAt - (REFRESH_TTL - ACCESS_TTL)
    ensures s.sessions[id].refreshExpiresAt <= s.clock + REFRESH_TTL
  {
  }

  /** Whenever an access token resolves, its session's refresh token can still be redeemed by its client. */
  lemma ResolvingIsRenewable(w: World, events: seq<Event>, states: seq<State>, j: nat, token: string, id: string,
                             e: Event)
    requires Run(w, events, states) && j <= |events| && Selected(states[j], token, id)
    requires e.Rotate? && WellFormedRenewal(w, states[j], e.tokenClient, e.renewal, e.origin)
    requires Authenticate(w, states[j].clients, e.tokenClient).value == states[j].sessions[id].clientId
    requires Sha256(w.trim(e.renewal.refreshToken)) == states[j].sessions[id].refreshHash
    ensures Rotates(w, states[j], e, id)
    ensures states[j].clock + (REFRESH_TTL - ACCESS_TTL) < states[j].sessions[id].refreshExpiresAt
  {
    InvAt(w, events, states, j);
    ExpiriesIn(w, states[j], id);
  }

  lemma NoSessionEvent(w: World, s: State, e: Event)
    requires !e.StoreSession? && !e.Rotate?
    ensures Step(w, s, e).sessions == s.sessions
  {
  }

  lemma RefusedRotation(w: World, s: State, e: Event)
    requires e.Rotate? && !WellFormedRenewal(w, s, e.tokenClient, e.renewal, e.origin)
    ensures Step(w, s, e).sessions == s.sessions
  {
  }

  lemma RowElsewhere(sessions: map<string, Session>, after: map<string, Session>, other: string, row: Session,
                     id: string)
    requires id in sessions && id != other && after == sessions[other := row]
    ensures id in after && after[id] == sessions[id]
  {
  }

  lemma AnotherRotation(w: World, s: State, e: Event, other: string)
    requires MintInjective(w) && IssuedOk(w, s) && SessionsOk(w, s) && TokensOk(s)
    requires Rotates(w, s, e, other) && e.access !in s.drawn && e.refresh !in s.drawn
    ensures Step(w, s, e).sessions == s.sessions[other := RenewedRow(w, s.sessions[other], e)]
  {
    RotateOneEffect(w, s, e, other);
  }

  lemma NoRotation(w: World, s: State, e: Event)
    requires TokensOk(s) && e.Rotate? && WellFormedRenewal(w, s, e.tokenClient, e.renewal, e.origin)
    requires forall id :: !Rotates(w, s, e, id)
    ensures Step(w, s, e).sessions == s.sessions
  {
    RotateNoneEffect(w, s, e);
  }

  lemma RotationElsewhere(w: World, s: State, e: Event, id: string)
    requires MintInjective(w) && IssuedOk(w, s) && SessionsOk(w, s) && TokensOk(s)
    requires Legal(s, e) && e.Rotate? && id in s.sessions && !Rotates(w, s, e, id)
    ensures id in Step(w, s, e).sessions && Step(w, s, e).sessions[id] == s.sessions[id]
  {
    if !WellFormedRenewal(w, s, e.tokenClient, e.renewal, e.origin) {
      RefusedRotation(w, s, e);
    } else if other :| Rotates(w, s, e, other) {
      AnotherRotation(w, s, e, other);
      RowElsewhere(s.sessions, Step(w, s, e).sessions, other, RenewedRow(w, s.sessions[other], e), id);
    } else {
      NoRotation(w, s, e);
    }
  }

  lemma IdDiffers(w: World, s: State, e: Event, id: string)
    requires MintInjective(w) && IssuedOk(w, s) && OriginsOk(w, s) && SessionsOk(w, s)
    requires e.StoreSession? && Legal(s, e) && id in s.sessions
    ensures id != w.mint(SessionId, e.session)
  {
    IdIsNew(w, s, e.session);
  }

  lemma StoringAddsOnly(w: World, s: State, e: Event, id: string)
    requires e.StoreSession? && id in s.sessions && id != w.mint(SessionId, e.session)
    ensures id in Step(w, s, e).sessions && Step(w, s, e).sessions[id] == s.sessions[id]
  {
  }

  lemma OnlyRotationChanges(w: World, s: State, e: Event, id: string)
    requires MintInjective(w) && IssuedOk(w, s) && SessionsOk(w, s) && OriginsOk(w, s) && TokensOk(s)
    requires Legal(s, e) && id in s.sessions && !Rotates(w, s, e, id)
    ensures id in Step(w, s, e).sessions && Step(w, s, e).sessions[id] == s.sessions[id]
  {
    if e.StoreSession? {
      IdDiffers(w, s, e, id);
      StoringAddsOnly(w, s, e, id);
    } else if e.Rotate? {
      RotationElsewhere(w, s, e, id);
    } else {
      NoSessionEvent(w, s, e);
    }
  }

  lemma {:induction false} UnrotatedRow(w: World, events: seq<Event>, states: seq<State>, i: nat, j: nat, id: string)
    requires Run(w, events, states) && i <= j <= |events| && id in states[i].sessions
    requires forall k :: i <= k < j ==> !Rotates(w, states[k], events[k], id)
    ensures id in states[j].sessions && states[j].sessions[id] == states[i].sessions[id]
    decreases j
  {
    if i < j {
      UnrotatedRow(w, events, states, i, j - 1, id);
      InvAt(w, events, states, j - 1);
      StepAt(w, events, states, j - 1);
      OnlyRotationChanges(w, states[j - 1], events[j - 1], id);
    }
  }

  /** Every gap between the creation or a rotation of a session and its next rotation is under thirty days: `i` is any
      position after the former, with no rotation of the session up to `j`. */
  lemma RotationGap(w: World, events: seq<Event>, states: seq<State>, i: nat, j: nat, id: string)
    requires Run(w, events, states) && i <= j < |events| && id in states[i].sessions
    requires forall k :: i <= k < j ==> !Rotates(w, states[k], events[k], id)
    requires Rotates(w, states[j], events[j], id)
    ensures states[j].clock < states[i].clock + REFRESH_TTL
  {
    UnrotatedRow(w, events, states, i, j, id);
    InvAt(w, events, states, i);
    ExpiriesIn(w, states[i], id);
  }
}
