/** Storing a session and replacing its pair of tokens keep the invariant. */
module OAuthSessions {
  import opened OpaqueTokens
  import opened OAuth
  import opened OAuthInvariant
  import opened OAuthSteps

  // --- storing a session ----------------------------------------------------------------------------------

  /** Neither hash is in any row. */
  ghost predicate NewPair(sessions: map<string, Session>, row: Session) {
    forall id :: id in sessions
      ==> sessions[id].accessHash != row.accessHash && sessions[id].refreshHash != row.refreshHash
  }

  lemma UniqueMore(sessions: map<string, Session>, id: string, row: Session)
    requires Unique(sessions) && NewPair(sessions, row)
    ensures Unique(sessions[id := row])
  {
  }

  /** Tokens minted from fresh draws are in no row and never were. */
  lemma PairIsNew(w: World, s: State, access: Draw, refresh: Draw, row: Session)
    requires MintInjective(w) && IssuedOk(w, s) && SessionsOk(w, s) && TokensOk(s)
    requires access !in s.drawn && refresh !in s.drawn
    requires row.accessHash == Sha256(w.mint(AccessToken, access))
    requires row.refreshHash == Sha256(w.mint(RefreshToken, refresh))
    ensures NewPair(s.sessions, row)
    ensures row.accessHash !in s.retiredAccess && row.refreshHash !in s.retiredRefresh
  {
  }

  /** The row that the event inserts. */
  function SessionRow(w: World, f: Flight, e: Event): Session
    requires f.CodeTaken? && e.StoreSession?
  {
    Session(f.tenant, f.clientId, f.scope, Sha256(w.mint(AccessToken, e.access)),
            Sha256(w.mint(RefreshToken, e.refresh)), e.readAt + ACCESS_TTL, e.readAt + REFRESH_TTL)
  }

  /** The handler whose exchange took the code `d` stores the session. */
  ghost predicate Stores(s: State, e: Event, d: Digest) {
    && e.StoreSession? && e.request in s.flights && s.flights[e.request].CodeTaken? && s.flights[e.request].code == d
    && Legal(s, e)
  }

  lemma IdIsNew(w: World, s: State, session: Draw)
    requires MintInjective(w) && IssuedOk(w, s) && OriginsOk(w, s) && SessionsOk(w, s) && session !in s.drawn
    ensures w.mint(SessionId, session) !in s.sessions && w.mint(SessionId, session) !in s.origins
  {
  }

  /** Giving a row a fresh pair breaks no UNIQUE constraint. */
  lemma FreshPairUnique(w: World, s: State, access: Draw, refresh: Draw, id: string, row: Session)
    requires MintInjective(w) && IssuedOk(w, s) && SessionsOk(w, s) && TokensOk(s)
    requires access !in s.drawn && refresh !in s.drawn
    requires row.accessHash == Sha256(w.mint(AccessToken, access))
    requires row.refreshHash == Sha256(w.mint(RefreshToken, refresh))
    ensures Unique(s.sessions[id := row])
  {
    PairIsNew(w, s, access, refresh, row);
    UniqueMore(s.sessions, id, row);
  }

  lemma FlightSpends(w: World, s: State, request: nat)
    requires FlightsOk(w, s) && request in s.flights
    ensures FlightOk(w, s, s.flights[request])
    ensures s.flights[request].CodeTaken? ==> Unspent(s, s.flights[request].code)
  {
  }

  lemma FlightTenant(w: World, s: State, request: nat)
    requires FlightsOk(w, s) && request in s.flights && s.flights[request].CodeTaken?
    ensures s.flights[request].tenant in s.accounts
  {
  }

  /** The session that the INSERT stores is new, and its account exists: no constraint fails. */
  lemma SessionIsNew(w: World, s: State, e: Event, d: Digest)
    requires MintInjective(w) && IssuedOk(w, s) && OriginsOk(w, s) && SessionsOk(w, s) && TokensOk(s) && FlightsOk(w, s)
    requires Stores(s, e, d)
    ensures w.mint(SessionId, e.session) !in s.sessions && w.mint(SessionId, e.session) !in s.origins
    ensures s.flights[e.request].tenant in s.accounts
    ensures Unique(s.sessions[w.mint(SessionId, e.session) := SessionRow(w, s.flights[e.request], e)])
  {
    IdIsNew(w, s, e.session);
    FreshPairUnique(w, s, e.access, e.refresh, w.mint(SessionId, e.session), SessionRow(w, s.flights[e.request], e));
    FlightTenant(w, s, e.request);
  }

  ghost predicate StoreSessionDoes(w: World, s: State, t: State, e: Event, id: string, row: Session, o: Origin)
    requires e.StoreSession?
  {
    && t.accounts == s.accounts && t.clients == s.clients && t.log == s.log + [e] && t.clock == s.clock
    && t.drawn == s.drawn + {e.access, e.refresh, e.session}
    && t.issued == s.issued + {w.mint(AccessToken, e.access), w.mint(RefreshToken, e.refresh), id}
    && t.granted == s.granted && t.codes == s.codes && t.taken == s.taken
    && t.sessions == s.sessions[id := row] && t.origins == s.origins[id := o]
    && t.retiredAccess == s.retiredAccess && t.retiredRefresh == s.retiredRefresh
    && t.flights == s.flights - {e.request}
  }

  lemma StoreSessionEffect(w: World, s: State, e: Event, d: Digest)
    requires Stores(s, e, d)
    requires w.mint(SessionId, e.session) !in s.sessions && s.flights[e.request].tenant in s.accounts
    requires Unique(s.sessions[w.mint(SessionId, e.session) := SessionRow(w, s.flights[e.request], e)])
    ensures StoreSessionDoes(w, s, Step(w, s, e), e, w.mint(SessionId, e.session),
                             SessionRow(w, s.flights[e.request], e), Origin(d, |s.log|))
  {
  }

  lemma IssuedThree(w: World, s: State, t: State, k: Kind, x: Draw, l: Kind, y: Draw, m: Kind, z: Draw)
    requires IssuedOk(w, s) && t.drawn == s.drawn + {x, y, z}
    requires t.issued == s.issued + {w.mint(k, x), w.mint(l, y), w.mint(m, z)}
    ensures IssuedOk(w, t)
  {
  }

  lemma StoreSessionLater(w: World, s: State, t: State, e: Event, id: string, row: Session, o: Origin)
    requires e.StoreSession? && StoreSessionDoes(w, s, t, e, id, row, o) && id !in s.sessions && id !in s.origins
    ensures Later(s, t)
  {
  }

  lemma OriginsMore(w: World, s: State, t: State, id: string, o: Origin)
    requires OriginsOk(w, s) && Later(s, t) && t.origins == s.origins[id := o]
    requires CreatedBy(w, t, id, o) && Unspent(s, o.code)
    ensures OriginsOk(w, t)
  {
  }

  lemma SessionsMore(w: World, s: State, t: State, id: string, row: Session, o: Origin)
    requires SessionsOk(w, s) && Later(s, t) && t.sessions == s.sessions[id := row] && t.origins == s.origins[id := o]
    requires SessionOk(w, t, id, row)
    ensures SessionsOk(w, t)
  {
  }

  lemma TokensMore(s: State, t: State, id: string, row: Session)
    requires TokensOk(s) && Later(s, t) && t.sessions == s.sessions[id := row] && Unique(t.sessions)
    requires t.retiredAccess == s.retiredAccess && t.retiredRefresh == s.retiredRefresh
    requires row.accessHash !in s.retiredAccess && row.refreshHash !in s.retiredRefresh
    ensures TokensOk(t)
  {
  }

  /** The other exchanges in flight took other codes. */
  lemma StoreSessionFlights(w: World, s: State, t: State, request: nat, id: string, o: Origin)
    requires FlightsOk(w, s) && Later(s, t) && t.origins == s.origins[id := o] && t.flights == s.flights - {request}
    requires request in s.flights && s.flights[request].CodeTaken? && s.flights[request].code == o.code
    ensures FlightsOk(w, t)
  {
    forall r | r in t.flights ensures FlightOk(w, t, t.flights[r]) {
      assert FlightOk(w, s, s.flights[r]);
      FlightStays(w, s, t, s.flights[r]);
    }
  }

  lemma NewSession(w: World, s: State, t: State, e: Event, f: Flight, id: string, o: Origin)
    requires FlightOk(w, s, f) && f.CodeTaken? && o == Origin(f.code, |s.log|) && TakenOk(w, s)
    requires e.StoreSession? && e.readAt <= s.clock && id == w.mint(SessionId, e.session)
    requires StoreSessionDoes(w, s, t, e, id, SessionRow(w, f, e), o)
    ensures CreatedBy(w, t, id, o) && SessionOk(w, t, id, SessionRow(w, f, e))
  {
  }

  lemma SessionStored(w: World, s: State, t: State, e: Event, id: string, row: Session, o: Origin)
    requires Inv(w, s) && Later(s, t) && e.StoreSession? && StoreSessionDoes(w, s, t, e, id, row, o)
    requires id == w.mint(SessionId, e.session)
    requires e.request in s.flights && s.flights[e.request].CodeTaken? && s.flights[e.request].code == o.code
    requires CreatedBy(w, t, id, o) && SessionOk(w, t, id, row) && Unspent(s, o.code) && Unique(t.sessions)
    requires row == SessionRow(w, s.flights[e.request], e) && Legal(s, e) && MintInjective(w)
    ensures Inv(w, t)
  {
    PairIsNew(w, s, e.access, e.refresh, row);
    AccountsSame(w, s, t);
    IssuedThree(w, s, t, AccessToken, e.access, RefreshToken, e.refresh, SessionId, e.session);
    GrantedFrame(w, s, t);
    CodesFrame(w, s, t);
    TakenFrame(w, s, t);
    OriginsMore(w, s, t, id, o);
    SessionsMore(w, s, t, id, row, o);
    TokensMore(s, t, id, row);
    StoreSessionFlights(w, s, t, e.request, id, o);
  }

  lemma StoreSessionKeeps(w: World, s: State, e: Event, d: Digest)
    requires Proper(w) && Inv(w, s) && Stores(s, e, d)
    ensures Inv(w, Step(w, s, e)) && Later(s, Step(w, s, e))
  {
    var t := Step(w, s, e);
    var f := s.flights[e.request];
    var id, row, o := w.mint(SessionId, e.session), SessionRow(w, f, e), Origin(d, |s.log|);
    SessionIsNew(w, s, e, d);
    StoreSessionEffect(w, s, e, d);
    StoreSessionLater(w, s, t, e, id, row, o);
    FlightSpends(w, s, e.request);
    NewSession(w, s, t, e, f, id, o);
    SessionStored(w, s, t, e, id, row, o);
  }

  // --- replacing a pair ---------------------------------------------------------------------------------

  /** The UPDATE changes at most one row. */
  lemma UpdatedOne(sessions: map<string, Session>, id: string, hash: Digest, clientId: string, now: int,
                   access: string, refresh: string, readAt: int)
    requires Unique(sessions) && id in sessions && Renewable(sessions[id], hash, clientId, now)
    ensures Updated(sessions, hash, clientId, now, access, refresh, readAt)
            == sessions[id := Renewed(sessions[id], access, refresh, readAt)]
    ensures RenewedIds(sessions, hash, clientId, now) == {id}
    ensures AccessHashes(sessions, {id}) == {sessions[id].accessHash}
    ensures RefreshHashes(sessions, {id}) == {sessions[id].refreshHash}
  {
  }

  lemma UpdatedNone(sessions: map<string, Session>, hash: Digest, clientId: string, now: int,
                    access: string, refresh: string, readAt: int)
    requires forall id :: id in sessions ==> !Renewable(sessions[id], hash, clientId, now)
    ensures Updated(sessions, hash, clientId, now, access, refresh, readAt) == sessions
    ensures RenewedIds(sessions, hash, clientId, now) == {}
    ensures AccessHashes(sessions, {}) == {} && RefreshHashes(sessions, {}) == {}
  {
  }

  /** The renewed row. */
  function RenewedRow(w: World, row: Session, e: Event): Session
    requires e.Rotate?
  {
    Renewed(row, w.mint(AccessToken, e.access), w.mint(RefreshToken, e.refresh), e.readAt)
  }

  ghost predicate RotateDoes(w: World, s: State, t: State, e: Event, sessions: map<string, Session>,
                             access: set<Digest>, refresh: set<Digest>)
    requires e.Rotate?
  {
    && t.accounts == s.accounts && t.clients == s.clients && t.log == s.log + [e] && t.clock == s.clock
    && t.drawn == s.drawn + {e.access, e.refresh}
    && t.issued == s.issued + {w.mint(AccessToken, e.access), w.mint(RefreshToken, e.refresh)}
    && t.granted == s.granted && t.codes == s.codes && t.taken == s.taken && t.flights == s.flights
    && t.sessions == sessions && t.origins == s.origins
    && t.retiredAccess == s.retiredAccess + access && t.retiredRefresh == s.retiredRefresh + refresh
  }

  /** The hash and the client that a renewal looks for. */
  function WantedHash(w: World, e: Event): Digest
    requires e.Rotate?
  {
    Sha256(w.trim(e.renewal.refreshToken))
  }

  function RotateUpdate(w: World, s: State, e: Event, clientId: string): map<string, Session>
    requires e.Rotate?
  {
    Updated(s.sessions, WantedHash(w, e), clientId, s.clock,
            w.mint(AccessToken, e.access), w.mint(RefreshToken, e.refresh), e.readAt)
  }

  lemma RotateEffect(w: World, s: State, e: Event, clientId: string)
    requires e.Rotate? && WellFormedRenewal(w, s, e.tokenClient, e.renewal, e.origin)
    requires clientId == Authenticate(w, s.clients, e.tokenClient).value
    requires Unique(RotateUpdate(w, s, e, clientId))
    ensures var ids := RenewedIds(s.sessions, WantedHash(w, e), clientId, s.clock);
            RotateDoes(w, s, Step(w, s, e), e, RotateUpdate(w, s, e, clientId),
                       AccessHashes(s.sessions, ids), RefreshHashes(s.sessions, ids))
  {
  }

  lemma RotateLater(w: World, s: State, t: State, e: Event, id: string, row: Session)
    requires e.Rotate? && id in s.sessions
    requires RotateDoes(w, s, t, e, s.sessions[id := row], {s.sessions[id].accessHash}, {s.sessions[id].refreshHash})
    requires row.tenant == s.sessions[id].tenant && row.clientId == s.sessions[id].clientId
    requires row.scope == s.sessions[id].scope
    ensures Later(s, t)
  {
  }

  lemma SessionChanged(w: World, s: State, t: State, id: string, row: Session)
    requires SessionsOk(w, s) && Later(s, t) && id in s.sessions
    requires t.sessions == s.sessions[id := row] && t.origins == s.origins && SessionOk(w, t, id, row)
    ensures SessionsOk(w, t)
  {
  }

  /** A renewed row keeps its tenant, client and scope, and has the expiries of its new pair. */
  lemma RenewedOk(w: World, s: State, t: State, e: Event, id: string)
    requires e.Rotate? && id in s.sessions && SessionOk(w, s, id, s.sessions[id]) && Later(s, t)
    requires e.readAt <= t.clock
    requires w.mint(AccessToken, e.access) in t.issued && w.mint(RefreshToken, e.refresh) in t.issued
    ensures SessionOk(w, t, id, RenewedRow(w, s.sessions[id], e))
  {
  }

  /** The old pair is retired and in no row; the new one is in one row and was never retired. */
  lemma TokensRenewed(s: State, t: State, id: string, row: Session)
    requires TokensOk(s) && id in s.sessions && NewPair(s.sessions, row) && s.issued <= t.issued
    requires row.accessHash !in s.retiredAccess && row.refreshHash !in s.retiredRefresh
    requires s.sessions[id].accessHash.preimage in s.issued && s.sessions[id].refreshHash.preimage in s.issued
    requires t.sessions == s.sessions[id := row]
    requires t.retiredAccess == s.retiredAccess + {s.sessions[id].accessHash}
    requires t.retiredRefresh == s.retiredRefresh + {s.sessions[id].refreshHash}
    ensures TokensOk(t)
  {
  }

  lemma IssuedTwo(w: World, s: State, t: State, k: Kind, x: Draw, l: Kind, y: Draw)
    requires IssuedOk(w, s) && t.drawn == s.drawn + {x, y} && t.issued == s.issued + {w.mint(k, x), w.mint(l, y)}
    ensures IssuedOk(w, t)
  {
  }

  /** What a renewal leaves alone. */
  lemma RotateFrame(w: World, s: State, t: State, e: Event, sessions: map<string, Session>,
                    access: set<Digest>, refresh: set<Digest>)
    requires Inv(w, s) && Later(s, t) && e.Rotate? && RotateDoes(w, s, t, e, sessions, access, refresh)
    requires SessionsOk(w, t) && TokensOk(t)
    ensures Inv(w, t)
  {
    AccountsSame(w, s, t);
    IssuedTwo(w, s, t, AccessToken, e.access, RefreshToken, e.refresh);
    GrantedFrame(w, s, t);
    CodesFrame(w, s, t);
    TakenFrame(w, s, t);
    OriginsFrame(w, s, t);
    FlightsFrame(w, s, t);
  }

  /** The sessions after a renewal. */
  lemma PairRenewedSessions(w: World, s: State, t: State, e: Event, id: string, row: Session)
    requires MintInjective(w) && IssuedOk(w, s) && SessionsOk(w, s) && TokensOk(s) && Later(s, t)
    requires e.Rotate? && e.access !in s.drawn && e.refresh !in s.drawn && e.readAt <= s.clock
    requires id in s.sessions && row == RenewedRow(w, s.sessions[id], e)
    requires RotateDoes(w, s, t, e, s.sessions[id := row], {s.sessions[id].accessHash}, {s.sessions[id].refreshHash})
    ensures SessionsOk(w, t) && TokensOk(t)
  {
    PairIsNew(w, s, e.access, e.refresh, row);
    assert SessionOk(w, s, id, s.sessions[id]);
    RenewedOk(w, s, t, e, id);
    SessionChanged(w, s, t, id, row);
    TokensRenewed(s, t, id, row);
  }

  lemma PairRenewed(w: World, s: State, t: State, e: Event, id: string, row: Session)
    requires MintInjective(w) && Inv(w, s)
    requires e.Rotate? && e.access !in s.drawn && e.refresh !in s.drawn && e.readAt <= s.clock
    requires id in s.sessions && row == RenewedRow(w, s.sessions[id], e)
    requires RotateDoes(w, s, t, e, s.sessions[id := row], {s.sessions[id].accessHash}, {s.sessions[id].refreshHash})
    ensures Inv(w, t) && Later(s, t)
  {
    RotateLater(w, s, t, e, id, row);
    PairRenewedSessions(w, s, t, e, id, row);
    RotateFrame(w, s, t, e, s.sessions[id := row], {s.sessions[id].accessHash}, {s.sessions[id].refreshHash});
  }

  lemma NothingRenewedSessions(w: World, s: State, t: State, e: Event)
    requires SessionsOk(w, s) && TokensOk(s) && e.Rotate? && RotateDoes(w, s, t, e, s.sessions, {}, {})
    ensures Later(s, t) && SessionsOk(w, t) && TokensOk(t)
  {
    SameSessionsKept(s, t);
    SessionsFrame(w, s, t);
    TokensFrame(s, t);
  }

  lemma NothingRenewed(w: World, s: State, t: State, e: Event)
    requires Inv(w, s) && e.Rotate? && RotateDoes(w, s, t, e, s.sessions, {}, {})
    ensures Inv(w, t) && Later(s, t)
  {
    NothingRenewedSessions(w, s, t, e);
    RotateFrame(w, s, t, e, s.sessions, {}, {});
  }

  /** The UPDATE of a successful renewal changes exactly one row, and breaks no constraint. */
  lemma RotateOneUpdate(w: World, s: State, e: Event, id: string, clientId: string)
    requires MintInjective(w) && IssuedOk(w, s) && SessionsOk(w, s) && TokensOk(s)
    requires e.Rotate? && e.access !in s.drawn && e.refresh !in s.drawn
    requires id in s.sessions && Renewable(s.sessions[id], WantedHash(w, e), clientId, s.clock)
    ensures RotateUpdate(w, s, e, clientId) == s.sessions[id := RenewedRow(w, s.sessions[id], e)]
    ensures Unique(RotateUpdate(w, s, e, clientId))
    ensures RenewedIds(s.sessions, WantedHash(w, e), clientId, s.clock) == {id}
    ensures AccessHashes(s.sessions, {id}) == {s.sessions[id].accessHash}
    ensures RefreshHashes(s.sessions, {id}) == {s.sessions[id].refreshHash}
  {
    FreshPairUnique(w, s, e.access, e.refresh, id, RenewedRow(w, s.sessions[id], e));
    UpdatedOne(s.sessions, id, WantedHash(w, e), clientId, s.clock,
               w.mint(AccessToken, e.access), w.mint(RefreshToken, e.refresh), e.readAt);
  }

  /** A successful renewal replaces the pair of exactly one row. */
  lemma RotateOneEffect(w: World, s: State, e: Event, id: string)
    requires MintInjective(w) && IssuedOk(w, s) && SessionsOk(w, s) && TokensOk(s)
    requires Rotates(w, s, e, id) && e.access !in s.drawn && e.refresh !in s.drawn
    ensures RotateDoes(w, s, Step(w, s, e), e, s.sessions[id := RenewedRow(w, s.sessions[id], e)],
                       {s.sessions[id].accessHash}, {s.sessions[id].refreshHash})
  {
    var clientId := Authenticate(w, s.clients, e.tokenClient).value;
    RotateOneUpdate(w, s, e, id, clientId);
    RotateEffect(w, s, e, clientId);
  }

  lemma RotateNoneEffect(w: World, s: State, e: Event)
    requires Unique(s.sessions) && e.Rotate? && WellFormedRenewal(w, s, e.tokenClient, e.renewal, e.origin)
    requires forall id :: !Rotates(w, s, e, id)
    ensures RotateDoes(w, s, Step(w, s, e), e, s.sessions, {}, {})
  {
    var clientId := Authenticate(w, s.clients, e.tokenClient).value;
    forall id | id in s.sessions ensures !Renewable(s.sessions[id], WantedHash(w, e), clientId, s.clock) {
      assert !Rotates(w, s, e, id);
    }
    UpdatedNone(s.sessions, WantedHash(w, e), clientId, s.clock,
                w.mint(AccessToken, e.access), w.mint(RefreshToken, e.refresh), e.readAt);
    RotateEffect(w, s, e, clientId);
  }

  lemma RenewedKeeps(w: World, s: State, e: Event, id: string, row: Session)
    requires Proper(w) && Inv(w, s) && Rotates(w, s, e, id) && row == RenewedRow(w, s.sessions[id], e)
    requires e.access !in s.drawn && e.refresh !in s.drawn && e.readAt <= s.clock
    ensures Inv(w, Step(w, s, e)) && Later(s, Step(w, s, e))
  {
    RotateOneEffect(w, s, e, id);
    PairRenewed(w, s, Step(w, s, e), e, id, row);
  }

  lemma RowToRenew(w: World, s: State, e: Event, id: string) returns (row: Session)
    requires Rotates(w, s, e, id)
    ensures e.Rotate? && id in s.sessions && row == RenewedRow(w, s.sessions[id], e)
  {
    row := RenewedRow(w, s.sessions[id], e);
  }

  lemma RotateOneKeeps(w: World, s: State, e: Event, id: string)
    requires Proper(w) && Inv(w, s) && Rotates(w, s, e, id)
    requires e.access !in s.drawn && e.refresh !in s.drawn && e.readAt <= s.clock
    ensures Inv(w, Step(w, s, e)) && Later(s, Step(w, s, e))
  {
    var row := RowToRenew(w, s, e, id);
    RenewedKeeps(w, s, e, id, row);
  }

  lemma RotateKeeps(w: World, s: State, e: Event)
    requires Proper(w) && Inv(w, s) && Legal(s, e) && e.Rotate?
    ensures Inv(w, Step(w, s, e)) && Later(s, Step(w, s, e))
  {
    if !WellFormedRenewal(w, s, e.tokenClient, e.renewal, e.origin) {
      RefusedKeeps(w, s, e);
    } else if id :| Rotates(w, s, e, id) {
      RotateOneKeeps(w, s, e, id);
    } else {
      RotateNoneEffect(w, s, e);
      NothingRenewed(w, s, Step(w, s, e), e);
    }
  }

  // --- every event --------------------------------------------------------------------------------------

  /** Every legal event keeps the invariant and takes nothing back. */
  lemma InvStep(w: World, s: State, e: Event)
    requires Proper(w) && Inv(w, s) && Legal(s, e)
    ensures Inv(w, Step(w, s, e)) && Later(s, Step(w, s, e))
  {
    match e {
      case Tick(elapsed) => TickKeeps(w, s, elapsed);
      case Register(_, _, _) => RegisterKeeps(w, s, e);
      case BeginAuthorization(_, _, _, _, _) => BeginKeeps(w, s, e);
      case StoreAccount(request) =>
        if request in s.flights && s.flights[request].KeyEntered? {
          StoreAccountKeeps(w, s, request);
        } else {
          RefusedKeeps(w, s, e);
        }
      case StoreCode(request, _, _) =>
        if request in s.flights && s.flights[request].AccountStored? {
          StoreCodeKeeps(w, s, e);
        } else {
          RefusedKeeps(w, s, e);
        }
      case TakeCode(_, c, form, origin) =>
        if Takes(w, s, c, form, origin) {
          TakeKeeps(w, s, e, Sha256(w.trim(form.code)));
        } else {
          RefusedKeeps(w, s, e);
        }
      case StoreSession(request, _, _, _, _) =>
        if request in s.flights && s.flights[request].CodeTaken? {
          StoreSessionKeeps(w, s, e, s.flights[request].code);
        } else {
          RefusedKeeps(w, s, e);
        }
      case Rotate(_, _, _, _, _, _) => RotateKeeps(w, s, e);
      case BeginSelection(_, _, _) => BeginSelectionKeeps(w, s, e);
      case StoreSelection(request) =>
        if request in s.flights && s.flights[request].SelectionPending? {
          StoreSelectionKeeps(w, s, e);
        } else {
          RefusedKeeps(w, s, e);
        }
      case Drop(request) => DropKeeps(w, s, request);
    }
  }
}
