/** The sandbox and home-directory cache of `server.go` and `tool_sandbox.go`, shared by all requests of a tenant.
    Every event is one action of one goroutine between two points where others may run. A mutex is not reentrant:
    the goroutine that holds it blocks like any other when it locks it again. */
module HomeCache {
  import opened Wrappers
  import opened GoStrings

  /** Who runs `ensureSandbox`, or `CleanupSession`, which locks the same way but clears unconditionally. */
  datatype Purpose = Direct | Nested | Cleanup

  /** The next action of a goroutine. */
  datatype Pc =
    | Persist(id: string)
    | Load(nested: bool)
    | LockSandbox(purpose: Purpose, id: string)
    | Assign(purpose: Purpose, id: string)
    | UnlockSandbox(purpose: Purpose, id: string, changed: bool)
    | LockToClear(purpose: Purpose, id: string)
    | Clear(purpose: Purpose, id: string)
    | UnlockCleared(purpose: Purpose, id: string)
    | LockHome
    | Check
    | Run(id: string)
    | UnlockHome(result: Option<string>)

  datatype Request = EnsureSandbox | SandboxHomeDir | SetSandbox(input: string) | CleanupSession

  /** `ok` says whether the foreign call in the action, if there is one, succeeds. */
  datatype Event =
    | Begin(thread: nat, request: Request)
    | Advance(thread: nat, ok: bool)
    | StoreElsewhere(column: string)

  /** `column` is the persisted selection, empty when there is none; other instances of the service write it too. */
  datatype State = State(
    column: string,
    sandboxID: string,
    homeDir: string,
    sandboxMu: Option<nat>,
    homeMu: Option<nat>,
    threads: map<nat, Pc>)

  /** How ids are trimmed, and what home directory is found in the sandbox with a given id, if any. */
  datatype World = World(trim: string -> string, home: string -> Option<string>)

  /** The home directory in what printing $HOME in the sandbox answers. */
  function HomeIn(text: string): (home: Option<string>)
    ensures home.Some? ==> home.value != "" && home.value[0] == '/'
  {
    var trimmed := TrimSpace(text);
    if trimmed == "" || trimmed[0] != '/' then None else Some(trimmed)
  }

  /** The world of the service, given what printing $HOME in each sandbox answers. */
  function Actual(shell: string -> string): World {
    World(text => TrimSpace(text), id => HomeIn(shell(id)))
  }

  /** A sandbox has a home directory exactly when what its shell prints, trimmed, is an absolute path. */
  lemma HomeExactly(shell: string -> string, id: string, home: string)
    ensures Actual(shell).home(id) == Some(home) <==> home == TrimSpace(shell(id)) && "/" <= home
  {
  }

  function Start(w: World, s: State, t: nat, request: Request): State {
    match request
    case EnsureSandbox => s.(threads := s.threads[t := Load(false)])
    case SandboxHomeDir => s.(threads := s.threads[t := LockHome])
    case SetSandbox(input) =>
      if w.trim(input) == "" then s else s.(threads := s.threads[t := Persist(w.trim(input))])
    case CleanupSession => s.(threads := s.threads[t := LockSandbox(Cleanup, "")])
  }

  predicate NeedsSandboxMu(pc: Pc) {
    pc.LockSandbox?
  }

  predicate NeedsHomeMu(pc: Pc) {
    pc.LockHome? || pc.LockToClear?
  }

  predicate Enabled(s: State, t: nat) {
    && t in s.threads
    && (NeedsSandboxMu(s.threads[t]) ==> s.sandboxMu.None?)
    && (NeedsHomeMu(s.threads[t]) ==> s.homeMu.None?)
  }

  /** The goroutine goes on at `pc`. */
  function Goto(s: State, t: nat, pc: Pc): State {
    s.(threads := s.threads[t := pc])
  }

  function Finish(s: State, t: nat): State {
    s.(threads := s.threads - {t})
  }

  /** After `ensureSandbox`: the caller inside `sandboxHomeDir` runs its command, any other is done. */
  function Ensured(s: State, t: nat, purpose: Purpose, id: string): State {
    if purpose == Nested then Goto(s, t, Run(id)) else Finish(s, t)
  }

  function Act(w: World, s: State, t: nat, ok: bool): State
    requires t in s.threads
  {
    match s.threads[t]
    case Persist(id) =>
      if ok then Goto(s.(column := id), t, LockSandbox(Direct, id)) else Finish(s, t)
    case Load(nested) =>
      var id := w.trim(s.column);
      if ok && id != "" then Goto(s, t, LockSandbox(if nested then Nested else Direct, id))
      else if nested then Goto(s, t, UnlockHome(None))
      else Finish(s, t)
    case LockSandbox(purpose, id) => Goto(s.(sandboxMu := Some(t)), t, Assign(purpose, id))
    case Assign(purpose, id) =>
      Goto(s.(sandboxID := id), t, UnlockSandbox(purpose, id, purpose == Cleanup || s.sandboxID != id))
    case UnlockSandbox(purpose, id, changed) =>
      var unlocked := s.(sandboxMu := None);
      if changed then Goto(unlocked, t, LockToClear(purpose, id)) else Ensured(unlocked, t, purpose, id)
    case LockToClear(purpose, id) => Goto(s.(homeMu := Some(t)), t, Clear(purpose, id))
    case Clear(purpose, id) => Goto(s.(homeDir := ""), t, UnlockCleared(purpose, id))
    case UnlockCleared(purpose, id) => Ensured(s.(homeMu := None), t, purpose, id)
    case LockHome => Goto(s.(homeMu := Some(t)), t, Check)
    case Check => Goto(s, t, if s.homeDir != "" then UnlockHome(Some(s.homeDir)) else Load(true))
    case Run(id) =>
      var home := if ok then w.home(id) else None;
      if home.Some? && home.value != "" then Goto(s.(homeDir := home.value), t, UnlockHome(home))
      else Goto(s, t, UnlockHome(None))
    case UnlockHome(_) => Finish(s.(homeMu := None), t)
  }

  function Step(w: World, s: State, e: Event): State {
    match e
    case Begin(t, request) => if t in s.threads then s else Start(w, s, t, request)
    case Advance(t, ok) => if Enabled(s, t) then Act(w, s, t, ok) else s
    case StoreElsewhere(column) => s.(column := column)
  }

  /** Where the methods take over: ensuring a sandbox starts at the load, asking for the home directory at its lock. */
  lemma RequestsStart(w: World, s: State, t: nat)
    requires t !in s.threads
    ensures Step(w, s, Begin(t, EnsureSandbox)) == s.(threads := s.threads[t := Load(false)])
    ensures Step(w, s, Begin(t, SandboxHomeDir)) == s.(threads := s.threads[t := LockHome])
  {
  }

  function Exec(w: World, s: State, events: seq<Event>): State {
    if events == [] then s else Step(w, Exec(w, s, events[..|events| - 1]), events[|events| - 1])
  }

  /** A fresh server: `newServer` leaves both caches empty and both mutexes free. */
  function Fresh(column: string): State {
    State(column, "", "", None, None, map[])
  }

  lemma {:induction false} ExecJoined(w: World, s: State, a: seq<Event>, b: seq<Event>)
    ensures Exec(w, s, a + b) == Exec(w, Exec(w, s, a), b)
  {
    if b == [] {
      assert a + b == a;
    } else {
      ExecJoined(w, s, a, b[..|b| - 1]);
      assert (a + b)[..|a + b| - 1] == a + b[..|b| - 1];
    }
  }

  // --- invariant -----------------------------------------------------------------------------------------

  predicate HoldsSandboxMu(pc: Pc) {
    pc.Assign? || pc.UnlockSandbox?
  }

  /** Inside `sandboxHomeDir` after it found the cache empty. */
  predicate Resolving(pc: Pc) {
    match pc
    case Load(nested) => nested
    case LockSandbox(purpose, _) => purpose == Nested
    case Assign(purpose, _) => purpose == Nested
    case UnlockSandbox(purpose, _, _) => purpose == Nested
    case LockToClear(purpose, _) => purpose == Nested
    case Run(_) => true
    case _ => false
  }

  predicate HoldsHomeMu(pc: Pc) {
    Resolving(pc) || pc.Check? || pc.UnlockHome? || pc.Clear? || pc.UnlockCleared?
  }

  /** The goroutine has changed `sandboxID` and still owes the clearing of `homeDir`. */
  predicate Owes(pc: Pc) {
    pc.LockToClear? || pc.Clear? || (pc.UnlockSandbox? && pc.changed)
  }

  ghost predicate ClearPending(s: State) {
    exists t :: t in s.threads && Owes(s.threads[t])
  }

  ghost predicate LockOk(s: State, t: nat, pc: Pc) {
    && (HoldsSandboxMu(pc) <==> s.sandboxMu == Some(t))
    && (HoldsHomeMu(pc) <==> s.homeMu == Some(t))
  }

  /** What a goroutine relies on. */
  ghost predicate LocalOk(s: State, pc: Pc) {
    && (Resolving(pc) ==> s.homeDir == "")
    && (pc.UnlockSandbox? ==> s.sandboxID == pc.id && (pc.purpose == Cleanup ==> pc.changed))
    && (pc.Clear? || pc.UnlockCleared? ==> pc.purpose != Nested)
    && (pc.UnlockHome? && pc.result.Some? ==> s.homeDir == pc.result.value != "")
    && (pc.Run? ==> pc.id == s.sandboxID || ClearPending(s))
  }

  ghost predicate ThreadsOk(s: State) {
    forall t :: t in s.threads ==> LockOk(s, t, s.threads[t]) && LocalOk(s, s.threads[t])
  }

  ghost predicate OwnersOk(s: State) {
    && (s.sandboxMu.Some? ==> s.sandboxMu.value in s.threads)
    && (s.homeMu.Some? ==> s.homeMu.value in s.threads)
  }

  /** A cached home directory is the home of the cached sandbox, or some goroutine still owes a clear. */
  ghost predicate Coherent(w: World, s: State) {
    s.homeDir == "" || w.home(s.sandboxID) == Some(s.homeDir) || ClearPending(s)
  }

  ghost predicate Inv(w: World, s: State) {
    ThreadsOk(s) && OwnersOk(s) && Coherent(w, s)
  }

  /** Any other goroutine's debt survives the step. */
  lemma PendingStays(w: World, s: State, t: nat, ok: bool)
    requires t in s.threads && ClearPending(s) && !s.threads[t].Clear?
    ensures ClearPending(Act(w, s, t, ok))
  {
    var u :| u in s.threads && Owes(s.threads[u]);
    assert u in Act(w, s, t, ok).threads;
  }

  lemma AssignOwes(w: World, s: State, t: nat, ok: bool)
    requires t in s.threads && s.threads[t].Assign? && s.threads[t].id != s.sandboxID
    ensures ClearPending(Act(w, s, t, ok))
  {
    assert t in Act(w, s, t, ok).threads;
  }

  lemma OwnersStep(w: World, s: State, t: nat, ok: bool)
    requires ThreadsOk(s) && OwnersOk(s) && Enabled(s, t)
    ensures OwnersOk(Act(w, s, t, ok))
  {
  }

  lemma LockStep(w: World, s: State, t: nat, ok: bool, u: nat)
    requires ThreadsOk(s) && Enabled(s, t) && u in Act(w, s, t, ok).threads
    ensures LockOk(Act(w, s, t, ok), u, Act(w, s, t, ok).threads[u])
  {
    assert u in s.threads && LockOk(s, u, s.threads[u]) && LockOk(s, t, s.threads[t]);
  }

  lemma LocalStepSelf(w: World, s: State, t: nat, ok: bool)
    requires ThreadsOk(s) && Enabled(s, t) && t in Act(w, s, t, ok).threads
    ensures LocalOk(Act(w, s, t, ok), Act(w, s, t, ok).threads[t])
  {
    assert LockOk(s, t, s.threads[t]) && LocalOk(s, s.threads[t]);
  }

  lemma LocalStepOther(w: World, s: State, t: nat, ok: bool, u: nat)
    requires ThreadsOk(s) && Enabled(s, t) && u in s.threads && u != t
    ensures LocalOk(Act(w, s, t, ok), s.threads[u])
  {
    assert LockOk(s, t, s.threads[t]) && LockOk(s, u, s.threads[u]) && LocalOk(s, s.threads[u]);
    var pc := s.threads[u];
    if pc.Run? {
      if s.threads[t].Assign? && s.threads[t].id != s.sandboxID {
        AssignOwes(w, s, t, ok);
      } else if ClearPending(s) {
        PendingStays(w, s, t, ok);
      }
    }
  }

  lemma CoherentStep(w: World, s: State, t: nat, ok: bool)
    requires Inv(w, s) && Enabled(s, t)
    ensures Coherent(w, Act(w, s, t, ok))
  {
    assert LocalOk(s, s.threads[t]);
    match s.threads[t] {
      case Assign(_, id) =>
        if id != s.sandboxID {
          AssignOwes(w, s, t, ok);
        } else if ClearPending(s) {
          PendingStays(w, s, t, ok);
        }
      case Clear(_, _) =>
      case _ =>
        if ClearPending(s) {
          PendingStays(w, s, t, ok);
        }
    }
  }

  lemma ThreadStep(w: World, s: State, t: nat, ok: bool, u: nat)
    requires ThreadsOk(s) && Enabled(s, t) && u in Act(w, s, t, ok).threads
    ensures LockOk(Act(w, s, t, ok), u, Act(w, s, t, ok).threads[u])
    ensures LocalOk(Act(w, s, t, ok), Act(w, s, t, ok).threads[u])
  {
    LockStep(w, s, t, ok, u);
    if u == t {
      LocalStepSelf(w, s, t, ok);
    } else {
      LocalStepOther(w, s, t, ok, u);
    }
  }

  lemma ActKeepsInv(w: World, s: State, t: nat, ok: bool)
    requires Inv(w, s) && Enabled(s, t)
    ensures Inv(w, Act(w, s, t, ok))
  {
    OwnersStep(w, s, t, ok);
    CoherentStep(w, s, t, ok);
    forall u | u in Act(w, s, t, ok).threads
      ensures LockOk(Act(w, s, t, ok), u, Act(w, s, t, ok).threads[u])
      ensures LocalOk(Act(w, s, t, ok), Act(w, s, t, ok).threads[u])
    {
      ThreadStep(w, s, t, ok, u);
    }
  }

  /** Steps that touch neither the caches, nor the mutexes, nor a running goroutine. */
  lemma OutsideKeepsInv(w: World, s: State, e: Event)
    requires Inv(w, s) && !e.Advance?
    ensures Inv(w, Step(w, s, e))
  {
    var s' := Step(w, s, e);
    if ClearPending(s) {
      var u :| u in s.threads && Owes(s.threads[u]);
      assert u in s'.threads;
    }
    forall u | u in s'.threads ensures LockOk(s', u, s'.threads[u]) && LocalOk(s', s'.threads[u]) {
      if u in s.threads {
        assert LockOk(s, u, s.threads[u]) && LocalOk(s, s.threads[u]);
      }
    }
  }

  lemma InvStep(w: World, s: State, e: Event)
    requires Inv(w, s)
    ensures Inv(w, Step(w, s, e))
  {
    if !e.Advance? {
      OutsideKeepsInv(w, s, e);
    } else if Enabled(s, e.thread) {
      ActKeepsInv(w, s, e.thread, e.ok);
    }
  }

  lemma {:induction false} InvRun(w: World, s: State, events: seq<Event>)
    requires Inv(w, s)
    ensures Inv(w, Exec(w, s, events))
  {
    if events != [] {
      InvRun(w, s, events[..|events| - 1]);
      InvStep(w, Exec(w, s, events[..|events| - 1]), events[|events| - 1]);
    }
  }

  /** The state after any run of any requests on a fresh server. */
  ghost function Reached(w: World, column: string, events: seq<Event>): State {
    Exec(w, Fresh(column), events)
  }

  lemma ReachedInv(w: World, column: string, events: seq<Event>)
    ensures Inv(w, Reached(w, column, events))
  {
    InvRun(w, Fresh(column), events);
  }

  // --- coherence -----------------------------------------------------------------------------------------

  /** Whatever the interleaving: with no clear pending, a cached home directory is the home of the cached sandbox. */
  lemma CacheCoherent(w: World, column: string, events: seq<Event>)
    ensures var s := Reached(w, column, events);
            s.homeDir != "" && !ClearPending(s) ==> w.home(s.sandboxID) == Some(s.homeDir)
  {
    ReachedInv(w, column, events);
  }

  /** In particular once every request has been answered. */
  lemma CoherentAtRest(w: World, column: string, events: seq<Event>)
    requires Reached(w, column, events).threads == map[]
    ensures var s := Reached(w, column, events);
            && s.sandboxMu.None? && s.homeMu.None?
            && (s.homeDir == "" || w.home(s.sandboxID) == Some(s.homeDir))
  {
    ReachedInv(w, column, events);
  }

  /** The directory `sandboxHomeDir` is about to answer is the home of the cached sandbox unless a clear is pending. */
  lemma AnsweredHome(w: World, column: string, events: seq<Event>, t: nat, home: string)
    requires t in Reached(w, column, events).threads
    requires Reached(w, column, events).threads[t] == UnlockHome(Some(home))
    ensures var s := Reached(w, column, events);
            s.homeDir == home && (w.home(s.sandboxID) == Some(home) || ClearPending(s))
  {
    ReachedInv(w, column, events);
    var s := Reached(w, column, events);
    assert LocalOk(s, s.threads[t]);
  }

  /** Whatever is cached was once found in some sandbox. */
  ghost predicate SomeHome(w: World, s: State) {
    s.homeDir == "" || exists id :: w.home(id) == Some(s.homeDir)
  }

  lemma SomeHomeStep(w: World, s: State, e: Event)
    requires SomeHome(w, s)
    ensures SomeHome(w, Step(w, s, e))
  {
  }

  lemma {:induction false} SomeHomeRun(w: World, s: State, events: seq<Event>)
    requires SomeHome(w, s)
    ensures SomeHome(w, Exec(w, s, events))
  {
    if events != [] {
      SomeHomeRun(w, s, events[..|events| - 1]);
      SomeHomeStep(w, Exec(w, s, events[..|events| - 1]), events[|events| - 1]);
    }
  }

  lemma HomeInTrimmed(text: string)
    ensures HomeIn(text).Some? ==> TrimSpace(HomeIn(text).value) == HomeIn(text).value
  {
    TrimSpaceIdempotent(text);
  }

  lemma CachedFromShell(w: World, shell: string -> string, s: State)
    requires SomeHome(w, s) && s.homeDir != "" && forall id :: w.home(id) == HomeIn(shell(id))
    ensures s.homeDir[0] == '/' && TrimSpace(s.homeDir) == s.homeDir
  {
    var id :| w.home(id) == Some(s.homeDir);
    HomeInTrimmed(shell(id));
  }

  /** Whatever printing $HOME answers, a cached home directory is an absolute path without white space around it. */
  lemma CachedIsAbsolute(shell: string -> string, column: string, events: seq<Event>)
    ensures var s := Reached(Actual(shell), column, events);
            s.homeDir != "" ==> s.homeDir[0] == '/' && TrimSpace(s.homeDir) == s.homeDir
  {
    var s := Reached(Actual(shell), column, events);
    SomeHomeRun(Actual(shell), Fresh(column), events);
    if s.homeDir != "" {
      CachedFromShell(Actual(shell), shell, s);
    }
  }

  // --- waiting -------------------------------------------------------------------------------------------

  /** The goroutine waits for the mutex that it holds. */
  predicate WaitsForItself(s: State, t: nat) {
    && t in s.threads
    && ((NeedsHomeMu(s.threads[t]) && s.homeMu == Some(t)) || (NeedsSandboxMu(s.threads[t]) && s.sandboxMu == Some(t)))
  }

  /** The goroutine waits for a mutex that another one holds. */
  predicate WaitsFor(s: State, t: nat, u: nat) {
    && t in s.threads && t != u
    && ((NeedsHomeMu(s.threads[t]) && s.homeMu == Some(u)) || (NeedsSandboxMu(s.threads[t]) && s.sandboxMu == Some(u)))
  }

  /** `sandboxMu` is never held while waiting, so its holder can always go on and no two goroutines wait for
      each other. */
  lemma NoMutualWait(w: World, column: string, events: seq<Event>, t: nat, u: nat)
    ensures var s := Reached(w, column, events);
            && (s.sandboxMu == Some(t) ==> Enabled(s, t))
            && !(WaitsFor(s, t, u) && WaitsFor(s, u, t))
  {
    ReachedInv(w, column, events);
    var s := Reached(w, column, events);
    assert t in s.threads ==> LockOk(s, t, s.threads[t]);
    assert u in s.threads ==> LockOk(s, u, s.threads[u]);
  }

  /** Unless some goroutine waits for itself, a server with unanswered requests can make a step. */
  lemma EnabledUnlessSelfWait(w: World, s: State) returns (t: nat)
    requires Inv(w, s) && s.threads != map[]
    requires forall u :: u in s.threads ==> !WaitsForItself(s, u)
    ensures Enabled(s, t)
  {
    t :| t in s.threads;
    assert LockOk(s, t, s.threads[t]);
    if NeedsHomeMu(s.threads[t]) && s.homeMu.Some? {
      t := s.homeMu.value;
      assert LockOk(s, t, s.threads[t]) && !WaitsForItself(s, t);
    }
    if NeedsSandboxMu(s.threads[t]) && s.sandboxMu.Some? {
      t := s.sandboxMu.value;
      assert LockOk(s, t, s.threads[t]);
    }
  }

  /** A server with unanswered requests is stuck exactly when one goroutine waits for itself and every other one
      waits for that one. */
  lemma StuckExactly(w: World, column: string, events: seq<Event>)
    requires Reached(w, column, events).threads != map[]
    ensures var s := Reached(w, column, events);
            (forall t :: t in s.threads ==> !Enabled(s, t))
            <==> exists t :: WaitsForItself(s, t) && forall u :: u in s.threads && u != t ==> WaitsFor(s, u, t)
  {
    ReachedInv(w, column, events);
    var s := Reached(w, column, events);
    if forall t :: t in s.threads ==> !Enabled(s, t) {
      if forall u :: u in s.threads ==> !WaitsForItself(s, u) {
        var t := EnabledUnlessSelfWait(w, s);
        assert false;
      }
      var t :| WaitsForItself(s, t);
      forall u | u in s.threads && u != t ensures WaitsFor(s, u, t) {
        StuckWaitsFor(w, s, t, u);
      }
    }
  }

  lemma StuckWaitsFor(w: World, s: State, t: nat, u: nat)
    requires Inv(w, s) && WaitsForItself(s, t) && u in s.threads && u != t
    requires forall v :: v in s.threads ==> !Enabled(s, v)
    ensures WaitsFor(s, u, t)
  {
  }

  // --- the goroutine that waits for itself -------------------------------------------------------------------

  /** It is inside `sandboxHomeDir`, holds `homeMu`, and found the cache empty. */
  lemma SelfWaitShape(w: World, s: State, t: nat)
    requires Inv(w, s)
    ensures WaitsForItself(s, t) <==> t in s.threads && s.threads[t].LockToClear? && s.threads[t].purpose == Nested
    ensures WaitsForItself(s, t) ==> s.homeMu == Some(t) && s.homeDir == ""
  {
  }

  /** Position `i` of the run is where goroutine `t`, inside `sandboxHomeDir`, compares the id it read with the
      cached one, and they differ. */
  ghost predicate Mismatch(w: World, s: State, events: seq<Event>, i: nat, t: nat, id: string) {
    && i < |events| && events[i].Advance? && events[i].thread == t
    && var before := Exec(w, s, events[..i]);
       && t in before.threads && before.threads[t] == Assign(Nested, id)
       && before.sandboxID != id && before.homeDir == ""
  }

  ghost predicate Doomed(pc: Pc, id: string) {
    pc == LockToClear(Nested, id) || pc == UnlockSandbox(Nested, id, true)
  }

  lemma OtherStep(w: World, s: State, e: Event, t: nat)
    requires t in s.threads && (e.Advance? ==> e.thread != t)
    ensures t in Step(w, s, e).threads && Step(w, s, e).threads[t] == s.threads[t]
  {
  }

  lemma DoomedAct(w: World, s: State, t: nat, ok: bool, id: string)
    requires Inv(w, s) && Enabled(s, t)
    requires t in Act(w, s, t, ok).threads && Doomed(Act(w, s, t, ok).threads[t], id)
    ensures Doomed(s.threads[t], id) || (s.threads[t] == Assign(Nested, id) && s.sandboxID != id && s.homeDir == "")
  {
  }

  lemma NotBornDoomed(w: World, s: State, e: Event, t: nat, id: string)
    requires t !in s.threads && t in Step(w, s, e).threads
    ensures !Doomed(Step(w, s, e).threads[t], id)
  {
  }

  lemma DoomedStep(w: World, s: State, e: Event, t: nat, id: string)
    requires Inv(w, s)
    requires t in Step(w, s, e).threads && Doomed(Step(w, s, e).threads[t], id)
    ensures t in s.threads
    ensures Doomed(s.threads[t], id)
            || (e.Advance? && e.thread == t && s.threads[t] == Assign(Nested, id) && s.sandboxID != id
                && s.homeDir == "")
  {
    if t !in s.threads {
      NotBornDoomed(w, s, e, t, id);
    } else if e.Advance? && e.thread == t {
      if Enabled(s, t) {
        DoomedAct(w, s, t, e.ok, id);
      }
    } else {
      OtherStep(w, s, e, t);
    }
  }

  /** A goroutine that waits for itself read, inside `sandboxHomeDir` and with an empty cache, an id other than the
      cached one. */
  lemma {:induction false} DoomedByMismatch(w: World, s: State, events: seq<Event>, t: nat, id: string) returns (i: nat)
    requires Inv(w, s) && s.threads == map[]
    requires t in Exec(w, s, events).threads && Doomed(Exec(w, s, events).threads[t], id)
    ensures Mismatch(w, s, events, i, t, id)
  {
    var n := |events| - 1;
    var before := Exec(w, s, events[..n]);
    InvRun(w, s, events[..n]);
    DoomedStep(w, before, events[n], t, id);
    if t in before.threads && Doomed(before.threads[t], id) {
      i := DoomedByMismatch(w, s, events[..n], t, id);
      assert events[..n][..i] == events[..i];
    } else {
      i := n;
    }
  }

  lemma SelfWaitNeedsMismatch(w: World, column: string, events: seq<Event>, t: nat) returns (i: nat, id: string)
    requires WaitsForItself(Reached(w, column, events), t)
    ensures Mismatch(w, Fresh(column), events, i, t, id)
  {
    ReachedInv(w, column, events);
    SelfWaitShape(w, Reached(w, column, events), t);
    id := Reached(w, column, events).threads[t].id;
    i := DoomedByMismatch(w, Fresh(column), events, t, id);
  }

  /** None of the events moves the goroutine. */
  ghost predicate Elsewhere(t: nat, events: seq<Event>) {
    forall i :: 0 <= i < |events| ==> events[i].Advance? ==> events[i].thread != t
  }

  lemma {:induction false} Untouched(w: World, s: State, t: nat, events: seq<Event>)
    requires Elsewhere(t, events) && t in s.threads
    ensures t in Exec(w, s, events).threads && Exec(w, s, events).threads[t] == s.threads[t]
  {
    if events != [] {
      var n := |events| - 1;
      Untouched(w, s, t, events[..n]);
      OtherStep(w, Exec(w, s, events[..n]), events[n], t);
    }
  }

  lemma HeldStep(w: World, s: State, e: Event, t: nat)
    requires Inv(w, s) && s.homeMu == Some(t) && (e.Advance? ==> e.thread != t)
    ensures Step(w, s, e).homeMu == Some(t) && Step(w, s, e).homeDir == s.homeDir
  {
    if e.Advance? && e.thread in s.threads {
      assert LockOk(s, e.thread, s.threads[e.thread]);
    }
  }

  /** While a goroutine holds `homeMu` no other one changes the cached directory. */
  lemma {:induction false} HeldCacheStays(w: World, s: State, t: nat, others: seq<Event>)
    requires Inv(w, s) && s.homeMu == Some(t) && Elsewhere(t, others)
    ensures Exec(w, s, others).homeMu == Some(t) && Exec(w, s, others).homeDir == s.homeDir
  {
    if others != [] {
      var n := |others| - 1;
      HeldCacheStays(w, s, t, others[..n]);
      InvRun(w, s, others[..n]);
      HeldStep(w, Exec(w, s, others[..n]), others[n], t);
    }
  }

  /** Whatever else runs: comparing the ids inside `sandboxHomeDir` leads to the command when they agree, and to
      waiting for itself when they differ. */
  lemma MismatchDecides(w: World, s: State, t: nat, id: string, others: seq<Event>, ok: bool, ok': bool)
    requires Inv(w, s) && t in s.threads && s.threads[t] == Assign(Nested, id) && Elsewhere(t, others)
    ensures var after := Step(w, Exec(w, Step(w, s, Advance(t, ok)), others), Advance(t, ok'));
            && (s.sandboxID != id ==> WaitsForItself(after, t))
            && (s.sandboxID == id ==> t in after.threads && after.threads[t] == Run(id))
  {
    var one := Step(w, s, Advance(t, ok));
    InvStep(w, s, Advance(t, ok));
    Untouched(w, one, t, others);
    var two := Exec(w, one, others);
    InvRun(w, one, others);
    InvStep(w, two, Advance(t, ok'));
    SelfWaitShape(w, Step(w, two, Advance(t, ok')), t);
  }

  lemma SelfWaitStays(w: World, s: State, e: Event, t: nat)
    requires Inv(w, s) && WaitsForItself(s, t)
    ensures WaitsForItself(Step(w, s, e), t)
    ensures forall u :: u in s.threads && NeedsHomeMu(s.threads[u]) ==>
              u in Step(w, s, e).threads && Step(w, s, e).threads[u] == s.threads[u]
  {
    SelfWaitShape(w, s, t);
    InvStep(w, s, e);
    SelfWaitShape(w, Step(w, s, e), t);
    if e.Advance? && e.thread in s.threads {
      assert LockOk(s, e.thread, s.threads[e.thread]);
    }
  }

  /** Once a goroutine waits for itself it does so forever, and every goroutine that waits for `homeMu`, then or
      later, waits forever. */
  lemma {:induction false} SelfWaitForever(w: World, s: State, events: seq<Event>, t: nat)
    requires Inv(w, s) && WaitsForItself(s, t)
    ensures WaitsForItself(Exec(w, s, events), t)
    ensures forall u :: u in s.threads && NeedsHomeMu(s.threads[u]) ==>
              u in Exec(w, s, events).threads && Exec(w, s, events).threads[u] == s.threads[u]
  {
    if events != [] {
      var n := |events| - 1;
      SelfWaitForever(w, s, events[..n], t);
      InvRun(w, s, events[..n]);
      SelfWaitStays(w, Exec(w, s, events[..n]), events[n], t);
    }
  }

  // --- answering -----------------------------------------------------------------------------------------

  /** An upper bound on the actions a goroutine still has to make. */
  function StepsLeft(pc: Pc): nat {
    match pc
    case LockHome => 11
    case Check => 10
    case Persist(_) => 9
    case Load(_) => 9
    case LockSandbox(_, _) => 8
    case Assign(_, _) => 7
    case UnlockSandbox(_, _, _) => 6
    case LockToClear(_, _) => 5
    case Clear(_, _) => 4
    case UnlockCleared(_, _) => 3
    case Run(_) => 2
    case UnlockHome(_) => 1
  }

  /** How many of the events are actions of the goroutine. */
  ghost function Moves(w: World, s: State, events: seq<Event>, t: nat): nat {
    if events == [] then 0
    else
      var e := events[|events| - 1];
      Moves(w, s, events[..|events| - 1], t)
      + if e.Advance? && e.thread == t && Enabled(Exec(w, s, events[..|events| - 1]), t) then 1 else 0
  }

  ghost function StepsLeftIn(s: State, t: nat): nat {
    if t in s.threads then StepsLeft(s.threads[t]) else 0
  }

  lemma MoveCounts(w: World, s: State, e: Event, t: nat)
    requires e.Begin? ==> e.thread != t
    ensures StepsLeftIn(Step(w, s, e), t) + (if e.Advance? && e.thread == t && Enabled(s, t) then 1 else 0)
            <= StepsLeftIn(s, t)
  {
    if t in s.threads && (e.Advance? ==> e.thread != t) {
      OtherStep(w, s, e, t);
    }
  }

  /** A request is answered within eleven actions of its goroutine, however many the others make in between. */
  lemma {:induction false} AnsweredWithinEleven(w: World, s: State, events: seq<Event>, t: nat)
    requires forall i :: 0 <= i < |events| && events[i].Begin? ==> events[i].thread != t
    ensures Moves(w, s, events, t) + StepsLeftIn(Exec(w, s, events), t) <= StepsLeftIn(s, t) <= 11
  {
    if events != [] {
      var n := |events| - 1;
      AnsweredWithinEleven(w, s, events[..n], t);
      MoveCounts(w, Exec(w, s, events[..n]), events[n], t);
    }
  }

  /** `n` actions of one goroutine while no other runs and every foreign call succeeds. */
  ghost function Alone(w: World, s: State, t: nat, n: nat): State {
    if n == 0 then s else Step(w, Alone(w, s, t, n - 1), Advance(t, true))
  }

  lemma AloneNext(w: World, s: State, t: nat, n: nat)
    ensures Alone(w, s, t, n + 1) == Step(w, Alone(w, s, t, n), Advance(t, true))
  {
  }

  /** The goroutine is inside `sandboxHomeDir` with an empty cache, and nothing but its own locks changed since `s`. */
  ghost predicate AloneAt(s: State, a: State, t: nat, pc: Pc) {
    a.column == s.column && a.homeMu == Some(t) && t in a.threads && a.threads[t] == pc
  }

  lemma {:induction false} AloneJoined(w: World, s: State, t: nat, m: nat, n: nat)
    ensures Alone(w, s, t, m + n) == Alone(w, Alone(w, s, t, m), t, n)
  {
    if n > 0 {
      AloneJoined(w, s, t, m, n - 1);
    }
  }

  lemma AloneToLoad(w: World, s: State, t: nat)
    requires s.homeMu.None? && t in s.threads && s.threads[t] == LockHome && s.homeDir == ""
    ensures var a := Alone(w, s, t, 2);
            AloneAt(s, a, t, Load(true)) && a.sandboxMu == s.sandboxMu && a.sandboxID == s.sandboxID
  {
    AloneNext(w, s, t, 0);
    AloneNext(w, s, t, 1);
  }

  lemma AloneLoads(w: World, s: State, a: State, t: nat)
    requires AloneAt(s, a, t, Load(true)) && a.sandboxMu.None? && w.trim(s.column) != ""
    ensures var b := Alone(w, a, t, 2);
            AloneAt(s, b, t, Assign(Nested, w.trim(s.column))) && b.sandboxID == a.sandboxID
  {
    AloneNext(w, a, t, 0);
    AloneNext(w, a, t, 1);
  }

  lemma AloneToAssign(w: World, s: State, t: nat)
    requires s.sandboxMu.None? && s.homeMu.None? && t in s.threads && s.threads[t] == LockHome
    requires s.homeDir == "" && w.trim(s.column) != ""
    ensures AloneAt(s, Alone(w, s, t, 4), t, Assign(Nested, w.trim(s.column)))
    ensures Alone(w, s, t, 4).sandboxID == s.sandboxID
  {
    AloneToLoad(w, s, t);
    AloneLoads(w, s, Alone(w, s, t, 2), t);
    AloneJoined(w, s, t, 2, 2);
  }

  lemma AloneCompares(w: World, s: State, a: State, t: nat, id: string)
    requires AloneAt(s, a, t, Assign(Nested, id))
    ensures AloneAt(s, Alone(w, a, t, 2), t, if a.sandboxID != id then LockToClear(Nested, id) else Run(id))
  {
    AloneNext(w, a, t, 0);
    AloneNext(w, a, t, 1);
  }

  lemma AloneEnds(w: World, s: State, a: State, t: nat, pc: Pc)
    requires AloneAt(s, a, t, pc) && (pc.LockToClear? || pc.Run?)
    ensures if pc.LockToClear? then WaitsForItself(Alone(w, a, t, 2), t) else t !in Alone(w, a, t, 2).threads
  {
    AloneNext(w, a, t, 0);
    AloneNext(w, a, t, 1);
  }

  lemma AloneFromAssign(w: World, s: State, a: State, t: nat, id: string)
    requires AloneAt(s, a, t, Assign(Nested, id))
    ensures a.sandboxID != id ==> WaitsForItself(Alone(w, a, t, 4), t)
    ensures a.sandboxID == id ==> t !in Alone(w, a, t, 4).threads
  {
    AloneCompares(w, s, a, t, id);
    AloneEnds(w, s, Alone(w, a, t, 2), t, if a.sandboxID != id then LockToClear(Nested, id) else Run(id));
    AloneJoined(w, a, t, 2, 2);
  }

  lemma AloneShort(w: World, s: State, t: nat)
    requires s.sandboxMu.None? && s.homeMu.None? && t in s.threads && s.threads[t] == LockHome
    requires s.homeDir != "" || w.trim(s.column) == ""
    ensures t !in Alone(w, s, t, 8).threads
  {
    AloneNext(w, s, t, 0);
    AloneNext(w, s, t, 1);
    AloneNext(w, s, t, 2);
    AloneNext(w, s, t, 3);
    assert t !in Alone(w, s, t, 4).threads;
    AloneJoined(w, s, t, 4, 4);
    AloneGone(w, Alone(w, s, t, 4), t, 4);
  }

  lemma {:induction false} AloneGone(w: World, s: State, t: nat, n: nat)
    requires t !in s.threads
    ensures Alone(w, s, t, n) == s
  {
    if n > 0 {
      AloneGone(w, s, t, n - 1);
    }
  }

  /** Even alone and with every foreign call succeeding, `sandboxHomeDir` answers exactly when the home directory is
      cached, no sandbox is selected, or the selected one is the cached one; otherwise it waits for itself. */
  lemma AnswersAloneExactly(w: World, s: State, t: nat)
    requires s.sandboxMu.None? && s.homeMu.None? && t !in s.threads
    ensures var end := Alone(w, Step(w, s, Begin(t, SandboxHomeDir)), t, 8);
            var id := w.trim(s.column);
            && (t !in end.threads <==> s.homeDir != "" || id == "" || id == s.sandboxID)
            && (t in end.threads ==> WaitsForItself(end, t))
  {
    var begun := Step(w, s, Begin(t, SandboxHomeDir));
    if s.homeDir != "" || w.trim(s.column) == "" {
      AloneShort(w, begun, t);
    } else {
      AloneToAssign(w, begun, t);
      AloneFromAssign(w, begun, Alone(w, begun, t, 4), t, w.trim(s.column));
      AloneJoined(w, begun, t, 4, 4);
    }
  }

  /** So on a fresh server with a selected sandbox the first request that needs the home directory never returns. */
  lemma FreshServerBlocks(w: World, column: string, t: nat, later: seq<Event>)
    requires w.trim(column) != ""
    ensures var end := Alone(w, Step(w, Fresh(column), Begin(t, SandboxHomeDir)), t, 8);
            WaitsForItself(Exec(w, end, later), t)
  {
    var begun := Step(w, Fresh(column), Begin(t, SandboxHomeDir));
    AnswersAloneExactly(w, Fresh(column), t);
    InvStep(w, Fresh(column), Begin(t, SandboxHomeDir));
    AloneInv(w, begun, t, 8);
    SelfWaitForever(w, Alone(w, begun, t, 8), later, t);
  }

  lemma {:induction false} AloneInv(w: World, s: State, t: nat, n: nat)
    requires Inv(w, s)
    ensures Inv(w, Alone(w, s, t, n))
  {
    if n > 0 {
      AloneInv(w, s, t, n - 1);
      InvStep(w, Alone(w, s, t, n - 1), Advance(t, true));
    }
  }
}
