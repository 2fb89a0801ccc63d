/** The methods of `server` that share the sandbox and home-directory cache, in the form of the Go code, with other
    goroutines running before every one of their actions. */
module HomeCacheServer {
  import opened Wrappers
  import opened HomeCache

  /** What happens before one action of a goroutine, and whether the foreign call in that action succeeds. */
  datatype Gap = Gap(others: seq<Event>, ok: bool)

  function Turn(t: nat, gap: Gap): seq<Event> {
    gap.others + [Advance(t, gap.ok)]
  }

  /** The run in which the goroutine makes one action after each gap. */
  ghost function Weave(t: nat, gaps: seq<Gap>): seq<Event> {
    if gaps == [] then [] else Weave(t, gaps[..|gaps| - 1]) + Turn(t, gaps[|gaps| - 1])
  }

  ghost predicate Foreign(t: nat, gaps: seq<Gap>) {
    forall i :: 0 <= i < |gaps| ==> Elsewhere(t, gaps[i].others)
  }

  /** The states before, between and after the goroutine's actions. */
  ghost function Course(w: World, s: State, t: nat, gaps: seq<Gap>): (states: seq<State>)
    ensures |states| == |gaps| + 1
  {
    if gaps == [] then [s]
    else
      var n := |gaps| - 1;
      var before := Course(w, s, t, gaps[..n]);
      before + [Exec(w, before[n], Turn(t, gaps[n]))]
  }

  /** The state after the first `n` of the goroutine's actions. */
  ghost function Woven(w: World, s: State, t: nat, gaps: seq<Gap>, n: nat): State
    requires n <= |gaps|
  {
    Course(w, s, t, gaps)[n]
  }

  lemma {:induction false} CourseStarts(w: World, s: State, t: nat, gaps: seq<Gap>)
    ensures Woven(w, s, t, gaps, 0) == s
  {
    if gaps != [] {
      CourseStarts(w, s, t, gaps[..|gaps| - 1]);
    }
  }

  lemma {:induction false} WovenNext(w: World, s: State, t: nat, gaps: seq<Gap>, n: nat)
    requires n < |gaps|
    ensures Woven(w, s, t, gaps, n + 1) == Exec(w, Woven(w, s, t, gaps, n), Turn(t, gaps[n]))
  {
    if n < |gaps| - 1 {
      WovenNext(w, s, t, gaps[..|gaps| - 1], n);
    }
  }

  lemma {:induction false} WovenIsRun(w: World, s: State, t: nat, gaps: seq<Gap>, n: nat)
    requires n <= |gaps|
    ensures Woven(w, s, t, gaps, n) == Exec(w, s, Weave(t, gaps[..n]))
  {
    if n == 0 {
      CourseStarts(w, s, t, gaps);
    } else {
      WovenIsRun(w, s, t, gaps, n - 1);
      WovenNext(w, s, t, gaps, n - 1);
      WeaveNext(w, s, t, gaps, n - 1);
    }
  }

  lemma WeaveNext(w: World, s: State, t: nat, gaps: seq<Gap>, n: nat)
    requires n < |gaps|
    ensures Exec(w, s, Weave(t, gaps[..n + 1])) == Exec(w, Exec(w, s, Weave(t, gaps[..n])), Turn(t, gaps[n]))
  {
    assert gaps[..n + 1][..n] == gaps[..n];
    ExecJoined(w, s, Weave(t, gaps[..n]), Turn(t, gaps[n]));
  }

  lemma WeaveOne(w: World, s0: State, s1: State, s2: State, t: nat, gaps: seq<Gap>, n: nat)
    requires n < |gaps|
    requires s1 == Woven(w, s0, t, gaps, n) && s2 == Exec(w, s1, Turn(t, gaps[n]))
    ensures s2 == Woven(w, s0, t, gaps, n + 1)
  {
    WovenNext(w, s0, t, gaps, n);
  }

  lemma WeaveFirst(w: World, s0: State, s1: State, t: nat, gaps: seq<Gap>)
    requires gaps != [] && s1 == Exec(w, s0, Turn(t, gaps[0]))
    ensures s1 == Woven(w, s0, t, gaps, 1)
  {
    CourseStarts(w, s0, t, gaps);
    WeaveOne(w, s0, s0, s1, t, gaps, 0);
  }

  lemma WeaveTwo(w: World, s0: State, s1: State, s2: State, t: nat, gaps: seq<Gap>)
    requires |gaps| >= 2 && s1 == Exec(w, s0, Turn(t, gaps[0])) && s2 == Exec(w, s1, Turn(t, gaps[1]))
    ensures s2 == Woven(w, s0, t, gaps, 2)
  {
    WeaveFirst(w, s0, s1, t, gaps);
    WeaveOne(w, s0, s1, s2, t, gaps, 1);
  }

  lemma WeaveThree(w: World, s0: State, s1: State, s2: State, s3: State, t: nat, gaps: seq<Gap>)
    requires |gaps| >= 3 && s1 == Exec(w, s0, Turn(t, gaps[0])) && s2 == Exec(w, s1, Turn(t, gaps[1]))
    requires s3 == Exec(w, s2, Turn(t, gaps[2]))
    ensures s3 == Woven(w, s0, t, gaps, 3)
  {
    WeaveTwo(w, s0, s1, s2, t, gaps);
    WeaveOne(w, s0, s2, s3, t, gaps, 2);
  }

  lemma {:induction false} WeaveAfter(w: World, s: State, t: nat, gaps: seq<Gap>, k: nat, m: nat)
    requires k + m <= |gaps|
    ensures Woven(w, s, t, gaps, k + m) == Woven(w, Woven(w, s, t, gaps, k), t, gaps[k..], m)
  {
    if m == 0 {
      CourseStarts(w, Woven(w, s, t, gaps, k), t, gaps[k..]);
    } else {
      WeaveAfter(w, s, t, gaps, k, m - 1);
      WovenNext(w, s, t, gaps, k + m - 1);
      WovenNext(w, Woven(w, s, t, gaps, k), t, gaps[k..], m - 1);
    }
  }

  lemma FirstThen(w: World, s0: State, s1: State, s2: State, t: nat, gaps: seq<Gap>, m: nat)
    requires 1 + m <= |gaps| && s1 == Exec(w, s0, Turn(t, gaps[0])) && s2 == Woven(w, s1, t, gaps[1..], m)
    ensures s2 == Woven(w, s0, t, gaps, 1 + m)
  {
    WeaveFirst(w, s0, s1, t, gaps);
    WeaveAfter(w, s0, t, gaps, 1, m);
  }

  lemma TurnTaken(w: World, s: State, t: nat, gap: Gap)
    ensures Exec(w, s, Turn(t, gap)) == Step(w, Exec(w, s, gap.others), Advance(t, gap.ok))
  {
  }

  /** The selection that a load after the gap reads: empty when the load fails or the column is blank. */
  ghost function Selection(w: World, s: State, gap: Gap): string {
    if gap.ok then w.trim(Exec(w, s, gap.others).column) else ""
  }

  /** The state in which a goroutine makes the action after its next one. */
  ghost function BeforeSecond(w: World, s: State, t: nat, gaps: seq<Gap>): State
    requires |gaps| >= 2
  {
    Exec(w, Exec(w, s, Turn(t, gaps[0])), gaps[1].others)
  }

  /** The home directory that the command finds in the sandbox, unless it fails or prints none. */
  ghost function FoundHome(w: World, id: string, ok: bool): Option<string> {
    if ok && w.home(id).Some? && w.home(id).value != "" then w.home(id) else None
  }

  /** The home directory of the selection that is loaded after the gap. */
  ghost function FilledHome(w: World, s: State, gap: Gap, ok: bool): Option<string> {
    var id := Selection(w, s, gap);
    if id == "" then None else FoundHome(w, id, ok)
  }

  /** The answer of `ensureSandbox` and its callers: an id or a directory, an error, or none because the goroutine
      waits for a mutex that is held. */
  datatype Answer = Value(text: string) | Failed | Blocked

  function Answered(r: Answer): Option<string> {
    if r.Value? then Some(r.text) else None
  }

  /** The directory cached when `homeMu` is taken is the one that is then read and answered. */
  lemma TakenIsRead(w: World, s: State, t: nat, gaps: seq<Gap>)
    requires Inv(w, s) && t in s.threads && s.threads[t] == LockHome && |gaps| >= 2 && Foreign(t, gaps)
    requires Exec(w, s, gaps[0].others).homeMu.None?
    ensures BeforeSecond(w, s, t, gaps).homeDir == Exec(w, s, gaps[0].others).homeDir
  {
    var taken := Exec(w, s, gaps[0].others);
    InvRun(w, s, gaps[0].others);
    Untouched(w, s, t, gaps[0].others);
    InvStep(w, taken, Advance(t, gaps[0].ok));
    TurnTaken(w, s, t, gaps[0]);
    HeldCacheStays(w, Step(w, taken, Advance(t, gaps[0].ok)), t, gaps[1].others);
  }

  /** The goroutine is about to unlock `homeMu` and answer; a directory it answers is the cached one. */
  ghost predicate Leaves(s: State, t: nat, home: Option<string>) {
    t in s.threads && s.threads[t] == UnlockHome(home) && (home.Some? ==> s.homeDir == home.value != "")
  }

  /** The home directory that `n` actions of a goroutine from locking `homeMu` resolve: the cached one; when there is
      none, the one found in the sandbox selected at the load, if the load and the command succeed. */
  ghost predicate Resolves(w: World, s: State, t: nat, gaps: seq<Gap>, n: nat, home: Option<string>)
    requires 10 <= |gaps|
  {
    && 2 <= n <= 10
    && var cached := BeforeSecond(w, s, t, gaps).homeDir;
       if cached != "" then home == Some(cached)
       else n >= 3 && home == FilledHome(w, Woven(w, s, t, gaps, 2), gaps[2], gaps[n - 1].ok)
  }

  /** What assigning the id does: it is stored, and the cache is cleared when the id changed or a session ends. */
  ghost predicate Selects(w: World, s: State, t: nat, purpose: Purpose, id: string, gaps: seq<Gap>, n: nat)
    requires 6 <= |gaps|
  {
    && Woven(w, s, t, gaps, 2).sandboxID == id
    && n == (if purpose == Cleanup || BeforeSecond(w, s, t, gaps).sandboxID != id then 6 else 3)
    && (n == 6 ==> Woven(w, s, t, gaps, 5).homeDir == "")
  }

  lemma ClearSelects(w: World, s: State, s': State, t: nat, purpose: Purpose, id: string, gaps: seq<Gap>)
    requires 6 <= |gaps| && s' == Woven(w, s, t, gaps, 3)
    requires Woven(w, s, t, gaps, 2).sandboxID == id
    requires purpose == Cleanup || BeforeSecond(w, s, t, gaps).sandboxID != id
    requires Woven(w, s', t, gaps[3..], 2).homeDir == ""
    ensures Selects(w, s, t, purpose, id, gaps, 6)
  {
    WeaveAfter(w, s, t, gaps, 3, 2);
  }

  lemma CachedResolves(w: World, s: State, t: nat, gaps: seq<Gap>, cached: string)
    requires 10 <= |gaps| && BeforeSecond(w, s, t, gaps).homeDir == cached != ""
    ensures Resolves(w, s, t, gaps, 2, Some(cached))
  {
  }

  lemma FilledResolves(w: World, s: State, s': State, t: nat, gaps: seq<Gap>, m: nat, home: Option<string>)
    requires 10 <= |gaps| && BeforeSecond(w, s, t, gaps).homeDir == "" && s' == Woven(w, s, t, gaps, 2)
    requires 0 < m <= 8 && home == FilledHome(w, s', gaps[2..][0], gaps[2..][m - 1].ok)
    ensures Resolves(w, s, t, gaps, 2 + m, home)
  {
    assert gaps[2..][m - 1] == gaps[2 + m - 1];
  }

  class Server {
    const w: World
    var column: string
    var sandboxID: string
    var homeDir: string
    var sandboxMu: Option<nat>
    var homeMu: Option<nat>
    var threads: map<nat, Pc>

    /** `newServer`. */
    constructor (w: World, column: string)
      ensures this.w == w && View() == Fresh(column)
    {
      this.w, this.column := w, column;
      sandboxID, homeDir, sandboxMu, homeMu, threads := "", "", None, None, map[];
    }

    function View(): State
      reads this
    {
      State(column, sandboxID, homeDir, sandboxMu, homeMu, threads)
    }

    /** The goroutine is at `pc`. */
    ghost predicate At(t: nat, pc: Pc)
      reads this
    {
      t in threads && threads[t] == pc
    }

    ghost predicate Waits(t: nat)
      reads this
    {
      t in threads && !Enabled(View(), t)
    }

    method Become(s: State)
      modifies this
      ensures View() == s
    {
      column, sandboxID, homeDir, sandboxMu, homeMu, threads :=
        s.column, s.sandboxID, s.homeDir, s.sandboxMu, s.homeMu, s.threads;
    }

    /** Other goroutines run. */
    method Pause(t: nat, others: seq<Event>)
      requires t in threads && Elsewhere(t, others)
      modifies this
      ensures View() == Exec(w, old(View()), others)
      ensures At(t, old(threads)[t])
    {
      Untouched(w, View(), t, others);
      Become(Exec(w, View(), others));
    }

    method LoadPrimarySandboxID(t: nat, nested: bool, gap: Gap) returns (id: string)
      requires At(t, Load(nested)) && Elsewhere(t, gap.others)
      modifies this
      ensures View() == Exec(w, old(View()), Turn(t, gap))
      ensures id == Selection(w, old(View()), gap)
      ensures id != "" ==> At(t, LockSandbox(if nested then Nested else Direct, id))
      ensures id == "" && nested ==> At(t, UnlockHome(None))
      ensures id == "" && !nested ==> t !in threads
    {
      TurnTaken(w, View(), t, gap);
      Pause(t, gap.others);
      id := if gap.ok then w.trim(column) else "";
      if id != "" {
        threads := threads[t := LockSandbox(if nested then Nested else Direct, id)];
      } else if nested {
        threads := threads[t := UnlockHome(None)];
      } else {
        threads := threads - {t};
      }
    }

    method LockSandboxMu(t: nat, purpose: Purpose, id: string, gap: Gap) returns (locked: bool)
      requires At(t, LockSandbox(purpose, id)) && Elsewhere(t, gap.others)
      modifies this
      ensures View() == Exec(w, old(View()), Turn(t, gap))
      ensures if locked then At(t, Assign(purpose, id)) else Waits(t)
      ensures locked <==> Exec(w, old(View()), gap.others).sandboxMu.None?
    {
      TurnTaken(w, View(), t, gap);
      Pause(t, gap.others);
      locked := sandboxMu.None?;
      if locked {
        sandboxMu, threads := Some(t), threads[t := Assign(purpose, id)];
      }
    }

    method CompareAndAssign(t: nat, purpose: Purpose, id: string, gap: Gap) returns (changed: bool)
      requires At(t, Assign(purpose, id)) && Elsewhere(t, gap.others)
      modifies this
      ensures View() == Exec(w, old(View()), Turn(t, gap))
      ensures At(t, UnlockSandbox(purpose, id, changed)) && sandboxID == id
      ensures changed <==> purpose == Cleanup || Exec(w, old(View()), gap.others).sandboxID != id
    {
      TurnTaken(w, View(), t, gap);
      Pause(t, gap.others);
      changed := purpose == Cleanup || sandboxID != id;
      sandboxID, threads := id, threads[t := UnlockSandbox(purpose, id, changed)];
    }

    method UnlockSandboxMu(t: nat, purpose: Purpose, id: string, changed: bool, gap: Gap)
      requires At(t, UnlockSandbox(purpose, id, changed)) && Elsewhere(t, gap.others)
      modifies this
      ensures View() == Exec(w, old(View()), Turn(t, gap))
      ensures if changed then At(t, LockToClear(purpose, id)) else if purpose == Nested then At(t, Run(id))
              else t !in threads
    {
      TurnTaken(w, View(), t, gap);
      Pause(t, gap.others);
      sandboxMu := None;
      threads := if changed then threads[t := LockToClear(purpose, id)]
                 else if purpose == Nested then threads[t := Run(id)] else threads - {t};
    }

    method LockHomeMu(t: nat, gap: Gap) returns (locked: bool)
      requires At(t, LockHome) && Elsewhere(t, gap.others)
      modifies this
      ensures View() == Exec(w, old(View()), Turn(t, gap))
      ensures if locked then At(t, Check) else Waits(t)
      ensures locked <==> Exec(w, old(View()), gap.others).homeMu.None?
    {
      TurnTaken(w, View(), t, gap);
      Pause(t, gap.others);
      locked := homeMu.None?;
      if locked {
        homeMu, threads := Some(t), threads[t := Check];
      }
    }

    method LockHomeMuToClear(t: nat, purpose: Purpose, id: string, gap: Gap) returns (locked: bool)
      requires At(t, LockToClear(purpose, id)) && Elsewhere(t, gap.others)
      modifies this
      ensures View() == Exec(w, old(View()), Turn(t, gap))
      ensures if locked then At(t, Clear(purpose, id)) else Waits(t)
    {
      TurnTaken(w, View(), t, gap);
      Pause(t, gap.others);
      locked := homeMu.None?;
      if locked {
        homeMu, threads := Some(t), threads[t := Clear(purpose, id)];
      }
    }

    method ClearHomeDir(t: nat, purpose: Purpose, id: string, gap: Gap)
      requires At(t, Clear(purpose, id)) && Elsewhere(t, gap.others)
      modifies this
      ensures View() == Exec(w, old(View()), Turn(t, gap))
      ensures At(t, UnlockCleared(purpose, id)) && homeDir == ""
    {
      TurnTaken(w, View(), t, gap);
      Pause(t, gap.others);
      homeDir, threads := "", threads[t := UnlockCleared(purpose, id)];
    }

    method UnlockClearedHomeMu(t: nat, purpose: Purpose, id: string, gap: Gap)
      requires At(t, UnlockCleared(purpose, id)) && Elsewhere(t, gap.others)
      modifies this
      ensures View() == Exec(w, old(View()), Turn(t, gap))
      ensures if purpose == Nested then At(t, Run(id)) else t !in threads
    {
      TurnTaken(w, View(), t, gap);
      Pause(t, gap.others);
      homeMu := None;
      threads := if purpose == Nested then threads[t := Run(id)] else threads - {t};
    }

    method UnlockHomeMu(t: nat, result: Option<string>, gap: Gap)
      requires At(t, UnlockHome(result)) && Elsewhere(t, gap.others)
      modifies this
      ensures View() == Exec(w, old(View()), Turn(t, gap))
      ensures t !in threads
    {
      TurnTaken(w, View(), t, gap);
      Pause(t, gap.others);
      homeMu, threads := None, threads - {t};
    }

    method ReadHomeDir(t: nat, gap: Gap) returns (home: string)
      requires At(t, Check) && Elsewhere(t, gap.others)
      modifies this
      ensures View() == Exec(w, old(View()), Turn(t, gap))
      ensures home == homeDir == Exec(w, old(View()), gap.others).homeDir
      ensures At(t, if home != "" then UnlockHome(Some(home)) else Load(true))
    {
      TurnTaken(w, View(), t, gap);
      Pause(t, gap.others);
      home := homeDir;
      threads := threads[t := if home != "" then UnlockHome(Some(home)) else Load(true)];
    }

    /** The command that prints $HOME, and storing what it printed. */
    method RunAndStore(t: nat, id: string, gap: Gap) returns (home: Option<string>)
      requires At(t, Run(id)) && Elsewhere(t, gap.others)
      modifies this
      ensures View() == Exec(w, old(View()), Turn(t, gap))
      ensures home == FoundHome(w, id, gap.ok)
      ensures At(t, UnlockHome(home)) && (home.Some? ==> homeDir == home.value)
    {
      TurnTaken(w, View(), t, gap);
      Pause(t, gap.others);
      home := if gap.ok && w.home(id) != Some("") then w.home(id) else None;
      if home.Some? {
        homeDir := home.value;
      }
      threads := threads[t := UnlockHome(home)];
    }

    /** Comparing and assigning under `sandboxMu`. */
    method AssignSandbox(t: nat, purpose: Purpose, id: string, gaps: seq<Gap>)
      returns (locked: bool, changed: bool, n: nat)
      requires At(t, LockSandbox(purpose, id)) && |gaps| >= 3 && Foreign(t, gaps)
      modifies this
      ensures n <= 3 && View() == Woven(w, old(View()), t, gaps, n)
      ensures !locked ==> Waits(t)
      ensures locked ==> Woven(w, old(View()), t, gaps, 2).sandboxID == id
      ensures locked ==> changed == (purpose == Cleanup || BeforeSecond(w, old(View()), t, gaps).sandboxID != id)
      ensures locked ==>
                n == 3 && if changed then At(t, LockToClear(purpose, id))
                          else if purpose == Nested then At(t, Run(id)) else t !in threads
    {
      changed := false;
      ghost var s0 := View();
      locked := LockSandboxMu(t, purpose, id, gaps[0]);
      ghost var s1 := View();
      if !locked {
        WeaveFirst(w, s0, s1, t, gaps);
        return locked, changed, 1;
      }
      changed := CompareAndAssign(t, purpose, id, gaps[1]);
      ghost var s2 := View();
      WeaveTwo(w, s0, s1, s2, t, gaps);
      UnlockSandboxMu(t, purpose, id, changed, gaps[2]);
      WeaveThree(w, s0, s1, s2, View(), t, gaps);
      n := 3;
    }

    /** Clearing under `homeMu`. */
    method Invalidate(t: nat, purpose: Purpose, id: string, gaps: seq<Gap>) returns (locked: bool, n: nat)
      requires At(t, LockToClear(purpose, id)) && |gaps| >= 3 && Foreign(t, gaps)
      modifies this
      ensures n <= 3 && View() == Woven(w, old(View()), t, gaps, n)
      ensures if !locked then Waits(t) else if purpose == Nested then At(t, Run(id)) else t !in threads
      ensures locked ==> n == 3 && Woven(w, old(View()), t, gaps, 2).homeDir == ""
    {
      ghost var s0 := View();
      locked := LockHomeMuToClear(t, purpose, id, gaps[0]);
      ghost var s1 := View();
      if !locked {
        WeaveFirst(w, s0, s1, t, gaps);
        return locked, 1;
      }
      ClearHomeDir(t, purpose, id, gaps[1]);
      ghost var s2 := View();
      WeaveTwo(w, s0, s1, s2, t, gaps);
      UnlockClearedHomeMu(t, purpose, id, gaps[2]);
      WeaveThree(w, s0, s1, s2, View(), t, gaps);
      n := 3;
    }

    /** Both, the second only when the id changed. */
    method SelectSandbox(t: nat, purpose: Purpose, id: string, gaps: seq<Gap>) returns (blocked: bool, n: nat)
      requires At(t, LockSandbox(purpose, id)) && |gaps| >= 6 && Foreign(t, gaps)
      modifies this
      ensures n <= 6 && View() == Woven(w, old(View()), t, gaps, n)
      ensures if blocked then Waits(t) else if purpose == Nested then At(t, Run(id)) else t !in threads
      ensures !blocked ==> Selects(w, old(View()), t, purpose, id, gaps, n)
    {
      ghost var s0 := View();
      var locked, changed, k := AssignSandbox(t, purpose, id, gaps);
      if !locked || !changed {
        return !locked, k;
      }
      ghost var s1 := View();
      var cleared, m := Invalidate(t, purpose, id, gaps[3..]);
      WeaveAfter(w, s0, t, gaps, 3, m);
      if cleared {
        ClearSelects(w, s0, s1, t, purpose, id, gaps);
      }
      return !cleared, 3 + m;
    }

    /** `ensureSandbox`; `nested` when `sandboxHomeDir` calls it. */
    method EnsureSandbox(t: nat, nested: bool, gaps: seq<Gap>) returns (r: Answer, n: nat)
      requires At(t, Load(nested)) && |gaps| >= 7 && Foreign(t, gaps)
      modifies this
      ensures 0 < n <= 7 && View() == Woven(w, old(View()), t, gaps, n)
      ensures r.Blocked? ==> Waits(t)
      ensures r.Failed? ==> if nested then At(t, UnlockHome(None)) else t !in threads
      ensures r.Value? ==> if nested then At(t, Run(r.text)) else t !in threads
      ensures r.Failed? <==> Selection(w, old(View()), gaps[0]) == ""
      ensures r.Value? ==> r.text == Selection(w, old(View()), gaps[0])
    {
      ghost var s0 := View();
      var id := LoadPrimarySandboxID(t, nested, gaps[0]);
      ghost var s1 := View();
      if id == "" {
        WeaveFirst(w, s0, s1, t, gaps);
        return Failed, 1;
      }
      var purpose := if nested then Nested else Direct;
      var blocked, m := SelectSandbox(t, purpose, id, gaps[1..]);
      FirstThen(w, s0, s1, View(), t, gaps, m);
      return if blocked then Blocked else Value(id), 1 + m;
    }

    /** Taking `homeMu` and reading the cache. */
    method EnterHomeDir(t: nat, gaps: seq<Gap>) returns (locked: bool, home: string, n: nat)
      requires At(t, LockHome) && |gaps| >= 2 && Foreign(t, gaps)
      modifies this
      ensures n <= 2 && View() == Woven(w, old(View()), t, gaps, n)
      ensures if locked then n == 2 else n == 1 && Waits(t)
      ensures locked <==> Exec(w, old(View()), gaps[0].others).homeMu.None?
      ensures locked ==> home == homeDir == BeforeSecond(w, old(View()), t, gaps).homeDir
      ensures locked ==> At(t, if home != "" then UnlockHome(Some(home)) else Load(true))
    {
      home := "";
      ghost var s0 := View();
      locked := LockHomeMu(t, gaps[0]);
      ghost var s1 := View();
      if !locked {
        WeaveFirst(w, s0, s1, t, gaps);
        return locked, home, 1;
      }
      home := ReadHomeDir(t, gaps[1]);
      WeaveTwo(w, s0, s1, View(), t, gaps);
      n := 2;
    }

    /** Filling the cache while `homeMu` is held. */
    method FillHomeDir(t: nat, gaps: seq<Gap>) returns (blocked: bool, home: Option<string>, n: nat)
      requires At(t, Load(true)) && |gaps| >= 8 && Foreign(t, gaps)
      modifies this
      ensures n <= 8 && View() == Woven(w, old(View()), t, gaps, n)
      ensures if blocked then Waits(t) else At(t, UnlockHome(home))
      ensures !blocked && home.Some? ==> home.value == homeDir != ""
      ensures !blocked ==> 0 < n && home == FilledHome(w, old(View()), gaps[0], gaps[n - 1].ok)
    {
      ghost var s0 := View();
      var sandbox, k := EnsureSandbox(t, true, gaps);
      n := k;
      blocked, home := sandbox.Blocked?, None;
      if sandbox.Value? {
        ghost var s1 := View();
        home := RunAndStore(t, sandbox.text, gaps[k]);
        WeaveOne(w, s0, s1, View(), t, gaps, k);
        n := k + 1;
      }
    }

    /** The lookup, and when the cache is empty the command that fills it. */
    method ResolveHomeDir(t: nat, gaps: seq<Gap>) returns (blocked: bool, home: Option<string>, n: nat)
      requires At(t, LockHome) && |gaps| >= 10 && Foreign(t, gaps)
      modifies this
      ensures n <= 10 && View() == Woven(w, old(View()), t, gaps, n)
      ensures if blocked then Waits(t) else Leaves(View(), t, home)
      ensures n == 1 <==> Exec(w, old(View()), gaps[0].others).homeMu.Some?
      ensures blocked ==> n == 1 || BeforeSecond(w, old(View()), t, gaps).homeDir == ""
      ensures !blocked ==> Resolves(w, old(View()), t, gaps, n, home)
    {
      ghost var s0 := View();
      var locked, cached, m := EnterHomeDir(t, gaps);
      if !locked {
        return true, None, m;
      }
      if cached != "" {
        CachedResolves(w, s0, t, gaps, cached);
        return false, Some(cached), m;
      }
      ghost var s1 := View();
      blocked, home, n := FillHomeDir(t, gaps[2..]);
      WeaveAfter(w, s0, t, gaps, 2, n);
      if !blocked {
        FilledResolves(w, s0, s1, t, gaps, n, home);
      }
      n := 2 + n;
    }

    /** Unlocking, as the last action of a run from `s`. */
    method LeaveHomeDir(ghost s: State, t: nat, home: Option<string>, gaps: seq<Gap>, m: nat)
      requires m < |gaps| && Leaves(View(), t, home) && Foreign(t, gaps)
      requires View() == Woven(w, s, t, gaps, m)
      modifies this
      ensures View() == Woven(w, s, t, gaps, m + 1) && t !in threads
    {
      ghost var s1 := View();
      UnlockHomeMu(t, home, gaps[m]);
      WeaveOne(w, s, s1, View(), t, gaps, m);
    }

    /** `sandboxHomeDir`: all of that under `homeMu`. */
    method SandboxHomeDir(t: nat, gaps: seq<Gap>) returns (r: Answer, n: nat)
      requires At(t, LockHome) && |gaps| >= 11 && Foreign(t, gaps)
      modifies this
      ensures n <= 11 && View() == Woven(w, old(View()), t, gaps, n)
      ensures if r.Blocked? then Waits(t) else t !in threads
      ensures n == 1 <==> Exec(w, old(View()), gaps[0].others).homeMu.Some?
      ensures r.Blocked? ==> n == 1 || BeforeSecond(w, old(View()), t, gaps).homeDir == ""
      ensures !r.Blocked? ==> 0 < n && Leaves(Woven(w, old(View()), t, gaps, n - 1), t, Answered(r))
      ensures !r.Blocked? ==> 0 < n && Resolves(w, old(View()), t, gaps, n - 1, Answered(r))
    {
      ghost var s0 := View();
      var blocked, home, m := ResolveHomeDir(t, gaps);
      if blocked {
        return Blocked, m;
      }
      r, n := if home.Some? then Value(home.value) else Failed, m + 1;
      LeaveHomeDir(s0, t, home, gaps, m);
    }

    /** `setPrimarySandboxID` as `SetSandbox` calls it. */
    method PersistSelection(t: nat, id: string, gap: Gap) returns (ok: bool)
      requires At(t, Persist(id)) && Elsewhere(t, gap.others)
      modifies this
      ensures View() == Exec(w, old(View()), Turn(t, gap))
      ensures ok == gap.ok && (ok ==> column == id)
      ensures if ok then At(t, LockSandbox(Direct, id)) else t !in threads
    {
      TurnTaken(w, View(), t, gap);
      Pause(t, gap.others);
      ok := gap.ok;
      if ok {
        column, threads := id, threads[t := LockSandbox(Direct, id)];
      } else {
        threads := threads - {t};
      }
    }

    /** `SetSandbox`, from accepting the request. A blank id is refused and changes nothing. */
    method SetSandbox(t: nat, input: string, gaps: seq<Gap>) returns (r: Answer, n: nat)
      requires t !in threads && |gaps| >= 7 && Foreign(t, gaps)
      modifies this
      ensures w.trim(input) == "" ==> r == Failed && View() == old(View())
      ensures n <= 7
      ensures View() == Woven(w, Step(w, old(View()), Begin(t, HomeCache.SetSandbox(input))), t, gaps, n)
      ensures if r.Blocked? then Waits(t) else t !in threads
      ensures r.Failed? <==> w.trim(input) == "" || !gaps[0].ok
      ensures !r.Failed? ==>
                var begun := Step(w, old(View()), Begin(t, HomeCache.SetSandbox(input)));
                Exec(w, begun, Turn(t, gaps[0])).column == w.trim(input)
      ensures r.Value? ==> r.text == w.trim(input)
    {
      var id := w.trim(input);
      if id == "" {
        CourseStarts(w, View(), t, gaps);
        return Failed, 0;
      }
      threads := threads[t := Persist(id)];
      ghost var s0 := View();
      var ok := PersistSelection(t, id, gaps[0]);
      ghost var s1 := View();
      if !ok {
        WeaveFirst(w, s0, s1, t, gaps);
        return Failed, 1;
      }
      var blocked, m := SelectSandbox(t, Direct, id, gaps[1..]);
      FirstThen(w, s0, s1, View(), t, gaps, m);
      return if blocked then Blocked else Value(id), 1 + m;
    }

    /** `CleanupSession`, from accepting the request. */
    method CleanupSession(t: nat, gaps: seq<Gap>) returns (blocked: bool, n: nat)
      requires t !in threads && |gaps| >= 6 && Foreign(t, gaps)
      modifies this
      ensures n <= 6
      ensures View() == Woven(w, Step(w, old(View()), Begin(t, HomeCache.CleanupSession)), t, gaps, n)
      ensures if blocked then Waits(t) else t !in threads
      ensures !blocked ==>
                var begun := Step(w, old(View()), Begin(t, HomeCache.CleanupSession));
                && n == 6 && Woven(w, begun, t, gaps, 2).sandboxID == ""
                && Woven(w, begun, t, gaps, 5).homeDir == ""
    {
      threads := threads[t := LockSandbox(Cleanup, "")];
      blocked, n := SelectSandbox(t, Cleanup, "", gaps);
    }
  }
}
