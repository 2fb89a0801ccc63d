/** The background processes of `tool_bash.go`: launching, the goroutine that runs the command, and polling.
    Every event is one critical section, channel operation or write; events of different requests interleave. */
module Background {
  import opened Wrappers
  import opened GoStrings

  datatype Output = Output(exitCode: int, stdout: string, stderr: string, timedOut: bool)

  /** A `bgProcess`. `started` and `finished` are positions in the log of events. */
  datatype Process = Process(id: string, command: string, started: nat, written: Option<Output>, finished: nat,
                             closed: bool)

  /** How far a poll has come: it holds a pointer to the process it looked up. */
  datatype Poll =
    | Looked(id: string, proc: nat)
    | Ready(id: string, proc: nat)
    | Removed(id: string, proc: nat)

  datatype Delivery = Delivery(id: string, proc: nat, output: Output)

  datatype Event =
    | Launch(command: string)
    | Write(proc: nat, output: Output)
    | Close(proc: nat)
    | Lookup(poll: nat, id: string)
    | Select(poll: nat)
    | Delete(poll: nat)
    | Return(poll: nat)

  /** The server's table and counter, the processes ever launched, the polls in flight; then history. */
  datatype State = State(
    counter: nat,
    table: map<string, nat>,
    procs: seq<Process>,
    polls: map<nat, Poll>,
    removed: set<string>,
    delivered: seq<Delivery>,
    log: seq<Event>)

  const INITIAL := State(0, map[], [], map[], {}, [], [])

  const ID_PREFIX := "bg-"

  /** The id given to the n-th process. */
  function ProcessId(n: nat): string {
    ID_PREFIX + FormatNat(n)
  }

  lemma IdsInjective(m: nat, n: nat)
    requires ProcessId(m) == ProcessId(n)
    ensures m == n
  {
    assert ProcessId(m)[|ID_PREFIX|..] == FormatNat(m) && ProcessId(n)[|ID_PREFIX|..] == FormatNat(n);
    FormatNatInjective(m, n);
  }

  /** A way to name processes; the server's is `ProcessId`. */
  type Naming = nat -> string

  ghost predicate Injective(name: Naming) {
    forall m, n :: name(m) == name(n) ==> m == n
  }

  const NAMING: Naming := (n: nat) => ProcessId(n)

  lemma NamingInjective()
    ensures Injective(NAMING)
  {
    forall m: nat, n: nat | NAMING(m) == NAMING(n) ensures m == n {
      IdsInjective(m, n);
    }
  }

  function Act(name: Naming, s: State, e: Event): State {
    match e
    case Launch(command) =>
      var n := s.counter + 1;
      var proc := Process(name(n), command, |s.log|, None, 0, false);
      s.(counter := n, table := s.table[name(n) := |s.procs|], procs := s.procs + [proc])
    case Write(k, output) =>
      if k < |s.procs| && s.procs[k].written.None? then
        s.(procs := s.procs[k := s.procs[k].(written := Some(output), finished := |s.log|)])
      else s
    case Close(k) =>
      if k < |s.procs| && s.procs[k].written.Some? then s.(procs := s.procs[k := s.procs[k].(closed := true)]) else s
    case Lookup(p, id) =>
      if p !in s.polls && id in s.table then s.(polls := s.polls[p := Looked(id, s.table[id])]) else s
    case Select(p) =>
      if p in s.polls && s.polls[p].Looked? then
        var poll := s.polls[p];
        if poll.proc < |s.procs| && s.procs[poll.proc].closed then s.(polls := s.polls[p := Ready(poll.id, poll.proc)])
        else s.(polls := s.polls - {p})
      else s
    case Delete(p) =>
      if p in s.polls && s.polls[p].Ready? then
        var poll := s.polls[p];
        s.(table := s.table - {poll.id}, removed := s.removed + {poll.id},
           polls := s.polls[p := Removed(poll.id, poll.proc)])
      else s
    case Return(p) =>
      if p in s.polls && s.polls[p].Removed? then
        var poll := s.polls[p];
        var after := s.(polls := s.polls - {p});
        if poll.proc < |s.procs| && s.procs[poll.proc].written.Some? then
          after.(delivered := s.delivered + [Delivery(poll.id, poll.proc, s.procs[poll.proc].written.value)])
        else after
      else s
  }

  function Step(name: Naming, s: State, e: Event): State {
    Act(name, s, e).(log := s.log + [e])
  }

  function Exec(name: Naming, s: State, events: seq<Event>): State {
    if events == [] then s else Step(name, Exec(name, s, events[..|events| - 1]), events[|events| - 1])
  }

  lemma {:induction false} ExecJoined(name: Naming, s: State, a: seq<Event>, b: seq<Event>)
    ensures Exec(name, s, a + b) == Exec(name, Exec(name, s, a), b)
  {
    if b == [] {
      assert a + b == a;
    } else {
      ExecJoined(name, s, a, b[..|b| - 1]);
      assert (a + b)[..|a + b| - 1] == a + b[..|b| - 1];
    }
  }

  // --- invariant -----------------------------------------------------------------------------------------

  ghost predicate Known(s: State, id: string, k: nat) {
    k < |s.procs| && s.procs[k].id == id
  }

  /** Number of launches among the events. */
  function Launches(log: seq<Event>): nat {
    if log == [] then 0
    else Launches(log[..|log| - 1]) + if log[|log| - 1].Launch? then 1 else 0
  }

  ghost predicate Logged(log: seq<Event>, i: nat, e: Event) {
    i < |log| && log[i] == e
  }

  /** The process was launched by the event that it names, and its output is the one its goroutine wrote. */
  ghost predicate ProcessOk(name: Naming, log: seq<Event>, proc: Process, k: nat) {
    && proc.id == name(k + 1)
    && Logged(log, proc.started, Launch(proc.command)) && Launches(log[..proc.started]) == k
    && (proc.written.Some? ==> Logged(log, proc.finished, Write(k, proc.written.value)))
    && (proc.closed ==> proc.written.Some?)
  }

  ghost predicate ProcsOk(name: Naming, s: State) {
    && s.counter == |s.procs| == Launches(s.log)
    && forall k :: 0 <= k < |s.procs| ==> ProcessOk(name, s.log, s.procs[k], k)
  }

  /** An id is in the table from its launch until it is removed, and never both known and removed. */
  ghost predicate TableOk(s: State) {
    && (forall id :: id in s.table ==> Known(s, id, s.table[id]) && id !in s.removed)
    && (forall k :: 0 <= k < |s.procs| ==> s.procs[k].id in s.table || s.procs[k].id in s.removed)
  }

  ghost predicate RemovedOk(s: State) {
    forall id :: id in s.removed ==> exists k :: Known(s, id, k)
  }

  ghost predicate PollOk(s: State, poll: Poll) {
    && Known(s, poll.id, poll.proc)
    && (!poll.Looked? ==> s.procs[poll.proc].closed)
    && (poll.Removed? ==> poll.id in s.removed)
  }

  ghost predicate PollsOk(s: State) {
    forall p :: p in s.polls ==> PollOk(s, s.polls[p])
  }

  ghost predicate DeliveryOk(s: State, d: Delivery) {
    Known(s, d.id, d.proc) && s.procs[d.proc].written == Some(d.output) && d.id in s.removed
  }

  ghost predicate DeliveredOk(s: State) {
    forall i :: 0 <= i < |s.delivered| ==> DeliveryOk(s, s.delivered[i])
  }

  ghost predicate Inv(name: Naming, s: State) {
    ProcsOk(name, s) && TableOk(s) && RemovedOk(s) && PollsOk(s) && DeliveredOk(s)
  }

  lemma NewIdUnknown(name: Naming, s: State, k: nat)
    requires Injective(name) && ProcsOk(name, s)
    ensures !Known(s, name(s.counter + 1), k)
  {
  }

  /** What no event changes about a process. */
  ghost predicate Grows(s: State, t: State) {
    && |s.procs| <= |t.procs|
    && (forall k :: 0 <= k < |s.procs| ==>
          && t.procs[k].id == s.procs[k].id && t.procs[k].command == s.procs[k].command
          && t.procs[k].started == s.procs[k].started
          && (s.procs[k].written.Some? ==> t.procs[k].written == s.procs[k].written)
          && (s.procs[k].closed ==> t.procs[k].closed))
    && s.removed <= t.removed
  }

  lemma StepGrows(name: Naming, s: State, e: Event)
    ensures Grows(s, Step(name, s, e))
  {
  }

  lemma ProcessStays(name: Naming, log: seq<Event>, e: Event, proc: Process, k: nat)
    requires ProcessOk(name, log, proc, k)
    ensures ProcessOk(name, log + [e], proc, k)
  {
    assert (log + [e])[..proc.started] == log[..proc.started];
  }

  lemma ProcsLaunch(name: Naming, s: State, command: string)
    requires ProcsOk(name, s)
    ensures ProcsOk(name, Step(name, s, Launch(command)))
  {
    var t := Step(name, s, Launch(command));
    assert t.log[..|s.log|] == s.log;
    forall k | 0 <= k < |t.procs| ensures ProcessOk(name, t.log, t.procs[k], k) {
      if k < |s.procs| {
        ProcessStays(name, s.log, Launch(command), s.procs[k], k);
      }
    }
  }

  lemma ProcsOther(name: Naming, s: State, e: Event)
    requires ProcsOk(name, s) && !e.Launch?
    ensures ProcsOk(name, Step(name, s, e))
  {
    var t := Step(name, s, e);
    assert t.log[..|s.log|] == s.log;
    forall k | 0 <= k < |t.procs| ensures ProcessOk(name, t.log, t.procs[k], k) {
      ProcessStays(name, s.log, e, s.procs[k], k);
    }
  }

  lemma TableLaunch(name: Naming, s: State, command: string)
    requires Injective(name) && ProcsOk(name, s) && TableOk(s) && RemovedOk(s)
    ensures TableOk(Step(name, s, Launch(command))) && RemovedOk(Step(name, s, Launch(command)))
  {
    var t := Step(name, s, Launch(command));
    var id := name(s.counter + 1);
    forall i, k | Known(s, i, k) ensures Known(t, i, k) && i != id {
      NewIdUnknown(name, s, k);
    }
    assert Known(t, id, |s.procs|);
    forall k | 0 <= k < |t.procs| ensures t.procs[k].id in t.table || t.procs[k].id in t.removed {
      if k < |s.procs| {
        assert Known(s, s.procs[k].id, k);
      }
    }
  }

  lemma TableDelete(name: Naming, s: State, p: nat)
    requires TableOk(s) && RemovedOk(s) && PollsOk(s)
    ensures TableOk(Step(name, s, Delete(p))) && RemovedOk(Step(name, s, Delete(p)))
  {
    var t := Step(name, s, Delete(p));
    assert forall i, k :: Known(s, i, k) <==> Known(t, i, k);
    if p in s.polls {
      assert PollOk(s, s.polls[p]);
    }
  }

  lemma TableOther(name: Naming, s: State, e: Event)
    requires TableOk(s) && RemovedOk(s) && !e.Launch? && !e.Delete?
    ensures TableOk(Step(name, s, e)) && RemovedOk(Step(name, s, e))
  {
    OtherKeeps(name, s, e);
    TableKept(s, Step(name, s, e));
  }

  lemma OtherKeeps(name: Naming, s: State, e: Event)
    requires !e.Launch? && !e.Delete?
    ensures var t := Step(name, s, e);
            && t.table == s.table && t.removed == s.removed && |t.procs| == |s.procs|
            && forall k :: 0 <= k < |s.procs| ==> t.procs[k].id == s.procs[k].id
  {
  }

  lemma TableKept(s: State, t: State)
    requires TableOk(s) && RemovedOk(s)
    requires t.table == s.table && t.removed == s.removed && |t.procs| == |s.procs|
    requires forall k :: 0 <= k < |s.procs| ==> t.procs[k].id == s.procs[k].id
    ensures TableOk(t) && RemovedOk(t)
  {
    assert forall i, k :: Known(s, i, k) <==> Known(t, i, k);
  }

  /** A poll that is not advanced by the event. */
  lemma PollStays(name: Naming, s: State, e: Event, poll: Poll)
    requires PollOk(s, poll)
    ensures PollOk(Step(name, s, e), poll)
  {
  }

  lemma PollsStep(name: Naming, s: State, e: Event)
    requires TableOk(s) && PollsOk(s)
    ensures PollsOk(Step(name, s, e))
  {
    var t := Step(name, s, e);
    forall p | p in t.polls ensures PollOk(t, t.polls[p]) {
      if p in s.polls && t.polls[p] == s.polls[p] {
        PollStays(name, s, e, s.polls[p]);
      } else if p in s.polls {
        PollAdvances(name, s, e, p);
      } else {
        assert Known(s, e.id, s.table[e.id]);
      }
    }
  }

  lemma PollAdvances(name: Naming, s: State, e: Event, p: nat)
    requires PollsOk(s) && p in s.polls
    requires p in Step(name, s, e).polls && Step(name, s, e).polls[p] != s.polls[p]
    ensures PollOk(Step(name, s, e), Step(name, s, e).polls[p])
  {
  }

  lemma DeliveredStep(name: Naming, s: State, e: Event)
    requires PollsOk(s) && DeliveredOk(s)
    ensures DeliveredOk(Step(name, s, e))
  {
    var t := Step(name, s, e);
    StepGrows(name, s, e);
    forall i | 0 <= i < |t.delivered| ensures DeliveryOk(t, t.delivered[i]) {
      if i < |s.delivered| {
        assert DeliveryOk(s, s.delivered[i]);
      } else {
        assert PollOk(s, s.polls[e.poll]);
      }
    }
  }

  lemma InvStep(name: Naming, s: State, e: Event)
    requires Injective(name) && Inv(name, s)
    ensures Inv(name, Step(name, s, e))
  {
    match e {
      case Launch(command) =>
        ProcsLaunch(name, s, command);
        TableLaunch(name, s, command);
      case Delete(p) =>
        ProcsOther(name, s, e);
        TableDelete(name, s, p);
      case _ =>
        ProcsOther(name, s, e);
        TableOther(name, s, e);
    }
    PollsStep(name, s, e);
    DeliveredStep(name, s, e);
  }

  lemma StepLogs(name: Naming, s: State, e: Event)
    ensures Step(name, s, e).log == s.log + [e]
  {
  }

  lemma {:induction false} LogIsRun(name: Naming, s: State, events: seq<Event>)
    ensures Exec(name, s, events).log == s.log + events
  {
    if events != [] {
      var n := |events| - 1;
      var before := Exec(name, s, events[..n]);
      LogIsRun(name, s, events[..n]);
      StepLogs(name, before, events[n]);
      assert Exec(name, s, events) == Step(name, before, events[n]);
      assert events[..n] + [events[n]] == events;
    }
  }

  lemma InitialInv(name: Naming)
    ensures Inv(name, INITIAL)
  {
  }

  /** The invariant holds after every run, whatever the interleaving. */
  lemma {:induction false} InvRun(name: Naming, events: seq<Event>)
    requires Injective(name)
    ensures Inv(name, Exec(name, INITIAL, events))
  {
    if events == [] {
      InitialInv(name);
    } else {
      var n := |events| - 1;
      InvRun(name, events[..n]);
      InvStep(name, Exec(name, INITIAL, events[..n]), events[n]);
    }
  }

  // --- whole runs ------------------------------------------------------------------------------------------

  /** The state after the first `i` events of a run. */
  ghost function At(name: Naming, events: seq<Event>, i: nat): State
    requires i <= |events|
  {
    Exec(name, INITIAL, events[..i])
  }

  lemma AtInv(events: seq<Event>, i: nat)
    requires i <= |events|
    ensures Injective(NAMING) && Inv(NAMING, At(NAMING, events, i)) && At(NAMING, events, i).log == events[..i]
  {
    NamingInjective();
    InvRun(NAMING, events[..i]);
    LogIsRun(NAMING, INITIAL, events[..i]);
  }

  /** The id answered to the launch at position `i` of a run. */
  ghost function LaunchedId(name: Naming, events: seq<Event>, i: nat): string
    requires i <= |events|
  {
    name(Launches(events[..i]) + 1)
  }

  lemma {:induction false} LaunchesGrow(events: seq<Event>, i: nat, j: nat)
    requires i < j <= |events| && events[i].Launch?
    ensures Launches(events[..i]) < Launches(events[..j])
    decreases j
  {
    assert events[..j][..j - 1] == events[..j - 1];
    if i < j - 1 {
      LaunchesGrow(events, i, j - 1);
    }
  }

  /** Ids are pairwise distinct for the life of the server. */
  lemma LaunchIdsDistinct(events: seq<Event>, i: nat, j: nat)
    requires i < j < |events| && events[i].Launch? && events[j].Launch?
    ensures LaunchedId(NAMING, events, i) != LaunchedId(NAMING, events, j)
  {
    NamingInjective();
    LaunchesGrow(events, i, j);
  }

  lemma GrowsTransitive(s: State, t: State, u: State)
    requires Grows(s, t) && Grows(t, u)
    ensures Grows(s, u)
  {
  }

  lemma {:induction false} RunGrows(name: Naming, s: State, events: seq<Event>)
    ensures Grows(s, Exec(name, s, events))
  {
    if events != [] {
      var n := |events| - 1;
      var before := Exec(name, s, events[..n]);
      RunGrows(name, s, events[..n]);
      StepGrows(name, before, events[n]);
      GrowsTransitive(s, before, Step(name, before, events[n]));
    }
  }

  lemma AtGrows(name: Naming, events: seq<Event>, i: nat, j: nat)
    requires i <= j <= |events|
    ensures Grows(At(name, events, i), At(name, events, j))
  {
    assert events[..j] == events[..i] + events[i..j];
    ExecJoined(name, INITIAL, events[..i], events[i..j]);
    RunGrows(name, At(name, events, i), events[i..j]);
  }

  lemma OwnOutput(name: Naming, s: State, d: Delivery) returns (launch: nat, write: nat)
    requires Inv(name, s) && d in s.delivered
    ensures launch < |s.log| && s.log[launch].Launch? && LaunchedId(name, s.log, launch) == d.id
    ensures Logged(s.log, write, Write(Launches(s.log[..launch]), d.output))
  {
    var i :| 0 <= i < |s.delivered| && s.delivered[i] == d;
    assert DeliveryOk(s, s.delivered[i]);
    assert ProcessOk(name, s.log, s.procs[d.proc], d.proc);
    launch, write := s.procs[d.proc].started, s.procs[d.proc].finished;
  }

  /** Whatever is delivered for an id is the output written by the goroutine of the one launch that answered
      that id. */
  lemma DeliveredIsOwnOutput(events: seq<Event>, j: nat, d: Delivery) returns (launch: nat, write: nat)
    requires j <= |events| && d in At(NAMING, events, j).delivered
    ensures launch < j && events[launch].Launch? && LaunchedId(NAMING, events, launch) == d.id
    ensures write < j && events[write] == Write(Launches(events[..launch]), d.output)
    ensures forall i :: 0 <= i < |events| && events[i].Launch? && LaunchedId(NAMING, events, i) == d.id ==> i == launch
  {
    AtInv(events, j);
    launch, write := OwnOutput(NAMING, At(NAMING, events, j), d);
    assert events[..j][..launch] == events[..launch];
    forall i | 0 <= i < |events| && events[i].Launch? && LaunchedId(NAMING, events, i) == d.id ensures i == launch {
      if i < launch {
        LaunchIdsDistinct(events, i, launch);
      } else if launch < i {
        LaunchIdsDistinct(events, launch, i);
      }
    }
  }

  lemma SameOutput(name: Naming, s: State, d: Delivery, d': Delivery)
    requires Injective(name) && Inv(name, s) && d in s.delivered && d' in s.delivered && d.id == d'.id
    ensures d.output == d'.output
  {
  }

  /** Polls of one id that overlap and both deliver give the same output. */
  lemma DeliveriesAgree(events: seq<Event>, j: nat, d: Delivery, d': Delivery)
    requires j <= |events| && d in At(NAMING, events, j).delivered && d' in At(NAMING, events, j).delivered
    requires d.id == d'.id
    ensures d.output == d'.output
  {
    AtInv(events, j);
    SameOutput(NAMING, At(NAMING, events, j), d, d');
  }

  lemma RemovedIsUnknown(name: Naming, s: State, id: string)
    requires Injective(name) && Inv(name, s) && id in s.removed
    ensures id !in s.table && id != name(s.counter + 1)
  {
  }

  /** Once removed, an id is unknown forever: it is in no later table, and no later launch answers it. */
  lemma RemovedForever(events: seq<Event>, i: nat, j: nat, id: string)
    requires i <= j <= |events| && id in At(NAMING, events, i).removed
    ensures id !in At(NAMING, events, j).table
    ensures LaunchedId(NAMING, events, j) != id
  {
    AtGrows(NAMING, events, i, j);
    AtInv(events, j);
    RemovedIsUnknown(NAMING, At(NAMING, events, j), id);
  }

  lemma KnownWasLaunched(name: Naming, s: State, id: string) returns (i: nat)
    requires Inv(name, s) && id in s.table
    ensures i < |s.log| && s.log[i].Launch? && LaunchedId(name, s.log, i) == id
  {
    var k := s.table[id];
    assert Known(s, id, k);
    assert ProcessOk(name, s.log, s.procs[k], k);
    i := s.procs[k].started;
  }

  lemma LaunchedStaysKnown(name: Naming, s: State, i: nat)
    requires Inv(name, s) && i < |s.log| && s.log[i].Launch?
    ensures var id := LaunchedId(name, s.log, i); id in s.table || id in s.removed
  {
    LaunchesGrow(s.log, i, |s.log|);
    assert s.log[..|s.log|] == s.log;
    var k := Launches(s.log[..i]);
    assert ProcessOk(name, s.log, s.procs[k], k);
  }

  /** A poll finds an id exactly when the id was answered to a launch and has not been removed. */
  lemma KnownExactly(events: seq<Event>, j: nat, id: string)
    requires j <= |events|
    ensures var s := At(NAMING, events, j);
            id in s.table
            <==> id !in s.removed && exists i :: 0 <= i < j && events[i].Launch? && LaunchedId(NAMING, events, i) == id
  {
    var s := At(NAMING, events, j);
    AtInv(events, j);
    forall i | 0 <= i < j ensures events[..j][..i] == events[..i] {
    }
    if id in s.table {
      var i := KnownWasLaunched(NAMING, s, id);
      assert LaunchedId(NAMING, events, i) == id;
    }
    if i :| 0 <= i < j && events[i].Launch? && LaunchedId(NAMING, events, i) == id {
      LaunchedStaysKnown(NAMING, s, i);
    }
  }

  // --- the handlers ----------------------------------------------------------------------------------------

  datatype Answer = Unknown | Running | Done(output: Output)

  /** None of the events is made by the given poll. */
  ghost predicate Elsewhere(poll: nat, events: seq<Event>) {
    forall i :: 0 <= i < |events| ==>
      match events[i]
      case Lookup(p, _) => p != poll
      case Select(p) => p != poll
      case Delete(p) => p != poll
      case Return(p) => p != poll
      case _ => true
  }

  lemma {:induction false} PollUntouched(s: State, poll: nat, events: seq<Event>)
    requires Elsewhere(poll, events)
    ensures poll in Exec(NAMING, s, events).polls <==> poll in s.polls
    ensures poll in s.polls ==> Exec(NAMING, s, events).polls[poll] == s.polls[poll]
  {
    if events != [] {
      var n := |events| - 1;
      PollUntouched(s, poll, events[..n]);
      PollUntouchedOnce(Exec(NAMING, s, events[..n]), poll, events[n]);
    }
  }

  lemma PollUntouchedOnce(s: State, poll: nat, e: Event)
    requires Elsewhere(poll, [e])
    ensures poll in Step(NAMING, s, e).polls <==> poll in s.polls
    ensures poll in s.polls ==> Step(NAMING, s, e).polls[poll] == s.polls[poll]
  {
    assert [e][0] == e;
  }

  lemma {:induction false} InvExec(s: State, events: seq<Event>)
    requires Inv(NAMING, s)
    ensures Inv(NAMING, Exec(NAMING, s, events))
  {
    if events != [] {
      var n := |events| - 1;
      InvExec(s, events[..n]);
      NamingInjective();
      InvStep(NAMING, Exec(NAMING, s, events[..n]), events[n]);
    }
  }

  /** The goroutine has written the output and closed the channel. */
  ghost predicate Finished(s: State, k: nat) {
    k < |s.procs| && s.procs[k].closed && s.procs[k].written.Some?
  }

  /** The channel of the process that the poll finds is closed when the poll receives from it. */
  ghost predicate ClosedBy(s: State, poll: nat, id: string, others: seq<Event>) {
    && id in s.table
    && var t := Exec(NAMING, Step(NAMING, s, Lookup(poll, id)), others);
       s.table[id] < |t.procs| && t.procs[s.table[id]].closed
  }

  /** Position `write` is where the goroutine of the launch at `launch` wrote its output, and `close` where it closed
      the channel. */
  ghost predicate FinishesAt(events: seq<Event>, launch: nat, write: nat, close: nat, output: Output) {
    && launch < write < close < |events| && events[launch].Launch?
    && var k := Launches(events[..launch]);
       && events[write] == Write(k, output) && events[close] == Close(k)
       && forall x :: 0 <= x < write && events[x].Write? ==> events[x].proc != k
  }

  lemma LaunchedBefore(events: seq<Event>, launch: nat, j: nat)
    requires launch < j <= |events| && events[launch].Launch?
    ensures Launches(events[..launch]) < |At(NAMING, events, j).procs|
    ensures At(NAMING, events, j).procs[Launches(events[..launch])].id == LaunchedId(NAMING, events, launch)
  {
    LaunchesGrow(events, launch, j);
    AtInv(events, j);
    var k := Launches(events[..launch]);
    assert ProcessOk(NAMING, At(NAMING, events, j).log, At(NAMING, events, j).procs[k], k);
  }

  lemma AtNext(events: seq<Event>, i: nat)
    requires i < |events|
    ensures At(NAMING, events, i + 1) == Step(NAMING, At(NAMING, events, i), events[i])
  {
    assert events[..i + 1][..i] == events[..i];
  }

  lemma UnwrittenBefore(events: seq<Event>, write: nat, k: nat)
    requires write <= |events| && k < |At(NAMING, events, write).procs|
    requires forall x :: 0 <= x < write && events[x].Write? ==> events[x].proc != k
    ensures At(NAMING, events, write).procs[k].written.None?
  {
    AtInv(events, write);
    var s := At(NAMING, events, write);
    assert ProcessOk(NAMING, s.log, s.procs[k], k);
  }

  lemma WriteWrites(s: State, k: nat, output: Output)
    requires k < |s.procs| && s.procs[k].written.None?
    ensures var t := Step(NAMING, s, Write(k, output)); k < |t.procs| && t.procs[k].written == Some(output)
  {
  }

  lemma CloseCloses(s: State, k: nat)
    requires k < |s.procs| && s.procs[k].written.Some?
    ensures Finished(Step(NAMING, s, Close(k)), k)
  {
  }

  lemma GrowsFinished(s: State, t: State, k: nat)
    requires Grows(s, t) && k < |s.procs| && s.procs[k].written.Some?
    ensures k < |t.procs| && t.procs[k].written == s.procs[k].written && (Finished(s, k) ==> Finished(t, k))
  {
  }

  lemma TableFinds(name: Naming, s: State, id: string, k: nat)
    requires Injective(name) && Inv(name, s) && id in s.table && k < |s.procs| && s.procs[k].id == id
    ensures s.table[id] == k
  {
    assert Known(s, id, s.table[id]);
    assert ProcessOk(name, s.log, s.procs[s.table[id]], s.table[id]) && ProcessOk(name, s.log, s.procs[k], k);
  }

  lemma FinishedAtClose(events: seq<Event>, launch: nat, write: nat, close: nat, output: Output)
    requires FinishesAt(events, launch, write, close, output)
    ensures var s, k := At(NAMING, events, close + 1), Launches(events[..launch]);
            Finished(s, k) && s.procs[k].written == Some(output)
  {
    var k := Launches(events[..launch]);
    WrittenAtClose(events, launch, write, close, output);
    AtNext(events, close);
    CloseCloses(At(NAMING, events, close), k);
    StepGrows(NAMING, At(NAMING, events, close), Close(k));
    GrowsFinished(At(NAMING, events, close), At(NAMING, events, close + 1), k);
  }

  lemma WrittenAtClose(events: seq<Event>, launch: nat, write: nat, close: nat, output: Output)
    requires FinishesAt(events, launch, write, close, output)
    ensures var s, k := At(NAMING, events, close), Launches(events[..launch]);
            k < |s.procs| && s.procs[k].written == Some(output)
  {
    var k := Launches(events[..launch]);
    LaunchedBefore(events, launch, write);
    UnwrittenBefore(events, write, k);
    AtNext(events, write);
    WriteWrites(At(NAMING, events, write), k, output);
    AtGrows(NAMING, events, write + 1, close);
    GrowsFinished(At(NAMING, events, write + 1), At(NAMING, events, close), k);
  }

  lemma FinishedLater(events: seq<Event>, launch: nat, write: nat, close: nat, output: Output, j: nat)
    requires FinishesAt(events, launch, write, close, output) && close < j <= |events|
    ensures var s, k := At(NAMING, events, j), Launches(events[..launch]);
            Finished(s, k) && s.procs[k].written == Some(output)
  {
    FinishedAtClose(events, launch, write, close, output);
    AtGrows(NAMING, events, close + 1, j);
    GrowsFinished(At(NAMING, events, close + 1), At(NAMING, events, j), Launches(events[..launch]));
  }

  /** Once the goroutine of a launch has written its output and closed the channel, the id it answered, while it is in
      the table, stands for a finished process with exactly that output; `Server.BashStatus` then delivers it. */
  lemma FinishedIsDeliverable(events: seq<Event>, launch: nat, write: nat, close: nat, output: Output, j: nat)
    requires FinishesAt(events, launch, write, close, output) && close < j <= |events|
    requires LaunchedId(NAMING, events, launch) in At(NAMING, events, j).table
    ensures var s := At(NAMING, events, j); var k := s.table[LaunchedId(NAMING, events, launch)];
            Finished(s, k) && s.procs[k].written == Some(output)
  {
    FinishedLater(events, launch, write, close, output, j);
    LaunchedBefore(events, launch, j);
    AtInv(events, j);
    TableFinds(NAMING, At(NAMING, events, j), LaunchedId(NAMING, events, launch), Launches(events[..launch]));
  }

  /** The state once a poll has looked its process up and received from the channel. */
  ghost function Selected(s: State, poll: nat, id: string, others: seq<Event>): State {
    Step(NAMING, Exec(NAMING, Step(NAMING, s, Lookup(poll, id)), others), Select(poll))
  }

  /** The state once that poll has also removed the process and answered its output. */
  ghost function Answered(s: State, poll: nat, id: string, others1: seq<Event>, others2: seq<Event>,
                          others3: seq<Event>): State {
    var deleted := Step(NAMING, Exec(NAMING, Selected(s, poll, id, others1), others2), Delete(poll));
    Step(NAMING, Exec(NAMING, deleted, others3), Return(poll))
  }

  /** The server's state. The methods below interleave with any events of other requests and goroutines. */
  class Server {
    var bgCounter: nat
    var bgProcesses: map<string, nat>
    var procs: seq<Process>
    var polls: map<nat, Poll>
    var removed: set<string>
    var delivered: seq<Delivery>
    var log: seq<Event>

    constructor ()
      ensures View() == INITIAL
    {
      bgCounter, bgProcesses, procs, polls := 0, map[], [], map[];
      removed, delivered, log := {}, [], [];
    }

    function View(): State
      reads this
    {
      State(bgCounter, bgProcesses, procs, polls, removed, delivered, log)
    }

    /** The last delivery made, and of what its process has written. */
    ghost predicate LastDelivery(d: Delivery)
      reads this
    {
      && delivered != [] && delivered[|delivered| - 1] == d
      && d.proc < |procs| && procs[d.proc].written == Some(d.output)
    }

    method Become(s: State)
      modifies this
      ensures View() == s
    {
      bgCounter, bgProcesses, procs, polls := s.counter, s.table, s.procs, s.polls;
      removed, delivered, log := s.removed, s.delivered, s.log;
    }

    /** Other requests and goroutines run. */
    method Others(events: seq<Event>)
      modifies this
      ensures View() == Exec(NAMING, old(View()), events)
    {
      Become(Exec(NAMING, View(), events));
    }

    /** `bashBackground`, from taking the lock to starting the goroutine. */
    method BashBackground(command: string) returns (id: string)
      modifies this
      ensures View() == Step(NAMING, old(View()), Launch(command))
      ensures id == NAMING(old(bgCounter) + 1)
    {
      bgCounter := bgCounter + 1;
      id := NAMING(bgCounter);
      bgProcesses := bgProcesses[id := |procs|];
      procs := procs + [Process(id, command, |log|, None, 0, false)];
      log := log + [Launch(command)];
    }

    /** The lookup under the lock. */
    method LookupProcess(poll: nat, id: string) returns (proc: Option<nat>)
      requires poll !in polls
      modifies this
      ensures View() == if proc.Some? then Step(NAMING, old(View()), Lookup(poll, id)) else old(View())
      ensures proc == if id in old(bgProcesses) then Some(old(bgProcesses)[id]) else None
    {
      if id !in bgProcesses {
        return None;
      }
      proc := Some(bgProcesses[id]);
      polls, log := polls[poll := Looked(id, proc.value)], log + [Lookup(poll, id)];
    }

    /** The receive on the channel: it succeeds when the channel is closed. */
    method SelectDone(poll: nat, id: string, proc: nat) returns (done: bool)
      requires poll in polls && polls[poll] == Looked(id, proc) && proc < |procs|
      modifies this
      ensures View() == Step(NAMING, old(View()), Select(poll))
      ensures done == old(procs)[proc].closed
      ensures done ==> polls == old(polls)[poll := Ready(id, proc)]
    {
      done := procs[proc].closed;
      polls := if done then polls[poll := Ready(id, proc)] else polls - {poll};
      log := log + [Select(poll)];
    }

    /** The deletion under the lock. */
    method DeleteProcess(poll: nat, id: string, proc: nat)
      requires poll in polls && polls[poll] == Ready(id, proc)
      modifies this
      ensures View() == Step(NAMING, old(View()), Delete(poll))
      ensures polls == old(polls)[poll := Removed(id, proc)]
    {
      bgProcesses, removed := bgProcesses - {id}, removed + {id};
      polls, log := polls[poll := Removed(id, proc)], log + [Delete(poll)];
    }

    /** Reading the result and answering the request. */
    method ReadResult(poll: nat, id: string, proc: nat) returns (output: Output)
      requires poll in polls && polls[poll] == Removed(id, proc)
      requires proc < |procs| && procs[proc].written.Some?
      modifies this
      ensures View() == Step(NAMING, old(View()), Return(poll))
      ensures delivered == old(delivered) + [Delivery(id, proc, output)]
      ensures proc < |procs| && procs[proc].written == Some(output)
    {
      output := procs[proc].written.value;
      delivered := delivered + [Delivery(id, proc, output)];
      polls, log := polls - {poll}, log + [Return(poll)];
    }

    /** The second half of `BashStatus`, once the channel was seen closed. */
    method Deliver(poll: nat, id: string, proc: nat, others2: seq<Event>, others3: seq<Event>) returns (output: Output)
      requires Inv(NAMING, View()) && poll in polls && polls[poll] == Ready(id, proc)
      requires Elsewhere(poll, others2) && Elsewhere(poll, others3)
      modifies this
      ensures View()
              == Step(NAMING, Exec(NAMING, Step(NAMING, Exec(NAMING, old(View()), others2), Delete(poll)), others3),
                             Return(poll))
      ensures LastDelivery(Delivery(id, proc, output))
    {
      AfterOthers(View(), poll, others2);
      Others(others2);
      InvNext(View(), Delete(poll));
      DeleteProcess(poll, id, proc);
      AfterOthers(View(), poll, others3);
      Others(others3);
      output := ReadResult(poll, id, proc);
    }

    /** The first half: lookup under the lock, and a non-blocking receive on the channel. */
    method FindAndSelect(poll: nat, id: string, others1: seq<Event>) returns (found: Option<nat>, done: bool)
      requires Inv(NAMING, View()) && poll !in polls && Elsewhere(poll, others1)
      modifies this
      ensures found == if id in old(bgProcesses) then Some(old(bgProcesses)[id]) else None
      ensures found.None? ==> View() == old(View())
      ensures found.Some? ==>
                && View() == Selected(old(View()), poll, id, others1)
                && Inv(NAMING, View())
      ensures found.Some? ==> done == ClosedBy(old(View()), poll, id, others1)
      ensures found.Some? && done ==> poll in polls && polls[poll] == Ready(id, found.value)
    {
      done := false;
      InvNext(View(), Lookup(poll, id));
      found := LookupProcess(poll, id);
      if found.Some? {
        AfterOthers(View(), poll, others1);
        Others(others1);
        InvNext(View(), Select(poll));
        assert found.value < |procs|;
        done := SelectDone(poll, id, found.value);
      }
    }

    /** `BashStatus`: lookup under the lock, a non-blocking receive on the channel, and when it is closed a
        deletion under the lock before the result is read. */
    method BashStatus(poll: nat, id: string, others1: seq<Event>, others2: seq<Event>, others3: seq<Event>)
      returns (answer: Answer)
      requires Inv(NAMING, View()) && poll !in polls
      requires Elsewhere(poll, others1) && Elsewhere(poll, others2) && Elsewhere(poll, others3)
      modifies this
      ensures answer.Unknown? <==> id !in old(bgProcesses)
      ensures answer.Done? <==> id in old(bgProcesses) && ClosedBy(old(View()), poll, id, others1)
      ensures answer.Unknown? ==> View() == old(View())
      ensures answer.Running? ==>
                View() == Selected(old(View()), poll, id, others1)
      ensures answer.Done? ==>
                View() == Answered(old(View()), poll, id, others1, others2, others3)
      ensures answer.Done? ==> id in old(bgProcesses) && LastDelivery(Delivery(id, old(bgProcesses)[id], answer.output))
    {
      var found, done := FindAndSelect(poll, id, others1);
      if found.None? {
        return Unknown;
      }
      if !done {
        return Running;
      }
      var output := Deliver(poll, id, found.value, others2, others3);
      return Done(output);
    }

    /** A poll of a process that has finished delivers its output, whatever runs meanwhile. */
    method PollFinished(poll: nat, id: string, others1: seq<Event>, others2: seq<Event>, others3: seq<Event>)
      returns (answer: Answer)
      requires Inv(NAMING, View()) && poll !in polls
      requires Elsewhere(poll, others1) && Elsewhere(poll, others2) && Elsewhere(poll, others3)
      requires id in bgProcesses && Finished(View(), bgProcesses[id])
      modifies this
      ensures answer == Done(old(procs)[old(bgProcesses)[id]].written.value)
    {
      OutputKept(View(), poll, id, others1, others2, others3);
      answer := BashStatus(poll, id, others1, others2, others3);
    }
  }

  /** What a process had written is still there after the steps of a delivering poll and the events between them. */
  lemma OutputKept(s: State, poll: nat, id: string, others1: seq<Event>, others2: seq<Event>, others3: seq<Event>)
    requires Inv(NAMING, s)
    ensures id in s.table && Finished(s, s.table[id]) ==>
              var t := Answered(s, poll, id, others1, others2, others3);
              && ClosedBy(s, poll, id, others1)
              && s.table[id] < |t.procs| && t.procs[s.table[id]].written == s.procs[s.table[id]].written
  {
    if id in s.table && Finished(s, s.table[id]) {
      ClosedStays(s, poll, id, others1);
      PollTrace(s, poll, id, others1, others2, others3);
      var events := [Lookup(poll, id)] + others1 + [Select(poll)] + others2 + [Delete(poll)] + others3 + [Return(poll)];
      RunGrows(NAMING, s, events);
      GrowsFinished(s, Exec(NAMING, s, events), s.table[id]);
    }
  }

  lemma ClosedStays(s: State, poll: nat, id: string, others: seq<Event>)
    requires id in s.table && Finished(s, s.table[id])
    ensures ClosedBy(s, poll, id, others)
  {
    var t := Step(NAMING, s, Lookup(poll, id));
    StepGrows(NAMING, s, Lookup(poll, id));
    GrowsFinished(s, t, s.table[id]);
    RunGrows(NAMING, t, others);
    GrowsFinished(t, Exec(NAMING, t, others), s.table[id]);
  }

  lemma InvNext(s: State, e: Event)
    requires Inv(NAMING, s)
    ensures Inv(NAMING, Step(NAMING, s, e))
  {
    NamingInjective();
    InvStep(NAMING, s, e);
  }

  /** What a poll can rely on after other events. */
  lemma AfterOthers(s: State, poll: nat, events: seq<Event>)
    requires Inv(NAMING, s) && poll in s.polls && Elsewhere(poll, events)
    ensures var t := Exec(NAMING, s, events);
            && Inv(NAMING, t) && poll in t.polls && t.polls[poll] == s.polls[poll]
            && s.polls[poll].proc < |t.procs|
            && (!s.polls[poll].Looked? ==> t.procs[s.polls[poll].proc].written.Some?)
  {
    PollUntouched(s, poll, events);
    InvExec(s, events);
    var t := Exec(NAMING, s, events);
    assert PollOk(t, t.polls[poll]);
    assert ProcessOk(NAMING, t.log, t.procs[t.polls[poll].proc], t.polls[poll].proc);
  }

  lemma ExecOne(s: State, e: Event)
    ensures Exec(NAMING, s, [e]) == Step(NAMING, s, e)
  {
  }

  lemma ExecThen(s: State, events: seq<Event>, others: seq<Event>, e: Event)
    ensures Step(NAMING, Exec(NAMING, Exec(NAMING, s, events), others), e) == Exec(NAMING, s, events + others + [e])
  {
    ExecJoined(NAMING, s, events, others);
    ExecJoined(NAMING, s, events + others, [e]);
    ExecOne(Exec(NAMING, s, events + others), e);
  }

  /** The steps of a delivering poll are one run. */
  lemma PollTrace(s: State, poll: nat, id: string, others1: seq<Event>, others2: seq<Event>, others3: seq<Event>)
    ensures Answered(s, poll, id, others1, others2, others3) ==
            Exec(NAMING, s,
                 [Lookup(poll, id)] + others1 + [Select(poll)] + others2 + [Delete(poll)] + others3 + [Return(poll)])
  {
    var t1 := [Lookup(poll, id)];
    var t2 := t1 + others1 + [Select(poll)];
    var t3 := t2 + others2 + [Delete(poll)];
    ExecOne(s, Lookup(poll, id));
    ExecThen(s, t1, others1, Select(poll));
    ExecThen(s, t2, others2, Delete(poll));
    ExecThen(s, t3, others3, Return(poll));
  }
}
