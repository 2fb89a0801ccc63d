/** Whole runs of the OAuth state machine. */
module OAuthRuns {
  import opened OAuth
  import opened OAuthInvariant
  import opened OAuthSessions

  /** The first `n` events each lead from one state to the next. */
  ghost predicate Follows(next: (State, Event, State) -> bool, events: seq<Event>, states: seq<State>, n: nat)
    requires n <= |events| && |states| == |events| + 1
  {
    n == 0 || (Follows(next, events, states, n - 1) && next(states[n - 1], events[n - 1], states[n]))
  }

  /** A legal event, and the state it leads to. */
  ghost function Next(w: World): (State, Event, State) -> bool {
    (s, e, t) => Legal(s, e) && t == Step(w, s, e)
  }

  /** A run: legal events from empty tables, and the states before, between and after them. */
  ghost predicate Run(w: World, events: seq<Event>, states: seq<State>) {
    && Proper(w) && |states| == |events| + 1
    && states[0] == Initial(states[0].clock)
    && Follows(Next(w), events, states, |events|)
  }

  lemma {:induction false} FollowsAt(next: (State, Event, State) -> bool, events: seq<Event>, states: seq<State>,
                                     n: nat, i: nat)
    requires i < n <= |events| && |states| == |events| + 1 && Follows(next, events, states, n)
    ensures next(states[i], events[i], states[i + 1])
  {
    if i < n - 1 {
      FollowsAt(next, events, states, n - 1, i);
    }
  }

  lemma StepAt(w: World, events: seq<Event>, states: seq<State>, i: nat)
    requires Run(w, events, states) && i < |events|
    ensures Legal(states[i], events[i]) && states[i + 1] == Step(w, states[i], events[i])
  {
    FollowsAt(Next(w), events, states, |events|, i);
  }

  lemma {:induction false} InvFollows(w: World, next: (State, Event, State) -> bool, events: seq<Event>,
                                      states: seq<State>, n: nat, i: nat)
    requires i <= n <= |events| && |states| == |events| + 1 && Follows(next, events, states, n) && Inv(w, states[0])
    requires forall s, e, t :: next(s, e, t) && Inv(w, s) ==> Inv(w, t)
    ensures Inv(w, states[i])
  {
    if i > 0 {
      InvFollows(w, next, events, states, n, i - 1);
      FollowsAt(next, events, states, n, i - 1);
    }
  }

  /** The invariant holds at every position of a run. */
  lemma InvAt(w: World, events: seq<Event>, states: seq<State>, i: nat)
    requires Run(w, events, states) && i <= |events|
    ensures Inv(w, states[i])
  {
    forall s, e, t | Next(w)(s, e, t) && Inv(w, s) ensures Inv(w, t) {
      InvStep(w, s, e);
    }
    InitialInv(w, states[0].clock);
    InvFollows(w, Next(w), events, states, |events|, i);
  }

  lemma StepLogs(w: World, s: State, e: Event)
    ensures Step(w, s, e).log == s.log + [e]
  {
  }

  /** The log at a position is the run up to there. */
  lemma {:induction false} LogAt(w: World, events: seq<Event>, states: seq<State>, i: nat)
    requires Run(w, events, states) && i <= |events|
    ensures states[i].log == events[..i]
  {
    if i > 0 {
      LogAt(w, events, states, i - 1);
      StepAt(w, events, states, i - 1);
      StepLogs(w, states[i - 1], events[i - 1]);
    }
  }

  lemma LaterReflexive(s: State)
    ensures Later(s, s)
  {
  }

  lemma LaterNext(w: World, events: seq<Event>, states: seq<State>, i: nat)
    requires Run(w, events, states) && i < |events|
    ensures Later(states[i], states[i + 1])
  {
    InvAt(w, events, states, i);
    StepAt(w, events, states, i);
    InvStep(w, states[i], events[i]);
  }

  /** Later positions of a run are later states. */
  lemma {:induction false} LaterAt(w: World, events: seq<Event>, states: seq<State>, i: nat, j: nat)
    requires Run(w, events, states) && i <= j <= |events|
    ensures Later(states[i], states[j])
    decreases j
  {
    if i == j {
      LaterReflexive(states[i]);
    } else {
      LaterAt(w, events, states, i, j - 1);
      LaterNext(w, events, states, j - 1);
      LaterTransitive(states[i], states[j - 1], states[j]);
    }
  }
}
