/**
 The connectivity state manager of client.go, its notification channels, and the callers of
 WaitForStateChange and WaitForReady that sleep on them.

 A channel is named by its generation number; closing a channel twice panics in Go.
 */
module Connectivity {
  import opened Runs

  datatype State = Idle | Connecting | Ready | TransientFailure | Shutdown

  /** A notification channel. */
  type Signal = nat

  /** A lazily made channel that is closed and forgotten at the next change: the channel to hand
      out next (if made), how many were ever made, and which of them have been closed. */
  datatype Notifier = Notifier(current: Option<Signal>, made: nat, closed: set<Signal>) {

    /** Every channel ever made is closed, except possibly the current one. */
    ghost predicate Valid() {
      && (current.Some? ==> current.value < made)
      && (forall c: Signal :: c in closed <==> c < made && current != Some(c))
    }

    function Hand(): (Notifier, Signal) {
      match current
      case Some(c) => (this, c)
      case None => (Notifier(Some(made), made + 1, closed), made)
    }

    function Fire(): Notifier {
      match current
      case Some(c) => Notifier(None, made, closed + {c})
      case None => this
    }
  }

  const NO_WATCHERS := Notifier(None, 0, {})

  datatype Manager = Manager(state: State, notifier: Notifier) {

    function Update(s: State): Manager {
      if state == s then this else Manager(s, notifier.Fire())
    }

    function TakeChan(): (Manager, Signal) {
      var (n, c) := notifier.Hand();
      (Manager(state, n), c)
    }
  }

  const NEW_MANAGER := Manager(Idle, NO_WATCHERS)

  /** connectivityStateManager: the object behind the value Manager. Its history of states and the
      moment at which each channel was made are kept as ghost state. */
  class ConnectivityStateManager {
    var state: State
    var notifyChan: Option<Signal>
    var made: nat
    var closed: set<Signal>
    ghost var history: seq<State>       // every state the manager has had, the current one last
    ghost var madeAt: map<Signal, nat>    // how many states had been seen when a channel was made

    ghost function View(): Manager
      reads this
    {
      Manager(state, Notifier(notifyChan, made, closed))
    }

    /** No lost wakeups: a channel is still open exactly when no state change has followed the
        moment it was made, and a wakeup is delivered by closing it. */
    ghost predicate Valid()
      reads this
    {
      && View().notifier.Valid()
      && |history| > 0 && history[|history| - 1] == state
      && (forall i :: 0 < i < |history| ==> history[i - 1] != history[i])
      && (forall c: Signal :: c in madeAt <==> c < made)
      && (forall c <- madeAt :: 0 < madeAt[c] <= |history|)
      && (forall c <- madeAt :: c !in closed <==> madeAt[c] == |history|)
    }

    constructor ()
      ensures Valid() && View() == NEW_MANAGER && history == [Idle]
    {
      state, notifyChan, made, closed := Idle, None, 0, {};
      history, madeAt := [Idle], map[];
    }

    method UpdateState(s: State)
      requires Valid()
      modifies this
      ensures Valid()
      ensures View() == old(View()).Update(s)
      ensures history == if s == old(state) then old(history) else old(history) + [s]
      ensures madeAt == old(madeAt)
      ensures s != old(state) ==> forall c <- madeAt :: c in closed
    {
      if state == s {
        return;
      }
      state := s;
      history := history + [s];
      if notifyChan.Some? {
        assert notifyChan.value !in closed;  // closing a closed channel would panic
        closed := closed + {notifyChan.value};
        notifyChan := None;
      }
    }

    method GetState() returns (s: State)
      requires Valid()
      ensures s == View().state == history[|history| - 1]
    {
      s := state;
    }

    method GetNotifyChan() returns (c: Signal)
      requires Valid()
      modifies this
      ensures Valid()
      ensures (View(), c) == old(View()).TakeChan()
      ensures history == old(history) && closed == old(closed)
      ensures c in madeAt && c !in closed && madeAt[c] == |history|
      ensures forall d <- old(madeAt) :: d in madeAt && madeAt[d] == old(madeAt)[d]
    {
      if notifyChan.None? {
        notifyChan := Some(made);
        madeAt := madeAt[made := |history|];
        made := made + 1;
      }
      c := notifyChan.value;
    }
  }
}

/** Any number of concurrent WaitForStateChange and WaitForReady calls against one manager whose
    state keeps being updated. Each step is one critical section or one channel receive. */
module Waiting {
  import opened Runs
  import opened Connectivity

  datatype Goal = Leaving(source: State) | BecomingReady

  datatype Phase =
    | Started                              // about to take the channel
    | HasChan(ch: Signal)                  // about to sample the state
    | Blocked(ch: Signal, sampled: nat)    // asleep; `sampled` indexes the state it saw
    | Returned(ok: bool)
    | Cancelled

  /** A call, with the index in the history of the state current when it began. */
  datatype Waiter = Waiter(goal: Goal, since: nat, phase: Phase)

  datatype World = World(
    mgr: Manager,
    history: seq<State>,
    madeAt: map<Signal, nat>,                // the history's length when each channel was made
    waiters: map<nat, Waiter>)

  datatype Action =
    | Update(s: State)
    | Call(t: nat, goal: Goal)
    | TakeChan(t: nat)
    | Sample(t: nat)
    | Wake(t: nat)
    | Cancel(t: nat)

  const INIT := World(NEW_MANAGER, [Idle], map[], map[])

  /** What a caller with this goal does on seeing state s: return, or (None) go to sleep. */
  function Decide(goal: Goal, s: State): Option<bool> {
    match goal
    case Leaving(source) => if s != source then Some(true) else None
    case BecomingReady => if s == Ready then Some(true) else if s == Shutdown then Some(false) else None
  }

  /** What a caller does when its channel is closed: WaitForReady starts over. */
  function AfterWake(goal: Goal): Phase {
    if goal.BecomingReady? then Started else Returned(true)
  }

  function Step(w: World, a: Action): Option<World> {
    match a
    case Update(s) =>
      if s == w.mgr.state then Some(w.(mgr := w.mgr.Update(s)))
      else Some(w.(mgr := w.mgr.Update(s), history := w.history + [s]))
    case Call(t, goal) =>
      if t in w.waiters || |w.history| == 0 then None
      else Some(w.(waiters := w.waiters[t := Waiter(goal, |w.history| - 1, Started)]))
    case TakeChan(t) =>
      if t !in w.waiters || w.waiters[t].phase != Started then None
      else
        var (mgr, ch) := w.mgr.TakeChan();
        Some(w.(mgr := mgr,
                madeAt := if ch in w.madeAt then w.madeAt else w.madeAt[ch := |w.history|],
                waiters := w.waiters[t := w.waiters[t].(phase := HasChan(ch))]))
    case Sample(t) =>
      if t !in w.waiters || !w.waiters[t].phase.HasChan? || |w.history| == 0 then None
      else
        var x := w.waiters[t];
        var phase := match Decide(x.goal, w.mgr.state)
          case Some(ok) => Returned(ok)
          case None => Blocked(x.phase.ch, |w.history| - 1);
        Some(w.(waiters := w.waiters[t := x.(phase := phase)]))
    case Wake(t) =>
      if t !in w.waiters || !w.waiters[t].phase.Blocked? || w.waiters[t].phase.ch !in w.mgr.notifier.closed then None
      else Some(w.(waiters := w.waiters[t := w.waiters[t].(phase := AfterWake(w.waiters[t].goal))]))
    case Cancel(t) =>
      if t !in w.waiters || !w.waiters[t].phase.Blocked? then None
      else Some(w.(waiters := w.waiters[t := w.waiters[t].(phase := Cancelled)]))
  }

  /** The states the manager had during a call, from its beginning until now, include one that
      satisfies `what`. */
  ghost predicate SeenDuring(w: World, x: Waiter, what: State -> bool) {
    exists i :: x.since <= i < |w.history| && what(w.history[i])
  }

  ghost predicate ChannelsOk(w: World) {
    && w.mgr.notifier.Valid()
    && |w.history| > 0 && w.history[|w.history| - 1] == w.mgr.state
    && (forall i :: 0 < i < |w.history| ==> w.history[i - 1] != w.history[i])
    && (forall c: Signal :: c in w.madeAt <==> c < w.mgr.notifier.made)
    && (forall c <- w.madeAt :: 0 < w.madeAt[c] <= |w.history|)
    && (forall c <- w.madeAt :: c !in w.mgr.notifier.closed <==> w.madeAt[c] == |w.history|)
  }

  ghost predicate WaiterOk(w: World, x: Waiter) {
    && x.since < |w.history|
    && (x.phase.HasChan? || x.phase.Blocked? ==>
          x.phase.ch in w.madeAt && x.since < w.madeAt[x.phase.ch])
    && (x.phase.Blocked? ==>
          && w.madeAt[x.phase.ch] - 1 <= x.phase.sampled < |w.history|
          && Decide(x.goal, w.history[x.phase.sampled]) == None)
    && (x.phase == Returned(true) ==>
          match x.goal
          case Leaving(source) => SeenDuring(w, x, s => s != source)
          case BecomingReady => SeenDuring(w, x, s => s == Ready))
    && (x.phase == Returned(false) ==> x.goal.BecomingReady? && SeenDuring(w, x, s => s == Shutdown))
  }

  ghost predicate Inv(w: World) {
    && ChannelsOk(w)
    && forall t <- w.waiters :: WaiterOk(w, w.waiters[t])
  }

  /** Seeing a state stays true as the history grows. */
  lemma SeenLonger(w: World, w': World, x: Waiter, what: State -> bool)
    requires w.history <= w'.history && SeenDuring(w, x, what)
    ensures SeenDuring(w', x, what)
  {
    var i :| x.since <= i < |w.history| && what(w.history[i]);
    assert what(w'.history[i]);
  }

  lemma UpdateChannels(w: World, s: State)
    requires ChannelsOk(w)
    ensures var w' := Step(w, Update(s)).value;
            ChannelsOk(w') && w.history <= w'.history && w'.madeAt == w.madeAt && w'.waiters == w.waiters
  {
  }

  /** A caller's own facts stay true as the history grows. */
  lemma WaiterLater(w: World, w': World, x: Waiter)
    requires WaiterOk(w, x) && w.history <= w'.history && w'.madeAt == w.madeAt
    ensures WaiterOk(w', x)
  {
    if x.phase.Returned? {
      match x.goal
      case Leaving(source) => SeenLonger(w, w', x, s => s != source);
      case BecomingReady => SeenLonger(w, w', x, if x.phase.ok then s => s == Ready else s => s == Shutdown);
    }
  }

  lemma UpdateKeeps(w: World, s: State)
    requires Inv(w)
    ensures Inv(Step(w, Update(s)).value)
  {
    var w' := Step(w, Update(s)).value;
    UpdateChannels(w, s);
    forall t <- w'.waiters
      ensures WaiterOk(w', w'.waiters[t])
    {
      WaiterLater(w, w', w.waiters[t]);
    }
  }

  /** A caller whose channel was closed since it was made was awake through two different states,
      so at least one of them was not its source. */
  lemma WokenSawChange(w: World, x: Waiter)
    requires Inv(w) && WaiterOk(w, x) && x.phase.Blocked? && x.goal.Leaving?
    requires x.phase.ch in w.mgr.notifier.closed
    ensures SeenDuring(w, x, s => s != x.goal.source)
  {
    var i := w.madeAt[x.phase.ch];
    assert w.history[i - 1] != w.history[i];
    if w.history[i - 1] != x.goal.source {
      assert (s => s != x.goal.source)(w.history[i - 1]);
    } else {
      assert (s => s != x.goal.source)(w.history[i]);
    }
  }

  /** A caller's own facts do not depend on the others, nor on which channels are made later. */
  lemma WaiterFramed(w: World, w': World, x: Waiter)
    requires ChannelsOk(w) && WaiterOk(w, x) && w'.history == w.history
    requires forall c <- w.madeAt :: c in w'.madeAt && w'.madeAt[c] == w.madeAt[c]
    ensures WaiterOk(w', x)
  {
  }

  lemma TakeChanKeeps(w: World, t: nat)
    requires Inv(w) && Step(w, TakeChan(t)).Some?
    ensures Inv(Step(w, TakeChan(t)).value)
  {
    var w' := Step(w, TakeChan(t)).value;
    assert ChannelsOk(w');
    assert WaiterOk(w, w.waiters[t]);
    forall u <- w'.waiters
      ensures WaiterOk(w', w'.waiters[u])
    {
      if u != t {
        WaiterFramed(w, w', w.waiters[u]);
      }
    }
  }

  /** The steps that change no more than the phase of one caller. */
  lemma CallerStepKeeps(w: World, a: Action)
    requires Inv(w) && (a.Call? || a.Sample? || a.Wake? || a.Cancel?) && Step(w, a).Some?
    ensures Inv(Step(w, a).value)
  {
    var w' := Step(w, a).value;
    assert ChannelsOk(w') by {
      assert w'.mgr == w.mgr && w'.history == w.history && w'.madeAt == w.madeAt;
    }
    CallerKeepsOwn(w, a);
    forall u <- w'.waiters
      ensures WaiterOk(w', w'.waiters[u])
    {
      if u != a.t {
        WaiterFramed(w, w', w.waiters[u]);
      }
    }
  }

  lemma CallerKeepsOwn(w: World, a: Action)
    requires Inv(w) && (a.Call? || a.Sample? || a.Wake? || a.Cancel?) && Step(w, a).Some?
    ensures WaiterOk(Step(w, a).value, Step(w, a).value.waiters[a.t])
  {
    var w' := Step(w, a).value;
    var x' := w'.waiters[a.t];
    if !a.Call? {
      assert WaiterOk(w, w.waiters[a.t]);
    }
    if a.Wake? && x'.goal.Leaving? {
      WokenSawChange(w, w.waiters[a.t]);
    }
    if a.Sample? && x'.phase.Returned? {
      var last := |w.history| - 1;
      match x'.goal
      case Leaving(source) => assert (s => s != source)(w'.history[last]);
      case BecomingReady => assert (if x'.phase.ok then s => s == Ready else s => s == Shutdown)(w'.history[last]);
    }
  }

  lemma Reached(actions: seq<Action>, w: World)
    requires Exec(Step, INIT, actions) == Some(w)
    ensures Inv(w)
  {
    forall t, a | Inv(t) && Step(t, a).Some? ensures Inv(Step(t, a).value) {
      match a {
        case Update(s) => UpdateKeeps(t, s);
        case TakeChan(u) => TakeChanKeeps(t, u);
        case _ => CallerStepKeeps(t, a);
      }
    }
    Invariance(Step, Inv, INIT, actions);
  }

  /** No lost wakeups, over every run: a caller asleep on a channel that is still open has missed
      nothing. The manager has not changed state since the caller sampled it, so a caller of
      WaitForStateChange still sees its source and one of WaitForReady neither Ready nor Shutdown. */
  lemma NoLostWakeups(actions: seq<Action>, w: World, t: nat)
    requires Exec(Step, INIT, actions) == Some(w)
    requires t in w.waiters && w.waiters[t].phase.Blocked?
    requires w.waiters[t].phase.ch !in w.mgr.notifier.closed
    ensures w.waiters[t].phase.sampled == |w.history| - 1
    ensures match w.waiters[t].goal
            case Leaving(source) => w.mgr.state == source
            case BecomingReady => w.mgr.state != Ready && w.mgr.state != Shutdown
  {
    Reached(actions, w);
    assert WaiterOk(w, w.waiters[t]);
  }

  /** The verdicts are true, over every run: true from WaitForStateChange means the state did
      differ from the source at some moment of the call; true (false) from WaitForReady means the
      state was Ready (Shutdown) at some moment of the call. */
  lemma VerdictsAreTrue(actions: seq<Action>, w: World, t: nat)
    requires Exec(Step, INIT, actions) == Some(w)
    requires t in w.waiters && w.waiters[t].phase.Returned?
    ensures exists i :: w.waiters[t].since <= i < |w.history|
                        && match w.waiters[t].goal
                           case Leaving(source) => w.waiters[t].phase.ok && w.history[i] != source
                           case BecomingReady => w.history[i] == if w.waiters[t].phase.ok then Ready else Shutdown
  {
    Reached(actions, w);
    var x := w.waiters[t];
    assert WaiterOk(w, x);
    if x.goal.Leaving? {
      var i :| x.since <= i < |w.history| && (s => s != x.goal.source)(w.history[i]);
    } else {
      var i :| x.since <= i < |w.history| && (if x.phase.ok then s => s == Ready else s => s == Shutdown)(w.history[i]);
    }
  }

  // ---- How calls end -------------------------------------------------------------------------

  /** A call ends as cancelled, which both functions report as false, only if its own context was
      done while it slept. */
  lemma CancelledByOwnContext(actions: seq<Action>, w: World, t: nat)
    requires Exec(Step, INIT, actions) == Some(w)
    requires t in w.waiters && w.waiters[t].phase.Cancelled?
    ensures Cancel(t) in actions
  {
    var inv := (done: seq<Action>, v: World) =>
      t in v.waiters && v.waiters[t].phase.Cancelled? ==> Cancel(t) in done;
    forall done, v, a | inv(done, v) && Step(v, a).Some? ensures inv(done + [a], Step(v, a).value) {
    }
    InvarianceWithRun(Step, inv, INIT, actions);
  }

  /** A caller asleep can always be cancelled, and one whose channel is closed can always wake: then
      WaitForStateChange returns true, and WaitForReady starts over. */
  lemma SleepersCanLeave(actions: seq<Action>, w: World, t: nat)
    requires Exec(Step, INIT, actions) == Some(w)
    requires t in w.waiters && w.waiters[t].phase.Blocked?
    ensures Step(w, Cancel(t)).Some? && Step(w, Cancel(t)).value.waiters[t].phase == Cancelled
    ensures w.waiters[t].phase.ch in w.mgr.notifier.closed ==>
              && Step(w, Wake(t)).Some?
              && Step(w, Wake(t)).value.waiters[t].phase
                 == if w.waiters[t].goal.Leaving? then Returned(true) else Started
  {
  }

  predicate IsOwn(a: Action, t: nat) {
    a == TakeChan(t) || a == Sample(t) || a == Wake(t)
  }

  /** The call sleeps on an open channel, or has returned: true from WaitForStateChange, and what the
      present state asks for from WaitForReady. */
  ghost predicate Settled(w: World, t: nat) {
    && t in w.waiters
    && var x := w.waiters[t];
       if x.phase.Returned? then (x.goal.Leaving? && x.phase.ok) || Decide(x.goal, w.mgr.state) == Some(x.phase.ok)
       else x.phase.Blocked? && x.phase.ch !in w.mgr.notifier.closed && Decide(x.goal, w.mgr.state) == None
  }

  ghost predicate CanSettle(w: World, t: nat) {
    exists own :: (forall a <- own :: IsOwn(a, t)) && Exec(Step, w, own).Some? && Settled(Exec(Step, w, own).value, t)
  }

  lemma SettledCanSettle(w: World, t: nat)
    requires Settled(w, t)
    ensures CanSettle(w, t)
  {
    assert Exec(Step, w, []) == Some(w);
  }

  lemma StepThenSettle(w: World, t: nat, a: Action)
    requires IsOwn(a, t) && Step(w, a).Some? && CanSettle(Step(w, a).value, t)
    ensures CanSettle(w, t)
  {
    var w' := Step(w, a).value;
    var own :| (forall b <- own :: IsOwn(b, t)) && Exec(Step, w', own).Some? && Settled(Exec(Step, w', own).value, t);
    ExecCons(Step, w, a, own);
  }

  lemma OpenSampleSettles(w: World, t: nat)
    requires Inv(w) && t in w.waiters && w.waiters[t].phase.HasChan?
    requires w.waiters[t].phase.ch !in w.mgr.notifier.closed
    ensures CanSettle(w, t)
  {
    SettledCanSettle(Step(w, Sample(t)).value, t);
    StepThenSettle(w, t, Sample(t));
  }

  lemma StartedSettles(w: World, t: nat)
    requires Inv(w) && t in w.waiters && w.waiters[t].phase.Started?
    ensures CanSettle(w, t)
  {
    TakeChanKeeps(w, t);
    OpenSampleSettles(Step(w, TakeChan(t)).value, t);
    StepThenSettle(w, t, TakeChan(t));
  }

  lemma SleeperSettles(w: World, t: nat)
    requires Inv(w) && t in w.waiters && w.waiters[t].phase.Blocked?
    ensures CanSettle(w, t)
  {
    assert WaiterOk(w, w.waiters[t]);
    if w.waiters[t].phase.ch in w.mgr.notifier.closed {
      var w' := Step(w, Wake(t)).value;
      CallerStepKeeps(w, Wake(t));
      if w.waiters[t].goal.Leaving? { SettledCanSettle(w', t); } else { StartedSettles(w', t); }
      StepThenSettle(w, t, Wake(t));
    } else {
      SettledCanSettle(w, t);
    }
  }

  lemma SampleSettles(w: World, t: nat)
    requires Inv(w) && t in w.waiters && w.waiters[t].phase.HasChan?
    ensures CanSettle(w, t)
  {
    var w' := Step(w, Sample(t)).value;
    CallerStepKeeps(w, Sample(t));
    if w'.waiters[t].phase.Blocked? { SleeperSettles(w', t); } else { SettledCanSettle(w', t); }
    StepThenSettle(w, t, Sample(t));
  }

  /** Every call answers: from every reachable state one that has not ended gets, by its own steps
      alone, to its verdict or to sleep on an open channel because the present state gives none. */
  lemma CallsSettle(actions: seq<Action>, w: World, t: nat)
    requires Exec(Step, INIT, actions) == Some(w)
    requires t in w.waiters && !w.waiters[t].phase.Returned? && !w.waiters[t].phase.Cancelled?
    ensures CanSettle(w, t)
  {
    Reached(actions, w);
    match w.waiters[t].phase
    case Started => StartedSettles(w, t);
    case HasChan(_) => SampleSettles(w, t);
    case Blocked(_, _) => SleeperSettles(w, t);
  }

  /** A call may begin at any time, and answers like any other. */
  lemma NewCallsSettle(actions: seq<Action>, w: World, t: nat, goal: Goal)
    requires Exec(Step, INIT, actions) == Some(w) && t !in w.waiters
    ensures Step(w, Call(t, goal)).Some? && t in Step(w, Call(t, goal)).value.waiters
    ensures Step(w, Call(t, goal)).value.waiters[t].goal == goal && CanSettle(Step(w, Call(t, goal)).value, t)
  {
    Reached(actions, w);
    CallerStepKeeps(w, Call(t, goal));
    StartedSettles(Step(w, Call(t, goal)).value, t);
  }

  /** A call that has ended has ended: its verdict stands in every continuation. */
  lemma VerdictsStand(w: World, t: nat, more: seq<Action>, w': World)
    requires t in w.waiters && (w.waiters[t].phase.Returned? || w.waiters[t].phase.Cancelled?)
    requires Exec(Step, w, more) == Some(w')
    ensures t in w'.waiters && w'.waiters[t] == w.waiters[t]
  {
    var inv := (v: World) => t in v.waiters && v.waiters[t] == w.waiters[t];
    Invariance(Step, inv, w, more);
  }

  /** The states a run of updates goes through: each one that differs from the one before it. */
  function StatesOf(actions: seq<Action>): (states: seq<State>)
    ensures states != []
  {
    if actions == [] then [Idle]
    else
      var before := StatesOf(actions[..|actions| - 1]);
      var last := actions[|actions| - 1];
      if last.Update? && last.s != before[|before| - 1] then before + [last.s] else before
  }

  ghost predicate FollowsUpdates(done: seq<Action>, w: World) {
    w.history == StatesOf(done) && w.mgr.state == w.history[|w.history| - 1]
  }

  lemma FollowsUpdatesStep(done: seq<Action>, w: World, a: Action)
    requires FollowsUpdates(done, w) && Step(w, a).Some?
    ensures FollowsUpdates(done + [a], Step(w, a).value)
  {
    assert (done + [a])[..|done|] == done;
  }

  /** The manager is always in the state of the last update, and the history is that of the updates. */
  lemma HistoryIsTheUpdates(actions: seq<Action>, w: World)
    requires Exec(Step, INIT, actions) == Some(w)
    ensures w.history == StatesOf(actions) && w.mgr.state == w.history[|w.history| - 1]
  {
    forall done, v, a | FollowsUpdates(done, v) && Step(v, a).Some?
      ensures FollowsUpdates(done + [a], Step(v, a).value)
    {
      FollowsUpdatesStep(done, v, a);
    }
    InvarianceWithRun(Step, FollowsUpdates, INIT, actions);
  }
}
