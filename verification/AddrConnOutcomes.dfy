/** What must follow a loss of the transport, a cancellation and a teardown of the client connection. */
module AddrConnOutcomes {
  import opened Runs
  import opened Connectivity
  import opened AddrConn
  import opened AddrConnSafety
  import opened AddrConnTheorems
  import opened AddrConnRecovery

  // ---- The loss of a transport is seen -------------------------------------------------------

  /** The connection d, some time after c was Ready on transport g: unless it was shut down, it is as
      c left it until the callback of g has its turn; then the next state was Idle, and it is Ready on
      g no more. */
  ghost predicate SinceReady(c: Conn, g: nat, d: Conn) {
    && g < |d.transports| && d.loop != Created(g)
    && (|| d.state == Shutdown
        || (NotEntered(d, g) && d.states == c.states && d.state == Ready && d.transport == Some(g))
        || (!NotEntered(d, g) && c.states + [Idle] <= d.states && (d.state == Ready ==> d.transport != Some(g))))
  }

  lemma TeardownSinceReady(c: Conn, g: nat, d: Conn, a: Action)
    requires SinceReady(c, g, d) && TeardownStep(d, a).Some?
    ensures SinceReady(c, g, TeardownStep(d, a).value)
  {
  }

  lemma CallbackSinceReady(c: Conn, g: nat, d: Conn, a: Action)
    requires Inv(d) && SinceReady(c, g, d) && CallbackStep(d, a).Some?
    ensures SinceReady(c, g, CallbackStep(d, a).value)
  {
    CallbackShape(d, a);
  }

  /** connect is over before there is a transport. */
  lemma NoDialWithTransport(d: Conn, a: Action)
    requires Generations(d) && d.transports != []
    ensures DialStep(d, a).None?
  {
  }

  lemma LoopTakesSinceReady(c: Conn, g: nat, d: Conn, a: Action, d': Conn)
    requires Inv(d) && SinceReady(c, g, d) && LoopTakesMu(a) && LoopReady(d, a) && LoopTook(d, a, d')
    ensures SinceReady(c, g, d')
  {
  }

  lemma LoopOthersSinceReady(c: Conn, g: nat, d: Conn, a: Action)
    requires SinceReady(c, g, d) && !LoopTakesMu(a) && LoopStep(d, a).Some?
    ensures SinceReady(c, g, LoopStep(d, a).value)
  {
  }

  lemma StepSinceReady(c: Conn, g: nat, d: Conn, a: Action)
    requires Inv(d) && SinceReady(c, g, d) && Step(d, a).Some?
    ensures SinceReady(c, g, Step(d, a).value)
  {
    if TeardownStep(d, a).Some? { TeardownSinceReady(c, g, d, a); }
    else if PublishStep(d, a).Some? { PublishShape(d, a); }
    else if CallbackStep(d, a).Some? { CallbackSinceReady(c, g, d, a); }
    else {
      NoDialWithTransport(d, a);
      if LoopTakesMu(a) { LoopTakesShape(d, a); LoopTakesSinceReady(c, g, d, a, LoopStep(d, a).value); }
      else { LoopOthersSinceReady(c, g, d, a); }
    }
  }

  lemma RunSinceReady(c: Conn, g: nat, d: Conn, more: seq<Action>, d': Conn)
    requires Inv(d) && SinceReady(c, g, d) && Exec(Step, d, more) == Some(d')
    ensures Inv(d') && SinceReady(c, g, d')
  {
    var inv := (e: Conn) => Inv(e) && SinceReady(c, g, e);
    forall e, a | inv(e) && Step(e, a).Some? ensures inv(Step(e, a).value) {
      StepKeeps(e, a);
      StepSinceReady(c, g, e, a);
    }
    Invariance(Step, inv, d, more);
  }

  lemma ReadyNow(c: Conn, g: nat)
    requires Coupling(c) && c.state == Ready && c.transport == Some(g) && NotEntered(c, g)
    ensures SinceReady(c, g, c)
  {
  }

  lemma ReadyAgainIsNewer(c: Conn, g: nat, d: Conn)
    requires Coupling(d) && SinceReady(c, g, d) && !NotEntered(d, g)
    ensures d.state == Ready ==> d.transport.Some? && d.transport.value > g
  {
  }

  /** No loss of a transport goes unseen. Say the connection is Ready on a transport whose callback
      has not had its turn. Then, unless it is shut down, it stays as it is until that turn; the state
      set next is Idle; and whenever it is Ready again, that is on a newer transport. */
  lemma LossIsSeen(run: seq<Action>, c: Conn, g: nat, more: seq<Action>, d: Conn)
    requires Exec(Step, INIT, run) == Some(c) && Exec(Step, c, more) == Some(d)
    requires c.state == Ready && c.transport == Some(g) && NotEntered(c, g)
    ensures NotEntered(d, g) && d.state != Shutdown ==> d.state == Ready && d.states == c.states
    ensures !NotEntered(d, g) && d.state != Shutdown ==> c.states + [Idle] <= d.states
    ensures !NotEntered(d, g) && d.state == Ready ==> d.transport.Some? && d.transport.value > g
  {
    Reached(run, c);
    ReadyNow(c, g);
    RunSinceReady(c, g, c, more, d);
    if !NotEntered(d, g) {
      ReadyAgainIsNewer(c, g, d);
    }
  }

  // ---- connect -------------------------------------------------------------------------------

  /** connect can come to its end without a cancellation, a teardown or a loss. */
  ghost predicate DialCanEnd(c: Conn) {
    exists more: seq<Action> ::
      (forall a <- more :: Harmless(a)) && Exec(Step, c, more).Some? && Exec(Step, c, more).value.dial.Finished?
  }

  lemma RunThenDialEnds(c: Conn, now: seq<Action>, c1: Conn)
    requires Exec(Step, c, now) == Some(c1) && (forall a <- now :: Harmless(a)) && DialCanEnd(c1)
    ensures DialCanEnd(c)
  {
    var more: seq<Action> :|
      (forall a <- more :: Harmless(a)) && Exec(Step, c1, more).Some? && Exec(Step, c1, more).value.dial.Finished?;
    ExecAppend(Step, c, now, more);
  }

  lemma OneThenDialEnds(c: Conn, a: Action)
    requires Harmless(a) && Step(c, a).Some? && DialCanEnd(Step(c, a).value)
    ensures DialCanEnd(c)
  {
    ExecOne(c, a);
    RunThenDialEnds(c, [a], Step(c, a).value);
  }

  lemma FinishedDialEnds(c: Conn)
    requires c.dial.Finished?
    ensures DialCanEnd(c)
  {
    assert Exec(Step, c, []) == Some(c);
  }

  lemma SpawningDialEnds(c: Conn)
    requires c.dial.Spawning?
    ensures DialCanEnd(c)
  {
    FinishedDialEnds(Step(c, DialSpawn).value);
    OneThenDialEnds(c, DialSpawn);
  }

  lemma EnteredDialEnds(c: Conn)
    requires Inv(c) && !c.dial.Calling?
    ensures DialCanEnd(c)
  {
    if c.dial.Finished? {
      FinishedDialEnds(c);
    } else {
      MuReleasedFrom(c);
      ReleaseHarmless(c);
      SpawningDialEnds(Exec(Step, c, ReleaseRun(c)).value);
      RunThenDialEnds(c, ReleaseRun(c), Exec(Step, c, ReleaseRun(c)).value);
    }
  }

  lemma DialEnters(c: Conn)
    requires c.mu.None? && c.dial.Calling?
    ensures Step(c, DialEnter).Some? && !Step(c, DialEnter).value.dial.Calling?
  {
  }

  lemma CallingDialEnds(c: Conn)
    requires Inv(c) && c.mu.None? && c.dial.Calling?
    ensures DialCanEnd(c)
  {
    DialEnters(c);
    StepKeeps(c, DialEnter);
    EnteredDialEnds(Step(c, DialEnter).value);
    OneThenDialEnds(c, DialEnter);
  }

  /** connect can always return, whether it finds the connection Idle or shut down. */
  lemma ConnectCanReturn(run: seq<Action>, c: Conn)
    requires Exec(Step, INIT, run) == Some(c)
    ensures DialCanEnd(c)
  {
    Reached(run, c);
    if c.dial.Calling? {
      MuReleasedFrom(c);
      ReleaseHarmless(c);
      CallingDialEnds(Exec(Step, c, ReleaseRun(c)).value);
      RunThenDialEnds(c, ReleaseRun(c), Exec(Step, c, ReleaseRun(c)).value);
    } else {
      EnteredDialEnds(c);
    }
  }

  // ---- Cancellation --------------------------------------------------------------------------

  predicate Cancels(a: Action) {
    a.CancelConn? || a.CancelParent? || a.TeardownEnter?
  }

  ghost predicate CancelledBy(done: seq<Action>, c: Conn) {
    (c.acDone <==> exists a <- done :: Cancels(a)) && (c.ccDone <==> CancelParent in done)
  }

  lemma CancelledStep(c: Conn, a: Action)
    requires Step(c, a).Some?
    ensures Step(c, a).value.acDone == (c.acDone || Cancels(a))
    ensures Step(c, a).value.ccDone == (c.ccDone || a.CancelParent?)
  {
    if LoopStep(c, a).Some? && LoopTakesMu(a) { LoopTakesShape(c, a); }
  }

  /** The connection's context is done exactly if it was cancelled by itself, with its parent or by a
      teardown, and the parent's exactly if that was cancelled. */
  lemma CancelledIff(run: seq<Action>, c: Conn)
    requires Exec(Step, INIT, run) == Some(c)
    ensures c.acDone <==> exists a <- run :: Cancels(a)
    ensures c.ccDone <==> CancelParent in run
  {
    forall done, d, a | CancelledBy(done, d) && Step(d, a).Some? ensures CancelledBy(done + [a], Step(d, a).value) {
      CancelledStep(d, a);
      assert a in done + [a] && forall b <- done :: b in done + [a];
    }
    InvarianceWithRun(Step, CancelledBy, INIT, run);
  }

  function StopRun(c: Conn): seq<Action> {
    if c.listener.Applying? then [ListenerApply] + [ListenerStop] else [ListenerStop]
  }

  lemma ListenerStops(c: Conn)
    requires c.ccDone && c.listener.Receiving?
    ensures Exec(Step, c, [ListenerStop]).Some? && Exec(Step, c, [ListenerStop]).value.listener.Stopped?
  {
    ExecOne(c, ListenerStop);
  }

  lemma ListenerFinishes(c: Conn)
    requires c.ccDone && !c.listener.Stopped?
    ensures Exec(Step, c, StopRun(c)).Some? && Exec(Step, c, StopRun(c)).value.listener.Stopped?
  {
    if c.listener.Applying? {
      ListenerStops(Step(c, ListenerApply).value);
      ExecCons(Step, c, ListenerApply, [ListenerStop]);
    } else {
      ListenerStops(c);
    }
  }

  /** Both contexts can be cancelled at any time, and after the parent's cancellation the listener can
      stop: it has at most the update in its hands to finish. */
  lemma ListenerCanStop(c: Conn)
    requires !c.listener.Stopped?
    ensures Step(c, CancelConn).Some? && Step(c, CancelParent).Some?
    ensures var c' := Step(c, CancelParent).value;
            Exec(Step, c', StopRun(c')).Some? && Exec(Step, c', StopRun(c')).value.listener.Stopped?
  {
    ListenerFinishes(Step(c, CancelParent).value);
  }

  // ---- Teardown ------------------------------------------------------------------------------

  /** The teardown t, which took the transport cur, and how far it has got. */
  ghost predicate TornDown(d: Conn, t: nat, cur: Option<nat>) {
    && d.state == Shutdown && t in d.teardowns && (cur.Some? ==> cur.value < |d.transports|)
    && match d.teardowns[t]
       case Entering => false
       case ShuttingDown(x) => x == cur && (cur.Some? ==> d.transports[cur.value].closes == 0)
       case Closing(x) => x == cur && (cur.Some? ==> d.transports[cur.value].closes == 0)
       case Joining(x) => x == cur && (cur.Some? ==> d.transports[cur.value].closes == 1)
       case Returned =>
         && (cur.Some? ==> d.transports[cur.value].closes == 1 && d.transports[cur.value].callback == Fired)
         && (d.loop.Exited? || (cur.None? && (d.loop.NotStarted? || d.loop.Top?)))
  }

  lemma OwnTornDown(d: Conn, t: nat, cur: Option<nat>, a: Action)
    requires Generations(d) && TornDown(d, t, cur) && TeardownStep(d, a).Some? && a.t == t
    ensures TornDown(TeardownStep(d, a).value, t, cur)
  {
  }

  /** Another teardown finds Shutdown; none is on its way to close anything. */
  lemma OtherTornDown(d: Conn, t: nat, cur: Option<nat>, a: Action)
    requires Teardowns(d) && TornDown(d, t, cur) && TeardownStep(d, a).Some? && a.t != t
    ensures TornDown(TeardownStep(d, a).value, t, cur)
  {
  }

  lemma TeardownTornDown(d: Conn, t: nat, cur: Option<nat>, a: Action)
    requires Inv(d) && TornDown(d, t, cur) && TeardownStep(d, a).Some?
    ensures TornDown(TeardownStep(d, a).value, t, cur)
  {
    if a.t == t { OwnTornDown(d, t, cur, a); } else { OtherTornDown(d, t, cur, a); }
  }

  lemma CallbackTornDown(d: Conn, t: nat, cur: Option<nat>, a: Action)
    requires TornDown(d, t, cur) && CallbackStep(d, a).Some?
    ensures TornDown(CallbackStep(d, a).value, t, cur)
  {
    CallbackShape(d, a);
    CallbackLeavesTeardowns(d, a);
  }

  lemma CallbackLeavesTeardowns(d: Conn, a: Action)
    requires CallbackStep(d, a).Some?
    ensures CallbackStep(d, a).value.teardowns == d.teardowns
  {
  }

  lemma DialTornDown(d: Conn, t: nat, cur: Option<nat>, a: Action)
    requires Inv(d) && TornDown(d, t, cur) && DialStep(d, a).Some?
    ensures TornDown(DialStep(d, a).value, t, cur)
  {
  }

  lemma LoopTornDown(d: Conn, t: nat, cur: Option<nat>, a: Action)
    requires TornDown(d, t, cur) && LoopStep(d, a).Some?
    ensures TornDown(LoopStep(d, a).value, t, cur)
  {
    if LoopTakesMu(a) { LoopTakesShape(d, a); }
  }

  lemma StepTornDown(d: Conn, t: nat, cur: Option<nat>, a: Action)
    requires Inv(d) && TornDown(d, t, cur) && Step(d, a).Some?
    ensures TornDown(Step(d, a).value, t, cur)
  {
    if TeardownStep(d, a).Some? { TeardownTornDown(d, t, cur, a); }
    else if PublishStep(d, a).Some? { PublishShape(d, a); }
    else if CallbackStep(d, a).Some? { CallbackTornDown(d, t, cur, a); }
    else if DialStep(d, a).Some? { DialTornDown(d, t, cur, a); }
    else { LoopTornDown(d, t, cur, a); }
  }

  lemma RunTornDown(d: Conn, t: nat, cur: Option<nat>, more: seq<Action>, d': Conn)
    requires Inv(d) && TornDown(d, t, cur) && Exec(Step, d, more) == Some(d')
    ensures Inv(d') && TornDown(d', t, cur)
  {
    var inv := (e: Conn) => Inv(e) && TornDown(e, t, cur);
    forall e, a | inv(e) && Step(e, a).Some? ensures inv(Step(e, a).value) {
      StepKeeps(e, a);
      StepTornDown(e, t, cur, a);
    }
    Invariance(Step, inv, d, more);
  }

  lemma EntersTornDown(c: Conn, t: nat)
    requires Coupling(c) && Teardowns(c) && c.state != Shutdown && Step(c, TeardownEnter(t)).Some?
    ensures TornDown(Step(c, TeardownEnter(t)).value, t, c.transport)
  {
  }

  /** A teardown does what it is for. The one that finds the connection not shut down takes its
      transport, closes that exactly once, and returns only when the transport's pumps and callback
      have ended and the loop is over, or had not begun and will find Shutdown. */
  lemma TeardownCloses(run: seq<Action>, c: Conn, t: nat, more: seq<Action>, d: Conn)
    requires Exec(Step, INIT, run) == Some(c) && c.state != Shutdown && Step(c, TeardownEnter(t)).Some?
    requires Exec(Step, Step(c, TeardownEnter(t)).value, more) == Some(d)
    ensures t in d.teardowns && d.state == Shutdown
    ensures c.transport.Some? ==>
              && c.transport.value < |d.transports|
              && d.transports[c.transport.value].closes
                 == if d.teardowns[t].ShuttingDown? || d.teardowns[t].Closing? then 0 else 1
    ensures d.teardowns[t].Returned? ==>
              && (c.transport.Some? ==> d.transports[c.transport.value].callback == Fired)
              && (d.loop.Exited? || (c.transport.None? && (d.loop.NotStarted? || d.loop.Top?)))
  {
    Reached(run, c);
    StepKeeps(c, TeardownEnter(t));
    EntersTornDown(c, t);
    RunTornDown(Step(c, TeardownEnter(t)).value, t, c.transport, more, d);
  }
}
