/** A teardown can always return: nothing that is under way on the client connection keeps it. */
module AddrConnTeardown {
  import opened Runs
  import opened Connectivity
  import opened AddrConn
  import opened AddrConnSafety
  import opened AddrConnTheorems

  // ---- What a teardown took exists -----------------------------------------------------------

  function Taken(pc: TeardownPc): Option<nat> {
    if pc.ShuttingDown? || pc.Closing? || pc.Joining? then pc.cur else None
  }

  ghost predicate TakenExist(c: Conn) {
    forall t <- c.teardowns :: Taken(c.teardowns[t]).Some? ==> Taken(c.teardowns[t]).value < |c.transports|
  }

  ghost predicate Sound(c: Conn) {
    Inv(c) && TakenExist(c)
  }

  lemma TeardownKeepsTaken(c: Conn, a: Action)
    requires Coupling(c) && TakenExist(c) && TeardownStep(c, a).Some?
    ensures TakenExist(TeardownStep(c, a).value)
  {
  }

  lemma TeardownsStay(c: Conn, a: Action)
    requires TeardownStep(c, a).Some?
    ensures forall t <- c.teardowns :: t in TeardownStep(c, a).value.teardowns
  {
  }

  lemma OthersKeepTaken(c: Conn, a: Action)
    requires TeardownStep(c, a).None? && Step(c, a).Some?
    ensures var c' := Step(c, a).value; c'.teardowns == c.teardowns && |c'.transports| >= |c.transports|
  {
    if PublishStep(c, a).Some? { PublishShape(c, a); }
    else if LoopStep(c, a).Some? && LoopTakesMu(a) { LoopTakesShape(c, a); }
  }

  lemma StepKeepsTaken(c: Conn, a: Action)
    requires Coupling(c) && TakenExist(c) && Step(c, a).Some?
    ensures TakenExist(Step(c, a).value)
    ensures forall t <- c.teardowns :: t in Step(c, a).value.teardowns
  {
    if TeardownStep(c, a).Some? { TeardownKeepsTaken(c, a); TeardownsStay(c, a); } else { OthersKeepTaken(c, a); }
  }

  lemma StepKeepsSound(c: Conn, a: Action)
    requires Sound(c) && Step(c, a).Some?
    ensures Sound(Step(c, a).value)
    ensures forall t <- c.teardowns :: t in Step(c, a).value.teardowns
  {
    StepKeeps(c, a);
    StepKeepsTaken(c, a);
  }

  lemma RunKeepsSound(c: Conn, t: nat, more: seq<Action>, c': Conn)
    requires Sound(c) && t in c.teardowns && Exec(Step, c, more) == Some(c')
    ensures Sound(c') && t in c'.teardowns
  {
    var inv := (d: Conn) => Sound(d) && t in d.teardowns;
    forall d, a | inv(d) && Step(d, a).Some? ensures inv(Step(d, a).value) {
      StepKeepsSound(d, a);
    }
    Invariance(Step, inv, c, more);
  }

  lemma ReachedSound(run: seq<Action>, c: Conn)
    requires Exec(Step, INIT, run) == Some(c)
    ensures Sound(c)
  {
    Reached([], INIT);
    forall d, a | Sound(d) && Step(d, a).Some? ensures Sound(Step(d, a).value) {
      StepKeepsSound(d, a);
    }
    Invariance(Step, Sound, INIT, run);
  }

  // ---- Backwards from the return -------------------------------------------------------------

  /** The steps of what is under way; the write pump of a closed transport ends. */
  predicate WindsDown(a: Action) {
    !(a.DialEnter? || a.TeardownCall? || a.CancelConn? || a.CancelParent?)
  }

  /** The teardown can return. */
  ghost predicate CanReturn(c: Conn, t: nat) {
    exists more: seq<Action> ::
      && (forall a <- more :: WindsDown(a)) && Exec(Step, c, more).Some?
      && t in Exec(Step, c, more).value.teardowns && Exec(Step, c, more).value.teardowns[t] == Returned
  }

  lemma RunThenReturn(c: Conn, t: nat, now: seq<Action>, c1: Conn)
    requires Exec(Step, c, now) == Some(c1) && (forall a <- now :: WindsDown(a)) && CanReturn(c1, t)
    ensures CanReturn(c, t)
  {
    var more: seq<Action> :|
      && (forall a <- more :: WindsDown(a)) && Exec(Step, c1, more).Some?
      && t in Exec(Step, c1, more).value.teardowns && Exec(Step, c1, more).value.teardowns[t] == Returned;
    ExecAppend(Step, c, now, more);
  }

  lemma StepThenReturn(c: Conn, t: nat, a: Action)
    requires WindsDown(a) && Step(c, a).Some? && CanReturn(Step(c, a).value, t)
    ensures CanReturn(c, t)
  {
    ExecOne(c, a);
    RunThenReturn(c, t, [a], Step(c, a).value);
  }

  lemma ReturnedReturns(c: Conn, t: nat)
    requires t in c.teardowns && c.teardowns[t] == Returned
    ensures CanReturn(c, t)
  {
    assert Exec(Step, c, []) == Some(c);
  }

  /** Nothing holds ac.mu, and the teardown waits for the pumps and the loop. */
  ghost predicate Waits(c: Conn, t: nat) {
    Sound(c) && c.mu.None? && c.state == Shutdown && t in c.teardowns && c.teardowns[t].Joining?
  }

  /** The callback of what the teardown took has run to its end. */
  predicate TakenEnded(c: Conn, t: nat)
    requires t in c.teardowns && c.teardowns[t].Joining?
  {
    c.teardowns[t].cur.Some? ==> Callback(c, c.teardowns[t].cur.value) == Some(Fired)
  }

  lemma JoinedReturns(c: Conn, t: nat)
    requires Waits(c, t) && TakenEnded(c, t) && (c.loop.Exited? || c.loop.NotStarted?)
    ensures CanReturn(c, t)
  {
    ReturnedReturns(Step(c, TeardownReturn(t)).value, t);
    StepThenReturn(c, t, TeardownReturn(t));
  }

  /** How the loop ends once the connection is shut down. */
  function LoopLast(c: Conn): Action {
    match c.loop
    case Top => LoopEnter
    case Failed => LoopFailEnter
    case Created(_) => LoopAttach
    case _ => LoopCancelled
  }

  lemma LoopLastEnds(c: Conn)
    requires Locking(c) && Coupling(c) && c.mu.None? && c.state == Shutdown
    requires !c.loop.Exited? && !c.loop.NotStarted?
    ensures Step(c, LoopLast(c)) == Some(c.(loop := Exited))
  {
  }

  lemma LoopEndsThenReturns(c: Conn, t: nat)
    requires Waits(c, t) && TakenEnded(c, t)
    ensures CanReturn(c, t)
  {
    if c.loop.Exited? || c.loop.NotStarted? {
      JoinedReturns(c, t);
    } else {
      LoopLastEnds(c);
      StepKeepsSound(c, LoopLast(c));
      JoinedReturns(Step(c, LoopLast(c)).value, t);
      StepThenReturn(c, t, LoopLast(c));
    }
  }

  /** The rest of a callback of a connection that is shut down. */
  lemma CallbackShutDown(c: Conn, g: nat)
    requires Locking(c) && c.state == Shutdown && c.mu.None? && g < |c.transports|
    ensures Callback(c, g) == Some(Pumping) ==> Step(c, PumpExit(g)) == Some(SetCallback(c, g, Wanting))
    ensures Callback(c, g) == Some(Wanting) ==>
              Step(c, CallbackEnter(g)) == Some(SetCallback(Lock(c, ByCallback(g)), g, Updating))
    ensures Callback(c, g) == Some(Firing) ==> Step(c, CallbackFire(g)) == Some(SetCallback(c, g, Fired))
    ensures Callback(c, g) != Some(Updating)
  {
  }

  lemma CallbackLeaves(c: Conn, g: nat)
    requires g < |c.transports| && Callback(c, g) == Some(Updating) && c.outbox.None?
    ensures Step(c, CallbackLeave(g)) == Some(SetCallback(c.(mu := None), g, Firing))
  {
  }

  lemma FiringReturns(c: Conn, t: nat)
    requires Waits(c, t) && c.teardowns[t].cur.Some? && Callback(c, c.teardowns[t].cur.value) == Some(Firing)
    ensures CanReturn(c, t)
  {
    var g := c.teardowns[t].cur.value;
    CallbackShutDown(c, g);
    StepKeepsSound(c, CallbackFire(g));
    LoopEndsThenReturns(Step(c, CallbackFire(g)).value, t);
    StepThenReturn(c, t, CallbackFire(g));
  }

  lemma WantingReturns(c: Conn, t: nat)
    requires Waits(c, t) && c.teardowns[t].cur.Some? && Callback(c, c.teardowns[t].cur.value) == Some(Wanting)
    ensures CanReturn(c, t)
  {
    var g := c.teardowns[t].cur.value;
    CallbackShutDown(c, g);
    StepKeepsSound(c, CallbackEnter(g));
    var c1 := Step(c, CallbackEnter(g)).value;
    CallbackLeaves(c1, g);
    StepKeepsSound(c1, CallbackLeave(g));
    FiringReturns(Step(c1, CallbackLeave(g)).value, t);
    StepThenReturn(c1, t, CallbackLeave(g));
    StepThenReturn(c, t, CallbackEnter(g));
  }

  lemma WaitingReturns(c: Conn, t: nat)
    requires Waits(c, t)
    ensures CanReturn(c, t)
  {
    if TakenEnded(c, t) {
      LoopEndsThenReturns(c, t);
    } else {
      var g := c.teardowns[t].cur.value;
      CallbackShutDown(c, g);
      match c.transports[g].callback
      case Pumping =>
        StepKeepsSound(c, PumpExit(g));
        WantingReturns(Step(c, PumpExit(g)).value, t);
        StepThenReturn(c, t, PumpExit(g));
      case Wanting => WantingReturns(c, t);
      case Firing => FiringReturns(c, t);
    }
  }

  // ---- Getting to the wait -------------------------------------------------------------------

  lemma ReleaseWindsDown(c: Conn)
    ensures forall a <- ReleaseRun(c) :: WindsDown(a)
  {
    assert forall a <- SendRun(c) :: WindsDown(a);
    assert forall a <- LeaveRun(c) :: WindsDown(a);
  }

  lemma ClosingReturns(c: Conn, t: nat)
    requires Sound(c) && c.mu.None? && t in c.teardowns && c.teardowns[t].Closing?
    ensures CanReturn(c, t)
  {
    StepKeepsSound(c, TeardownClose(t));
    WaitingReturns(Step(c, TeardownClose(t)).value, t);
    StepThenReturn(c, t, TeardownClose(t));
  }

  /** Its own section of ac.mu ends by the send, then by leaving. */
  lemma LeavingReturns(c: Conn, t: nat)
    requires Sound(c) && t in c.teardowns && c.mu == Some(ByTeardown(t)) && c.outbox.None?
    ensures CanReturn(c, t)
  {
    StepKeepsSound(c, TeardownLeave(t));
    ClosingReturns(Step(c, TeardownLeave(t)).value, t);
    StepThenReturn(c, t, TeardownLeave(t));
  }

  lemma ShuttingDownReturns(c: Conn, t: nat)
    requires Sound(c) && t in c.teardowns && c.mu == Some(ByTeardown(t))
    ensures CanReturn(c, t)
  {
    SendCompletes(c);
    var c1 := Exec(Step, c, SendRun(c)).value;
    RunKeepsSound(c, t, SendRun(c), c1);
    LeavingReturns(c1, t);
    assert forall a <- SendRun(c) :: WindsDown(a);
    RunThenReturn(c, t, SendRun(c), c1);
  }

  lemma EnteringReturns(c: Conn, t: nat)
    requires Sound(c) && c.mu.None? && t in c.teardowns && c.teardowns[t].Entering?
    ensures CanReturn(c, t)
  {
    var c1 := Step(c, TeardownEnter(t)).value;
    StepKeepsSound(c, TeardownEnter(t));
    if c.state == Shutdown { ReturnedReturns(c1, t); } else { ShuttingDownReturns(c1, t); }
    StepThenReturn(c, t, TeardownEnter(t));
  }

  lemma FreeReturns(c: Conn, t: nat)
    requires Sound(c) && c.mu.None? && t in c.teardowns
    ensures CanReturn(c, t)
  {
    match c.teardowns[t]
    case Entering => EnteringReturns(c, t);
    case Closing(_) => ClosingReturns(c, t);
    case Joining(_) => WaitingReturns(c, t);
    case Returned => ReturnedReturns(c, t);
  }

  /** Every teardown can return, from every reachable state: the lock comes free, the loop sees the
      shutdown wherever it is, and the callback of the closed transport runs to its end, without new
      calls or cancellations. */
  lemma TeardownCanReturn(run: seq<Action>, c: Conn, t: nat)
    requires Exec(Step, INIT, run) == Some(c) && t in c.teardowns
    ensures CanReturn(c, t)
  {
    ReachedSound(run, c);
    MuReleasedFrom(c);
    ReleaseWindsDown(c);
    var c1 := Exec(Step, c, ReleaseRun(c)).value;
    RunKeepsSound(c, t, ReleaseRun(c), c1);
    FreeReturns(c1, t);
    RunThenReturn(c, t, ReleaseRun(c), c1);
  }

  /** And a new one can be called at any time and will be able to return as well. */
  lemma NewTeardownCanReturn(run: seq<Action>, c: Conn, t: nat)
    requires Exec(Step, INIT, run) == Some(c) && t !in c.teardowns
    ensures Step(c, TeardownCall(t)).Some? && CanReturn(Step(c, TeardownCall(t)).value, t)
  {
    var c' := Step(c, TeardownCall(t)).value;
    ExecSnoc(Step, INIT, run, c, TeardownCall(t));
    TeardownCanReturn(run + [TeardownCall(t)], c', t);
  }
}
