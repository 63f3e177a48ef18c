/** The promises of the client connection, for every run of the machine. */
module AddrConnTheorems {
  import opened Runs
  import opened Subsequences
  import opened Connectivity
  import opened AddrConn
  import opened AddrConnSafety

  // ---- Safety over whole runs ----------------------------------------------------------------

  /** At most one transport is ever live: a new one is made only after the callback of every
      earlier one has run to its end. */
  lemma OneLiveTransport(run: seq<Action>, c: Conn, g: nat, h: nat)
    requires Exec(Step, INIT, run) == Some(c)
    requires g < h < |c.transports|
    ensures c.transports[g].callback == Fired
  {
    Reached(run, c);
  }

  /** A callback changes the state only from Ready to Idle, and only for its own transport, the
      newest one: a stale callback never touches a newer connection. */
  lemma CallbackActsOnOwnTransport(run: seq<Action>, c: Conn, g: nat)
    requires Exec(Step, INIT, run) == Some(c)
    requires CallbackStep(c, CallbackEnter(g)).Some?
    ensures var c' := CallbackStep(c, CallbackEnter(g)).value;
            c'.state == c.state
            || (c.state == Ready && c'.state == Idle && c.transport == Some(g) && g + 1 == |c.transports|)
  {
    Reached(run, c);
  }

  /** State and transport agree in every reachable state: Ready comes with a transport, a transport
      only with Ready or Idle, and it is always the newest one made. */
  lemma StateMatchesTransport(run: seq<Action>, c: Conn)
    requires Exec(Step, INIT, run) == Some(c)
    ensures c.state == Ready ==> c.transport.Some?
    ensures c.transport.Some? ==> (c.state == Ready || c.state == Idle) && c.transport.value + 1 == |c.transports|
    ensures c.state == Shutdown ==> c.transport.None? && c.acDone
  {
    Reached(run, c);
  }

  /** Shutdown is absorbing, and nothing is attached after it. */
  lemma ShutdownIsFinal(run: seq<Action>, c: Conn, more: seq<Action>)
    requires Exec(Step, INIT, run) == Some(c)
    ensures c.state == Shutdown && Exec(Step, c, more).Some? ==>
              var c' := Exec(Step, c, more).value; c'.state == Shutdown && c'.transport.None?
  {
    Reached(run, c);
    if c.state == Shutdown && Exec(Step, c, more).Some? {
      var down := (d: Conn) => Inv(d) && d.state == Shutdown;
      forall d, a | down(d) && Step(d, a).Some? ensures down(Step(d, a).value) {
        StepKeeps(d, a);
        StepKeepsShutdown(d, a);
      }
      Invariance(Step, down, c, more);
    }
  }

  lemma TeardownKeepsShutdown(c: Conn, a: Action)
    requires c.state == Shutdown && TeardownStep(c, a).Some?
    ensures TeardownStep(c, a).value.state == Shutdown
  {
  }

  lemma DialKeepsShutdown(c: Conn, a: Action)
    requires c.state == Shutdown && DialStep(c, a).Some?
    ensures DialStep(c, a).value.state == Shutdown
  {
  }

  lemma StepKeepsShutdown(c: Conn, a: Action)
    requires c.state == Shutdown && Step(c, a).Some?
    ensures Step(c, a).value.state == Shutdown
  {
    if PublishStep(c, a).Some? { PublishShape(c, a); }
    else if TeardownStep(c, a).Some? { TeardownKeepsShutdown(c, a); }
    else if CallbackStep(c, a).Some? { CallbackShape(c, a); }
    else if DialStep(c, a).Some? { DialKeepsShutdown(c, a); }
    else if LoopTakesMu(a) { LoopTakesShape(c, a); }
    else { LoopOthersKeepLine(c, a); }
  }

  /** However many teardowns run, each transport is closed once at most; a transport's Close closes
      a channel and would panic the second time. */
  lemma ClosedAtMostOnce(run: seq<Action>, c: Conn, g: nat)
    requires Exec(Step, INIT, run) == Some(c) && g < |c.transports|
    ensures c.transports[g].closes <= 1
    ensures c.transports[g].closes == 1 ==> c.state == Shutdown
  {
    Reached(run, c);
  }

  /** Publication refines the connection. Until cancellation the connection's states are what the
      manager published, then at most one state held by the listener, then at most one being sent;
      after it the manager's states are still a subsequence, without equal neighbours. */
  lemma PublicationRefines(run: seq<Action>, c: Conn)
    requires Exec(Step, INIT, run) == Some(c)
    ensures !c.acDone ==> c.states == c.published + Held(c) + Sending(c)
    ensures IsSub(c.published, c.states) && NoEqualNeighbours(c.published)
    ensures c.states != [] && c.published != []
    ensures c.states[|c.states| - 1] == c.state && c.published[|c.published| - 1] == c.mgr.state
  {
    Reached(run, c);
    if Sending(c) != [] {
      assert c.published + Held(c) + Sending(c) == c.published + Held(c) + Sending(c) + [];
      SubRemove(c.published + Held(c), c.outbox.value, [], c.states);
      assert c.published + Held(c) + [] == c.published + Held(c);
    } else {
      assert c.published + Held(c) + Sending(c) == c.published + Held(c);
    }
    if Held(c) != [] {
      assert c.published + Held(c) == c.published + Held(c) + [];
      SubRemove(c.published, c.listener.s, [], c.states);
      assert c.published + [] == c.published;
    } else {
      assert c.published + Held(c) == c.published;
    }
  }

  // ---- Nothing gets stuck --------------------------------------------------------------------

  /** How a blocked send completes: by the context, or by a listener that at most has to finish
      the update it is in. None of these steps takes ac.mu. */
  function SendRun(c: Conn): seq<Action> {
    if c.outbox.None? then []
    else if c.acDone then [Drop]
    else if c.listener.Applying? then [ListenerApply, Deliver]
    else [Deliver]
  }

  /** How the holder of ac.mu, with nothing left to send, leaves its section. */
  function LeaveRun(c: Conn): seq<Action> {
    match c.mu
    case None => []
    case Some(ByDial) => [DialLeave]
    case Some(ByLoop) =>
      if c.loop.Resetting? then [LoopDialled(false)]
      else if c.loop.MarkingFailed? then [LoopFailLeave]
      else [LoopAttachLeave]
    case Some(ByCallback(g)) => [CallbackLeave(g)]
    case Some(ByTeardown(t)) => [TeardownLeave(t)]
  }

  /** The transports once the present holder of ac.mu has left. */
  function AfterRelease(c: Conn): seq<Transport> {
    if c.mu.Some? && c.mu.value.ByCallback? && c.mu.value.g < |c.transports|
    then SetCallback(c, c.mu.value.g, Firing).transports
    else c.transports
  }

  /** Where the loop is once the present holder of ac.mu has left; a dial under way fails. */
  function LoopAfter(c: Conn): LoopPc {
    match c.loop
    case Resetting => Failed
    case MarkingFailed => Backoff
    case Attaching(g) => Awaiting(g)
    case _ => c.loop
  }

  function DialAfter(c: Conn): DialPc {
    if c.dial.Marking? then Spawning else c.dial
  }

  /** The effect of the present holder's leaving on the facts that matter later. */
  ghost predicate Released(c: Conn, c': Conn) {
    && Inv(c') && c'.mu.None? && c'.outbox.None? && c'.acDone == c.acDone
    && c'.loop == LoopAfter(c) && c'.dial == DialAfter(c) && c'.transports == AfterRelease(c)
  }

  lemma ExecOne(c: Conn, a: Action)
    ensures Exec(Step, c, [a]) == Step(c, a)
  {
    assert [a] == [] + [a];
    ExecSnoc(Step, c, [], c, a);
  }

  /** Who holds ac.mu, and where the loop and the transports are, is untouched by a send. */
  ghost predicate SameHolder(c: Conn, c': Conn) {
    c'.mu == c.mu && c'.loop == c.loop && c'.dial == c.dial && c'.transports == c.transports && c'.acDone == c.acDone
  }

  lemma DeliverFrees(c: Conn)
    requires c.outbox.Some? && c.listener.Receiving?
    ensures Step(c, Deliver).Some?
    ensures var c' := Step(c, Deliver).value; c'.outbox.None? && SameHolder(c, c')
  {
  }

  lemma ApplyFrees(c: Conn)
    requires c.listener.Applying?
    ensures Step(c, ListenerApply).Some?
    ensures var c' := Step(c, ListenerApply).value; c'.listener.Receiving? && c'.outbox == c.outbox && SameHolder(c, c')
  {
  }

  lemma DropFrees(c: Conn)
    requires c.outbox.Some? && c.acDone
    ensures Step(c, Drop).Some?
    ensures var c' := Step(c, Drop).value; c'.outbox.None? && SameHolder(c, c')
  {
  }

  lemma ApplyThenDeliver(c: Conn)
    requires Inv(c) && c.outbox.Some? && c.listener.Applying?
    ensures Exec(Step, c, [ListenerApply, Deliver]).Some?
    ensures var c' := Exec(Step, c, [ListenerApply, Deliver]).value; Inv(c') && c'.outbox.None? && SameHolder(c, c')
  {
    ApplyFrees(c);
    StepKeeps(c, ListenerApply);
    var c1 := Step(c, ListenerApply).value;
    DeliverFrees(c1);
    StepKeeps(c1, Deliver);
    ExecOne(c, ListenerApply);
    ExecOne(c1, Deliver);
    ExecAppend(Step, c, [ListenerApply], [Deliver]);
    assert [ListenerApply, Deliver] == [ListenerApply] + [Deliver];
  }

  lemma SendCompletes(c: Conn)
    requires Inv(c)
    ensures Exec(Step, c, SendRun(c)).Some?
    ensures var c' := Exec(Step, c, SendRun(c)).value; Inv(c') && c'.outbox.None? && SameHolder(c, c')
  {
    if c.outbox.Some? {
      if c.acDone {
        DropFrees(c);
        StepKeeps(c, Drop);
        ExecOne(c, Drop);
      } else if c.listener.Applying? {
        ApplyThenDeliver(c);
      } else {
        DeliverFrees(c);
        StepKeeps(c, Deliver);
        ExecOne(c, Deliver);
      }
    }
  }

  lemma HolderCanLeave(c: Conn)
    requires Locking(c) && c.outbox.None? && c.mu.Some?
    ensures Step(c, LeaveRun(c)[0]).Some?
    ensures var c' := Step(c, LeaveRun(c)[0]).value;
            && c'.mu.None? && c'.outbox.None? && c'.acDone == c.acDone
            && c'.loop == LoopAfter(c) && c'.dial == DialAfter(c) && c'.transports == AfterRelease(c)
  {
    match c.mu.value
    case ByDial =>
    case ByLoop =>
    case ByCallback(g) =>
    case ByTeardown(t) =>
  }

  lemma HolderLeaves(c: Conn)
    requires Inv(c) && c.outbox.None?
    ensures Exec(Step, c, LeaveRun(c)).Some? && Released(c, Exec(Step, c, LeaveRun(c)).value)
  {
    if c.mu.Some? {
      HolderCanLeave(c);
      StepKeeps(c, LeaveRun(c)[0]);
      ExecOne(c, LeaveRun(c)[0]);
    }
  }

  function ReleaseRun(c: Conn): seq<Action> {
    SendRun(c) + LeaveRun(c)
  }

  /** Leaving has the same effect after a send as without it. */
  lemma ReleasedAfterSend(c: Conn, c1: Conn, c': Conn)
    requires SameHolder(c, c1) && Released(c1, c')
    ensures Released(c, c') && LeaveRun(c1) == LeaveRun(c)
  {
  }

  lemma MuReleasedFrom(c: Conn)
    requires Inv(c)
    ensures Exec(Step, c, ReleaseRun(c)).Some? && Released(c, Exec(Step, c, ReleaseRun(c)).value)
  {
    SendCompletes(c);
    var c1 := Exec(Step, c, SendRun(c)).value;
    HolderLeaves(c1);
    ReleasedAfterSend(c, c1, Exec(Step, c1, LeaveRun(c1)).value);
    ExecAppend(Step, c, SendRun(c), LeaveRun(c));
  }

  lemma ReleaseSteps(c: Conn)
    ensures |ReleaseRun(c)| <= 3
    ensures forall a <- ReleaseRun(c) :: a == Deliver || a == Drop || a == ListenerApply || a in LeaveRun(c)
  {
  }

  /** Publishing under ac.mu never deadlocks. From every reachable state the lock becomes free by
      the listener and its present holder alone, in three steps at most: the listener stops only on
      the parent context, and then the sender's own context is done too. */
  lemma PublishingNeverDeadlocks(run: seq<Action>, c: Conn)
    requires Exec(Step, INIT, run) == Some(c)
    ensures Exec(Step, c, ReleaseRun(c)).Some? && Exec(Step, c, ReleaseRun(c)).value.mu.None?
    ensures |ReleaseRun(c)| <= 3
    ensures forall a <- ReleaseRun(c) :: a == Deliver || a == Drop || a == ListenerApply || a in LeaveRun(c)
  {
    Reached(run, c);
    MuReleasedFrom(c);
    ReleaseSteps(c);
  }

  function Distance(c: Conn): nat {
    if !c.loop.Awaiting? then 0
    else match Callback(c, c.loop.g)
      case Some(Firing) => 1
      case Some(Updating) => 2
      case Some(Wanting) => if c.mu.None? then 3 else 4
      case _ => 0
  }

  /** The loop waits for a transport whose write pump has ended. */
  ghost predicate AwaitsDead(c: Conn) {
    Inv(c) && c.loop.Awaiting? && Callback(c, c.loop.g).Some? && Callback(c, c.loop.g) != Some(Pumping)
  }

  /** Some steps keep the loop waiting, and bring it nearer. */
  ghost predicate Nearer(c: Conn, c': Conn) {
    AwaitsDead(c') && Distance(c') < Distance(c) && c'.acDone == c.acDone
  }

  lemma ReleasedIsNearer(c: Conn, c': Conn)
    requires AwaitsDead(c) && c.mu.Some? && Released(c, c')
    requires Callback(c, c.loop.g) == Some(Updating) || Callback(c, c.loop.g) == Some(Wanting)
    ensures Nearer(c, c')
  {
  }

  lemma ReleaseIsNearer(c: Conn)
    requires AwaitsDead(c) && c.mu.Some?
    requires Callback(c, c.loop.g) == Some(Updating) || Callback(c, c.loop.g) == Some(Wanting)
    ensures Exec(Step, c, ReleaseRun(c)).Some?
    ensures var c' := Exec(Step, c, ReleaseRun(c)).value; Nearer(c, c')
  {
    MuReleasedFrom(c);
    ReleasedIsNearer(c, Exec(Step, c, ReleaseRun(c)).value);
  }

  /** What the callback's own steps do to the loop and to itself. */
  lemma CallbackEffect(c: Conn, a: Action)
    requires (a.CallbackEnter? || a.CallbackFire?) && CallbackStep(c, a).Some?
    ensures Step(c, a) == CallbackStep(c, a)
    ensures var c' := Step(c, a).value;
            && c'.loop == c.loop && c'.acDone == c.acDone
            && Callback(c', a.g) == Some(if a.CallbackEnter? then Updating else Fired)
  {
  }

  lemma EnteringIsNearer(c: Conn)
    requires AwaitsDead(c) && c.mu.None? && Callback(c, c.loop.g) == Some(Wanting)
    ensures Step(c, CallbackEnter(c.loop.g)).Some? && Nearer(c, Step(c, CallbackEnter(c.loop.g)).value)
  {
    CallbackEffect(c, CallbackEnter(c.loop.g));
    StepKeeps(c, CallbackEnter(c.loop.g));
  }

  lemma FiringIsNearer(c: Conn)
    requires AwaitsDead(c) && Callback(c, c.loop.g) == Some(Firing)
    ensures Step(c, CallbackFire(c.loop.g)).Some? && Nearer(c, Step(c, CallbackFire(c.loop.g)).value)
  {
    CallbackEffect(c, CallbackFire(c.loop.g));
    StepKeeps(c, CallbackFire(c.loop.g));
  }

  /** Steps that carry on with what is under way: nothing is called, cancelled, dialled or lost. */
  predicate CarriesOn(a: Action) {
    a.Deliver? || a.Drop? || a.ListenerApply? || a.LoopReconnect?
    || a.CallbackEnter? || a.CallbackLeave? || a.CallbackFire? || a.TeardownLeave? || a.DialLeave?
  }

  lemma ReleaseCarriesOn(c: Conn)
    requires Locking(c) && c.loop.Awaiting?
    ensures forall a <- ReleaseRun(c) :: CarriesOn(a)
  {
  }

  lemma NearerInOne(c: Conn, a: Action) returns (run: seq<Action>)
    requires Step(c, a).Some? && Nearer(c, Step(c, a).value) && CarriesOn(a)
    ensures Exec(Step, c, run).Some? && Nearer(c, Exec(Step, c, run).value)
    ensures forall b <- run :: CarriesOn(b)
  {
    ExecOne(c, a);
    run := [a];
  }

  /** The next few steps by which a waiting loop comes nearer to dialling again. */
  lemma ComesNearer(c: Conn) returns (run: seq<Action>)
    requires AwaitsDead(c) && Callback(c, c.loop.g) != Some(Fired)
    ensures Exec(Step, c, run).Some? && Nearer(c, Exec(Step, c, run).value)
    ensures forall a <- run :: CarriesOn(a)
  {
    if Callback(c, c.loop.g) == Some(Firing) {
      FiringIsNearer(c);
      run := NearerInOne(c, CallbackFire(c.loop.g));
    } else if Callback(c, c.loop.g) == Some(Wanting) && c.mu.None? {
      EnteringIsNearer(c);
      run := NearerInOne(c, CallbackEnter(c.loop.g));
    } else {
      ReleaseIsNearer(c);
      ReleaseCarriesOn(c);
      run := ReleaseRun(c);
    }
  }

  lemma {:induction false} ReconnectRun(c: Conn) returns (more: seq<Action>)
    requires AwaitsDead(c)
    ensures forall a <- more :: CarriesOn(a)
    ensures Exec(Step, c, more).Some?
    ensures var c' := Exec(Step, c, more).value; c'.loop == Top && Inv(c') && c'.acDone == c.acDone
    decreases Distance(c)
  {
    if Callback(c, c.loop.g) == Some(Fired) {
      ExecOne(c, LoopReconnect);
      StepKeeps(c, LoopReconnect);
      more := [LoopReconnect];
    } else {
      var first := ComesNearer(c);
      var rest := ReconnectRun(Exec(Step, c, first).value);
      ExecAppend(Step, c, first, rest);
      more := first + rest;
    }
  }

  /** The loop can get back to dialling by carrying on. */
  ghost predicate CanRedial(c: Conn) {
    exists more ::
      && Exec(Step, c, more).Some? && Exec(Step, c, more).value.loop == Top
      && forall a <- more :: CarriesOn(a)
  }

  lemma WaitingCanRedial(c: Conn)
    requires AwaitsDead(c)
    ensures CanRedial(c)
  {
    var more := ReconnectRun(c);
  }

  /** The loop is never stranded on a dead transport, also when the write pump ended before Ready
      was set and so found nothing to move to Idle: its reconnect event has fired or can still
      fire, and the loop gets back to dialling with no new call, cancellation or loss. */
  lemma LoopNeverStranded(run: seq<Action>, c: Conn)
    requires Exec(Step, INIT, run) == Some(c)
    ensures c.loop.Awaiting? && Callback(c, c.loop.g) != Some(Pumping) ==> CanRedial(c)
  {
    Reached(run, c);
    if c.loop.Awaiting? && Callback(c, c.loop.g) != Some(Pumping) {
      WaitingCanRedial(c);
    }
  }
}
