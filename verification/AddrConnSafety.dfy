/** What every run of the client connection machine keeps. */
module AddrConnSafety {
  import opened Runs
  import opened Subsequences
  import opened Connectivity
  import opened AddrConn

  // ---- Invariants ----------------------------------------------------------------------------

  /** ac.mu excludes: its owner is the one process inside a critical section. */
  ghost predicate Locking(c: Conn) {
    && (c.mu == Some(ByDial) <==> c.dial == Marking)
    && (c.mu == Some(ByLoop) <==> c.loop.Resetting? || c.loop.MarkingFailed? || c.loop.Attaching?)
    && (forall g: nat :: c.mu == Some(ByCallback(g)) ==> g < |c.transports|)
    && (forall g :: 0 <= g < |c.transports| ==> (c.transports[g].callback == Updating <==> c.mu == Some(ByCallback(g))))
    && (forall t: nat :: c.mu == Some(ByTeardown(t)) ==> t in c.teardowns)
    && (forall t <- c.teardowns :: c.teardowns[t].ShuttingDown? <==> c.mu == Some(ByTeardown(t)))
    && (c.outbox.Some? ==> c.mu.Some?)
  }

  /** Only the newest transport can be live, and none is once the loop is past waiting for it. */
  ghost predicate Generations(c: Conn) {
    var n := |c.transports|;
    && (forall g :: 0 <= g < n - 1 ==> c.transports[g].callback == Fired)
    && (c.loop.Created? || c.loop.Attaching? || c.loop.Awaiting? ==> c.loop.g + 1 == n)
    && (c.loop.Top? || c.loop.Resetting? || c.loop.Failed? || c.loop.MarkingFailed? || c.loop.Backoff? ==>
          n > 0 ==> c.transports[n - 1].callback == Fired)
    && (c.loop.NotStarted? ==> n == 0)
    && (!c.dial.Finished? ==> c.loop.NotStarted?)
  }

  /** The callback of g has not had its turn at ac.mu yet. */
  ghost predicate NotEntered(c: Conn, g: nat) {
    Callback(c, g) == Some(Pumping) || Callback(c, g) == Some(Wanting)
  }

  /** The state, the transport field and the loop's position belong together. */
  ghost predicate Coupling(c: Conn) {
    && (c.transport.Some? ==>
          && c.transport.value + 1 == |c.transports|
          && (c.state == Ready || c.state == Idle)
          && (c.loop.Attaching? || c.loop.Awaiting? || c.loop.Top? || c.loop.Exited?))
    && (c.state == Ready ==> c.transport.Some?)
    && (c.state == Shutdown || c.loop.Exited? ==> c.acDone)
    && (c.dial.Finished? && c.loop.NotStarted? ==> c.acDone)
    && (c.state == Shutdown
        || match c.loop
           case NotStarted => c.state == if c.dial.Calling? then Idle else Connecting
           case Resetting | Failed | Created(_) => c.state == Connecting
           case MarkingFailed | Backoff => c.state == TransientFailure
           case Attaching(_) => c.state == Ready
           case Awaiting(g) => c.transport.Some? && (NotEntered(c, g) ==> c.state == Ready)
           case Top | Exited => true)
  }

  ghost predicate Past(pc: TeardownPc) {
    pc.ShuttingDown? || pc.Closing? || pc.Joining?
  }

  ghost predicate Unclosed(transports: seq<Transport>) {
    forall g :: 0 <= g < |transports| ==> transports[g].closes == 0
  }

  ghost predicate ClosedOnceAtMost(transports: seq<Transport>) {
    forall g :: 0 <= g < |transports| ==> transports[g].closes <= 1
  }

  /** One teardown at most gets past the Shutdown check, and it closes what it took once. */
  ghost predicate Teardowns(c: Conn) {
    && (c.state != Shutdown ==> Unclosed(c.transports) && forall t <- c.teardowns :: c.teardowns[t] == Entering)
    && (forall t, u :: t in c.teardowns && u in c.teardowns && Past(c.teardowns[t]) && Past(c.teardowns[u]) ==> t == u)
    && ClosedOnceAtMost(c.transports)
    && (forall t <- c.teardowns :: c.teardowns[t].ShuttingDown? || c.teardowns[t].Closing? ==> Unclosed(c.transports))
  }

  function Held(c: Conn): seq<State> {
    if c.listener.Applying? then [c.listener.s] else []
  }

  function Sending(c: Conn): seq<State> {
    if c.outbox.Some? then [c.outbox.value] else []
  }

  /** Where the connection's states are: published, held by the listener, or being sent. */
  ghost predicate Publication(c: Conn) {
    && |c.states| > 0 && c.states[|c.states| - 1] == c.state && NoEqualNeighbours(c.states)
    && |c.published| > 0 && c.published[|c.published| - 1] == c.mgr.state && NoEqualNeighbours(c.published)
    && (!c.acDone ==> c.states == c.published + Held(c) + Sending(c))
    && IsSub(c.published + Held(c) + Sending(c), c.states)
    && (c.ccDone ==> c.acDone)
    && (c.listener.Stopped? ==> c.ccDone)
  }

  ghost predicate Inv(c: Conn) {
    Locking(c) && Generations(c) && Coupling(c) && Teardowns(c) && Publication(c)
  }

  // ---- Every step keeps them -----------------------------------------------------------------

  /** What a step that is not a teardown's does to the facts about teardowns: transports may be
      added, but none is closed, and Shutdown is not left. */
  ghost predicate SameTeardowns(c: Conn, c': Conn) {
    && c'.teardowns == c.teardowns
    && (c.state == Shutdown ==> c'.state == Shutdown)
    && |c'.transports| >= |c.transports|
    && (forall g :: 0 <= g < |c'.transports| ==>
          c'.transports[g].closes == if g < |c.transports| then c.transports[g].closes else 0)
  }

  /** The steps of the other processes leave the line of published, held and sent states alone, or
      set a new state, which joins its end. */
  ghost predicate SameLine(c: Conn, c': Conn) {
    && c'.listener == c.listener && c'.mgr == c.mgr && c'.published == c.published
    && c'.ccDone == c.ccDone && (c.acDone ==> c'.acDone)
    && (|| (c'.state == c.state && c'.states == c.states && c'.outbox == c.outbox)
        || (c'.state != c.state && c'.states == c.states + [c'.state] && c.outbox.None? && c'.outbox == Some(c'.state)))
  }

  lemma SameTeardownsKeeps(c: Conn, c': Conn)
    requires Teardowns(c) && SameTeardowns(c, c') && (c'.state == Shutdown ==> c.state == Shutdown)
    ensures Teardowns(c')
  {
  }

  lemma DialKeeps(c: Conn, a: Action)
    requires Locking(c) && Generations(c) && Coupling(c) && DialStep(c, a).Some?
    ensures var c' := DialStep(c, a).value; Locking(c') && Generations(c') && Coupling(c') && SameTeardowns(c, c')
  {
  }

  lemma LoopDialledLocking(c: Conn, a: Action)
    requires Locking(c) && a.LoopDialled? && LoopStep(c, a).Some?
    ensures Locking(LoopStep(c, a).value)
  {
  }

  /** The loop's three ways into a critical section of ac.mu. */
  predicate LoopTakesMu(a: Action) {
    a.LoopEnter? || a.LoopFailEnter? || a.LoopAttach?
  }

  /** Taking ac.mu sets a new state, or finds Shutdown and ends the loop. */
  ghost predicate LoopTook(c: Conn, a: Action, c': Conn) {
    && c.mu.None? && c'.acDone == c.acDone && c'.ccDone == c.ccDone
    && c'.dial == c.dial && c'.transports == c.transports && c'.teardowns == c.teardowns
    && c'.listener == c.listener && c'.mgr == c.mgr && c'.published == c.published
    && (if c.state == Shutdown then
          c'.loop == Exited && c'.mu == c.mu && c'.transport == c.transport
          && c'.state == c.state && c'.states == c.states && c'.outbox == c.outbox
        else
          c'.mu == Some(ByLoop) && c'.state == StateTaken(a) && c'.loop == LoopInside(c, a)
          && (if a.LoopEnter? then c'.transport == None
              else if a.LoopAttach? then c.loop.Created? && c'.transport == Some(c.loop.g)
              else c'.transport == c.transport)
          && (if c.state == c'.state then c'.states == c.states && c'.outbox == c.outbox
              else c'.states == c.states + [c'.state] && c'.outbox == Some(c'.state)))
  }

  function StateTaken(a: Action): State {
    if a.LoopEnter? then Connecting else if a.LoopFailEnter? then TransientFailure else Ready
  }

  function LoopInside(c: Conn, a: Action): LoopPc {
    if a.LoopEnter? then Resetting
    else if a.LoopFailEnter? then MarkingFailed
    else if c.loop.Created? then Attaching(c.loop.g) else c.loop
  }

  predicate LoopReady(c: Conn, a: Action) {
    if a.LoopEnter? then c.loop.Top? else if a.LoopFailEnter? then c.loop.Failed? else c.loop.Created?
  }

  lemma LoopTakesShape(c: Conn, a: Action)
    requires LoopTakesMu(a) && LoopStep(c, a).Some?
    ensures LoopReady(c, a) && LoopTook(c, a, LoopStep(c, a).value)
  {
  }

  lemma LoopTakesKeeps(c: Conn, a: Action, c': Conn)
    requires LoopTakesMu(a) && LoopReady(c, a) && LoopTook(c, a, c')
    requires Locking(c) && Generations(c) && Coupling(c)
    ensures Locking(c') && Generations(c') && Coupling(c') && SameTeardowns(c, c') && SameLine(c, c')
  {
  }

  /** The other steps of the loop leave the states alone, and no transport but a new one comes in. */
  lemma LoopOthersLocking(c: Conn, a: Action)
    requires Locking(c) && !LoopTakesMu(a) && !a.LoopDialled? && LoopStep(c, a).Some?
    ensures Locking(LoopStep(c, a).value)
  {
    var c' := LoopStep(c, a).value;
    assert c'.transports == c.transports && c'.teardowns == c.teardowns && c'.dial == c.dial;
  }

  lemma LoopOthersGenerations(c: Conn, a: Action)
    requires Generations(c) && !LoopTakesMu(a) && LoopStep(c, a).Some?
    ensures Generations(LoopStep(c, a).value)
  {
  }

  lemma LoopOthersCoupling(c: Conn, a: Action)
    requires Generations(c) && Coupling(c) && !LoopTakesMu(a) && LoopStep(c, a).Some?
    ensures Coupling(LoopStep(c, a).value)
  {
  }

  lemma LoopOthersKeepLine(c: Conn, a: Action)
    requires !LoopTakesMu(a) && LoopStep(c, a).Some?
    ensures SameTeardowns(c, LoopStep(c, a).value) && SameLine(c, LoopStep(c, a).value)
  {
  }

  lemma LoopKeeps(c: Conn, a: Action)
    requires Locking(c) && Generations(c) && Coupling(c) && LoopStep(c, a).Some?
    ensures var c' := LoopStep(c, a).value;
            Locking(c') && Generations(c') && Coupling(c') && SameTeardowns(c, c') && SameLine(c, c')
  {
    if LoopTakesMu(a) {
      LoopTakesShape(c, a);
      LoopTakesKeeps(c, a, LoopStep(c, a).value);
    } else {
      if a.LoopDialled? { LoopDialledLocking(c, a); } else { LoopOthersLocking(c, a); }
      LoopOthersGenerations(c, a);
      LoopOthersCoupling(c, a);
      LoopOthersKeepLine(c, a);
    }
  }

  lemma CallbackLocking(c: Conn, a: Action)
    requires Locking(c) && CallbackStep(c, a).Some?
    ensures Locking(CallbackStep(c, a).value) && SameTeardowns(c, CallbackStep(c, a).value)
  {
  }

  /** A callback moves its own transport along; entering, it may take the state from Ready to Idle. */
  ghost predicate CalledBack(c: Conn, g: nat, c': Conn) {
    && g < |c.transports| == |c'.transports| && c.transports[g].callback != Fired
    && c'.transports == c.transports[g := c.transports[g].(callback := c'.transports[g].callback)]
    && c'.loop == c.loop && c'.dial == c.dial && c'.transport == c.transport && c'.acDone == c.acDone
    && (NotEntered(c', g) ==> NotEntered(c, g))
    && (if NotEntered(c, g) && !NotEntered(c', g) && c.state == Ready
        then c.mu.None? && c'.state == Idle && c'.states == c.states + [Idle] && c'.outbox == Some(Idle)
        else c'.state == c.state && c'.states == c.states)
  }

  lemma CallbackShape(c: Conn, a: Action)
    requires CallbackStep(c, a).Some?
    ensures a.PumpExit? || a.CallbackEnter? || a.CallbackLeave? || a.CallbackFire?
    ensures CalledBack(c, a.g, CallbackStep(c, a).value)
  {
  }

  lemma CallbackGenerations(c: Conn, a: Action)
    requires Generations(c) && CallbackStep(c, a).Some?
    ensures Generations(CallbackStep(c, a).value)
  {
    CallbackShape(c, a);
  }

  lemma CallbackCoupling(c: Conn, a: Action)
    requires Locking(c) && Generations(c) && Coupling(c) && CallbackStep(c, a).Some?
    ensures Coupling(CallbackStep(c, a).value)
  {
    CallbackShape(c, a);
  }

  lemma TeardownLocking(c: Conn, a: Action)
    requires Locking(c) && TeardownStep(c, a).Some?
    ensures Locking(TeardownStep(c, a).value)
  {
  }

  lemma TeardownCoupling(c: Conn, a: Action)
    requires Coupling(c) && TeardownStep(c, a).Some?
    ensures Coupling(TeardownStep(c, a).value)
  {
  }

  lemma TeardownGenerations(c: Conn, a: Action)
    requires Generations(c) && TeardownStep(c, a).Some?
    ensures Generations(TeardownStep(c, a).value)
  {
  }

  lemma TeardownTeardowns(c: Conn, a: Action)
    requires Teardowns(c) && TeardownStep(c, a).Some?
    ensures Teardowns(TeardownStep(c, a).value)
  {
  }

  /** Publishing, and cancelling, touch neither the processes, nor the lock, nor the state. */
  ghost predicate SameStructure(c: Conn, c': Conn) {
    && c'.mu == c.mu && c'.state == c.state && c'.states == c.states && c'.transport == c.transport
    && c'.dial == c.dial && c'.loop == c.loop && c'.transports == c.transports && c'.teardowns == c.teardowns
    && (c.acDone ==> c'.acDone) && (c'.outbox.Some? ==> c.outbox.Some?)
  }

  lemma PublishShape(c: Conn, a: Action)
    requires PublishStep(c, a).Some?
    ensures SameStructure(c, PublishStep(c, a).value)
  {
  }

  lemma PublishKeepsStructure(c: Conn, c': Conn)
    requires Locking(c) && Generations(c) && Coupling(c) && SameStructure(c, c')
    ensures Locking(c') && Generations(c') && Coupling(c') && SameTeardowns(c, c')
  {
  }

  /** Only a teardown shuts the connection down. */
  lemma OnlyTeardownShutsDown(c: Conn, a: Action)
    requires TeardownStep(c, a).None? && Step(c, a).Some?
    ensures Step(c, a).value.state == Shutdown ==> c.state == Shutdown
  {
  }

  lemma SameLineKeepsPublication(c: Conn, c': Conn)
    requires Publication(c) && SameLine(c, c')
    ensures Publication(c')
  {
    if c'.states != c.states {
      var line := c.published + Held(c);
      assert line + Sending(c) == line;
      SubExtendBoth(line, c.states, c'.state);
      assert line + [c'.state] == c'.published + Held(c') + Sending(c');
    }
  }

  lemma DialKeepsLine(c: Conn, a: Action)
    requires (c.outbox.Some? ==> c.mu.Some?) && DialStep(c, a).Some?
    ensures SameLine(c, DialStep(c, a).value)
  {
  }

  lemma CallbackKeepsLine(c: Conn, a: Action)
    requires (c.outbox.Some? ==> c.mu.Some?) && CallbackStep(c, a).Some?
    ensures SameLine(c, CallbackStep(c, a).value)
  {
  }

  lemma TeardownKeepsLine(c: Conn, a: Action)
    requires (c.outbox.Some? ==> c.mu.Some?) && TeardownStep(c, a).Some?
    ensures SameLine(c, TeardownStep(c, a).value)
  {
  }

  lemma DropKeeps(c: Conn)
    requires Publication(c) && c.acDone && c.outbox.Some?
    ensures Publication(c.(outbox := None))
  {
    var c' := c.(outbox := None);
    var line := c.published + Held(c);
    assert line + Sending(c) == line + [c.outbox.value] + [];
    SubRemove(line, c.outbox.value, [], c.states);
    assert line + [] == c'.published + Held(c') + Sending(c');
  }

  /** Until cancellation nothing is lost, so what the listener holds is news to the manager. */
  lemma HeldIsNews(c: Conn)
    requires Publication(c) && !c.acDone && c.listener.Applying?
    ensures c.listener.s != c.mgr.state
  {
    var n := |c.published|;
    assert c.states[n] == c.listener.s && c.states[n - 1] == c.published[n - 1];
  }

  lemma ApplyPublishes(c: Conn)
    requires Publication(c) && c.listener.Applying? && c.mgr.state != c.listener.s
    ensures Publication(Applied(c))
  {
    var c' := Applied(c);
    assert c'.published + Held(c') + Sending(c') == c.published + Held(c) + Sending(c);
  }

  lemma ApplySkips(c: Conn)
    requires Publication(c) && c.listener.Applying? && c.mgr.state == c.listener.s
    ensures Publication(Applied(c))
  {
    var c' := Applied(c);
    SubRemove(c.published, c.listener.s, Sending(c), c.states);
    assert c'.published + Held(c') + Sending(c') == c.published + Sending(c);
    if !c.acDone {
      HeldIsNews(c);
    }
  }

  /** After the listener has finished its update. */
  function Applied(c: Conn): Conn
    requires c.listener.Applying?
  {
    c.(listener := Receiving, mgr := c.mgr.Update(c.listener.s),
       published := if c.mgr.state == c.listener.s then c.published else c.published + [c.listener.s])
  }

  lemma ApplyShape(c: Conn)
    requires c.listener.Applying?
    ensures PublishStep(c, ListenerApply) == Some(Applied(c))
  {
  }

  lemma DeliverShape(c: Conn)
    requires PublishStep(c, Deliver).Some?
    ensures c.outbox.Some? && c.listener.Receiving?
    ensures PublishStep(c, Deliver) == Some(c.(outbox := None, listener := Applying(c.outbox.value)))
  {
  }

  lemma DeliverKeeps(c: Conn)
    requires Publication(c) && c.outbox.Some? && c.listener.Receiving?
    ensures Publication(c.(outbox := None, listener := Applying(c.outbox.value)))
  {
    var c' := c.(outbox := None, listener := Applying(c.outbox.value));
    assert c'.published + Held(c') + Sending(c') == c.published + Held(c) + Sending(c);
  }

  lemma CancelKeeps(c: Conn, a: Action)
    requires Publication(c) && (a.ListenerStop? || a.CancelConn? || a.CancelParent?) && PublishStep(c, a).Some?
    ensures Publication(PublishStep(c, a).value)
  {
    var c' := PublishStep(c, a).value;
    assert Held(c') == Held(c) && Sending(c') == Sending(c) && c'.published == c.published && c'.states == c.states;
  }

  lemma PublishKeepsPublication(c: Conn, a: Action)
    requires Publication(c) && PublishStep(c, a).Some?
    ensures Publication(PublishStep(c, a).value)
  {
    match a
    case Drop => DropKeeps(c);
    case ListenerApply =>
      ApplyShape(c);
      if c.mgr.state == c.listener.s { ApplySkips(c); } else { ApplyPublishes(c); }
    case Deliver =>
      DeliverShape(c);
      DeliverKeeps(c);
    case ListenerStop | CancelConn | CancelParent => CancelKeeps(c, a);
  }

  lemma TeardownKeeps(c: Conn, a: Action)
    requires Inv(c) && TeardownStep(c, a).Some?
    ensures Inv(TeardownStep(c, a).value)
  {
    TeardownLocking(c, a); TeardownCoupling(c, a); TeardownGenerations(c, a); TeardownTeardowns(c, a);
    TeardownKeepsLine(c, a);
    SameLineKeepsPublication(c, TeardownStep(c, a).value);
  }

  lemma PublishKeeps(c: Conn, a: Action)
    requires Inv(c) && PublishStep(c, a).Some?
    ensures Inv(PublishStep(c, a).value)
  {
    PublishShape(c, a);
    PublishKeepsStructure(c, PublishStep(c, a).value);
    PublishKeepsPublication(c, a);
    SameTeardownsKeeps(c, PublishStep(c, a).value);
  }

  lemma StepKeeps(c: Conn, a: Action)
    requires Inv(c) && Step(c, a).Some?
    ensures Inv(Step(c, a).value)
  {
    if TeardownStep(c, a).Some? {
      TeardownKeeps(c, a);
    } else if PublishStep(c, a).Some? {
      PublishKeeps(c, a);
    } else {
      var c' := Step(c, a).value;
      OnlyTeardownShutsDown(c, a);
      if DialStep(c, a).Some? {
        DialKeeps(c, a); DialKeepsLine(c, a);
      } else if CallbackStep(c, a).Some? {
        CallbackLocking(c, a); CallbackGenerations(c, a); CallbackCoupling(c, a); CallbackKeepsLine(c, a);
      } else {
        LoopKeeps(c, a);
      }
      SameLineKeepsPublication(c, c');
      SameTeardownsKeeps(c, c');
    }
  }

  lemma Reached(run: seq<Action>, c: Conn)
    requires Exec(Step, INIT, run) == Some(c)
    ensures Inv(c)
  {
    SubSelf([Idle]);
    assert INIT.published + Held(INIT) + Sending(INIT) == [Idle];
    assert Inv(INIT);
    forall t, a | Inv(t) && Step(t, a).Some? ensures Inv(Step(t, a).value) {
      StepKeeps(t, a);
    }
    Invariance(Step, Inv, INIT, run);
  }
}
