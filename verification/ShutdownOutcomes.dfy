/** How handlers, transports and Stop end: which connections are refused, what a handler's locked section
    keeps out, and that Stop can complete. */
module ShutdownOutcomes {
  import opened Runs
  import opened Credentials
  import opened Shutdown

  // ---- Refused connections -------------------------------------------------------------------

  /** The key is connected before, between and after all steps of the run. */
  ghost predicate StaysConnected(s: Server, run: seq<Action>, key: Key)
    decreases |run|
  {
    && key in s.conns
    && (run != [] && Step(s, run[0]).Some? ==> StaysConnected(Step(s, run[0]).value, run[1..], key))
  }

  /** A handler that has not got past the check for another connection, and one that never will. */
  predicate IsOutsideTheDoor(pc: HandlerPc) {
    pc.Arrived? || pc.Unquit? || pc.Ended?
  }

  lemma DoorStep(s: Server, a: Action, h: nat)
    requires h in s.handlers && IsOutsideTheDoor(s.handlers[h].pc) && s.handlers[h].key in s.conns
    requires Step(s, a).Some?
    ensures var s' := Step(s, a).value;
            h in s'.handlers && s'.handlers[h].key == s.handlers[h].key && IsOutsideTheDoor(s'.handlers[h].pc)
  {
  }

  /** One connection per key, as far as the code has it: while a key is connected, no further handler
      for it gets past the check, in any run. */
  lemma {:induction false} SecondConnectionIsRefused(s: Server, h: nat, more: seq<Action>, s': Server)
    requires h in s.handlers && IsOutsideTheDoor(s.handlers[h].pc)
    requires StaysConnected(s, more, s.handlers[h].key) && Exec(Step, s, more) == Some(s')
    ensures h in s'.handlers && IsOutsideTheDoor(s'.handlers[h].pc)
    decreases |more|
  {
    if more != [] {
      DoorStep(s, more[0], h);
      SecondConnectionIsRefused(Step(s, more[0]).value, h, more[1..], s');
    }
  }

  ghost predicate TooLate(s: Server, h: nat) {
    !s.stop.NotCalled? && (h in s.handlers ==> s.handlers[h].pc.Arrived? || s.handlers[h].pc.Ended?)
  }

  lemma LateStep(s: Server, a: Action, h: nat)
    requires TooLate(s, h) && Step(s, a).Some?
    ensures TooLate(Step(s, a).value, h)
  {
  }

  /** Once quit has fired no handler that has not passed its first check gets any further: in every
      continuation it has only arrived, or has ended. */
  lemma NobodyEntersAfterQuit(s: Server, h: nat, more: seq<Action>, s': Server)
    requires !s.stop.NotCalled? && (h in s.handlers ==> s.handlers[h].pc.Arrived?)
    requires Exec(Step, s, more) == Some(s')
    ensures h in s'.handlers ==> s'.handlers[h].pc.Arrived? || s'.handlers[h].pc.Ended?
  {
    var inv := (u: Server) => TooLate(u, h);
    forall u, a | inv(u) && Step(u, a).Some? ensures inv(Step(u, a).value) {
      LateStep(u, a, h);
    }
    Invariance(Step, inv, s, more);
  }

  ghost predicate TooLateForTable(s: Server, h: nat) {
    !s.managed && (h in s.handlers ==> IsOutsideTheDoor(s.handlers[h].pc))
  }

  lemma LateForTableStep(s: Server, a: Action, h: nat)
    requires TooLateForTable(s, h) && Step(s, a).Some?
    ensures TooLateForTable(Step(s, a).value, h)
  {
  }

  /** Once Stop has cleared the manager none gets past the second check either, also if it had seen
      quit unfired. */
  lemma NobodyPassesAfterClear(s: Server, h: nat, more: seq<Action>, s': Server)
    requires !s.managed && (h in s.handlers ==> IsOutsideTheDoor(s.handlers[h].pc))
    requires Exec(Step, s, more) == Some(s')
    ensures h in s'.handlers ==> IsOutsideTheDoor(s'.handlers[h].pc)
  {
    var inv := (u: Server) => TooLateForTable(u, h);
    forall u, a | inv(u) && Step(u, a).Some? ensures inv(Step(u, a).value) {
      LateForTableStep(u, a, h);
    }
    Invariance(Step, inv, s, more);
  }

  ghost predicate FailedEnded(h: nat, done: seq<Action>, s: Server) {
    Upgrade(h, false) in done ==> h in s.handlers && s.handlers[h].pc.Ended?
  }

  lemma FailedEndedStep(h: nat, done: seq<Action>, s: Server, a: Action)
    requires FailedEnded(h, done, s) && Step(s, a).Some?
    ensures FailedEnded(h, done + [a], Step(s, a).value)
  {
  }

  /** A handler whose upgrade failed has ended, and a transport is never made for it. */
  lemma FailedUpgradeEnds(run: seq<Action>, s: Server, h: nat)
    requires Exec(Step, INIT, run) == Some(s) && Upgrade(h, false) in run
    ensures h in s.handlers && s.handlers[h].pc.Ended?
  {
    var inv := (done: seq<Action>, u: Server) => FailedEnded(h, done, u);
    forall done, u, a | inv(done, u) && Step(u, a).Some? ensures inv(done + [a], Step(u, a).value) {
      FailedEndedStep(h, done, u, a);
    }
    InvarianceWithRun(Step, inv, INIT, run);
  }

  // ---- Serving -------------------------------------------------------------------------------

  ghost predicate ServesOrDone(s: Server, h: nat, n: nat) {
    && h in s.handlers
    && (s.handlers[h].pc == Serving(n) || (s.handlers[h].pc.Ended? && (HasFinished(s, n) || !s.stop.NotCalled?)))
  }

  lemma ServesStep(s: Server, a: Action, h: nat, n: nat)
    requires ServesOrDone(s, h, n) && Step(s, a).Some?
    ensures ServesOrDone(Step(s, a).value, h, n)
  {
  }

  /** A handler serves until its own transport has finished or the server is stopped. */
  lemma ServesUntilDone(s: Server, h: nat, n: nat, more: seq<Action>, s': Server)
    requires h in s.handlers && s.handlers[h].pc == Serving(n) && Exec(Step, s, more) == Some(s')
    ensures h in s'.handlers && (s'.handlers[h].pc == Serving(n) || s'.handlers[h].pc.Ended?)
    ensures s'.handlers[h].pc.Ended? ==>
              (n < |s'.transports| && s'.transports[n].pc.Finished?) || !s'.stop.NotCalled?
    ensures s'.handlers[h].pc == Serving(n)
            && ((n < |s'.transports| && s'.transports[n].pc.Finished?) || !s'.stop.NotCalled?) ==>
              Step(s', EndServing(h)).Some? && Step(s', EndServing(h)).value.handlers[h].pc.Ended?
  {
    var inv := (u: Server) => ServesOrDone(u, h, n);
    forall u, a | inv(u) && Step(u, a).Some? ensures inv(Step(u, a).value) {
      ServesStep(u, a, h, n);
    }
    Invariance(Step, inv, s, more);
  }

  // ---- After Stop was called -----------------------------------------------------------------

  /** The handler's own next step towards its end. */
  function LastStep(h: nat, pc: HandlerPc): Action {
    match pc
    case Arrived => CheckQuit(h)
    case Unquit => CheckSingle(h)
    case Upgrading => Upgrade(h, false)
    case Upgraded => Add(h)
    case Opening(_) => Make(h)
    case Registering(_) => Register(h)
    case _ => EndServing(h)
  }

  function StepsLeft(pc: HandlerPc): nat {
    match pc
    case Arrived => 7
    case Unquit => 6
    case Upgrading => 5
    case Upgraded => 4
    case Opening(_) => 3
    case Registering(_) => 2
    case Serving(_) => 1
    case Ended => 0
  }

  ghost predicate CanEnd(s: Server, h: nat) {
    exists more: seq<Action> ::
      && (forall a <- more :: exists pc :: a == LastStep(h, pc)) && Exec(Step, s, more).Some?
      && h in Exec(Step, s, more).value.handlers && Exec(Step, s, more).value.handlers[h].pc.Ended?
  }

  lemma StepThenEnd(s: Server, h: nat, pc: HandlerPc)
    requires Step(s, LastStep(h, pc)).Some? && CanEnd(Step(s, LastStep(h, pc)).value, h)
    ensures CanEnd(s, h)
  {
    var a, s1 := LastStep(h, pc), Step(s, LastStep(h, pc)).value;
    var more: seq<Action> :|
      && (forall b <- more :: exists p :: b == LastStep(h, p)) && Exec(Step, s1, more).Some?
      && h in Exec(Step, s1, more).value.handlers && Exec(Step, s1, more).value.handlers[h].pc.Ended?;
    ExecCons(Step, s, a, more);
  }

  lemma LastStepNearer(s: Server, h: nat)
    requires Inv(s) && !s.stop.NotCalled? && h in s.handlers && !s.handlers[h].pc.Ended?
    ensures Step(s, LastStep(h, s.handlers[h].pc)).Some?
    ensures var s' := Step(s, LastStep(h, s.handlers[h].pc)).value;
            s'.stop == s.stop && h in s'.handlers && StepsLeft(s'.handlers[h].pc) < StepsLeft(s.handlers[h].pc)
  {
  }

  lemma {:induction false} HandlerEnds(s: Server, h: nat)
    requires Inv(s) && !s.stop.NotCalled? && h in s.handlers
    ensures CanEnd(s, h)
    decreases if h in s.handlers then StepsLeft(s.handlers[h].pc) else 0
  {
    if s.handlers[h].pc.Ended? {
      assert Exec(Step, s, []) == Some(s);
    } else {
      var a := LastStep(h, s.handlers[h].pc);
      LastStepNearer(s, h);
      StepKeeps(s, a);
      HandlerEnds(Step(s, a).value, h);
      StepThenEnd(s, h, s.handlers[h].pc);
    }
  }

  /** Once Stop has been called every handler can end, from every reachable state, and by its own steps
      alone. */
  lemma HandlersCanEnd(run: seq<Action>, s: Server, h: nat)
    requires Exec(Step, INIT, run) == Some(s) && !s.stop.NotCalled? && h in s.handlers
    ensures CanEnd(s, h)
  {
    Reached(run, s);
    HandlerEnds(s, h);
  }

  predicate IsStops(a: Action) {
    a.FireQuit? || a.Clear? || a.CloseAll? || a.Wait? || a.FireDone?
  }

  /** The steps of Stop in a run, in order. */
  function StopSteps(run: seq<Action>): seq<Action> {
    if run == [] then []
    else
      var before := StopSteps(run[..|run| - 1]);
      if IsStops(run[|run| - 1]) then before + [run[|run| - 1]] else before
  }

  function StopSoFar(stop: StopPc): seq<Action> {
    match stop
    case NotCalled => []
    case QuitFired => [FireQuit]
    case Cleared => [FireQuit, Clear]
    case Closed => [FireQuit, Clear, CloseAll]
    case Waited => [FireQuit, Clear, CloseAll, Wait]
    case DoneFired => [FireQuit, Clear, CloseAll, Wait, FireDone]
  }

  ghost predicate InOrder(done: seq<Action>, s: Server) {
    StopSteps(done) == StopSoFar(s.stop)
  }

  lemma StopsNext(s: Server, a: Action)
    requires Step(s, a).Some?
    ensures StopSoFar(Step(s, a).value.stop) == if IsStops(a) then StopSoFar(s.stop) + [a] else StopSoFar(s.stop)
  {
  }

  lemma InOrderStep(done: seq<Action>, s: Server, a: Action)
    requires InOrder(done, s) && Step(s, a).Some?
    ensures InOrder(done + [a], Step(s, a).value)
  {
    assert (done + [a])[..|done|] == done;
    StopsNext(s, a);
  }

  /** Stop does its five things in their order and once each, whatever runs beside it: quit fires before
      the manager is cleared, that is closed after, and done fires last. */
  lemma StopKeepsOrder(run: seq<Action>, s: Server)
    requires Exec(Step, INIT, run) == Some(s)
    ensures StopSteps(run) <= [FireQuit, Clear, CloseAll, Wait, FireDone]
    ensures s.stop.DoneFired? <==> FireDone in StopSteps(run)
    ensures s.managed <==> Clear !in StopSteps(run)
  {
    forall done, u, a | InOrder(done, u) && Step(u, a).Some? ensures InOrder(done + [a], Step(u, a).value) {
      InOrderStep(done, u, a);
    }
    InvarianceWithRun(Step, InOrder, INIT, run);
    Reached(run, s);
  }

  // ---- The locked section --------------------------------------------------------------------

  predicate IsInside(pc: HandlerPc, n: nat) {
    pc == Opening(n) || pc == Registering(n)
  }

  /** The handler is still inside its section, and nothing was cleared or closed since; or it is past. */
  ghost predicate SectionHeld(s: Server, h: nat, n: nat, s': Server) {
    && h in s'.handlers
    && (|| s'.handlers[h].pc.Serving? || s'.handlers[h].pc.Ended?
        || (IsInside(s'.handlers[h].pc, n) && s'.managed && |s.transports| <= |s'.transports|
            && forall m :: 0 <= m < |s.transports| ==> s'.transports[m].closed == s.transports[m].closed))
  }

  lemma HandlerSectionStep(s: Server, h: nat, n: nat, u: Server, a: Action)
    requires SectionHeld(s, h, n, u) && HandlerStep(u, a).Some?
    ensures SectionHeld(s, h, n, HandlerStep(u, a).value)
  {
  }

  lemma OtherSectionStep(s: Server, h: nat, n: nat, u: Server, a: Action)
    requires Inv(u) && SectionHeld(s, h, n, u) && HandlerStep(u, a).None? && Step(u, a).Some?
    ensures SectionHeld(s, h, n, Step(u, a).value)
  {
  }

  /** While a handler is between counting its transport and having registered it, the manager is not
      cleared and no transport is closed by Stop or UpdatePublicKeys: both wait for s.mu. */
  lemma SectionKeepsWritersOut(run: seq<Action>, s: Server, h: nat, n: nat, more: seq<Action>, s': Server)
    requires Exec(Step, INIT, run) == Some(s) && Exec(Step, s, more) == Some(s')
    requires h in s.handlers && IsInside(s.handlers[h].pc, n)
    ensures h in s'.handlers
    ensures IsInside(s'.handlers[h].pc, n) ==>
              && s'.managed && |s.transports| <= |s'.transports|
              && forall m :: 0 <= m < |s.transports| ==> s'.transports[m].closed == s.transports[m].closed
  {
    Reached(run, s);
    var inv := (u: Server) => Inv(u) && SectionHeld(s, h, n, u);
    forall u, a | inv(u) && Step(u, a).Some? ensures inv(Step(u, a).value) {
      StepKeeps(u, a);
      if HandlerStep(u, a).Some? { HandlerSectionStep(s, h, n, u, a); } else { OtherSectionStep(s, h, n, u, a); }
    }
    Invariance(Step, inv, s, more);
  }

  /** The transport is still in its callback, and the table was neither cleared nor cleaned up; or its
      callback is over. */
  ghost predicate CallbackHeld(s: Server, n: nat, s': Server) {
    && |s.transports| <= |s'.transports| && n < |s.transports|
    && (|| s'.transports[n].pc.Finished?
        || (s'.transports[n].pc.InCallback? && s'.managed == s.managed
            && (s.managed ==>
                  forall m :: 0 <= m < |s.transports| ==> s'.transports[m].closed == s.transports[m].closed)))
  }

  lemma CallbackHeldStep(s: Server, n: nat, u: Server, a: Action)
    requires Inv(u) && CallbackHeld(s, n, u) && Step(u, a).Some?
    ensures CallbackHeld(s, n, Step(u, a).value)
  {
  }

  /** The same holds while a transport's callback is inside its section. */
  lemma CallbackKeepsWritersOut(run: seq<Action>, s: Server, n: nat, more: seq<Action>, s': Server)
    requires Exec(Step, INIT, run) == Some(s) && Exec(Step, s, more) == Some(s')
    requires n < |s.transports| && s.transports[n].pc.InCallback?
    ensures |s.transports| <= |s'.transports|
    ensures s'.transports[n].pc.InCallback? ==>
              && s'.managed == s.managed
              && (s.managed ==>
                    forall m :: 0 <= m < |s.transports| ==> s'.transports[m].closed == s.transports[m].closed)
  {
    Reached(run, s);
    var inv := (u: Server) => Inv(u) && CallbackHeld(s, n, u);
    forall u, a | inv(u) && Step(u, a).Some? ensures inv(Step(u, a).value) {
      StepKeeps(u, a);
      CallbackHeldStep(s, n, u, a);
    }
    Invariance(Step, inv, s, more);
  }
}
