/** Stop can always complete: from every reachable state, once the connections have ended. */
module ShutdownCompletes {
  import opened Runs
  import opened Credentials
  import opened Shutdown

  // ---- Every promised transport has its handler ----------------------------------------------

  predicate InSection(pc: HandlerPc) {
    pc.Opening? || pc.Registering?
  }

  ghost predicate Promises(s: Server) {
    forall n :: 0 <= n < |s.transports| && s.transports[n].pc == Promised ==>
      exists h <- s.handlers :: s.handlers[h].pc == Opening(n)
  }

  lemma HandlerPromises(s: Server, a: Action)
    requires Promises(s) && HandlerStep(s, a).Some?
    ensures Promises(HandlerStep(s, a).value)
  {
    var s' := HandlerStep(s, a).value;
    forall n | 0 <= n < |s'.transports| && s'.transports[n].pc == Promised
      ensures exists h <- s'.handlers :: s'.handlers[h].pc == Opening(n)
    {
      if n < |s.transports| {
        var h :| h in s.handlers && s.handlers[h].pc == Opening(n);
        assert h in s'.handlers && s'.handlers[h].pc == Opening(n);
      } else {
        assert s'.handlers[a.h].pc == Opening(n);
      }
    }
  }

  lemma OthersPromise(s: Server, a: Action)
    requires Promises(s) && HandlerStep(s, a).None? && Step(s, a).Some?
    ensures Promises(Step(s, a).value)
  {
    var s' := Step(s, a).value;
    assert s'.handlers == s.handlers && |s'.transports| == |s.transports|;
    forall n | 0 <= n < |s'.transports| && s'.transports[n].pc == Promised
      ensures exists h <- s'.handlers :: s'.handlers[h].pc == Opening(n)
    {
      assert s.transports[n].pc == Promised;
    }
  }

  ghost predicate Sound(s: Server) {
    Inv(s) && Promises(s)
  }

  lemma StepKeepsSound(s: Server, a: Action)
    requires Sound(s) && Step(s, a).Some?
    ensures Sound(Step(s, a).value)
  {
    StepKeeps(s, a);
    if HandlerStep(s, a).Some? { HandlerPromises(s, a); } else { OthersPromise(s, a); }
  }

  lemma ReachedSound(run: seq<Action>, s: Server)
    requires Exec(Step, INIT, run) == Some(s)
    ensures Sound(s)
  {
    forall t, a | Sound(t) && Step(t, a).Some? ensures Sound(Step(t, a).value) {
      StepKeepsSound(t, a);
    }
    Invariance(Step, Sound, INIT, run);
  }

  // ---- Backwards from the end ----------------------------------------------------------------

  /** No new connections, updates or calls of Stop. */
  predicate Concludes(a: Action) {
    a.Make? || a.Register? || a.EnterCallback? || a.LeaveCallback? || a.Clear? || a.CloseAll? || a.Wait? || a.FireDone?
  }

  ghost predicate CanComplete(s: Server) {
    exists more: seq<Action> ::
      && (forall a <- more :: Concludes(a))
      && Exec(Step, s, more).Some? && Exec(Step, s, more).value.stop.DoneFired?
  }

  lemma StepThenComplete(s: Server, a: Action)
    requires Concludes(a) && Step(s, a).Some? && CanComplete(Step(s, a).value)
    ensures CanComplete(s)
  {
    var s1 := Step(s, a).value;
    var more: seq<Action> :|
      && (forall b <- more :: Concludes(b))
      && Exec(Step, s1, more).Some? && Exec(Step, s1, more).value.stop.DoneFired?;
    ExecCons(Step, s, a, more);
  }

  /** How many steps Stop itself has left. */
  function StepsOfStop(stop: StopPc): nat {
    match stop
    case NotCalled => 5
    case QuitFired => 4
    case Cleared => 3
    case Closed => 2
    case Waited => 1
    case DoneFired => 0
  }

  function StopStep(stop: StopPc): Action {
    match stop
    case NotCalled => FireQuit
    case QuitFired => Clear
    case Cleared => CloseAll
    case Closed => Wait
    case _ => FireDone
  }

  /** Nobody is in a section of s.mu, and every transport has finished. */
  ghost predicate Quiet(s: Server) {
    && Sound(s) && !s.stop.NotCalled? && s.wg == 0
    && (forall h <- s.handlers :: !InSection(s.handlers[h].pc))
    && (forall n :: 0 <= n < |s.transports| ==> s.transports[n].pc.Finished?)
  }

  lemma QuietStep(s: Server)
    requires Quiet(s) && !s.stop.DoneFired?
    ensures Concludes(StopStep(s.stop)) && Step(s, StopStep(s.stop)).Some?
    ensures var s' := Step(s, StopStep(s.stop)).value;
            && StepsOfStop(s'.stop) < StepsOfStop(s.stop) && !s'.stop.NotCalled? && s'.wg == s.wg
            && s'.handlers == s.handlers && |s'.transports| == |s.transports|
            && forall n :: 0 <= n < |s.transports| ==> s'.transports[n].pc == s.transports[n].pc
  {
  }

  lemma {:induction false} QuietCompletes(s: Server)
    requires Quiet(s)
    ensures CanComplete(s)
    decreases StepsOfStop(s.stop)
  {
    if s.stop.DoneFired? {
      assert Exec(Step, s, []) == Some(s);
    } else {
      QuietStep(s);
      StepKeepsSound(s, StopStep(s.stop));
      QuietCompletes(Step(s, StopStep(s.stop)).value);
      StepThenComplete(s, StopStep(s.stop));
    }
  }

  /** Nobody is in a section for a new transport. */
  ghost predicate NoSections(s: Server) {
    Sound(s) && !s.stop.NotCalled? && forall h <- s.handlers :: !InSection(s.handlers[h].pc)
  }

  lemma CallbackKeepsHandlers(s: Server, a: Action)
    requires NoSections(s) && CallbackStep(s, a).Some?
    ensures NoSections(Step(s, a).value)
  {
    StepKeepsSound(s, a);
  }

  lemma NoPromises(s: Server, n: nat)
    requires NoSections(s) && n < |s.transports|
    ensures s.transports[n].pc != Promised
  {
  }

  lemma CallbackCounts(s: Server, n: nat)
    requires Inv(s) && n < |s.transports| && s.transports[n].pc.InCallback?
    ensures Step(s, LeaveCallback(n)).Some?
    ensures Unfinished(Step(s, LeaveCallback(n)).value.transports) == Unfinished(s.transports) - 1
  {
    UnfinishedUpdate(s.transports, n, s.transports[n].(pc := Finished));
  }

  lemma EnteredCounts(s: Server, n: nat)
    requires Inv(s) && n < |s.transports| && s.transports[n].pc.Pumping?
    ensures Step(s, EnterCallback(n)).Some?
    ensures var s' := Step(s, EnterCallback(n)).value;
            && Unfinished(s'.transports) == Unfinished(s.transports)
            && n < |s'.transports| && s'.transports[n].pc.InCallback?
  {
    UnfinishedUpdate(s.transports, n, s.transports[n].(pc := InCallback));
  }

  lemma {:induction false} TransportsComplete(s: Server)
    requires NoSections(s)
    ensures CanComplete(s)
    decreases Unfinished(s.transports), 1
  {
    if n :| 0 <= n < |s.transports| && !s.transports[n].pc.Finished? {
      NoPromises(s, n);
      if s.transports[n].pc.Pumping? {
        EnteredCounts(s, n);
        CallbackKeepsHandlers(s, EnterCallback(n));
        CallbackCompletes(Step(s, EnterCallback(n)).value, n);
        StepThenComplete(s, EnterCallback(n));
      } else {
        CallbackCompletes(s, n);
      }
    } else {
      AllFinished(s.transports);
      QuietCompletes(s);
    }
  }

  lemma {:induction false} CallbackCompletes(s: Server, n: nat)
    requires NoSections(s) && n < |s.transports| && s.transports[n].pc.InCallback?
    ensures CanComplete(s)
    decreases Unfinished(s.transports), 0
  {
    CallbackCounts(s, n);
    CallbackKeepsHandlers(s, LeaveCallback(n));
    TransportsComplete(Step(s, LeaveCallback(n)).value);
    StepThenComplete(s, LeaveCallback(n));
  }

  // ---- Leaving the sections ------------------------------------------------------------------

  ghost function Sections(s: Server): set<nat> {
    set h | h in s.handlers && InSection(s.handlers[h].pc)
  }

  /** A section can always be left: the manager is still there. */
  lemma RegisterLeaves(s: Server, h: nat)
    requires Inv(s) && h in s.handlers && s.handlers[h].pc.Registering?
    ensures Step(s, Register(h)).Some?
    ensures var s' := Step(s, Register(h)).value; Sections(s') == Sections(s) - {h} && s'.stop == s.stop
  {
  }

  lemma MakeStays(s: Server, h: nat)
    requires Inv(s) && h in s.handlers && s.handlers[h].pc.Opening?
    ensures Step(s, Make(h)).Some?
    ensures var s' := Step(s, Make(h)).value;
            Sections(s') == Sections(s) && s'.stop == s.stop && h in s'.handlers && s'.handlers[h].pc.Registering?
  {
  }

  lemma {:induction false} SectionsComplete(s: Server)
    requires Sound(s) && !s.stop.NotCalled?
    ensures CanComplete(s)
    decreases |Sections(s)|, 1
  {
    if h :| h in Sections(s) {
      if s.handlers[h].pc.Opening? {
        MakeStays(s, h);
        StepKeepsSound(s, Make(h));
        RegisteringCompletes(Step(s, Make(h)).value, h);
        StepThenComplete(s, Make(h));
      } else {
        RegisteringCompletes(s, h);
      }
    } else {
      assert forall h <- s.handlers :: InSection(s.handlers[h].pc) ==> h in Sections(s);
      TransportsComplete(s);
    }
  }

  lemma {:induction false} RegisteringCompletes(s: Server, h: nat)
    requires Sound(s) && !s.stop.NotCalled? && h in s.handlers && s.handlers[h].pc.Registering?
    ensures CanComplete(s)
    decreases |Sections(s)|, 0
  {
    RegisterLeaves(s, h);
    StepKeepsSound(s, Register(h));
    SectionsComplete(Step(s, Register(h)).value);
    StepThenComplete(s, Register(h));
  }

  /** Stop can complete from every reachable state: handlers inside their sections get out of them,
      the transports' callbacks run once their connections have ended, and Stop's own steps follow,
      without any new connection, update or call. */
  lemma StopCanComplete(run: seq<Action>, s: Server)
    requires Exec(Step, INIT, run) == Some(s) && !s.stop.NotCalled?
    ensures CanComplete(s)
  {
    ReachedSound(run, s);
    SectionsComplete(s);
  }

  // ---- UpdatePublicKeys ----------------------------------------------------------------------

  /** Steps of those who are inside a section of s.mu. */
  predicate LeavesSection(a: Action) {
    a.Make? || a.Register? || a.LeaveCallback?
  }

  /** The update can take its turn once the present sections are over, and leaves no other key. */
  ghost predicate CanUpdate(s: Server, kept: set<Key>) {
    exists more: seq<Action> ::
      (forall a <- more :: LeavesSection(a)) && Exec(Step, s, more).Some? && Updates(Exec(Step, s, more).value, kept)
  }

  ghost predicate Updates(s: Server, kept: set<Key>) {
    Step(s, UpdateKeys(kept)).Some? && Step(s, UpdateKeys(kept)).value.conns.Keys == s.conns.Keys * kept
  }

  lemma StepThenUpdate(s: Server, a: Action, kept: set<Key>)
    requires LeavesSection(a) && Step(s, a).Some? && CanUpdate(Step(s, a).value, kept)
    ensures CanUpdate(s, kept)
  {
    var s1 := Step(s, a).value;
    var more: seq<Action> :|
      (forall b <- more :: LeavesSection(b)) && Exec(Step, s1, more).Some? && Updates(Exec(Step, s1, more).value, kept);
    ExecCons(Step, s, a, more);
  }

  lemma {:induction false} CallbacksLeave(s: Server, kept: set<Key>)
    requires Inv(s) && s.managed && forall h <- s.handlers :: !InSection(s.handlers[h].pc)
    ensures CanUpdate(s, kept)
    decreases Unfinished(s.transports)
  {
    if n :| 0 <= n < |s.transports| && s.transports[n].pc.InCallback? {
      CallbackCounts(s, n);
      StepKeeps(s, LeaveCallback(n));
      CallbacksLeave(Step(s, LeaveCallback(n)).value, kept);
      StepThenUpdate(s, LeaveCallback(n), kept);
    } else {
      assert Updates(s, kept);
      assert Exec(Step, s, []) == Some(s);
    }
  }

  lemma RegistersThenUpdates(s: Server, h: nat, kept: set<Key>)
    requires Inv(s) && s.managed && h in s.handlers && s.handlers[h].pc.Registering?
    ensures CanUpdate(s, kept)
    decreases |Sections(s)|, 0
  {
    RegisterLeaves(s, h);
    StepKeeps(s, Register(h));
    SectionsLeave(Step(s, Register(h)).value, kept);
    StepThenUpdate(s, Register(h), kept);
  }

  lemma SectionsLeave(s: Server, kept: set<Key>)
    requires Inv(s) && s.managed
    ensures CanUpdate(s, kept)
    decreases |Sections(s)|, 1
  {
    if h :| h in Sections(s) {
      if s.handlers[h].pc.Opening? {
        MakeStays(s, h);
        StepKeeps(s, Make(h));
        RegistersThenUpdates(Step(s, Make(h)).value, h, kept);
        StepThenUpdate(s, Make(h), kept);
      } else {
        RegistersThenUpdates(s, h, kept);
      }
    } else {
      assert forall h <- s.handlers :: InSection(s.handlers[h].pc) ==> h in Sections(s);
      CallbacksLeave(s, kept);
    }
  }

  /** UpdatePublicKeys never waits for good: from every reachable state before Stop has cleared the
      manager it can take its turn after those who are inside a section of s.mu have left it, and
      then only connections with kept keys are left in the table. */
  lemma UpdateCanComplete(run: seq<Action>, s: Server, kept: set<Key>)
    requires Exec(Step, INIT, run) == Some(s) && s.managed
    ensures CanUpdate(s, kept)
  {
    Reached(run, s);
    SectionsLeave(s, kept);
  }
}
