/** The client connection is never wedged: until it is cancelled it can always become Ready again. */
module AddrConnRecovery {
  import opened Runs
  import opened Connectivity
  import opened AddrConn
  import opened AddrConnSafety
  import opened AddrConnTheorems

  /** Some steps lead from c to c', keeping the invariant, without a cancellation, a new teardown or
      a lost connection. */
  ghost predicate Leads(c: Conn, more: seq<Action>, c': Conn) {
    Inv(c') && Exec(Step, c, more) == Some(c') && forall a <- more :: Harmless(a)
  }

  predicate Harmless(a: Action) {
    !(a.CancelConn? || a.CancelParent? || a.TeardownCall? || a.TeardownEnter? || a.PumpExit?)
  }

  /** Ready, with a transport whose write pump is running. */
  ghost predicate IsUp(c: Conn) {
    c.state == Ready && c.transport.Some? && Callback(c, c.transport.value) == Some(Pumping)
  }

  ghost predicate Free(c: Conn) {
    Inv(c) && !c.acDone && c.mu.None?
  }

  lemma LeadsOn(c: Conn, now: seq<Action>, c1: Conn, rest: seq<Action>, c2: Conn)
    requires Leads(c, now, c1) && Leads(c1, rest, c2)
    ensures Leads(c, now + rest, c2)
  {
    ExecAppend(Step, c, now, rest);
  }

  lemma Take(c: Conn, a: Action) returns (c': Conn)
    requires Inv(c) && Step(c, a).Some? && Harmless(a)
    ensures c' == Step(c, a).value && Leads(c, [a], c')
  {
    c' := Step(c, a).value;
    ExecOne(c, a);
    StepKeeps(c, a);
  }

  lemma ReleaseHarmless(c: Conn)
    ensures forall a <- ReleaseRun(c) :: Harmless(a)
  {
    assert forall a <- SendRun(c) :: Harmless(a);
    assert forall a <- LeaveRun(c) :: Harmless(a);
  }

  lemma Release(c: Conn) returns (c': Conn)
    requires Inv(c) && !c.acDone
    ensures Leads(c, ReleaseRun(c), c') && Free(c') && Released(c, c')
  {
    MuReleasedFrom(c);
    ReleaseHarmless(c);
    c' := Exec(Step, c, ReleaseRun(c)).value;
  }

  /** One step into a section, then out of it again. */
  lemma EnterAndRelease(c: Conn, a: Action) returns (more: seq<Action>, c': Conn)
    requires Free(c) && Step(c, a).Some? && Harmless(a) && !Step(c, a).value.acDone
    ensures Leads(c, more, c') && Free(c') && Released(Step(c, a).value, c')
  {
    var c1 := Take(c, a);
    c' := Release(c1);
    LeadsOn(c, [a], c1, ReleaseRun(c1), c');
    more := [a] + ReleaseRun(c1);
  }

  // ---- Dialling ------------------------------------------------------------------------------

  lemma SendHarmless(c: Conn)
    ensures forall a <- SendRun(c) :: Harmless(a)
  {
  }

  /** From the top of the loop a dial that works brings the connection up. */
  lemma DialWorks(c: Conn) returns (more: seq<Action>, c': Conn)
    requires Free(c) && c.loop.Top?
    ensures Leads(c, more, c') && IsUp(c')
  {
    var c1 := Take(c, LoopEnter);
    assert c1.loop.Resetting?;
    SendCompletes(c1);
    SendHarmless(c1);
    var c2 := Exec(Step, c1, SendRun(c1)).value;
    LeadsOn(c, [LoopEnter], c1, SendRun(c1), c2);
    more := [LoopEnter] + SendRun(c1);
    var rest;
    rest, c' := AttachWorks(c2);
    LeadsOn(c, more, c2, rest, c');
    more := more + rest;
  }

  lemma AttachComesUp(c: Conn) returns (c': Conn)
    requires Free(c) && c.loop.Created? && Callback(c, c.loop.g) == Some(Pumping)
    ensures Leads(c, [LoopAttach], c') && IsUp(c')
  {
    c' := Take(c, LoopAttach);
  }

  lemma AttachWorks(c: Conn) returns (more: seq<Action>, c': Conn)
    requires Inv(c) && !c.acDone && c.loop.Resetting? && c.outbox.None?
    ensures Leads(c, more, c') && IsUp(c')
  {
    var c1 := Take(c, LoopDialled(true));
    assert c1.mu.None? && c1.loop == Created(|c.transports|) && !c1.acDone;
    c' := AttachComesUp(c1);
    LeadsOn(c, [LoopDialled(true)], c1, [LoopAttach], c');
    more := [LoopDialled(true)] + [LoopAttach];
  }

  // ---- Getting to the top of the loop --------------------------------------------------------

  lemma FromBackoff(c: Conn) returns (more: seq<Action>, c': Conn)
    requires Free(c) && c.loop.Backoff?
    ensures Leads(c, more, c') && Free(c') && c'.loop.Top?
  {
    assert Step(c, LoopTimer) == Some(c.(loop := Top));
    c' := Take(c, LoopTimer);
    more := [LoopTimer];
  }

  lemma FromFailed(c: Conn) returns (more: seq<Action>, c': Conn)
    requires Free(c) && c.loop.Failed?
    ensures Leads(c, more, c') && Free(c') && c'.loop.Top?
  {
    var c1, rest;
    more, c1 := EnterAndRelease(c, LoopFailEnter);
    rest, c' := FromBackoff(c1);
    LeadsOn(c, more, c1, rest, c');
    more := more + rest;
  }

  lemma FromSpawning(c: Conn) returns (more: seq<Action>, c': Conn)
    requires Free(c) && c.dial.Spawning?
    ensures Leads(c, more, c') && Free(c') && c'.loop.Top?
  {
    c' := Take(c, DialSpawn);
    more := [DialSpawn];
  }

  lemma FromCalling(c: Conn) returns (more: seq<Action>, c': Conn)
    requires Free(c) && c.dial.Calling?
    ensures Leads(c, more, c') && Free(c') && c'.loop.Top?
  {
    var c1, rest;
    more, c1 := EnterAndRelease(c, DialEnter);
    rest, c' := FromSpawning(c1);
    LeadsOn(c, more, c1, rest, c');
    more := more + rest;
  }

  lemma CarryingOnIsHarmless(more: seq<Action>)
    requires forall a <- more :: CarriesOn(a)
    ensures forall a <- more :: Harmless(a)
  {
  }

  lemma FromAwaiting(c: Conn) returns (more: seq<Action>, c': Conn)
    requires Free(c) && c.loop.Awaiting? && Callback(c, c.loop.g) != Some(Pumping)
    ensures Leads(c, more, c') && Free(c') && c'.loop.Top?
  {
    more := ReconnectRun(c);
    CarryingOnIsHarmless(more);
    var c1 := Exec(Step, c, more).value;
    c' := Release(c1);
    LeadsOn(c, more, c1, ReleaseRun(c1), c');
    more := more + ReleaseRun(c1);
  }

  // ---- All together --------------------------------------------------------------------------

  /** A free connection is up, or gets to the top of its loop, or has just dialled. */
  lemma FromFree(c: Conn) returns (more: seq<Action>, c': Conn)
    requires Free(c) && !c.loop.Created?
    ensures Leads(c, more, c') && (IsUp(c') || (Free(c') && c'.loop.Top?))
  {
    if c.dial.Calling? {
      more, c' := FromCalling(c);
    } else if c.dial.Spawning? {
      more, c' := FromSpawning(c);
    } else if c.loop.Backoff? {
      more, c' := FromBackoff(c);
    } else if c.loop.Failed? {
      more, c' := FromFailed(c);
    } else if c.loop.Awaiting? && Callback(c, c.loop.g) != Some(Pumping) {
      more, c' := FromAwaiting(c);
    } else {
      FreeAndIdle(c);
      more, c' := [], c;
    }
  }

  /** What is left: the top of the loop, or waiting for a live transport. */
  lemma FreeAndIdle(c: Conn)
    requires Free(c) && c.dial.Finished? && !c.loop.Backoff? && !c.loop.Failed? && !c.loop.Created?
    requires c.loop.Awaiting? ==> Callback(c, c.loop.g) == Some(Pumping)
    ensures IsUp(c) || c.loop.Top?
  {
    if c.loop.Awaiting? {
      assert NotEntered(c, c.loop.g);
    }
  }

  lemma FromCreated(c: Conn) returns (more: seq<Action>, c': Conn)
    requires Free(c) && c.loop.Created?
    ensures Leads(c, more, c') && Free(c') && c'.loop.Awaiting?
  {
    more, c' := EnterAndRelease(c, LoopAttach);
  }

  lemma BecomesUp(c: Conn) returns (more: seq<Action>, c': Conn)
    requires Free(c)
    ensures Leads(c, more, c') && IsUp(c')
  {
    var c1, now := c, [];
    if c.loop.Created? {
      now, c1 := FromCreated(c);
    }
    var next, c2 := FromFree(c1);
    LeadsOn(c, now, c1, next, c2);
    more, c' := now + next, c2;
    if !IsUp(c2) {
      var rest;
      rest, c' := DialWorks(c2);
      LeadsOn(c, more, c2, rest, c');
      more := more + rest;
    }
  }

  /** From every reachable state in which the connection has not been cancelled, and so not shut
      down, it can become Ready with a live transport, and without losing a connection it has, by
      steps of the processes already there. */
  lemma AlwaysRecovers(run: seq<Action>, c: Conn)
    requires Exec(Step, INIT, run) == Some(c) && !c.acDone
    ensures exists more ::
              && Exec(Step, c, more).Some? && IsUp(Exec(Step, c, more).value)
              && forall a <- more :: Harmless(a)
  {
    Reached(run, c);
    var c1 := Release(c);
    var rest, c2 := BecomesUp(c1);
    LeadsOn(c, ReleaseRun(c), c1, rest, c2);
    var more := ReleaseRun(c) + rest;
    assert Exec(Step, c, more) == Some(c2);
  }
}
