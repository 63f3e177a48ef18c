/** How the operations on a transport end: why Write fails, why the write pump returns, and that both
    can always happen when they should. */
module PumpsOutcomes {
  import opened Runs
  import opened Pumps

  // ---- Write ---------------------------------------------------------------------------------

  /** Reasons for Write to fail. */
  predicate HasReason(t: Transport, w: nat)
    requires w in t.writers
  {
    t.closeWritePump > 0 || t.closeConn > 0 || t.writers[w].ctxDone
  }

  ghost predicate WritersOk(done: seq<Action>, t: Transport) {
    forall w <- t.writers ::
      && (t.writers[w].pc.Refused? ==> HasReason(t, w))
      && (t.writers[w].ctxDone ==> Expire(w) in done)
  }

  lemma WriterStepWritersOk(done: seq<Action>, t: Transport, a: Action)
    requires WritersOk(done, t) && WriterStep(t, a).Some?
    ensures WritersOk(done + [a], WriterStep(t, a).value)
  {
  }

  lemma OthersWritersOk(done: seq<Action>, t: Transport, a: Action)
    requires WritersOk(done, t) && WriterStep(t, a).None? && Step(t, a).Some?
    ensures WritersOk(done + [a], Step(t, a).value)
  {
    var u := Step(t, a).value;
    assert u.writers == t.writers && u.closeConn >= t.closeConn && u.closeWritePump >= t.closeWritePump;
  }

  /** Write fails only when the reader has ended, the transport has been closed, or the caller's own
      context is done. */
  lemma RefusedForAReason(side: Side, run: seq<Action>, t: Transport, w: nat)
    requires Exec(Step, Init(side), run) == Some(t)
    requires w in t.writers && t.writers[w].pc.Refused?
    ensures t.readPc.ReadEnded? || t.closeConn > 0 || Expire(w) in run
  {
    forall done, u, a | WritersOk(done, u) && Step(u, a).Some?
      ensures WritersOk(done + [a], Step(u, a).value)
    {
      if WriterStep(u, a).Some? { WriterStepWritersOk(done, u, a); } else { OthersWritersOk(done, u, a); }
    }
    InvarianceWithRun(Step, WritersOk, Init(side), run);
    Reached(side, run, t);
  }

  /** A blocked Write fails as soon as there is a reason, and its context alone is one; with the pump
      idle it can also succeed, and then its message is the next frame. */
  lemma BlockedWriteCanEnd(side: Side, run: seq<Action>, t: Transport, w: nat)
    requires Exec(Step, Init(side), run) == Some(t)
    requires w in t.writers && t.writers[w].pc.Offering?
    ensures t.readPc.ReadEnded? || t.closeConn > 0 || t.writers[w].ctxDone ==>
              Step(t, Refuse(w)) == Some(t.(writers := t.writers[w := t.writers[w].(pc := Refused)]))
    ensures EndsWrite(t, [Expire(w), Refuse(w)], w, Refused)
    ensures t.writePc.Selecting? ==>
              && EndsWrite(t, [Accept(w), HandOver(true)], w, Taken)
              && var u := Exec(Step, t, [Accept(w), HandOver(true)]).value;
                 u.writePc.Selecting? && u.framed == t.framed + [t.writers[w].msg]
  {
    Reached(side, run, t);
    RunOfTwo(t, Expire(w), Refuse(w));
    if t.writePc.Selecting? {
      RunOfTwo(t, Accept(w), HandOver(true));
    }
  }

  /** With the pump idle a Write can begin and succeed at any time, and a frame that arrives can be
      passed on, each as it is. */
  lemma MessagesCanPass(side: Side, run: seq<Action>, t: Transport, w: nat, m: Message)
    requires Exec(Step, Init(side), run) == Some(t)
    ensures w !in t.writers && t.writePc.Selecting? ==>
              && EndsWrite(t, [Offer(w, m), Accept(w), HandOver(true)], w, Taken)
              && Exec(Step, t, [Offer(w, m), Accept(w), HandOver(true)]).value.framed == t.framed + [m]
    ensures t.readPc.Reading? ==>
              && Exec(Step, t, [FrameArrives(m), Deliver]).Some?
              && Exec(Step, t, [FrameArrives(m), Deliver]).value.delivered == t.delivered + [m]
  {
    if w !in t.writers && t.writePc.Selecting? {
      var u := Step(t, Offer(w, m)).value;
      RunOfTwo(u, Accept(w), HandOver(true));
      ExecCons(Step, t, Offer(w, m), [Accept(w), HandOver(true)]);
      assert [Offer(w, m)] + [Accept(w), HandOver(true)] == [Offer(w, m), Accept(w), HandOver(true)];
    }
    if t.readPc.Reading? {
      RunOfTwo(t, FrameArrives(m), Deliver);
    }
  }

  ghost predicate EndsWrite(t: Transport, run: seq<Action>, w: nat, pc: WriterPc) {
    && Exec(Step, t, run).Some?
    && w in Exec(Step, t, run).value.writers && Exec(Step, t, run).value.writers[w].pc == pc
  }

  lemma RunOfTwo(t: Transport, a: Action, b: Action)
    requires Step(t, a).Some?
    ensures Exec(Step, t, [a, b]) == Step(Step(t, a).value, b)
  {
    var u := Step(t, a).value;
    assert [a, b][1..] == [b] && [b][1..] == [];
    if Step(u, b).Some? {
      assert Exec(Step, Step(u, b).value, []) == Step(u, b);
    }
  }

  // ---- The write pump ------------------------------------------------------------------------

  /** The five returns of writePump. */
  predicate ReturnsPump(a: Action) {
    a == HandOver(false) || a == Ping(false) || a.SeeReaderGone? || a == SeeClose(false) || a.Drained?
  }

  /** What has been seen of closing before the pump goes its last way. */
  ghost predicate PumpOk(done: seq<Action>, t: Transport) {
    && Inv(t)
    && (WriteEnded(t) <==> exists a <- done :: ReturnsPump(a))
    && (SeeReaderGone in done ==> t.readPc.ReadEnded?)
    && (t.writePc.Draining? || Drained in done || (exists ok :: SeeClose(ok) in done) ==> t.closeCalls > 0)
  }

  lemma PumpStepOk(done: seq<Action>, t: Transport, a: Action)
    requires PumpOk(done, t) && WritePumpStep(t, a).Some?
    ensures PumpOk(done + [a], WritePumpStep(t, a).value)
  {
    WritePumpKeeps(t, a);
    var u := WritePumpStep(t, a).value;
    assert a in done + [a];
    assert forall b <- done :: b in done + [a];
  }

  /** What the other processes leave to the pump. */
  lemma OthersLeavePump(t: Transport, a: Action)
    requires WritePumpStep(t, a).None? && Step(t, a).Some?
    ensures var u := Step(t, a).value;
            && !ReturnsPump(a) && !a.SeeClose? && (WriteEnded(u) <==> WriteEnded(t))
            && (t.readPc.ReadEnded? ==> u.readPc.ReadEnded?) && u.closeCalls >= t.closeCalls
            && (u.writePc.Draining? <==> t.writePc.Draining?)
  {
  }

  lemma OthersPumpOk(done: seq<Action>, t: Transport, a: Action)
    requires PumpOk(done, t) && WritePumpStep(t, a).None? && Step(t, a).Some?
    ensures PumpOk(done + [a], Step(t, a).value)
  {
    StepKeeps(t, a);
    OthersLeavePump(t, a);
    assert forall b <- done :: b in done + [a];
  }

  /** The write pump has ended exactly if one of its five returns was taken: a failed frame or ping,
      the reader's end, or, once Close was called, a failed close message or the wait after it. */
  lemma PumpEndsIff(side: Side, run: seq<Action>, t: Transport)
    requires Exec(Step, Init(side), run) == Some(t)
    ensures WriteEnded(t) <==> exists a <- run :: ReturnsPump(a)
    ensures SeeReaderGone in run ==> t.readPc.ReadEnded?
    ensures t.writePc.Draining? || Drained in run || (exists ok :: SeeClose(ok) in run) ==> t.closeCalls > 0
  {
    InitOk(side);
    forall done, u, a | PumpOk(done, u) && Step(u, a).Some?
      ensures PumpOk(done + [a], Step(u, a).value)
    {
      if WritePumpStep(u, a).Some? { PumpStepOk(done, u, a); } else { OthersPumpOk(done, u, a); }
    }
    InvarianceWithRun(Step, PumpOk, Init(side), run);
  }

  /** A ping that works leaves the idle pump as it was; a ping or a frame that fails ends it. */
  lemma FailuresEndPump(t: Transport)
    ensures t.writePc.Selecting? ==>
              && Step(t, Ping(true)) == Some(t)
              && Step(t, Ping(false)).Some? && WriteEnded(Step(t, Ping(false)).value)
    ensures t.writePc.Accepted? ==>
              Step(t, HandOver(false)).Some? && WriteEnded(Step(t, HandOver(false)).value)
  {
  }

  // ---- Calls of Close ------------------------------------------------------------------------

  /** The calls that got past their first step. */
  function PastFirstStep(t: Transport): set<nat> {
    set c | c in t.closers && t.closers[c] != Calling
  }

  ghost predicate CloseCounted(t: Transport) {
    t.closeCalls == |PastFirstStep(t)|
  }

  lemma CloserCounted(t: Transport, a: Action)
    requires CloseCounted(t) && CloserStep(t, a).Some?
    ensures CloseCounted(CloserStep(t, a).value)
  {
    var u := CloserStep(t, a).value;
    if a.DoClose? {
      assert PastFirstStep(u) == PastFirstStep(t) + {a.c};
    } else {
      assert PastFirstStep(u) == PastFirstStep(t);
    }
  }

  lemma OthersLeaveClosers(t: Transport, a: Action)
    requires CloserStep(t, a).None? && Step(t, a).Some?
    ensures Step(t, a).value.closers == t.closers && Step(t, a).value.closeCalls == t.closeCalls
  {
  }

  /** Each call of Close acts once: the count of them is the number of calls that have acted. */
  lemma CloseActsOnce(side: Side, run: seq<Action>, t: Transport)
    requires Exec(Step, Init(side), run) == Some(t)
    ensures t.closeCalls == |PastFirstStep(t)|
    ensures forall c :: c !in t.closers ==> Step(t, CallClose(c)).Some?
  {
    forall u, a | CloseCounted(u) && Step(u, a).Some? ensures CloseCounted(Step(u, a).value) {
      if CloserStep(u, a).Some? { CloserCounted(u, a); } else { OthersLeaveClosers(u, a); }
    }
    assert PastFirstStep(Init(side)) == {};
    Invariance(Step, CloseCounted, Init(side), run);
  }

  // ---- Closing completes ---------------------------------------------------------------------

  /** Steps that carry on with what is under way on a transport that is being closed; reads of a
      closed connection fail. */
  predicate WindsUp(a: Action) {
    a == HandOver(true) || a.SeeReaderGone? || a == SeeClose(true) || a.Drained? || a.SelfClose? || a.Callback?
    || a.Finish? || a.Deliver? || a.ReadFails? || a.CloseReturns? || a.DoClose?
  }

  /** Some such steps lead from t to u. */
  ghost predicate Leads(t: Transport, more: seq<Action>, u: Transport) {
    Inv(u) && u.side == t.side && Exec(Step, t, more) == Some(u) && forall a <- more :: WindsUp(a)
  }

  lemma LeadsOn(t: Transport, now: seq<Action>, u: Transport, rest: seq<Action>, v: Transport)
    requires Leads(t, now, u) && Leads(u, rest, v)
    ensures Leads(t, now + rest, v)
  {
    ExecAppend(Step, t, now, rest);
  }

  lemma Take(t: Transport, a: Action) returns (u: Transport)
    requires Inv(t) && WindsUp(a) && Step(t, a).Some?
    ensures u == Step(t, a).value && Leads(t, [a], u)
  {
    u := Step(t, a).value;
    StepKeeps(t, a);
    assert Exec(Step, t, []) == Some(t);
    ExecSnoc(Step, t, [], t, a);
    assert [] + [a] == [a];
  }

  /** How far the write pump is from its end. */
  function PumpDistance(t: Transport): nat {
    match t.writePc
    case Accepted(_) => 7
    case Selecting => 6
    case Draining => 5
    case Returned => 4
    case Closed => 3
    case CalledBack => 2
    case Finished => 0
  }

  function PumpStep(t: Transport): Action {
    match t.writePc
    case Accepted(_) => HandOver(true)
    case Selecting => if t.closeConn > 0 then SeeClose(true) else SeeReaderGone
    case Draining => Drained
    case Returned => if t.side.ServerSide? then SelfClose else Callback
    case Closed => Callback
    case _ => Finish
  }

  /** There is a reason for the pump to end. */
  ghost predicate Ending(t: Transport) {
    Inv(t) && (t.closeConn > 0 || t.closeWritePump > 0 || WriteEnded(t) || t.writePc.Draining?)
  }

  lemma PumpComesNearer(t: Transport)
    requires Ending(t) && !t.writePc.Finished?
    ensures WindsUp(PumpStep(t)) && Step(t, PumpStep(t)).Some?
    ensures var u := Step(t, PumpStep(t)).value;
            PumpDistance(u) < PumpDistance(t) && u.closers == t.closers
            && (u.closeConn > 0 || u.closeWritePump > 0 || WriteEnded(u) || u.writePc.Draining?)
  {
  }

  lemma {:induction false} PumpFinishes(t: Transport) returns (more: seq<Action>, u: Transport)
    requires Ending(t)
    ensures Leads(t, more, u) && u.writePc.Finished? && u.closers == t.closers
    decreases PumpDistance(t)
  {
    if t.writePc.Finished? {
      more, u := [], t;
    } else {
      PumpComesNearer(t);
      var t1 := Take(t, PumpStep(t));
      var rest;
      rest, u := PumpFinishes(t1);
      LeadsOn(t, [PumpStep(t)], t1, rest, u);
      more := [PumpStep(t)] + rest;
    }
  }

  /** The reader's last steps: it passes on what it holds, and finds the connection closed. */
  lemma ReaderEnds(t: Transport) returns (more: seq<Action>, u: Transport)
    requires Inv(t)
    ensures Leads(t, more, u) && u.readPc.ReadEnded? && u.writePc == t.writePc && u.closers == t.closers
  {
    more, u := [], t;
    if u.readPc.Pushing? {
      u := Take(t, Deliver);
      more := [Deliver];
    }
    if u.readPc.Reading? {
      var v := Take(u, ReadFails);
      LeadsOn(t, more, u, [ReadFails], v);
      more, u := more + [ReadFails], v;
    }
  }

  /** Once a transport has been closed, its reader has ended, or its pump has failed, the pump can run
      to its end, the callback included, in every reachable state and on both sides. */
  lemma ClosingCompletes(side: Side, run: seq<Action>, t: Transport)
    requires Exec(Step, Init(side), run) == Some(t)
    requires t.closeConn > 0 || t.readPc.ReadEnded? || WriteEnded(t)
    ensures exists more, u :: Leads(t, more, u) && u.writePc.Finished?
  {
    Reached(side, run, t);
    var more, u := PumpFinishes(t);
  }

  lemma CallsClose(t: Transport, c: nat) returns (more: seq<Action>, u: Transport)
    requires Inv(t) && c in t.closers && !t.closers[c].Done?
    ensures Leads(t, more, u) && c in u.closers && u.closers[c] == Joining && Ending(u)
  {
    more, u := [], t;
    if t.closers[c].Calling? {
      u := Take(t, DoClose(c));
      more := [DoClose(c)];
    }
  }

  lemma JoinReturns(t: Transport, c: nat) returns (u: Transport)
    requires Inv(t) && c in t.closers && t.closers[c].Joining? && t.writePc.Finished? && t.readPc.ReadEnded?
    ensures Leads(t, [CloseReturns(c)], u) && c in u.closers && u.closers[c].Done?
  {
    u := Take(t, CloseReturns(c));
  }

  lemma CloseWindsUp(t: Transport, c: nat) returns (more: seq<Action>, u: Transport)
    requires Inv(t) && c in t.closers && !t.closers[c].Done?
    ensures Leads(t, more, u)
    ensures c in u.closers && u.closers[c].Joining? && u.writePc.Finished? && u.readPc.ReadEnded?
  {
    var run1, t1 := CallsClose(t, c);
    var run2, t2 := PumpFinishes(t1);
    LeadsOn(t, run1, t1, run2, t2);
    var run3, t3 := ReaderEnds(t2);
    LeadsOn(t, run1 + run2, t2, run3, t3);
    more, u := run1 + run2 + run3, t3;
  }

  /** No call of Close hangs by itself: on both sides and from every reachable state it can return,
      once the reader has passed on what it holds and found the connection closed. */
  lemma CloseCanReturn(side: Side, run: seq<Action>, t: Transport, c: nat)
    requires Exec(Step, Init(side), run) == Some(t)
    requires c in t.closers && !t.closers[c].Done?
    ensures exists more, u :: Leads(t, more, u) && c in u.closers && u.closers[c].Done?
  {
    Reached(side, run, t);
    var now, t1 := CloseWindsUp(t, c);
    var u := JoinReturns(t1, c);
    LeadsOn(t, now, t1, [CloseReturns(c)], u);
  }
}
