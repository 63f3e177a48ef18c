/** What becomes of responses: one that has been read reaches its call, one that nobody waits for is
    dropped; and what a held s.mu keeps from happening. */
module CallsDelivery {
  import opened Runs
  import opened Credentials
  import opened MethodCalls
  import opened Calls
  import opened CallsSafety
  import opened CallsSteps

  // ---- A response that has been read is not lost ---------------------------------------------

  /** The response to the call with this id, at the side that made the call: before its lookup, or on
      its way into the call's channel. */
  ghost predicate AtHand(w: World, dir: Direction, key: Key, resp: Response) {
    || Received(dir, key, resp) in w.pool
    || (dir.ToServer? && Sending(key, resp, Chan(resp.callId)) in w.pool)
    || (dir.ToClient? && w.holder == Some(Holder(key, resp, Chan(resp.callId))))
  }

  /** The call has its answer, or is in its select with the response at hand, or its context is done. */
  ghost predicate Served(w: World, dir: Direction, key: Key, resp: Response) {
    && IsCall(w, dir, key, resp.callId)
    && var call := w.calls[resp.callId];
       call.ctxDone || IsAnswered(call.pc) || (call.pc.Written? && AtHand(w, dir, key, resp))
  }

  lemma InWithout(pool: seq<Item>, n: nat, item: Item)
    requires n < |pool| && item in pool && pool[n] != item
    ensures item in Without(pool, n)
  {
    var m :| 0 <= m < |pool| && pool[m] == item;
    if m < n { assert Without(pool, n)[m] == item; } else { assert Without(pool, n)[m - 1] == item; }
  }

  /** Steps that leave the calls alone, and every item but those of another kind. */
  ghost predicate LeavesAtHand(w: World, w': World) {
    && w'.calls == w.calls && w'.holder == w.holder
    && forall item <- w.pool :: item.Received? || item.Sending? ==> item in w'.pool
  }

  lemma ReplacedLeavesAtHand(w: World, w': World, n: nat, items: seq<Item>)
    requires Replaced(w, w', n, items) && !w.pool[n].Received? && !w.pool[n].Sending?
    requires w'.calls == w.calls && w'.holder == w.holder
    ensures LeavesAtHand(w, w')
  {
    forall item <- w.pool | item.Received? || item.Sending?
      ensures item in w'.pool
    {
      InWithout(w.pool, n, item);
    }
  }

  lemma LoseShape(w: World, a: Action)
    requires a.Lose? && NetworkStep(w, a).Some?
    ensures Passed(w, NetworkStep(w, a).value, a.n, []) && !w.pool[a.n].Received? && !w.pool[a.n].Sending?
  {
    assert Without(w.pool, a.n) + [] == Without(w.pool, a.n);
  }

  lemma ConnectionsLeaveAtHand(w: World, a: Action)
    requires !a.Lose? && !a.Deliver? && NetworkStep(w, a).Some?
    ensures LeavesAtHand(w, NetworkStep(w, a).value)
  {
  }

  lemma NetworkLeavesAtHand(w: World, a: Action)
    requires NetworkStep(w, a).Some?
    ensures LeavesAtHand(w, NetworkStep(w, a).value)
  {
    var w' := NetworkStep(w, a).value;
    if a.Lose? {
      LoseShape(w, a);
      ReplacedLeavesAtHand(w, w', a.n, []);
    } else if a.Deliver? {
      DeliverShape(w, a);
      ReplacedLeavesAtHand(w, w', a.n, ReadFrom(w, w.pool[a.n]));
    } else {
      ConnectionsLeaveAtHand(w, a);
    }
  }

  lemma CalledLeavesAtHand(w: World, a: Action)
    requires CalledStep(w, a).Some?
    ensures LeavesAtHand(w, CalledStep(w, a).value)
  {
    var w' := CalledStep(w, a).value;
    forall item <- w.pool | item.Received? || item.Sending?
      ensures item in w'.pool
    {
      InWithout(w.pool, a.n, item);
    }
  }

  /** A call that moves is taken out of its select only after its context was done. */
  lemma MoveServes(w: World, a: Action, dir: Direction, key: Key, resp: Response)
    requires Served(w, dir, key, resp) && IsMove(a) && CallerStep(w, a).Some?
    ensures Served(CallerStep(w, a).value, dir, key, resp)
  {
    MoveShape(w, a);
    NextCallMoves(w, w.calls[a.id], a);
  }

  lemma CallerServes(w: World, a: Action, dir: Direction, key: Key, resp: Response)
    requires AllCalls(w) && Served(w, dir, key, resp) && CallerStep(w, a).Some?
    ensures Served(CallerStep(w, a).value, dir, key, resp)
  {
    if IsMove(a) { MoveServes(w, a, dir, key, resp); }
    else if a.Write? { WriteShape(w, a); }
  }

  /** A pending call is listed, so its response is taken on. */
  lemma LookupTakesOn(w: World, a: Action, dir: Direction, key: Key, resp: Response)
    requires PendingListed(w) && ClientSlots(w) && ServerSlots(w) && a.Lookup? && ResponseStep(w, a).Some?
    requires IsCall(w, dir, key, resp.callId) && w.calls[resp.callId].pc.Written?
    requires w.pool[a.n] == Received(dir, key, resp)
    ensures var w' := ResponseStep(w, a).value; AtHand(w', dir, key, resp) && w'.calls == w.calls
  {
    var w' := ResponseStep(w, a).value;
    assert (key, resp.callId) in if dir.ToServer? then w.clientTable else w.serverTable;
    if dir.ToServer? {
      assert w'.pool[|w'.pool| - 1] == Sending(key, resp, Chan(resp.callId));
    }
  }

  lemma OtherLookupLeaves(w: World, a: Action, dir: Direction, key: Key, resp: Response)
    requires AtHand(w, dir, key, resp) && a.Lookup? && ResponseStep(w, a).Some?
    requires w.pool[a.n] != Received(dir, key, resp)
    ensures var w' := ResponseStep(w, a).value; AtHand(w', dir, key, resp) && w'.calls == w.calls
  {
    forall item <- w.pool | item != w.pool[a.n]
      ensures item in ResponseStep(w, a).value.pool
    {
      InWithout(w.pool, a.n, item);
    }
  }

  lemma LookupLeavesCalls(w: World, a: Action)
    requires a.Lookup? && ResponseStep(w, a).Some?
    ensures ResponseStep(w, a).value.calls == w.calls
  {
  }

  lemma LookupServes(w: World, a: Action, dir: Direction, key: Key, resp: Response)
    requires Tables(w) && Served(w, dir, key, resp) && a.Lookup? && ResponseStep(w, a).Some?
    ensures Served(ResponseStep(w, a).value, dir, key, resp)
  {
    LookupLeavesCalls(w, a);
    if w.calls[resp.callId].pc.Written? && AtHand(w, dir, key, resp) {
      if w.pool[a.n] == Received(dir, key, resp) { LookupTakesOn(w, a, dir, key, resp); }
      else { OtherLookupLeaves(w, a, dir, key, resp); }
    }
  }

  lemma SendServes(w: World, a: Action, dir: Direction, key: Key, resp: Response)
    requires Served(w, dir, key, resp) && !a.Lookup? && ResponseStep(w, a).Some?
    ensures Served(ResponseStep(w, a).value, dir, key, resp)
  {
    var w' := ResponseStep(w, a).value;
    if a.ClientSend? || a.GiveUp? {
      forall item <- w.pool | item != w.pool[a.n]
        ensures item in w'.pool
      {
        InWithout(w.pool, a.n, item);
      }
    }
  }

  lemma StepServes(w: World, a: Action, dir: Direction, key: Key, resp: Response)
    requires AllCalls(w) && Tables(w) && Served(w, dir, key, resp) && Step(w, a).Some?
    ensures Served(Step(w, a).value, dir, key, resp)
  {
    if CallerStep(w, a).Some? { CallerServes(w, a, dir, key, resp); }
    else if NetworkStep(w, a).Some? { NetworkLeavesAtHand(w, a); }
    else if CalledStep(w, a).Some? { CalledLeavesAtHand(w, a); }
    else if a.Lookup? { LookupServes(w, a, dir, key, resp); }
    else { SendServes(w, a, dir, key, resp); }
  }

  /** No response is lost once it has been read: whatever happens, and whatever any client sends, the
      call in its select keeps it at hand until it has an answer, or its own context is done. */
  lemma ReadResponsesAreKept(
      honest: set<Key>, run: seq<Action>, w: World, dir: Direction, key: Key, resp: Response,
      more: seq<Action>, w': World)
    requires Exec(Step, Init(honest), run) == Some(w) && Exec(Step, w, more) == Some(w')
    requires Received(dir, key, resp) in w.pool
    requires IsCall(w, dir, key, resp.callId) && w.calls[resp.callId].pc.Written?
    ensures Served(w', dir, key, resp)
  {
    Reached(honest, run, w);
    var inv := (v: World) => Inv(v) && Served(v, dir, key, resp);
    forall v, a | inv(v) && Step(v, a).Some? ensures inv(Step(v, a).value) {
      StepKeeps(v, a);
      StepServes(v, a, dir, key, resp);
    }
    Invariance(Step, inv, w, more);
  }

  /** The call of this response has taken it, from this peer. */
  ghost predicate Took(w: World, key: Key, resp: Response) {
    && resp.callId in w.calls && IsAnswered(w.calls[resp.callId].pc)
    && w.calls[resp.callId].pc.outcome == Answered(key, resp)
  }

  predicate HandsOver(a: Action) {
    a.Lookup? || a.ClientSend? || a.ServerSend?
  }

  /** The call can take this response. */
  ghost predicate CanTake(w: World, key: Key, resp: Response) {
    exists more: seq<Action> ::
      && (forall a <- more :: HandsOver(a))
      && Exec(Step, w, more).Some? && Took(Exec(Step, w, more).value, key, resp)
  }

  lemma SendTakes(w: World, a: Action, key: Key, resp: Response)
    requires a.ClientSend? || a.ServerSend?
    requires Step(w, a).Some? && Took(Step(w, a).value, key, resp)
    ensures CanTake(w, key, resp)
  {
    assert Exec(Step, w, []) == Some(w);
    ExecSnoc(Step, w, [], w, a);
    assert [] + [a] == [a];
  }

  lemma SendingCanBeTaken(w: World, key: Key, resp: Response)
    requires resp.callId in w.calls && w.calls[resp.callId].pc.Written?
    requires Sending(key, resp, Chan(resp.callId)) in w.pool
    ensures CanTake(w, key, resp)
  {
    var n :| 0 <= n < |w.pool| && w.pool[n] == Sending(key, resp, Chan(resp.callId));
    SendTakes(w, ClientSend(n), key, resp);
  }

  lemma HeldCanBeTaken(w: World, key: Key, resp: Response)
    requires resp.callId in w.calls && w.calls[resp.callId].pc.Written?
    requires w.holder == Some(Holder(key, resp, Chan(resp.callId)))
    ensures CanTake(w, key, resp)
  {
    SendTakes(w, ServerSend, key, resp);
  }

  lemma LookupThenTake(w: World, n: nat, key: Key, resp: Response)
    requires Step(w, Lookup(n)).Some? && CanTake(Step(w, Lookup(n)).value, key, resp)
    ensures CanTake(w, key, resp)
  {
    var w1 := Step(w, Lookup(n)).value;
    var more: seq<Action> :|
      && (forall a <- more :: HandsOver(a))
      && Exec(Step, w1, more).Some? && Took(Exec(Step, w1, more).value, key, resp);
    ExecCons(Step, w, Lookup(n), more);
  }

  /** And a response at hand can be taken by its call as long as that is in its select; at the server
      s.mu must not be held for another. */
  lemma AtHandCanBeTaken(
      honest: set<Key>, run: seq<Action>, w: World, dir: Direction, key: Key, resp: Response)
    requires Exec(Step, Init(honest), run) == Some(w)
    requires IsCall(w, dir, key, resp.callId) && w.calls[resp.callId].pc.Written? && AtHand(w, dir, key, resp)
    requires dir.ToClient? ==> w.holder.None? || w.holder == Some(Holder(key, resp, Chan(resp.callId)))
    ensures CanTake(w, key, resp)
  {
    if w.holder == Some(Holder(key, resp, Chan(resp.callId))) {
      HeldCanBeTaken(w, key, resp);
    } else if Sending(key, resp, Chan(resp.callId)) in w.pool {
      SendingCanBeTaken(w, key, resp);
    } else {
      Reached(honest, run, w);
      var n :| 0 <= n < |w.pool| && w.pool[n] == Received(dir, key, resp);
      LookupDropsUnknown(w, n);
      LookupTakesOn(w, Lookup(n), dir, key, resp);
      var w1 := Step(w, Lookup(n)).value;
      if dir.ToServer? { TakenOnAtClient(w, n, key, resp); SendingCanBeTaken(w1, key, resp); }
      else { HeldCanBeTaken(w1, key, resp); }
      LookupThenTake(w, n, key, resp);
    }
  }

  lemma TakenOnAtClient(w: World, n: nat, key: Key, resp: Response)
    requires ClientSlots(w) && n < |w.pool| && w.pool[n] == Received(ToServer, key, resp)
    requires (key, resp.callId) in w.clientTable
    ensures Step(w, Lookup(n)).Some?
    ensures Sending(key, resp, Chan(resp.callId)) in Step(w, Lookup(n)).value.pool
  {
    var w' := Step(w, Lookup(n)).value;
    assert w'.pool[|w'.pool| - 1] == Sending(key, resp, Chan(resp.callId));
  }

  // ---- Lookups -------------------------------------------------------------------------------

  /** A lookup never waits but for s.mu, and a response is taken on exactly if its peer and id have
      an entry; any other is dropped, and nothing else changes. */
  lemma LookupDropsUnknown(w: World, n: nat)
    requires n < |w.pool| && w.pool[n].Received? && MuFree(w, w.pool[n].dir)
    ensures Step(w, Lookup(n)).Some?
    ensures var item := w.pool[n]; var slot := (item.key, item.resp.callId);
            slot !in (if item.dir.ToServer? then w.clientTable else w.serverTable)
            <==> Step(w, Lookup(n)).value == Discard(w, n)
  {
    var item := w.pool[n];
    if item.dir.ToServer? && (item.key, item.resp.callId) in w.clientTable {
      assert |Step(w, Lookup(n)).value.pool| == |w.pool|;
    }
  }

  // ---- The held lock -------------------------------------------------------------------------

  /** A call of the server that is about to take s.mu. */
  predicate WantsMu(call: Call) {
    call.dir.ToClient? && (call.pc.Built? || call.pc.Registered? || call.pc.Expiring?)
  }

  /** What nobody can do while s.mu is held: change the server's tables, take a step that needs the
      lock in a call of the server, or look up a connection for a reply. */
  ghost predicate Frozen(w: World, w': World) {
    && w'.holder == w.holder && w'.serverTable == w.serverTable && w'.serverConn == w.serverConn
    && (forall id <- w.calls :: WantsMu(w.calls[id]) ==>
          id in w'.calls && w'.calls[id].pc == w.calls[id].pc && w'.calls[id].dir.ToClient?)
    && (forall item <- w'.pool :: item.ReplyRouted? && item.dir.ToServer? ==> item in w.pool)
  }

  lemma MovesNeedMu(w: World, a: Action)
    requires (a.Register? || a.Route? || a.Remove?) && CallerStep(w, a).Some?
    ensures a.id in w.calls && MuFree(w, w.calls[a.id].dir)
  {
  }

  lemma MoveFrozen(w: World, a: Action)
    requires AllCalls(w) && w.holder.Some? && IsMove(a) && CallerStep(w, a).Some?
    ensures Frozen(w, CallerStep(w, a).value)
  {
    MoveShape(w, a);
    assert CallOk(w, a.id);
    if a.Register? { MovesNeedMu(w, a); RegisterShape(w, a); }
    else if a.Remove? { MovesNeedMu(w, a); RemoveShape(w, a); }
    else { if a.Route? { MovesNeedMu(w, a); } OtherMoveShape(w, a); }
  }

  lemma CallerFrozen(w: World, a: Action)
    requires AllCalls(w) && w.holder.Some? && CallerStep(w, a).Some?
    ensures Frozen(w, CallerStep(w, a).value)
  {
    if IsMove(a) { MoveFrozen(w, a); }
    else if a.Write? { WriteShape(w, a); }
  }

  lemma NetworkFrozen(w: World, a: Action)
    requires w.holder.Some? && NetworkStep(w, a).Some?
    ensures Frozen(w, NetworkStep(w, a).value)
  {
    if a.Lose? { LoseShape(w, a); }
    else if a.Deliver? { DeliverShape(w, a); }
  }

  lemma CalledFrozen(w: World, a: Action)
    requires w.holder.Some? && CalledStep(w, a).Some?
    ensures Frozen(w, CalledStep(w, a).value)
  {
  }

  lemma ResponseFrozen(w: World, a: Action)
    requires w.holder.Some? && !a.ServerSend? && ResponseStep(w, a).Some?
    ensures Frozen(w, ResponseStep(w, a).value)
  {
  }

  /** While the server holds s.mu for a response, and until it has handed it over, no call of the
      server registers, finds its connection or is removed, no connection is accepted or unregistered
      and no reply finds its connection. */
  lemma HeldLockFreezes(honest: set<Key>, run: seq<Action>, w: World, more: seq<Action>, w': World)
    requires Exec(Step, Init(honest), run) == Some(w) && Exec(Step, w, more) == Some(w')
    requires w.holder.Some? && ServerSend !in more
    ensures Frozen(w, w')
  {
    Reached(honest, run, w);
    Freezes(w, more, w');
  }

  lemma StepFrozen(w: World, a: Action)
    requires AllCalls(w) && w.holder.Some? && a != ServerSend && Step(w, a).Some?
    ensures Frozen(w, Step(w, a).value)
  {
    if CallerStep(w, a).Some? { CallerFrozen(w, a); }
    else if NetworkStep(w, a).Some? { NetworkFrozen(w, a); }
    else if CalledStep(w, a).Some? { CalledFrozen(w, a); }
    else { ResponseFrozen(w, a); }
  }

  lemma FrozenOn(w: World, w1: World, w': World)
    requires Frozen(w, w1) && Frozen(w1, w')
    ensures Frozen(w, w')
  {
  }

  lemma {:induction false} Freezes(w: World, more: seq<Action>, w': World)
    requires Inv(w) && Exec(Step, w, more) == Some(w')
    requires w.holder.Some? && ServerSend !in more
    ensures Frozen(w, w')
    decreases |more|
  {
    if more != [] {
      var w1 := Step(w, more[0]).value;
      StepKeeps(w, more[0]);
      StepFrozen(w, more[0]);
      Freezes(w1, more[1..], w');
      FrozenOn(w, w1, w');
    }
  }
}
