/** The promises of calls, for every run with any set of honest clients. */
module CallsTheorems {
  import opened Runs
  import opened Credentials
  import opened MethodCalls
  import opened Calls
  import opened CallsSafety
  import opened CallsSteps

  // ---- Correlation ---------------------------------------------------------------------------

  /** End-to-end correlation. A call that took a response took one that the called peer's handler
      gave in a run on a request with this very call id, method and arguments, whatever was lost,
      reordered or reconnected in between and whatever dishonest clients sent. */
  lemma EndToEndCorrelation(honest: set<Key>, run: seq<Action>, w: World, id: CallId)
    requires Exec(Step, Init(honest), run) == Some(w)
    requires id in w.calls && IsAnswered(w.calls[id].pc) && w.calls[id].key in honest
    ensures var call := w.calls[id]; var resp := call.pc.outcome.resp;
            && resp.callId == id
            && Execution(call.dir, call.key, Request(id, call.rpc, call.args), resp) in w.executions
  {
    Reached(honest, run, w);
    assert CallOk(w, id);
  }

  /** Isolation by key, of any client: a response read from one peer never completes a call
      addressed to another, nor one with another id. */
  lemma ResponsesStayWithTheirPeer(honest: set<Key>, run: seq<Action>, w: World, id: CallId)
    requires Exec(Step, Init(honest), run) == Some(w)
    requires id in w.calls && IsAnswered(w.calls[id].pc)
    ensures w.calls[id].pc.outcome.from == w.calls[id].key && w.calls[id].pc.outcome.resp.callId == id
  {
    Reached(honest, run, w);
    assert CallOk(w, id);
  }

  // ---- At most once --------------------------------------------------------------------------

  lemma {:induction false} CountsMember(pool: seq<Item>, n: nat, tag: Tag)
    requires n < |pool| && TagOf(pool[n]) == Some(tag)
    ensures Count(pool, tag) >= 1
  {
    CountWithout(pool, n, tag);
  }

  /** Each call causes at most one run of a handler, and none before its request was sent; a call
      that took a response used up the only one there is, so no copy of it is left anywhere. */
  lemma AtMostOnce(honest: set<Key>, run: seq<Action>, w: World, id: CallId)
    requires Exec(Step, Init(honest), run) == Some(w)
    requires id in w.calls && w.calls[id].key in honest
    ensures var call := w.calls[id];
            Executed(w.executions, call.dir, call.key, id) <= One(IsSent(call.pc))
    ensures var call := w.calls[id]; var tag := Tag(true, call.dir, call.key, id);
            IsAnswered(call.pc) ==>
              && Executed(w.executions, call.dir, call.key, id) == 1
              && Count(w.pool, tag) == 0 && !HeldFor(w, call.dir, call.key, id)
              && forall n :: 0 <= n < |w.pool| ==> TagOf(w.pool[n]) != Some(tag)
  {
    Reached(honest, run, w);
    var call := w.calls[id];
    var tag := Tag(true, call.dir, call.key, id);
    assert RequestBound(w, call.dir, call.key, id) && ResponseBound(w, call.dir, call.key, id);
    if IsAnswered(call.pc) {
      forall n | 0 <= n < |w.pool|
        ensures TagOf(w.pool[n]) != Some(tag)
      {
        if TagOf(w.pool[n]) == Some(tag) {
          CountsMember(w.pool, n, tag);
        }
      }
    }
  }

  // ---- The client's table and response handlers ----------------------------------------------

  /** A client's methodCalls holds exactly the ids of its calls between registration and removal. */
  lemma ClientTableIsExact(honest: set<Key>, run: seq<Action>, w: World, key: Key, id: CallId)
    requires Exec(Step, Init(honest), run) == Some(w)
    ensures (key, id) in w.clientTable
            <==> id in w.calls && w.calls[id].dir.ToServer? && w.calls[id].key == key && IsPending(w.calls[id].pc)
  {
    Reached(honest, run, w);
  }

  /** A call that a response names, and that has taken none, waits for it or has given up. */
  lemma NamedCallWaits(w: World, dir: Direction, key: Key, resp: Response)
    requires Inv(w) && key in w.honest && ResponseOk(w, dir, key, resp)
    requires Count(w.pool, Tag(true, dir, key, resp.callId)) + One(HeldFor(w, dir, key, resp.callId)) >= 1
    ensures IsSent(w.calls[resp.callId].pc) && !IsAnswered(w.calls[resp.callId].pc)
  {
    assert RequestBound(w, dir, key, resp.callId) && ResponseBound(w, dir, key, resp.callId);
  }

  lemma SendingWaits(w: World, n: nat)
    requires Inv(w) && n < |w.pool| && w.pool[n].Sending?
    ensures var item := w.pool[n]; var id := item.resp.callId;
            && item.ch == Chan(id) && id in w.calls && IsSent(w.calls[id].pc) && !IsAnswered(w.calls[id].pc)
            && CallOk(w, id) && w.calls[id].dir.ToServer?
  {
    var item := w.pool[n];
    assert item in w.pool && ItemFine(w, item);
    CountsMember(w.pool, n, Tag(true, ToServer, item.key, item.resp.callId));
    NamedCallWaits(w, ToServer, item.key, item.resp);
    assert CallOk(w, item.resp.callId);
  }

  /** No response handler of a client is left behind: one at its send either has its receiver in
      the select or finds the call's context done. */
  lemma ClientHandlersEnd(honest: set<Key>, run: seq<Action>, w: World, n: nat)
    requires Exec(Step, Init(honest), run) == Some(w)
    requires n < |w.pool| && w.pool[n].Sending?
    ensures Step(w, ClientSend(n)).Some? || Step(w, GiveUp(n)).Some?
  {
    Reached(honest, run, w);
    SendingWaits(w, n);
  }

  // ---- The server's table and lock -----------------------------------------------------------

  /** Every entry of the server's table is of a call to that very key which has taken no response,
      so a second response for an answered call finds no entry and is dropped. */
  lemma ServerEntriesAreUndelivered(honest: set<Key>, run: seq<Action>, w: World, key: Key, id: CallId)
    requires Exec(Step, Init(honest), run) == Some(w)
    requires (key, id) in w.serverTable
    ensures id in w.calls && w.calls[id].dir.ToClient? && w.calls[id].key == key && !IsAnswered(w.calls[id].pc)
  {
    Reached(honest, run, w);
    var slot := (key, id);
    assert slot in w.serverTable && IsCall(w, ToClient, slot.0, slot.1);
    assert CallOk(w, id);
  }

  lemma DuplicatesAreDropped(honest: set<Key>, run: seq<Action>, w: World, n: nat)
    requires Exec(Step, Init(honest), run) == Some(w) && w.holder.None?
    requires n < |w.pool| && w.pool[n].Received? && w.pool[n].dir.ToClient?
    requires w.pool[n].resp.callId in w.calls && IsAnswered(w.calls[w.pool[n].resp.callId].pc)
    ensures Step(w, Lookup(n)) == Some(Discard(w, n))
  {
    var slot := (w.pool[n].key, w.pool[n].resp.callId);
    if slot in w.serverTable {
      ServerEntriesAreUndelivered(honest, run, w, slot.0, slot.1);
    }
  }

  lemma HeldCallWaits(w: World)
    requires Inv(w) && w.holder.Some? && w.holder.value.key in w.honest
    ensures var id := w.holder.value.resp.callId;
            && w.holder.value.ch == Chan(id) && IsCall(w, ToClient, w.holder.value.key, id)
            && (w.calls[id].pc == Written || w.calls[id].pc == Expiring)
            && (w.calls[id].pc == Expiring ==> w.calls[id].ctxDone)
  {
    var h := w.holder.value;
    NamedCallWaits(w, ToClient, h.key, h.resp);
    var slot := (h.key, h.resp.callId);
    assert slot in w.serverTable && w.serverTable[slot] == Chan(slot.1);
    assert CallOk(w, h.resp.callId);
  }

  /** The server holds s.mu while it hands over a response. If the peer is honest, the call has by
      then sent its request, and it either waits in its select, where it needs no lock, and the
      send completes, or it has taken the timeout branch after its context was done. */
  lemma HeldResponseMeetsItsCall(honest: set<Key>, run: seq<Action>, w: World)
    requires Exec(Step, Init(honest), run) == Some(w)
    requires w.holder.Some? && w.holder.value.key in honest
    ensures var id := w.holder.value.resp.callId;
            && IsCall(w, ToClient, w.holder.value.key, id)
            && (w.calls[id].pc == Written || w.calls[id].pc == Expiring)
            && (w.calls[id].pc == Expiring ==> w.calls[id].ctxDone)
            && (w.calls[id].pc == Written <==> Step(w, ServerSend).Some?)
  {
    Reached(honest, run, w);
    HeldCallWaits(w);
  }

  /** A call in these places is not in its select, and leaves them only by taking s.mu, if at all. */
  predicate IsStuck(pc: Pc) {
    pc.Registered? || pc.Expiring? || pc == Done(Failed)
  }

  /** The server is at its send to a call that cannot come to receive while s.mu is held. */
  ghost predicate Stuck(w: World, id: CallId) {
    && w.holder.Some? && w.holder.value.ch == Chan(id)
    && id in w.calls && w.calls[id].dir.ToClient? && IsStuck(w.calls[id].pc)
  }

  lemma StuckStepsOwn(w: World, a: Action, id: CallId)
    requires Stuck(w, id) && CallerStep(w, a).Some? && !a.Invoke? && a.id == id
    ensures Stuck(CallerStep(w, a).value, id)
  {
    assert a.Expire?;
  }

  /** The callers' steps leave the lock to its holder, and each moves its own call alone. */
  lemma StepsOfOtherCalls(w: World, a: Action, id: CallId)
    requires CallerStep(w, a).Some? && a.id != id && id in w.calls
    ensures var w' := CallerStep(w, a).value; w'.holder == w.holder && id in w'.calls && w'.calls[id] == w.calls[id]
  {
  }

  lemma StuckStepsCaller(w: World, a: Action, id: CallId)
    requires Stuck(w, id) && CallerStep(w, a).Some?
    ensures Stuck(CallerStep(w, a).value, id)
  {
    if a.id == id { StuckStepsOwn(w, a, id); } else { StepsOfOtherCalls(w, a, id); }
  }

  lemma StuckStepsNetwork(w: World, a: Action, id: CallId)
    requires Stuck(w, id) && NetworkStep(w, a).Some?
    ensures Stuck(NetworkStep(w, a).value, id)
  {
  }

  lemma StuckStepsOther(w: World, a: Action, id: CallId)
    requires Stuck(w, id) && CallerStep(w, a).None? && NetworkStep(w, a).None? && Step(w, a).Some?
    ensures Stuck(Step(w, a).value, id)
  {
  }

  lemma StuckSteps(w: World, a: Action, id: CallId)
    requires Stuck(w, id) && Step(w, a).Some?
    ensures Stuck(Step(w, a).value, id)
  {
    if CallerStep(w, a).Some? { StuckStepsCaller(w, a, id); }
    else if NetworkStep(w, a).Some? { StuckStepsNetwork(w, a, id); }
    else { StuckStepsOther(w, a, id); }
  }

  lemma StuckForever(w: World, id: CallId, more: seq<Action>, w': World)
    requires Stuck(w, id) && Exec(Step, w, more) == Some(w')
    ensures Stuck(w', id)
  {
    var inv := (v: World) => Stuck(v, id);
    forall v, a | inv(v) && Step(v, a).Some? ensures inv(Step(v, a).value) {
      StuckSteps(v, a, id);
    }
    Invariance(Step, inv, w, more);
  }

  ghost predicate CanComeFree(w: World) {
    exists more :: Exec(Step, w, more).Some? && Exec(Step, w, more).value.holder.None?
  }

  lemma SendFrees(w: World, before: seq<Action>, w1: World)
    requires Exec(Step, w, before) == Some(w1) && Step(w1, ServerSend).Some?
    ensures CanComeFree(w)
  {
    ExecSnoc(Step, w, before, w1, ServerSend);
  }

  /** A call that has its connection needs no lock to get to its select. */
  lemma WriteReaches(w: World, id: CallId)
    requires id in w.calls && w.calls[id].pc.Routed?
    ensures Step(w, Write(id)).Some? && Exec(Step, w, [Write(id)]) == Step(w, Write(id))
    ensures var w' := Step(w, Write(id)).value; w'.holder == w.holder && id in w'.calls && w'.calls[id].pc == Written
  {
    assert [Write(id)] == [] + [Write(id)];
    ExecSnoc(Step, w, [], w, Write(id));
  }

  lemma WriteThenSendFrees(w: World, id: CallId)
    requires w.holder.Some? && w.holder.value.ch == Chan(id) && id in w.calls && w.calls[id].pc.Routed?
    ensures CanComeFree(w)
  {
    WriteReaches(w, id);
    SendFrees(w, [Write(id)], Step(w, Write(id)).value);
  }

  lemma StuckCannotComeFree(w: World, id: CallId)
    requires Stuck(w, id)
    ensures !CanComeFree(w)
  {
    forall more | Exec(Step, w, more).Some?
      ensures Exec(Step, w, more).value.holder.Some?
    {
      StuckForever(w, id, more, Exec(Step, w, more).value);
    }
  }

  /** Exactly when the server's lock can come free again, whoever the peer is: if and only if the
      call whose response is being handed over is in its select, or has its connection already and
      so gets there without the lock. */
  lemma LockComesFreeIff(honest: set<Key>, run: seq<Action>, w: World)
    requires Exec(Step, Init(honest), run) == Some(w) && w.holder.Some?
    ensures var id := w.holder.value.resp.callId;
            id in w.calls && (CanComeFree(w) <==> w.calls[id].pc.Routed? || w.calls[id].pc.Written?)
  {
    HeldForOwnCall(honest, run, w);
    var id := w.holder.value.resp.callId;
    if w.calls[id].pc.Routed? {
      WriteThenSendFrees(w, id);
    } else if w.calls[id].pc.Written? {
      assert Exec(Step, w, []) == Some(w);
      SendFrees(w, [], w);
    } else {
      StuckCannotComeFree(w, id);
    }
  }

  /** If the peer is honest its call has sent the request, and what remains of the condition is
      that the call has not entered its timeout branch. */
  lemma HonestLockComesFreeIff(honest: set<Key>, run: seq<Action>, w: World)
    requires Exec(Step, Init(honest), run) == Some(w)
    requires w.holder.Some? && w.holder.value.key in honest
    ensures w.holder.value.resp.callId in w.calls
    ensures CanComeFree(w) <==> w.calls[w.holder.value.resp.callId].pc != Expiring
  {
    HeldResponseMeetsItsCall(honest, run, w);
    LockComesFreeIff(honest, run, w);
  }

  /** Whoever the peer is: the response held is for an undelivered call to that very peer, and goes
      to the channel of that call. */
  lemma HeldForOwnCall(honest: set<Key>, run: seq<Action>, w: World)
    requires Exec(Step, Init(honest), run) == Some(w) && w.holder.Some?
    ensures var h := w.holder.value; var id := h.resp.callId;
            && h.ch == Chan(id) && IsCall(w, ToClient, h.key, id)
            && (IsStuck(w.calls[id].pc) || w.calls[id].pc.Routed? || w.calls[id].pc.Written?)
  {
    Reached(honest, run, w);
    var h := w.holder.value;
    var slot := (h.key, h.resp.callId);
    assert slot in w.serverTable && IsCall(w, ToClient, slot.0, slot.1);
    assert CallOk(w, slot.1);
  }

  /** Without timeouts of server calls the lock always comes free. */
  lemma NoTimeoutNoDeadlock(honest: set<Key>, run: seq<Action>, w: World)
    requires Exec(Step, Init(honest), run) == Some(w)
    requires w.holder.Some? && w.holder.value.key in honest
    requires forall id <- w.calls :: w.calls[id].dir.ToClient? ==> !w.calls[id].ctxDone
    ensures Step(w, ServerSend).Some? && Step(w, ServerSend).value.holder.None?
  {
    HeldResponseMeetsItsCall(honest, run, w);
  }
}
