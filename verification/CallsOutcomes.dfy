/** How calls, requests and responses end: what is refused, what is dropped, what is never lost, and
    that every call can come to its end. */
module CallsOutcomes {
  import opened Runs
  import opened Credentials
  import opened MethodCalls
  import opened Calls
  import opened CallsSafety
  import opened CallsSteps

  // ---- Requests the server refuses -----------------------------------------------------------

  ghost predicate OnlyUuids(w: World) {
    forall e <- w.executions :: e.dir.ToServer? ==> e.req.callId.Uuid4?
  }

  lemma CalledKeepsUuids(w: World, a: Action)
    requires OnlyUuids(w) && CalledStep(w, a).Some?
    ensures OnlyUuids(CalledStep(w, a).value)
  {
  }

  lemma CallersKeepExecutions(w: World, a: Action)
    requires CallerStep(w, a).Some?
    ensures CallerStep(w, a).value.executions == w.executions
  {
    if IsMove(a) { MoveShape(w, a); }
  }

  lemma OthersKeepExecutions(w: World, a: Action)
    requires CalledStep(w, a).None? && CallerStep(w, a).None? && Step(w, a).Some?
    ensures Step(w, a).value.executions == w.executions
  {
  }

  lemma StepKeepsUuids(w: World, a: Action)
    requires OnlyUuids(w) && Step(w, a).Some?
    ensures OnlyUuids(Step(w, a).value)
  {
    if CalledStep(w, a).Some? { CalledKeepsUuids(w, a); }
    else if CallerStep(w, a).Some? { CallersKeepExecutions(w, a); }
    else { OthersKeepExecutions(w, a); }
  }

  /** The server's handlers run only on requests with a version 4 UUID for their id, whatever any
      client sends. */
  lemma OnlyUuidsAreHandled(honest: set<Key>, run: seq<Action>, w: World, e: Execution)
    requires Exec(Step, Init(honest), run) == Some(w) && e in w.executions && e.dir.ToServer?
    ensures e.req.callId.Uuid4?
  {
    forall v, a | OnlyUuids(v) && Step(v, a).Some? ensures OnlyUuids(Step(v, a).value) {
      StepKeepsUuids(v, a);
    }
    Invariance(Step, OnlyUuids, Init(honest), run);
  }

  /** Such a request is refused: no handler can take it, and all there is to do is to drop it. */
  lemma NonUuidIsRefused(w: World, n: nat)
    requires n < |w.pool| && w.pool[n].Requested? && w.pool[n].dir.ToServer? && !w.pool[n].req.callId.Uuid4?
    ensures forall payload, error :: Step(w, Handle(n, payload, error)).None?
    ensures Step(w, Reject(n)) == Some(Discard(w, n))
  {
  }

  /** Which requests a handler can be run on: at a client any, at the server those with such an id; and
      it can give any answer, which is recorded with the request and carries its id back. */
  lemma HandlesIff(w: World, n: nat, payload: Bytes, error: string)
    requires n < |w.pool| && w.pool[n].Requested?
    ensures Step(w, Handle(n, payload, error)).Some? <==> w.pool[n].dir.ToClient? || w.pool[n].req.callId.Uuid4?
    ensures Step(w, Handle(n, payload, error)).Some? ==>
              var item := w.pool[n]; var resp := Response(item.req.callId, payload, error);
              && Step(w, Handle(n, payload, error)).value.executions
                 == w.executions + [Execution(item.dir, item.key, item.req, resp)]
              && Replying(item.dir, item.key, resp) in Step(w, Handle(n, payload, error)).value.pool
  {
    if Step(w, Handle(n, payload, error)).Some? {
      HandleShape(w, Handle(n, payload, error));
      var pool := Step(w, Handle(n, payload, error)).value.pool;
      assert pool[|pool| - 1] in pool;
    }
  }

  /** Requests read by a client, and handler runs on them, are those of honest clients. */
  ghost predicate HonestHandle(w: World) {
    && (forall item <- w.pool :: item.Requested? && item.dir.ToClient? ==> item.key in w.honest)
    && (forall e <- w.executions :: e.dir.ToClient? ==> e.key in w.honest)
  }

  /** Steps that run no handler and read no request. */
  ghost predicate NoNewRequests(w: World, w': World) {
    && w'.executions == w.executions && w'.honest == w.honest
    && (forall item <- w'.pool :: item.Requested? ==> item in w.pool)
  }

  lemma HandleKeepsHonestHandle(w: World, a: Action)
    requires HonestHandle(w) && a.Handle? && CalledStep(w, a).Some?
    ensures HonestHandle(CalledStep(w, a).value)
  {
    HandleShape(w, a);
    assert w.pool[a.n] in w.pool;
  }

  lemma OtherCalledNoRequests(w: World, a: Action)
    requires !a.Handle? && CalledStep(w, a).Some?
    ensures NoNewRequests(w, CalledStep(w, a).value)
  {
    if a.RouteReply? { RouteReplyShape(w, a); }
  }

  lemma CalledKeepsHonestHandle(w: World, a: Action)
    requires HonestHandle(w) && CalledStep(w, a).Some?
    ensures HonestHandle(CalledStep(w, a).value)
  {
    if a.Handle? { HandleKeepsHonestHandle(w, a); } else { OtherCalledNoRequests(w, a); }
  }

  lemma NetworkKeepsHonestHandle(w: World, a: Action)
    requires HonestHandle(w) && NetworkStep(w, a).Some?
    ensures HonestHandle(NetworkStep(w, a).value)
  {
  }

  lemma CallerKeepsHonestHandle(w: World, a: Action)
    requires HonestHandle(w) && CallerStep(w, a).Some?
    ensures HonestHandle(CallerStep(w, a).value)
  {
  }

  lemma LookupNoRequests(w: World, a: Action)
    requires a.Lookup? && ResponseStep(w, a).Some?
    ensures NoNewRequests(w, ResponseStep(w, a).value)
  {
    if w.pool[a.n].dir.ToServer? { ClientLookupShape(w, a); } else { ServerLookupShape(w, a); }
  }

  lemma SendNoRequests(w: World, a: Action)
    requires !a.Lookup? && ResponseStep(w, a).Some?
    ensures NoNewRequests(w, ResponseStep(w, a).value)
  {
  }

  lemma ResponseKeepsHonestHandle(w: World, a: Action)
    requires HonestHandle(w) && ResponseStep(w, a).Some?
    ensures HonestHandle(ResponseStep(w, a).value)
  {
    if a.Lookup? { LookupNoRequests(w, a); } else { SendNoRequests(w, a); }
  }

  /** This library's client handlers run at honest clients only. */
  lemma OnlyHonestClientsHandle(honest: set<Key>, run: seq<Action>, w: World, e: Execution)
    requires Exec(Step, Init(honest), run) == Some(w) && e in w.executions && e.dir.ToClient?
    ensures e.key in honest
  {
    forall v, a | HonestHandle(v) && Step(v, a).Some? ensures HonestHandle(Step(v, a).value) {
      if CalledStep(v, a).Some? { CalledKeepsHonestHandle(v, a); }
      else if NetworkStep(v, a).Some? { NetworkKeepsHonestHandle(v, a); }
      else if CallerStep(v, a).Some? { CallerKeepsHonestHandle(v, a); }
      else { ResponseKeepsHonestHandle(v, a); }
    }
    Invariance(Step, HonestHandle, Init(honest), run);
    Reached(honest, run, w);
  }

  ghost predicate UuidCalls(w: World) {
    forall id <- w.calls :: id.Uuid4?
  }

  lemma CallerKeepsUuidCalls(w: World, a: Action)
    requires UuidCalls(w) && CallerStep(w, a).Some?
    ensures UuidCalls(CallerStep(w, a).value)
  {
  }

  lemma OthersAddNoCalls(w: World, a: Action)
    requires CallerStep(w, a).None? && Step(w, a).Some?
    ensures forall id <- Step(w, a).value.calls :: id in w.calls
  {
  }

  /** Its own side's calls are never refused for that: all of them carry such ids. */
  lemma CallsCarryUuids(honest: set<Key>, run: seq<Action>, w: World, id: CallId)
    requires Exec(Step, Init(honest), run) == Some(w) && id in w.calls
    ensures id.Uuid4?
  {
    forall v, a | UuidCalls(v) && Step(v, a).Some? ensures UuidCalls(Step(v, a).value) {
      if CallerStep(v, a).Some? { CallerKeepsUuidCalls(v, a); } else { OthersAddNoCalls(v, a); }
    }
    Invariance(Step, UuidCalls, Init(honest), run);
  }

  // ---- The connections in use ----------------------------------------------------------------

  /** What one event makes of the connection in use for a key, at the server or at its client. */
  function ConnAfter(a: Action, atServer: bool, key: Key, was: Option<Connection>): Option<Connection> {
    match a
    case Accept(conn) => if atServer && conn.owner == key then Some(conn) else was
    case Unregister(k) => if atServer && k == key then None else was
    case Connect(conn) => if !atServer && conn.owner == key then Some(conn) else was
    case Disconnect(k) => if !atServer && k == key then None else was
    case _ => was
  }

  /** The connection opened last for a key, unless it has been closed since. */
  function Latest(run: seq<Action>, atServer: bool, key: Key): Option<Connection> {
    if run == [] then None
    else ConnAfter(run[|run| - 1], atServer, key, Latest(run[..|run| - 1], atServer, key))
  }

  function InUse(w: World, atServer: bool, key: Key): Option<Connection> {
    var conns := if atServer then w.serverConn else w.clientConn;
    if key in conns then Some(conns[key]) else None
  }

  ghost predicate UsesLatest(done: seq<Action>, w: World) {
    forall atServer, key :: InUse(w, atServer, key) == Latest(done, atServer, key)
  }

  lemma NetworkUsesLatest(w: World, a: Action, atServer: bool, key: Key)
    requires NetworkStep(w, a).Some?
    ensures InUse(NetworkStep(w, a).value, atServer, key) == ConnAfter(a, atServer, key, InUse(w, atServer, key))
  {
  }

  lemma CallersLeaveConns(w: World, a: Action)
    requires CallerStep(w, a).Some?
    ensures SameConns(w, CallerStep(w, a).value)
  {
    if IsMove(a) { MoveShape(w, a); }
  }

  lemma CalledLeavesConns(w: World, a: Action)
    requires CalledStep(w, a).Some?
    ensures SameConns(w, CalledStep(w, a).value)
  {
  }

  lemma ResponsesLeaveConns(w: World, a: Action)
    requires ResponseStep(w, a).Some?
    ensures SameConns(w, ResponseStep(w, a).value)
  {
  }

  lemma NextInUse(w: World, a: Action, atServer: bool, key: Key)
    requires Step(w, a).Some?
    ensures InUse(Step(w, a).value, atServer, key) == ConnAfter(a, atServer, key, InUse(w, atServer, key))
  {
    if NetworkStep(w, a).Some? { NetworkUsesLatest(w, a, atServer, key); }
    else if CallerStep(w, a).Some? { CallersLeaveConns(w, a); }
    else if CalledStep(w, a).Some? { CalledLeavesConns(w, a); }
    else { ResponsesLeaveConns(w, a); }
  }

  lemma UsesLatestStep(done: seq<Action>, w: World, a: Action)
    requires UsesLatest(done, w) && Step(w, a).Some?
    ensures UsesLatest(done + [a], Step(w, a).value)
  {
    forall atServer, key
      ensures InUse(Step(w, a).value, atServer, key) == Latest(done + [a], atServer, key)
    {
      assert (done + [a])[..|done|] == done;
      NextInUse(w, a, atServer, key);
    }
  }

  lemma InUseIsLatest(honest: set<Key>, run: seq<Action>, w: World)
    requires Exec(Step, Init(honest), run) == Some(w)
    ensures UsesLatest(run, w)
  {
    forall done, v, a | UsesLatest(done, v) && Step(v, a).Some? ensures UsesLatest(done + [a], Step(v, a).value) {
      UsesLatestStep(done, v, a);
    }
    InvarianceWithRun(Step, UsesLatest, Init(honest), run);
  }

  /** A call can always make the move that its place in Invoke allows. */
  lemma MovesEnabled(w: World, a: Action)
    requires IsMove(a) && a.id in w.calls && CanMove(w.calls[a.id], a) && MuFree(w, w.calls[a.id].dir)
    ensures Step(w, a).Some? && Step(w, a) == CallerStep(w, a)
  {
  }

  /** Over every run, a request goes out on the connection of its peer opened last and not closed
      since, and without one the call fails at once. */
  lemma RequestsTakeLatestConnection(honest: set<Key>, run: seq<Action>, w: World, id: CallId)
    requires Exec(Step, Init(honest), run) == Some(w)
    requires id in w.calls && w.calls[id].pc.Registered? && MuFree(w, w.calls[id].dir)
    ensures Step(w, Route(id)).Some? && id in Step(w, Route(id)).value.calls
    ensures var call := w.calls[id]; var conn := Latest(run, call.dir.ToClient?, call.key);
            Step(w, Route(id)).value.calls[id].pc
            == if conn.Some? then Routed(conn.value)
               else if call.dir.ToServer? then Leaving(Failed) else Done(Failed)
  {
    InUseIsLatest(honest, run, w);
    var call := w.calls[id];
    assert InUse(w, call.dir.ToClient?, call.key) == Latest(run, call.dir.ToClient?, call.key);
    MovesEnabled(w, Route(id));
    MoveShape(w, Route(id));
  }

  predicate IsAt(w: World, id: CallId, pc: Pc) {
    id in w.calls && w.calls[id].pc == pc
  }

  predicate EndsAt(w: World, id: CallId, outcome: Outcome) {
    IsAt(w, id, Leaving(outcome)) || IsAt(w, id, Done(outcome))
  }

  /** Losing its connection makes a call that is about to look it up fail. */
  lemma LostThenFails(w: World, id: CallId)
    requires id in w.calls && w.calls[id].pc.Registered? && MuFree(w, w.calls[id].dir)
    ensures var call := w.calls[id];
            var lose := if call.dir.ToServer? then Disconnect(call.key) else Unregister(call.key);
            Step(w, lose).Some? && Step(Step(w, lose).value, Route(id)).Some?
            && EndsAt(Step(Step(w, lose).value, Route(id)).value, id, Failed)
  {
    var call := w.calls[id];
    var w1 := Step(w, if call.dir.ToServer? then Disconnect(call.key) else Unregister(call.key)).value;
    MovesEnabled(w1, Route(id));
    MoveShape(w1, Route(id));
  }

  /** And a new one is taken at once. */
  lemma GainedThenRoutes(w: World, id: CallId, conn: Connection)
    requires id in w.calls && w.calls[id].pc.Registered? && MuFree(w, w.calls[id].dir)
    requires conn.owner == w.calls[id].key
    ensures var gain := if w.calls[id].dir.ToServer? then Connect(conn) else Accept(conn);
            Step(w, gain).Some? && Step(Step(w, gain).value, Route(id)).Some?
            && IsAt(Step(Step(w, gain).value, Route(id)).value, id, Routed(conn))
  {
    var w1 := Step(w, if w.calls[id].dir.ToServer? then Connect(conn) else Accept(conn)).value;
    MovesEnabled(w1, Route(id));
    MoveShape(w1, Route(id));
  }

  // ---- Calls end -----------------------------------------------------------------------------

  /** The steps of one Invoke from registration on, without a send that works. */
  predicate OwnStep(a: Action, id: CallId) {
    a == Register(id) || a == Route(id) || a == WriteFails(id) || a == Timeout(id) || a == Remove(id)
  }

  function EndStep(id: CallId, pc: Pc): Action {
    match pc
    case Built => Register(id)
    case Registered => Route(id)
    case Routed(_) => WriteFails(id)
    case Written => Timeout(id)
    case _ => Remove(id)
  }

  function StepsToEnd(pc: Pc): nat {
    match pc
    case Built => 4
    case Registered => 3
    case Routed(_) => 2
    case Written => 2
    case Done(_) => 0
    case _ => 1
  }

  /** How the call ends if it gets no response. */
  function EndOf(pc: Pc): Outcome {
    match pc
    case Written | Expiring => TimedOut
    case Leaving(outcome) => outcome
    case Done(outcome) => outcome
    case _ => Failed
  }

  /** The call needs no lock that is held, and waits for no response. */
  ghost predicate CanGoOn(w: World, id: CallId) {
    && id in w.calls && MuFree(w, w.calls[id].dir)
    && (w.calls[id].pc.Written? ==> w.calls[id].ctxDone)
  }

  lemma EndStepAllowed(id: CallId, call: Call)
    requires !call.pc.Done? && (call.pc.Written? ==> call.ctxDone)
    ensures var a := EndStep(id, call.pc); IsMove(a) && OwnStep(a, id) && a.id == id && CanMove(call, a)
  {
  }

  lemma EndStepNearer(w: World, id: CallId, call: Call)
    requires !call.pc.Done?
    ensures var call' := NextCall(w, call, EndStep(id, call.pc));
            && StepsToEnd(call'.pc) < StepsToEnd(call.pc) && EndOf(call'.pc) == EndOf(call.pc)
            && !call'.pc.Written? && call'.dir == call.dir
  {
  }

  lemma EndStepEnds(w: World, id: CallId)
    requires CanGoOn(w, id) && !w.calls[id].pc.Done?
    ensures Step(w, EndStep(id, w.calls[id].pc)).Some? && OwnStep(EndStep(id, w.calls[id].pc), id)
    ensures var w' := Step(w, EndStep(id, w.calls[id].pc)).value;
            && CanGoOn(w', id) && w'.pool == w.pool && w'.executions == w.executions
            && StepsToEnd(w'.calls[id].pc) < StepsToEnd(w.calls[id].pc)
            && EndOf(w'.calls[id].pc) == EndOf(w.calls[id].pc)
  {
    var a := EndStep(id, w.calls[id].pc);
    EndStepAllowed(id, w.calls[id]);
    MovesEnabled(w, a);
    MoveShape(w, a);
    EndStepNearer(w, id, w.calls[id]);
  }

  lemma {:induction false} EndsAlone(w: World, id: CallId) returns (more: seq<Action>, w': World)
    requires CanGoOn(w, id)
    ensures Exec(Step, w, more) == Some(w') && forall a <- more :: OwnStep(a, id)
    ensures id in w'.calls && w'.calls[id].pc == Done(EndOf(w.calls[id].pc))
    ensures w'.pool == w.pool && w'.executions == w.executions
    decreases if id in w.calls then StepsToEnd(w.calls[id].pc) else 0
  {
    if w.calls[id].pc.Done? {
      more, w' := [], w;
    } else {
      var a := EndStep(id, w.calls[id].pc);
      EndStepEnds(w, id);
      var rest;
      rest, w' := EndsAlone(Step(w, a).value, id);
      ExecCons(Step, w, a, rest);
      more := [a] + rest;
    }
  }

  /** Every call can end by its own steps, from every reachable state: one that has not been sent by
      failing, with nothing put on any connection, and one that has been by its timeout, once its
      context is done. A call of the server needs s.mu to be free for it, a client's call needs
      nothing at all. */
  lemma CallsCanEnd(honest: set<Key>, run: seq<Action>, w: World, id: CallId)
    requires Exec(Step, Init(honest), run) == Some(w)
    requires id in w.calls && (w.calls[id].dir.ToServer? || w.holder.None?)
    requires w.calls[id].pc.Written? ==> w.calls[id].ctxDone
    ensures exists more, w' ::
              && Exec(Step, w, more) == Some(w') && (forall a <- more :: OwnStep(a, id))
              && id in w'.calls && w'.calls[id].pc == Done(EndOf(w.calls[id].pc))
              && w'.pool == w.pool && w'.executions == w.executions
  {
    var more, w' := EndsAlone(w, id);
  }
}
