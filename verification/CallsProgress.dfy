/** What calls can do: any answer can come back, in both directions, and a timeout at the wrong
    moment can lock the server. Each is shown by a run with one honest client. */
module CallsProgress {
  import opened Runs
  import opened Credentials
  import opened MethodCalls
  import opened Calls
  import opened CallsSafety
  import opened CallsTheorems

  lemma Then(honest: set<Key>, run: seq<Action>, w: World, a: Action) returns (run': seq<Action>, w': World)
    requires Exec(Step, Init(honest), run) == Some(w) && Step(w, a).Some?
    ensures w' == Step(w, a).value
    ensures Exec(Step, Init(honest), run') == Some(w')
  {
    run', w' := run + [a], Step(w, a).value;
    ExecSnoc(Step, Init(honest), run, w, a);
  }

  /** One exchange: who is called by or for the client with this key, what is asked and answered. */
  datatype Exchange = Exchange(dir: Direction, key: Key, req: Request, resp: Response)

  ghost predicate Fits(x: Exchange) {
    x.req.callId.Uuid4? && x.resp.callId == x.req.callId
  }

  function Conn(x: Exchange): Connection {
    Connection(x.key, 0)
  }

  function Slot(x: Exchange): Table {
    map[(x.key, x.req.callId) := Chan(x.req.callId)]
  }

  /** The world in the middle of the exchange, the call registered. */
  function Scene(x: Exchange, pc: Pc, pool: seq<Item>, executions: seq<Execution>): World {
    World({x.key}, map[x.key := Conn(x)], map[x.key := Conn(x)],
          map[x.req.callId := Call(x.dir, x.key, x.req.rpc, x.req.args, pc, false)],
          if x.dir.ToServer? then Slot(x) else map[],
          if x.dir.ToClient? then Slot(x) else map[],
          None, pool, executions)
  }

  function Recorded(x: Exchange): seq<Execution> {
    [Execution(x.dir, x.key, x.req, x.resp)]
  }

  function RequestOnWire(x: Exchange): Item {
    InFlight(Conn(x), x.dir.ToServer?, RequestFrame(x.req))
  }

  function ResponseOnWire(x: Exchange): Item {
    InFlight(Conn(x), x.dir.ToClient?, ResponseFrame(x.resp))
  }

  lemma ConnectBoth(x: Exchange) returns (run: seq<Action>, w: World)
    ensures Exec(Step, Init({x.key}), run) == Some(w)
    ensures w == Init({x.key}).(serverConn := map[x.key := Conn(x)], clientConn := map[x.key := Conn(x)])
  {
    run, w := [], Init({x.key});
    run, w := Then({x.key}, run, w, Connect(Conn(x)));
    run, w := Then({x.key}, run, w, Accept(Conn(x)));
  }

  lemma BuildCall(x: Exchange) returns (run: seq<Action>, w: World)
    requires Fits(x)
    ensures Exec(Step, Init({x.key}), run) == Some(w)
    ensures w == Scene(x, Built, [], []).(clientTable := map[], serverTable := map[])
  {
    run, w := ConnectBoth(x);
    run, w := Then({x.key}, run, w, Invoke(x.req.callId, x.dir, x.key, x.req.rpc, x.req.args));
  }

  lemma MakeCall(x: Exchange) returns (run: seq<Action>, w: World)
    requires Fits(x)
    ensures Exec(Step, Init({x.key}), run) == Some(w) && w == Scene(x, Registered, [], [])
  {
    run, w := BuildCall(x);
    run, w := Then({x.key}, run, w, Register(x.req.callId));
  }

  lemma SendRequest(x: Exchange) returns (run: seq<Action>, w: World)
    requires Fits(x)
    ensures Exec(Step, Init({x.key}), run) == Some(w) && w == Scene(x, Written, [RequestOnWire(x)], [])
  {
    run, w := MakeCall(x);
    run, w := Then({x.key}, run, w, Route(x.req.callId));
    run, w := Then({x.key}, run, w, Write(x.req.callId));
  }

  lemma HandleRequest(x: Exchange) returns (run: seq<Action>, w: World)
    requires Fits(x)
    ensures Exec(Step, Init({x.key}), run) == Some(w)
    ensures w == Scene(x, Written, [Replying(x.dir, x.key, x.resp)], Recorded(x))
  {
    run, w := SendRequest(x);
    run, w := Then({x.key}, run, w, Deliver(0));
    assert w.pool == [Requested(x.dir, x.key, x.req)];
    run, w := Then({x.key}, run, w, Handle(0, x.resp.payload, x.resp.error));
    assert w.pool == [Replying(x.dir, x.key, x.resp)];
  }

  lemma SendReply(x: Exchange) returns (run: seq<Action>, w: World)
    requires Fits(x)
    ensures Exec(Step, Init({x.key}), run) == Some(w) && w == Scene(x, Written, [ResponseOnWire(x)], Recorded(x))
  {
    run, w := HandleRequest(x);
    run, w := Then({x.key}, run, w, RouteReply(0));
    assert w.pool == [ReplyRouted(x.dir, x.key, Conn(x), x.resp)];
    run, w := Then({x.key}, run, w, WriteReply(0));
    assert w.pool == [ResponseOnWire(x)];
  }

  lemma ReceiveReply(x: Exchange) returns (run: seq<Action>, w: World)
    requires Fits(x)
    ensures Exec(Step, Init({x.key}), run) == Some(w)
    ensures w == Scene(x, Written, [Received(x.dir, x.key, x.resp)], Recorded(x))
  {
    run, w := SendReply(x);
    run, w := Then({x.key}, run, w, Deliver(0));
    assert w.pool == [Received(x.dir, x.key, x.resp)];
  }

  lemma ClientLooksUp(x: Exchange) returns (run: seq<Action>, w: World)
    requires Fits(x) && x.dir.ToServer?
    ensures Exec(Step, Init({x.key}), run) == Some(w)
    ensures w == Scene(x, Written, [Sending(x.key, x.resp, Chan(x.req.callId))], Recorded(x))
  {
    run, w := ReceiveReply(x);
    run, w := Then({x.key}, run, w, Lookup(0));
    assert w.pool == [Sending(x.key, x.resp, Chan(x.req.callId))];
  }

  lemma ClientTakesReply(x: Exchange) returns (run: seq<Action>, w: World)
    requires Fits(x) && x.dir.ToServer?
    ensures Exec(Step, Init({x.key}), run) == Some(w)
    ensures x.req.callId in w.calls && w.calls[x.req.callId].pc == Done(Answered(x.key, x.resp))
    ensures w.clientTable == map[]
  {
    run, w := ClientLooksUp(x);
    run, w := Then({x.key}, run, w, ClientSend(0));
    run, w := Then({x.key}, run, w, Remove(x.req.callId));
  }

  /** The server holds s.mu to hand the response over. */
  lemma ServerLooksUp(x: Exchange) returns (run: seq<Action>, w: World)
    requires Fits(x) && x.dir.ToClient?
    ensures Exec(Step, Init({x.key}), run) == Some(w)
    ensures w == Scene(x, Written, [], Recorded(x)).(holder := Some(Holder(x.key, x.resp, Chan(x.req.callId))))
  {
    run, w := ReceiveReply(x);
    run, w := Then({x.key}, run, w, Lookup(0));
    assert w.pool == [];
  }

  lemma ServerTakesReply(x: Exchange) returns (run: seq<Action>, w: World)
    requires Fits(x) && x.dir.ToClient?
    ensures Exec(Step, Init({x.key}), run) == Some(w)
    ensures x.req.callId in w.calls && w.calls[x.req.callId].pc == Done(Answered(x.key, x.resp))
    ensures w.serverTable == map[]
  {
    run, w := ServerLooksUp(x);
    run, w := Then({x.key}, run, w, ServerSend);
  }

  /** Correlation is not empty: for every direction, request and answer to it, an error included,
      some run has the call return exactly that answer. */
  lemma AnyAnswerCanComeBack(x: Exchange)
    requires Fits(x)
    ensures exists run, w ::
              && Exec(Step, Init({x.key}), run) == Some(w)
              && x.req.callId in w.calls && w.calls[x.req.callId].pc == Done(Answered(x.key, x.resp))
  {
    if x.dir.ToServer? {
      var run, w := ClientTakesReply(x);
    } else {
      var run, w := ServerTakesReply(x);
    }
  }

  lemma LookupThenTimeout(x: Exchange) returns (run: seq<Action>, w: World)
    requires Fits(x) && x.dir.ToClient?
    ensures Exec(Step, Init({x.key}), run) == Some(w) && Stuck(w, x.req.callId)
  {
    run, w := ServerLooksUp(x);
    run, w := Then({x.key}, run, w, Expire(x.req.callId));
    run, w := Then({x.key}, run, w, Timeout(x.req.callId));
  }

  /** With timeouts the server can lock itself up for good: the response to any call to a client is
      looked up just before the context of the call ends. */
  lemma TimeoutCanLockServer(x: Exchange)
    requires Fits(x) && x.dir.ToClient?
    ensures exists run, w :: Exec(Step, Init({x.key}), run) == Some(w) && w.holder.Some? && !CanComeFree(w)
  {
    var run, w := LookupThenTimeout(x);
    StuckCannotComeFree(w, x.req.callId);
  }
}
