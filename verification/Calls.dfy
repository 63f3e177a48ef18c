/**
 Calls in both directions between one server and any number of clients: both Invokes, both
 handleMessageRequest and handleMessageResponse, the pending-call tables, and connections that
 come, go and lose frames.

 Some clients are honest: they run client.go. The others put any frame at all on their own
 connections. Call ids are fresh; frames stand for their encodings. A connection belongs to the
 peer whose key authenticated it and delivers each frame at most once, in any order. Frames on the
 wire and goroutines at work on one message are the items of one pool.
 */
module Calls {
  import opened Runs
  import opened Credentials
  import opened MethodCalls

  type Key = StaticSizedPublicKey
  type Bytes = seq<bv8>

  /** Who is being called. */
  datatype Direction = ToServer | ToClient

  datatype Request = Request(callId: CallId, rpc: string, args: Bytes)
  datatype Response = Response(callId: CallId, payload: Bytes, error: string)
  datatype Frame = RequestFrame(req: Request) | ResponseFrame(resp: Response) | GarbageFrame

  datatype Connection = Connection(owner: Key, serial: nat)

  datatype Outcome = Answered(from: Key, resp: Response) | TimedOut | Failed

  datatype Pc =
    | Built
    | Registered
    | Routed(conn: Connection)
    | Written                        // in the select on the response channel and the context
    | Expiring                       // server: timed out, about to take s.mu
    | Leaving(outcome: Outcome)      // client: about to run the deferred removal
    | Done(outcome: Outcome)

  /** An Invoke: by the client with this key, or by the server addressing it. */
  datatype Call = Call(dir: Direction, key: Key, rpc: string, args: Bytes, pc: Pc, ctxDone: bool)

  datatype Item =
    | InFlight(conn: Connection, toServer: bool, frame: Frame)
    | Requested(dir: Direction, key: Key, req: Request)                     // before the handler
    | Replying(dir: Direction, key: Key, resp: Response)                    // after the handler
    | ReplyRouted(dir: Direction, key: Key, conn: Connection, resp: Response)
    | Received(dir: Direction, key: Key, resp: Response)                    // before the lookup
    | Sending(key: Key, resp: Response, ch: Chan)                           // client: in the select

  /** A response handler of the server inside its section of s.mu, at the channel send. */
  datatype Holder = Holder(key: Key, resp: Response, ch: Chan)

  /** One run of a handler: the called side's record of the request and what it answered. */
  datatype Execution = Execution(dir: Direction, key: Key, req: Request, resp: Response)

  datatype World = World(
    honest: set<Key>,
    serverConn: map<Key, Connection>,
    clientConn: map<Key, Connection>,
    calls: map<CallId, Call>,
    clientTable: Table,              // the methodCalls of all clients, by client
    serverTable: Table,
    holder: Option<Holder>,          // who holds s.mu across a channel send
    pool: seq<Item>,
    executions: seq<Execution>)

  function Init(honest: set<Key>): World {
    World(honest, map[], map[], map[], map[], map[], None, [], [])
  }

  datatype Action =
    // the caller
    | Invoke(id: CallId, dir: Direction, key: Key, rpc: string, args: Bytes)
    | Register(id: CallId) | Route(id: CallId) | Write(id: CallId) | WriteFails(id: CallId)
    | Expire(id: CallId) | Timeout(id: CallId) | Remove(id: CallId)
    // the network
    | Connect(conn: Connection) | Disconnect(key: Key) | Accept(conn: Connection) | Unregister(key: Key)
    | Lose(n: nat) | Inject(conn: Connection, frame: Frame) | Deliver(n: nat)
    // the called side
    | Reject(n: nat) | Handle(n: nat, payload: Bytes, error: string) | RouteReply(n: nat) | WriteReply(n: nat)
    // responses at the caller
    | Lookup(n: nat) | ClientSend(n: nat) | GiveUp(n: nat) | ServerSend

  function SetPc(w: World, id: CallId, pc: Pc): World
    requires id in w.calls
  {
    w.(calls := w.calls[id := w.calls[id].(pc := pc)])
  }

  function Without(pool: seq<Item>, n: nat): seq<Item>
    requires n < |pool|
  {
    pool[..n] + pool[n + 1..]
  }

  /** The item turns into another. */
  function Turn(w: World, n: nat, item: Item): World
    requires n < |w.pool|
  {
    w.(pool := Without(w.pool, n) + [item])
  }

  function Discard(w: World, n: nat): World
    requires n < |w.pool|
  {
    w.(pool := Without(w.pool, n))
  }

  /** The side the caller runs on needs s.mu for registering, routing and removing. */
  predicate MuFree(w: World, dir: Direction) {
    dir.ToClient? ==> w.holder.None?
  }

  function CallerStep(w: World, a: Action): Option<World> {
    match a
    case Invoke(id, dir, key, rpc, args) =>
      if id in w.calls || !id.Uuid4? || (dir.ToServer? && key !in w.honest) then None
      else Some(w.(calls := w.calls[id := Call(dir, key, rpc, args, Built, false)]))
    case Register(id) =>
      if id !in w.calls || w.calls[id].pc != Built || !MuFree(w, w.calls[id].dir) then None
      else
        var call := w.calls[id];
        var w' := SetPc(w, id, Registered);
        if call.dir.ToServer? then Some(w'.(clientTable := w.clientTable[(call.key, id) := Chan(id)]))
        else Some(w'.(serverTable := w.serverTable[(call.key, id) := Chan(id)]))
    case Route(id) =>
      if id !in w.calls || w.calls[id].pc != Registered || !MuFree(w, w.calls[id].dir) then None
      else
        var call := w.calls[id];
        if call.dir.ToServer? then
          Some(SetPc(w, id, if call.key in w.clientConn then Routed(w.clientConn[call.key]) else Leaving(Failed)))
        else
          Some(SetPc(w, id, if call.key in w.serverConn then Routed(w.serverConn[call.key]) else Done(Failed)))
    case Write(id) =>
      if id !in w.calls || !w.calls[id].pc.Routed? then None
      else
        var call := w.calls[id];
        Some(SetPc(w, id, Written).(pool := w.pool +
          [InFlight(call.pc.conn, call.dir.ToServer?, RequestFrame(Request(id, call.rpc, call.args)))]))
    case WriteFails(id) =>
      if id !in w.calls || !w.calls[id].pc.Routed? then None
      else Some(SetPc(w, id, if w.calls[id].dir.ToServer? then Leaving(Failed) else Done(Failed)))
    case Expire(id) =>
      if id !in w.calls then None else Some(w.(calls := w.calls[id := w.calls[id].(ctxDone := true)]))
    case Timeout(id) =>
      if id !in w.calls || w.calls[id].pc != Written || !w.calls[id].ctxDone then None
      else Some(SetPc(w, id, if w.calls[id].dir.ToServer? then Leaving(TimedOut) else Expiring))
    case Remove(id) =>
      if id !in w.calls || !MuFree(w, w.calls[id].dir) then None
      else
        var call := w.calls[id];
        if call.pc.Leaving? then
          Some(SetPc(w, id, Done(call.pc.outcome)).(clientTable := w.clientTable - {(call.key, id)}))
        else if call.pc.Expiring? then
          Some(SetPc(w, id, Done(TimedOut)).(serverTable := w.serverTable - {(call.key, id)}))
        else None
    case _ => None
  }

  function NetworkStep(w: World, a: Action): Option<World> {
    match a
    case Connect(conn) => Some(w.(clientConn := w.clientConn[conn.owner := conn]))
    case Disconnect(key) => Some(w.(clientConn := w.clientConn - {key}))
    case Accept(conn) =>
      if w.holder.Some? then None else Some(w.(serverConn := w.serverConn[conn.owner := conn]))
    case Unregister(key) =>
      if w.holder.Some? then None else Some(w.(serverConn := w.serverConn - {key}))
    case Lose(n) =>
      if n >= |w.pool| || !(w.pool[n].InFlight? || w.pool[n].Replying? || w.pool[n].ReplyRouted?) then None
      else Some(Discard(w, n))
    case Inject(conn, frame) =>
      if conn.owner in w.honest then None else Some(w.(pool := w.pool + [InFlight(conn, true, frame)]))
    case Deliver(n) =>
      if n >= |w.pool| || !w.pool[n].InFlight? then None
      else
        var item := w.pool[n];
        var key := item.conn.owner;
        if !item.toServer && key !in w.honest then Some(Discard(w, n))
        else if item.frame.RequestFrame? then
          Some(Turn(w, n, Requested(if item.toServer then ToServer else ToClient, key, item.frame.req)))
        else if item.frame.ResponseFrame? then
          Some(Turn(w, n, Received(if item.toServer then ToClient else ToServer, key, item.frame.resp)))
        else Some(Discard(w, n))
    case _ => None
  }

  /** Validation fails on an unknown method or, at the server, on an id that is not a UUID; an
      answer carries the request's id back. */
  function CalledStep(w: World, a: Action): Option<World> {
    match a
    case Reject(n) =>
      if n >= |w.pool| || !w.pool[n].Requested? then None else Some(Discard(w, n))
    case Handle(n, payload, error) =>
      if n >= |w.pool| || !w.pool[n].Requested? then None
      else if w.pool[n].dir.ToServer? && !w.pool[n].req.callId.Uuid4? then None
      else
        var item := w.pool[n];
        var resp := Response(item.req.callId, payload, error);
        Some(Turn(w, n, Replying(item.dir, item.key, resp))
             .(executions := w.executions + [Execution(item.dir, item.key, item.req, resp)]))
    case RouteReply(n) =>
      if n >= |w.pool| || !w.pool[n].Replying? then None
      else
        var item := w.pool[n];
        if item.dir.ToServer? then
          if w.holder.Some? then None
          else if item.key !in w.serverConn then Some(Discard(w, n))
          else Some(Turn(w, n, ReplyRouted(item.dir, item.key, w.serverConn[item.key], item.resp)))
        else
          if item.key !in w.clientConn then Some(Discard(w, n))
          else Some(Turn(w, n, ReplyRouted(item.dir, item.key, w.clientConn[item.key], item.resp)))
    case WriteReply(n) =>
      if n >= |w.pool| || !w.pool[n].ReplyRouted? then None
      else Some(Turn(w, n, InFlight(w.pool[n].conn, w.pool[n].dir.ToClient?, ResponseFrame(w.pool[n].resp))))
    case _ => None
  }

  function ResponseStep(w: World, a: Action): Option<World> {
    match a
    case Lookup(n) =>
      if n >= |w.pool| || !w.pool[n].Received? || !MuFree(w, w.pool[n].dir) then None
      else
        var item := w.pool[n];
        var slot := (item.key, item.resp.callId);
        if item.dir.ToServer? then
          if slot in w.clientTable then Some(Turn(w, n, Sending(item.key, item.resp, w.clientTable[slot])))
          else Some(Discard(w, n))
        else
          if slot in w.serverTable then
            Some(Discard(w, n).(holder := Some(Holder(item.key, item.resp, w.serverTable[slot]))))
          else Some(Discard(w, n))
    case ClientSend(n) =>
      if n >= |w.pool| || !w.pool[n].Sending? then None
      else
        var item := w.pool[n];
        var id := item.ch.maker;
        if id !in w.calls || w.calls[id].pc != Written then None
        else Some(SetPc(Discard(w, n), id, Leaving(Answered(item.key, item.resp))))
    case GiveUp(n) =>
      if n >= |w.pool| || !w.pool[n].Sending? then None
      else if w.pool[n].ch.maker in w.calls && w.calls[w.pool[n].ch.maker].ctxDone then Some(Discard(w, n))
      else None
    case ServerSend =>
      if w.holder.None? then None
      else
        var h := w.holder.value;
        var id := h.ch.maker;
        if id !in w.calls || w.calls[id].pc != Written then None
        else Some(SetPc(w, id, Done(Answered(h.key, h.resp)))
                  .(serverTable := w.serverTable - {(h.key, h.resp.callId)}, holder := None))
    case _ => None
  }

  function Step(w: World, a: Action): Option<World> {
    if a.Invoke? || a.Register? || a.Route? || a.Write? || a.WriteFails? || a.Expire? || a.Timeout? || a.Remove? then
      CallerStep(w, a)
    else if a.Reject? || a.Handle? || a.RouteReply? || a.WriteReply? then CalledStep(w, a)
    else if a.Lookup? || a.ClientSend? || a.GiveUp? || a.ServerSend? then ResponseStep(w, a)
    else NetworkStep(w, a)
  }
}
