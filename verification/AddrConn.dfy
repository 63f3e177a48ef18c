/**
 The client connection machine of client.go: connect, resetTransport, the afterWritePump callback
 of every transport, teardown, and the listener that publishes states, interleaved.

 A step is one critical section of ac.mu up to its blocking channel send, the send itself, the
 rest of the section with the unlock, or one event between sections. Cancelling the parent context
 cancels the connection's own. Dialling and timers finish with either result at any time.
 */
module AddrConn {
  import opened Runs
  import opened Connectivity

  datatype Owner = ByDial | ByLoop | ByCallback(g: nat) | ByTeardown(t: nat)

  /** connect, called once by Dial. */
  datatype DialPc = Calling | Marking | Spawning | Finished

  /** resetTransport. Transports are numbered in the order of their creation. */
  datatype LoopPc =
    | NotStarted
    | Top                     // about to take ac.mu
    | Resetting               // holds ac.mu: transport cleared, Connecting set, dialling
    | Failed                  // dial failed, about to take ac.mu
    | MarkingFailed           // holds ac.mu
    | Backoff                 // waits for the timer or the context
    | Created(g: nat)         // dialled, about to take ac.mu
    | Attaching(g: nat)       // holds ac.mu: transport and Ready set
    | Awaiting(g: nat)        // waits for the reconnect event of g or the context
    | Exited

  /** afterWritePump of one transport; Pumping while its write pump still runs. */
  datatype CallbackPc = Pumping | Wanting | Updating | Firing | Fired

  datatype Transport = Transport(callback: CallbackPc, closes: nat)

  datatype TeardownPc =
    | Entering
    | ShuttingDown(cur: Option<nat>)   // holds ac.mu
    | Closing(cur: Option<nat>)        // about to close what it took
    | Joining(cur: Option<nat>)        // waits for the pumps and the loop
    | Returned

  datatype ListenerPc = Receiving | Applying(s: State) | Stopped

  datatype Conn = Conn(
    mu: Option<Owner>,
    state: State,
    transport: Option<nat>,
    outbox: Option<State>,            // the value the holder of ac.mu is blocked sending
    acDone: bool,
    ccDone: bool,
    dial: DialPc,
    loop: LoopPc,
    transports: seq<Transport>,
    teardowns: map<nat, TeardownPc>,
    listener: ListenerPc,
    mgr: Manager,
    states: seq<State>,               // every state the connection has had
    published: seq<State>)            // every state the manager has had

  const INIT := Conn(None, Idle, None, None, false, false, Calling, NotStarted, [], map[], Receiving,
                     NEW_MANAGER, [Idle], [Idle])

  datatype Action =
    | DialEnter | DialLeave | DialSpawn
    | LoopEnter | LoopDialled(ok: bool) | LoopFailEnter | LoopFailLeave | LoopTimer | LoopCancelled
    | LoopAttach | LoopAttachLeave | LoopReconnect
    | PumpExit(g: nat) | CallbackEnter(g: nat) | CallbackLeave(g: nat) | CallbackFire(g: nat)
    | TeardownCall(t: nat) | TeardownEnter(t: nat) | TeardownLeave(t: nat) | TeardownClose(t: nat)
    | TeardownReturn(t: nat)
    | Deliver | Drop | ListenerApply | ListenerStop
    | CancelConn | CancelParent

  /** updateConnectivityState up to its select. */
  function Update(c: Conn, s: State): Conn {
    if c.state == s then c else c.(state := s, outbox := Some(s), states := c.states + [s])
  }

  function Lock(c: Conn, o: Owner): Conn {
    c.(mu := Some(o))
  }

  function Callback(c: Conn, g: nat): Option<CallbackPc> {
    if g < |c.transports| then Some(c.transports[g].callback) else None
  }

  function SetCallback(c: Conn, g: nat, pc: CallbackPc): Conn
    requires g < |c.transports|
  {
    c.(transports := c.transports[g := c.transports[g].(callback := pc)])
  }

  function DialStep(c: Conn, a: Action): Option<Conn> {
    match a
    case DialEnter =>
      if c.dial != Calling || c.mu.Some? then None
      else if c.state != Idle then Some(c.(dial := Finished))
      else Some(Lock(Update(c, Connecting), ByDial).(dial := Marking))
    case DialLeave =>
      if c.dial != Marking || c.outbox.Some? then None else Some(c.(dial := Spawning, mu := None))
    case DialSpawn =>
      if c.dial != Spawning then None else Some(c.(dial := Finished, loop := Top))
    case _ => None
  }

  function LoopStep(c: Conn, a: Action): Option<Conn> {
    match a
    case LoopEnter =>
      if c.loop != Top || c.mu.Some? then None
      else if c.state == Shutdown then Some(c.(loop := Exited))
      else Some(Lock(Update(c.(transport := None), Connecting), ByLoop).(loop := Resetting))
    case LoopDialled(ok) =>
      if c.loop != Resetting || c.outbox.Some? then None
      else if ok then
        Some(c.(mu := None, loop := Created(|c.transports|), transports := c.transports + [Transport(Pumping, 0)]))
      else Some(c.(mu := None, loop := Failed))
    case LoopFailEnter =>
      if c.loop != Failed || c.mu.Some? then None
      else if c.state == Shutdown then Some(c.(loop := Exited))
      else Some(Lock(Update(c, TransientFailure), ByLoop).(loop := MarkingFailed))
    case LoopFailLeave =>
      if c.loop != MarkingFailed || c.outbox.Some? then None else Some(c.(mu := None, loop := Backoff))
    case LoopTimer =>
      if c.loop != Backoff then None else Some(c.(loop := Top))
    case LoopCancelled =>
      if !(c.loop.Backoff? || c.loop.Awaiting?) || !c.acDone then None else Some(c.(loop := Exited))
    case LoopAttach =>
      if !c.loop.Created? || c.mu.Some? then None
      else if c.state == Shutdown then Some(c.(loop := Exited))
      else Some(Lock(Update(c.(transport := Some(c.loop.g)), Ready), ByLoop).(loop := Attaching(c.loop.g)))
    case LoopAttachLeave =>
      if !c.loop.Attaching? || c.outbox.Some? then None else Some(c.(mu := None, loop := Awaiting(c.loop.g)))
    case LoopReconnect =>
      if !c.loop.Awaiting? || Callback(c, c.loop.g) != Some(Fired) then None else Some(c.(loop := Top))
    case _ => None
  }

  function CallbackStep(c: Conn, a: Action): Option<Conn> {
    match a
    case PumpExit(g) =>
      if Callback(c, g) != Some(Pumping) then None else Some(SetCallback(c, g, Wanting))
    case CallbackEnter(g) =>
      if Callback(c, g) != Some(Wanting) || c.mu.Some? then None
      else Some(SetCallback(Lock(if c.state == Ready then Update(c, Idle) else c, ByCallback(g)), g, Updating))
    case CallbackLeave(g) =>
      if Callback(c, g) != Some(Updating) || c.outbox.Some? then None
      else Some(SetCallback(c.(mu := None), g, Firing))
    case CallbackFire(g) =>
      if Callback(c, g) != Some(Firing) then None else Some(SetCallback(c, g, Fired))
    case _ => None
  }

  function TeardownStep(c: Conn, a: Action): Option<Conn> {
    match a
    case TeardownCall(t) =>
      if t in c.teardowns then None else Some(c.(teardowns := c.teardowns[t := Entering]))
    case TeardownEnter(t) =>
      if t !in c.teardowns || c.teardowns[t] != Entering || c.mu.Some? then None
      else if c.state == Shutdown then Some(c.(acDone := true, teardowns := c.teardowns[t := Returned]))
      else
        Some(Lock(Update(c.(acDone := true, transport := None), Shutdown), ByTeardown(t))
             .(teardowns := c.teardowns[t := ShuttingDown(c.transport)]))
    case TeardownLeave(t) =>
      if t !in c.teardowns || !c.teardowns[t].ShuttingDown? || c.outbox.Some? then None
      else Some(c.(mu := None, teardowns := c.teardowns[t := Closing(c.teardowns[t].cur)]))
    case TeardownClose(t) =>
      if t !in c.teardowns || !c.teardowns[t].Closing? then None
      else
        var cur := c.teardowns[t].cur;
        var c' := c.(teardowns := c.teardowns[t := Joining(cur)]);
        if cur.Some? && cur.value < |c.transports| then
          var tr := c.transports[cur.value];
          Some(c'.(transports := c.transports[cur.value := tr.(closes := tr.closes + 1)]))
        else Some(c')
    case TeardownReturn(t) =>
      if t !in c.teardowns || !c.teardowns[t].Joining? then None
      else
        var cur := c.teardowns[t].cur;
        if (c.loop.Exited? || c.loop.NotStarted?) && (cur.Some? ==> Callback(c, cur.value) == Some(Fired))
        then Some(c.(teardowns := c.teardowns[t := Returned])) else None
    case _ => None
  }

  /** The two ways out of the select in updateConnectivityState, and the listener at the other end. */
  function PublishStep(c: Conn, a: Action): Option<Conn> {
    match a
    case Deliver =>
      if c.outbox.None? || c.listener != Receiving then None
      else Some(c.(outbox := None, listener := Applying(c.outbox.value)))
    case Drop =>
      if c.outbox.None? || !c.acDone then None else Some(c.(outbox := None))
    case ListenerApply =>
      if !c.listener.Applying? then None
      else
        var s := c.listener.s;
        Some(c.(listener := Receiving, mgr := c.mgr.Update(s),
                published := if c.mgr.state == s then c.published else c.published + [s]))
    case ListenerStop =>
      if c.listener != Receiving || !c.ccDone then None else Some(c.(listener := Stopped))
    case CancelConn => Some(c.(acDone := true))
    case CancelParent => Some(c.(acDone := true, ccDone := true))
    case _ => None
  }

  function Step(c: Conn, a: Action): Option<Conn> {
    if a.DialEnter? || a.DialLeave? || a.DialSpawn? then DialStep(c, a)
    else if a.PumpExit? || a.CallbackEnter? || a.CallbackLeave? || a.CallbackFire? then CallbackStep(c, a)
    else if a.TeardownCall? || a.TeardownEnter? || a.TeardownLeave? || a.TeardownClose? || a.TeardownReturn? then
      TeardownStep(c, a)
    else if a.Deliver? || a.Drop? || a.ListenerApply? || a.ListenerStop? || a.CancelConn? || a.CancelParent? then
      PublishStep(c, a)
    else LoopStep(c, a)
  }
}
