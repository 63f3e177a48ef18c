/**
 The pumps of one websocket transport, server side and client side: a reader, a writer, and any
 number of Write and Close callers around two channels that are closed at most once and a callback.

 Reads, frame writes, pings and timers of the connection finish with either result at any time.
 One step is one channel operation, one call into the connection, or one critical section.
 */
module Pumps {
  import opened Runs

  type Message = seq<bv8>

  datatype Side = ServerSide | ClientSide

  datatype ReadPc = Reading | Pushing(msg: Message) | ReadEnded

  datatype WritePc =
    | Selecting
    | Accepted(msg: Message)     // received from a Write, not yet handed to the connection
    | Draining                   // close message sent, waits for the reader or a second
    | Returned                   // writePump has returned, its deferred work is next
    | Closed                     // server: start has called Close
    | CalledBack
    | Finished

  datatype WriterPc = Offering | Taken | Refused

  datatype Writer = Writer(msg: Message, ctxDone: bool, pc: WriterPc)

  datatype CloserPc = Calling | Joining | Done

  datatype Transport = Transport(
    side: Side,
    closing: bool,                // server: the guarded state field
    closeConn: nat,               // how often each channel has been closed; twice is a panic
    closeWritePump: nat,
    readPc: ReadPc,
    writePc: WritePc,
    wg: int,                      // client: the pumps still running
    callbacks: nat,
    closeCalls: nat,              // how many Close calls got past their first step
    writers: map<nat, Writer>,
    closers: map<nat, CloserPc>,
    arrived: seq<Message>,        // frames read from the connection, and those passed on
    delivered: seq<Message>,
    takers: seq<nat>,             // the Write calls whose message was accepted, in order,
    accepted: seq<Message>,       // those messages, and the ones handed to the connection
    framed: seq<Message>)

  function Init(side: Side): Transport {
    Transport(side, false, 0, 0, Reading, Selecting, if side.ClientSide? then 2 else 0, 0, 0, map[], map[],
              [], [], [], [], [])
  }

  datatype Action =
    | FrameArrives(m: Message) | ReadFails | Deliver
    | Offer(w: nat, m: Message) | Accept(w: nat) | Refuse(w: nat) | Expire(w: nat)
    | HandOver(ok: bool) | Ping(ok: bool) | SeeReaderGone | SeeClose(ok: bool) | Drained
    | SelfClose | Callback | Finish
    | CallClose(c: nat) | DoClose(c: nat) | CloseReturns(c: nat)

  function ReaderStep(t: Transport, a: Action): Option<Transport> {
    match a
    case FrameArrives(m) =>
      if t.readPc != Reading then None else Some(t.(readPc := Pushing(m), arrived := t.arrived + [m]))
    case Deliver =>
      if !t.readPc.Pushing? then None else Some(t.(readPc := Reading, delivered := t.delivered + [t.readPc.msg]))
    case ReadFails =>
      if t.readPc != Reading then None
      else Some(t.(readPc := ReadEnded, closeWritePump := t.closeWritePump + 1,
                   wg := if t.side.ClientSide? then t.wg - 1 else t.wg))
    case _ => None
  }

  /** The ways a blocked Write can end without its message being taken. */
  predicate CanRefuse(t: Transport, w: nat) {
    w in t.writers && t.writers[w].pc == Offering
    && (t.closeWritePump > 0 || t.closeConn > 0 || t.writers[w].ctxDone)
  }

  function WriterStep(t: Transport, a: Action): Option<Transport> {
    match a
    case Offer(w, m) =>
      if w in t.writers then None else Some(t.(writers := t.writers[w := Writer(m, false, Offering)]))
    case Accept(w) =>
      if w !in t.writers || t.writers[w].pc != Offering || t.writePc != Selecting then None
      else Some(t.(writers := t.writers[w := t.writers[w].(pc := Taken)], writePc := Accepted(t.writers[w].msg),
                   takers := t.takers + [w], accepted := t.accepted + [t.writers[w].msg]))
    case Refuse(w) =>
      if !CanRefuse(t, w) then None else Some(t.(writers := t.writers[w := t.writers[w].(pc := Refused)]))
    case Expire(w) =>
      if w !in t.writers then None else Some(t.(writers := t.writers[w := t.writers[w].(ctxDone := true)]))
    case _ => None
  }

  /** The server's Close: the state field guards the channel. */
  function GuardedClose(closing: bool, closes: nat): (bool, nat) {
    if closing then (closing, closes) else (true, closes + 1)
  }

  /** The client's Close has no guard. */
  function CloseConn(t: Transport): Transport {
    var (closing, closes) :=
      if t.side.ServerSide? then GuardedClose(t.closing, t.closeConn) else (false, t.closeConn + 1);
    t.(closing := closing, closeConn := closes)
  }

  function WritePumpStep(t: Transport, a: Action): Option<Transport> {
    match a
    case HandOver(ok) =>
      if !t.writePc.Accepted? then None
      else Some(t.(writePc := if ok then Selecting else Returned, framed := t.framed + [t.writePc.msg]))
    case Ping(ok) =>
      if t.writePc != Selecting then None else Some(t.(writePc := if ok then Selecting else Returned))
    case SeeReaderGone =>
      if t.writePc != Selecting || t.closeWritePump == 0 then None else Some(t.(writePc := Returned))
    case SeeClose(ok) =>
      if t.writePc != Selecting || t.closeConn == 0 then None
      else Some(t.(writePc := if ok then Draining else Returned))
    case Drained =>
      if t.writePc != Draining then None else Some(t.(writePc := Returned))
    case SelfClose =>
      if t.writePc != Returned || t.side.ClientSide? then None else Some(CloseConn(t).(writePc := Closed))
    case Callback =>
      if t.writePc != (if t.side.ServerSide? then Closed else Returned) then None
      else Some(t.(writePc := CalledBack, callbacks := t.callbacks + 1))
    case Finish =>
      if t.writePc != CalledBack then None
      else Some(t.(writePc := Finished, wg := if t.side.ClientSide? then t.wg - 1 else t.wg))
    case _ => None
  }

  function CloserStep(t: Transport, a: Action): Option<Transport> {
    match a
    case CallClose(c) =>
      if c in t.closers then None else Some(t.(closers := t.closers[c := Calling]))
    case DoClose(c) =>
      if c !in t.closers || t.closers[c] != Calling then None
      else Some(CloseConn(t).(closeCalls := t.closeCalls + 1, closers := t.closers[c := Joining]))
    case CloseReturns(c) =>
      if c !in t.closers || t.closers[c] != Joining || t.wg != 0 then None
      else Some(t.(closers := t.closers[c := Done]))
    case _ => None
  }

  function Step(t: Transport, a: Action): Option<Transport> {
    if a.FrameArrives? || a.ReadFails? || a.Deliver? then ReaderStep(t, a)
    else if a.Offer? || a.Accept? || a.Refuse? || a.Expire? then WriterStep(t, a)
    else if a.CallClose? || a.DoClose? || a.CloseReturns? then CloserStep(t, a)
    else WritePumpStep(t, a)
  }

  // ---- Invariants ----------------------------------------------------------------------------

  /** The write pump has returned. */
  predicate WriteEnded(t: Transport) {
    t.writePc.Returned? || t.writePc.Closed? || t.writePc.CalledBack? || t.writePc.Finished?
  }

  function InFlight(t: Transport): seq<Message> {
    if t.writePc.Accepted? then [t.writePc.msg] else []
  }

  function BeingPassedOn(t: Transport): seq<Message> {
    if t.readPc.Pushing? then [t.readPc.msg] else []
  }

  ghost predicate Lifecycle(t: Transport) {
    && t.closeWritePump == (if t.readPc.ReadEnded? then 1 else 0)
    && t.callbacks == (if t.writePc.CalledBack? || t.writePc.Finished? then 1 else 0)
    && (t.side.ServerSide? ==>
          && t.closeConn == (if t.closing then 1 else 0)
          && (t.writePc.Closed? || t.writePc.CalledBack? || t.writePc.Finished? ==> t.closing)
          && (t.closing ==> t.closeCalls > 0 || t.writePc.Closed? || t.writePc.CalledBack? || t.writePc.Finished?)
          && (t.closeCalls > 0 ==> t.closing)
          && t.wg == 0)
    && (t.side.ClientSide? ==>
          && !t.closing && t.closeConn == t.closeCalls
          && !t.writePc.Closed?
          && t.wg == (if t.readPc.ReadEnded? then 0 else 1) + (if t.writePc.Finished? then 0 else 1)
          && (forall c <- t.closers :: t.closers[c].Done? ==> t.wg == 0))
    && (forall c <- t.closers :: !t.closers[c].Calling? ==> t.closeCalls > 0)
  }

  ghost predicate Conservation(t: Transport) {
    && t.accepted == t.framed + InFlight(t)
    && t.arrived == t.delivered + BeingPassedOn(t)
  }

  /** The accepted messages are those of the Write calls that returned without error, one each. */
  ghost predicate FromWriters(t: Transport) {
    && |t.takers| == |t.accepted|
    && (forall i :: 0 <= i < |t.takers| ==>
          && t.takers[i] in t.writers
          && t.writers[t.takers[i]].pc == Taken && t.writers[t.takers[i]].msg == t.accepted[i])
    && (forall w <- t.writers :: t.writers[w].pc == Taken ==> w in t.takers)
    && (forall i, j :: 0 <= i < j < |t.takers| ==> t.takers[i] != t.takers[j])
  }

  ghost predicate Inv(t: Transport) {
    Lifecycle(t) && Conservation(t) && FromWriters(t)
  }

  lemma ReaderKeeps(t: Transport, a: Action)
    requires Inv(t) && ReaderStep(t, a).Some?
    ensures Inv(ReaderStep(t, a).value)
  {
  }

  /** Offering, refusing and expiring: the accepted messages stay. */
  lemma WritersKeep(t: Transport, a: Action)
    requires FromWriters(t) && !a.Accept? && WriterStep(t, a).Some?
    ensures FromWriters(WriterStep(t, a).value)
  {
  }

  lemma AcceptKeeps(t: Transport, a: Action)
    requires FromWriters(t) && a.Accept? && WriterStep(t, a).Some?
    ensures FromWriters(WriterStep(t, a).value)
  {
  }

  lemma WriterKeeps(t: Transport, a: Action)
    requires Inv(t) && WriterStep(t, a).Some?
    ensures Inv(WriterStep(t, a).value)
  {
    if a.Accept? { AcceptKeeps(t, a); } else { WritersKeep(t, a); }
  }

  lemma WritePumpKeeps(t: Transport, a: Action)
    requires Inv(t) && WritePumpStep(t, a).Some?
    ensures Inv(WritePumpStep(t, a).value)
  {
  }

  lemma CloserKeeps(t: Transport, a: Action)
    requires Inv(t) && CloserStep(t, a).Some?
    ensures Inv(CloserStep(t, a).value)
  {
  }

  lemma StepKeeps(t: Transport, a: Action)
    requires Inv(t) && Step(t, a).Some?
    ensures Inv(Step(t, a).value) && Step(t, a).value.side == t.side
  {
    if ReaderStep(t, a).Some? { ReaderKeeps(t, a); }
    else if WriterStep(t, a).Some? { WriterKeeps(t, a); }
    else if CloserStep(t, a).Some? { CloserKeeps(t, a); }
    else { WritePumpKeeps(t, a); }
  }

  lemma Reached(side: Side, run: seq<Action>, t: Transport)
    requires Exec(Step, Init(side), run) == Some(t)
    ensures Inv(t) && t.side == side
  {
    InitOk(side);
    var inv := (u: Transport) => Inv(u) && u.side == side;
    forall u, a | inv(u) && Step(u, a).Some? ensures inv(Step(u, a).value) {
      StepKeeps(u, a);
    }
    Invariance(Step, inv, Init(side), run);
  }

  lemma InitOk(side: Side)
    ensures Inv(Init(side)) && Init(side).side == side
  {
  }

  // ---- Promises ------------------------------------------------------------------------------

  /** A server transport closes each of its channels at most once however many Close calls run, and
      its callback runs at most once, after the write pump ended and closeConn was closed. */
  lemma ServerLifecycle(run: seq<Action>, t: Transport)
    requires Exec(Step, Init(ServerSide), run) == Some(t)
    ensures t.closeConn <= 1 && t.closeWritePump <= 1 && t.callbacks <= 1
    ensures t.callbacks == 1 ==> WriteEnded(t) && t.closeConn == 1
    ensures t.closeCalls > 0 ==> t.closeConn == 1
  {
    Reached(ServerSide, run, t);
  }

  /** Once the callback has run no Write can succeed any more, and every blocked one can return. */
  lemma NoWriteAfterCallback(run: seq<Action>, t: Transport, more: seq<Action>, u: Transport)
    requires Exec(Step, Init(ServerSide), run) == Some(t) && t.callbacks > 0
    requires Exec(Step, t, more) == Some(u)
    ensures u.accepted == t.accepted
    ensures forall w <- u.writers :: u.writers[w].pc == Offering ==> Step(u, Refuse(w)).Some?
  {
    Reached(ServerSide, run, t);
    EndedForGood(t, more, u);
  }

  /** After the write pump has returned, on either side, nothing is accepted again. */
  lemma EndedForGood(t: Transport, more: seq<Action>, u: Transport)
    requires Inv(t) && WriteEnded(t)
    requires Exec(Step, t, more) == Some(u)
    ensures Inv(u) && WriteEnded(u) && u.side == t.side
    ensures u.accepted == t.accepted && u.callbacks >= t.callbacks
  {
    var inv := (v: Transport) =>
      Inv(v) && WriteEnded(v) && v.side == t.side && v.accepted == t.accepted && v.callbacks >= t.callbacks;
    forall v, a | inv(v) && Step(v, a).Some? ensures inv(Step(v, a).value) {
      StepKeeps(v, a);
      EndedStays(v, a);
    }
    Invariance(Step, inv, t, more);
  }

  lemma EndedStays(t: Transport, a: Action)
    requires WriteEnded(t) && Step(t, a).Some?
    ensures var u := Step(t, a).value; WriteEnded(u) && u.accepted == t.accepted && u.callbacks >= t.callbacks
  {
  }

  /** A client transport has no guard: its channel is closed as often as Close is called, so it
      panics exactly when Close is called a second time. Its callback runs at most once, after the
      write pump ended. */
  lemma ClientLifecycle(run: seq<Action>, t: Transport)
    requires Exec(Step, Init(ClientSide), run) == Some(t)
    ensures t.closeConn > 1 <==> t.closeCalls > 1
    ensures t.closeWritePump <= 1 && t.callbacks <= 1
    ensures t.callbacks == 1 ==> WriteEnded(t)
  {
    Reached(ClientSide, run, t);
  }

  /** Such a second call is possible: two callers of a client transport's Close, and nothing else,
      close the channel twice. */
  lemma ClientCanCloseTwice(c: nat, d: nat)
    requires c != d
    ensures exists run, t :: Exec(Step, Init(ClientSide), run) == Some(t) && t.closeConn == 2
  {
    var t := Init(ClientSide);
    assert Exec(Step, t, []) == Some(t);
    var called := [] + [CallClose(c)] + [CallClose(d)];
    ExecSnoc(Step, t, [], t, CallClose(c));
    ExecSnoc(Step, t, [] + [CallClose(c)], t.(closers := map[c := Calling]), CallClose(d));
    CloseTwice(c, d, called);
  }

  lemma CloseTwice(c: nat, d: nat, run: seq<Action>)
    requires c != d
    requires Exec(Step, Init(ClientSide), run) == Some(Init(ClientSide).(closers := map[c := Calling][d := Calling]))
    ensures exists run, t :: Exec(Step, Init(ClientSide), run) == Some(t) && t.closeConn == 2
  {
    var t := Init(ClientSide).(closers := map[c := Calling][d := Calling]);
    var u := Step(t, DoClose(c)).value;
    ExecSnoc(Step, Init(ClientSide), run, t, DoClose(c));
    ExecSnoc(Step, Init(ClientSide), run + [DoClose(c)], u, DoClose(d));
  }

  /** The client's Close returns only after both pumps have ended and the callback has run. */
  lemma ClientCloseJoins(run: seq<Action>, t: Transport, c: nat)
    requires Exec(Step, Init(ClientSide), run) == Some(t)
    requires c in t.closers && t.closers[c].Done?
    ensures t.readPc.ReadEnded? && t.writePc.Finished? && t.callbacks == 1
  {
    Reached(ClientSide, run, t);
  }

  /** On both sides the frames handed to the connection are the messages accepted by Write, in
      order and once each, but for one that the pump may still hold; they are the messages of
      exactly the Write calls that succeeded. What is read is passed on in the same way. */
  lemma WritesAreConserved(side: Side, run: seq<Action>, t: Transport)
    requires Exec(Step, Init(side), run) == Some(t)
    ensures t.framed == t.accepted || (t.accepted != [] && t.framed == t.accepted[..|t.accepted| - 1])
    ensures t.framed != t.accepted ==> t.writePc == Accepted(t.accepted[|t.accepted| - 1])
    ensures FromWriters(t)
    ensures t.delivered == t.arrived || (t.arrived != [] && t.delivered == t.arrived[..|t.arrived| - 1])
  {
    Reached(side, run, t);
  }
}
