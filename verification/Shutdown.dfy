/**
 The server's accounting of its transports in server.go: wshandler, the afterWritePump callback,
 UpdatePublicKeys and Stop, interleaved around s.mu and the wait group.

 A transport is counted from the Add that promises it. Readers of s.mu overlap, a writer's section
 needs all of them gone and is one step.
 */
module Shutdown {
  import opened Runs
  import opened Credentials

  type Key = StaticSizedPublicKey

  datatype TransportPc =
    | Promised               // counted, not made yet
    | Pumping
    | InCallback             // holds s.mu for reading
    | Finished               // Done was called

  datatype Transport = Transport(key: Key, pc: TransportPc, closed: bool)

  datatype HandlerPc =
    | Arrived
    | Unquit                 // saw that quit had not fired
    | Upgrading              // saw no connection for its key
    | Upgraded
    | Opening(n: nat)        // holds s.mu for reading, transport n promised
    | Registering(n: nat)    // holds s.mu for reading, transport n made
    | Serving(n: nat)
    | Ended

  datatype Handler = Handler(key: Key, pc: HandlerPc)

  datatype StopPc = NotCalled | QuitFired | Cleared | Closed | Waited | DoneFired

  datatype Server = Server(
    handlers: map<nat, Handler>,
    transports: seq<Transport>,
    wg: int,
    managed: bool,           // connMgr is not nil
    conns: map<Key, nat>,
    stop: StopPc)

  const INIT := Server(map[], [], 0, true, map[], NotCalled)

  datatype Action =
    | Arrive(h: nat, key: Key) | CheckQuit(h: nat) | CheckSingle(h: nat) | Upgrade(h: nat, ok: bool)
    | Add(h: nat) | Make(h: nat) | Register(h: nat) | EndServing(h: nat)
    | EnterCallback(n: nat) | LeaveCallback(n: nat)
    | UpdateKeys(kept: set<Key>)
    | FireQuit | Clear | CloseAll | Wait | FireDone

  ghost predicate Reading(s: Server) {
    || (exists h <- s.handlers :: s.handlers[h].pc.Opening? || s.handlers[h].pc.Registering?)
    || (exists n :: 0 <= n < |s.transports| && s.transports[n].pc.InCallback?)
  }

  ghost function SetPc(s: Server, h: nat, pc: HandlerPc): Server
    requires h in s.handlers
  {
    s.(handlers := s.handlers[h := s.handlers[h].(pc := pc)])
  }

  ghost function SetTransport(s: Server, n: nat, pc: TransportPc): Server
    requires n < |s.transports|
  {
    s.(transports := s.transports[n := s.transports[n].(pc := pc)])
  }

  /** The given transports with those closed that a table maps a key of the set to. */
  ghost function CloseListed(ts: seq<Transport>, conns: map<Key, nat>, keys: set<Key>): (r: seq<Transport>)
  {
    seq(|ts|, n requires 0 <= n < |ts| =>
      if exists k <- keys :: k in conns && conns[k] == n then ts[n].(closed := true) else ts[n])
  }

  predicate HasFinished(s: Server, n: nat) {
    n < |s.transports| && s.transports[n].pc == Finished
  }

  ghost function HandlerStep(s: Server, a: Action): Option<Server> {
    match a
    case Arrive(h, key) =>
      if h in s.handlers then None else Some(s.(handlers := s.handlers[h := Handler(key, Arrived)]))
    case CheckQuit(h) =>
      if h !in s.handlers || s.handlers[h].pc != Arrived then None
      else Some(SetPc(s, h, if s.stop.NotCalled? then Unquit else Ended))
    case CheckSingle(h) =>
      if h !in s.handlers || s.handlers[h].pc != Unquit then None
      else Some(SetPc(s, h, if !s.managed || s.handlers[h].key in s.conns then Ended else Upgrading))
    case Upgrade(h, ok) =>
      if h !in s.handlers || s.handlers[h].pc != Upgrading then None
      else Some(SetPc(s, h, if ok then Upgraded else Ended))
    case Add(h) =>
      if h !in s.handlers || s.handlers[h].pc != Upgraded then None
      else if !s.managed then Some(SetPc(s, h, Ended))
      else Some(SetPc(s, h, Opening(|s.transports|))
                .(wg := s.wg + 1, transports := s.transports + [Transport(s.handlers[h].key, Promised, false)]))
    case Make(h) =>
      if h !in s.handlers || !s.handlers[h].pc.Opening? || s.handlers[h].pc.n >= |s.transports|
         || s.transports[s.handlers[h].pc.n].pc != Promised then None
      else Some(SetTransport(SetPc(s, h, Registering(s.handlers[h].pc.n)), s.handlers[h].pc.n, Pumping))
    case Register(h) =>
      if h !in s.handlers || !s.handlers[h].pc.Registering? || !s.managed then None
      else Some(SetPc(s, h, Serving(s.handlers[h].pc.n)).(conns := s.conns[s.handlers[h].key := s.handlers[h].pc.n]))
    case EndServing(h) =>
      if h !in s.handlers || !s.handlers[h].pc.Serving? then None
      else if s.stop.NotCalled? && !HasFinished(s, s.handlers[h].pc.n) then None
      else Some(SetPc(s, h, Ended))
    case _ => None
  }

  ghost function CallbackStep(s: Server, a: Action): Option<Server> {
    match a
    case EnterCallback(n) =>
      if n >= |s.transports| || s.transports[n].pc != Pumping then None else Some(SetTransport(s, n, InCallback))
    case LeaveCallback(n) =>
      if n >= |s.transports| || s.transports[n].pc != InCallback then None
      else Some(SetTransport(s, n, Finished)
                .(wg := s.wg - 1, conns := if s.managed then s.conns - {s.transports[n].key} else s.conns))
    case _ => None
  }

  ghost function WriterStep(s: Server, a: Action): Option<Server> {
    match a
    case UpdateKeys(kept) =>
      if Reading(s) || !s.managed then None
      else Some(s.(conns := s.conns - (s.conns.Keys - kept),
                   transports := CloseListed(s.transports, s.conns, s.conns.Keys - kept)))
    case FireQuit =>
      if s.stop != NotCalled then None else Some(s.(stop := QuitFired))
    case Clear =>
      if s.stop != QuitFired || Reading(s) then None else Some(s.(stop := Cleared, managed := false))
    case CloseAll =>
      if s.stop != Cleared then None
      else Some(s.(stop := Closed, transports := CloseListed(s.transports, s.conns, s.conns.Keys)))
    case Wait =>
      if s.stop != Closed || s.wg != 0 then None else Some(s.(stop := Waited))
    case FireDone =>
      if s.stop != Waited then None else Some(s.(stop := DoneFired))
    case _ => None
  }

  ghost function Step(s: Server, a: Action): Option<Server> {
    if a.EnterCallback? || a.LeaveCallback? then CallbackStep(s, a)
    else if a.UpdateKeys? || a.FireQuit? || a.Clear? || a.CloseAll? || a.Wait? || a.FireDone? then WriterStep(s, a)
    else HandlerStep(s, a)
  }

  // ---- Counting ------------------------------------------------------------------------------

  ghost function Unfinished(ts: seq<Transport>): nat {
    if ts == [] then 0
    else Unfinished(ts[..|ts| - 1]) + if ts[|ts| - 1].pc.Finished? then 0 else 1
  }

  lemma {:induction false} UnfinishedUpdate(ts: seq<Transport>, n: nat, t: Transport)
    requires n < |ts|
    ensures Unfinished(ts[n := t]) ==
            Unfinished(ts) - (if ts[n].pc.Finished? then 0 else 1) + (if t.pc.Finished? then 0 else 1)
  {
    var init := ts[..|ts| - 1];
    if n == |ts| - 1 {
      assert ts[n := t][..|ts| - 1] == init;
    } else {
      assert ts[n := t][..|ts| - 1] == init[n := t];
      UnfinishedUpdate(init, n, t);
    }
  }

  lemma {:induction false} UnfinishedSame(ts: seq<Transport>, us: seq<Transport>)
    requires |ts| == |us| && forall n :: 0 <= n < |ts| ==> us[n].pc == ts[n].pc
    ensures Unfinished(us) == Unfinished(ts)
  {
    if ts != [] {
      UnfinishedSame(ts[..|ts| - 1], us[..|us| - 1]);
    }
  }

  lemma {:induction false} NoneUnfinished(ts: seq<Transport>)
    requires Unfinished(ts) == 0
    ensures forall n :: 0 <= n < |ts| ==> ts[n].pc.Finished?
  {
    if ts != [] {
      NoneUnfinished(ts[..|ts| - 1]);
      forall n | 0 <= n < |ts|
        ensures ts[n].pc.Finished?
      {
        if n < |ts| - 1 {
          assert ts[..|ts| - 1][n].pc.Finished?;
        }
      }
    }
  }

  // ---- Invariants ----------------------------------------------------------------------------

  /** A handler inside its locked section has its own transport, which is for its own key; so is
      every registered one. */
  ghost predicate Ownership(s: Server) {
    && (forall h <- s.handlers :: s.handlers[h].pc.Opening? || s.handlers[h].pc.Registering? ==>
          && s.handlers[h].pc.n < |s.transports|
          && s.transports[s.handlers[h].pc.n].key == s.handlers[h].key
          && (s.handlers[h].pc.Opening? ==> s.transports[s.handlers[h].pc.n].pc == Promised))
    && (forall g, h :: g in s.handlers && h in s.handlers && g != h && s.handlers[g].pc.Opening?
          ==> s.handlers[h].pc != s.handlers[g].pc)
    && (forall k <- s.conns :: s.conns[k] < |s.transports| && s.transports[s.conns[k]].key == k)
  }

  ghost predicate Accounting(s: Server) {
    && s.wg == Unfinished(s.transports)
    && (s.managed <==> s.stop.NotCalled? || s.stop.QuitFired?)
    && (!s.managed ==> forall h <- s.handlers :: !s.handlers[h].pc.Opening? && !s.handlers[h].pc.Registering?)
    && (s.stop.Waited? || s.stop.DoneFired? ==> s.wg == 0)
    && (s.stop.Closed? || s.stop.Waited? || s.stop.DoneFired? ==>
          forall k <- s.conns :: s.conns[k] < |s.transports| && s.transports[s.conns[k]].closed)
  }

  ghost predicate Inv(s: Server) {
    Ownership(s) && Accounting(s)
  }

  /** A handler that is not inside its locked section before or after the step. */
  predicate IsOutside(a: Action) {
    a.Arrive? || a.CheckQuit? || a.CheckSingle? || a.Upgrade? || a.EndServing?
  }

  lemma OutsideShape(s: Server, a: Action)
    requires IsOutside(a) && HandlerStep(s, a).Some?
    ensures var s' := HandlerStep(s, a).value;
            && a.h in s'.handlers && s' == s.(handlers := s.handlers[a.h := s'.handlers[a.h]])
            && !s'.handlers[a.h].pc.Opening? && !s'.handlers[a.h].pc.Registering?
  {
  }

  lemma OutsideKeeps(s: Server, a: Action)
    requires Inv(s) && IsOutside(a) && HandlerStep(s, a).Some?
    ensures Inv(HandlerStep(s, a).value)
  {
    OutsideShape(s, a);
  }

  /** Counting a transport: it is the last of the list, and not made yet. */
  lemma AddShape(s: Server, a: Action)
    requires a.Add? && s.managed && HandlerStep(s, a).Some?
    ensures a.h in s.handlers
    ensures HandlerStep(s, a).value == Added(s, a.h)
  {
  }

  ghost function Added(s: Server, h: nat): Server
    requires h in s.handlers
  {
    var n := |s.transports|;
    s.(handlers := s.handlers[h := Handler(s.handlers[h].key, Opening(n))], wg := s.wg + 1,
       transports := s.transports + [Transport(s.handlers[h].key, Promised, false)])
  }

  lemma AddedOwnership(s: Server, h: nat)
    requires Ownership(s) && h in s.handlers
    ensures Ownership(Added(s, h))
  {
  }

  lemma AddedAccounting(s: Server, h: nat)
    requires Accounting(s) && s.managed && h in s.handlers
    ensures Accounting(Added(s, h))
  {
    var ts := Added(s, h).transports;
    assert ts[..|ts| - 1] == s.transports;
  }

  lemma AddKeeps(s: Server, a: Action)
    requires Inv(s) && a.Add? && HandlerStep(s, a).Some?
    ensures Inv(HandlerStep(s, a).value)
  {
    if s.managed {
      AddShape(s, a);
      AddedOwnership(s, a.h);
      AddedAccounting(s, a.h);
    }
  }

  lemma MakeKeeps(s: Server, a: Action)
    requires Inv(s) && a.Make? && HandlerStep(s, a).Some?
    ensures Inv(HandlerStep(s, a).value)
  {
    var n := s.handlers[a.h].pc.n;
    UnfinishedUpdate(s.transports, n, s.transports[n].(pc := Pumping));
  }

  lemma RegisterKeeps(s: Server, a: Action)
    requires Inv(s) && a.Register? && HandlerStep(s, a).Some?
    ensures Inv(HandlerStep(s, a).value)
  {
  }

  lemma CallbackOwnership(s: Server, a: Action)
    requires Ownership(s) && CallbackStep(s, a).Some?
    ensures Ownership(CallbackStep(s, a).value)
  {
  }

  lemma CallbackAccounting(s: Server, a: Action)
    requires Inv(s) && CallbackStep(s, a).Some?
    ensures Accounting(CallbackStep(s, a).value)
  {
    UnfinishedUpdate(s.transports, a.n, s.transports[a.n].(pc := if a.EnterCallback? then InCallback else Finished));
    if s.stop.Waited? || s.stop.DoneFired? {
      NoneUnfinished(s.transports);
    }
  }

  lemma CallbackKeeps(s: Server, a: Action)
    requires Inv(s) && CallbackStep(s, a).Some?
    ensures Inv(CallbackStep(s, a).value)
  {
    CallbackOwnership(s, a);
    CallbackAccounting(s, a);
  }

  lemma WriterKeeps(s: Server, a: Action)
    requires Inv(s) && WriterStep(s, a).Some?
    ensures Inv(WriterStep(s, a).value)
  {
    var s' := WriterStep(s, a).value;
    UnfinishedSame(s.transports, s'.transports);
  }

  lemma StepKeeps(s: Server, a: Action)
    requires Inv(s) && Step(s, a).Some?
    ensures Inv(Step(s, a).value)
  {
    if a.EnterCallback? || a.LeaveCallback? { CallbackKeeps(s, a); }
    else if WriterStep(s, a).Some? { WriterKeeps(s, a); }
    else if a.Add? { AddKeeps(s, a); }
    else if a.Make? { MakeKeeps(s, a); }
    else if a.Register? { RegisterKeeps(s, a); }
    else { OutsideKeeps(s, a); }
  }

  lemma Reached(run: seq<Action>, s: Server)
    requires Exec(Step, INIT, run) == Some(s)
    ensures Inv(s)
  {
    forall t, a | Inv(t) && Step(t, a).Some? ensures Inv(Step(t, a).value) {
      StepKeeps(t, a);
    }
    Invariance(Step, Inv, INIT, run);
  }

  // ---- Promises ------------------------------------------------------------------------------

  /** The wait group counts the transports whose callback has not called Done, so it is never
      negative. */
  lemma WaitGroupCountsTransports(run: seq<Action>, s: Server)
    requires Exec(Step, INIT, run) == Some(s)
    ensures s.wg == Unfinished(s.transports) >= 0
    ensures s.wg == 0 <==> forall n :: 0 <= n < |s.transports| ==> s.transports[n].pc.Finished?
  {
    Reached(run, s);
    if s.wg == 0 {
      NoneUnfinished(s.transports);
    } else if forall n :: 0 <= n < |s.transports| ==> s.transports[n].pc.Finished? {
      AllFinished(s.transports);
    }
  }

  lemma {:induction false} AllFinished(ts: seq<Transport>)
    requires forall n :: 0 <= n < |ts| ==> ts[n].pc.Finished?
    ensures Unfinished(ts) == 0
  {
    if ts != [] {
      AllFinished(ts[..|ts| - 1]);
    }
  }

  /** Every transport is registered under the key of its own peer, and a handler that has counted
      a transport can always go on to make it. */
  lemma TableMatchesPeers(run: seq<Action>, s: Server)
    requires Exec(Step, INIT, run) == Some(s)
    ensures forall k <- s.conns :: s.conns[k] < |s.transports| && s.transports[s.conns[k]].key == k
    ensures forall h <- s.handlers :: s.handlers[h].pc.Opening? ==> Step(s, Make(h)).Some?
  {
    Reached(run, s);
  }

  /** Once Stop has cleared the connection manager no transport is added, the count only falls, and the
      table it took stays as it was. */
  lemma NothingAddedAfterClear(run: seq<Action>, s: Server, more: seq<Action>, s': Server)
    requires Exec(Step, INIT, run) == Some(s) && !s.managed
    requires Exec(Step, s, more) == Some(s')
    ensures |s'.transports| == |s.transports| && s'.wg <= s.wg && !s'.managed && s'.conns == s.conns
  {
    Reached(run, s);
    var inv := (u: Server) =>
      Inv(u) && !u.managed && |u.transports| == |s.transports| && u.wg <= s.wg && u.conns == s.conns;
    forall u, a | inv(u) && Step(u, a).Some? ensures inv(Step(u, a).value) {
      StepKeeps(u, a);
      ClearedStep(u, a);
    }
    Invariance(Step, inv, s, more);
  }

  lemma ClearedStep(s: Server, a: Action)
    requires Inv(s) && !s.managed && Step(s, a).Some?
    ensures var s' := Step(s, a).value;
            |s'.transports| == |s.transports| && s'.wg <= s.wg && !s'.managed && s'.conns == s.conns
  {
  }

  /** When done fires, and forever after, every transport ever made has finished; what was still
      registered when the manager was cleared has been closed. */
  lemma DoneMeansAllFinished(run: seq<Action>, s: Server)
    requires Exec(Step, INIT, run) == Some(s) && s.stop.DoneFired?
    ensures forall n :: 0 <= n < |s.transports| ==> s.transports[n].pc.Finished?
    ensures forall k <- s.conns :: s.conns[k] < |s.transports| && s.transports[s.conns[k]].closed
  {
    Reached(run, s);
    NoneUnfinished(s.transports);
  }

  // ---- Which live transports are listed ------------------------------------------------------

  ghost predicate Made(s: Server, n: nat) {
    n < |s.transports| && s.transports[n].pc != Promised
  }

  /** The transport has been made, and no handler still has to register it. */
  ghost predicate Spent(s: Server, n: nat) {
    Made(s, n) && forall h <- s.handlers :: s.handlers[h].pc != Registering(n)
  }

  /** Each transport is registered by one handler, once, and not closed before. */
  ghost predicate Apart(s: Server) {
    && (forall h <- s.handlers :: s.handlers[h].pc.Registering? ==> Made(s, s.handlers[h].pc.n))
    && (forall g, h :: g in s.handlers && h in s.handlers && g != h && s.handlers[g].pc.Registering?
          ==> s.handlers[h].pc != s.handlers[g].pc)
    && (forall k <- s.conns :: Spent(s, s.conns[k]))
    && (forall h <- s.handlers :: s.handlers[h].pc.Opening? || s.handlers[h].pc.Registering? ==>
          s.handlers[h].pc.n < |s.transports| && !s.transports[s.handlers[h].pc.n].closed)
  }

  lemma SpentStays(s: Server, a: Action, n: nat)
    requires Inv(s) && Spent(s, n) && Step(s, a).Some?
    ensures var s' := Step(s, a).value; Spent(s', n) && s'.transports[n].key == s.transports[n].key
  {
  }

  lemma RegisterApart(s: Server, a: Action)
    requires Inv(s) && Apart(s) && a.Register? && HandlerStep(s, a).Some?
    ensures Apart(HandlerStep(s, a).value)
  {
    var s' := HandlerStep(s, a).value;
    forall k <- s'.conns
      ensures Spent(s', s'.conns[k])
    {
    }
  }

  lemma ListedStaySpent(s: Server, a: Action, s': Server)
    requires Inv(s) && Apart(s) && Step(s, a) == Some(s') && s'.conns == s.conns
    ensures forall k <- s'.conns :: Spent(s', s'.conns[k])
  {
    forall k <- s'.conns
      ensures Spent(s', s'.conns[k])
    {
      SpentStays(s, a, s.conns[k]);
    }
  }

  lemma OutsideApart(s: Server, a: Action)
    requires Inv(s) && Apart(s) && IsOutside(a) && HandlerStep(s, a).Some?
    ensures Apart(HandlerStep(s, a).value)
  {
    OutsideShape(s, a);
    ListedStaySpent(s, a, HandlerStep(s, a).value);
  }

  lemma AddApart(s: Server, a: Action)
    requires Inv(s) && Apart(s) && a.Add? && HandlerStep(s, a).Some?
    ensures Apart(HandlerStep(s, a).value)
  {
    if s.managed {
      AddShape(s, a);
    }
    ListedStaySpent(s, a, HandlerStep(s, a).value);
  }

  lemma MakeApart(s: Server, a: Action)
    requires Inv(s) && Apart(s) && a.Make? && HandlerStep(s, a).Some?
    ensures Apart(HandlerStep(s, a).value)
  {
    ListedStaySpent(s, a, HandlerStep(s, a).value);
  }

  /** Steps that end and close transports, and shrink the table. */
  ghost predicate Shrinks(s: Server, s': Server) {
    && s'.handlers == s.handlers && |s'.transports| == |s.transports|
    && (forall k <- s'.conns :: k in s.conns && s'.conns[k] == s.conns[k])
    && (forall n :: 0 <= n < |s.transports| && s.transports[n].pc != Promised ==> s'.transports[n].pc != Promised)
    && (forall h <- s.handlers :: s.handlers[h].pc.Opening? || s.handlers[h].pc.Registering? ==>
          s.handlers[h].pc.n < |s.transports|
          && s'.transports[s.handlers[h].pc.n].closed == s.transports[s.handlers[h].pc.n].closed)
  }

  lemma CallbackShrinks(s: Server, a: Action)
    requires Inv(s) && CallbackStep(s, a).Some?
    ensures Shrinks(s, CallbackStep(s, a).value)
  {
  }

  lemma WriterShrinks(s: Server, a: Action)
    requires Inv(s) && WriterStep(s, a).Some?
    ensures Shrinks(s, WriterStep(s, a).value)
  {
  }

  lemma ShrinkingKeepsApart(s: Server, s': Server)
    requires Apart(s) && Shrinks(s, s')
    ensures Apart(s')
  {
    forall k <- s'.conns
      ensures Spent(s', s'.conns[k])
    {
      assert Spent(s, s.conns[k]);
    }
  }

  lemma StepKeepsApart(s: Server, a: Action)
    requires Inv(s) && Apart(s) && Step(s, a).Some?
    ensures Apart(Step(s, a).value)
  {
    if HandlerStep(s, a).None? {
      if CallbackStep(s, a).Some? { CallbackShrinks(s, a); } else { WriterShrinks(s, a); }
      ShrinkingKeepsApart(s, Step(s, a).value);
    }
    else if a.Register? { RegisterApart(s, a); }
    else if a.Add? { AddApart(s, a); }
    else if a.Make? { MakeApart(s, a); }
    else { OutsideApart(s, a); }
  }

  lemma ReachedApart(run: seq<Action>, s: Server)
    requires Exec(Step, INIT, run) == Some(s)
    ensures Inv(s) && Apart(s)
  {
    var inv := (t: Server) => Inv(t) && Apart(t);
    forall t, a | inv(t) && Step(t, a).Some? ensures inv(Step(t, a).value) {
      StepKeeps(t, a);
      StepKeepsApart(t, a);
    }
    Invariance(Step, inv, INIT, run);
  }

  /** The transport is the one found under its key. */
  ghost predicate Listed(s: Server, n: nat) {
    n < |s.transports| && s.transports[n].key in s.conns && s.conns[s.transports[n].key] == n
  }

  /** The steps after which a transport is no longer found under its key: another registration for
      that key, the end of any transport of that key, or an update that drops the key. */
  ghost predicate Displaces(s: Server, a: Action, n: nat)
    requires n < |s.transports|
  {
    var key := s.transports[n].key;
    || (a.Register? && a.h in s.handlers && s.handlers[a.h].key == key)
    || (a.LeaveCallback? && s.managed && a.n < |s.transports| && s.transports[a.n].key == key)
    || (a.UpdateKeys? && key !in a.kept)
  }

  lemma ListedStep(s: Server, a: Action, n: nat)
    requires Inv(s) && Spent(s, n) && Step(s, a).Some?
    ensures Listed(Step(s, a).value, n) <==> Listed(s, n) && !Displaces(s, a, n)
  {
    SpentStays(s, a, n);
  }

  /** What closes a listed transport of this key. */
  predicate Closes(a: Action, key: Key) {
    a.CloseAll? || (a.UpdateKeys? && key !in a.kept)
  }

  lemma ClosedStep(s: Server, a: Action, n: nat)
    requires Inv(s) && n < |s.transports| && Step(s, a).Some?
    ensures n < |Step(s, a).value.transports|
    ensures Step(s, a).value.transports[n].closed
            <==> s.transports[n].closed || (Listed(s, n) && Closes(a, s.transports[n].key))
  {
  }

  /** Some step of the run displaces the transport. */
  ghost predicate Displaced(s: Server, run: seq<Action>, n: nat)
    requires n < |s.transports|
    decreases |run|
  {
    && run != [] && Step(s, run[0]).Some?
    && (|| Displaces(s, run[0], n)
        || (n < |Step(s, run[0]).value.transports| && Displaced(Step(s, run[0]).value, run[1..], n)))
  }

  lemma {:induction false} ListedOnIff(s: Server, more: seq<Action>, s': Server, n: nat)
    requires Inv(s) && Spent(s, n) && Listed(s, n) && Exec(Step, s, more) == Some(s')
    ensures Listed(s', n) <==> !Displaced(s, more, n)
    decreases |more|
  {
    if more != [] {
      var s1 := Step(s, more[0]).value;
      StepKeeps(s, more[0]);
      SpentStays(s, more[0], n);
      ListedStep(s, more[0], n);
      if Listed(s1, n) {
        ListedOnIff(s1, more[1..], s', n);
      } else {
        UnlistedStays(s1, more[1..], s', n);
      }
    }
  }

  /** Exactly when a registered transport is missing from the table: another handler registered for
      its key, a transport of its key ended, or an update dropped the key, at any time since. A live
      one can be missing, and is never listed again. */
  lemma ListedIff(run: seq<Action>, s: Server, n: nat, more: seq<Action>, s': Server)
    requires Exec(Step, INIT, run) == Some(s) && Listed(s, n)
    requires Exec(Step, s, more) == Some(s')
    ensures Listed(s', n) <==> !Displaced(s, more, n)
  {
    ReachedApart(run, s);
    ListedOnIff(s, more, s', n);
  }

  /** Of the steps that close the transport or displace it, the first displaces it unclosed. */
  ghost predicate Lost(s: Server, run: seq<Action>, n: nat)
    requires n < |s.transports|
    decreases |run|
  {
    && run != [] && Step(s, run[0]).Some? && !Closes(run[0], s.transports[n].key)
    && (|| Displaces(s, run[0], n)
        || (n < |Step(s, run[0]).value.transports| && Lost(Step(s, run[0]).value, run[1..], n)))
  }

  lemma {:induction false} UnlistedStays(s: Server, more: seq<Action>, s': Server, n: nat)
    requires Inv(s) && Spent(s, n) && !Listed(s, n) && Exec(Step, s, more) == Some(s')
    ensures Inv(s') && Spent(s', n) && !Listed(s', n)
    ensures s'.transports[n].key == s.transports[n].key && s'.transports[n].closed == s.transports[n].closed
    decreases |more|
  {
    if more != [] {
      StepKeeps(s, more[0]);
      SpentStays(s, more[0], n);
      ListedStep(s, more[0], n);
      ClosedStep(s, more[0], n);
      UnlistedStays(Step(s, more[0]).value, more[1..], s', n);
    }
  }

  lemma {:induction false} ClosedStays(s: Server, more: seq<Action>, s': Server, n: nat)
    requires Inv(s) && Spent(s, n) && s.transports[n].closed && Exec(Step, s, more) == Some(s')
    ensures Inv(s') && Spent(s', n) && s'.transports[n].key == s.transports[n].key && s'.transports[n].closed
    decreases |more|
  {
    if more != [] {
      StepKeeps(s, more[0]);
      SpentStays(s, more[0], n);
      ClosedStep(s, more[0], n);
      ClosedStays(Step(s, more[0]).value, more[1..], s', n);
    }
  }

  lemma {:induction false} ListedOrClosedIff(s: Server, more: seq<Action>, s': Server, n: nat)
    requires Inv(s) && Spent(s, n) && Listed(s, n) && !s.transports[n].closed && Exec(Step, s, more) == Some(s')
    ensures Inv(s') && Spent(s', n) && s'.transports[n].key == s.transports[n].key
    ensures Listed(s', n) || s'.transports[n].closed <==> !Lost(s, more, n)
    decreases |more|
  {
    if more != [] {
      var a, s1 := more[0], Step(s, more[0]).value;
      StepKeeps(s, a);
      SpentStays(s, a, n);
      ListedStep(s, a, n);
      ClosedStep(s, a, n);
      if s1.transports[n].closed {
        ClosedStays(s1, more[1..], s', n);
      } else if Listed(s1, n) {
        ListedOrClosedIff(s1, more[1..], s', n);
      } else {
        UnlistedStays(s1, more[1..], s', n);
      }
    }
  }

  /** Exactly which transports Stop and UpdatePublicKeys close. A transport that was once found under
      its key is closed, after Stop has closed what it found or an update has dropped its key, if
      and only if nothing displaced it before: no other registration for its key, and no end of a
      transport of that key. */
  lemma ClosedIff(run: seq<Action>, s: Server, n: nat, more: seq<Action>, s': Server, a: Action)
    requires Exec(Step, INIT, run) == Some(s) && Listed(s, n) && !s.transports[n].closed
    requires Exec(Step, s, more) == Some(s') && Step(s', a).Some? && Closes(a, s.transports[n].key)
    ensures n < |Step(s', a).value.transports|
    ensures Step(s', a).value.transports[n].closed <==> !Lost(s, more, n)
  {
    ReachedApart(run, s);
    ListedOrClosedIff(s, more, s', n);
    ClosedStep(s', a, n);
  }

  /** A registration makes its transport, which is still open, the one found under its key. */
  lemma RegisteringLists(run: seq<Action>, s: Server, h: nat)
    requires Exec(Step, INIT, run) == Some(s) && h in s.handlers && s.handlers[h].pc.Registering?
    requires Step(s, Register(h)).Some?
    ensures var s' := Step(s, Register(h)).value; var n := s.handlers[h].pc.n;
            Listed(s', n) && !s'.transports[n].closed && s'.transports[n].key == s.handlers[h].key
  {
    ReachedApart(run, s);
  }

  // ---- The race for a key --------------------------------------------------------------------

  ghost predicate Reaches(s: Server) {
    exists run :: Exec(Step, INIT, run) == Some(s)
  }

  lemma Then(s: Server, a: Action) returns (s': Server)
    requires Reaches(s) && Step(s, a).Some?
    ensures s' == Step(s, a).value && Reaches(s')
  {
    s' := Step(s, a).value;
    var run :| Exec(Step, INIT, run) == Some(s);
    ExecSnoc(Step, INIT, run, s, a);
  }

  /** A new handler for the key gets past the check while the key is not listed. */
  lemma Enters(s: Server, h: nat, key: Key) returns (s': Server)
    requires Reaches(s) && h !in s.handlers && s.managed && s.stop.NotCalled? && key !in s.conns
    ensures Reaches(s') && s' == s.(handlers := s.handlers[h := Handler(key, Upgraded)])
  {
    s' := Arrives(s, h, key);
    s' := Then(s', CheckSingle(h));
    s' := Then(s', Upgrade(h, true));
  }

  lemma Arrives(s: Server, h: nat, key: Key) returns (s': Server)
    requires Reaches(s) && h !in s.handlers && s.stop.NotCalled?
    ensures Reaches(s') && s' == s.(handlers := s.handlers[h := Handler(key, Unquit)])
  {
    s' := Then(s, Arrive(h, key));
    s' := Then(s', CheckQuit(h));
  }

  /** It counts and makes its transport. */
  lemma Makes(s: Server, h: nat, key: Key) returns (s': Server)
    requires Reaches(s) && h in s.handlers && s.handlers[h] == Handler(key, Upgraded) && s.managed
    ensures Reaches(s')
    ensures s' == s.(handlers := s.handlers[h := Handler(key, Registering(|s.transports|))], wg := s.wg + 1,
                     transports := s.transports + [Transport(key, Pumping, false)])
  {
    s' := Then(s, Add(h));
    s' := Then(s', Make(h));
  }

  /** And registers it. */
  lemma Opens(s: Server, h: nat, key: Key) returns (s': Server)
    requires Reaches(s) && h in s.handlers && s.handlers[h] == Handler(key, Upgraded) && s.managed
    ensures Reaches(s')
    ensures s' == s.(handlers := s.handlers[h := Handler(key, Serving(|s.transports|))], wg := s.wg + 1,
                     transports := s.transports + [Transport(key, Pumping, false)],
                     conns := s.conns[key := |s.transports|])
  {
    s' := Makes(s, h, key);
    s' := Then(s', Register(h));
  }

  lemma Stops(s: Server) returns (s': Server)
    requires Reaches(s) && s.stop.NotCalled? && s.managed && !Reading(s)
    ensures Reaches(s')
    ensures s' == s.(stop := Closed, managed := false,
                     transports := CloseListed(s.transports, s.conns, s.conns.Keys))
  {
    s' := Then(s, FireQuit);
    s' := Then(s', Clear);
    s' := Then(s', CloseAll);
  }

  /** Two handlers for one key can both get past the check, and then Stop leaves the first of their
      transports running and open. */
  lemma RaceLeavesOneOpen(key: Key)
    ensures exists s :: Reaches(s) && s.stop.Closed? && s.wg == 2
                        && |s.transports| == 2 && s.transports[0] == Transport(key, Pumping, false)
  {
    assert Exec(Step, INIT, []) == Some(INIT);
    var s := Enters(INIT, 0, key);
    s := Enters(s, 1, key);
    s := Opens(s, 0, key);
    s := Opens(s, 1, key);
    s := Stops(s);
  }
}
