/** Every step keeps the facts of CallsSafety. First what kinds of change keep each fact, then the
    kind of change each step makes. */
module CallsSteps {
  import opened Runs
  import opened Credentials
  import opened MethodCalls
  import opened Calls
  import opened CallsSafety

  // ---- Kinds of change -----------------------------------------------------------------------

  /** A call moves on: it keeps its identity, and what has been sent stays sent. */
  ghost predicate Moves(c: Call, c': Call) {
    && c'.dir == c.dir && c'.key == c.key && c'.rpc == c.rpc && c'.args == c.args
    && (IsSent(c.pc) ==> IsSent(c'.pc)) && (c.ctxDone ==> c'.ctxDone)
  }

  ghost predicate SameCalls(w: World, w': World) {
    w'.honest == w.honest && w'.calls == w.calls && w.executions <= w'.executions
  }

  /** At most the one call changes, by moving on. */
  ghost predicate OneCall(w: World, w': World, id: CallId) {
    && w'.honest == w.honest && w.executions == w'.executions
    && id in w.calls && id in w'.calls && Moves(w.calls[id], w'.calls[id])
    && w'.calls == w.calls[id := w'.calls[id]]
  }

  lemma SameCallsGrow(w: World, w': World)
    requires SameCalls(w, w')
    ensures Grows(w, w')
  {
  }

  lemma OneCallGrows(w: World, w': World, id: CallId)
    requires OneCall(w, w', id)
    ensures Grows(w, w')
  {
  }

  /** Item n leaves the pool, and in its place there may come another. */
  ghost predicate Replaced(w: World, w': World, n: nat, items: seq<Item>) {
    n < |w.pool| && |items| <= 1 && w'.pool == Without(w.pool, n) + items
  }

  // ---- Items ---------------------------------------------------------------------------------

  ghost predicate ItemFine(w: World, item: Item) {
    ItemShape(w, item) && (KeyOf(item) in w.honest ==> ItemOk(w, item))
  }

  lemma ItemsGrow(w: World, w': World, items: seq<Item>)
    requires Grows(w, w') && Items(w)
    requires forall item <- w'.pool :: item in w.pool || item in items
    requires forall item <- items :: ItemFine(w', item)
    ensures Items(w')
  {
    forall item <- w'.pool
      ensures ItemFine(w', item)
    {
      if item in w.pool && KeyOf(item) in w.honest {
        ItemOkGrows(w, w', item);
      }
    }
  }

  lemma ItemsReplaced(w: World, w': World, n: nat, items: seq<Item>)
    requires Grows(w, w') && Items(w) && Replaced(w, w', n, items)
    requires items != [] ==> ItemFine(w', items[0])
    ensures Items(w')
  {
    forall item <- w'.pool
      ensures item in w.pool || item in items
    {
    }
    ItemsGrow(w, w', items);
  }

  // ---- Calls ---------------------------------------------------------------------------------

  ghost predicate SameConns(w: World, w': World) {
    w'.serverConn == w.serverConn && w'.clientConn == w.clientConn
  }

  lemma CallsSame(w: World, w': World)
    requires AllCalls(w) && SameCalls(w, w') && SameConns(w, w')
    ensures AllCalls(w')
  {
    SameCallsGrow(w, w');
    forall id <- w'.calls
      ensures CallOk(w', id)
    {
      CallOkGrows(w, w', id);
    }
  }

  lemma CallsOne(w: World, w': World, id: CallId)
    requires AllCalls(w) && OneCall(w, w', id) && SameConns(w, w')
    requires CallOk(w', id)
    ensures AllCalls(w')
  {
    OneCallGrows(w, w', id);
    forall i <- w'.calls
      ensures CallOk(w', i)
    {
      if i != id {
        CallOkGrows(w, w', i);
      }
    }
  }

  // ---- Tables --------------------------------------------------------------------------------

  lemma TablesSame(w: World, w': World)
    requires Tables(w) && SameCalls(w, w')
    requires w'.clientTable == w.clientTable && w'.serverTable == w.serverTable && w'.holder == w.holder
    ensures Tables(w')
  {
  }

  lemma HolderStays(w: World, w': World)
    requires HolderListed(w) && Grows(w, w') && w'.holder == w.holder
    requires w'.holder.Some? ==> forall slot <- w.serverTable :: slot in w'.serverTable
    ensures HolderListed(w')
  {
  }

  /** A pending call stays pending, or is the server's and fails, leaving its entry. */
  ghost predicate KeepsEntry(call: Call, pc: Pc) {
    && (IsPending(pc) <==> IsPending(call.pc) && pc != Done(Failed))
    && (pc == Done(Failed) ==> call.pc == Done(Failed) || call.dir.ToClient?)
    && (call.pc == Done(Failed) ==> pc == Done(Failed))
  }

  lemma SlotsOne(w: World, w': World, id: CallId)
    requires OneCall(w, w', id) && KeepsEntry(w.calls[id], w'.calls[id].pc)
    requires ClientSlots(w) && ServerSlots(w) && PendingListed(w)
    requires w'.clientTable == w.clientTable && w'.serverTable == w.serverTable
    ensures ClientSlots(w') && ServerSlots(w') && PendingListed(w')
  {
  }

  lemma TablesOne(w: World, w': World, id: CallId)
    requires Tables(w) && OneCall(w, w', id) && KeepsEntry(w.calls[id], w'.calls[id].pc)
    requires w'.clientTable == w.clientTable && w'.serverTable == w.serverTable && w'.holder == w.holder
    ensures Tables(w')
  {
    OneCallGrows(w, w', id);
    HolderStays(w, w');
    SlotsOne(w, w', id);
  }

  // ---- Counts --------------------------------------------------------------------------------

  ghost predicate NoNewAnswers(w: World, w': World) {
    forall id <- w'.calls :: IsAnswered(w'.calls[id].pc) ==> id in w.calls && IsAnswered(w.calls[id].pc)
  }

  lemma CountsCallsOnly(w: World, w': World)
    requires Counts(w) && Grows(w, w') && NoNewAnswers(w, w')
    requires w'.pool == w.pool && w'.executions == w.executions && w'.holder == w.holder
    ensures Counts(w')
  {
    forall dir, key, id | key in w'.honest
      ensures RequestBound(w', dir, key, id) && ResponseBound(w', dir, key, id)
    {
      assert RequestBound(w, dir, key, id) && ResponseBound(w, dir, key, id);
    }
  }

  ghost predicate SameRest(w: World, w': World) {
    w'.honest == w.honest && w'.calls == w.calls && w'.executions == w.executions
  }

  /** An item that goes, or turns into one with the same tag. */
  lemma CountsReplaced(w: World, w': World, n: nat, items: seq<Item>)
    requires Counts(w) && SameRest(w, w') && w'.holder == w.holder && Replaced(w, w', n, items)
    requires items != [] ==> TagOf(items[0]) == TagOf(w.pool[n])
    ensures Counts(w')
  {
    forall dir, key, id | key in w'.honest
      ensures RequestBound(w', dir, key, id) && ResponseBound(w', dir, key, id)
    {
      assert RequestBound(w, dir, key, id) && ResponseBound(w, dir, key, id);
      CountReplaced(w, w', n, items, Tag(false, dir, key, id));
      CountReplaced(w, w', n, items, Tag(true, dir, key, id));
    }
  }

  lemma CountReplaced(w: World, w': World, n: nat, items: seq<Item>, tag: Tag)
    requires Replaced(w, w', n, items)
    ensures Count(w'.pool, tag) == Count(w.pool, tag) - One(TagOf(w.pool[n]) == Some(tag))
                                   + (if items == [] then 0 else One(TagOf(items[0]) == Some(tag)))
  {
    CountWithout(w.pool, n, tag);
    if items == [] {
      assert w'.pool == Without(w.pool, n);
    } else {
      assert items == [items[0]];
      CountAppend(Without(w.pool, n), items[0], tag);
    }
  }

  // ---- The caller ----------------------------------------------------------------------------

  lemma InvokeKeeps(w: World, a: Action)
    requires Inv(w) && a.Invoke? && CallerStep(w, a).Some?
    ensures Inv(CallerStep(w, a).value)
  {
    var w' := CallerStep(w, a).value;
    assert Grows(w, w');
    ItemsGrow(w, w', []);
    forall id <- w'.calls
      ensures CallOk(w', id)
    {
      if id != a.id {
        CallOkGrows(w, w', id);
      }
    }
    CountsCallsOnly(w, w');
    InvokeTables(w, a);
  }

  lemma InvokeTables(w: World, a: Action)
    requires Tables(w) && a.Invoke? && CallerStep(w, a).Some?
    ensures Tables(CallerStep(w, a).value)
  {
  }

  /** The steps that move one call and leave pool, connections and lock alone. */
  predicate IsMove(a: Action) {
    a.Register? || a.Route? || a.WriteFails? || a.Expire? || a.Timeout? || a.Remove?
  }

  predicate CanMove(call: Call, a: Action) {
    match a
    case Register(_) => call.pc == Built
    case Route(_) => call.pc == Registered
    case WriteFails(_) => call.pc.Routed?
    case Timeout(_) => call.pc == Written && call.ctxDone
    case Remove(_) => call.pc.Leaving? || call.pc.Expiring?
    case _ => true
  }

  function RoutedPc(w: World, call: Call): Pc {
    if call.dir.ToServer? then
      if call.key in w.clientConn then Routed(w.clientConn[call.key]) else Leaving(Failed)
    else
      if call.key in w.serverConn then Routed(w.serverConn[call.key]) else Done(Failed)
  }

  function NextPc(w: World, call: Call, a: Action): Pc {
    match a
    case Register(_) => Registered
    case Route(_) => RoutedPc(w, call)
    case WriteFails(_) => if call.dir.ToServer? then Leaving(Failed) else Done(Failed)
    case Timeout(_) => if call.dir.ToServer? then Leaving(TimedOut) else Expiring
    case Remove(_) => Done(if call.pc.Leaving? then call.pc.outcome else TimedOut)
    case _ => call.pc
  }

  function NextCall(w: World, call: Call, a: Action): Call {
    call.(pc := NextPc(w, call, a), ctxDone := call.ctxDone || a.Expire?)
  }

  ghost predicate Moved(w: World, w': World, id: CallId) {
    && OneCall(w, w', id) && SameConns(w, w') && w'.pool == w.pool && w'.holder == w.holder
    && (IsAnswered(w'.calls[id].pc) <==> IsAnswered(w.calls[id].pc))
  }

  lemma RegisterShape(w: World, a: Action)
    requires a.Register? && CallerStep(w, a).Some?
    ensures a.id in w.calls && CanMove(w.calls[a.id], a)
    ensures var call := w.calls[a.id];
            CallerStep(w, a).value ==
            w.(calls := w.calls[a.id := NextCall(w, call, a)],
               clientTable := if call.dir.ToServer? then w.clientTable[(call.key, a.id) := Chan(a.id)]
                              else w.clientTable,
               serverTable := if call.dir.ToClient? then w.serverTable[(call.key, a.id) := Chan(a.id)]
                              else w.serverTable)
  {
  }

  lemma RemoveShape(w: World, a: Action)
    requires a.Remove? && CallerStep(w, a).Some?
    ensures a.id in w.calls && CanMove(w.calls[a.id], a) && (w.calls[a.id].dir.ToClient? ==> w.holder.None?)
    ensures var call := w.calls[a.id];
            CallerStep(w, a).value ==
            w.(calls := w.calls[a.id := NextCall(w, call, a)],
               clientTable := if call.pc.Leaving? then w.clientTable - {(call.key, a.id)} else w.clientTable,
               serverTable := if call.pc.Expiring? then w.serverTable - {(call.key, a.id)} else w.serverTable)
  {
  }

  lemma OtherMoveShape(w: World, a: Action)
    requires IsMove(a) && !a.Register? && !a.Remove? && CallerStep(w, a).Some?
    ensures a.id in w.calls && CanMove(w.calls[a.id], a)
    ensures CallerStep(w, a).value == w.(calls := w.calls[a.id := NextCall(w, w.calls[a.id], a)])
  {
  }

  lemma MoveShape(w: World, a: Action)
    requires IsMove(a) && CallerStep(w, a).Some?
    ensures a.id in w.calls && CanMove(w.calls[a.id], a)
    ensures var w' := CallerStep(w, a).value;
            && w'.calls == w.calls[a.id := NextCall(w, w.calls[a.id], a)]
            && SameConns(w, w') && w'.honest == w.honest && w'.executions == w.executions
            && w'.pool == w.pool && w'.holder == w.holder
  {
    if a.Register? { RegisterShape(w, a); } else if a.Remove? { RemoveShape(w, a); } else { OtherMoveShape(w, a); }
  }

  /** What a move keeps of the call itself. */
  lemma NextCallMoves(w: World, call: Call, a: Action)
    requires IsMove(a) && CanMove(call, a)
    ensures Moves(call, NextCall(w, call, a))
    ensures IsAnswered(NextPc(w, call, a)) <==> IsAnswered(call.pc)
  {
  }

  /** The ways in which a move that is neither registration nor removal can end a call. */
  lemma NextCallKeepsEntry(w: World, call: Call, a: Action)
    requires IsMove(a) && !a.Register? && !a.Remove? && CanMove(call, a)
    ensures KeepsEntry(call, NextPc(w, call, a))
  {
  }

  lemma MoveIsMoved(w: World, a: Action)
    requires IsMove(a) && CallerStep(w, a).Some?
    ensures Moved(w, CallerStep(w, a).value, a.id)
  {
    MoveShape(w, a);
    NextCallMoves(w, w.calls[a.id], a);
  }

  lemma NextCallOk(w: World, w': World, a: Action)
    requires AllCalls(w) && IsMove(a) && a.id in w.calls && CanMove(w.calls[a.id], a)
    requires OneCall(w, w', a.id) && w'.calls[a.id] == NextCall(w, w.calls[a.id], a)
    ensures CallOk(w', a.id)
  {
    assert CallOk(w, a.id);
  }

  lemma SlotsAddClient(w: World, w': World, id: CallId)
    requires OneCall(w, w', id) && w.calls[id].pc == Built && w'.calls[id].pc == Registered
    requires ClientSlots(w) && ServerSlots(w) && PendingListed(w) && w.calls[id].dir.ToServer?
    requires w'.clientTable == w.clientTable[(w.calls[id].key, id) := Chan(id)] && w'.serverTable == w.serverTable
    ensures ClientSlots(w') && ServerSlots(w') && PendingListed(w')
  {
  }

  lemma SlotsAddServer(w: World, w': World, id: CallId)
    requires OneCall(w, w', id) && w.calls[id].pc == Built && w'.calls[id].pc == Registered
    requires ClientSlots(w) && ServerSlots(w) && PendingListed(w) && w.calls[id].dir.ToClient?
    requires w'.serverTable == w.serverTable[(w.calls[id].key, id) := Chan(id)] && w'.clientTable == w.clientTable
    ensures ClientSlots(w') && ServerSlots(w') && PendingListed(w')
  {
  }

  lemma SlotsRemove(w: World, w': World, id: CallId)
    requires OneCall(w, w', id) && w'.calls[id].pc.Done?
    requires ClientSlots(w) && ServerSlots(w) && PendingListed(w)
    requires var call := w.calls[id]; var slot := (call.key, id);
             && w'.clientTable == (if call.dir.ToServer? then w.clientTable - {slot} else w.clientTable)
             && w'.serverTable == (if call.dir.ToClient? then w.serverTable - {slot} else w.serverTable)
    ensures ClientSlots(w') && ServerSlots(w') && PendingListed(w')
  {
  }

  lemma RegisterTables(w: World, a: Action)
    requires Tables(w) && a.Register? && CallerStep(w, a).Some? && Moved(w, CallerStep(w, a).value, a.id)
    ensures Tables(CallerStep(w, a).value)
  {
    var w' := CallerStep(w, a).value;
    RegisterShape(w, a);
    if w.calls[a.id].dir.ToServer? { SlotsAddClient(w, w', a.id); } else { SlotsAddServer(w, w', a.id); }
    OneCallGrows(w, w', a.id);
    HolderStays(w, w');
  }

  lemma RemoveTables(w: World, a: Action)
    requires AllCalls(w) && Tables(w) && a.Remove? && CallerStep(w, a).Some?
    requires Moved(w, CallerStep(w, a).value, a.id)
    ensures Tables(CallerStep(w, a).value)
  {
    var w' := CallerStep(w, a).value;
    RemoveShape(w, a);
    assert CallOk(w, a.id);
    SlotsRemove(w, w', a.id);
    OneCallGrows(w, w', a.id);
    HolderStays(w, w');
  }

  lemma MoveTables(w: World, a: Action)
    requires AllCalls(w) && Tables(w) && IsMove(a) && CallerStep(w, a).Some?
    requires Moved(w, CallerStep(w, a).value, a.id)
    ensures Tables(CallerStep(w, a).value)
  {
    if a.Register? {
      RegisterTables(w, a);
    } else if a.Remove? {
      RemoveTables(w, a);
    } else {
      OtherMoveShape(w, a);
      NextCallKeepsEntry(w, w.calls[a.id], a);
      TablesOne(w, CallerStep(w, a).value, a.id);
    }
  }

  lemma OneCallItems(w: World, w': World, id: CallId)
    requires Items(w) && OneCall(w, w', id) && w'.pool == w.pool
    ensures Items(w')
  {
    OneCallGrows(w, w', id);
    ItemsGrow(w, w', []);
  }

  lemma MovedCounts(w: World, w': World, id: CallId)
    requires Counts(w) && Moved(w, w', id)
    ensures Counts(w')
  {
    OneCallGrows(w, w', id);
    CountsCallsOnly(w, w');
  }

  lemma MoveCalls(w: World, a: Action)
    requires AllCalls(w) && IsMove(a) && CallerStep(w, a).Some?
    requires Moved(w, CallerStep(w, a).value, a.id)
    ensures AllCalls(CallerStep(w, a).value)
  {
    MoveShape(w, a);
    NextCallOk(w, CallerStep(w, a).value, a);
    CallsOne(w, CallerStep(w, a).value, a.id);
  }

  lemma MoveKeeps(w: World, a: Action)
    requires Inv(w) && IsMove(a) && CallerStep(w, a).Some?
    ensures Inv(CallerStep(w, a).value)
  {
    var w' := CallerStep(w, a).value;
    MoveIsMoved(w, a);
    MoveTables(w, a);
    MoveCalls(w, a);
    OneCallItems(w, w', a.id);
    MovedCounts(w, w', a.id);
  }

  lemma WriteShape(w: World, a: Action)
    requires AllCalls(w) && a.Write? && CallerStep(w, a).Some?
    ensures var w' := CallerStep(w, a).value;
            && OneCall(w, w', a.id) && SameConns(w, w') && w'.holder == w.holder
            && w'.clientTable == w.clientTable && w'.serverTable == w.serverTable
            && w.calls[a.id].pc.Routed? && w'.calls[a.id] == w.calls[a.id].(pc := Written)
            && w'.pool == w.pool + [RequestItem(w, a.id)]
            && CallOk(w', a.id) && w.calls[a.id].pc.conn.owner == w.calls[a.id].key
  {
    assert CallOk(w, a.id);
  }

  function RequestItem(w: World, id: CallId): Item
    requires id in w.calls && w.calls[id].pc.Routed?
  {
    InFlight(w.calls[id].pc.conn, w.calls[id].dir.ToServer?, RequestFrame(RequestOf(w, id)))
  }

  lemma WriteCounts(w: World, w': World, id: CallId)
    requires Counts(w) && OneCall(w, w', id) && w'.holder == w.holder
    requires w.calls[id].pc.Routed? && w'.calls[id].pc == Written && w.calls[id].pc.conn.owner == w.calls[id].key
    requires w'.pool == w.pool + [RequestItem(w, id)]
    ensures Counts(w')
  {
    forall dir, key, i | key in w'.honest
      ensures RequestBound(w', dir, key, i) && ResponseBound(w', dir, key, i)
    {
      assert RequestBound(w, dir, key, i) && ResponseBound(w, dir, key, i);
      CountAppend(w.pool, RequestItem(w, id), Tag(false, dir, key, i));
      CountAppend(w.pool, RequestItem(w, id), Tag(true, dir, key, i));
    }
  }

  lemma WriteItems(w: World, w': World, id: CallId)
    requires Items(w) && OneCall(w, w', id) && w.calls[id].pc.Routed? && w'.calls[id].pc == Written
    requires w.calls[id].pc.conn.owner == w.calls[id].key && w'.pool == w.pool + [RequestItem(w, id)]
    ensures Items(w')
  {
    OneCallGrows(w, w', id);
    ItemsGrow(w, w', [RequestItem(w, id)]);
  }

  lemma WriteKeeps(w: World, a: Action)
    requires Inv(w) && a.Write? && CallerStep(w, a).Some?
    ensures Inv(CallerStep(w, a).value)
  {
    var w' := CallerStep(w, a).value;
    WriteShape(w, a);
    WriteItems(w, w', a.id);
    CallsOne(w, w', a.id);
    TablesOne(w, w', a.id);
    WriteCounts(w, w', a.id);
  }

  // ---- The network and the called side -------------------------------------------------------

  lemma ConnectionsKeep(w: World, a: Action)
    requires Inv(w) && (a.Connect? || a.Disconnect? || a.Accept? || a.Unregister?) && NetworkStep(w, a).Some?
    ensures Inv(NetworkStep(w, a).value)
  {
    var w' := NetworkStep(w, a).value;
    SameCallsGrow(w, w');
    ItemsGrow(w, w', []);
    forall id <- w'.calls
      ensures CallOk(w', id)
    {
      CallOkGrows(w, w', id);
    }
    TablesSame(w, w');
    CountsCallsOnly(w, w');
  }

  lemma InjectKeeps(w: World, a: Action)
    requires Inv(w) && a.Inject? && NetworkStep(w, a).Some?
    ensures Inv(NetworkStep(w, a).value)
  {
    var w' := NetworkStep(w, a).value;
    var item := InFlight(a.conn, true, a.frame);
    assert w'.pool == w.pool + [item];
    SameCallsGrow(w, w');
    ItemsGrow(w, w', [item]);
    CallsSame(w, w');
    TablesSame(w, w');
    forall dir, key, id | key in w'.honest
      ensures RequestBound(w', dir, key, id) && ResponseBound(w', dir, key, id)
    {
      assert RequestBound(w, dir, key, id) && ResponseBound(w, dir, key, id);
      CountAppend(w.pool, item, Tag(false, dir, key, id));
      CountAppend(w.pool, item, Tag(true, dir, key, id));
    }
  }

  /** A step that only moves one item along, or drops it. */
  ghost predicate Passed(w: World, w': World, n: nat, items: seq<Item>) {
    && SameRest(w, w') && SameConns(w, w') && Replaced(w, w', n, items)
    && w'.clientTable == w.clientTable && w'.serverTable == w.serverTable && w'.holder == w.holder
  }

  lemma PassKeeps(w: World, w': World, n: nat, items: seq<Item>)
    requires Inv(w) && Passed(w, w', n, items)
    requires items != [] ==> TagOf(items[0]) == TagOf(w.pool[n]) && (ItemFine(w, w.pool[n]) ==> ItemFine(w, items[0]))
    ensures Inv(w')
  {
    SameCallsGrow(w, w');
    assert w.pool[n] in w.pool && ItemFine(w, w.pool[n]);
    if items != [] {
      if KeyOf(items[0]) in w.honest { ItemOkGrows(w, w', items[0]); }
    }
    ItemsReplaced(w, w', n, items);
    CallsSame(w, w');
    TablesSame(w, w');
    CountsReplaced(w, w', n, items);
  }

  lemma LoseKeeps(w: World, a: Action)
    requires Inv(w) && a.Lose? && NetworkStep(w, a).Some?
    ensures Inv(NetworkStep(w, a).value)
  {
    PassKeeps(w, NetworkStep(w, a).value, a.n, []);
  }

  /** What becomes of a frame at the other end. */
  function Arriving(item: Item): seq<Item>
    requires item.InFlight?
  {
    match item.frame
    case RequestFrame(req) => [Requested(if item.toServer then ToServer else ToClient, item.conn.owner, req)]
    case ResponseFrame(resp) => [Received(if item.toServer then ToClient else ToServer, item.conn.owner, resp)]
    case GarbageFrame => []
  }

  /** The server reads what any client sends; what becomes of a frame at another's client is not ours. */
  function ReadFrom(w: World, item: Item): seq<Item>
    requires item.InFlight?
  {
    if item.toServer || item.conn.owner in w.honest then Arriving(item) else []
  }

  lemma DeliverPool(w: World, a: Action)
    requires a.Deliver? && NetworkStep(w, a).Some?
    ensures w.pool[a.n].InFlight?
    ensures NetworkStep(w, a).value == w.(pool := Without(w.pool, a.n) + ReadFrom(w, w.pool[a.n]))
  {
    assert Without(w.pool, a.n) + [] == Without(w.pool, a.n);
  }

  lemma DeliverShape(w: World, a: Action)
    requires a.Deliver? && NetworkStep(w, a).Some?
    ensures w.pool[a.n].InFlight?
    ensures Passed(w, NetworkStep(w, a).value, a.n, ReadFrom(w, w.pool[a.n]))
  {
    DeliverPool(w, a);
  }

  lemma ArrivingFine(w: World, item: Item)
    requires item.InFlight? && Arriving(item) != []
    ensures TagOf(Arriving(item)[0]) == TagOf(item)
    ensures ItemFine(w, item) ==> ItemFine(w, Arriving(item)[0])
  {
  }

  lemma DeliverKeeps(w: World, a: Action)
    requires Inv(w) && a.Deliver? && NetworkStep(w, a).Some?
    ensures Inv(NetworkStep(w, a).value)
  {
    var w' := NetworkStep(w, a).value;
    DeliverShape(w, a);
    if Arriving(w.pool[a.n]) != [] {
      ArrivingFine(w, w.pool[a.n]);
    }
    PassKeeps(w, w', a.n, ReadFrom(w, w.pool[a.n]));
  }

  lemma RejectKeeps(w: World, a: Action)
    requires Inv(w) && a.Reject? && CalledStep(w, a).Some?
    ensures Inv(CalledStep(w, a).value)
  {
    PassKeeps(w, CalledStep(w, a).value, a.n, []);
  }

  /** The connection a reply goes out on, if there is one. */
  function ReplyConn(w: World, dir: Direction, key: Key): Option<Connection> {
    var conns := if dir.ToServer? then w.serverConn else w.clientConn;
    if key in conns then Some(conns[key]) else None
  }

  function RoutedReply(w: World, item: Item): seq<Item>
    requires item.Replying?
  {
    match ReplyConn(w, item.dir, item.key)
    case Some(conn) => [ReplyRouted(item.dir, item.key, conn, item.resp)]
    case None => []
  }

  lemma RouteReplyPool(w: World, a: Action)
    requires a.RouteReply? && CalledStep(w, a).Some?
    ensures w.pool[a.n].Replying?
    ensures CalledStep(w, a).value == w.(pool := Without(w.pool, a.n) + RoutedReply(w, w.pool[a.n]))
  {
    assert Without(w.pool, a.n) + [] == Without(w.pool, a.n);
  }

  lemma RouteReplyShape(w: World, a: Action)
    requires a.RouteReply? && CalledStep(w, a).Some?
    ensures w.pool[a.n].Replying? && Passed(w, CalledStep(w, a).value, a.n, RoutedReply(w, w.pool[a.n]))
  {
    RouteReplyPool(w, a);
  }

  lemma RouteReplyKeeps(w: World, a: Action)
    requires Inv(w) && a.RouteReply? && CalledStep(w, a).Some?
    ensures Inv(CalledStep(w, a).value)
  {
    var w' := CalledStep(w, a).value;
    var item := w.pool[a.n];
    RouteReplyShape(w, a);
    PassKeeps(w, w', a.n, RoutedReply(w, item));
  }

  lemma WriteReplyKeeps(w: World, a: Action)
    requires Inv(w) && a.WriteReply? && CalledStep(w, a).Some?
    ensures Inv(CalledStep(w, a).value)
  {
    var item := w.pool[a.n];
    assert item in w.pool && ItemFine(w, item);
    PassKeeps(w, CalledStep(w, a).value, a.n, [InFlight(item.conn, item.dir.ToClient?, ResponseFrame(item.resp))]);
  }

  lemma HandleShape(w: World, a: Action)
    requires a.Handle? && CalledStep(w, a).Some?
    ensures var w' := CalledStep(w, a).value; var item := w.pool[a.n];
            var resp := Response(item.req.callId, a.payload, a.error);
            && item.Requested?
            && SameCalls(w, w') && SameConns(w, w') && w'.holder == w.holder
            && w'.clientTable == w.clientTable && w'.serverTable == w.serverTable
            && Replaced(w, w', a.n, [Replying(item.dir, item.key, resp)])
            && w'.executions == w.executions + [Execution(item.dir, item.key, item.req, resp)]
  {
  }

  lemma HandleKeeps(w: World, a: Action)
    requires Inv(w) && a.Handle? && CalledStep(w, a).Some?
    ensures Inv(CalledStep(w, a).value)
  {
    var w' := CalledStep(w, a).value;
    HandleShape(w, a);
    var item := w.pool[a.n];
    var resp := Response(item.req.callId, a.payload, a.error);
    var reply := Replying(item.dir, item.key, resp);
    var e := Execution(item.dir, item.key, item.req, resp);
    assert item in w.pool && ItemFine(w, item);
    SameCallsGrow(w, w');
    assert ItemFine(w', reply) by {
      assert e in w'.executions;
    }
    ItemsReplaced(w, w', a.n, [reply]);
    CallsSame(w, w');
    TablesSame(w, w');
    HandleCounts(w, w', a.n, reply, e);
  }

  lemma HandleCounts(w: World, w': World, n: nat, reply: Item, e: Execution)
    requires Counts(w) && SameCalls(w, w') && w'.holder == w.holder && Replaced(w, w', n, [reply])
    requires w.pool[n].Requested? && reply.Replying? && w'.executions == w.executions + [e]
    requires TagOf(w.pool[n]) == Some(Tag(false, e.dir, e.key, e.req.callId))
    requires TagOf(reply) == Some(Tag(true, e.dir, e.key, e.req.callId))
    ensures Counts(w')
  {
    forall dir, key, id | key in w'.honest
      ensures RequestBound(w', dir, key, id) && ResponseBound(w', dir, key, id)
    {
      assert RequestBound(w, dir, key, id) && ResponseBound(w, dir, key, id);
      CountReplaced(w, w', n, [reply], Tag(false, dir, key, id));
      CountReplaced(w, w', n, [reply], Tag(true, dir, key, id));
      ExecutedAppend(w.executions, e, dir, key, id);
    }
  }

  // ---- Responses at the caller ---------------------------------------------------------------

  lemma ClientLookupShape(w: World, a: Action)
    requires a.Lookup? && ResponseStep(w, a).Some? && w.pool[a.n].dir.ToServer?
    ensures var w' := ResponseStep(w, a).value; var item := w.pool[a.n]; var slot := (item.key, item.resp.callId);
            && item.Received?
            && Passed(w, w', a.n,
                      if slot in w.clientTable then [Sending(item.key, item.resp, w.clientTable[slot])] else [])
  {
    assert Without(w.pool, a.n) + [] == Without(w.pool, a.n);
  }

  lemma ClientLookupKeeps(w: World, a: Action)
    requires Inv(w) && a.Lookup? && ResponseStep(w, a).Some? && w.pool[a.n].dir.ToServer?
    ensures Inv(ResponseStep(w, a).value)
  {
    var w' := ResponseStep(w, a).value;
    ClientLookupShape(w, a);
    var item := w.pool[a.n];
    var slot := (item.key, item.resp.callId);
    if slot in w.clientTable {
      assert w.clientTable[slot] == Chan(slot.1);
      assert CallOk(w, slot.1);
      PassKeeps(w, w', a.n, [Sending(item.key, item.resp, w.clientTable[slot])]);
    } else {
      PassKeeps(w, w', a.n, []);
    }
  }

  lemma ServerLookupShape(w: World, a: Action)
    requires a.Lookup? && ResponseStep(w, a).Some? && w.pool[a.n].dir.ToClient?
    ensures var w' := ResponseStep(w, a).value; var item := w.pool[a.n];
            && item.Received? && w.holder.None?
            && SameRest(w, w') && SameConns(w, w') && Replaced(w, w', a.n, [])
            && w'.clientTable == w.clientTable && w'.serverTable == w.serverTable
            && w'.holder == if (item.key, item.resp.callId) in w.serverTable
                            then Some(Holder(item.key, item.resp, w.serverTable[(item.key, item.resp.callId)]))
                            else None
  {
  }

  lemma ServerLookupKeeps(w: World, a: Action)
    requires Inv(w) && a.Lookup? && ResponseStep(w, a).Some? && w.pool[a.n].dir.ToClient?
    ensures Inv(ResponseStep(w, a).value)
  {
    var w' := ResponseStep(w, a).value;
    ServerLookupShape(w, a);
    if w'.holder.None? {
      PassKeeps(w, w', a.n, []);
    } else {
      var item := w.pool[a.n];
      assert item in w.pool && ItemFine(w, item);
      SameCallsGrow(w, w');
      ItemsReplaced(w, w', a.n, []);
      CallsSame(w, w');
      HoldTables(w, w');
      HoldCounts(w, w', a.n);
    }
  }

  lemma HoldTables(w: World, w': World)
    requires Tables(w) && SameRest(w, w') && w'.clientTable == w.clientTable && w'.serverTable == w.serverTable
    requires w'.holder.Some?
    requires var h := w'.holder.value;
             && (h.key, h.resp.callId) in w.serverTable && h.ch == w.serverTable[(h.key, h.resp.callId)]
             && (h.key in w.honest ==> ResponseOk(w, ToClient, h.key, h.resp))
    ensures Tables(w')
  {
  }

  lemma HoldCounts(w: World, w': World, n: nat)
    requires Counts(w) && SameRest(w, w') && Replaced(w, w', n, []) && w.holder.None? && w'.holder.Some?
    requires TagOf(w.pool[n]) == Some(Tag(true, ToClient, w'.holder.value.key, w'.holder.value.resp.callId))
    ensures Counts(w')
  {
    forall dir, key, id | key in w'.honest
      ensures RequestBound(w', dir, key, id) && ResponseBound(w', dir, key, id)
    {
      assert RequestBound(w, dir, key, id) && ResponseBound(w, dir, key, id);
      CountReplaced(w, w', n, [], Tag(false, dir, key, id));
      CountReplaced(w, w', n, [], Tag(true, dir, key, id));
    }
  }

  lemma GiveUpKeeps(w: World, a: Action)
    requires Inv(w) && a.GiveUp? && ResponseStep(w, a).Some?
    ensures Inv(ResponseStep(w, a).value)
  {
    PassKeeps(w, ResponseStep(w, a).value, a.n, []);
  }

  /** The call takes the response, whose one copy is gone: an item of the pool, or the holder. */
  lemma AnswerCounts(w: World, w': World, id: CallId, key: Key, dir: Direction)
    requires Counts(w) && Grows(w, w') && OneCall(w, w', id)
    requires w.calls[id].dir == dir && w.calls[id].key == key
    requires forall d, k, i :: Count(w'.pool, Tag(false, d, k, i)) <= Count(w.pool, Tag(false, d, k, i))
    requires forall d, k, i ::
               Count(w'.pool, Tag(true, d, k, i)) + One(HeldFor(w', d, k, i)) + One(d == dir && k == key && i == id)
               <= Count(w.pool, Tag(true, d, k, i)) + One(HeldFor(w, d, k, i))
    ensures Counts(w')
  {
    forall d, k, i | k in w'.honest
      ensures RequestBound(w', d, k, i) && ResponseBound(w', d, k, i)
    {
      assert RequestBound(w, d, k, i) && ResponseBound(w, d, k, i);
    }
  }

  lemma ClientSendShape(w: World, a: Action)
    requires Items(w) && AllCalls(w) && a.ClientSend? && ResponseStep(w, a).Some?
    ensures var w' := ResponseStep(w, a).value; var item := w.pool[a.n]; var id := item.resp.callId;
            && item.Sending? && ResponseOk(w, ToServer, item.key, item.resp)
            && OneCall(w, w', id) && SameConns(w, w') && Replaced(w, w', a.n, [])
            && w'.clientTable == w.clientTable && w'.serverTable == w.serverTable && w'.holder == w.holder
            && w.calls[id].pc == Written && w'.calls[id] == w.calls[id].(pc := Leaving(Answered(item.key, item.resp)))
  {
    assert w.pool[a.n] in w.pool && ItemFine(w, w.pool[a.n]);
  }

  lemma ClientSendCounts(w: World, w': World, n: nat)
    requires Counts(w) && Replaced(w, w', n, []) && w.pool[n].Sending? && w'.holder == w.holder
    requires OneCall(w, w', w.pool[n].resp.callId)
    requires IsCall(w, ToServer, w.pool[n].key, w.pool[n].resp.callId)
    ensures Counts(w')
  {
    var item := w.pool[n];
    forall d, k, i
      ensures Count(w'.pool, Tag(false, d, k, i)) <= Count(w.pool, Tag(false, d, k, i))
    {
      CountReplaced(w, w', n, [], Tag(false, d, k, i));
    }
    forall d, k, i
      ensures Count(w'.pool, Tag(true, d, k, i)) + One(HeldFor(w', d, k, i))
              + One(d == ToServer && k == item.key && i == item.resp.callId)
              <= Count(w.pool, Tag(true, d, k, i)) + One(HeldFor(w, d, k, i))
    {
      CountReplaced(w, w', n, [], Tag(true, d, k, i));
    }
    OneCallGrows(w, w', item.resp.callId);
    AnswerCounts(w, w', item.resp.callId, item.key, ToServer);
  }

  lemma ClientSendKeeps(w: World, a: Action)
    requires Inv(w) && a.ClientSend? && ResponseStep(w, a).Some?
    ensures Inv(ResponseStep(w, a).value)
  {
    var w' := ResponseStep(w, a).value;
    ClientSendShape(w, a);
    var item := w.pool[a.n];
    var id := item.resp.callId;
    OneCallGrows(w, w', id);
    ItemsReplaced(w, w', a.n, []);
    assert CallOk(w, id);
    ResponseOkGrows(w, w', ToServer, item.key, item.resp);
    CallsOne(w, w', id);
    TablesOne(w, w', id);
    ClientSendCounts(w, w', a.n);
  }

  lemma ServerSendShape(w: World)
    requires Tables(w) && ResponseStep(w, ServerSend).Some?
    ensures var w' := ResponseStep(w, ServerSend).value; var h := w.holder.value; var id := h.resp.callId;
            && IsCall(w, ToClient, h.key, id) && (h.key, id) in w.serverTable
            && OneCall(w, w', id) && SameConns(w, w') && w'.pool == w.pool && w'.holder.None?
            && w'.clientTable == w.clientTable && w'.serverTable == w.serverTable - {(h.key, id)}
            && w.calls[id].pc == Written && w'.calls[id] == w.calls[id].(pc := Done(Answered(h.key, h.resp)))
  {
    assert (w.holder.value.key, w.holder.value.resp.callId) in w.serverTable;
  }

  lemma ServerSendKeeps(w: World)
    requires Inv(w) && ResponseStep(w, ServerSend).Some?
    ensures Inv(ResponseStep(w, ServerSend).value)
  {
    var w' := ResponseStep(w, ServerSend).value;
    ServerSendShape(w);
    var h := w.holder.value;
    var id := h.resp.callId;
    OneCallItems(w, w', id);
    OneCallGrows(w, w', id);
    assert CallOk(w, id);
    if h.key in w.honest {
      ResponseOkGrows(w, w', ToClient, h.key, h.resp);
    }
    CallsOne(w, w', id);
    SlotsRemove(w, w', id);
    AnswerCounts(w, w', id, h.key, ToClient);
  }

  // ---- All together --------------------------------------------------------------------------

  lemma CallerStepKeeps(w: World, a: Action)
    requires Inv(w) && CallerStep(w, a).Some?
    ensures Inv(CallerStep(w, a).value)
  {
    if a.Invoke? { InvokeKeeps(w, a); } else if a.Write? { WriteKeeps(w, a); } else { MoveKeeps(w, a); }
  }

  lemma NetworkStepKeeps(w: World, a: Action)
    requires Inv(w) && NetworkStep(w, a).Some?
    ensures Inv(NetworkStep(w, a).value)
  {
    match a
    case Connect(_) | Disconnect(_) | Accept(_) | Unregister(_) => ConnectionsKeep(w, a);
    case Inject(_, _) => InjectKeeps(w, a);
    case Lose(_) => LoseKeeps(w, a);
    case Deliver(_) => DeliverKeeps(w, a);
  }

  lemma CalledStepKeeps(w: World, a: Action)
    requires Inv(w) && CalledStep(w, a).Some?
    ensures Inv(CalledStep(w, a).value)
  {
    match a
    case Reject(_) => RejectKeeps(w, a);
    case RouteReply(_) => RouteReplyKeeps(w, a);
    case WriteReply(_) => WriteReplyKeeps(w, a);
    case Handle(_, _, _) => HandleKeeps(w, a);
  }

  lemma ResponseStepKeeps(w: World, a: Action)
    requires Inv(w) && ResponseStep(w, a).Some?
    ensures Inv(ResponseStep(w, a).value)
  {
    match a
    case Lookup(n) => if w.pool[n].dir.ToServer? { ClientLookupKeeps(w, a); } else { ServerLookupKeeps(w, a); }
    case ClientSend(_) => ClientSendKeeps(w, a);
    case GiveUp(_) => GiveUpKeeps(w, a);
    case ServerSend => ServerSendKeeps(w);
  }

  lemma StepKeeps(w: World, a: Action)
    requires Inv(w) && Step(w, a).Some?
    ensures Inv(Step(w, a).value)
  {
    if CallerStep(w, a).Some? { CallerStepKeeps(w, a); }
    else if NetworkStep(w, a).Some? { NetworkStepKeeps(w, a); }
    else if CalledStep(w, a).Some? { CalledStepKeeps(w, a); }
    else { ResponseStepKeeps(w, a); }
  }

  lemma CallerKeepsHonest(w: World, a: Action)
    requires CallerStep(w, a).Some?
    ensures CallerStep(w, a).value.honest == w.honest
  {
  }

  lemma NetworkKeepsHonest(w: World, a: Action)
    requires NetworkStep(w, a).Some?
    ensures NetworkStep(w, a).value.honest == w.honest
  {
  }

  lemma OthersKeepHonest(w: World, a: Action)
    requires CallerStep(w, a).None? && NetworkStep(w, a).None? && Step(w, a).Some?
    ensures Step(w, a).value.honest == w.honest
  {
  }

  lemma StepKeepsHonest(w: World, a: Action)
    requires Step(w, a).Some?
    ensures Step(w, a).value.honest == w.honest
  {
    if CallerStep(w, a).Some? { CallerKeepsHonest(w, a); }
    else if NetworkStep(w, a).Some? { NetworkKeepsHonest(w, a); }
    else { OthersKeepHonest(w, a); }
  }

  lemma Reached(honest: set<Key>, run: seq<Action>, w: World)
    requires Exec(Step, Init(honest), run) == Some(w)
    ensures Inv(w) && w.honest == honest
  {
    var inv := (v: World) => Inv(v) && v.honest == honest;
    forall v, a | inv(v) && Step(v, a).Some? ensures inv(Step(v, a).value) {
      StepKeeps(v, a);
      StepKeepsHonest(v, a);
    }
    Invariance(Step, inv, Init(honest), run);
  }
}
