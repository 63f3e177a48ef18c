/** What every run of the calls keeps: where requests and responses come from, and how many of each
    there can be. */
module CallsSafety {
  import opened Runs
  import opened Credentials
  import opened MethodCalls
  import opened Calls

  // ---- Provenance ----------------------------------------------------------------------------

  /** The request has been handed to a connection. */
  predicate IsSent(pc: Pc) {
    match pc
    case Written | Expiring => true
    case Leaving(outcome) => outcome != Failed
    case Done(outcome) => outcome != Failed
    case _ => false
  }

  ghost predicate IsCall(w: World, dir: Direction, key: Key, id: CallId) {
    id in w.calls && w.calls[id].dir == dir && w.calls[id].key == key
  }

  /** A request some Invoke sent, with its very method and arguments. */
  ghost predicate RequestOk(w: World, dir: Direction, key: Key, req: Request) {
    && IsCall(w, dir, key, req.callId) && IsSent(w.calls[req.callId].pc)
    && w.calls[req.callId].rpc == req.rpc && w.calls[req.callId].args == req.args
  }

  function RequestOf(w: World, id: CallId): Request
    requires id in w.calls
  {
    Request(id, w.calls[id].rpc, w.calls[id].args)
  }

  /** A response some run of the called peer's handler gave to the request of the call it names. */
  ghost predicate ResponseOk(w: World, dir: Direction, key: Key, resp: Response) {
    && IsCall(w, dir, key, resp.callId)
    && Execution(dir, key, RequestOf(w, resp.callId), resp) in w.executions
  }

  function KeyOf(item: Item): Key {
    if item.InFlight? then item.conn.owner else item.key
  }

  ghost predicate ItemOk(w: World, item: Item) {
    match item
    case InFlight(conn, toServer, RequestFrame(req)) =>
      RequestOk(w, if toServer then ToServer else ToClient, conn.owner, req)
    case InFlight(conn, toServer, ResponseFrame(resp)) =>
      ResponseOk(w, if toServer then ToClient else ToServer, conn.owner, resp)
    case InFlight(_, _, GarbageFrame) => true
    case Requested(dir, key, req) => RequestOk(w, dir, key, req)
    case Replying(dir, key, resp) => ResponseOk(w, dir, key, resp)
    case ReplyRouted(dir, key, conn, resp) => conn.owner == key && ResponseOk(w, dir, key, resp)
    case Received(dir, key, resp) => ResponseOk(w, dir, key, resp)
    case Sending(key, resp, ch) => ResponseOk(w, ToServer, key, resp) && ch == Chan(resp.callId)
  }

  /** What is said of every item, whoever its peer: connections keep to their owners, and clients
      that send are honest. */
  ghost predicate ItemShape(w: World, item: Item) {
    && (item.ReplyRouted? ==> item.conn.owner == item.key)
    && (item.Sending? ==> item.key in w.honest)
  }

  ghost predicate Items(w: World) {
    forall item <- w.pool :: ItemShape(w, item) && (KeyOf(item) in w.honest ==> ItemOk(w, item))
  }

  ghost predicate AnswerOk(w: World, id: CallId, outcome: Outcome)
    requires id in w.calls
  {
    outcome.Answered? ==>
      && outcome.from == w.calls[id].key && outcome.resp.callId == id
      && (w.calls[id].key in w.honest ==> ResponseOk(w, w.calls[id].dir, w.calls[id].key, outcome.resp))
  }

  ghost predicate CallOk(w: World, id: CallId)
    requires id in w.calls
  {
    var call := w.calls[id];
    && (call.dir.ToServer? ==> call.key in w.honest && !call.pc.Expiring?)
    && (call.dir.ToClient? ==> !call.pc.Leaving?)
    && (call.pc.Routed? ==> call.pc.conn.owner == call.key)
    && (call.pc.Leaving? || call.pc.Done? ==> AnswerOk(w, id, call.pc.outcome))
    && (call.pc.Expiring? ==> call.ctxDone)
    && (call.pc == Leaving(TimedOut) || call.pc == Done(TimedOut) ==> call.ctxDone)
  }

  ghost predicate AllCalls(w: World) {
    && (forall id <- w.calls :: CallOk(w, id))
    && (forall key <- w.serverConn :: w.serverConn[key].owner == key)
    && (forall key <- w.clientConn :: w.clientConn[key].owner == key)
  }

  // ---- Tables --------------------------------------------------------------------------------

  /** Between registration and removal. */
  predicate IsPending(pc: Pc) {
    pc.Registered? || pc.Routed? || pc.Written? || pc.Expiring? || pc.Leaving?
  }

  ghost predicate ClientSlots(w: World) {
    forall slot <- w.clientTable ::
      && IsCall(w, ToServer, slot.0, slot.1) && IsPending(w.calls[slot.1].pc)
      && w.clientTable[slot] == Chan(slot.1)
  }

  ghost predicate ServerSlots(w: World) {
    forall slot <- w.serverTable ::
      && IsCall(w, ToClient, slot.0, slot.1) && w.serverTable[slot] == Chan(slot.1)
      && (IsPending(w.calls[slot.1].pc) || w.calls[slot.1].pc == Done(Failed))
  }

  ghost predicate PendingListed(w: World) {
    forall id <- w.calls :: IsPending(w.calls[id].pc) ==>
      (w.calls[id].key, id) in if w.calls[id].dir.ToServer? then w.clientTable else w.serverTable
  }

  ghost predicate HolderListed(w: World) {
    w.holder.Some? ==>
      && (w.holder.value.key, w.holder.value.resp.callId) in w.serverTable
      && w.holder.value.ch == Chan(w.holder.value.resp.callId)
      && (w.holder.value.key in w.honest ==> ResponseOk(w, ToClient, w.holder.value.key, w.holder.value.resp))
  }

  /** The clients' tables hold exactly the calls between registration and removal; the server's
      holds those and what failed sends left behind. */
  ghost predicate Tables(w: World) {
    ClientSlots(w) && ServerSlots(w) && PendingListed(w) && HolderListed(w)
  }

  // ---- Counting ------------------------------------------------------------------------------

  /** What an item is a copy of: the request, or the response, of one call. */
  datatype Tag = Tag(response: bool, dir: Direction, key: Key, id: CallId)

  function TagOf(item: Item): Option<Tag> {
    match item
    case InFlight(conn, toServer, RequestFrame(req)) =>
      Some(Tag(false, if toServer then ToServer else ToClient, conn.owner, req.callId))
    case InFlight(conn, toServer, ResponseFrame(resp)) =>
      Some(Tag(true, if toServer then ToClient else ToServer, conn.owner, resp.callId))
    case InFlight(_, _, GarbageFrame) => None
    case Requested(dir, key, req) => Some(Tag(false, dir, key, req.callId))
    case Replying(dir, key, resp) => Some(Tag(true, dir, key, resp.callId))
    case ReplyRouted(dir, key, _, resp) => Some(Tag(true, dir, key, resp.callId))
    case Received(dir, key, resp) => Some(Tag(true, dir, key, resp.callId))
    case Sending(key, resp, _) => Some(Tag(true, ToServer, key, resp.callId))
  }

  function One(b: bool): nat {
    if b then 1 else 0
  }

  function Count(pool: seq<Item>, tag: Tag): nat {
    if pool == [] then 0 else Count(pool[..|pool| - 1], tag) + One(TagOf(pool[|pool| - 1]) == Some(tag))
  }

  /** How often the request of a call has been handled. */
  function Executed(executions: seq<Execution>, dir: Direction, key: Key, id: CallId): nat {
    if executions == [] then 0
    else
      var last := executions[|executions| - 1];
      Executed(executions[..|executions| - 1], dir, key, id)
      + One(last.dir == dir && last.key == key && last.req.callId == id)
  }

  predicate HeldFor(w: World, dir: Direction, key: Key, id: CallId) {
    w.holder.Some? && dir == ToClient && w.holder.value.key == key && w.holder.value.resp.callId == id
  }

  predicate IsAnswered(pc: Pc) {
    (pc.Leaving? || pc.Done?) && pc.outcome.Answered?
  }

  /** The copies of a request, and the runs of the handler on it, are one at most, and none before
      the call has sent it. */
  ghost predicate RequestBound(w: World, dir: Direction, key: Key, id: CallId) {
    Count(w.pool, Tag(false, dir, key, id)) + Executed(w.executions, dir, key, id)
    <= One(IsCall(w, dir, key, id) && IsSent(w.calls[id].pc))
  }

  /** The copies of a response, and the calls it completed, are no more than the handler's runs. */
  ghost predicate ResponseBound(w: World, dir: Direction, key: Key, id: CallId) {
    Count(w.pool, Tag(true, dir, key, id)) + One(HeldFor(w, dir, key, id))
    + One(IsCall(w, dir, key, id) && IsAnswered(w.calls[id].pc))
    <= Executed(w.executions, dir, key, id)
  }

  ghost predicate Counts(w: World) {
    forall dir, key, id :: key in w.honest ==> RequestBound(w, dir, key, id) && ResponseBound(w, dir, key, id)
  }

  ghost predicate Inv(w: World) {
    Items(w) && AllCalls(w) && Tables(w) && Counts(w)
  }

  // ---- Counting lemmas -----------------------------------------------------------------------

  lemma CountAppend(pool: seq<Item>, item: Item, tag: Tag)
    ensures Count(pool + [item], tag) == Count(pool, tag) + One(TagOf(item) == Some(tag))
  {
    assert (pool + [item])[..|pool|] == pool;
  }

  lemma {:induction false} CountWithout(pool: seq<Item>, n: nat, tag: Tag)
    requires n < |pool|
    ensures Count(Without(pool, n), tag) == Count(pool, tag) - One(TagOf(pool[n]) == Some(tag))
  {
    var last := |pool| - 1;
    if n == last {
      assert Without(pool, n) == pool[..last];
    } else {
      CountWithout(pool[..last], n, tag);
      assert Without(pool, n) == Without(pool[..last], n) + [pool[last]];
      CountAppend(Without(pool[..last], n), pool[last], tag);
    }
  }

  lemma ExecutedAppend(executions: seq<Execution>, e: Execution, dir: Direction, key: Key, id: CallId)
    ensures Executed(executions + [e], dir, key, id) ==
            Executed(executions, dir, key, id) + One(e.dir == dir && e.key == key && e.req.callId == id)
  {
    assert (executions + [e])[..|executions|] == executions;
  }

  // ---- Facts that only grow ------------------------------------------------------------------

  /** Calls keep their identity, sent requests stay sent, executions stay recorded. */
  ghost predicate Grows(w: World, w': World) {
    && w'.honest == w.honest
    && (forall id <- w.calls ::
          && id in w'.calls && w'.calls[id].dir == w.calls[id].dir && w'.calls[id].key == w.calls[id].key
          && w'.calls[id].rpc == w.calls[id].rpc && w'.calls[id].args == w.calls[id].args
          && (IsSent(w.calls[id].pc) ==> IsSent(w'.calls[id].pc))
          && (w.calls[id].ctxDone ==> w'.calls[id].ctxDone))
    && (forall e <- w.executions :: e in w'.executions)
  }

  lemma ResponseOkGrows(w: World, w': World, dir: Direction, key: Key, resp: Response)
    requires Grows(w, w') && ResponseOk(w, dir, key, resp)
    ensures ResponseOk(w', dir, key, resp)
  {
  }

  lemma ItemOkGrows(w: World, w': World, item: Item)
    requires Grows(w, w') && ItemOk(w, item)
    ensures ItemOk(w', item)
  {
  }

  lemma CallOkGrows(w: World, w': World, id: CallId)
    requires Grows(w, w') && id in w.calls && w'.calls[id].pc == w.calls[id].pc && CallOk(w, id)
    ensures CallOk(w', id)
  {
  }
}
