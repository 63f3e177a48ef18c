/**
 UniClientConn.Invoke: it writes, reads one message and takes it for the answer, reconnecting on
 every failure and never comparing call ids.

 The other end answers each request it receives once and in order, and sends nothing else. A
 connection whose read (write) has failed fails every later read (write). What the network does is
 a script, one entry a turn of Invoke's loop; a script that runs out leaves the call in its loop.
 */
module UniInvoke {
  import opened Runs

  type Bytes = seq<bv8>

  datatype Request = Request(callId: nat, rpc: string, args: Bytes)

  /** The message read, as the codec sees it; the reply's own decoding can fail as well. */
  datatype Reply =
    | Response(payload: Option<Bytes>, error: string, decodes: bool)
    | OtherMessage
    | Garbage

  datatype WriteEvent = Writes | WriteFails(received: bool)
  datatype ReadEvent = Reads(reply: Reply) | ReadFails

  /** After a failure: the caller's context is done, or connecting again works or fails. */
  datatype Recovery = ContextDone | Reconnects | ReconnectFails

  datatype Turn = Turn(write: WriteEvent, read: ReadEvent, recovery: Recovery)

  datatype Result = Success(payload: Bytes) | Failure | Running

  /** A websocket connection together with the peer at its other end. */
  class Conn {
    var readBroken: bool
    var writeBroken: bool
    var unanswered: seq<Request>                // received by the peer, its answer not yet read
    ghost var written: seq<Request>             // written without error
    ghost var answers: seq<(Request, Reply)>    // read from here, with the request each answers

    constructor ()
      ensures !readBroken && !writeBroken && unanswered == [] && written == [] && answers == []
    {
      readBroken, writeBroken, unanswered, written, answers := false, false, [], [], [];
    }

    method WriteMessage(req: Request, event: WriteEvent) returns (ok: bool)
      modifies this`writeBroken, this`unanswered, this`written
      ensures ok <==> event.Writes? && !old(writeBroken)
      ensures writeBroken <==> !ok
      ensures ok ==> unanswered == old(unanswered) + [req] && written == old(written) + [req]
      ensures !ok ==> written == old(written)
                      && unanswered == old(unanswered) + if event.WriteFails? && event.received then [req] else []
    {
      ok := event.Writes? && !writeBroken;
      writeBroken := !ok;
      if ok || (event.WriteFails? && event.received) {
        unanswered := unanswered + [req];
      }
      if ok {
        written := written + [req];
      }
    }

    /** Nothing arrives without a request to answer: such a read ends only by failing. */
    method ReadMessage(event: ReadEvent) returns (reply: Option<Reply>)
      modifies this`readBroken, this`unanswered, this`answers
      ensures reply.Some? <==> !old(readBroken) && event.Reads? && old(unanswered) != []
      ensures reply.Some? ==> !readBroken && event == Reads(reply.value)
      ensures reply.Some? ==> unanswered == old(unanswered)[1..]
                              && answers == old(answers) + [(old(unanswered)[0], reply.value)]
      ensures reply.None? ==> readBroken && unanswered == old(unanswered) && answers == old(answers)
    {
      if readBroken || event.ReadFails? || unanswered == [] {
        readBroken := true;
        return None;
      }
      reply := Some(event.reply);
      answers := answers + [(unanswered[0], event.reply)];
      unanswered := unanswered[1..];
    }
  }

  // ---- What a call comes to ------------------------------------------------------------------

  /** A turn reads a message if nothing fails, now or earlier on its connection. */
  predicate Gets(turn: Turn, usable: bool) {
    usable && turn.write.Writes? && turn.read.Reads?
  }

  /** How many turns fail and reconnect before the first that ends the call; connecting again gives
      a connection of which nothing has failed. */
  function Retries(script: seq<Turn>, usable: bool): nat {
    if script == [] || Gets(script[0], usable) || !script[0].recovery.Reconnects? then 0
    else 1 + Retries(script[1..], true)
  }

  /** Whether the n-th turn starts on a connection of which nothing has failed. */
  predicate UsableAt(usable: bool, n: nat) {
    n > 0 || usable
  }

  /** The n-th turn ends the call: it reads a message, or the call gives up after its failure. */
  predicate EndsAt(script: seq<Turn>, usable: bool, n: nat)
    requires n < |script|
  {
    Gets(script[n], UsableAt(usable, n)) || !script[n].recovery.Reconnects?
  }

  function Outcome(script: seq<Turn>, usable: bool): Result {
    var n := Retries(script, usable);
    if n >= |script| then Running
    else if Gets(script[n], UsableAt(usable, n)) then Decode(script[n].read.reply)
    else Failure
  }

  /** What Invoke makes of the message it read. */
  function Decode(reply: Reply): Result {
    match reply
    case Response(Some(payload), _, true) => Success(payload)
    case _ => Failure
  }

  lemma {:induction false} RetriesFirst(script: seq<Turn>, usable: bool, n: nat)
    requires n <= |script| && forall i :: 0 <= i < n ==> !EndsAt(script, usable, i)
    requires n < |script| ==> EndsAt(script, usable, n)
    ensures Retries(script, usable) == n
  {
    if n > 0 {
      forall i | 0 <= i < n - 1
        ensures !EndsAt(script[1..], true, i)
      {
        assert !EndsAt(script, usable, i + 1);
      }
      assert !EndsAt(script, usable, 0);
      RetriesFirst(script[1..], true, n - 1);
    }
  }

  lemma {:induction false} RetriesEnd(script: seq<Turn>, usable: bool)
    ensures Retries(script, usable) <= |script|
    ensures forall i :: 0 <= i < Retries(script, usable) ==> !EndsAt(script, usable, i)
    ensures Retries(script, usable) < |script| ==> EndsAt(script, usable, Retries(script, usable))
  {
    if script != [] && !EndsAt(script, usable, 0) {
      RetriesEnd(script[1..], true);
      forall i | 0 <= i < Retries(script, usable)
        ensures !EndsAt(script, usable, i)
      {
        if i > 0 {
          assert !EndsAt(script[1..], true, i - 1);
        }
      }
    }
  }

  /** The n-th turn is the first to end the call. */
  ghost predicate FirstEnd(script: seq<Turn>, usable: bool, n: nat) {
    n < |script| && EndsAt(script, usable, n) && forall i :: 0 <= i < n ==> !EndsAt(script, usable, i)
  }

  /** The n-th turn ends the call by reading a response with this payload, which decodes. */
  ghost predicate AnswersAt(script: seq<Turn>, usable: bool, n: nat, payload: Bytes) {
    && FirstEnd(script, usable, n) && Gets(script[n], UsableAt(usable, n))
    && script[n].read.reply.Response? && script[n].read.reply.payload == Some(payload) && script[n].read.reply.decodes
  }

  /** Exactly when a call succeeds, and with what: some turn reads a response with that payload,
      which decodes, and every turn before it failed and reconnected. */
  lemma SucceedsIff(script: seq<Turn>, usable: bool, payload: Bytes)
    ensures Outcome(script, usable) == Success(payload) <==> exists n: nat :: AnswersAt(script, usable, n, payload)
  {
    RetriesEnd(script, usable);
    if Outcome(script, usable) == Success(payload) {
      assert AnswersAt(script, usable, Retries(script, usable), payload);
    }
    if n: nat :| AnswersAt(script, usable, n, payload) {
      RetriesFirst(script, usable, n);
    }
  }

  /** A call is still in its loop exactly when every turn so far failed and reconnected; whether a
      turn that fails ends the call is decided by its context and by connecting again. */
  lemma RunningIff(script: seq<Turn>, usable: bool)
    ensures Outcome(script, usable).Running? <==> forall i :: 0 <= i < |script| ==> !EndsAt(script, usable, i)
  {
    RetriesEnd(script, usable);
    if forall i :: 0 <= i < |script| ==> !EndsAt(script, usable, i) {
      RetriesFirst(script, usable, |script|);
    }
  }

  /** An error the peer answers with is lost: a call that reads a response with an error text
      succeeds if and only if the response has a payload that decodes. */
  lemma ErrorSurfacesIff(script: seq<Turn>, usable: bool, n: nat)
    requires FirstEnd(script, usable, n) && Gets(script[n], UsableAt(usable, n))
    requires script[n].read.reply.Response? && script[n].read.reply.error != ""
    ensures Outcome(script, usable).Failure?
            <==> script[n].read.reply.payload.None? || !script[n].read.reply.decodes
  {
    RetriesFirst(script, usable, n);
  }

  function WithError(turn: Turn, error: string): Turn {
    if turn.read.Reads? && turn.read.reply.Response?
    then turn.(read := Reads(turn.read.reply.(error := error)))
    else turn
  }

  /** No outcome depends on the error texts: with any others in their place it is the same. */
  lemma ErrorTextsDoNotMatter(script: seq<Turn>, other: seq<Turn>, usable: bool, errors: seq<string>)
    requires |other| == |script| == |errors|
    requires forall i :: 0 <= i < |script| ==> other[i] == WithError(script[i], errors[i])
    ensures Outcome(other, usable) == Outcome(script, usable)
  {
    RetriesEnd(script, usable);
    var n := Retries(script, usable);
    forall i | 0 <= i <= n && i < |script|
      ensures EndsAt(other, usable, i) <==> EndsAt(script, usable, i)
    {
    }
    RetriesFirst(other, usable, n);
  }

  /** So a peer's error can come back as a success, on a new connection or an old one. */
  lemma ErrorCanBeLost(payload: Bytes, error: string, recovery: Recovery)
    ensures var read := Reads(Response(Some(payload), error, true));
            Outcome([Turn(Writes, read, recovery)], true) == Success(payload)
  {
  }

  class UniClientConn {
    var conn: Conn
    var calls: nat     // call ids are fresh: the next one

    /** Nothing has failed on the present connection. */
    predicate Usable()
      reads this, conn
    {
      !conn.readBroken && !conn.writeBroken
    }

    /** Between calls a connection that can still be used owes no answer, and every request ever
        written on it belongs to an earlier call. */
    ghost predicate Valid()
      reads this, conn
    {
      && (Usable() ==> conn.unanswered == [])
      && (forall i :: 0 <= i < |conn.written| ==> conn.written[i].callId < calls)
    }

    constructor (conn: Conn)
      requires conn.unanswered == [] && conn.written == []
      ensures Valid() && this.conn == conn && calls == 0
    {
      this.conn, calls := conn, 0;
    }

    /** The first turn that reads a message, or fails and does not reconnect, ends the call, with
        the outcome of that turn. A successful call returns the payload of the peer's answer to the
        request that this very call, recognisable by its fresh id, wrote on that connection. */
    method Invoke(rpc: string, args: Bytes, script: seq<Turn>) returns (r: Result)
      requires Valid()
      modifies this, conn
      ensures Valid() && calls == old(calls) + 1
      ensures r == Outcome(script, old(Usable()))
      ensures if Retries(script, old(Usable())) == 0 then conn == old(conn) else fresh(conn)
      ensures var n := Retries(script, old(Usable()));
              n < |script| ==> (Usable() <==> Gets(script[n], UsableAt(old(Usable()), n)))
      ensures r.Success? ==>
                && conn.written != [] && conn.answers != []
                && conn.written[|conn.written| - 1] == Request(old(calls), rpc, args)
                && conn.answers[|conn.answers| - 1].0 == Request(old(calls), rpc, args)
                && conn.answers[|conn.answers| - 1].1.Response?
                && conn.answers[|conn.answers| - 1].1.payload == Some(r.payload)
    {
      var req := Request(calls, rpc, args);
      calls := calls + 1;
      for n := 0 to |script|
        invariant calls == old(calls) + 1 && Valid()
        invariant if n == 0 then conn == old(conn) else fresh(conn)
        invariant Usable() == UsableAt(old(Usable()), n)
        invariant forall i :: 0 <= i < n ==> !EndsAt(script, old(Usable()), i)
      {
        var turn := script[n];
        var reply: Option<Reply> := None;
        var sent := conn.WriteMessage(req, turn.write);
        if sent {
          reply := conn.ReadMessage(turn.read);
        }
        match reply
        case Some(answer) =>
          RetriesFirst(script, old(Usable()), n);
          r := Decode(answer);
          return;
        case None =>
          match turn.recovery {
            case ContextDone =>
              RetriesFirst(script, old(Usable()), n);
              return Failure;
            case ReconnectFails =>
              RetriesFirst(script, old(Usable()), n);
              return Failure;
            case Reconnects => conn := new Conn();
          }
      }
      RetriesFirst(script, old(Usable()), |script|);
      r := Running;
    }
  }
}
