/** The server's table of open connections, and the update of the accepted keys, in server.go. */
module ServerConnections {
  import opened Runs
  import opened Connectivity
  import opened Credentials
  import Pumps

  type Key = StaticSizedPublicKey

  /** A server transport as its owner sees it: made for the peer with one public key, and closed
      any number of times. */
  class WebsocketServer {
    ghost const peer: Key
    var closing: bool
    var closeConnCloses: nat                 // how often the closeConn channel has been closed
    ghost var accepted: seq<Pumps.Message>   // what Write has taken, in order

    /** closeConn is closed once at most. */
    ghost predicate Valid()
      reads this
    {
      closeConnCloses == if closing then 1 else 0
    }

    constructor (ghost peer: Key)
      ensures Valid() && !closing && this.peer == peer && accepted == []
    {
      this.peer := peer;
      closing, closeConnCloses, accepted := false, 0, [];
    }

    /** Write, which the pumps take or refuse. */
    method Write(msg: Pumps.Message, taken: bool) returns (ok: bool)
      modifies this`accepted
      ensures ok == taken && accepted == old(accepted) + if ok then [msg] else []
    {
      if taken {
        accepted := accepted + [msg];
      }
      ok := taken;
    }

    method Close()
      requires Valid()
      modifies this`closing, this`closeConnCloses
      ensures Valid() && closing
      ensures (closing, closeConnCloses) == Pumps.GuardedClose(old(closing), old(closeConnCloses))
    {
      if closing {
        return;
      }
      closing := true;
      closeConnCloses := closeConnCloses + 1;
    }
  }

  /** connectionsManager. Channels are generation numbers; a ghost count of registrations and
      removals says what a channel handed out has missed. */
  class ConnectionsManager {
    var conns: map<Key, WebsocketServer>
    var notifyChan: Option<Signal>
    var made: nat
    var closed: set<Signal>
    ghost var changes: nat             // registrations and removals so far
    ghost var madeAt: map<Signal, nat>   // the count when each channel was made

    ghost function Watchers(): Notifier
      reads this
    {
      Notifier(notifyChan, made, closed)
    }

    /** A notification channel is open exactly while no registration or removal has followed its
        making; every transport is registered under the key of its own peer. */
    ghost predicate Valid()
      reads this, conns.Values
    {
      && Watchers().Valid()
      && (forall c: Signal :: c in madeAt <==> c < made)
      && (forall c <- madeAt :: madeAt[c] <= changes && (c !in closed <==> madeAt[c] == changes))
      && (forall k <- conns :: conns[k].peer == k && conns[k].Valid())
    }

    constructor ()
      ensures Valid() && conns == map[] && changes == 0
    {
      conns, notifyChan, made, closed := map[], None, 0, {};
      changes, madeAt := 0, map[];
    }

    /** What is found for a key is the transport of that very key's peer. */
    method GetTransport(key: Key) returns (tr: Option<WebsocketServer>)
      requires Valid()
      ensures tr.Some? <==> key in conns
      ensures tr.Some? ==> tr.value == conns[key] && tr.value.peer == key && tr.value.Valid()
      ensures tr.Some? ==> forall k <- conns :: conns[k] == tr.value ==> k == key
    {
      if key in conns {
        return Some(conns[key]);
      }
      return None;
    }

    /** The tail of a registration or removal: wake the watchers. */
    method Notify()
      requires Watchers().Valid()
      modifies this`notifyChan, this`closed, this`changes
      ensures Watchers() == old(Watchers()).Fire() && changes == old(changes) + 1
    {
      changes := changes + 1;
      if notifyChan.Some? {
        assert notifyChan.value !in closed;  // closing a closed channel would panic
        closed := closed + {notifyChan.value};
        notifyChan := None;
      }
    }

    method RegisterConnection(key: Key, value: WebsocketServer)
      requires Valid() && value.Valid() && value.peer == key
      modifies this
      ensures Valid()
      ensures conns == old(conns)[key := value]
      ensures changes == old(changes) + 1 && madeAt == old(madeAt)
      ensures forall c <- madeAt :: c in closed
    {
      conns := conns[key := value];
      Notify();
    }

    method RemoveConnection(key: Key)
      requires Valid()
      modifies this
      ensures Valid()
      ensures conns == old(conns) - {key}
      ensures changes == old(changes) + 1 && madeAt == old(madeAt)
      ensures forall c <- madeAt :: c in closed
    {
      conns := conns - {key};
      Notify();
    }

    method GetNotifyChan() returns (c: Signal)
      requires Valid()
      modifies this
      ensures Valid()
      ensures conns == old(conns) && changes == old(changes)
      ensures (Watchers(), c) == old(Watchers()).Hand()
      ensures c in madeAt && c !in closed && madeAt[c] == changes
      ensures forall d <- old(madeAt) :: d in madeAt && madeAt[d] == old(madeAt)[d]
    {
      if notifyChan.None? {
        notifyChan := Some(made);
        madeAt := madeAt[made := changes];
        made := made + 1;
      }
      c := notifyChan.value;
    }

    method GetConnectionPublicKeys() returns (keys: seq<Key>)
      requires Valid()
      ensures |keys| == |conns| && forall k :: k in keys <==> k in conns
    {
      keys := [];
      var todo := conns.Keys;
      while todo != {}
        invariant todo <= conns.Keys
        invariant forall k :: k in keys <==> k in conns.Keys - todo
        invariant |keys| + |todo| == |conns.Keys|
        decreases |todo|
      {
        var k :| k in todo;
        keys := keys + [k];
        todo := todo - {k};
      }
      assert |conns.Keys| == |conns|;
    }

    /** close: closes every registered transport and leaves the table as it is. */
    method CloseAll()
      requires Valid()
      modifies conns.Values
      ensures Valid()
      ensures forall k <- conns :: conns[k].closing
    {
      var todo := conns.Keys;
      while todo != {}
        invariant todo <= conns.Keys
        invariant Valid()
        invariant forall k <- conns.Keys - todo :: conns[k].closing
        decreases |todo|
      {
        var k :| k in todo;
        conns[k].Close();
        todo := todo - {k};
      }
    }

    /** Closes and forgets one connection. */
    method Drop(key: Key)
      requires Valid() && key in conns
      modifies this, conns[key]
      ensures Valid()
      ensures conns == old(conns) - {key} && old(conns)[key].closing
      ensures changes == old(changes) + 1 && madeAt == old(madeAt)
    {
      conns[key].Close();
      RemoveConnection(key);
    }

    /** The loop of removeConnectionsToDeletedKeys: drops every connection whose key is not kept,
        which wakes everyone who watches the table if there is one. */
    method RemoveAllBut(kept: set<Key>)
      requires Valid()
      modifies this, conns.Values
      ensures Valid()
      ensures forall k :: k in conns <==> k in old(conns) && k in kept
      ensures forall k <- conns :: conns[k] == old(conns)[k]
      ensures forall k <- old(conns) :: if k in kept then unchanged(old(conns)[k]) else old(conns)[k].closing
      ensures madeAt == old(madeAt)
      ensures !(old(conns).Keys <= kept) ==> forall c <- madeAt :: c in closed
    {
      ghost var before := conns;
      var todo := conns.Keys;
      while todo != {}
        invariant Valid()
        invariant todo <= before.Keys
        invariant forall k <- conns :: k in before && conns[k] == before[k] && unchanged(conns[k])
        invariant forall k <- before :: k in todo || k in kept ==> k in conns
        invariant forall k <- before :: k !in todo && k !in kept ==>
                    k !in conns && before[k].closing && old(changes) < changes
        invariant madeAt == old(madeAt) && old(changes) <= changes
        decreases |todo|
      {
        var k :| k in todo;
        todo := todo - {k};
        if k !in kept {
          assert before[k] == conns[k];
          Drop(k);
        }
      }
    }
  }

  /** The part of Server that UpdatePublicKeys works on. */
  class Server {
    const connMgr: ConnectionsManager
    const publicKeys: PublicKeys

    constructor (connMgr: ConnectionsManager, publicKeys: PublicKeys)
      ensures this.connMgr == connMgr && this.publicKeys == publicKeys
    {
      this.connMgr, this.publicKeys := connMgr, publicKeys;
    }

    /** sendMsg: the message goes to the peer of its key and to nobody else, or to nobody at all. */
    method SendMsg(key: Key, msg: Pumps.Message, taken: bool) returns (ok: bool)
      requires connMgr.Valid()
      modifies connMgr.conns.Values
      ensures connMgr.Valid()
      ensures ok <==> key in connMgr.conns && taken
      ensures forall tr: WebsocketServer <- connMgr.conns.Values ::
                tr.accepted == old(tr.accepted) + if ok && tr.peer == key then [msg] else []
      ensures forall tr: WebsocketServer <- connMgr.conns.Values ::
                tr.closing == old(tr.closing) && tr.closeConnCloses == old(tr.closeConnCloses)
    {
      var tr := connMgr.GetTransport(key);
      if tr.None? {
        return false;
      }
      ok := tr.value.Write(msg, taken);
    }

    /** The set built by the first loop of removeConnectionsToDeletedKeys. */
    method KeptKeys(keys: seq<PublicKey>) returns (kept: set<Key>)
      ensures forall k: Key :: k in kept <==> Keeps(keys, k)
    {
      kept := {};
      for i := 0 to |keys|
        invariant forall k: Key :: k in kept <==> Keeps(keys[..i], k)
      {
        ghost var was := kept;
        var pk := ToStaticallySizedPublicKey(keys[i]);
        if pk.Some? {
          kept := kept + {pk.value};
        }
        forall k: Key
          ensures k in kept <==> Keeps(keys[..i + 1], k)
        {
          KeepsNext(keys, i, k);
        }
      }
      assert keys[..|keys|] == keys;
    }

    method RemoveConnectionsToDeletedKeys(keys: seq<PublicKey>)
      requires connMgr.Valid()
      modifies connMgr, connMgr.conns.Values
      ensures connMgr.Valid()
      ensures forall k: Key :: k in connMgr.conns <==> k in old(connMgr.conns) && Keeps(keys, k)
      ensures forall k <- connMgr.conns :: connMgr.conns[k] == old(connMgr.conns)[k]
      ensures forall k <- old(connMgr.conns) ::
                if Keeps(keys, k) then unchanged(old(connMgr.conns)[k]) else old(connMgr.conns)[k].closing
    {
      var kept := KeptKeys(keys);
      connMgr.RemoveAllBut(kept);
    }

    /** Either the list is refused and nothing changes, or the verifier accepts exactly the new keys
        and the table is the old one restricted to the keys the verifier accepts; every dropped
        transport is closed and every other one left alone. */
    method UpdatePublicKeys(ed25519PubKeys: seq<PublicKey>) returns (ok: bool)
      requires connMgr.Valid()
      modifies connMgr, connMgr.conns.Values, publicKeys
      ensures connMgr.Valid()
      ensures ok <==> WellSized(ed25519PubKeys)
      ensures !ok ==> unchanged(connMgr) && unchanged(publicKeys) && unchanged(old(connMgr.conns.Values))
      ensures ok ==> publicKeys.keys == ed25519PubKeys
      ensures ok ==> forall k: Key :: k in connMgr.conns <==> k in old(connMgr.conns) && k in publicKeys.keys
      ensures ok ==> forall k <- connMgr.conns :: connMgr.conns[k] == old(connMgr.conns)[k]
      ensures ok ==> forall k <- old(connMgr.conns) ::
                       if k in publicKeys.keys then unchanged(old(connMgr.conns)[k]) else old(connMgr.conns)[k].closing
    {
      var pubs := ValidPublicKeysFromEd25519(ed25519PubKeys);
      if pubs.None? {
        return false;
      }
      publicKeys.Replace(pubs.value);
      RemoveConnectionsToDeletedKeys(pubs.value.keys);
      forall k: Key
        ensures Keeps(ed25519PubKeys, k) <==> k in ed25519PubKeys
      {
        ValidListsAgree(ed25519PubKeys, k);
      }
      return true;
    }
  }

  lemma KeepsNext(keys: seq<PublicKey>, i: nat, k: Key)
    requires i < |keys|
    ensures Keeps(keys[..i + 1], k) <==> Keeps(keys[..i], k) || ToStaticallySizedPublicKey(keys[i]) == Some(k)
  {
    var longer := keys[..i + 1];
    if Keeps(keys[..i], k) {
      var j :| 0 <= j < i && ToStaticallySizedPublicKey(keys[..i][j]) == Some(k);
      assert longer[j] == keys[..i][j];
    }
    if ToStaticallySizedPublicKey(keys[i]) == Some(k) {
      assert longer[i] == keys[i];
    }
    if Keeps(longer, k) {
      var j :| 0 <= j < i + 1 && ToStaticallySizedPublicKey(longer[j]) == Some(k);
      if j < i {
        assert keys[..i][j] == longer[j];
      }
    }
  }
}
