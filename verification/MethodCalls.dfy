/** internal/methods: the server's pending calls, maps of maps behind one table. */
module MethodCalls {
  import opened Runs
  import opened Credentials

  /** A call id: a version 4 UUID, or any other text a peer may send. */
  datatype CallId = Uuid4(bits: nat) | NotUuid4(text: string)

  /** The channel made by the Invoke with this call id. */
  datatype Chan = Chan(maker: CallId)

  /** The table as one flat map. */
  type Table = map<(StaticSizedPublicKey, CallId), Chan>

  class MethodCallsForPublicKey {
    var calls: map<CallId, Chan>
    ghost const owner: StaticSizedPublicKey

    constructor (ghost owner: StaticSizedPublicKey)
      ensures calls == map[] && this.owner == owner
    {
      this.owner := owner;
      calls := map[];
    }

    method PutMessageResponseChannel(id: CallId, ch: Chan)
      modifies this
      ensures calls == old(calls)[id := ch]
    {
      calls := calls[id := ch];
    }

    method GetMessageResponseChannel(id: CallId) returns (r: Option<Chan>)
      ensures r == if id in calls then Some(calls[id]) else None
    {
      if id !in calls {
        return None;
      }
      return Some(calls[id]);
    }

    method Delete(id: CallId)
      modifies this
      ensures calls == old(calls) - {id}
    {
      calls := calls - {id};
    }
  }

  /** The outer map holds one inner map a key; an inner map serves the one key it was made for.
      The flat table they stand for is kept as ghost state. */
  class MethodCalls {
    var byKey: map<StaticSizedPublicKey, MethodCallsForPublicKey>
    ghost var table: Table

    ghost predicate Valid()
      reads this, byKey.Values
    {
      && (forall k <- byKey :: byKey[k].owner == k)
      && (forall p <- table :: p.0 in byKey && p.1 in byKey[p.0].calls && byKey[p.0].calls[p.1] == table[p])
      && (forall k <- byKey :: forall id <- byKey[k].calls :: (k, id) in table)
    }

    constructor ()
      ensures Valid() && table == map[]
    {
      byKey, table := map[], map[];
    }

    /** Makes an empty inner map for a key that has none; the table is the same. */
    method AddKey(pubKey: StaticSizedPublicKey)
      requires Valid() && pubKey !in byKey
      modifies this`byKey
      ensures Valid() && pubKey in byKey && fresh(byKey[pubKey])
      ensures byKey == old(byKey)[pubKey := byKey[pubKey]]
    {
      var inner := new MethodCallsForPublicKey(pubKey);
      byKey := byKey[pubKey := inner];
    }

    method PutUnderKey(pubKey: StaticSizedPublicKey, id: CallId, ch: Chan)
      requires Valid() && pubKey in byKey
      modifies this`table, byKey[pubKey]
      ensures Valid() && table == old(table)[(pubKey, id) := ch]
    {
      byKey[pubKey].PutMessageResponseChannel(id, ch);
      table := table[(pubKey, id) := ch];
    }

    method PutMethodCallForPublicKey(pubKey: StaticSizedPublicKey, id: CallId, ch: Chan)
      requires Valid()
      modifies this, byKey.Values
      ensures Valid() && fresh(byKey.Values - old(byKey.Values))
      ensures table == old(table)[(pubKey, id) := ch]
    {
      if pubKey !in byKey {
        AddKey(pubKey);
      }
      PutUnderKey(pubKey, id, ch);
    }

    method GetMessageResponseChannelForPublicKey(pubKey: StaticSizedPublicKey, id: CallId) returns (r: Option<Chan>)
      requires Valid()
      ensures r == if (pubKey, id) in table then Some(table[(pubKey, id)]) else None
    {
      if pubKey in byKey {
        r := byKey[pubKey].GetMessageResponseChannel(id);
        return;
      }
      return None;
    }

    method DeleteMethodCall(pubKey: StaticSizedPublicKey, id: CallId)
      requires Valid()
      modifies this`table, byKey.Values
      ensures Valid()
      ensures table == old(table) - {(pubKey, id)}
    {
      if pubKey in byKey {
        byKey[pubKey].Delete(id);
      }
      table := table - {(pubKey, id)};
    }
  }
}
