/** The public keys of credentials/tls.go: what the TLS verifier accepts. */
module Credentials {
  import opened Runs

  const PUBLIC_KEY_SIZE := 32

  /** ed25519.PublicKey: a byte slice of any length. */
  type PublicKey = seq<bv8>

  type StaticSizedPublicKey = k: PublicKey | |k| == PUBLIC_KEY_SIZE witness seq(PUBLIC_KEY_SIZE, _ => 0)

  ghost predicate WellSized(keys: seq<PublicKey>) {
    forall i :: 0 <= i < |keys| ==> |keys[i]| == PUBLIC_KEY_SIZE
  }

  /** Copies the first bytes of the slice into a fixed array, failing when there are too few. */
  function ToStaticallySizedPublicKey(pubKey: PublicKey): Option<StaticSizedPublicKey> {
    if |pubKey| < PUBLIC_KEY_SIZE then None else Some(pubKey[..PUBLIC_KEY_SIZE])
  }

  class PublicKeys {
    var keys: seq<PublicKey>

    constructor (keys: seq<PublicKey>)
      ensures this.keys == keys
    {
      this.keys := keys;
    }

    /** Replaces the accepted keys by those of pubs. */
    method Replace(pubs: PublicKeys)
      modifies this
      ensures keys == old(pubs.keys)
    {
      keys := pubs.keys;
    }

    /** The linear scan behind the certificate verifier. */
    method IsValidPublicKey(pub: PublicKey) returns (ok: bool)
      ensures ok <==> pub in keys
    {
      for i := 0 to |keys|
        invariant pub !in keys[..i]
      {
        if pub == keys[i] {
          return true;
        }
      }
      assert keys[..|keys|] == keys;
      return false;
    }
  }

  /** Succeeds exactly when every key has the size of an ed25519 key. */
  method ValidPublicKeysFromEd25519(keys: seq<PublicKey>) returns (r: Option<PublicKeys>)
    ensures r.Some? <==> WellSized(keys)
    ensures r.Some? ==> fresh(r.value) && r.value.keys == keys
  {
    for i := 0 to |keys|
      invariant WellSized(keys[..i])
    {
      if |keys[i]| != PUBLIC_KEY_SIZE {
        return None;
      }
      assert keys[..i + 1] == keys[..i] + [keys[i]];
    }
    assert keys[..|keys|] == keys;
    var pubs := new PublicKeys(keys);
    return Some(pubs);
  }

  /** The keys the connection filter keeps: those that some listed key converts to. */
  ghost predicate Keeps(keys: seq<PublicKey>, k: StaticSizedPublicKey) {
    exists i :: 0 <= i < |keys| && ToStaticallySizedPublicKey(keys[i]) == Some(k)
  }

  /** The conversion truncates longer keys, so filter and verifier are different tests: they agree
      on every key exactly when each over-long listed key has its first 32 bytes listed as well. */
  lemma FilterAgreesWithVerifier(keys: seq<PublicKey>)
    ensures (forall k: StaticSizedPublicKey :: Keeps(keys, k) <==> k in keys)
            <==> (forall i :: 0 <= i < |keys| && |keys[i]| > PUBLIC_KEY_SIZE ==> keys[i][..PUBLIC_KEY_SIZE] in keys)
  {
    forall i | 0 <= i < |keys| && |keys[i]| >= PUBLIC_KEY_SIZE
      ensures Keeps(keys, keys[i][..PUBLIC_KEY_SIZE])
    {
      assert ToStaticallySizedPublicKey(keys[i]) == Some(keys[i][..PUBLIC_KEY_SIZE]);
    }
    forall k: StaticSizedPublicKey | k in keys
      ensures Keeps(keys, k)
    {
      var i :| 0 <= i < |keys| && keys[i] == k;
      assert k[..PUBLIC_KEY_SIZE] == k;
    }
    if forall i :: 0 <= i < |keys| && |keys[i]| > PUBLIC_KEY_SIZE ==> keys[i][..PUBLIC_KEY_SIZE] in keys {
      forall k: StaticSizedPublicKey | Keeps(keys, k)
        ensures k in keys
      {
        var i :| 0 <= i < |keys| && ToStaticallySizedPublicKey(keys[i]) == Some(k);
        if |keys[i]| == PUBLIC_KEY_SIZE {
          assert keys[i] == k;
        }
      }
    }
  }

  /** A list with one over-long key: the filter keeps its first 32 bytes, the verifier refuses them. */
  lemma LongKeyDisagrees(key: PublicKey)
    requires |key| > PUBLIC_KEY_SIZE
    ensures Keeps([key], key[..PUBLIC_KEY_SIZE]) && key[..PUBLIC_KEY_SIZE] !in [key]
  {
    assert ToStaticallySizedPublicKey([key][0]) == Some(key[..PUBLIC_KEY_SIZE]);
  }

  /** Lists that passed validation are always in the agreeing case. */
  lemma ValidListsAgree(keys: seq<PublicKey>, k: StaticSizedPublicKey)
    requires WellSized(keys)
    ensures Keeps(keys, k) <==> k in keys
  {
    FilterAgreesWithVerifier(keys);
  }
}
