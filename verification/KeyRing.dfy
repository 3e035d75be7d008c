/**
 The keys of a compute cluster. Keys are replaced from time to time, and the old ones are kept so that data
 encrypted under them can still be read. Encryption is symbolic: sealed data opens under the key it was
 sealed for and under no other.
 */
module KeyRing {
  import opened Wrappers

  type Key = nat
  type Data = string

  datatype Sealed = Sealed(key: Key, data: Data)

  function Seal(key: Key, data: Data): Sealed {
    Sealed(key, data)
  }

  function Open(key: Key, s: Sealed): Option<Data> {
    if s.key == key then Some(s.data) else None
  }

  datatype Encrypted = Encrypted(cluster: string, fingerprint: string, sealed: Sealed)

  datatype DecryptionError = WrongCluster | UnknownFingerprint | DoesNotOpen

  // The newest key of the ring with a fingerprint; keys are listed oldest first.
  function NewestWith(ring: seq<Key>, fingerprint: Key -> string, wanted: string): Option<Key> {
    if |ring| == 0 then None
    else if fingerprint(ring[|ring| - 1]) == wanted then Some(ring[|ring| - 1])
    else NewestWith(ring[..|ring| - 1], fingerprint, wanted)
  }

  // `encrypt_data`, under the newest key.
  function Encrypt(uid: string, ring: seq<Key>, fingerprint: Key -> string, data: Data): Encrypted
    requires ring != []
  {
    var key := ring[|ring| - 1];
    Encrypted(uid, fingerprint(key), Seal(key, data))
  }

  function Decrypt(uid: string, ring: seq<Key>, fingerprint: Key -> string, e: Encrypted)
    : Result<Data, DecryptionError>
  {
    if e.cluster != uid then Failure(WrongCluster)
    else
      match NewestWith(ring, fingerprint, e.fingerprint)
      case None => Failure(UnknownFingerprint)
      case Some(key) =>
        match Open(key, e.sealed)
        case Some(data) => Success(data)
        case None => Failure(DoesNotOpen)
  }

  class Cluster {
    const uid: string
    const fingerprint: Key -> string
    var privateKey: Key
    var oldKeys: seq<Key>

    ghost function Ring(): seq<Key>
      reads this
    {
      oldKeys + [privateKey]
    }

    constructor (uid: string, fingerprint: Key -> string, key: Key)
      ensures this.uid == uid && this.fingerprint == fingerprint && Ring() == [key]
    {
      this.uid := uid;
      this.fingerprint := fingerprint;
      privateKey := key;
      oldKeys := [];
    }

    /** `rotate_keys`: no key is ever dropped. */
    method RotateKeys(made: Key)
      modifies this
      ensures Ring() == old(Ring()) + [made]
    {
      oldKeys := oldKeys + [privateKey];
      privateKey := made;
    }

    /** `encrypt_data`. */
    method EncryptData(data: Data) returns (e: Encrypted)
      ensures e == Encrypt(uid, Ring(), fingerprint, data)
    {
      e := Encrypted(uid, fingerprint(privateKey), Seal(privateKey, data));
    }

    /** `decrypt_data`: the search goes back from the newest key and ends. */
    method DecryptData(e: Encrypted) returns (r: Result<Data, DecryptionError>)
      ensures r == Decrypt(uid, Ring(), fingerprint, e)
    {
      if e.cluster != uid {
        return Failure(WrongCluster);
      }
      var key, i := privateKey, |oldKeys|;
      ghost var ring := Ring();
      assert ring[..i + 1] == ring;
      while e.fingerprint != fingerprint(key)
        invariant 0 <= i <= |oldKeys| && key == ring[i]
        invariant NewestWith(ring[..i + 1], fingerprint, e.fingerprint) == NewestWith(ring, fingerprint, e.fingerprint)
        decreases i
      {
        assert ring[..i + 1][..i] == ring[..i];
        i := i - 1;
        if i < 0 {
          return Failure(UnknownFingerprint);
        }
        key := oldKeys[i];
      }
      match Open(key, e.sealed)
      case Some(data) => r := Success(data);
      case None => r := Failure(DoesNotOpen);
    }
  }

  lemma {:induction false} NewestFound(ring: seq<Key>, fingerprint: Key -> string, wanted: string)
    ensures var found := NewestWith(ring, fingerprint, wanted);
      && (found.None? <==> forall k :: k in ring ==> fingerprint(k) != wanted)
      && (found.Some? ==> found.value in ring && fingerprint(found.value) == wanted)
    decreases |ring|
  {
    if |ring| > 0 {
      var rest, last := ring[..|ring| - 1], ring[|ring| - 1];
      NewestFound(rest, fingerprint, wanted);
      assert forall k :: k in ring <==> k in rest || k == last;
    }
  }

  lemma {:induction false} NewestOfBoth(ring: seq<Key>, later: seq<Key>, fingerprint: Key -> string, wanted: string)
    ensures NewestWith(ring + later, fingerprint, wanted) ==
      match NewestWith(later, fingerprint, wanted)
      case Some(key) => Some(key)
      case None => NewestWith(ring, fingerprint, wanted)
    decreases |later|
  {
    var all := ring + later;
    if |later| == 0 {
      assert all == ring;
    } else {
      assert all[..|all| - 1] == ring + later[..|later| - 1];
      NewestOfBoth(ring, later[..|later| - 1], fingerprint, wanted);
    }
  }

  /** After any number of rotations, data encrypted under a key of the ring is decrypted to what it was
      exactly when none of the keys made since shares that key's fingerprint. */
  lemma OldDataDecryptsIff(
    uid: string, ring: seq<Key>, later: seq<Key>, fingerprint: Key -> string, data: Data)
    requires ring != [] && ring[|ring| - 1] !in later
    ensures Decrypt(uid, ring + later, fingerprint, Encrypt(uid, ring, fingerprint, data)) == Success(data) <==>
      forall k :: k in later ==> fingerprint(k) != fingerprint(ring[|ring| - 1])
  {
    var wanted := fingerprint(ring[|ring| - 1]);
    NewestOfBoth(ring, later, fingerprint, wanted);
    NewestFound(later, fingerprint, wanted);
  }

  /** Data of another cluster, or under a fingerprint that no key of the ring has, is refused as such. */
  lemma ForeignDataIsRefused(uid: string, ring: seq<Key>, fingerprint: Key -> string, e: Encrypted)
    ensures Decrypt(uid, ring, fingerprint, e) == Failure(WrongCluster) <==> e.cluster != uid
    ensures Decrypt(uid, ring, fingerprint, e) == Failure(UnknownFingerprint) <==>
      e.cluster == uid && forall k :: k in ring ==> fingerprint(k) != e.fingerprint
  {
    NewestFound(ring, fingerprint, e.fingerprint);
  }
}
