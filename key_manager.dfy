/**
 * The controller's key store. The source persists keys as files, one per
 * (DID, role); here the store is a map from (DID, KeyType) to key, and the
 * file system's answer to a write is a fixed function of the slot written.
 */
module KeyManager {
  import opened Wrappers
  import opened DidTypes

  datatype KeyType = UpdateKey | RecoveryKey | NextUpdateKey | SigningKey

  datatype KeyManagerError = FailedToLoadKey | FailedToSaveKey

  type KeyMap = map<(string, KeyType), Jwk>

  /** Reading a slot: the stored key, or `FailedToLoadKey` when nothing is stored there. */
  function Read(keys: KeyMap, did: string, keyType: KeyType): (r: Result<Jwk, KeyManagerError>)
    ensures r.Ok? <==> (did, keyType) in keys
    ensures r.Ok? ==> r.value == keys[(did, keyType)]
    ensures r.Err? ==> r.error == FailedToLoadKey
  {
    if (did, keyType) in keys then Ok(keys[(did, keyType)]) else Err(FailedToLoadKey)
  }

  /** The key map after saving `key` in slot (did, keyType). */
  function Saved(keys: KeyMap, did: string, keyType: KeyType, key: Jwk): KeyMap
  {
    keys[(did, keyType) := key]
  }

  /** The key map after promoting `key` to update key of `did` and discarding the next-update key. */
  function Promoted(keys: KeyMap, did: string, key: Jwk): KeyMap
  {
    Saved(keys, did, UpdateKey, key) - {(did, NextUpdateKey)}
  }

  /** Saving then reading the same slot yields the saved key; other slots are untouched. */
  lemma SavedReadBack(keys: KeyMap, did: string, keyType: KeyType, key: Jwk, did': string, keyType': KeyType)
    ensures Read(Saved(keys, did, keyType, key), did, keyType) == Ok(key)
    ensures (did', keyType') != (did, keyType) ==>
              Read(Saved(keys, did, keyType, key), did', keyType') == Read(keys, did', keyType')
  {
  }

  /** After promotion the update key is the promoted key and no next-update key is held. */
  lemma PromotedReadBack(keys: KeyMap, did: string, key: Jwk)
    ensures Read(Promoted(keys, did, key), did, UpdateKey) == Ok(key)
    ensures Read(Promoted(keys, did, key), did, NextUpdateKey) == Err(FailedToLoadKey)
    ensures Read(Promoted(keys, did, key), did, RecoveryKey) == Read(keys, did, RecoveryKey)
  {
  }

  class KeyStore {
    var keys: KeyMap
    /** Whether the backing storage accepts a write to a slot. */
    const accepts: ((string, KeyType)) -> bool

    constructor (accepts: ((string, KeyType)) -> bool)
      ensures this.accepts == accepts && keys == map[]
    {
      this.accepts := accepts;
      keys := map[];
    }

    /** Stores `key` in slot (did, keyType); fails and changes nothing when the slot refuses the write. */
    method SaveKey(did: string, keyType: KeyType, key: Jwk) returns (r: Outcome<KeyManagerError>)
      modifies this
      ensures r == if accepts((did, keyType)) then Pass else Fail(FailedToSaveKey)
      ensures keys == if accepts((did, keyType)) then Saved(old(keys), did, keyType, key) else old(keys)
    {
      if accepts((did, keyType)) {
        keys := Saved(keys, did, keyType, key);
        r := Pass;
      } else {
        r := Fail(FailedToSaveKey);
      }
    }

    /**
     * Makes `key` the update key of `did` and deletes its next-update key;
     * fails and changes nothing when the update-key slot refuses the write.
     */
    method ApplyNextUpdateKey(did: string, key: Jwk) returns (r: Outcome<KeyManagerError>)
      modifies this
      ensures r == if accepts((did, UpdateKey)) then Pass else Fail(FailedToSaveKey)
      ensures keys == if accepts((did, UpdateKey)) then Promoted(old(keys), did, key) else old(keys)
    {
      if accepts((did, UpdateKey)) {
        keys := Promoted(keys, did, key);
        r := Pass;
      } else {
        r := Fail(FailedToSaveKey);
      }
    }
  }
}
