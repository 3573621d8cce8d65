/**
 * The attestation step of `main_attest`: load the controller, promote a held
 * next-update key when the ledger's commitment says it is now the update key,
 * then assemble the patch list that replaces the controlled document's proof
 * service. Resolution, the update operation and the file write are not modelled.
 */
module Attest {
  import opened Wrappers
  import opened DidTypes
  import opened KeyManager
  import opened Controller

  /**
   * How an attestation run ends: with the assembled patches, with the error of
   * a failed attestation, or aborted by a panic (a key that does not match the
   * ledger commitment, a commitment that cannot be computed, a failed promotion).
   */
  datatype AttestOutcome = Patches(patches: seq<DidStatePatch>) | Failed(error: SubjectError) | Aborted

  /** The key-rotation check either lets the run continue with the new key map or aborts it. */
  datatype Rotation = Continue(keys: KeyMap) | Abort

  /** The patch that removes the controller-proof service. */
  const RemoveProofService: DidStatePatch := RemoveServices([ProofServiceId])

  /**
   * The rotation check: with no next-update key held nothing happens; a held
   * key whose commitment is the recorded next-update commitment is promoted
   * to update key (stored under the controlled DID's suffix); anything else
   * aborts.
   */
  function RotationStep(ext: Externals, keys: KeyMap, accepts: ((string, KeyType)) -> bool,
                        controlledDid: string, meta: DocumentMetadata): Rotation
  {
    match Read(keys, controlledDid, NextUpdateKey)
    case Err(_) => Continue(keys)
    case Ok(key) =>
      if KeyToCommitment(ext, key).Err? || ext.extractCommitment(meta, NextUpdateKey).None? then Abort
      else if !IsCommitmentKey(ext, meta, key, NextUpdateKey) then Abort
      else if !accepts((ext.didSuffix(controlledDid), UpdateKey)) then Abort
      else Continue(Promoted(keys, ext.didSuffix(controlledDid), key))
  }

  /** The patch list: a removal when a proof is already present, then the new proof service. */
  function PatchList(proofPresent: bool, did: string, proof: Result<string, SubjectError>): AttestOutcome
  {
    var removal := if proofPresent then [RemoveProofService] else [];
    match proof
    case Ok(p) => Patches(removal + [AddProofService(did, p)])
    case Err(e) => Failed(e)
  }

  /** The whole attestation step: its outcome and the key map it leaves behind. */
  function AttestSpec(ext: Externals, keys: KeyMap, accepts: ((string, KeyType)) -> bool,
                      did: string, controlledDid: string, doc: Document, meta: DocumentMetadata): (AttestOutcome, KeyMap)
  {
    match RotationStep(ext, keys, accepts, controlledDid, meta)
    case Abort => (Aborted, keys)
    case Continue(keys') => (PatchList(IsProofInDocMeta(meta), did, ext.attest(did, doc)), keys')
  }

  /**
   * `main_attest` from loading the controller to the assembled patches, given
   * the resolved document and metadata of the controlled DID.
   */
  method MainAttest(ext: Externals, did: string, controlledDid: string, store: KeyStore,
                    doc: Document, meta: DocumentMetadata) returns (r: AttestOutcome)
    modifies store
    ensures (r, store.keys) == AttestSpec(ext, old(store.keys), store.accepts, did, controlledDid, doc, meta)
  {
    var controller := new IonController(did, controlledDid, store);

    var next := controller.NextUpdateKey();
    if next.Ok? && next.value.Some? {
      var key := next.value.value;
      if KeyToCommitment(ext, key).Err? || ext.extractCommitment(meta, NextUpdateKey).None? {
        return Aborted;
      }
      if IsCommitmentKey(ext, meta, key, NextUpdateKey) {
        var applied := store.ApplyNextUpdateKey(ext.didSuffix(controller.ControlledDid()), key);
        if applied.Fail? {
          return Aborted;
        }
      } else {
        return Aborted;
      }
    }

    assert RotationStep(ext, old(store.keys), store.accepts, controlledDid, meta) == Continue(store.keys);
    var patches: seq<DidStatePatch> := [];
    if IsProofInDocMeta(meta) {
      patches := patches + [RemoveProofService];
    }
    assert patches == if IsProofInDocMeta(meta) then [RemoveProofService] else [];
    var proof := ext.attest(controller.Did(), doc);
    match proof {
      case Ok(p) =>
        patches := patches + [AddProofService(controller.Did(), p)];
      case Err(e) =>
        return Failed(e);
    }
    r := Patches(patches);
  }

  /**
   * A successful run yields one or two patches: the removal of the proof
   * service exactly when the metadata already carries a proof, first, and the
   * new proof service, naming the controller's own DID, last.
   */
  lemma AttestPatchesShape(ext: Externals, keys: KeyMap, accepts: ((string, KeyType)) -> bool,
                           did: string, controlledDid: string, doc: Document, meta: DocumentMetadata)
    requires AttestSpec(ext, keys, accepts, did, controlledDid, doc, meta).0.Patches?
    ensures var ps := AttestSpec(ext, keys, accepts, did, controlledDid, doc, meta).0.patches;
            && ext.attest(did, doc).Ok?
            && |ps| == (if IsProofInDocMeta(meta) then 2 else 1)
            && ps[|ps| - 1] == AddProofService(did, ext.attest(did, doc).value)
            && ReadProofService(ps[|ps| - 1].services[0]) == Some((did, ext.attest(did, doc).value))
            && (|ps| == 2 ==> ps[0] == RemoveServices(["trustchain-controller-proof"]))
            && (forall k :: 0 <= k < |ps| - 1 ==> ps[k].RemoveServices?)
  {
  }

  /** A run produces patches exactly when the rotation check passes and attestation succeeds. */
  lemma AttestPatchesIff(ext: Externals, keys: KeyMap, accepts: ((string, KeyType)) -> bool,
                         did: string, controlledDid: string, doc: Document, meta: DocumentMetadata)
    ensures AttestSpec(ext, keys, accepts, did, controlledDid, doc, meta).0.Patches?
            <==> RotationStep(ext, keys, accepts, controlledDid, meta).Continue? && ext.attest(did, doc).Ok?
  {
  }

  /** A failed attestation is returned as it is, after the rotation check, and no patches are produced. */
  lemma AttestFailurePropagates(ext: Externals, keys: KeyMap, accepts: ((string, KeyType)) -> bool,
                                did: string, controlledDid: string, doc: Document, meta: DocumentMetadata)
    requires RotationStep(ext, keys, accepts, controlledDid, meta).Continue?
    requires ext.attest(did, doc).Err?
    ensures AttestSpec(ext, keys, accepts, did, controlledDid, doc, meta).0 == Failed(ext.attest(did, doc).error)
    ensures AttestSpec(ext, keys, accepts, did, controlledDid, doc, meta).1
            == RotationStep(ext, keys, accepts, controlledDid, meta).keys
  {
  }

  /** A held next-update key that does not match the recorded commitment aborts the run and changes no key. */
  lemma AttestAbortsOnMismatch(ext: Externals, keys: KeyMap, accepts: ((string, KeyType)) -> bool,
                               did: string, controlledDid: string, doc: Document, meta: DocumentMetadata, key: Jwk)
    requires Read(keys, controlledDid, NextUpdateKey) == Ok(key)
    requires KeyToCommitment(ext, key).Ok? && ext.extractCommitment(meta, NextUpdateKey).Some?
    requires KeyToCommitment(ext, key).value != ext.extractCommitment(meta, NextUpdateKey).value
    ensures AttestSpec(ext, keys, accepts, did, controlledDid, doc, meta) == (Aborted, keys)
  {
  }

  /**
   * A held next-update key that matches the recorded commitment becomes the
   * update key, and the next-update slot is emptied, before any patch is built.
   */
  lemma AttestPromotesMatchingKey(ext: Externals, keys: KeyMap, accepts: ((string, KeyType)) -> bool,
                                  did: string, controlledDid: string, doc: Document, meta: DocumentMetadata, key: Jwk)
    requires Read(keys, controlledDid, NextUpdateKey) == Ok(key)
    requires KeyToCommitment(ext, key).Ok?
    requires ext.extractCommitment(meta, NextUpdateKey) == Some(KeyToCommitment(ext, key).value)
    requires accepts((ext.didSuffix(controlledDid), UpdateKey))
    ensures var (outcome, keys') := AttestSpec(ext, keys, accepts, did, controlledDid, doc, meta);
            && outcome == PatchList(IsProofInDocMeta(meta), did, ext.attest(did, doc))
            && keys' == Promoted(keys, ext.didSuffix(controlledDid), key)
            && Read(keys', ext.didSuffix(controlledDid), UpdateKey) == Ok(key)
            && Read(keys', ext.didSuffix(controlledDid), NextUpdateKey).Err?
  {
  }

  /** With no next-update key held, the key map is left as it is and the patches are built directly. */
  lemma AttestWithoutNextKey(ext: Externals, keys: KeyMap, accepts: ((string, KeyType)) -> bool,
                             did: string, controlledDid: string, doc: Document, meta: DocumentMetadata)
    requires Read(keys, controlledDid, NextUpdateKey).Err?
    ensures AttestSpec(ext, keys, accepts, did, controlledDid, doc, meta)
            == (PatchList(IsProofInDocMeta(meta), did, ext.attest(did, doc)), keys)
  {
  }
}
