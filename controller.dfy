/**
 * The ION controller: a DID that controls another DID (its "controlled DID").
 * It keeps the controlled DID's update and recovery keys in a key store, checks
 * keys against the commitments recorded in document metadata, and builds the
 * patch that attaches a controller proof to the controlled document.
 */
module Controller {
  import opened Wrappers
  import opened DidTypes
  import opened KeyManager

  /** The id of the service entry that carries a controller's proof. */
  const ProofServiceId: string := "trustchain-controller-proof"
  /** The type of that service entry. */
  const ProofServiceType: string := "TrustchainProofService"

  datatype TrustchainIonError = FailedToConvertToCommitment

  datatype SubjectError = SubjectError(reason: string)

  /**
   * Calls into code outside this model, passed in as functions so that nothing
   * is assumed about them:
   *  - publicKeyJwk: `PublicKeyJwk::try_from` on a public JWK;
   *  - commitmentScheme: `ION::commitment_scheme`, the Sidetree commitment hash;
   *  - extractCommitment: reading the commitment recorded for a key role from
   *    document metadata (`extract_commitment`, whose body is unimplemented);
   *  - didSuffix: `controlled_did_suffix`, the method-specific suffix of a DID;
   *  - attest: the attestation `main_attest` asks of the controller's attestor
   *    (`to_attestor().attest(&doc, None)`, with no signing key), whose code is
   *    not part of this model; its result is an uninterpreted function of the
   *    controller's DID and the document.
   */
  datatype Externals = Externals(
    publicKeyJwk: Jwk -> Option<PublicKeyJwk>,
    commitmentScheme: PublicKeyJwk -> Option<Commitment>,
    extractCommitment: (DocumentMetadata, KeyType) -> Option<Commitment>,
    didSuffix: string -> string,
    attest: (string, Document) -> Result<string, SubjectError>)

  /**
   * What the repository's tests expect of `extract_commitment`: the next-update
   * key is checked against the same recorded value as the update key, since the
   * ledger's update commitment is the commitment to the next update key.
   */
  ghost predicate ExtractAgreesWithTests(ext: Externals)
  {
    forall meta: DocumentMetadata ::
      ext.extractCommitment(meta, NextUpdateKey) == ext.extractCommitment(meta, UpdateKey)
  }

  /** The data a controller is built from. */
  datatype ControllerData = ControllerData(did: string, controlledDid: string, updateKey: Jwk, recoveryKey: Jwk)

  /** A subject: an entity known by its own DID. */
  datatype IonSubject = IonSubject(did: string)
  {
    function Did(): string { did }
  }

  class IonController {
    const did: string
    const controlledDid: string
    /** The key store the controller reads and writes. */
    const store: KeyStore

    /** `IONController::new`: never fails, stores nothing. */
    constructor (did: string, controlledDid: string, store: KeyStore)
      ensures Did() == did && ControlledDid() == controlledDid
      ensures this.store == store
    {
      this.did := did;
      this.controlledDid := controlledDid;
      this.store := store;
    }

    /**
     * `TryFrom<ControllerData>`: saves the update key, then the recovery key,
     * both under the controlled DID; the first failing save is returned.
     */
    static method TryFrom(data: ControllerData, store: KeyStore) returns (r: Result<IonController, KeyManagerError>)
      modifies store
      ensures r.Ok? <==> store.accepts((data.controlledDid, KeyType.UpdateKey))
                         && store.accepts((data.controlledDid, KeyType.RecoveryKey))
      ensures r.Err? ==> r.error == FailedToSaveKey
      ensures !store.accepts((data.controlledDid, KeyType.UpdateKey)) ==> store.keys == old(store.keys)
      ensures store.accepts((data.controlledDid, KeyType.UpdateKey)) && !store.accepts((data.controlledDid, KeyType.RecoveryKey))
              ==> store.keys == Saved(old(store.keys), data.controlledDid, KeyType.UpdateKey, data.updateKey)
      ensures r.Ok? ==> fresh(r.value) && r.value.store == store
      ensures r.Ok? ==> r.value.Did() == data.did && r.value.ControlledDid() == data.controlledDid
      ensures r.Ok? ==> r.value.UpdateKey() == Ok(data.updateKey) && r.value.RecoveryKey() == Ok(data.recoveryKey)
      ensures r.Ok? ==>
                store.keys == Saved(Saved(old(store.keys), data.controlledDid, KeyType.UpdateKey, data.updateKey),
                                    data.controlledDid, KeyType.RecoveryKey, data.recoveryKey)
    {
      var controller := new IonController(data.did, data.controlledDid, store);
      var saved := store.SaveKey(controller.controlledDid, KeyType.UpdateKey, data.updateKey);
      if saved.Fail? {
        return Err(saved.error);
      }
      saved := store.SaveKey(controller.controlledDid, KeyType.RecoveryKey, data.recoveryKey);
      if saved.Fail? {
        return Err(saved.error);
      }
      r := Ok(controller);
    }

    /** `Subject::did`: the controller's own DID. */
    function Did(): (d: string)
      ensures d == did
    {
      did
    }

    /** `Controller::controlled_did`: the DID this controller controls. */
    function ControlledDid(): (d: string)
      ensures d == controlledDid
    {
      controlledDid
    }

    /** `Controller::update_key`: the update key stored for the controlled DID. */
    function UpdateKey(): (r: Result<Jwk, KeyManagerError>)
      reads store
      ensures r.Ok? <==> (controlledDid, KeyType.UpdateKey) in store.keys
      ensures r.Ok? ==> r.value == store.keys[(controlledDid, KeyType.UpdateKey)]
      ensures r.Err? ==> r.error == FailedToLoadKey
    {
      Read(store.keys, controlledDid, KeyType.UpdateKey)
    }

    /** `Controller::recovery_key`: the recovery key stored for the controlled DID. */
    function RecoveryKey(): (r: Result<Jwk, KeyManagerError>)
      reads store
      ensures r.Ok? <==> (controlledDid, KeyType.RecoveryKey) in store.keys
      ensures r.Ok? ==> r.value == store.keys[(controlledDid, KeyType.RecoveryKey)]
      ensures r.Err? ==> r.error == FailedToLoadKey
    {
      Read(store.keys, controlledDid, KeyType.RecoveryKey)
    }

    /**
     * `Controller::next_update_key`: the next-update key stored for the
     * controlled DID; a successful read is always wrapped in `Some`.
     */
    function NextUpdateKey(): (r: Result<Option<Jwk>, KeyManagerError>)
      reads store
      ensures r.Ok? <==> (controlledDid, KeyType.NextUpdateKey) in store.keys
      ensures r.Ok? ==> r.value == Some(store.keys[(controlledDid, KeyType.NextUpdateKey)])
      ensures r.Err? ==> r.error == FailedToLoadKey
    {
      match Read(store.keys, controlledDid, KeyType.NextUpdateKey)
      case Ok(key) => Ok(Some(key))
      case Err(e) => Err(e)
    }

    /** `Controller::into_subject`: the controller seen as a subject of its own DID. */
    function IntoSubject(): (s: IonSubject)
      ensures s.Did() == Did()
    {
      IonSubject(did)
    }
  }

  /** True iff the metadata has a property set holding a "proof" entry. */
  function IsProofInDocMeta(meta: DocumentMetadata): (b: bool)
    ensures b <==> meta.propertySet.Some? && "proof" in meta.propertySet.value
  {
    match meta.propertySet
    case Some(propertySet) => "proof" in propertySet
    case None => false
  }

  /** The patch adding a single controller-proof service naming `did` as controller. */
  function AddProofService(did: string, proof: string): (p: DidStatePatch)
    ensures p.AddServices? && |p.services| == 1
    ensures ReadProofService(p.services[0]) == Some((did, proof))
  {
    var obj := map["controller" := Str(did), "proofValue" := Str(proof)];
    AddServices([ServiceEndpointEntry(ProofServiceId, ProofServiceType, Map(Object(obj)))])
  }

  /**
   * The reading side of a controller-proof service: when `entry` is one, with
   * exactly the "controller" and "proofValue" string fields, the pair of them.
   */
  function ReadProofService(entry: ServiceEndpointEntry): Option<(string, string)>
  {
    if entry.id == ProofServiceId && entry.serviceType == ProofServiceType
       && entry.serviceEndpoint.Map? && entry.serviceEndpoint.value.Object?
    then
      var fields := entry.serviceEndpoint.value.fields;
      if fields.Keys == {"controller", "proofValue"} && fields["controller"].Str? && fields["proofValue"].Str?
      then Some((fields["controller"].s, fields["proofValue"].s))
      else None
    else None
  }

  /**
   * A mirror of the literals the source writes: the id, type and endpoint map
   * of the entry `AddProofService` builds (already pinned down by its
   * `ReadProofService` clause).
   */
  lemma AddProofServiceEntry(did: string, proof: string)
    ensures AddProofService(did, proof).services[0].id == ProofServiceId
    ensures AddProofService(did, proof).services[0].serviceType == ProofServiceType
    ensures AddProofService(did, proof).services[0].serviceEndpoint
            == Map(Object(map["controller" := Str(did), "proofValue" := Str(proof)]))
  {
  }

  /**
   * `key_to_commitment`: the commitment of the public part of `key`; either
   * conversion failing gives `FailedToConvertToCommitment`.
   */
  function KeyToCommitment(ext: Externals, key: Jwk): (r: Result<Commitment, TrustchainIonError>)
    ensures r.Ok? <==> ext.publicKeyJwk(ToPublic(key)).Some? && ext.commitmentScheme(ext.publicKeyJwk(ToPublic(key)).value).Some?
    ensures r.Ok? ==> r.value == ext.commitmentScheme(ext.publicKeyJwk(ToPublic(key)).value).value
    ensures r.Err? ==> r.error == FailedToConvertToCommitment
  {
    match ext.publicKeyJwk(ToPublic(key))
    case Some(pk) =>
      (match ext.commitmentScheme(pk)
       case Some(commitment) => Ok(commitment)
       case None => Err(FailedToConvertToCommitment))
    case None => Err(FailedToConvertToCommitment)
  }

  /** Both failure sources of `KeyToCommitment` map to the one error; success is the scheme's value. */
  lemma KeyToCommitmentOutcomes(ext: Externals, key: Jwk)
    ensures ext.publicKeyJwk(ToPublic(key)).None? ==> KeyToCommitment(ext, key) == Err(FailedToConvertToCommitment)
    ensures ext.publicKeyJwk(ToPublic(key)).Some? && ext.commitmentScheme(ext.publicKeyJwk(ToPublic(key)).value).None?
            ==> KeyToCommitment(ext, key) == Err(FailedToConvertToCommitment)
    ensures KeyToCommitment(ext, key).Ok? <==>
              ext.publicKeyJwk(ToPublic(key)).Some? && ext.commitmentScheme(ext.publicKeyJwk(ToPublic(key)).value).Some?
    ensures KeyToCommitment(ext, key).Ok? ==>
              KeyToCommitment(ext, key).value == ext.commitmentScheme(ext.publicKeyJwk(ToPublic(key)).value).value
  {
  }

  /** The commitment of a key depends only on its public part. */
  lemma KeyToCommitmentPublicOnly(ext: Externals, key: Jwk, key': Jwk)
    requires key.publicParams == key'.publicParams
    ensures KeyToCommitment(ext, key) == KeyToCommitment(ext, key')
    ensures KeyToCommitment(ext, ToPublic(key)) == KeyToCommitment(ext, key)
  {
  }

  /**
   * `is_commitment_key`: whether the commitment of `key` equals the commitment
   * recorded for `keyType`. The source panics when either cannot be computed.
   */
  function IsCommitmentKey(ext: Externals, meta: DocumentMetadata, key: Jwk, keyType: KeyType): (b: bool)
    requires KeyToCommitment(ext, key).Ok?
    requires ext.extractCommitment(meta, keyType).Some?
    ensures b <==> ext.extractCommitment(meta, keyType) == Some(KeyToCommitment(ext, key).value)
  {
    ext.extractCommitment(meta, keyType).value == KeyToCommitment(ext, key).value
  }

  /** A key is the commitment key for a role exactly when its commitment is the recorded one. */
  lemma IsCommitmentKeyIff(ext: Externals, meta: DocumentMetadata, key: Jwk, keyType: KeyType, recorded: Commitment)
    requires KeyToCommitment(ext, key).Ok?
    requires ext.extractCommitment(meta, keyType) == Some(recorded)
    ensures IsCommitmentKey(ext, meta, key, keyType) <==> KeyToCommitment(ext, key) == Ok(recorded)
    ensures forall key': Jwk ::
              key'.publicParams == key.publicParams ==>
                IsCommitmentKey(ext, meta, key', keyType) == IsCommitmentKey(ext, meta, key, keyType)
  {
  }

  /**
   * A mirror of the test of `extract_commitment`: under its expectation, a
   * key that is the next-update commitment key is also the update commitment
   * key (a substitution under the requires).
   */
  lemma NextUpdateCommitmentIsUpdateCommitment(ext: Externals, meta: DocumentMetadata, key: Jwk)
    requires ExtractAgreesWithTests(ext)
    requires KeyToCommitment(ext, key).Ok? && ext.extractCommitment(meta, NextUpdateKey).Some?
    ensures ext.extractCommitment(meta, UpdateKey).Some?
    ensures IsCommitmentKey(ext, meta, key, NextUpdateKey) == IsCommitmentKey(ext, meta, key, UpdateKey)
  {
  }

  /**
   * A mirror of the test of `into_subject`: the subject keeps the controller's
   * DID, and so differs from a distinct controlled DID.
   */
  lemma IntoSubjectIsController(c: IonController)
    ensures c.IntoSubject().Did() == c.Did()
    ensures c.Did() != c.ControlledDid() ==> c.IntoSubject().Did() != c.ControlledDid()
  {
  }
}
