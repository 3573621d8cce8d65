# Trustchain controller, attestation and graph model

A Dafny model of three pieces of Trustchain, a system that chains
decentralized identifiers (DIDs) together. Each DID is attested by a
controller DID one level up.

- **Controller** (`controller.dfy`, `key_manager.dfy`): an ION controller.
  It knows its own DID and the DID it controls. It saves the controlled DID's
  update and recovery keys in a key store and reads them back. It also:
  - checks whether document metadata already carries a proof;
  - builds the `AddServices` patch that attaches a `trustchain-controller-proof` service;
  - compares a key's Sidetree commitment with the commitment recorded in metadata.

  The key store is a class over a map from (DID, key type) to key. Each
  write's success is a fixed function of the slot written.
- **Attestation** (`attest.dfy`): the part of `main_attest` that:
  - loads the controller;
  - promotes a held next-update key when the ledger's commitment matches it, and aborts when it does not;
  - assembles the patch list: an optional `RemoveServices` of the old proof, then exactly one `AddServices` with the new proof.

  `MainAttest` is proved equal to the specification function `AttestSpec`.
  The lemmas beside it state the ordering, length and error rules.
- **Graph** (`graph.dfy`): `read_trees` turns a list of document chains into
  a directed graph. Each consecutive pair of documents becomes two fresh
  nodes and one edge. `ReadTrees` keeps the source's nested loops and is
  proved equal to `ReadTreesSpec`. The lemmas give the exact node and edge
  counts, the endpoints of every edge, input order, and the rule that short
  chains add nothing. `TrustchainGraph::new` always succeeds: the code never
  produces `NotATree`.

Foreign calls stay uninterpreted. They are fields of the `Controller.Externals` datatype of function values:
- `PublicKeyJwk::try_from`;
- the ION commitment hash;
- the unimplemented `extract_commitment`;
- the attestation call `controller.to_attestor().attest(&doc, None)` in `main_attest` (attest.rs:87), whose code is not part of this model; its result is an uninterpreted function of the controller's DID and the document;
- `controlled_did_suffix`.

Nothing is assumed about these functions. In particular, the commitment hash is not assumed injective.
A panic in the source (the `panic!()` calls and the `unwrap` on key
promotion) is the `Aborted` outcome of `MainAttest`. A panic inside
`is_commitment_key` is a precondition of `IsCommitmentKey`.

The model follows the code, not a design in which `is_commitment_key` fails closed and the graph is checked to be a tree:
- `is_commitment_key` panics on a key or metadata it cannot convert. It does not fail closed.
- The graph is never checked for being a tree.
- The rotation check reads the commitment recorded for the `NextUpdateKey` role.

The repository's tests expect that role to share the update commitment.
`Controller.ExtractAgreesWithTests` states this expectation, and
`Controller.NextUpdateCommitmentIsUpdateCommitment` uses it.

The source writes keys in two different slots:
- `try_from` saves, and the getters read, under the full controlled DID;
- key promotion in `main_attest` writes under `controlled_did_suffix()`.

The model keeps the two slots apart, as the source does.

## Model

| member | source | states |
|---|---|---|
| `KeyManager.Read` | trustchain-ion/src/controller.rs:128-145 | reading a slot yields the stored key exactly when one is stored, else `FailedToLoadKey` |
| `KeyManager.SavedReadBack` | trustchain-ion/src/controller.rs:46-56 | a saved key reads back from its slot; every other slot reads as before |
| `KeyManager.PromotedReadBack` | trustchain-ion/src/attest.rs:57-62 | after promotion the update key is the promoted key, no next-update key is held, the recovery key is unchanged |
| `KeyManager.KeyStore.SaveKey` | trustchain-ion/src/controller.rs:46-56 | a save that the storage accepts stores the key in its slot; a refused save returns `FailedToSaveKey` and changes nothing |
| `KeyManager.KeyStore.ApplyNextUpdateKey` | trustchain-ion/src/attest.rs:57-62 | the key becomes the update key and the next-update key is deleted, or the write fails and nothing changes |
| `Controller.IonController.constructor` | trustchain-ion/src/controller.rs:73-101 | `new` never fails; `did()` is the controller DID and `controlled_did()` the controlled DID |
| `Controller.IonController.TryFrom` | trustchain-ion/src/controller.rs:38-59 | succeeds iff both saves succeed; afterwards `update_key()` and `recovery_key()` return the supplied keys, both stored under the controlled DID; a failed first save changes nothing, a failed second save leaves only the update key written |
| `Controller.IonController.NextUpdateKey` | trustchain-ion/src/controller.rs:133-136 | a successful read is always `Some` of the stored next-update key, never `Ok(None)`; a missing key is `FailedToLoadKey` |
| `Controller.IonController.Did` | trustchain-ion/src/controller.rs:113-117 | `did()` is the controller's own DID, not the controlled one |
| `Controller.IonController.ControlledDid` | trustchain-ion/src/controller.rs:124-126 | `controlled_did()` is the controlled DID |
| `Controller.IonController.UpdateKey` | trustchain-ion/src/controller.rs:128-131 | Ok iff an update key is stored under the controlled DID, and then it is that key; otherwise `FailedToLoadKey` |
| `Controller.IonController.RecoveryKey` | trustchain-ion/src/controller.rs:142-145 | Ok iff a recovery key is stored under the controlled DID, and then it is that key; otherwise `FailedToLoadKey` |
| `Controller.KeyToCommitment` | trustchain-ion/src/controller.rs:207-219 | Ok iff the public-key conversion of the key's public part and the commitment scheme both succeed, with the scheme's value; every failure is `FailedToConvertToCommitment` |
| `Controller.IsCommitmentKey` | trustchain-ion/src/controller.rs:178-195 | when neither conversion panics, true iff the commitment recorded for the role is the key's commitment |
| `Controller.IonController.IntoSubject` | trustchain-ion/src/controller.rs:147-149 | the subject's DID is the controller's own DID |
| `Controller.IntoSubjectIsController` | trustchain-ion/src/controller.rs:276-289 | the subject's DID is the controller DID, so it differs from a distinct controlled DID |
| `Controller.IsProofInDocMeta` | trustchain-ion/src/controller.rs:154-160 | true iff the metadata has a property set and it contains the key "proof"; false without a property set |
| `Controller.AddProofService` | trustchain-ion/src/controller.rs:163-175 | an `AddServices` patch with exactly one entry, which reads back as a controller-proof service naming `did` and `proof` |
| `Controller.AddProofServiceEntry` | trustchain-ion/src/controller.rs:163-175 | the entry's id is "trustchain-controller-proof", its type "TrustchainProofService", its endpoint the map {"controller": did, "proofValue": proof} |
| `Controller.KeyToCommitmentOutcomes` | trustchain-ion/src/controller.rs:207-219 | either conversion failing yields `FailedToConvertToCommitment`; success iff both conversions succeed, with the scheme's value |
| `Controller.KeyToCommitmentPublicOnly` | trustchain-ion/src/controller.rs:212 | the commitment depends only on the key's public part |
| `Controller.IsCommitmentKeyIff` | trustchain-ion/src/controller.rs:178-195 | with the recorded commitment in hand, a key is the commitment key iff its commitment equals it; keys with the same public part agree |
| `Controller.NextUpdateCommitmentIsUpdateCommitment` | trustchain-ion/src/controller.rs:309-329 | when the next-update role reads the update commitment, as the tests expect, matching one role is matching the other |
| `Attest.MainAttest` | trustchain-ion/src/attest.rs:17-94 | the outcome and the new key store are exactly those of `AttestSpec`: rotation check, then removal patch if a proof is present, then the proof patch or the attestation error |
| `Attest.AttestPatchesShape` | trustchain-ion/src/attest.rs:70-94 | a successful run gives 2 patches when a proof is present and 1 otherwise; the last adds the proof service naming the controller's own DID; any earlier patch is `RemoveServices(["trustchain-controller-proof"])` |
| `Attest.AttestPatchesIff` | trustchain-ion/src/attest.rs:54-94 | patches are produced iff the rotation check passes and the attestation succeeds |
| `Attest.AttestFailurePropagates` | trustchain-ion/src/attest.rs:90-94 | a failed attestation is returned unchanged and no patch list is produced; a promotion already made stays |
| `Attest.AttestAbortsOnMismatch` | trustchain-ion/src/attest.rs:63-66 | a held next-update key whose commitment differs from the recorded one aborts the run with the key store untouched |
| `Attest.AttestPromotesMatchingKey` | trustchain-ion/src/attest.rs:54-62 | a held matching next-update key becomes the update key (next-update slot emptied) before the patches are built |
| `Attest.AttestWithoutNextKey` | trustchain-ion/src/attest.rs:54 | with no next-update key held, no key changes and the patches are built directly |
| `Graph.ReadTrees` | trustchain-core/src/graph.rs:26-40 | the nested loops build exactly `ReadTreesSpec(trees)` |
| `Graph.New` | trustchain-core/src/graph.rs:44-47 | always `Ok` with the graph `read_trees` builds; `NotATree` is never produced |
| `Graph.PairNodesLength` | trustchain-core/src/graph.rs:32-35 | one chain adds two nodes per consecutive pair, 2 * max(len - 1, 0) |
| `Graph.NodeCount` | trustchain-core/src/graph.rs:29-37 | the node count is twice the edge count, which is the sum over chains of max(len - 1, 0) |
| `Graph.PairEdgesAt` | trustchain-core/src/graph.rs:33-38 | the k-th edge goes from node 2k to node 2k + 1 |
| `Graph.PairNodesAt` | trustchain-core/src/graph.rs:32-35 | within one chain, the pair ending at position i is held by nodes 2(i - 1) and 2(i - 1) + 1 |
| `Graph.TreeNodesAt` | trustchain-core/src/graph.rs:29-36 | the pair ending at trees[j][i] is held by nodes 2k and 2k + 1, k its edge index |
| `Graph.ReadTreesEdge` | trustchain-core/src/graph.rs:26-40 | every consecutive pair has its own edge from a node holding trees[j][i - 1] to a node holding trees[j][i] |
| `Graph.ReadTreesCounts` | trustchain-core/src/graph.rs:29-38 | edge count is the sum of max(len - 1, 0), node count twice that, edge k joins nodes 2k and 2k + 1 |
| `Graph.NodesNotShared` | trustchain-core/src/graph.rs:32-35 | each node is an endpoint of exactly one edge, even where neighbouring pairs share a document |
| `Graph.EdgesInInputOrder` | trustchain-core/src/graph.rs:29-36 | edges follow input order: chains in list order, positions ascending within a chain |
| `Graph.ShortTreeAddsNothing` | trustchain-core/src/graph.rs:32 | a chain with fewer than two documents, anywhere in the list, adds no node and no edge |
| `Graph.SharedDocumentExample` | trustchain-core/src/graph.rs:32-35 | the chain [a, b, c] gives nodes [a, b, b, c] and edges (0, 1), (2, 3) |
| `Graph.EqualDocumentsStaySeparate` | trustchain-core/src/graph.rs:76-80 | the chain [d, d] gives two nodes and one edge between them, not one node with a self-loop |

## Left out

- Resolution of the controlled DID over HTTP (trustchain-ion/src/attest.rs:36-48). The resolved document and metadata are parameters of `MainAttest`. The resolver's error and `panic!()` paths are network code.
- The verbose printing (trustchain-ion/src/attest.rs:31-34): it is output only.
- The error branch after `IONController::new` (trustchain-ion/src/attest.rs:23-29): `new` always returns `Ok` (controller.rs:97-100), so that branch is dead. The model's constructor cannot fail, and there is no error to propagate.
- Everything after the patch list (trustchain-ion/src/attest.rs:96-131): `generate_next_update_key` (unimplemented), `ION::update`, and the JSON file write. These are foreign or I/O code.
- The `IONSubject` that `new` builds and drops (controller.rs:77): it has no effect.
- Bodies marked `todo!()`:
  - `extract_commitment` is the uninterpreted `Externals.extractCommitment`;
  - `Subject::attest` of the controller (controller.rs:118-120) is not modelled; `main_attest` calls the attestor's `attest` instead, which is the uninterpreted `Externals.attest`;
  - `create_subject`, `generate_next_update_key`, `to_graphviz` and `Display::fmt` are not modelled.
- The commitment hash and JWK conversion: they are foreign cryptography, passed in as functions.
- The resolver chain walk and the verifier: they are not part of this model.
- File-backed key persistence. The store is a map, and read failures other than a missing slot are not modelled.
- Key promotion deletes the next-update key as part of one write. A failure of the delete alone is not modelled.
- Graph.New: node indices (and so `Graph.ReadTrees`) are unbounded in the model; petgraph's default `u32` index (graph.rs:30) makes `add_node` panic once about 2^32 nodes exist, so the source's `read_trees` and `TrustchainGraph::new` panic on such inputs while the model's `New` returns `Ok`.
- petgraph: the model records nodes and edges as sequences. Edge weights are left out; `extend_with_edges` gives every edge the default document.
- Fields of documents, metadata and patches that the modelled code never reads or builds.
- The redactable-signature sketch and the library root: they hold no logic of the core.
