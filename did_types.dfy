/**
 * The data the controller and the graph work with: JSON values, JSON web keys,
 * service entries, document state patches, documents and their metadata.
 * Only the parts the modelled code inspects or builds are represented.
 */
module DidTypes {
  import opened Wrappers

  /** A JSON value, as produced by `serde_json::Value`. */
  datatype Value =
    | Null
    | Bool(b: bool)
    | Number(n: int)
    | Str(s: string)
    | Array(items: seq<Value>)
    | Object(fields: map<string, Value>)

  /**
   * A JSON web key: the public parameters and, for a key pair, the private
   * parameters. `ToPublic` drops the private part.
   */
  datatype Jwk = Jwk(publicParams: string, privateParams: Option<string>)

  function ToPublic(key: Jwk): Jwk
  {
    Jwk(key.publicParams, None)
  }

  /** The public-key form the Sidetree commitment scheme accepts. */
  datatype PublicKeyJwk = PublicKeyJwk(params: string)

  /** A commitment is the string the ledger records for a key. */
  type Commitment = string

  /** A service endpoint: a URI or a JSON map. */
  datatype ServiceEndpoint = Uri(uri: string) | Map(value: Value)

  datatype ServiceEndpointEntry = ServiceEndpointEntry(id: string, serviceType: string, serviceEndpoint: ServiceEndpoint)

  /** The two kinds of Sidetree document state patch the controller builds. */
  datatype DidStatePatch =
    | AddServices(services: seq<ServiceEndpointEntry>)
    | RemoveServices(ids: seq<string>)

  /** A resolved DID document: its id, its optional controller and its services. */
  datatype Document = Document(id: string, controller: Option<string>, service: seq<ServiceEndpointEntry>)

  /** Ledger metadata attached to a document; `propertySet` holds the method-specific entries. */
  datatype DocumentMetadata = DocumentMetadata(propertySet: Option<map<string, Value>>)
}
