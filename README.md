# Certified reads for an Internet Computer data-availability backend

This project is a Dafny model of the decision logic in the `das` package of a Nitro
data-availability backend that keeps blobs in an Internet Computer canister. It models what
decides whether a fetched blob is accepted or rejected:

- `VerifyDataFromIC` (module `ICUtils`) is the certified-read check. It decodes the
  certificate, verifies it against the root key and the canister, and looks up the path
  `canister / <canister id> / certified_data` in the certificate's state tree, which is the
  path that the Internet Computer Interface Specification's section "Certification" gives for
  a canister's certified data. It then deserializes the witness. Last, it compares the
  witness's reconstructed root with the looked-up value copied into a zeroed 32-byte array.
  The result is the outcome plus the trace of library calls made, in order. That trace is
  what lets us state that a failing step ends the check and that the lookup uses exactly
  that path.
- `ICStorageService` (module `ICStorage`) is the canister-backed storage service. It is a
  class whose `blocks` map stands for the canister's contents. `remote` says how the
  canister's `store` call and its `fetch` query answer in a given state. `Put` and
  `HealthCheck` change that map. `GetByHash` is a function of the current state.
- `RestfulDasClient` (module `Restful`) is the REST reader. It covers the two constructors,
  the hash-text prefixing and the accept/reject chain of `GetByHash`.

The library calls are arbitrary functions, passed in as fields of `ICUtils.Primitives`,
`Types.DasTree`, `ICStorage.Canister` and `Restful.Gateway`. So every property below holds
for all such functions that meet the member's stated requires. The calls are the CBOR decoder, agent-go's certificate check,
tree lookup, witness deserialization and root reconstruction, nitro's `dastree` content hash,
`json.Marshal`, and the HTTP exchange. `common.Hash.Hex()` and fmt's `%d` are written out in
module `GoFormat`.

The five-argument `icutils.VerifyDataFromIC` that the storage service calls is in package
`icdaserver/icutils`, which is not part of this model. The model reads it as the visible
four-argument check of das/ic_utils.go on the block's certificate and witness, so in the
model the block's data takes no part in the verdict. What the unseen function does with
its data argument is not known.

## Model

| member | source | states |
|---|---|---|
| `ICUtils.VerifyDataFromIC` | das/ic_utils.go:115-158 | The calls run in the fixed order decode, verify, lookup, deserialize, reconstruct. Each runs at most once, a prefix of them runs, decoding always runs first, and a pass means all five ran. The lookup path is exactly `["canister", canister.Raw, "certified_data"]`. Verification gets the caller's canister and root key, and deserialization gets the caller's witness |
| `ICUtils.AcceptedIffCertified` | das/ic_utils.go:115-158 | The check passes if and only if four things hold for some decoded certificate, looked-up value and deserialized witness tree: the certificate verifies, the lookup succeeds, deserialization succeeds, and the reconstructed root equals the 32-byte copy of the value |
| `ICUtils.DecodeFailureReturned` | das/ic_utils.go:117-120 | A decoding error is returned unchanged, and decoding is the only call made |
| `ICUtils.VerifyFailureStopsBeforeLookup` | das/ic_utils.go:122-124 | A certificate-check error is returned unchanged after exactly two calls. No lookup and no witness deserialization happen |
| `ICUtils.LookupFailureReturned` | das/ic_utils.go:126-132 | A lookup error on the certified-data path is returned unchanged, and the witness is not deserialized |
| `ICUtils.WitnessFailureReturned` | das/ic_utils.go:134-137 | A witness deserialization error is returned unchanged, and nothing is reconstructed |
| `ICUtils.RootMismatchReported` | das/ic_utils.go:152-155 | When every step succeeds but the reconstructed root differs from the 32-byte root, the check fails with an error that carries both roots |
| `ICUtils.Pad32` | das/ic_utils.go:149-150 | Byte i of the compared root is byte i of the looked-up value when the value has one, and is 0 otherwise |
| `ICUtils.Pad32Exact` | das/ic_utils.go:149-150 | A 32-byte value is compared unchanged |
| `ICUtils.Pad32IgnoresTail` | das/ic_utils.go:149-150 | Bytes after the 32nd are never compared: a long value and any extension of it give the same root, namely its first 32 bytes |
| `ICUtils.Pad32ZeroFill` | das/ic_utils.go:149-150 | A short value compares the same as that value followed by a zero byte |
| `GoFormat.HexOf` | das/ic_storage_service.go:96 | The hex text has two characters per byte, high nibble first |
| `GoFormat.HexOfInjective` | das/ic_storage_service.go:96 | Different byte strings have different hex texts |
| `GoFormat.HexKeyInjective` | das/ic_storage_service.go:80 | Two content hashes give the same canister key exactly when they are equal |
| `GoFormat.Hex` | das/ic_storage_service.go:96 | `Hash.Hex()` is `0x` followed by exactly the hex text of the hash's 32 bytes (`HexOf`, two lower-case digits per byte, high nibble first), 66 characters in all |
| `GoFormat.Decimal` | das/restful_client.go:32 | The `%d` text of any int starts with `-` exactly when the int is negative, every other character is a digit, there are no leading zeros (the only text starting with `0` is `"0"`, and a minus sign is never followed by `0`), and it reads back as that int, negative ones included |
| `ICStorage.ICStorageService.constructor` | das/ic_storage_service.go:67-71 | The service keeps the canister id, root key and collaborators it is given, and starts from the given canister contents |
| `ICStorage.ICStorageService.Put` | das/ic_storage_service.go:78-88 | The blob is stored under `Hex(Hash(data))` when the store call goes through, and nothing else changes. The result is always nil, even when the store call fails. The expiration time is ignored |
| `ICStorage.ICStorageService.Key` | das/ic_storage_service.go:80 | A blob's canister key is the 66-character `0x` text of its content hash |
| `ICStorage.PutKeyIsFetchKey` | das/ic_storage_service.go:80 | Put's key for a blob equals GetByHash's fetch key for a hash exactly when that hash is the blob's content hash |
| `ICStorage.PutKeepsOtherBlobs` | das/ic_storage_service.go:79-81 | Storing a blob never overwrites a blob with a different content hash |
| `ICStorage.ICStorageService.Sync` | das/ic_storage_service.go:90-92 | Always returns nil. It has no modifies clause, so it changes no state |
| `ICStorage.ICStorageService.GetByHash` | das/ic_storage_service.go:94-116 | The zero hash is rejected with an error before the fetch is consulted. A failed fetch panics and never returns an error. A failed certificate check returns its error and no bytes. Bytes are returned exactly when the hash is non-zero, the fetch succeeds, the check passes and JSON encoding succeeds, and they are the JSON text of the whole fetched block |
| `ICStorage.ICStorageService.Verifies` | das/ic_storage_service.go:106 | The check run on a fetched block, read as the visible check on its certificate and witness, passes exactly when they are certified in the sense of `ICUtils.AcceptedIffCertified` |
| `ICStorage.BlockDataNotChecked` | das/ic_storage_service.go:106 | Under the model's reading of the unseen five-argument check, which takes the visible check on certificate and witness, the verdict on a fetched block does not change when its data is replaced by any other bytes. So in the model the data is not bound to the witness, and no content hash of the data is checked on this path |
| `ICStorage.ICStorageService.ExpirationPolicy` | das/ic_storage_service.go:118-120 | Always `KeepForever` and nil, and no state changes |
| `ICStorage.ICStorageService.Close` | das/ic_storage_service.go:122-124 | Always returns nil. It has no modifies clause, so it changes no state |
| `ICStorage.ICStorageService.HealthCheck` | das/ic_storage_service.go:130-144 | The probe `"Test-Data"` is first stored as Put stores it. Then the outcome is taken from GetByHash on the probe's hash in the new state: a panic stays a panic, an error is returned, and the check passes exactly when the answer is byte-equal to the probe. Given that JSON encoding writes an object, it never passes |
| `ICStorage.HealthCheckNeverPasses` | das/ic_storage_service.go:110-115 | Given that JSON encoding writes an object, GetByHash on the probe's hash never answers the probe, in any canister state. This is the fact HealthCheck's never-passes clause rests on |
| `ICStorage.ICStorageService.GetByHashData` | das/ic_storage_service.go:94-116 | The corrected GetByHash has the same rejections: the zero hash is rejected, a failed fetch panics, and a failed check returns its error. Bytes are returned exactly when the hash is non-zero, the fetch succeeds and the check passes, and they are the fetched block's data |
| `ICStorage.ICStorageService.HealthCheckOnData` | das/ic_storage_service.go:130-144 | HealthCheck over the corrected GetByHash, with the same state change and outcome rules. It passes when, after the probe is stored, the probe's hash is non-zero and the canister answers it with a block that holds the probe and passes the check |
| `ICStorage.HealthCheckOnDataPasses` | das/ic_storage_service.go:136-143 | With the corrected GetByHash, the probe comes back when the canister answers the probe's key with a block that holds the probe and passes the check |
| `Restful.HasPrefix` | das/restful_client.go:37 | `strings.HasPrefix` holds exactly when the string is the prefix followed by some string |
| `Restful.NewRestfulDasClient` | das/restful_client.go:30-34 | The URL is protocol, `://`, host and `:`, followed by exactly the `%d` text of the port, which reads back as the port |
| `Restful.NewRestfulDasClientFromURL` | das/restful_client.go:36-44 | A client is returned if and only if the URL starts with `http://` or `https://`, and its URL is the input itself. Otherwise there is no client and the error names the URL |
| `Restful.BuiltUrlAccepted` | das/restful_client.go:30-44 | A URL built from `http` or `https` is accepted unchanged by the URL constructor |
| `Restful.BuiltUrlHasProtocol` | das/restful_client.go:31-37 | Any URL of the shape `protocol://host:port` with protocol `http` or `https` starts with `http://` or `https://` |
| `Restful.PrefixHash` | das/restful_client.go:48-51 | `0x` is prepended only to a text of exactly 64 characters. Any other text is passed through unchanged |
| `Restful.HashHexNeverReprefixed` | das/restful_client.go:48-53 | A hash's `Hex()` text already starts with `0x` and has 66 characters, so the request always carries it unchanged |
| `Restful.RequestUrl` | das/restful_client.go:47-53 | The request goes to the base URL, then `/get-by-hash/`, then the hash's `Hex()` text with no second `0x` |
| `Restful.GetByHash` | das/restful_client.go:46-116 | The request goes to the client URL, the get-by-hash path and the hash text. A transport error is returned. A non-200 status gives an error whatever the payload. A payload error is returned. A payload whose content hash is wrong gives `ErrHashMismatch` before any certificate step. When bytes are returned, they are exactly the decoded payload, and the check passed on an empty certificate and an empty witness |
| `Restful.PreimagePassesContentHash` | das/restful_client.go:78-115 | When the content hash accepts every blob under its own hash, a 200 response carrying the blob stored under the requested hash passes the content-hash step. It is returned exactly when the agent is made, the payload decodes and the empty pair passes the check |
| `Restful.EmptyCertificateAlwaysRejected` | das/restful_client.go:105-110 | If the empty certificate fails to decode, GetByHash never returns bytes, whatever the response |
| `Restful.PayloadNeverCertified` | das/restful_client.go:105-115 | If the empty pair passes, every payload with the right content hash is returned without its own certificate being checked |
| `Restful.GetByHashVerifyingBlock` | das/restful_client.go:46-116 | The corrected GetByHash has the same rejections: it returns a transport error, errors on a non-200 status, returns a payload error, and answers `ErrHashMismatch` for a wrong content hash. Bytes are returned only when the payload decodes to a block whose own certificate and witness pass the check |
| `Restful.FailingBlockRejected` | das/restful_client.go:105-112 | With the corrected GetByHash, a payload whose own certificate and witness fail the check is never returned |

## Left out

- ICUtils.Certificate: agent-go's `cert.Certificate` also carries an optional delegation, which the model drops. So the abstract `verifyCertificate` cannot tell apart two certificates that differ only in their delegation. No modelled decision reads the delegation.
- The internals of agent-go and cbor are not modelled: CBOR decoding (RFC 8949), the BLS certificate and delegation check, `Tree.Lookup`, and `hashtree.Deserialize` and `Reconstruct`. They are arbitrary functions in `ICUtils.Primitives`. In particular, the hash-tree domain separation is not modelled.
- The `dastree.Hash` and `ValidHash` chunked Merkle hash is abstract (`Types.DasTree`). `Types.HashValidates` states `ValidHash(Hash(b), b)` for every blob. It is the hypothesis of `Restful.PreimagePassesContentHash`.
- The RPC wrappers `NewAgent`, `Fetch`, `FetchEcdsa`, `Store` and `StoreEcdsa` (das/ic_utils.go:45-113) are left out, together with their logging. They are network calls, and the storage service calls the wrappers of `icdaserver/icutils`, which is not part of this model. The canister's answers are the functions in `ICStorage.Canister`.
- `CertifiedBlockECDSA`, `Object`, `StorageReceipt` and `StorageReceiptECDSA` are left out: no modelled decision reads them.
- `NewICStorageService` is left out except for what it stores (the constructor). It parses a URL and creates an agent over the network. Flag registration and `DefaultTestStorageConfig` are configuration.
- The unused `Cache` map, the no-op `Read`, `String`, and `time.Now` in HealthCheck are left out. The clock is the parameter `now`. `Put` ignores the expiration time in any case.
- ICStorage.ICStorageService.Verifies: what the unseen `icutils.VerifyDataFromIC` does with its fifth, data argument is not known. The model reads it as the visible four-argument check and assumes nothing about the data, so `ICStorage.BlockDataNotChecked` holds of the model and not necessarily of that function.
- ICStorage.ICStorageService.Put: the visible `Store` wrapper (das/ic_utils.go:85-99) panics when the call fails. The service calls the `icdaserver/icutils` wrapper instead, which is not part of this model, and the model takes that one to return its error. So in the model a failed store never panics out of Put or HealthCheck.
- ICStorage.ICStorageService.Put: a store call that fails is modelled as leaving the canister unchanged. Whether the remote side applied it cannot be known here.
- Restful.PrefixHash and Restful.HasPrefix count characters, while Go's `len` (das/restful_client.go:49) and `strings.HasPrefix` (das/restful_client.go:37) count bytes. The two agree here: `Hash.Hex()` text is ASCII, so its length in bytes is its length in characters, and the prefixes `http://` and `https://` are ASCII, which in UTF-8 match a URL's first bytes exactly when they match its first characters. So no behaviour is lost at these call sites.
- In the REST client, HTTP GET, `io.ReadAll`, JSON unmarshalling and base64 decoding are one abstract exchange (`Restful.Gateway.httpGet`).
- Restful.GetByHash: the errors of reading the body, of the JSON envelope and of base64 decoding are merged into one payload error, and which of the three failed is not distinguished.
- Restful.GetByHash: `url.Parse` of the fixed network URL and `principal.MustDecode` of the fixed canister id are taken as succeeding, because both inputs are literal values of the package variable `DefaultTestStorageConfig` (das/ic_storage_service.go:30-34), which these files never reassign. The `fmt.Println` of the request URL is left out.
- The value `"/get-by-hash/"` of `getByHashRequestPath` is defined in das/restful_server.go, which is not part of this model.
- The REST client's `HealthCheck` and `ExpirationPolicy` (das/restful_client.go:118-149) are left out: they are HTTP status checks with no decision logic.
- arbstate/daprovider/ic_util.go is left out: it is entirely commented out, and it duplicates the das/ic_utils.go check.
- The daprovider `ExpirationPolicy` enumeration is not part of this model beyond `KeepForever`. Its other values are listed only so the type is not a singleton.
- Concurrency is left out: every modelled decision is sequential.

## Findings

| source | as written | input that shows it | evidently intended | confidence | as-written member | corrected member |
|---|---|---|---|---|---|---|
| das/restful_client.go:105-110 | The payload is CBOR-decoded into the client `c`, so the block `cb` keeps its zero value and the check runs on an empty certificate and an empty witness | Any 200 response whose payload has the right content hash. The verdict depends only on the empty pair: if that pair fails to decode, nothing is ever returned, and if it passes, every such payload is returned | Decode into `&cb` and check the payload's own certificate and witness | not executed; high | `Restful.GetByHash`, `Restful.PayloadNeverCertified` | `Restful.GetByHashVerifyingBlock`, `Restful.FailingBlockRejected` |
| das/ic_storage_service.go:110-115 | GetByHash answers `json.Marshal(cb)`, the JSON text of the whole block, and not the blob | `HealthCheck` (das/ic_storage_service.go:136-141) reads the probe back and compares it with `"Test-Data"`. JSON text starts with `{` and the probe starts with `T`, so the comparison fails in every state | Answer `cb.Data` | not executed; medium | `ICStorage.ICStorageService.GetByHash`, `ICStorage.ICStorageService.HealthCheck`, `ICStorage.HealthCheckNeverPasses` | `ICStorage.ICStorageService.GetByHashData`, `ICStorage.ICStorageService.HealthCheckOnData`, `ICStorage.HealthCheckOnDataPasses` |

The model of each source function is the as-written member. The corrected members sit beside
them, and the corrected HealthCheck (`HealthCheckOnData`) uses the corrected GetByHash.

The content-to-witness binding that the source marks as missing (das/ic_utils.go:139-147) is
not listed as a finding. The source itself marks it as a known gap, and the model states it as
`ICStorage.BlockDataNotChecked`.
