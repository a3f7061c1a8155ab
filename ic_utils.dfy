/**
 * The certified-read check of das/ic_utils.go: a blob's certificate and witness are accepted
 * when the certificate verifies against the root key and the witness reconstructs exactly
 * the `certified_data` the certificate commits to for the canister.
 *
 * The agent-go primitives it calls are not modelled: they are the fields of `Primitives`,
 * arbitrary functions that may fail. The check itself is a straight chain of early returns.
 */
module ICUtils {
  import opened Types

  /** What the canister's `fetch` query answers. */
  datatype CertifiedBlock = CertifiedBlock(certificate: Bytes, data: Bytes, witnessBytes: Bytes)

  /** A canister id; only its raw bytes are used. */
  datatype Principal = Principal(raw: Bytes)

  /** agent-go's hash-tree nodes. Lookup and reconstruction are abstract, so no member looks inside one. */
  datatype Node =
    | Empty
    | Fork(left: Node, right: Node)
    | Labeled(key: Bytes, child: Node)
    | Leaf(value: Bytes)
    | Pruned(digest: Hash32)

  datatype HashTree = HashTree(root: Node)

  /** A decoded certificate: the state tree and the signature over its root. */
  datatype Certificate = Certificate(tree: HashTree, signature: Bytes)

  /** The library calls the check relies on. */
  datatype Primitives = Primitives(
    decodeCertificate: Bytes -> Result<Certificate>,                 // cbor.Unmarshal into cert.Certificate
    verifyCertificate: (Certificate, Principal, Bytes) -> Outcome,   // cert.VerifyCertificate(c, canister, rootKey)
    lookup: (HashTree, seq<Bytes>) -> Result<Bytes>,                 // HashTree.Lookup(path...)
    deserialize: Bytes -> Result<HashTree>,                          // hashtree.Deserialize
    reconstruct: HashTree -> Hash32)                                 // HashTree.Reconstruct

  /** One call the check makes, with its arguments. */
  datatype Call =
    | DecodeCall(bytes: Bytes)
    | VerifyCall(cert: Certificate, canister: Principal, rootKey: Bytes)
    | LookupCall(tree: HashTree, path: seq<Bytes>)
    | DeserializeCall(witnessBytes: Bytes)
    | ReconstructCall(witnessTree: HashTree)

  /** The position of a call in the check's fixed order. */
  function Stage(c: Call): (k: nat)
    ensures k < 5
  {
    match c
    case DecodeCall(_) => 0
    case VerifyCall(_, _, _) => 1
    case LookupCall(_, _) => 2
    case DeserializeCall(_) => 3
    case ReconstructCall(_) => 4
  }

  /** The verdict of one check and the calls it made, in order. */
  datatype Verification = Verification(outcome: Outcome, calls: seq<Call>)

  const CanisterLabel: Bytes := AsciiBytes("canister")
  const CertifiedDataLabel: Bytes := AsciiBytes("certified_data")

  /** The state-tree path of a canister's certified data. */
  function CertifiedDataPath(canister: Principal): (path: seq<Bytes>)
    ensures |path| == 3 && path[1] == canister.raw
  {
    [CanisterLabel, canister.raw, CertifiedDataLabel]
  }

  /** `copy` of a looked-up value into a zeroed `[32]byte`. */
  function Pad32(v: Bytes): (root: Hash32)
    ensures forall i :: 0 <= i < 32 ==> root[i] == if i < |v| then v[i] else 0
  {
    if |v| >= 32 then v[..32] else v + seq(32 - |v|, _ => 0)
  }

  /** The check: decode, verify, look up, deserialize, compare roots. */
  function VerifyDataFromIC(p: Primitives, certificate: Bytes, rootKey: Bytes, canister: Principal, witnessBytes: Bytes): (r: Verification)
    ensures 1 <= |r.calls| <= 5 && r.calls[0] == DecodeCall(certificate)
    ensures forall k :: 0 <= k < |r.calls| ==> Stage(r.calls[k]) == k
    ensures forall k :: 0 <= k < |r.calls| && r.calls[k].LookupCall? ==>
              r.calls[k].path == [AsciiBytes("canister"), canister.raw, AsciiBytes("certified_data")]
    ensures forall k :: 0 <= k < |r.calls| && r.calls[k].VerifyCall? ==>
              r.calls[k].canister == canister && r.calls[k].rootKey == rootKey
    ensures forall k :: 0 <= k < |r.calls| && r.calls[k].DeserializeCall? ==> r.calls[k].witnessBytes == witnessBytes
    ensures r.outcome.Pass? ==> |r.calls| == 5
  {
    match p.decodeCertificate(certificate)
    case Err(e) => Verification(Fail(e), [DecodeCall(certificate)])
    case Ok(c) =>
      var calls := [DecodeCall(certificate), VerifyCall(c, canister, rootKey)];
      match p.verifyCertificate(c, canister, rootKey)
      case Fail(e) => Verification(Fail(e), calls)
      case Pass =>
        var calls := calls + [LookupCall(c.tree, CertifiedDataPath(canister))];
        match p.lookup(c.tree, CertifiedDataPath(canister))
        case Err(e) => Verification(Fail(e), calls)
        case Ok(provided) =>
          var calls := calls + [DeserializeCall(witnessBytes)];
          match p.deserialize(witnessBytes)
          case Err(e) => Verification(Fail(e), calls)
          case Ok(ht) =>
            var calls := calls + [ReconstructCall(ht)];
            var rootHash := Pad32(provided);
            var witnessHash := p.reconstruct(ht);
            if witnessHash != rootHash then Verification(Fail(RootMismatch(witnessHash, rootHash)), calls)
            else Verification(Pass, calls)
  }

  /** The declarative reading of a successful check. */
  ghost predicate Certified(p: Primitives, certificate: Bytes, rootKey: Bytes, canister: Principal, witnessBytes: Bytes)
  {
    exists c: Certificate, v: Bytes, ht: HashTree ::
      && p.decodeCertificate(certificate) == Ok(c)
      && p.verifyCertificate(c, canister, rootKey) == Pass
      && p.lookup(c.tree, CertifiedDataPath(canister)) == Ok(v)
      && p.deserialize(witnessBytes) == Ok(ht)
      && p.reconstruct(ht) == Pad32(v)
  }

  lemma AcceptedIffCertified(p: Primitives, certificate: Bytes, rootKey: Bytes, canister: Principal, witnessBytes: Bytes)
    ensures VerifyDataFromIC(p, certificate, rootKey, canister, witnessBytes).outcome == Pass
        <==> Certified(p, certificate, rootKey, canister, witnessBytes)
  {
    if VerifyDataFromIC(p, certificate, rootKey, canister, witnessBytes).outcome == Pass {
      var c := p.decodeCertificate(certificate).value;
      var v := p.lookup(c.tree, CertifiedDataPath(canister)).value;
      var ht := p.deserialize(witnessBytes).value;
      assert p.reconstruct(ht) == Pad32(v);
    }
  }

  lemma DecodeFailureReturned(p: Primitives, certificate: Bytes, rootKey: Bytes, canister: Principal, witnessBytes: Bytes)
    requires p.decodeCertificate(certificate).Err?
    ensures VerifyDataFromIC(p, certificate, rootKey, canister, witnessBytes)
         == Verification(Fail(p.decodeCertificate(certificate).error), [DecodeCall(certificate)])
  {
  }

  lemma VerifyFailureStopsBeforeLookup(p: Primitives, certificate: Bytes, rootKey: Bytes, canister: Principal, witnessBytes: Bytes)
    requires p.decodeCertificate(certificate).Ok?
    requires p.verifyCertificate(p.decodeCertificate(certificate).value, canister, rootKey).Fail?
    ensures var r := VerifyDataFromIC(p, certificate, rootKey, canister, witnessBytes);
      && r.outcome == p.verifyCertificate(p.decodeCertificate(certificate).value, canister, rootKey)
      && |r.calls| == 2
      && forall k :: 0 <= k < |r.calls| ==> !r.calls[k].LookupCall? && !r.calls[k].DeserializeCall?
  {
  }

  lemma LookupFailureReturned(p: Primitives, certificate: Bytes, rootKey: Bytes, canister: Principal, witnessBytes: Bytes)
    requires p.decodeCertificate(certificate).Ok?
    requires var c := p.decodeCertificate(certificate).value;
      && p.verifyCertificate(c, canister, rootKey).Pass?
      && p.lookup(c.tree, CertifiedDataPath(canister)).Err?
    ensures var r := VerifyDataFromIC(p, certificate, rootKey, canister, witnessBytes);
      && r.outcome == Fail(p.lookup(p.decodeCertificate(certificate).value.tree, CertifiedDataPath(canister)).error)
      && |r.calls| == 3
  {
  }

  lemma WitnessFailureReturned(p: Primitives, certificate: Bytes, rootKey: Bytes, canister: Principal, witnessBytes: Bytes)
    requires p.decodeCertificate(certificate).Ok?
    requires var c := p.decodeCertificate(certificate).value;
      && p.verifyCertificate(c, canister, rootKey).Pass?
      && p.lookup(c.tree, CertifiedDataPath(canister)).Ok?
    requires p.deserialize(witnessBytes).Err?
    ensures var r := VerifyDataFromIC(p, certificate, rootKey, canister, witnessBytes);
      r.outcome == Fail(p.deserialize(witnessBytes).error) && |r.calls| == 4
  {
  }

  /** Every step succeeded but the roots differ: the error carries both roots. */
  lemma RootMismatchReported(p: Primitives, certificate: Bytes, rootKey: Bytes, canister: Principal, witnessBytes: Bytes,
                             c: Certificate, v: Bytes, ht: HashTree)
    requires p.decodeCertificate(certificate) == Ok(c)
    requires p.verifyCertificate(c, canister, rootKey) == Pass
    requires p.lookup(c.tree, CertifiedDataPath(canister)) == Ok(v)
    requires p.deserialize(witnessBytes) == Ok(ht)
    requires p.reconstruct(ht) != Pad32(v)
    ensures VerifyDataFromIC(p, certificate, rootKey, canister, witnessBytes).outcome == Fail(RootMismatch(p.reconstruct(ht), Pad32(v)))
  {
  }

  /** A value of exactly 32 bytes is compared as it is. */
  lemma Pad32Exact(v: Bytes)
    requires |v| == 32
    ensures Pad32(v) == v
  {
  }

  /** Bytes past the 32nd of the looked-up value never take part in the comparison. */
  lemma Pad32IgnoresTail(v: Bytes, tail: Bytes)
    requires |v| >= 32
    ensures Pad32(v + tail) == Pad32(v) == v[..32]
  {
    assert (v + tail)[..32] == v[..32];
  }

  /** A value shorter than 32 bytes compares as if it were followed by zero bytes. */
  lemma Pad32ZeroFill(v: Bytes)
    requires |v| < 32
    ensures Pad32(v + [0]) == Pad32(v)
  {
    var a, b := Pad32(v + [0]), Pad32(v);
    forall i | 0 <= i < 32
      ensures a[i] == b[i]
    {
    }
  }
}
