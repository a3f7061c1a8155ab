/**
 * The storage backend of das/ic_storage_service.go. Blobs are stored in a canister under the
 * hex text of their content hash, and are read back with a certificate and a witness that
 * must pass the certified-read check.
 *
 * The canister is the map `blocks`, and `remote` says how its `store` call and `fetch` query
 * answer in a given state. The service's configuration (canister id, root key, library calls)
 * is made of constants.
 */
module ICStorage {
  import opened Types
  import opened GoFormat
  import opened ICUtils

  /** daprovider.ExpirationPolicy. */
  datatype ExpirationPolicy = KeepForever | DiscardAfterArchiveTimeout | DiscardAfterDataTimeout | MixedTimeout | DiscardImmediately

  /** The canister as the agent sees it. */
  datatype Canister = Canister(
    store: (map<string, Bytes>, string, Bytes) -> Outcome,          // whether the `store` update call goes through
    fetch: (map<string, Bytes>, string) -> Result<CertifiedBlock>)  // what the `fetch` query answers

  /** The health probe's payload, `[]byte("Test-Data")`. */
  const TestData: Bytes := AsciiBytes("Test-Data")

  /** encoding/json writes a struct as an object, so its text starts with `{`. */
  ghost predicate MarshalsObjects(marshal: CertifiedBlock -> Result<Bytes>)
  {
    forall cb :: marshal(cb).Ok? ==> |marshal(cb).value| > 0 && marshal(cb).value[0] == '{' as int
  }

  class ICStorageService {
    const canister: Principal
    const rootKey: Bytes                             // the agent's root key, fetched once
    const ic: Primitives
    const dastree: DasTree
    const remote: Canister
    const marshal: CertifiedBlock -> Result<Bytes>   // json.Marshal of a fetched block
    var blocks: map<string, Bytes>                   // the canister's contents

    constructor (canister: Principal, rootKey: Bytes, ic: Primitives, dastree: DasTree, remote: Canister,
                 marshal: CertifiedBlock -> Result<Bytes>, blocks: map<string, Bytes>)
      ensures this.canister == canister && this.rootKey == rootKey && this.ic == ic
      ensures this.dastree == dastree && this.remote == remote && this.marshal == marshal
      ensures this.blocks == blocks
    {
      this.canister := canister;
      this.rootKey := rootKey;
      this.ic := ic;
      this.dastree := dastree;
      this.remote := remote;
      this.marshal := marshal;
      this.blocks := blocks;
    }

    /** The key a blob is stored under: the 66-character "0x" text of its content hash. */
    function Key(data: Bytes): (key: string)
      ensures |key| == 66 && key[..2] == "0x"
    {
      Hex(dastree.hash(data))
    }

    /** What the canister answers to `fetch` for this hash now. */
    function Fetched(hash: Hash32): (r: Result<CertifiedBlock>)
      reads this
    {
      remote.fetch(blocks, Hex(hash))
    }

    /**
     * The check the service runs on a fetched block, read as the visible four-argument check
     * on the block's certificate and witness: it passes exactly when they are certified.
     */
    function Verifies(cb: CertifiedBlock): (b: bool)
      ensures b <==> Certified(ic, cb.certificate, rootKey, canister, cb.witnessBytes)
    {
      AcceptedIffCertified(ic, cb.certificate, rootKey, canister, cb.witnessBytes);
      VerifyDataFromIC(ic, cb.certificate, rootKey, canister, cb.witnessBytes).outcome.Pass?
    }

    /** Stores the blob under the hex of its content hash; never reports an error. */
    method Put(data: Bytes, expirationTime: nat) returns (err: Outcome)
      modifies this
      ensures err == Pass
      ensures blocks == if remote.store(old(blocks), Key(data), data).Pass?
                        then old(blocks)[Key(data) := data] else old(blocks)
    {
      var key := Hex(dastree.hash(data));
      var stored := remote.store(blocks, key, data);
      if stored.Pass? {
        blocks := blocks[key := data];
      }
      // the store call's error is dropped
      err := Pass;
    }

    method Sync() returns (err: Outcome)
      ensures err == Pass
    {
      err := Pass;
    }

    /** Rejects the zero hash, panics when the fetch fails, verifies, and answers the JSON text of the whole block. */
    function GetByHash(hash: Hash32): (r: Exit<Result<Bytes>>)
      reads this
      ensures hash == ZeroHash ==> r == Return(Err(MalformedHash(Hex(hash))))
      ensures hash != ZeroHash && Fetched(hash).Err? ==> r == Panic(Fetched(hash).error)
      ensures r.Panic? ==> hash != ZeroHash && Fetched(hash) == Err(r.cause)
      ensures hash != ZeroHash && Fetched(hash).Ok? ==>
                var v := VerifyDataFromIC(ic, Fetched(hash).value.certificate, rootKey, canister, Fetched(hash).value.witnessBytes);
                v.outcome.Fail? ==> r == Return(Err(v.outcome.error))
      ensures (r.Return? && r.value.Ok?) <==>
                hash != ZeroHash && Fetched(hash).Ok? && Verifies(Fetched(hash).value) && marshal(Fetched(hash).value).Ok?
      ensures r.Return? && r.value.Ok? ==> r.value.value == marshal(Fetched(hash).value).value
    {
      if hash == ZeroHash then Return(Err(MalformedHash(Hex(hash))))
      else
        match remote.fetch(blocks, Hex(hash))
        case Err(e) => Panic(e)
        case Ok(cb) =>
          match VerifyDataFromIC(ic, cb.certificate, rootKey, canister, cb.witnessBytes).outcome
          case Fail(e) => Return(Err(e))
          case Pass =>
            match marshal(cb)
            case Err(e) => Return(Err(e))
            case Ok(b) => Return(Ok(b))
    }

    method ExpirationPolicy() returns (policy: ExpirationPolicy, err: Outcome)
      ensures policy == KeepForever && err == Pass
    {
      policy, err := KeepForever, Pass;
    }

    method Close() returns (err: Outcome)
      ensures err == Pass
    {
      err := Pass;
    }

    /** Stores the probe, reads it back by its hash and demands the very same bytes. */
    method HealthCheck(now: nat) returns (r: Exit<Outcome>)
      modifies this
      ensures blocks == if remote.store(old(blocks), Key(TestData), TestData).Pass?
                        then old(blocks)[Key(TestData) := TestData] else old(blocks)
      ensures r == match GetByHash(dastree.hash(TestData))
                   case Panic(e) => Panic(e)
                   case Return(Err(e)) => Return(Fail(e))
                   case Return(Ok(res)) => if res == TestData then Return(Pass) else Return(Fail(InvalidGetByHashResult))
      ensures MarshalsObjects(marshal) ==> r != Return(Pass)
    {
      var err := Put(TestData, now + 60);
      if err.Fail? {
        return Return(err);
      }
      var res := GetByHash(dastree.hash(TestData));
      if MarshalsObjects(marshal) {
        HealthCheckNeverPasses(this);
      }
      match res
      case Panic(e) => r := Panic(e);
      case Return(Err(e)) => r := Return(Fail(e));
      case Return(Ok(b)) =>
        r := if b == TestData then Return(Pass) else Return(Fail(InvalidGetByHashResult));
    }

    /** GetByHash answering the block's data instead of its JSON text. */
    function GetByHashData(hash: Hash32): (r: Exit<Result<Bytes>>)
      reads this
      ensures hash == ZeroHash ==> r == Return(Err(MalformedHash(Hex(hash))))
      ensures hash != ZeroHash && Fetched(hash).Err? ==> r == Panic(Fetched(hash).error)
      ensures r.Panic? ==> hash != ZeroHash && Fetched(hash) == Err(r.cause)
      ensures hash != ZeroHash && Fetched(hash).Ok? ==>
                var v := VerifyDataFromIC(ic, Fetched(hash).value.certificate, rootKey, canister, Fetched(hash).value.witnessBytes);
                v.outcome.Fail? ==> r == Return(Err(v.outcome.error))
      ensures (r.Return? && r.value.Ok?) <==> hash != ZeroHash && Fetched(hash).Ok? && Verifies(Fetched(hash).value)
      ensures r.Return? && r.value.Ok? ==> r.value.value == Fetched(hash).value.data
    {
      if hash == ZeroHash then Return(Err(MalformedHash(Hex(hash))))
      else
        match remote.fetch(blocks, Hex(hash))
        case Err(e) => Panic(e)
        case Ok(cb) =>
          match VerifyDataFromIC(ic, cb.certificate, rootKey, canister, cb.witnessBytes).outcome
          case Fail(e) => Return(Err(e))
          case Pass => Return(Ok(cb.data))
    }

    /** HealthCheck over GetByHashData. */
    method HealthCheckOnData(now: nat) returns (r: Exit<Outcome>)
      modifies this
      ensures blocks == if remote.store(old(blocks), Key(TestData), TestData).Pass?
                        then old(blocks)[Key(TestData) := TestData] else old(blocks)
      ensures r == match GetByHashData(dastree.hash(TestData))
                   case Panic(e) => Panic(e)
                   case Return(Err(e)) => Return(Fail(e))
                   case Return(Ok(res)) => if res == TestData then Return(Pass) else Return(Fail(InvalidGetByHashResult))
      ensures var h := dastree.hash(TestData);
        h != ZeroHash && Fetched(h).Ok? && Fetched(h).value.data == TestData && Verifies(Fetched(h).value) ==>
          r == Return(Pass)
    {
      var err := Put(TestData, now + 60);
      if err.Fail? {
        return Return(err);
      }
      var res := GetByHashData(dastree.hash(TestData));
      match res
      case Panic(e) => r := Panic(e);
      case Return(Err(e)) => r := Return(Fail(e));
      case Return(Ok(b)) =>
        r := if b == TestData then Return(Pass) else Return(Fail(InvalidGetByHashResult));
    }
  }

  /** Put stores a blob under exactly the key GetByHash later fetches for its hash. */
  lemma PutKeyIsFetchKey(s: ICStorageService, data: Bytes, hash: Hash32)
    ensures s.Key(data) == Hex(hash) <==> hash == s.dastree.hash(data)
  {
    HexKeyInjective(s.dastree.hash(data), hash);
  }

  /** Blobs with different content hashes never overwrite one another. */
  lemma PutKeepsOtherBlobs(s: ICStorageService, m: map<string, Bytes>, data: Bytes, other: Bytes)
    requires s.Key(other) in m
    requires s.dastree.hash(data) != s.dastree.hash(other)
    ensures s.Key(other) in m[s.Key(data) := data] && m[s.Key(data) := data][s.Key(other)] == m[s.Key(other)]
  {
    HexKeyInjective(s.dastree.hash(data), s.dastree.hash(other));
  }

  /**
   * Read through the visible check, which takes no data, a block whose certificate and
   * witness pass is passed with any other bytes in its place.
   */
  lemma BlockDataNotChecked(s: ICStorageService, cb: CertifiedBlock, forged: Bytes)
    ensures s.Verifies(cb) <==> s.Verifies(cb.(data := forged))
  {
  }

  /**
   * As written, the health check can never pass: GetByHash answers JSON text, which starts with
   * `{`, while the probe starts with `T`.
   */
  lemma HealthCheckNeverPasses(s: ICStorageService)
    requires MarshalsObjects(s.marshal)
    ensures s.GetByHash(s.dastree.hash(TestData)) != Return(Ok(TestData))
  {
    var h := s.dastree.hash(TestData);
    if s.GetByHash(h).Return? && s.GetByHash(h).value.Ok? {
      var cb := s.Fetched(h).value;
      assert s.GetByHash(h).value.value == s.marshal(cb).value;
      assert s.marshal(cb).value[0] == '{' as int;
      assert TestData[0] == 'T' as int;
    }
  }

  /** With GetByHashData, a canister that answers the stored probe with a passing certificate makes the health check pass. */
  lemma HealthCheckOnDataPasses(s: ICStorageService, cb: CertifiedBlock)
    requires s.dastree.hash(TestData) != ZeroHash
    requires s.Fetched(s.dastree.hash(TestData)) == Ok(cb)
    requires cb.data == TestData && s.Verifies(cb)
    ensures s.GetByHashData(s.dastree.hash(TestData)) == Return(Ok(TestData))
  {
  }
}
