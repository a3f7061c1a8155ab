/** Byte strings, 32-byte digests and the error conventions shared by the storage backends. */
module Types {

  type byte = x: int | 0 <= x < 256

  type Bytes = seq<byte>

  /** Go's `[32]byte`: a content hash (`common.Hash`) or a certified root hash. */
  type Hash32 = s: Bytes | |s| == 32 witness seq(32, _ => 0)

  /** The all-zero hash, `[32]byte{}`. */
  const ZeroHash: Hash32 := seq(32, _ => 0)

  /** The error values the code returns or propagates. */
  datatype Error =
    | External(detail: string)                             // an error made by a collaborator: agent-go, a codec, the transport
    | RootMismatch(witnessHash: Hash32, rootHash: Hash32)  // the witness does not reconstruct the certified root
    | MalformedHash(hash: string)                          // the zero request hash
    | HashMismatch                                         // daprovider.ErrHashMismatch
    | HttpStatus(code: int)                                // a non-200 answer
    | MissingProtocolPrefix(url: string)                   // a REST URL without "http://" or "https://"
    | InvalidGetByHashResult                               // the health probe read back other bytes

  /** A Go `(T, error)` pair in which exactly one side is meaningful. */
  datatype Result<T> = Ok(value: T) | Err(error: Error)

  /** A bare Go `error` return: nil or not. */
  datatype Outcome = Pass | Fail(error: Error)

  /** How a Go call ends: it returns normally, or it panics. */
  datatype Exit<T> = Return(value: T) | Panic(cause: Error)

  /** The content hash of the das/dastree package (a Merkle hash over fixed-size chunks), kept abstract. */
  datatype DasTree = DasTree(hash: Bytes -> Hash32, validHash: (Hash32, Bytes) -> bool)

  /** The one property the model relies on: every blob validates against its own hash. */
  ghost predicate HashValidates(t: DasTree)
  {
    forall b :: t.validHash(t.hash(b), b)
  }

  /** Go's `[]byte(s)` for an ASCII string. */
  function AsciiBytes(s: string): (b: Bytes)
    requires forall i :: 0 <= i < |s| ==> s[i] < 128 as char
    ensures |b| == |s|
    ensures forall i :: 0 <= i < |s| ==> b[i] == s[i] as int
  {
    seq(|s|, i requires 0 <= i < |s| => s[i] as int)
  }
}
