/**
 Fixed-layout data that crosses the proofs API boundary: bytes, the 31-byte
 prover and sector identifiers, 32-byte commitments, 192-byte proofs, the
 three-way response status and the outcome of a call into the proving engine.
 */
module Types {

  /** An unsigned 8-bit value (Rust `u8`). */
  newtype byte = x: int | 0 <= x < 256

  /** An unsigned 64-bit count or offset (Rust `u64`, also `usize` on a 64-bit target). */
  type u64 = x: int | 0 <= x < 0x1_0000_0000_0000_0000

  /** Bytes in a replica or data commitment. */
  const COMMITMENT_BYTES: nat := 32

  /** Bytes in a SNARK proof; published as `SNARK_BYTES`. */
  const SNARK_BYTES: nat := 192

  /** Bytes in a prover or sector identifier. */
  const ID_BYTES: nat := 31

  /** `n` copies of the byte `b` (Rust `[b; n]`). */
  function Fill(b: byte, n: nat): (s: seq<byte>)
    ensures |s| == n
    ensures forall i :: 0 <= i < n ==> s[i] == b
  {
    if n == 0 then [] else [b] + Fill(b, n - 1)
  }

  type Commitment = s: seq<byte> | |s| == COMMITMENT_BYTES witness Fill(0, COMMITMENT_BYTES)

  type Proof = s: seq<byte> | |s| == SNARK_BYTES witness Fill(0, SNARK_BYTES)

  type ProverId = s: seq<byte> | |s| == ID_BYTES witness Fill(0, ID_BYTES)

  type SectorId = s: seq<byte> | |s| == ID_BYTES witness Fill(0, ID_BYTES)

  /** An opaque path naming a unit of sector storage; the store resolves it. */
  type SectorAccess = string

  const ZERO_COMMITMENT: Commitment := Fill(0, COMMITMENT_BYTES)

  const ZERO_PROOF: Proof := Fill(0, SNARK_BYTES)

  /** The status code every response carries: exactly one of three. */
  datatype Status = Success | ReceiverError | UnclassifiedError

  datatype Option<T> = None | Some(value: T)

  /**
   What the proving engine hands back: a value, or a failure whose
   description is passed on verbatim to the caller.
   */
  datatype EngineResult<T> = Ok(value: T) | Err(description: string)

  /**
   The error message attached to a response. The source renders both as
   text; the model keeps what the text is made of.
   */
  datatype ErrorMsg =
    | EngineFailure(description: string)       // the engine's failure, rendered
    | ShortUnseal(expected: u64, actual: u64)  // "expected to unseal N-bytes, but unsealed M-bytes"
}
