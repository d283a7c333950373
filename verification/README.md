# Proofs API boundary: outcome classification and placeholder PoSt

This project models the foreign-function boundary of `filecoin-proofs`
(`filecoin-proofs/src/api/mod.rs`): the entry points a caller in any language
uses to seal a sector, verify a seal, unseal a byte range or a whole sector,
and generate and verify a proof-of-spacetime (PoSt).

The boundary's own logic is small but must never be ambiguous:

- **Outcome classification.** `seal`, `verify_seal`, `get_unsealed_range`
  and `get_unsealed` each start from a default response and ask the proving
  engine one question. They then classify the answer as Success,
  ReceiverError or UnclassifiedError. The proving engine is an abstract
  `Dispatcher.Engine` value with one function per capability. A contract can
  therefore say which question is asked (which paths, identifiers, offset and
  length) as well as how the answer is classified. Each entry point comes
  with the decoder a caller would apply to the response. Its contract
  promises that the decoder recovers the engine's answer exactly.
- **Placeholder PoSt.** `generate_post` does three things:
  - it splits a flattened buffer into 32-byte commitments;
  - it flags index 0 as faulty when there are two or more commitments, and
    none for exactly one (for zero commitments see "## Findings": the model
    then reports no faults, where the code as written reports index 0);
  - it returns a 192-byte proof of all 42s.
  `verify_post` accepts a proof exactly when its first byte is 42.

Modules: `Types` holds the fixed-length bytes, status and engine outcome.
`Responses` holds the response records, their defaults and the
message/status rule. `Dispatcher` holds the engine-backed entry points.
`Post` holds the PoSt subsystem.

Notes on the code:

- The unseal entry points report ReceiverError for any count that differs
  from the request, larger or smaller.
- `get_unsealed` does not call the ranged unseal. It repeats the
  classification inline, and its response has no count field: a short
  count reaches the caller only inside the message.
  `Dispatcher.GetUnsealedIsWholeRange` proves the two classify identically.
- `generate_post` does not check that the buffer length is a multiple of 32.
  The model states that as a precondition.

## Model

| member | source | states |
|---|---|---|
| Dispatcher.Seal | filecoin-proofs/src/api/mod.rs:40-67 | Asks the engine to seal `unsealed` into `sealed` for the given prover and sector. Success exactly when the engine succeeds; the response then carries comm_r, comm_d and the proof byte for byte. On failure: UnclassifiedError, the engine's description as message, payload left at its defaults. Never ReceiverError. A message is present iff status is not Success. Decoding the response gives back the engine's answer. |
| Dispatcher.VerifySeal | filecoin-proofs/src/api/mod.rs:89-109 | `Ok(b)` gives Success with `isValid == b`, so a negative verification is never an error. Only an engine failure gives UnclassifiedError with its message; `isValid` then stays false. Decoding the response gives back the engine's answer. |
| Dispatcher.SealThenVerify | filecoin-proofs/src/api/mod.rs:538-567 | Verifying a successful seal response's own commitments and proof reports Success and valid, provided the engine accepts the proofs it produced. |
| Dispatcher.GetUnsealedRange | filecoin-proofs/src/api/mod.rs:137-176 | Asks the engine for exactly `numBytes` bytes from `startOffset`. For engine `Ok(n)`: Success iff `n == numBytes`, otherwise ReceiverError with message (numBytes, n), and `numBytesWritten == n` either way. For engine `Err`: UnclassifiedError with the engine's message and `numBytesWritten` left at 0. Decoding the response gives back the engine's answer. |
| Dispatcher.GetUnsealed | filecoin-proofs/src/api/mod.rs:197-243 | Asks the engine for offset 0 and exactly `sectorBytes` (the store's maximum unsealed size per sector). Success iff the count returned equals it, ReceiverError with message (sectorBytes, n) otherwise. UnclassifiedError on engine failure. Decoding the response (with the sector size) gives back the engine's answer. |
| Dispatcher.GetUnsealedIsWholeRange | filecoin-proofs/src/api/mod.rs:208-240 | The whole-sector unseal's status and message equal those of the ranged unseal of offset 0 and the sector size. |
| Post.Chunks | filecoin-proofs/src/api/mod.rs:263-272 | For a buffer whose length L is a multiple of 32: exactly L/32 commitments, commitment i being bytes [32i, 32i+32) of the buffer, in input order. |
| Post.FlattenChunks | filecoin-proofs/src/api/mod.rs:263-272 | Concatenating the commitments split from a buffer gives the buffer back. |
| Post.ChunksFlatten | filecoin-proofs/src/api/mod.rs:263-272 | Splitting a concatenation of commitments gives the same commitments back. |
| Post.FaultsAsWrittenZero | filecoin-proofs/src/api/mod.rs:274-278 | About `Post.FaultsAsWritten`, the rule as written: with the count minus one wrapping in `usize`, reports fault list [0] for zero commitments: an index that names no commitment. |
| Post.Faults | filecoin-proofs/src/api/mod.rs:274-278 | Corrected fault rule. Empty iff at most one commitment, exactly [0] iff two or more. Length at most 1, and every index is below the commitment count. |
| Post.FaultsAgreeWhenNonEmpty | filecoin-proofs/src/api/mod.rs:274-278 | For one or more commitments, the corrected rule `Post.Faults` and the rule as written `Post.FaultsAsWritten` give the same fault list. |
| Post.GeneratePost | filecoin-proofs/src/api/mod.rs:257-292 | Status Success and no message. The proof is 192 bytes, all 42. The fault list has length at most 1 and holds only valid indices into the L/32 commitments. It is empty iff there is at most one commitment and exactly [0] iff there are two or more; it uses the corrected fault rule, so zero commitments give no faults (see "## Findings"). |
| Post.VerifyPost | filecoin-proofs/src/api/mod.rs:301-314 | Status Success and no message; `isValid` iff the proof's first byte is 42. |
| Post.VerifyPostChecksFirstByteOnly | filecoin-proofs/src/api/mod.rs:307-311 | Some 192-byte proof other than the all-42 proof also verifies as valid: the verifier checks only the first byte. |
| Post.PostRoundTrip | filecoin-proofs/src/api/mod.rs:469-490 | For any buffer of whole commitments, the generated proof verifies: both responses have status Success and `isValid` is true. |

## Left out

- Pointer ownership hand-off (`Box::into_raw`, `mem::forget` of messages and
  fault vectors, `faults_ptr`/`faults_len`, the `destroy_*` releases): this is
  memory management with nothing to state beyond one response per call,
  which a returned value already is.
- Message text: `format!("{:?}", err)`, the "expected to unseal …" wording and
  `CString` construction, including its panic on an interior NUL byte, are
  foreign calls. A message is modelled as `EngineFailure(description)` or
  `ShortUnseal(expected, actual)`.
- The proving engine (`internal::seal`, `internal::verify_seal`,
  `internal::get_unsealed_range`) is cryptographic and not part of this
  model; it enters as the abstract functions of `Dispatcher.Engine`. Its
  commitments and proofs are taken to be exactly 32 and 192 bytes, so the
  `[..32]` and `[..SNARK_BYTES]` slice copies cannot fail.
- The sector store (`max_unsealed_bytes_per_sector`, its configured sizes
  1065353216, 1016 and 127, on-disk layout) is a parameter `sectorBytes`;
  `util::pbuf_from_c` path conversion is taken as passing the access string
  through unchanged.
- `responses.rs` is not part of this model. The defaults each entry point
  starts from are taken as zero bytes, no message, `false`, count 0 and no
  faults. The default status is taken as Success, because the PoSt test
  expects Success from `generate_post` and `verify_post`, which never set a
  status.
- `generate_post` on a buffer whose length is not a multiple of 32 reads out
  of bounds; the model makes the multiple of 32 a precondition.
- Post.GeneratePost: builds on the corrected fault rule `Post.Faults`, so
  with zero commitments it reports no faults, where mod.rs:277 reports [0]
  in a release build and panics in a debug build (see "## Findings").
- Post.FaultsAsWrittenZero: models the release build, where `usize`
  subtraction wraps; a debug build panics on the same input instead.
- The unused `_challenge_seed` and `_ss_ptr` parameters of the PoSt entry
  points.
- The test harness: temporary directories, random data, the threaded
  concurrency test and the `write_and_preprocess` regression, which belongs
  to the sector store.

## Findings

| source | as written | input that shows it | evidently intended | confidence | as-written member | corrected member |
|---|---|---|---|---|---|---|
| filecoin-proofs/src/api/mod.rs:277 | `comm_rs.len() - 1` is `usize` arithmetic; for zero commitments it wraps to 2^64 - 1 (release), so `take(min(1, ·))` keeps one element and the fault list is [0] (a debug build panics instead) | `flattened_comm_rs_len == 0` (no commitments) | "flag the first commitment only when more than one was provided": no commitments, no faults | not executed; high (the arithmetic is unambiguous) | Post.FaultsAsWrittenZero | Post.Faults |
