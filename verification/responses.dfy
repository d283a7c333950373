/**
 The response records the proofs API hands to its caller, one kind per
 entry point, and the default each entry point starts from before its
 success or error branch overwrites some of the fields.

 The defaults are taken to be those of the response types' `Default`
 implementations: zero bytes, no message, `false`, a zero count, no faults,
 and status Success (the proof-of-spacetime entry points never set a
 status, yet their test expects Success).
 */
module Responses {
  import opened Types

  /** Every response attaches a message exactly when its status is not Success. */
  predicate MessageMatchesStatus(status: Status, errorMsg: Option<ErrorMsg>)
  {
    errorMsg.Some? <==> status != Success
  }

  datatype SealResponse = SealResponse(
    status: Status,
    errorMsg: Option<ErrorMsg>,
    commR: Commitment,
    commD: Commitment,
    proof: Proof)
  {
    predicate WellFormed() { MessageMatchesStatus(status, errorMsg) }
  }

  datatype VerifySealResponse = VerifySealResponse(
    status: Status,
    errorMsg: Option<ErrorMsg>,
    isValid: bool)
  {
    predicate WellFormed() { MessageMatchesStatus(status, errorMsg) }
  }

  datatype GetUnsealedRangeResponse = GetUnsealedRangeResponse(
    status: Status,
    errorMsg: Option<ErrorMsg>,
    numBytesWritten: u64)
  {
    predicate WellFormed() { MessageMatchesStatus(status, errorMsg) }
  }

  /** The whole-sector unseal reports no count field; only its message carries one. */
  datatype GetUnsealedResponse = GetUnsealedResponse(
    status: Status,
    errorMsg: Option<ErrorMsg>)
  {
    predicate WellFormed() { MessageMatchesStatus(status, errorMsg) }
  }

  /** `faults` holds indices into the commitment list (Rust `Vec<u8>`). */
  datatype GeneratePostResponse = GeneratePostResponse(
    status: Status,
    errorMsg: Option<ErrorMsg>,
    faults: seq<byte>,
    proof: Proof)
  {
    predicate WellFormed() { MessageMatchesStatus(status, errorMsg) }
  }

  datatype VerifyPostResponse = VerifyPostResponse(
    status: Status,
    errorMsg: Option<ErrorMsg>,
    isValid: bool)
  {
    predicate WellFormed() { MessageMatchesStatus(status, errorMsg) }
  }

  const DEFAULT_STATUS: Status := Success

  const DEFAULT_SEAL: SealResponse :=
    SealResponse(DEFAULT_STATUS, None, ZERO_COMMITMENT, ZERO_COMMITMENT, ZERO_PROOF)

  const DEFAULT_VERIFY_SEAL: VerifySealResponse :=
    VerifySealResponse(DEFAULT_STATUS, None, false)

  const DEFAULT_GET_UNSEALED_RANGE: GetUnsealedRangeResponse :=
    GetUnsealedRangeResponse(DEFAULT_STATUS, None, 0)

  const DEFAULT_GET_UNSEALED: GetUnsealedResponse :=
    GetUnsealedResponse(DEFAULT_STATUS, None)

  const DEFAULT_GENERATE_POST: GeneratePostResponse :=
    GeneratePostResponse(DEFAULT_STATUS, None, [], ZERO_PROOF)

  const DEFAULT_VERIFY_POST: VerifyPostResponse :=
    VerifyPostResponse(DEFAULT_STATUS, None, false)
}
