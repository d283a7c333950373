/**
 The four entry points of the proofs API that delegate to the proving
 engine: seal, verify_seal, get_unsealed_range and get_unsealed. Each one
 starts from its response's default, asks the engine exactly one question,
 and classifies the engine's answer into Success, ReceiverError or
 UnclassifiedError.

 The proving engine is an abstract parameter: an `Engine` value holds one
 function per engine capability, so that a contract can say which question
 an entry point asks as well as what it does with the answer. The sector
 store enters only through its per-sector unsealed size.

 Next to every entry point sits the decoder a foreign caller would apply to
 the response; each entry point promises that the decoder recovers the
 engine's answer exactly, which is what makes the three-way status
 unambiguous.
 */
module Dispatcher {
  import opened Types
  import opened Responses

  /** What the engine produces when sealing succeeds. */
  datatype SealOutput = SealOutput(commR: Commitment, commD: Commitment, proof: Proof)

  /** The proving engine's three capabilities, as the boundary consumes them. */
  datatype Engine = Engine(
    seal: (SectorAccess, SectorAccess, ProverId, SectorId) -> EngineResult<SealOutput>,
    verifySeal: (Commitment, Commitment, ProverId, SectorId, Proof) -> EngineResult<bool>,
    unsealRange: (SectorAccess, SectorAccess, ProverId, SectorId, u64, u64) -> EngineResult<u64>)

  /** The engine failure a message carries, or the empty text when there is none. */
  function FailureText(m: Option<ErrorMsg>): string
  {
    match m
    case Some(EngineFailure(d)) => d
    case _ => ""
  }

  // ---------------------------------------------------------------- seal

  /** How a caller reads a seal response back. */
  function SealOutcome(r: SealResponse): EngineResult<SealOutput>
  {
    if r.status == Success then Ok(SealOutput(r.commR, r.commD, r.proof))
    else Err(FailureText(r.errorMsg))
  }

  /**
   Seals the sector at `unsealed` into `sealed`. On the engine's success the
   response carries its two commitments and proof byte for byte; on failure
   it carries the engine's description and the payload keeps its defaults.
   */
  function Seal(engine: Engine, unsealed: SectorAccess, sealed: SectorAccess,
                proverId: ProverId, sectorId: SectorId): (r: SealResponse)
    ensures r.WellFormed()
    ensures r.status != ReceiverError
    ensures SealOutcome(r) == engine.seal(unsealed, sealed, proverId, sectorId)
    ensures var o := engine.seal(unsealed, sealed, proverId, sectorId);
            o.Err? ==> && r.errorMsg == Some(EngineFailure(o.description))
                       && r.commR == DEFAULT_SEAL.commR
                       && r.commD == DEFAULT_SEAL.commD
                       && r.proof == DEFAULT_SEAL.proof
  {
    var response := DEFAULT_SEAL;
    match engine.seal(unsealed, sealed, proverId, sectorId)
    case Ok(out) =>
      response.(status := Success, commR := out.commR, commD := out.commD, proof := out.proof)
    case Err(d) =>
      response.(status := UnclassifiedError, errorMsg := Some(EngineFailure(d)))
  }

  // --------------------------------------------------------- verify_seal

  /** How a caller reads a verify-seal response back. */
  function VerifySealOutcome(r: VerifySealResponse): EngineResult<bool>
  {
    if r.status == Success then Ok(r.isValid) else Err(FailureText(r.errorMsg))
  }

  /**
   Verifies a seal proof. A negative verification is a Success whose
   `isValid` is false; only an engine failure is an error.
   */
  function VerifySeal(engine: Engine, commR: Commitment, commD: Commitment,
                      proverId: ProverId, sectorId: SectorId, proof: Proof): (r: VerifySealResponse)
    ensures r.WellFormed()
    ensures r.status != ReceiverError
    ensures VerifySealOutcome(r) == engine.verifySeal(commR, commD, proverId, sectorId, proof)
    ensures var o := engine.verifySeal(commR, commD, proverId, sectorId, proof);
            o.Err? ==> r.errorMsg == Some(EngineFailure(o.description)) && r.isValid == DEFAULT_VERIFY_SEAL.isValid
  {
    var response := DEFAULT_VERIFY_SEAL;
    match engine.verifySeal(commR, commD, proverId, sectorId, proof)
    case Ok(true) => response.(status := Success, isValid := true)
    case Ok(false) => response.(status := Success, isValid := false)
    case Err(d) => response.(status := UnclassifiedError, errorMsg := Some(EngineFailure(d)))
  }

  /**
   Sealing and then verifying the seal's own outputs reports a valid proof,
   whenever the engine accepts the proofs it produces.
   */
  lemma SealThenVerify(engine: Engine, unsealed: SectorAccess, sealed: SectorAccess,
                       proverId: ProverId, sectorId: SectorId)
    requires engine.seal(unsealed, sealed, proverId, sectorId).Ok?
    requires var out := engine.seal(unsealed, sealed, proverId, sectorId).value;
             engine.verifySeal(out.commR, out.commD, proverId, sectorId, out.proof) == Ok(true)
    ensures var s := Seal(engine, unsealed, sealed, proverId, sectorId);
            && s.status == Success
            && var v := VerifySeal(engine, s.commR, s.commD, proverId, sectorId, s.proof);
               v.status == Success && v.isValid
  {
  }

  // -------------------------------------------------- get_unsealed_range

  /** How a caller reads a ranged-unseal response back: a count, or a failure. */
  function UnsealRangeOutcome(r: GetUnsealedRangeResponse): EngineResult<u64>
  {
    if r.status == UnclassifiedError then Err(FailureText(r.errorMsg)) else Ok(r.numBytesWritten)
  }

  /**
   Unseals `numBytes` bytes from `startOffset` of the sealed sector into
   `output`. Success exactly when the engine wrote the requested count;
   any other count is a ReceiverError. Both report the count written.
   */
  function GetUnsealedRange(engine: Engine, sealed: SectorAccess, output: SectorAccess,
                            startOffset: u64, numBytes: u64,
                            proverId: ProverId, sectorId: SectorId): (r: GetUnsealedRangeResponse)
    ensures r.WellFormed()
    ensures UnsealRangeOutcome(r) == engine.unsealRange(sealed, output, proverId, sectorId, startOffset, numBytes)
    ensures var o := engine.unsealRange(sealed, output, proverId, sectorId, startOffset, numBytes);
            match o
            case Ok(n) =>
              && (r.status == Success <==> n == numBytes)
              && (r.status != Success ==> r.status == ReceiverError && r.errorMsg == Some(ShortUnseal(numBytes, n)))
              && r.numBytesWritten == n
            case Err(d) =>
              && r.status == UnclassifiedError
              && r.errorMsg == Some(EngineFailure(d))
              && r.numBytesWritten == DEFAULT_GET_UNSEALED_RANGE.numBytesWritten
  {
    var response := DEFAULT_GET_UNSEALED_RANGE;
    match engine.unsealRange(sealed, output, proverId, sectorId, startOffset, numBytes)
    case Ok(unsealed) =>
      var classified :=
        if unsealed == numBytes then response.(status := Success)
        else response.(status := ReceiverError, errorMsg := Some(ShortUnseal(numBytes, unsealed)));
      classified.(numBytesWritten := unsealed)
    case Err(d) =>
      response.(status := UnclassifiedError, errorMsg := Some(EngineFailure(d)))
  }

  // -------------------------------------------------------- get_unsealed

  /**
   How a caller reads a whole-sector unseal response back, knowing the
   sector size: Success means the whole sector, and a ReceiverError's
   message carries the shorter count.
   */
  function UnsealedOutcome(r: GetUnsealedResponse, sectorBytes: u64): EngineResult<u64>
  {
    match r.status
    case Success => Ok(sectorBytes)
    case ReceiverError =>
      (match r.errorMsg
       case Some(ShortUnseal(_, n)) => Ok(n)
       case _ => Ok(0))
    case UnclassifiedError => Err(FailureText(r.errorMsg))
  }

  /**
   Unseals a whole sector: asks the engine for offset 0 and exactly
   `sectorBytes` bytes, the store's maximum unsealed size per sector, and
   classifies the answer as the ranged unseal does.
   */
  function GetUnsealed(engine: Engine, sectorBytes: u64, sealed: SectorAccess, output: SectorAccess,
                       proverId: ProverId, sectorId: SectorId): (r: GetUnsealedResponse)
    ensures r.WellFormed()
    ensures UnsealedOutcome(r, sectorBytes) == engine.unsealRange(sealed, output, proverId, sectorId, 0, sectorBytes)
    ensures var o := engine.unsealRange(sealed, output, proverId, sectorId, 0, sectorBytes);
            match o
            case Ok(n) =>
              && (r.status == Success <==> n == sectorBytes)
              && (r.status != Success ==> r.status == ReceiverError && r.errorMsg == Some(ShortUnseal(sectorBytes, n)))
            case Err(d) =>
              r.status == UnclassifiedError && r.errorMsg == Some(EngineFailure(d))
  {
    var response := DEFAULT_GET_UNSEALED;
    match engine.unsealRange(sealed, output, proverId, sectorId, 0, sectorBytes)
    case Ok(n) =>
      if n == sectorBytes then response.(status := Success)
      else response.(status := ReceiverError, errorMsg := Some(ShortUnseal(sectorBytes, n)))
    case Err(d) =>
      response.(status := UnclassifiedError, errorMsg := Some(EngineFailure(d)))
  }

  /**
   The whole-sector unseal classifies exactly as the ranged unseal of
   offset 0 and the sector size would.
   */
  lemma GetUnsealedIsWholeRange(engine: Engine, sectorBytes: u64, sealed: SectorAccess, output: SectorAccess,
                                proverId: ProverId, sectorId: SectorId)
    ensures var whole := GetUnsealed(engine, sectorBytes, sealed, output, proverId, sectorId);
            var range := GetUnsealedRange(engine, sealed, output, 0, sectorBytes, proverId, sectorId);
            whole.status == range.status && whole.errorMsg == range.errorMsg
  {
  }
}
