/**
 The placeholder proof-of-spacetime (PoSt): generate_post splits a flattened
 buffer into 32-byte replica commitments, flags the first commitment as
 faulty when there is more than one, and returns a constant 192-byte proof
 of all 42s; verify_post accepts a proof exactly when its first byte is 42.

 The fault rule as the source writes it subtracts one from the commitment
 count in unsigned arithmetic, which wraps (or, in a debug build, panics)
 when the count is zero. `FaultsAsWritten` keeps that arithmetic and
 `FaultsAsWrittenZero` shows the index it then reports; `Faults` is the
 rule with the subtraction saturating at zero, and it is the one
 `GeneratePost` uses.
 */
module Post {
  import opened Types
  import opened Responses

  /** The byte the placeholder proof is made of and the verifier looks for. */
  const POST_SENTINEL: byte := 42

  /** The placeholder proof: `SNARK_BYTES` copies of the sentinel. */
  const PLACEHOLDER_PROOF: Proof := Fill(POST_SENTINEL, SNARK_BYTES)

  /** One past the largest `usize` on a 64-bit target. */
  const USIZE_MODULUS: int := 0x1_0000_0000_0000_0000

  // ------------------------------------------------------------ chunking

  /**
   Splits a flattened buffer into consecutive commitments, in order:
   commitment i is bytes [32 i, 32 i + 32) of the buffer.
   */
  function Chunks(flattened: seq<byte>): (commRs: seq<Commitment>)
    requires |flattened| % 32 == 0
    ensures |commRs| == |flattened| / 32
    ensures forall i :: 0 <= i < |commRs| ==> commRs[i] == flattened[32 * i .. 32 * i + 32]
    decreases |flattened|
  {
    if |flattened| == 0 then []
    else [flattened[..32]] + Chunks(flattened[32..])
  }

  /** Concatenates commitments back into one buffer. */
  function Flatten(commRs: seq<Commitment>): (flattened: seq<byte>)
    ensures |flattened| == 32 * |commRs|
  {
    if commRs == [] then [] else commRs[0] + Flatten(commRs[1..])
  }

  /** Splitting loses nothing: flattening the commitments gives the buffer back. */
  lemma {:induction false} FlattenChunks(flattened: seq<byte>)
    requires |flattened| % 32 == 0
    ensures Flatten(Chunks(flattened)) == flattened
    decreases |flattened|
  {
    if |flattened| != 0 {
      var rest := flattened[32..];
      FlattenChunks(rest);
      assert Chunks(flattened)[1..] == Chunks(rest);
    }
  }

  /** Splitting a flattened list of commitments gives the same list back. */
  lemma {:induction false} ChunksFlatten(commRs: seq<Commitment>)
    ensures Chunks(Flatten(commRs)) == commRs
  {
    if commRs != [] {
      ChunksFlatten(commRs[1..]);
      var flattened := Flatten(commRs);
      assert flattened[..32] == commRs[0];
      assert flattened[32..] == Flatten(commRs[1..]);
    }
  }

  // ---------------------------------------------------------- fault rule

  function Min(a: int, b: int): int
  {
    if a <= b then a else b
  }

  /** The first `n` elements of `s`, or all of it when it is shorter. */
  function Take<T>(s: seq<T>, n: nat): seq<T>
  {
    if n <= |s| then s[..n] else s
  }

  /** `a - b` on `usize`, wrapping as a release build does. */
  function WrappingSub(a: u64, b: u64): u64
  {
    (a - b) % USIZE_MODULUS
  }

  /** `a - 1`, stopping at zero. */
  function SaturatingPred(a: nat): nat
  {
    if a == 0 then 0 else a - 1
  }

  /** Every fault index names one of `count` commitments. */
  predicate ValidFaults(faults: seq<byte>, count: nat)
  {
    forall k :: 0 <= k < |faults| ==> faults[k] as int < count
  }

  /** The fault rule as written: take up to min(1, count - 1) entries of [0], in wrapping arithmetic. */
  function FaultsAsWritten(count: u64): seq<byte>
  {
    Take([0], Min(1, WrappingSub(count, 1)))
  }

  /** With no commitments at all, the rule as written flags index 0, which names no commitment. */
  lemma FaultsAsWrittenZero()
    ensures FaultsAsWritten(0) == [0]
    ensures !ValidFaults(FaultsAsWritten(0), 0)
  {
    assert WrappingSub(0, 1) == USIZE_MODULUS - 1;
    assert FaultsAsWritten(0)[0] as int == 0;
  }

  /**
   The fault rule with the subtraction saturating: no faults for zero or one
   commitment, and exactly index 0 for two or more.
   */
  function Faults(count: nat): (faults: seq<byte>)
    ensures |faults| <= 1
    ensures ValidFaults(faults, count)
    ensures faults == [] <==> count <= 1
    ensures faults == [0] <==> count > 1
  {
    Take([0], Min(1, SaturatingPred(count)))
  }

  /** Wherever the source's arithmetic does not wrap, the corrected rule is the rule as written. */
  lemma FaultsAgreeWhenNonEmpty(count: u64)
    requires count >= 1
    ensures Faults(count) == FaultsAsWritten(count)
  {
  }

  // ------------------------------------------------- generate / verify

  /**
   Generates the placeholder PoSt for the commitments in `flattened`, whose
   length must be a multiple of 32.
   */
  function GeneratePost(flattened: seq<byte>): (r: GeneratePostResponse)
    requires |flattened| % 32 == 0
    ensures r.WellFormed() && r.status == Success
    ensures forall i :: 0 <= i < |r.proof| ==> r.proof[i] == POST_SENTINEL
    ensures |r.faults| <= 1
    ensures ValidFaults(r.faults, |flattened| / 32)
    ensures r.faults == [] <==> |flattened| / 32 <= 1
    ensures r.faults == [0] <==> |flattened| / 32 > 1
  {
    DEFAULT_GENERATE_POST.(faults := Faults(|Chunks(flattened)|), proof := PLACEHOLDER_PROOF)
  }

  /** Verifies a PoSt: valid exactly when its first byte is the sentinel. */
  function VerifyPost(proof: Proof): (r: VerifyPostResponse)
    ensures r.WellFormed() && r.status == Success
    ensures r.isValid <==> proof[0] == POST_SENTINEL
  {
    DEFAULT_VERIFY_POST.(isValid := proof[0] == POST_SENTINEL)
  }

  /**
   The verifier looks at the first byte only, so it also accepts proofs
   that the generator never produces.
   */
  lemma VerifyPostChecksFirstByteOnly()
    ensures exists proof: Proof :: proof != PLACEHOLDER_PROOF && VerifyPost(proof).isValid
  {
    var proof: Proof := [POST_SENTINEL] + Fill(0, SNARK_BYTES - 1);
    assert proof[1] != PLACEHOLDER_PROOF[1];
    assert VerifyPost(proof).isValid;
  }

  /** Every generated PoSt verifies. */
  lemma PostRoundTrip(flattened: seq<byte>)
    requires |flattened| % 32 == 0
    ensures var g := GeneratePost(flattened);
            var v := VerifyPost(g.proof);
            g.status == Success && v.status == Success && v.isValid
  {
  }
}
