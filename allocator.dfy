/**
 The transaction sequence-number allocator: an interceptor of the
 transaction coordinator that stamps a sequence number on every request of
 a batch and then hands the batch to the next sender of the chain. All its
 operations run under the coordinator's lock, so they are modelled as
 plain sequential methods.
 */
module SeqNumAllocator {
  import opened Requests
  import opened Sequencing

  /** What the next sender answers for a batch: a reply, or its failure. */
  function MockReply(b: seq<Request>, failure: Option<Error>): (Option<BatchResponse>, Option<Error>) {
    if failure.None? then (Some(CreateReply(b)), None) else (None, failure)
  }

  /**
   The next sender of the interceptor chain, as a recorder: it keeps every
   batch it receives, in order, and answers with a reply built from the
   batch, or with the failure it was configured with.
   */
  class MockLockedSender {
    var received: seq<seq<Request>>
    const failure: Option<Error>

    constructor (failure: Option<Error>)
      ensures received == [] && this.failure == failure
    {
      received := [];
      this.failure := failure;
    }

    method SendLocked(ba: array<Request>) returns (br: Option<BatchResponse>, pErr: Option<Error>)
      modifies this
      ensures received == old(received) + [ba[..]]
      ensures (br, pErr) == MockReply(ba[..], failure)
    {
      received := received + [ba[..]];
      var reply := MockReply(ba[..], failure);
      br, pErr := reply.0, reply.1;
    }
  }

  /**
   The coordinator metadata snapshot, reduced to the one field this
   component reads and writes: the transaction's sequence number.
   */
  class TxnCoordMeta {
    var txnSequence: int32

    /** The zero value of the snapshot. */
    constructor ()
      ensures txnSequence == 0
    {
      txnSequence := 0;
    }
  }

  class TxnSeqNumAllocator {
    const wrapped: MockLockedSender
    /** The last sequence number assigned or imported in the current epoch. */
    var seqGen: int32

    ghost predicate Valid()
      reads this
    {
      0 <= seqGen
    }

    constructor (wrapped: MockLockedSender)
      ensures Valid()
      ensures this.wrapped == wrapped && seqGen == 0
    {
      this.wrapped := wrapped;
      seqGen := 0;
    }

    /**
     Stamps every request of `ba` in place, in order, then forwards the
     batch and returns the next sender's answer as it is. The counter
     advances by the number of sequence-consuming requests whatever that
     answer is.
     */
    method SendLocked(ba: array<Request>) returns (br: Option<BatchResponse>, pErr: Option<Error>)
      requires Valid()
      requires seqGen + Consumed(ba[..]) <= MAX_INT32
      modifies this, ba, wrapped
      ensures Valid()
      ensures ba[..] == Stamp(old(ba[..]), old(seqGen))
      ensures seqGen == old(seqGen) + Consumed(old(ba[..]))
      ensures wrapped.received == old(wrapped.received) + [ba[..]]
      ensures (br, pErr) == MockReply(ba[..], wrapped.failure)
    {
      ghost var a0 := ba[..];
      var i := 0;
      while i < ba.Length
        modifies this, ba
        invariant 0 <= i <= ba.Length
        invariant Consumed(a0[..i]) <= Consumed(a0)
        invariant seqGen == old(seqGen) + Consumed(a0[..i])
        invariant ba[..i] == Stamp(a0[..i], old(seqGen))
        invariant forall k | i <= k < ba.Length :: ba[k] == a0[k]
      {
        var req := ba[i];
        StampSnoc(a0, old(seqGen), i);
        if IsSeqConsuming(req.kind) {
          seqGen := seqGen + 1;
        }
        ba[i] := WithSequence(req, seqGen);
        assert ba[..i + 1] == ba[..i] + [ba[i]];
        i := i + 1;
      }
      assert ba[..] == ba[..i] && a0 == a0[..i];
      br, pErr := wrapped.SendLocked(ba);
    }

    /** A transaction restart begins a new numbering space at 0. */
    method EpochBumpedLocked()
      modifies this
      ensures Valid()
      ensures seqGen == 0
    {
      seqGen := 0;
    }

    /**
     Imports the sequence baseline of a snapshot. When the snapshot is not
     behind the counter, the counter becomes the snapshot's value; otherwise
     the contract leaves open which of the two values it keeps (this body
     keeps the larger).
     */
    method AugmentMetaLocked(meta: TxnCoordMeta)
      requires Valid()
      modifies this
      ensures Valid()
      ensures old(seqGen) <= meta.txnSequence ==> seqGen == meta.txnSequence
      ensures seqGen == old(seqGen) || seqGen == meta.txnSequence
    {
      if meta.txnSequence > seqGen {
        seqGen := meta.txnSequence;
      }
    }

    /** Exports the counter into the caller's snapshot. */
    method PopulateMetaLocked(meta: TxnCoordMeta)
      modifies meta
      ensures meta.txnSequence == seqGen
    {
      meta.txnSequence := seqGen;
    }
  }
}
