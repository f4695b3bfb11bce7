/**
 The allocator's four test scenarios, each as a method that drives a fresh
 allocator over a recording sender and returns the sequence values the
 sender received, batch by batch.
 */
module SeqNumAllocatorTest {
  import opened Requests
  import opened Sequencing
  import opened SeqNumAllocator

  function Req(m: Method, key: Key, endKey: Key): Request {
    Request(m, RequestHeader(key, endKey, 0))
  }

  /** The stamps of the most recent batch the sender received. */
  function LastStamps(received: seq<seq<Request>>): seq<int32>
    requires received != []
  {
    Sequences(received[|received| - 1])
  }

  lemma Stamp2(r0: Request, r1: Request, c: int32)
    requires c + 2 <= MAX_INT32
    ensures Consumed([r0, r1]) <= 2
    ensures var v0 := Advance(c, r0.kind);
      Sequences(Stamp([r0, r1], c)) == [v0, Advance(v0, r1.kind)]
  {
    assert [r0, r1][1..] == [r1];
    assert [r1][1..] == [];
  }

  lemma Stamp3(r0: Request, r1: Request, r2: Request, c: int32)
    requires c + 3 <= MAX_INT32
    ensures Consumed([r0, r1, r2]) <= 3
    ensures var v0 := Advance(c, r0.kind);
      Sequences(Stamp([r0, r1, r2], c)) == [v0] + Sequences(Stamp([r1, r2], v0))
  {
    assert [r0, r1, r2][1..] == [r1, r2];
  }

  lemma Stamp4(r0: Request, r1: Request, r2: Request, r3: Request, c: int32)
    requires c + 4 <= MAX_INT32
    ensures Consumed([r0, r1, r2, r3]) <= 4
    ensures var v0 := Advance(c, r0.kind);
      Sequences(Stamp([r0, r1, r2, r3], c)) == [v0] + Sequences(Stamp([r1, r2, r3], v0))
  {
    assert [r0, r1, r2, r3][1..] == [r1, r2, r3];
  }

  /** A fresh allocator wired to a fresh recording sender that always replies. */
  method MakeMockTxnSeqNumAllocator() returns (s: TxnSeqNumAllocator, mock: MockLockedSender)
    ensures fresh(s) && fresh(mock) && s.wrapped == mock
    ensures s.Valid() && s.seqGen == 0
    ensures mock.received == [] && mock.failure == None
  {
    mock := new MockLockedSender(None);
    s := new TxnSeqNumAllocator(mock);
  }

  /**
   Reads take the current counter; writes take a fresh number; the counter
   carries across batches and the finalizing request consumes a number.
   */
  method SequenceNumberAllocation() returns (first: seq<int32>, second: seq<int32>, third: seq<int32>)
    ensures first == [0, 0]
    ensures second == [1, 1, 2, 2]
    ensures third == [3, 3, 4]
  {
    var s, mock := MakeMockTxnSeqNumAllocator();
    var get, scan := Req(Get, "a", ""), Req(Scan, "a", "b");
    var cput, iput := Req(ConditionalPut, "a", ""), Req(InitPut, "a", "");
    var put, endTxn := Req(Put, "a", ""), Req(EndTransaction, "a", "");

    // A batch of reads leaves the counter at its starting value of 0.
    var ba := new Request[] [get, scan];
    assert ba[..] == [get, scan];
    Stamp2(get, scan, 0);
    var br, pErr := s.SendLocked(ba);
    assert br.Some? && pErr.None?;
    first := LastStamps(mock.received);
    assert first == [0, 0] && s.seqGen == 0;

    // Each write moves the counter on; the read after it shares its number.
    ba := new Request[] [cput, get, iput, scan];
    assert ba[..] == [cput, get, iput, scan];
    Stamp4(cput, get, iput, scan, 0);
    Stamp3(get, iput, scan, 1);
    Stamp2(iput, scan, 1);
    br, pErr := s.SendLocked(ba);
    assert br.Some? && pErr.None?;
    second := LastStamps(mock.received);
    assert second == [1, 1, 2, 2] && s.seqGen == 2;

    // The finalizing request also gets a unique sequence number.
    ba := new Request[] [put, scan, endTxn];
    assert ba[..] == [put, scan, endTxn];
    Stamp3(put, scan, endTxn, 2);
    Stamp2(scan, endTxn, 3);
    br, pErr := s.SendLocked(ba);
    assert br.Some? && pErr.None?;
    third := LastStamps(mock.received);
  }

  /** Begin and heartbeat requests take no number; the finalizing request does. */
  method SequenceNumberAllocationTxnRequests() returns (stamps: seq<int32>)
    ensures stamps == [0, 0, 1]
  {
    var s, mock := MakeMockTxnSeqNumAllocator();
    var begin, heartbeat := Req(BeginTransaction, "a", ""), Req(HeartbeatTxn, "a", "");
    var endTxn := Req(EndTransaction, "a", "");

    var ba := new Request[] [begin, heartbeat, endTxn];
    assert ba[..] == [begin, heartbeat, endTxn];
    Stamp3(begin, heartbeat, endTxn, 0);
    Stamp2(heartbeat, endTxn, 0);
    var br, pErr := s.SendLocked(ba);
    assert br.Some? && pErr.None?;
    stamps := LastStamps(mock.received);
  }

  /** After an epoch bump, numbering starts again from zero. */
  method SequenceNumberAllocationAfterEpochBump() returns (before: seq<int32>, after: seq<int32>)
    ensures before == [1, 1, 2]
    ensures after == [0, 1, 1, 2]
  {
    var s, mock := MakeMockTxnSeqNumAllocator();
    var get, scan := Req(Get, "a", ""), Req(Scan, "a", "b");
    var cput, iput := Req(ConditionalPut, "a", ""), Req(InitPut, "a", "");

    // A few writes to move the counter.
    var ba := new Request[] [cput, get, iput];
    assert ba[..] == [cput, get, iput];
    Stamp3(cput, get, iput, 0);
    Stamp2(get, iput, 1);
    var br, pErr := s.SendLocked(ba);
    assert br.Some? && pErr.None?;
    before := LastStamps(mock.received);

    s.EpochBumpedLocked();

    ba := new Request[] [get, cput, scan, iput];
    assert ba[..] == [get, cput, scan, iput];
    Stamp4(get, cput, scan, iput, 0);
    Stamp3(cput, scan, iput, 0);
    Stamp2(scan, iput, 1);
    br, pErr := s.SendLocked(ba);
    assert br.Some? && pErr.None?;
    after := LastStamps(mock.received);
  }

  /**
   A leaf allocator initialised from a root's snapshot: the imported value
   round-trips, numbering continues from it, and the snapshot exported
   afterwards holds the final counter.
   */
  method SequenceNumberAllocationAfterAugmentation() returns (roundTrip: int32, stamps: seq<int32>, exported: int32)
    ensures roundTrip == 4
    ensures stamps == [4, 5, 5, 6]
    ensures exported == 6
  {
    var s, mock := MakeMockTxnSeqNumAllocator();
    var get, cput, iput := Req(Get, "a", ""), Req(ConditionalPut, "a", ""), Req(InitPut, "a", "");

    var inMeta := new TxnCoordMeta();
    inMeta.txnSequence := 4;
    s.AugmentMetaLocked(inMeta);

    var outMeta := new TxnCoordMeta();
    s.PopulateMetaLocked(outMeta);
    roundTrip := outMeta.txnSequence;

    var ba := new Request[] [get, cput, get, iput];
    assert ba[..] == [get, cput, get, iput];
    Stamp4(get, cput, get, iput, 4);
    Stamp3(cput, get, iput, 4);
    Stamp2(get, iput, 5);
    var br, pErr := s.SendLocked(ba);
    assert br.Some? && pErr.None?;
    stamps := LastStamps(mock.received);

    outMeta := new TxnCoordMeta();
    s.PopulateMetaLocked(outMeta);
    exported := outMeta.txnSequence;
  }

  /**
   Importing a sequence that is not behind the counter and exporting it
   straight away returns the imported value.
   */
  method MetaRoundTrip(s: TxnSeqNumAllocator, imported: int32) returns (exported: int32)
    requires s.Valid() && s.seqGen <= imported
    modifies s
    ensures s.Valid() && s.seqGen == imported
    ensures exported == imported
  {
    var inMeta := new TxnCoordMeta();
    inMeta.txnSequence := imported;
    s.AugmentMetaLocked(inMeta);
    var outMeta := new TxnCoordMeta();
    s.PopulateMetaLocked(outMeta);
    exported := outMeta.txnSequence;
  }
}
