# Transaction sequence-number allocator

A Dafny model of the sequence-number allocator (`txnSeqNumAllocator`) of the
transaction coordinator in CockroachDB's `pkg/kv`. The allocator is one
interceptor of the coordinator's chain. It walks the requests of a batch in
order and writes a sequence number into each request header:

- A sequence-consuming request increments the counter first and gets the new value.
  These are the transactional writes (Put, ConditionalPut, InitPut, Increment, Delete, DeleteRange) and EndTransaction.
- Every other request gets the counter as it stands: Get, Scan, BeginTransaction, HeartbeatTxn.

It then hands the stamped batch to the next sender and returns that
sender's answer unchanged. Three more operations act on the counter:

- An epoch bump resets it to 0.
- Augmentation imports it from a coordinator metadata snapshot.
- Population exports it into one.

The model follows the behaviour the allocator's tests pin down; the
allocator's own implementation file is not modelled.

Layout:

- `requests.dfy` (module `Requests`): the request kinds, the classifier, the header with its 32-bit sequence field, replies and errors.
- `sequencing.dfy` (module `Sequencing`): the stamping rule as pure functions on batches (`Consumed`, `Stamp`), with the lemmas about it.
- `allocator.dfy` (module `SeqNumAllocator`): the allocator class, its recording next sender and the metadata snapshot.
  - `SendLocked` stamps an `array` of requests in place with a loop.
  - It is proved equal to `Stamp` of the old array contents.
- `allocator_test.dfy` (module `SeqNumAllocatorTest`): the four test scenarios as verified methods.
  - Each returns the sequence values the recording sender saw.
  - Its postconditions are the test's expected vectors.

Design points:

- The counter field is called `seqGen`, because `seq` is a Dafny keyword.
- The batch is an `array<Request>`, whose headers the allocator rewrites in place.
  The allocator owns the array for the duration of the call.
- The metadata snapshot is a class.
  Population writes into a snapshot the caller supplies, as the Go code does through a pointer.
- The test file uses only the request kinds Get, Scan, Put, ConditionalPut, InitPut, BeginTransaction, HeartbeatTxn and EndTransaction.
  The model adds Increment, Delete and DeleteRange as transactional writes, which consume a number.
  This follows the protocol's rule that every transactional write takes a number.
- Augmenting with a value below the current counter is not exercised by the tests.
  The body keeps the larger of the two values, so the counter never moves backwards.
  The contract commits to neither semantics (see Left out).

## Model

| member | source | states |
|---|---|---|
| `Requests.IsSeqConsuming` | pkg/kv/txn_interceptor_seq_num_allocator_test.go:45-49 | Put, ConditionalPut, InitPut and EndTransaction consume a sequence number, while Get, Scan, BeginTransaction and HeartbeatTxn do not (as at :45-49, :65-70, :88-92 and :110-125); Increment, Delete and DeleteRange, transactional writes the test file never exercises, also consume one |
| `Sequencing.Consumed` | pkg/kv/txn_interceptor_seq_num_allocator_test.go:65-77 | a batch consumes at most one sequence number per request |
| `Sequencing.Stamp` | pkg/kv/txn_interceptor_seq_num_allocator_test.go:51-54 | the stamped batch has exactly as many requests as the batch that came in |
| `Sequencing.ConsumedAppend` | pkg/kv/txn_interceptor_seq_num_allocator_test.go:84-98 | the numbers consumed by two batches in a row add up: the counter advance is additive over concatenation |
| `Sequencing.StampAppend` | pkg/kv/txn_interceptor_seq_num_allocator_test.go:84-98 | stamping a batch from the counter the previous batch left behind equals stamping the two batches as one: the counter persists across sends |
| `Sequencing.StampSnoc` | pkg/kv/txn_interceptor_seq_num_allocator_test.go:65-77 | stamping one more request extends the stamped prefix by that request, carrying the counter as it stands, advanced first when the request consumes a number; this is the step of the allocator's loop |
| `Sequencing.StampAt` | pkg/kv/txn_interceptor_seq_num_allocator_test.go:65-77 | request i keeps its kind, keys and position and carries the start counter plus the number of consuming requests up to and including i |
| `Sequencing.NoneConsumed` | pkg/kv/txn_interceptor_seq_num_allocator_test.go:45-54 | a batch consumes no number exactly when none of its requests is sequence-consuming |
| `Sequencing.ReadOnlyBatch` | pkg/kv/txn_interceptor_seq_num_allocator_test.go:45-54 | exactly the batches of only non-consuming requests stamp every request with the current counter; that they also leave the counter unchanged follows from `NoneConsumed` with the counter clause of `TxnSeqNumAllocator.SendLocked` |
| `Sequencing.StampStep` | pkg/kv/txn_interceptor_seq_num_allocator_test.go:33-36 | each request gets the previous value (the start counter for the first), plus one exactly when it is sequence-consuming: no gaps and no value from the future |
| `Sequencing.StampMonotone` | pkg/kv/txn_interceptor_seq_num_allocator_test.go:33-36 | stamps never decrease along a batch |
| `Sequencing.ConsumingStampsIncrease` | pkg/kv/txn_interceptor_seq_num_allocator_test.go:33-36 | a write request carries a number larger than every request before it in the batch |
| `Sequencing.LaterConsumingStampsIncrease` | pkg/kv/txn_interceptor_seq_num_allocator_test.go:33-36 | a write of a later batch, stamped from the counter the earlier batch left behind, carries a number larger than every request of the earlier batch |
| `Sequencing.LastStampIsCounter` | pkg/kv/txn_interceptor_seq_num_allocator_test.go:250-253 | the last request of a non-empty batch carries exactly the counter the batch leaves behind |
| `Sequencing.FirstConsumingGetsNext` | pkg/kv/txn_interceptor_seq_num_allocator_test.go:178-191 | the first consuming request of a batch gets the start counter plus one, so 1 after an epoch bump |
| `SeqNumAllocator.MockLockedSender.constructor` | pkg/kv/txn_interceptor_seq_num_allocator_test.go:26-27 | a fresh recording sender has received nothing |
| `SeqNumAllocator.MockLockedSender.SendLocked` | pkg/kv/txn_interceptor_seq_num_allocator_test.go:51-59 | the next sender records the batch it receives and answers with a reply built from it, or with its configured failure |
| `SeqNumAllocator.TxnCoordMeta.constructor` | pkg/kv/txn_interceptor_seq_num_allocator_test.go:221 | a zero-valued snapshot carries sequence 0 |
| `SeqNumAllocator.TxnSeqNumAllocator.constructor` | pkg/kv/txn_interceptor_seq_num_allocator_test.go:28-30 | a new allocator wraps the given sender and starts its counter at 0 |
| `SeqNumAllocator.TxnSeqNumAllocator.SendLocked` | pkg/kv/txn_interceptor_seq_num_allocator_test.go:45-107 | the array afterwards is `Stamp` of its old contents, the counter advances by `Consumed` of the batch whatever the next sender answers, the next sender receives the stamped batch, and its answer is returned unchanged |
| `SeqNumAllocator.TxnSeqNumAllocator.EpochBumpedLocked` | pkg/kv/txn_interceptor_seq_num_allocator_test.go:175-176 | an epoch bump resets the counter to 0 |
| `SeqNumAllocator.TxnSeqNumAllocator.AugmentMetaLocked` | pkg/kv/txn_interceptor_seq_num_allocator_test.go:216-218 | importing a snapshot whose sequence is not behind the counter sets the counter to that sequence; otherwise the counter is the old value or the imported one |
| `SeqNumAllocator.TxnSeqNumAllocator.PopulateMetaLocked` | pkg/kv/txn_interceptor_seq_num_allocator_test.go:221-222 | the caller's snapshot receives the current counter, and nothing else changes |
| `SeqNumAllocatorTest.MakeMockTxnSeqNumAllocator` | pkg/kv/txn_interceptor_seq_num_allocator_test.go:26-31 | a fresh allocator at counter 0, wired to a fresh recording sender that always replies |
| `SeqNumAllocatorTest.SequenceNumberAllocation` | pkg/kv/txn_interceptor_seq_num_allocator_test.go:37-108 | three successive batches [Get, Scan], [CPut, Get, InitPut, Scan] and [Put, Scan, EndTxn] receive [0, 0], [1, 1, 2, 2] and [3, 3, 4]; the body also asserts that every send returns a reply and no error |
| `SeqNumAllocatorTest.SequenceNumberAllocationTxnRequests` | pkg/kv/txn_interceptor_seq_num_allocator_test.go:113-141 | [BeginTxn, HeartbeatTxn, EndTxn] from a fresh allocator receives [0, 0, 1] |
| `SeqNumAllocatorTest.SequenceNumberAllocationAfterEpochBump` | pkg/kv/txn_interceptor_seq_num_allocator_test.go:145-201 | [CPut, Get, InitPut] receives [1, 1, 2]; after an epoch bump [Get, CPut, Scan, InitPut] receives [0, 1, 1, 2] |
| `SeqNumAllocatorTest.SequenceNumberAllocationAfterAugmentation` | pkg/kv/txn_interceptor_seq_num_allocator_test.go:205-254 | importing 4 exports 4 straight back; [Get, CPut, Get, InitPut] then receives [4, 5, 5, 6] and the later export is 6 |
| `SeqNumAllocatorTest.MetaRoundTrip` | pkg/kv/txn_interceptor_seq_num_allocator_test.go:216-223 | for every valid allocator whose counter is not ahead of the imported sequence, exporting right after importing returns that sequence, and the counter now holds it |

## Left out

- The allocator's implementation file is not part of this model. Its behaviour is taken from the tests and their comments.
- `context.Context`, `leaktest` and testify's `require` are test plumbing and are not modelled.
  Each `require` on a recorded batch becomes a postcondition or an assertion of a scenario method.
- The next sender is a recorder with a fixed reply rule: a reply with one response per request, or a configured failure.
  The per-test callbacks installed with `MockSend`, network I/O and the real interceptor chain are not modelled.
- The reply's transaction (`br.Txn = ba.Txn`) and every protocol field other than the request kind, its keys and its sequence are not modelled.
  Likewise, every snapshot field other than the transaction sequence is not modelled.
- The coordinator's lock is not modelled. The "Locked" operations are plain sequential methods on a single-threaded object.
- 32-bit wrap-around is not modelled.
  `TxnSeqNumAllocator.SendLocked` requires that the counter plus the batch's consuming requests stays within `int32`, so no stamp overflows.
- SeqNumAllocator.TxnSeqNumAllocator.AugmentMetaLocked: when the imported sequence is below the current counter, the contract says only that the counter keeps one of the two values, not which one.
  The tests only augment a fresh allocator, so they do not decide between overwriting and keeping the maximum.
  The body keeps the maximum.
- SeqNumAllocatorTest.MetaRoundTrip: stated only for an imported sequence not behind the counter.
  Below the counter, augmentation may keep the old value, and then the export differs from the import.
