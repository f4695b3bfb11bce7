/**
 The slice of the request protocol that the sequence-number allocator sees:
 request kinds, the per-request header carrying the sequence field, the
 batch reply and the error value the next sender may hand back.
 */
module Requests {

  const MIN_INT32: int := -0x8000_0000
  const MAX_INT32: int := 0x7fff_ffff

  /** The wire width of every sequence value: a signed 32-bit integer. */
  type int32 = x: int | MIN_INT32 <= x <= MAX_INT32

  datatype Option<T> = None | Some(value: T)

  type Key = seq<char>

  /** The request kinds a transactional batch can carry. */
  datatype Method =
    | Get
    | Scan
    | Put
    | ConditionalPut
    | InitPut
    | Increment
    | Delete
    | DeleteRange
    | BeginTransaction
    | HeartbeatTxn
    | EndTransaction

  /** Request kinds that write data inside the transaction. */
  predicate IsTransactionWrite(m: Method) {
    match m
    case Put | ConditionalPut | InitPut | Increment | Delete | DeleteRange => true
    case Get | Scan | BeginTransaction | HeartbeatTxn | EndTransaction => false
  }

  /**
   The classifier: a request consumes a fresh sequence number when it is
   a transactional write or the transaction-finalizing request. Reads and
   the begin/heartbeat bookkeeping requests do not.
   */
  predicate IsSeqConsuming(m: Method): (c: bool)
    ensures c <==> m in {Put, ConditionalPut, InitPut, Increment, Delete, DeleteRange, EndTransaction}
    ensures !c <==> m in {Get, Scan, BeginTransaction, HeartbeatTxn}
  {
    IsTransactionWrite(m) || m == EndTransaction
  }

  datatype RequestHeader = RequestHeader(key: Key, endKey: Key, sequence: int32)

  datatype Request = Request(kind: Method, header: RequestHeader)

  /** The request with only its header's sequence field replaced. */
  function WithSequence(r: Request, s: int32): Request {
    r.(header := r.header.(sequence := s))
  }

  /** The sequence values carried by a batch, in batch order. */
  function Sequences(b: seq<Request>): seq<int32> {
    seq(|b|, i requires 0 <= i < |b| => b[i].header.sequence)
  }

  datatype Error = Error(message: string)

  /** A reply holds one response per request, of the request's kind. */
  datatype BatchResponse = BatchResponse(responses: seq<Method>)

  function CreateReply(b: seq<Request>): BatchResponse {
    BatchResponse(seq(|b|, i requires 0 <= i < |b| => b[i].kind))
  }
}
