/**
 The stamping rule of the sequence-number allocator, as functions on
 batches, and what it guarantees: every request keeps its place and its
 contents apart from the sequence field; a sequence-consuming request gets
 the counter incremented first; every other request gets the counter as
 it stands; the counter carries over from one batch to the next.
 */
module Sequencing {
  import opened Requests

  /** How many requests of the batch take a fresh sequence number. */
  function Consumed(b: seq<Request>): (n: nat)
    ensures n <= |b|
  {
    if b == [] then 0
    else (if IsSeqConsuming(b[0].kind) then 1 else 0) + Consumed(b[1..])
  }

  /** The counter after one request of kind `m` has been stamped. */
  function Advance(c: int, m: Method): int {
    if IsSeqConsuming(m) then c + 1 else c
  }

  /**
   The batch in which each request, taken in order, is stamped starting from
   counter value `c`; the counter afterwards is `c + Consumed(b)`.
   */
  function Stamp(b: seq<Request>, c: int32): (r: seq<Request>)
    requires c + Consumed(b) <= MAX_INT32
    ensures |r| == |b|
  {
    if b == [] then []
    else
      var next: int32 := Advance(c, b[0].kind);
      [WithSequence(b[0], next)] + Stamp(b[1..], next)
  }

  lemma {:induction false} ConsumedAppend(a: seq<Request>, b: seq<Request>)
    ensures Consumed(a + b) == Consumed(a) + Consumed(b)
  {
    if a == [] {
      assert a + b == b;
    } else {
      assert (a + b)[1..] == a[1..] + b;
      ConsumedAppend(a[1..], b);
    }
  }

  /**
   Stamping two batches one after the other, the second from the counter
   the first left behind, is stamping their concatenation: the counter
   persists across sends.
   */
  lemma {:induction false} StampAppend(a: seq<Request>, b: seq<Request>, c: int32)
    requires c + Consumed(a) + Consumed(b) <= MAX_INT32
    ensures Consumed(a + b) == Consumed(a) + Consumed(b)
    ensures Stamp(a + b, c) == Stamp(a, c) + Stamp(b, c + Consumed(a))
  {
    ConsumedAppend(a, b);
    if a == [] {
      assert a + b == b;
    } else {
      var next: int32 := Advance(c, a[0].kind);
      ConsumedAppend(a[1..], b);
      StampAppend(a[1..], b, next);
      StampAppendStep(a, b, c, next);
    }
  }

  /** The inductive step of `StampAppend`, kept apart so that its proof stays small. */
  lemma StampAppendStep(a: seq<Request>, b: seq<Request>, c: int32, next: int32)
    requires a != [] && next == Advance(c, a[0].kind)
    requires c + Consumed(a) + Consumed(b) <= MAX_INT32
    requires next + Consumed(a[1..]) == c + Consumed(a)
    requires Consumed(a + b) == Consumed(a) + Consumed(b)
    requires Consumed(a[1..] + b) == Consumed(a[1..]) + Consumed(b)
    requires Stamp(a[1..] + b, next) == Stamp(a[1..], next) + Stamp(b, c + Consumed(a))
    ensures Stamp(a + b, c) == Stamp(a, c) + Stamp(b, c + Consumed(a))
  {
    assert (a + b)[1..] == a[1..] + b;
  }

  /**
   Stamping one more request of a batch: the prefix up to and including `i`
   is the stamped prefix before `i` followed by request `i`, which carries
   the counter as it stands, advanced when that request consumes a number.
   */
  lemma StampSnoc(b: seq<Request>, c: int32, i: nat)
    requires c + Consumed(b) <= MAX_INT32
    requires i < |b|
    ensures Consumed(b[..i]) <= Consumed(b[..i + 1]) <= Consumed(b)
    ensures c + Consumed(b[..i + 1]) == Advance(c + Consumed(b[..i]), b[i].kind)
    ensures Stamp(b[..i + 1], c)
         == Stamp(b[..i], c) + [WithSequence(b[i], c + Consumed(b[..i + 1]))]
  {
    assert b[..i + 1] + b[i + 1..] == b;
    ConsumedAppend(b[..i + 1], b[i + 1..]);
    assert b[..i + 1] == b[..i] + [b[i]];
    assert [b[i]][1..] == [];
    ConsumedAppend(b[..i], [b[i]]);
    StampAppend(b[..i], [b[i]], c);
  }

  /**
   The value stamped on request `i` is the starting counter plus the number
   of sequence-consuming requests up to and including `i`.
   */
  lemma {:induction false} StampAt(b: seq<Request>, c: int32, i: nat)
    requires c + Consumed(b) <= MAX_INT32
    requires i < |b|
    ensures Consumed(b[..i + 1]) <= Consumed(b)
    ensures Stamp(b, c)[i] == WithSequence(b[i], c + Consumed(b[..i + 1]))
  {
    assert b[..i + 1] + b[i + 1..] == b;
    ConsumedAppend(b[..i + 1], b[i + 1..]);
    if i > 0 {
      var next: int32 := Advance(c, b[0].kind);
      StampAt(b[1..], next, i - 1);
      assert b[..i + 1] == [b[0]] + b[1..][..i];
      ConsumedAppend([b[0]], b[1..][..i]);
    }
  }

  /** A batch consumes no sequence number exactly when it holds no consuming request. */
  lemma {:induction false} NoneConsumed(b: seq<Request>)
    ensures Consumed(b) == 0 <==> forall i | 0 <= i < |b| :: !IsSeqConsuming(b[i].kind)
  {
    if b != [] {
      NoneConsumed(b[1..]);
      assert forall i | 1 <= i < |b| :: b[i] == b[1..][i - 1];
    }
  }

  /**
   Exactly the batches without sequence-consuming requests stamp every
   request with the current counter.
   */
  lemma ReadOnlyBatch(b: seq<Request>, c: int32)
    requires c + Consumed(b) <= MAX_INT32
    ensures (forall i | 0 <= i < |b| :: !IsSeqConsuming(b[i].kind))
        <==> (forall i | 0 <= i < |b| :: Stamp(b, c)[i].header.sequence == c)
  {
    NoneConsumed(b);
    var r := Stamp(b, c);
    if exists i | 0 <= i < |b| :: IsSeqConsuming(b[i].kind) {
      var i :| 0 <= i < |b| && IsSeqConsuming(b[i].kind);
      StampAt(b, c, i);
      assert b[..i + 1] == b[..i] + [b[i]];
      ConsumedAppend(b[..i], [b[i]]);
      assert Consumed([b[i]]) == 1 by {
        assert [b[i]][1..] == [];
      }
      assert r[i].header.sequence != c;
    }
  }

  /**
   The step rule between neighbours: a sequence-consuming request gets the
   value before it plus one, any other request the value before it, where
   the value before the first request is the starting counter. Hence
   consuming requests number the counter's progression without gaps, and no
   request carries a value from the future.
   */
  lemma StampStep(b: seq<Request>, c: int32, i: nat)
    requires c + Consumed(b) <= MAX_INT32
    requires i < |b|
    ensures var prev := if i == 0 then c else Stamp(b, c)[i - 1].header.sequence;
      Stamp(b, c)[i].header.sequence == Advance(prev, b[i].kind)
  {
    StampAt(b, c, i);
    ConsumedAppend(b[..i], [b[i]]);
    assert b[..i + 1] == b[..i] + [b[i]];
    assert [b[i]][1..] == [];
    if i > 0 {
      StampAt(b, c, i - 1);
      assert b[..i - 1 + 1] == b[..i];
    }
  }

  /** Stamps never decrease along the batch. */
  lemma {:induction false} StampMonotone(b: seq<Request>, c: int32, i: nat, j: nat)
    requires c + Consumed(b) <= MAX_INT32
    requires i <= j < |b|
    ensures Stamp(b, c)[i].header.sequence <= Stamp(b, c)[j].header.sequence
    decreases j - i
  {
    if i < j {
      StampMonotone(b, c, i, j - 1);
      StampStep(b, c, j);
    }
  }

  /**
   Two sequence-consuming requests of one batch never share a value: the
   later one always carries the larger number.
   */
  lemma ConsumingStampsIncrease(b: seq<Request>, c: int32, i: nat, j: nat)
    requires c + Consumed(b) <= MAX_INT32
    requires i < j < |b|
    requires IsSeqConsuming(b[j].kind)
    ensures Stamp(b, c)[i].header.sequence < Stamp(b, c)[j].header.sequence
  {
    StampMonotone(b, c, i, j - 1);
    StampStep(b, c, j);
  }

  /**
   Across sends: a sequence-consuming request of a later batch carries a
   number larger than any request of an earlier batch, the later batch
   being stamped from the counter the earlier one left behind.
   */
  lemma LaterConsumingStampsIncrease(a: seq<Request>, b: seq<Request>, c: int32, i: nat, j: nat)
    requires c + Consumed(a) + Consumed(b) <= MAX_INT32
    requires i < |a| && j < |b|
    requires IsSeqConsuming(b[j].kind)
    ensures Stamp(a, c)[i].header.sequence < Stamp(b, c + Consumed(a))[j].header.sequence
  {
    StampAppend(a, b, c);
    ConsumingStampsIncrease(a + b, c, i, |a| + j);
  }

  /**
   The last request of a non-empty batch carries exactly the counter the
   batch leaves behind.
   */
  lemma LastStampIsCounter(b: seq<Request>, c: int32)
    requires c + Consumed(b) <= MAX_INT32
    requires b != []
    ensures Stamp(b, c)[|b| - 1].header.sequence == c + Consumed(b)
  {
    StampAt(b, c, |b| - 1);
    assert b[..|b| - 1 + 1] == b;
  }

  /**
   The first sequence-consuming request of a batch gets the starting
   counter plus one; after an epoch bump, that is 1.
   */
  lemma FirstConsumingGetsNext(b: seq<Request>, c: int32, i: nat)
    requires c + Consumed(b) <= MAX_INT32
    requires i < |b| && IsSeqConsuming(b[i].kind)
    requires forall j | 0 <= j < i :: !IsSeqConsuming(b[j].kind)
    ensures Stamp(b, c)[i].header.sequence == c + 1
  {
    StampAt(b, c, i);
    ConsumedAppend(b[..i], [b[i]]);
    assert b[..i + 1] == b[..i] + [b[i]];
    assert [b[i]][1..] == [];
    NoneConsumed(b[..i]);
  }
}
