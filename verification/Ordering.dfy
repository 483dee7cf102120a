/** Sequence numbers with 32-bit wrap-around, and the bucketed "to be ordered"
    queues they index (src/bft/ordering/mod.rs). */
module Ordering {
  import opened Wrappers
  import Counting

  /** 2^31: the number of non-negative `i32` values. */
  const SPAN: int := 0x8000_0000
  const I32_MAX: int := SPAN - 1

  /** Checkpoint period of the message log. */
  const PERIOD: int := 1000
  const OVERFLOW_THRES: int := 10000
  const DROP_SEQNO_THRES: int := PERIOD + PERIOD / 2

  /** An `i32`. Numbers issued by the protocol are non-negative; a faulty
      sender can put any `i32` on the wire. */
  type SeqNo = x: int | -SPAN <= x < SPAN

  /** Two's complement truncation of a sum or difference of two `i32`s. */
  function Wrap(x: int): SeqNo
    requires -2 * SPAN <= x < 2 * SPAN
  {
    if x >= SPAN then x - 2 * SPAN else if x < -SPAN then x + 2 * SPAN else x
  }

  function Next(s: SeqNo): SeqNo {
    if s == I32_MAX then 0 else s + 1
  }

  /** `k` applications of `Next`. */
  function Advance(s: SeqNo, k: nat): SeqNo {
    if k == 0 then s else Next(Advance(s, k - 1))
  }

  datatype Position = Small | Big | At(bucket: nat)

  /** `a.index(b)`: how far `a` lies ahead of `b`, or why it is out of the window. */
  function Index(a: SeqNo, b: SeqNo): Position {
    var diff := Wrap(a - b);
    var index := if diff < -OVERFLOW_THRES || diff > OVERFLOW_THRES
                 then Wrap(Wrap(I32_MAX + diff) + 1) else diff;
    if index < 0 then Small else if index > DROP_SEQNO_THRES then Big else At(index)
  }

  datatype Cmp = Less | Equal | Greater

  /** The hand-written `PartialOrd`, used by `<` and `>=`. */
  function PartialCmp(a: SeqNo, b: SeqNo): Cmp {
    match Index(a, b)
    case At(k) => if k == 0 then Equal else Greater
    case Small => Less
    case Big => Greater
  }

  /** The derived `Ord`, used by `cmp` and `max_by_key`. */
  function OrdCmp(a: int, b: int): Cmp {
    if a < b then Less else if a == b then Equal else Greater
  }

  predicate PartialGe(a: SeqNo, b: SeqNo) {
    PartialCmp(a, b) != Less
  }

  function Abs(x: int): nat {
    if x < 0 then -x else x
  }

  // ---- sequence numbers ------------------------------------------------

  /** A multiple of 2^31 that two numbers of the window can be apart. */
  predicate Turns(x: int) {
    x == 0 || x == SPAN || x == -SPAN || x == -2 * SPAN
  }

  lemma IndexIsOffset(a: SeqNo, b: SeqNo, k: nat)
    ensures Index(a, b) == At(k) <==> k <= DROP_SEQNO_THRES && Turns(a - b - k)
  {
  }

  /** Over every pair of `i32`s, `index` is distance modulo 2^31, cut at the window. */
  lemma IndexIsDistance(a: SeqNo, b: SeqNo, k: nat)
    ensures Index(a, b) == At(k) <==> k <= DROP_SEQNO_THRES && (a - b - k) % SPAN == 0
  {
  }

  lemma {:induction false} AdvanceClosedForm(s: SeqNo, k: nat)
    requires s >= 0
    ensures Advance(s, k) == (s + k) % SPAN
  {
    if k > 0 { AdvanceClosedForm(s, k - 1); }
  }

  /** Across the wrap, `a.index(b)` answers `k` exactly when `k` applications of
      `next` lead from `b` to `a` and `k` is within the window. */
  lemma IndexCountsNext(a: SeqNo, b: SeqNo, k: nat)
    requires a >= 0 && b >= 0
    ensures Index(a, b) == At(k) <==> k <= DROP_SEQNO_THRES && Advance(b, k) == a
  {
    IndexIsDistance(a, b, k);
    AdvanceClosedForm(b, k);
    RemainderIs(b + k, a);
  }

  lemma RemainderIs(x: int, a: int)
    requires 0 <= a < SPAN
    ensures x % SPAN == a <==> (a - x) % SPAN == 0
  {
  }

  lemma PartialCmpIsAntisymmetric(a: SeqNo, b: SeqNo)
    requires a >= 0 && b >= 0
    ensures PartialCmp(a, b) == Less <==> PartialCmp(b, a) == Greater
    ensures PartialCmp(a, b) == Equal <==> a == b
  {
    IndexIsDistance(a, b, 0);
  }

  /** Any two points of a circular walk at most 10000 apart compare as their
      positions along the walk, also when the walk crosses the wrap. */
  lemma PartialCmpFollowsArc(start: SeqNo, i: nat, j: nat)
    requires start >= 0 && Abs(i - j) <= OVERFLOW_THRES
    ensures PartialCmp(Advance(start, i), Advance(start, j)) == OrdCmp(i, j)
  {
    AdvanceClosedForm(start, i);
    AdvanceClosedForm(start, j);
    RemainderGap(start + i, start + j);
    PartialCmpByDistance(Advance(start, i), Advance(start, j), i, j);
  }

  lemma RemainderGap(x: nat, y: nat)
    requires Abs(x - y) <= OVERFLOW_THRES
    ensures var gap := x % SPAN - y % SPAN; gap == x - y || gap == x - y + SPAN || gap == x - y - SPAN
  {
  }

  lemma PartialCmpByDistance(a: SeqNo, b: SeqNo, i: int, j: int)
    requires a >= 0 && b >= 0 && Abs(i - j) <= OVERFLOW_THRES
    requires a - b == i - j || a - b == i - j + SPAN || a - b == i - j - SPAN
    ensures PartialCmp(a, b) == OrdCmp(i, j)
  {
  }

  /** The two orders of `SeqNo` agree exactly inside the overflow window. */
  lemma OrdersAgreeInWindow(a: SeqNo, b: SeqNo)
    requires a >= 0 && b >= 0
    ensures PartialCmp(a, b) == OrdCmp(a, b) <==> Abs(a - b) <= OVERFLOW_THRES
  {
  }

  // ---- bucketed queues -------------------------------------------------

  type Buckets<M> = seq<seq<M>>

  function Padded<M>(q: Buckets<M>, len: nat): Buckets<M> {
    if len <= |q| then q else q + seq(len - |q|, _ => [])
  }

  /** Files `m`, numbered `s`, or drops it when it is out of the window. */
  function QueueMessage<M>(curr: SeqNo, q: Buckets<M>, s: SeqNo, m: M): Buckets<M> {
    match Index(s, curr)
    case At(i) => var p := Padded(q, i + 1); p[i := p[i] + [m]]
    case _ => q
  }

  function PopMessage<M>(q: Buckets<M>): (Option<M>, Buckets<M>) {
    if q == [] || q[0] == [] then (None, q)
    else (Some(q[0][0]), q[0 := q[0][1..]])
  }

  /** Drops the first bucket and recycles it, emptied, at the back. */
  function AdvanceQueue<M>(q: Buckets<M>): Buckets<M> {
    if q == [] then q else q[1..] + [[]]
  }

  /** The queue as a map from sequence number to FIFO. */
  ghost function Fifo<M>(q: Buckets<M>, curr: SeqNo, s: SeqNo): seq<M> {
    match Index(s, curr)
    case At(i) => if i < |q| then q[i] else []
    case _ => []
  }

  /** Bucket `i` holds only messages `i` steps ahead, in at most 1501 buckets. */
  ghost predicate Aligned<M>(q: Buckets<M>, curr: SeqNo, number: M -> SeqNo) {
    && |q| <= DROP_SEQNO_THRES + 1
    && forall i, k :: 0 <= i < |q| && 0 <= k < |q[i]| ==> Index(number(q[i][k]), curr) == At(i)
  }

  lemma QueueAppendsToFifo<M>(curr: SeqNo, q: Buckets<M>, m: M, number: M -> SeqNo, s: SeqNo)
    requires Aligned(q, curr, number)
    ensures var q' := QueueMessage(curr, q, number(m), m);
            && Aligned(q', curr, number)
            && Fifo(q', curr, s) == if Index(s, curr).At? && Index(s, curr) == Index(number(m), curr)
                                    then Fifo(q, curr, s) + [m] else Fifo(q, curr, s)
  {
  }

  lemma PopTakesOldest<M>(q: Buckets<M>, curr: SeqNo, number: M -> SeqNo, s: SeqNo)
    requires Aligned(q, curr, number)
    ensures var (m, q') := PopMessage(q);
            && Aligned(q', curr, number)
            && (m == None <==> Fifo(q, curr, curr) == [])
            && (m.Some? ==> Fifo(q, curr, curr)[0] == m.value && Index(number(m.value), curr) == At(0))
            && Fifo(q', curr, s) == if m.Some? && Index(s, curr) == At(0)
                                    then Fifo(q, curr, s)[1..] else Fifo(q, curr, s)
  {
  }

  /** Seen from `k` numbers further on, every position moves `k` buckets forward. */
  lemma IndexShift(s: SeqNo, curr: SeqNo, to: SeqNo, k: nat, i: nat)
    requires Index(to, curr) == At(k)
    ensures Index(s, to) == At(i) && k + i <= DROP_SEQNO_THRES <==> Index(s, curr) == At(k + i)
  {
    IndexIsOffset(to, curr, k);
    IndexIsOffset(s, curr, k + i);
    IndexIsOffset(s, to, i);
  }

  lemma JumpKeepsAlignment<M>(q: Buckets<M>, curr: SeqNo, to: SeqNo, k: nat, number: M -> SeqNo)
    requires Aligned(q, curr, number)
    requires Index(to, curr) == At(k) && k <= |q|
    ensures Aligned(q[k..], to, number)
  {
    forall i, j | 0 <= i < |q[k..]| && 0 <= j < |q[k..][i]|
      ensures Index(number(q[k..][i][j]), to) == At(i)
    {
      assert q[k..][i] == q[k + i];
      IndexShift(number(q[k + i][j]), curr, to, k, i);
    }
  }

  /** Moving on by `k` numbers drops exactly the first `k` FIFOs: nothing else is
      lost, duplicated or filed under another number. */
  lemma JumpKeepsLaterFifos<M>(q: Buckets<M>, curr: SeqNo, to: SeqNo, k: nat, s: SeqNo)
    requires |q| <= DROP_SEQNO_THRES + 1
    requires Index(to, curr) == At(k) && k <= |q|
    ensures Fifo(q[k..], to, s) == if Index(s, to).At? then Fifo(q, curr, s) else []
  {
    var p, p0 := Index(s, to), Index(s, curr);
    if p.At? { IndexShift(s, curr, to, k, p.bucket); }
    if p.At? && p0.At? && p0.bucket >= k { IndexShift(s, curr, to, k, p0.bucket - k); }
    if p.At? && p0.At? && p0.bucket < k { SameNumber(s, curr, to, k, p0.bucket, p.bucket); }
  }

  /** No number is both before and after the jump target within the window. */
  lemma SameNumber(s: SeqNo, curr: SeqNo, to: SeqNo, k: nat, i: nat, j: nat)
    requires Index(to, curr) == At(k) && Index(s, curr) == At(i) && Index(s, to) == At(j)
    ensures i == k + j
  {
    IndexIsOffset(to, curr, k);
    IndexIsOffset(s, curr, i);
    IndexIsOffset(s, to, j);
  }

  /** Advancing to the next instance forgets the current number and keeps every other FIFO. */
  lemma AdvanceKeepsLaterFifos<M>(q: Buckets<M>, curr: SeqNo, number: M -> SeqNo, s: SeqNo)
    requires Aligned(q, curr, number)
    ensures Aligned(AdvanceQueue(q), Next(curr), number)
    ensures Fifo(AdvanceQueue(q), Next(curr), s) ==
            if Index(s, curr) == At(0) then [] else Fifo(q, curr, s)
  {
    IndexIsOffset(Next(curr), curr, 1);
    if q != [] {
      JumpKeepsAlignment(q, curr, Next(curr), 1, number);
      JumpKeepsLaterFifos(q, curr, Next(curr), 1, s);
    }
    var p := Index(s, Next(curr));
    if p.At? { IndexShift(s, curr, Next(curr), 1, p.bucket); }
    if Index(s, curr).At? && Index(s, curr).bucket > 0 {
      IndexShift(s, curr, Next(curr), 1, Index(s, curr).bucket - 1);
    }
  }

  // ---- what a queue holds, as a multiset ------------------------------

  ghost function Contents<M>(q: Buckets<M>): multiset<M> {
    if q == [] then multiset{} else Contents(q[..|q| - 1]) + multiset(q[|q| - 1])
  }

  lemma {:induction false} ContentsUpdate<M>(q: Buckets<M>, i: nat, b: seq<M>)
    requires i < |q|
    ensures Contents(q[i := b]) + multiset(q[i]) == Contents(q) + multiset(b)
  {
    var q', n := q[i := b], |q|;
    if i == n - 1 {
      assert q'[..n - 1] == q[..n - 1];
    } else {
      var q0 := q[..n - 1];
      assert q'[..n - 1] == q0[i := b] && q0[i] == q[i];
      ContentsUpdate(q0, i, b);
      var last := multiset(q[n - 1]);
      assert Contents(q') == Contents(q0[i := b]) + last && Contents(q) == Contents(q0) + last;
      assert Contents(q') + multiset(q[i]) == (Contents(q0[i := b]) + multiset(q[i])) + last;
    }
  }

  lemma {:induction false} ContentsPadded<M>(q: Buckets<M>, len: nat)
    ensures Contents(Padded(q, len)) == Contents(q)
  {
    if len > |q| {
      var p := Padded(q, len);
      assert p[..len - 1] == Padded(q, len - 1);
      ContentsPadded(q, len - 1);
    }
  }

  lemma {:induction false} ContentsTail<M>(q: Buckets<M>)
    requires q != []
    ensures Contents(q) == multiset(q[0]) + Contents(q[1..])
  {
    var n := |q|;
    if n > 1 {
      assert q[..n - 1][1..] == q[1..][..n - 2];
      ContentsTail(q[..n - 1]);
    }
  }

  lemma ContentsAppend<M>(q: Buckets<M>, i: nat, m: M)
    requires i < |q|
    ensures Contents(q[i := q[i] + [m]]) == Contents(q) + multiset{m}
  {
    ContentsUpdate(q, i, q[i] + [m]);
    Counting.MultisetCancel(Contents(q[i := q[i] + [m]]), Contents(q) + multiset{m}, multiset(q[i]));
  }

  /** Filing adds the message once, or drops it. */
  lemma QueueContents<M>(curr: SeqNo, q: Buckets<M>, s: SeqNo, m: M)
    ensures Contents(QueueMessage(curr, q, s, m)) <= Contents(q) + multiset{m}
  {
    var at := Index(s, curr);
    if at.At? {
      ContentsPadded(q, at.bucket + 1);
      ContentsAppend(Padded(q, at.bucket + 1), at.bucket, m);
    }
  }

  /** Popping takes the message out of the queue, once. */
  lemma PopContents<M>(q: Buckets<M>)
    ensures var (m, q') := PopMessage(q);
            Contents(q) == Contents(q') + if m.Some? then multiset{m.value} else multiset{}
  {
    if q != [] && q[0] != [] {
      var x, rest := q[0][0], q[0][1..];
      assert multiset(q[0]) == multiset{x} + multiset(rest) by { assert q[0] == [x] + rest; }
      var more := Contents(q[0 := rest]) + multiset{x};
      assert more + multiset(rest) == Contents(q) + multiset(rest) by {
        ContentsUpdate(q, 0, rest);
        assert more + multiset(rest) == Contents(q[0 := rest]) + multiset(q[0]);
      }
      Counting.MultisetCancel(more, Contents(q), multiset(rest));
    }
  }

  lemma AdvanceContents<M>(q: Buckets<M>)
    ensures Contents(AdvanceQueue(q)) <= Contents(q)
  {
    if q != [] {
      ContentsTail(q);
      assert (q[1..] + [[]])[..|q| - 1] == q[1..];
    }
  }
}
