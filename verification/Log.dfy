/** The message log of a replica: the request pool, the decided operations and
    the local checkpoint (src/bft/consensus/log/mod.rs, `Log`). */
module Logs {
  import opened Wrappers
  import opened Ordering
  import opened Core
  import opened Messages
  import opened DecisionLogs

  datatype Update = Update(from: NodeId, digest: Digest, operation: Operation)

  // ---- the request pool -------------------------------------------------

  datatype Entry = Entry(digest: Digest, request: Request)

  /** `requests` keeps insertion order; `deciding` is the batch being proposed. */
  datatype Pool = Pool(requests: seq<Entry>, deciding: map<Digest, Request>)

  function Find(entries: seq<Entry>, d: Digest): (r: Option<nat>)
    ensures r.Some? ==> r.value < |entries| && entries[r.value].digest == d
    ensures r.None? ==> forall i :: 0 <= i < |entries| ==> entries[i].digest != d
  {
    if entries == [] then None
    else if entries[|entries| - 1].digest == d then Some(|entries| - 1)
    else Find(entries[..|entries| - 1], d)
  }

  function Without(entries: seq<Entry>, d: Digest): seq<Entry> {
    match Find(entries, d)
    case None => entries
    case Some(i) => entries[..i] + entries[i + 1..]
  }

  ghost predicate UniqueKeys(entries: seq<Entry>) {
    forall i, j :: 0 <= i < j < |entries| ==> entries[i].digest != entries[j].digest
  }

  function Lookup(entries: seq<Entry>, d: Digest): Option<Request> {
    match Find(entries, d)
    case None => None
    case Some(i) => Some(entries[i].request)
  }

  function Get(pool: Pool, d: Digest): Option<Request> {
    if d in pool.deciding then Some(pool.deciding[d]) else Lookup(pool.requests, d)
  }

  predicate HasRequest(pool: Pool, d: Digest) {
    d in pool.deciding || Find(pool.requests, d).Some?
  }

  /** No request is both waiting and being decided, or waiting twice. */
  ghost predicate ValidPool(pool: Pool) {
    && UniqueKeys(pool.requests)
    && (forall i :: 0 <= i < |pool.requests| ==> pool.requests[i].digest !in pool.deciding)
  }

  ghost predicate GenuinePool(pool: Pool) {
    && (forall i :: 0 <= i < |pool.requests| ==> Files(pool.requests[i].digest, pool.requests[i].request))
    && (forall d :: d in pool.deciding ==> Files(d, pool.deciding[d]))
  }

  /** `r` is filed under its own unique digest, by a header that hashes its operation. */
  predicate Files(d: Digest, r: Request) {
    d == r.header.UniqueDigest() && GenuineRequest(r)
  }

  function AddRequest(pool: Pool, r: Request): Pool {
    var d := r.header.UniqueDigest();
    Pool(Without(pool.requests, d) + [Entry(d, r)], pool.deciding - {d})
  }

  /** The front request moves to the batch being decided. */
  function PopRequest(pool: Pool): Pool {
    if pool.requests == [] then pool
    else Pool(pool.requests[1..], pool.deciding[pool.requests[0].digest := pool.requests[0].request])
  }

  function TakeOne(pool: Pool, d: Digest): (Option<Request>, Pool) {
    if d in pool.deciding then (Some(pool.deciding[d]), pool.(deciding := pool.deciding - {d}))
    else match Find(pool.requests, d)
         case None => (None, pool)
         case Some(i) => (Some(pool.requests[i].request), pool.(requests := Without(pool.requests, d)))
  }

  /** Removes the requests of a batch in proposal order; stops at the first one missing. */
  function TakeAll(pool: Pool, ds: seq<Digest>): (Option<seq<Update>>, Pool) {
    if ds == [] then (Some([]), pool)
    else
      var d := ds[|ds| - 1];
      match TakeAll(pool, ds[..|ds| - 1])
      case (None, p) => (None, p)
      case (Some(batch), p) =>
        match TakeOne(p, d)
        case (None, p') => (None, p')
        case (Some(r), p') => (Some(batch + [Update(r.header.from, d, r.message)]), p')
  }

  // ---- the whole log ----------------------------------------------------

  datatype Checkpoint<+S> = Checkpoint(seqNo: SeqNo, appstate: S)

  datatype CheckpointState<+S> =
    | NoCheckpoint
    | Partial(seqNo: SeqNo)
    | PartialWithEarlier(seqNo: SeqNo, earlier: Checkpoint<S>)
    | Complete(checkpoint: Checkpoint<S>)

  datatype LogValue<+S> = LogValue(
    currSeq: SeqNo, batchSize: nat, declog: Declog, pool: Pool,
    decided: seq<Operation>, checkpoint: CheckpointState<S>)

  function EmptyLog<S>(batchSize: nat): LogValue<S> {
    LogValue(0, batchSize, EMPTY_LOG, Pool([], map[]), [], NoCheckpoint)
  }

  datatype Info = Nil | BeginCheckpoint

  datatype Finalized = Finalized(info: Info, batch: seq<Update>)

  /** The number `finalize_batch` takes for the instance being decided. */
  function LastSeqNo<S>(log: LogValue<S>): SeqNo {
    LastNumber(log.declog.prePrepares, log.currSeq)
  }

  function LastNumber(prePrepares: seq<Msg>, saved: SeqNo): SeqNo {
    if prePrepares != [] then Number(prePrepares[|prePrepares| - 1]) else saved
  }

  predicate CheckpointDue(s: SeqNo) {
    s > 0 && s % PERIOD == 0
  }

  /** On the error path the source has already reset the checkpoint state. */
  function Begin<S>(state: CheckpointState<S>, s: SeqNo): (bool, CheckpointState<S>) {
    match state
    case NoCheckpoint => (true, Partial(s))
    case Complete(earlier) => (true, PartialWithEarlier(s, earlier))
    case _ => (false, NoCheckpoint)
  }

  function Operations(batch: seq<Update>): seq<Operation> {
    seq(|batch|, i requires 0 <= i < |batch| => batch[i].operation)
  }

  /** `finalize_batch`; the first component is `None` on an error. */
  function FinalizeBatch<S>(log: LogValue<S>, s: SeqNo, ds: seq<Digest>)
    : (Option<Finalized>, LogValue<S>)
  {
    match TakeAll(log.pool, ds)
    case (None, p) => (None, log.(pool := p))
    case (Some(batch), p) =>
      var log1 := log.(pool := p, decided := log.decided + Operations(batch));
      var log2 := log1.(declog := log.declog.(lastExec := Some(s)));
      if CheckpointDue(LastSeqNo(log)) then
        match Begin(log.checkpoint, LastSeqNo(log))
        case (false, c) => (None, log1.(checkpoint := c))
        case (true, c) => (Some(Finalized(BeginCheckpoint, batch)), log2.(checkpoint := c))
      else (Some(Finalized(Nil, batch)), log2)
  }

  /** `finalize_checkpoint`: the decision log is emptied, whatever instance is running. */
  function FinalizeCheckpoint<S>(log: LogValue<S>, appstate: S): Option<LogValue<S>> {
    if log.checkpoint.NoCheckpoint? || log.checkpoint.Complete? then None
    else Some(log.(
      checkpoint := Complete(Checkpoint(log.checkpoint.seqNo, appstate)),
      decided := [],
      currSeq := LastSeqNo(log),
      declog := log.declog.(prePrepares := [], prepares := [], commits := [])))
  }

  datatype RecoveryState<+S> = RecoveryState(
    view: ViewInfo, checkpoint: Checkpoint<S>, requests: seq<Operation>, declog: Declog)

  function Snapshot<S>(log: LogValue<S>, view: ViewInfo): Option<RecoveryState<S>> {
    match log.checkpoint
    case Complete(c) => Some(RecoveryState(view, c, log.decided, log.declog))
    case _ => None
  }

  function InstallState<S>(log: LogValue<S>, last: SeqNo, rs: RecoveryState<S>): LogValue<S> {
    log.(declog := rs.declog, decided := rs.requests, checkpoint := Complete(rs.checkpoint), currSeq := last)
  }

  // ---- the log as an object ---------------------------------------------

  class Log<S> {
    var currSeq: SeqNo
    const batchSize: nat
    const declog: DecisionLog
    var requests: seq<Entry>
    var deciding: map<Digest, Request>
    var decided: seq<Operation>
    var checkpoint: CheckpointState<S>

    constructor (batchSize: nat)
      ensures Value() == EmptyLog(batchSize) && fresh(declog)
    {
      this.batchSize := batchSize;
      declog := new DecisionLog();
      currSeq, requests, deciding, decided, checkpoint := 0, [], map[], [], NoCheckpoint;
    }

    ghost function Value(): LogValue<S>
      reads this, declog
    {
      LogValue(currSeq, batchSize, declog.Value(), Pool(requests, deciding), decided, checkpoint)
    }

    method InsertRequest(r: Request)
      modifies this
      ensures Value() == old(Value()).(pool := AddRequest(old(Value()).pool, r))
    {
      var d := r.header.UniqueDigest();
      requests := Without(requests, d) + [Entry(d, r)];
      deciding := deciding - {d};
    }

    /** `next_batch`: hash map order is arbitrary, so any `batchSize` keys may be proposed. */
    method NextBatch() returns (batch: Option<seq<Digest>>)
      modifies this
      ensures Value() == old(Value()).(pool := PopRequest(old(Value()).pool))
      ensures batch.Some? <==> old(requests) != [] && |deciding| >= batchSize
      ensures batch.Some? ==> |batch.value| == batchSize && Distinct(batch.value)
      ensures batch.Some? ==> forall i :: 0 <= i < |batch.value| ==> batch.value[i] in deciding
    {
      if requests == [] { return None; }
      deciding := deciding[requests[0].digest := requests[0].request];
      requests := requests[1..];
      if |deciding| < batchSize { return None; }
      var rest := deciding.Keys;
      var digests := [];
      while |digests| < batchSize
        invariant |digests| <= batchSize && |rest| + |digests| == |deciding|
        invariant rest <= deciding.Keys && Distinct(digests)
        invariant forall i :: 0 <= i < |digests| ==> digests[i] in deciding && digests[i] !in rest
        invariant Value() == old(Value()).(pool := PopRequest(old(Value()).pool))
      {
        var d :| d in rest;
        rest := rest - {d};
        digests := digests + [d];
      }
      batch := Some(digests);
    }

    /** The removal loop of `finalize_batch`. */
    method TakeBatch(ds: seq<Digest>) returns (r: Option<seq<Update>>)
      modifies this
      ensures (r, Pool(requests, deciding)) == TakeAll(old(Value()).pool, ds)
      ensures Value() == old(Value()).(pool := Pool(requests, deciding))
    {
      var batch := [];
      var i := 0;
      while i < |ds|
        invariant 0 <= i <= |ds|
        invariant TakeAll(old(Value()).pool, ds[..i]) == (Some(batch), Pool(requests, deciding))
        invariant Value() == old(Value()).(pool := Pool(requests, deciding))
      {
        assert ds[..i + 1][..i] == ds[..i];
        var d := ds[i];
        var taken: Request;
        if d in deciding {
          taken := deciding[d];
          deciding := deciding - {d};
        } else {
          var at := Find(requests, d);
          if at.None? {
            TakeAllStops(old(Value()).pool, ds, i + 1);
            return None;
          }
          taken := requests[at.value].request;
          requests := Without(requests, d);
        }
        batch := batch + [Update(taken.header.from, d, taken.message)];
        i := i + 1;
      }
      assert ds[..|ds|] == ds;
      r := Some(batch);
    }

    /** `finalize_batch`, with its copy into `decided` and its two error paths. */
    method Finalize(s: SeqNo, ds: seq<Digest>) returns (r: Option<Finalized>)
      modifies this, declog
      ensures r == FinalizeBatch(old(Value()), s, ds).0
      ensures Value() == FinalizeBatch(old(Value()), s, ds).1
    {
      var batch := TakeBatch(ds);
      if batch.None? { return None; }
      decided := decided + Operations(batch.value);
      var n := |declog.prePrepares|;
      var last := if n > 0 then Number(declog.prePrepares[n - 1]) else currSeq;
      var info := Nil;
      if last > 0 && last % PERIOD == 0 {
        var earlier := checkpoint;
        checkpoint := NoCheckpoint;
        match earlier {
          case NoCheckpoint => checkpoint := Partial(last);
          case Complete(c) => checkpoint := PartialWithEarlier(last, c);
          case _ => return None;
        }
        info := BeginCheckpoint;
      }
      declog.lastExec := Some(s);
      r := Some(Finalized(info, batch.value));
    }

    /** `finalize_checkpoint`; false when no checkpoint was pending. */
    method EndCheckpoint(appstate: S) returns (ok: bool)
      modifies this, declog
      ensures var r := FinalizeCheckpoint(old(Value()), appstate);
              ok == r.Some? && Value() == if ok then r.value else old(Value())
    {
      if checkpoint.NoCheckpoint? || checkpoint.Complete? { return false; }
      checkpoint := Complete(Checkpoint(checkpoint.seqNo, appstate));
      decided := [];
      var n := |declog.prePrepares|;
      if n > 0 { currSeq := Number(declog.prePrepares[n - 1]); }
      declog.prePrepares, declog.prepares, declog.commits := [], [], [];
      ok := true;
    }

    method Install(last: SeqNo, rs: RecoveryState<S>)
      modifies this, declog
      ensures Value() == InstallState(old(Value()), last, rs)
    {
      declog.lastExec, declog.prePrepares := rs.declog.lastExec, rs.declog.prePrepares;
      declog.prepares, declog.commits := rs.declog.prepares, rs.declog.commits;
      decided := rs.requests;
      checkpoint := Complete(rs.checkpoint);
      currSeq := last;
    }
  }

  ghost predicate Distinct<T>(s: seq<T>) {
    forall i, j :: 0 <= i < j < |s| ==> s[i] != s[j]
  }

  lemma {:induction false} TakeAllStops(pool: Pool, ds: seq<Digest>, n: nat)
    requires n <= |ds| && TakeAll(pool, ds[..n]).0.None?
    ensures TakeAll(pool, ds) == TakeAll(pool, ds[..n])
  {
    if n == |ds| {
      assert ds[..n] == ds;
    } else {
      assert ds[..|ds| - 1][..n] == ds[..n];
      TakeAllStops(pool, ds[..|ds| - 1], n);
    }
  }

  // ---- request conservation ---------------------------------------------

  lemma WithoutExact(entries: seq<Entry>, d: Digest, e: Digest)
    requires UniqueKeys(entries)
    ensures UniqueKeys(Without(entries, d))
    ensures Lookup(Without(entries, d), e) == if e == d then None else Lookup(entries, e)
    ensures forall i :: 0 <= i < |Without(entries, d)| ==> Without(entries, d)[i] in entries
  {
    var rest := Without(entries, d);
    if Find(entries, d).Some? {
      var k := Find(entries, d).value;
      assert forall i :: 0 <= i < |rest| ==> rest[i] == if i < k then entries[i] else entries[i + 1];
      if e != d && Find(entries, e).Some? {
        var j := Find(entries, e).value;
        assert rest[if j < k then j else j - 1] == entries[j];
      }
    }
  }

  /** Filing a request keeps the pool free of duplicates. */
  lemma AddRequestKeepsValid(pool: Pool, r: Request)
    requires ValidPool(pool)
    ensures ValidPool(AddRequest(pool, r))
  {
    var d := r.header.UniqueDigest();
    WithoutExact(pool.requests, d, d);
    assert forall i :: 0 <= i < |Without(pool.requests, d)| ==> Without(pool.requests, d)[i].digest != d;
  }

  /** A new request joins the pool, replacing an older copy wherever it was. */
  lemma AddRequestExact(pool: Pool, r: Request, e: Digest)
    requires ValidPool(pool)
    ensures Get(AddRequest(pool, r), e) ==
            if e == r.header.UniqueDigest() then Some(r) else Get(pool, e)
  {
    var d := r.header.UniqueDigest();
    WithoutExact(pool.requests, d, e);
    AppendLookup(Without(pool.requests, d), Entry(d, r), e);
  }

  lemma AppendLookup(entries: seq<Entry>, x: Entry, e: Digest)
    ensures Lookup(entries + [x], e) == if e == x.digest then Some(x.request) else Lookup(entries, e)
  {
    assert (entries + [x])[..|entries|] == entries;
  }

  /** Moving the front request into the batch loses and duplicates nothing. */
  lemma PopRequestExact(pool: Pool, e: Digest)
    requires ValidPool(pool)
    ensures ValidPool(PopRequest(pool))
    ensures Get(PopRequest(pool), e) == Get(pool, e)
  {
    if pool.requests != [] {
      var tail := pool.requests[1..];
      assert forall i :: 0 <= i < |tail| ==> tail[i] == pool.requests[i + 1];
      if pool.requests[0].digest != e { TailLookup(pool.requests, e); }
    }
  }

  lemma TailLookup(entries: seq<Entry>, e: Digest)
    requires UniqueKeys(entries) && entries != [] && entries[0].digest != e
    ensures Lookup(entries[1..], e) == Lookup(entries, e)
  {
    var tail := entries[1..];
    assert forall i :: 0 <= i < |tail| ==> tail[i] == entries[i + 1];
    if Find(entries, e).Some? { assert tail[Find(entries, e).value - 1].digest == e; }
  }

  lemma TakeOneExact(pool: Pool, d: Digest, e: Digest)
    requires ValidPool(pool)
    ensures var (r, p) := TakeOne(pool, d);
            && ValidPool(p)
            && r == Get(pool, d)
            && Get(p, e) == if e == d then None else Get(pool, e)
  {
    if d in pool.deciding { TakeDeciding(pool, d, e); } else { TakeWaiting(pool, d, e); }
  }

  lemma TakeDeciding(pool: Pool, d: Digest, e: Digest)
    requires ValidPool(pool) && d in pool.deciding
    ensures var p := pool.(deciding := pool.deciding - {d});
            ValidPool(p) && Get(p, e) == if e == d then None else Get(pool, e)
  {
    assert Find(pool.requests, d).None?;
  }

  lemma TakeWaiting(pool: Pool, d: Digest, e: Digest)
    requires ValidPool(pool) && d !in pool.deciding
    ensures var p := pool.(requests := Without(pool.requests, d));
            ValidPool(p) && Get(p, e) == if e == d then None else Get(pool, e)
  {
    WithoutExact(pool.requests, d, e);
    var rest := Without(pool.requests, d);
    forall i | 0 <= i < |rest| ensures rest[i].digest !in pool.deciding {
      assert rest[i] in pool.requests;
    }
  }

  /** A batch with distinct digests is taken exactly when all its requests are in
      the pool; it comes out in proposal order, and just those requests leave. */
  lemma {:induction false} TakeAllExact(pool: Pool, ds: seq<Digest>, e: Digest)
    requires ValidPool(pool) && Distinct(ds)
    ensures var (r, p) := TakeAll(pool, ds);
            && ValidPool(p)
            && (r.Some? <==> forall i :: 0 <= i < |ds| ==> HasRequest(pool, ds[i]))
            && (r.Some? ==> IsBatch(pool, ds, r.value))
            && (r.Some? ==> Get(p, e) == if e in ds then None else Get(pool, e))
  {
    if ds != [] {
      var d, ds0 := ds[|ds| - 1], ds[..|ds| - 1];
      assert ds == ds0 + [d];
      TakeAllExact(pool, ds0, e);
      TakeAllExact(pool, ds0, d);
      var p := TakeAll(pool, ds0).1;
      TakeOneExact(p, d, e);
      assert forall i :: 0 <= i < |ds0| ==> ds0[i] == ds[i];
    }
  }

  /** `batch` is the operations filed under `ds`, in that order. */
  ghost predicate IsBatch(pool: Pool, ds: seq<Digest>, batch: seq<Update>) {
    && |batch| == |ds|
    && forall i :: 0 <= i < |ds| ==> Get(pool, ds[i]).Some? && batch[i] == UpdateFor(ds[i], Get(pool, ds[i]).value)
  }

  function UpdateFor(d: Digest, r: Request): Update {
    Update(r.header.from, d, r.message)
  }

  /** A request digest determines its operation, because hashing is injective. */
  lemma DigestFixesOperation(p: Pool, q: Pool, d: Digest)
    requires GenuinePool(p) && GenuinePool(q) && Get(p, d).Some? && Get(q, d).Some?
    ensures Get(p, d).value.message == Get(q, d).value.message
  {
    assert Files(d, Get(p, d).value) && Files(d, Get(q, d).value);
  }
}
