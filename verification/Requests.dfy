/** From digests to operations: what a decided proposal executes. */
module Requests {
  import opened Wrappers
  import opened Ordering
  import opened Core
  import opened Messages
  import opened DecisionLogs
  import opened Logs
  import opened NormalPhase
  import opened Replicas
  import opened ReplicaInvariants
  import opened Votes

  // ---- the requests of a running proposal are in the pool ----------------------

  ghost predicate AllIn(ds: seq<Digest>, pool: Pool) {
    forall d :: d in ds ==> HasRequest(pool, d)
  }

  ghost predicate PoolInv(r: Replica) {
    && ValidPool(r.log.pool)
    && (r.cons.phase.PreparingRequests? ==>
          forall d :: d in r.cons.current ==> HasRequest(r.log.pool, d) || d in r.cons.missing)
    && (r.checked && (r.cons.phase.Preparing? || r.cons.phase.Committing?) ==>
          r.cons.batchSize <= |r.cons.current| && AllIn(r.cons.current[..r.cons.batchSize], r.log.pool))
  }

  lemma {:induction false} TakeAllKeepsValid(pool: Pool, ds: seq<Digest>)
    requires ValidPool(pool)
    ensures ValidPool(TakeAll(pool, ds).1)
  {
    if ds != [] {
      TakeAllKeepsValid(pool, ds[..|ds| - 1]);
      TakeOneExact(TakeAll(pool, ds[..|ds| - 1]).1, ds[|ds| - 1], Zero);
    }
  }

  lemma AbsorbKeepsPool(r: Replica, m: Msg)
    requires Sane(r) && PoolInv(r)
    requires Classify(r.cons, m.message, r.view.seqNo) == Accepted && Fits(r.cons, m.message)
    ensures Absorb(r, m).Some? ==> PoolInv(Absorb(r, m).value.replica)
  {
    AbsorbCases(r, m);
    if r.cons.phase.Committing? {
      TakeAllKeepsValid(r.log.pool, r.cons.current[..r.cons.batchSize]);
    }
  }

  lemma ReceiveKeepsPool(r: Replica, m: Msg)
    requires Sane(r) && PoolInv(r)
    ensures Receive(r, m).Some? ==> PoolInv(Receive(r, m).value.replica)
  {
    if Classify(r.cons, m.message, r.view.seqNo) == Accepted && Fits(r.cons, m.message) {
      AbsorbKeepsPool(r, m);
    }
  }

  /** A digest still absent survives the pruning of a poll. */
  lemma AbsentStays(missing: seq<Digest>, pool: Pool, d: Digest)
    requires d in missing && !HasRequest(pool, d)
    ensures d in Prune(missing, pool)
  {
    PruneProgress(missing, pool, d);
    assert d in multiset(missing);
    assert d in multiset(Prune(missing, pool));
  }

  lemma PollWaits(c: Instance, pool: Pool)
    ensures c.phase.PreparingRequests? ==> Poll(c, pool).1.missing == Prune(c.missing, pool)
  {
  }

  lemma PollPool(r: Replica)
    requires PoolInv(r) && r.cons.batchSize <= |r.cons.current|
    ensures PoolInv(r.(cons := Poll(r.cons, r.log.pool).1))
  {
    PollIsQuiet(r);
    PollWaits(r.cons, r.log.pool);
    var c := Poll(r.cons, r.log.pool).1;
    if r.cons.phase.PreparingRequests? {
      forall d | d in r.cons.current && !HasRequest(r.log.pool, d) ensures d in c.missing {
        AbsentStays(r.cons.missing, r.log.pool, d);
      }
    }
  }

  lemma PoolGrows(pool: Pool, q: Request)
    requires ValidPool(pool)
    ensures forall d :: HasRequest(pool, d) ==> HasRequest(AddRequest(pool, q), d)
    ensures forall d :: HasRequest(PopRequest(pool), d) <==> HasRequest(pool, d)
  {
    forall d | HasRequest(pool, d) ensures HasRequest(AddRequest(pool, q), d) {
      AddRequestExact(pool, q, d);
      assert Get(AddRequest(pool, q), d).Some?;
    }
    forall d ensures HasRequest(PopRequest(pool), d) <==> HasRequest(pool, d) {
      PopRequestExact(pool, d);
      assert Get(PopRequest(pool), d).Some? <==> Get(pool, d).Some?;
    }
  }

  /** `requests` and `deciding` stay disjoint, and the requests of a proposal that
      passed the check stay in the pool until it is decided. */
  lemma StepKeepsPool(r: Replica, e: Event)
    requires Sane(r) && PoolInv(r)
    ensures Step(r, e).Some? ==> PoolInv(Step(r, e).value.replica)
  {
    match e
    case Deliver(m) => ReceiveKeepsPool(r.(received := r.received + {m}), m);
    case PollQueue =>
      PollPool(r);
      PollIsQuiet(r);
      var (status, c) := Poll(r.cons, r.log.pool);
      if status.NextMessage? { ReceiveKeepsPool(r.(cons := c), status.message); }
    case ClientRequest(q) =>
      PoolGrows(r.log.pool, q);
      AddRequestKeepsValid(r.log.pool, q);
    case TryPropose(_) =>
      PoolGrows(r.log.pool, Stored(Header(0, Zero, 0), Operation([])));
      PopRequestExact(r.log.pool, Zero);
    case _ =>
  }

  /** A decided proposal that passed the check, with distinct digests, finds all its
      requests, in proposal order. Finalizing it fails only when a checkpoint is due
      while the previous one is still waiting for the application state. */
  lemma DecisionFindsRequests(r: Replica)
    requires Sane(r) && PoolInv(r) && r.checked && (r.cons.phase.Preparing? || r.cons.phase.Committing?)
    requires Distinct(r.cons.current[..r.cons.batchSize])
    ensures var ds := r.cons.current[..r.cons.batchSize];
            var batch := TakeAll(r.log.pool, ds).0;
            && batch.Some? && IsBatch(r.log.pool, ds, batch.value)
            && forall s :: FinalizeBatch(r.log, s, ds).0.None? <==>
                 CheckpointDue(LastSeqNo(r.log)) && (r.log.checkpoint.Partial? || r.log.checkpoint.PartialWithEarlier?)
  {
    var ds := r.cons.current[..r.cons.batchSize];
    TakeAllExact(r.log.pool, ds, Zero);
    assert forall i :: 0 <= i < |ds| ==> ds[i] in ds;
  }

  lemma {:induction false} HistoryKeepsPool(
    trace: seq<Replica>, events: seq<Event>, me: NodeId, view: ViewInfo, batchSize: nat, k: nat)
    requires History(trace, events, me, view, batchSize) && k < |trace|
    ensures PoolInv(trace[k])
  {
    if k > 0 {
      assert Follows(trace[k - 1], events[k - 1], trace[k]);
      HistoryKeepsPool(trace, events, me, view, batchSize, k - 1);
      StepKeepsPool(trace[k - 1], events[k - 1]);
    }
  }

  /** In every history the two halves of the pool are disjoint, and whenever a proposal
      of the normal phase with distinct digests is up for decision, taking its batch
      finds every request in proposal order and removes exactly those. */
  lemma RequestsConserved(
    trace: seq<Replica>, events: seq<Event>, me: NodeId, view: ViewInfo, batchSize: nat, k: nat, e: Digest)
    requires History(trace, events, me, view, batchSize) && k < |trace| && Sane(trace[k])
    ensures ValidPool(trace[k].log.pool)
    ensures var r := trace[k];
            var ds := r.cons.current[..r.cons.batchSize];
            r.checked && (r.cons.phase.Preparing? || r.cons.phase.Committing?) && Distinct(ds) ==>
              var (batch, pool) := TakeAll(r.log.pool, ds);
              && batch.Some? && IsBatch(r.log.pool, ds, batch.value)
              && ValidPool(pool) && Get(pool, e) == if e in ds then None else Get(r.log.pool, e)
  {
    HistoryKeepsPool(trace, events, me, view, batchSize, k);
    var r := trace[k];
    var ds := r.cons.current[..r.cons.batchSize];
    if r.checked && (r.cons.phase.Preparing? || r.cons.phase.Committing?) && Distinct(ds) {
      DecisionFindsRequests(r);
      TakeAllExact(r.log.pool, ds, e);
    }
  }

  // ---- digests fix operations ------------------------------------------------------

  /** The operation hashed into a request digest. */
  function OperationOf(d: Digest): Operation {
    if d.Entropy? && d.of.OfOperation? then d.of.op else Operation([])
  }

  function OperationsOf(ds: seq<Digest>): seq<Operation> {
    seq(|ds|, i requires 0 <= i < |ds| => OperationOf(ds[i]))
  }

  lemma {:induction false} GenuineBatch(pool: Pool, ds: seq<Digest>)
    requires GenuinePool(pool)
    ensures GenuinePool(TakeAll(pool, ds).1)
    ensures var batch := TakeAll(pool, ds).0;
            batch.Some? ==> Operations(batch.value) == OperationsOf(ds)
  {
    if ds != [] {
      var d, ds0 := ds[|ds| - 1], ds[..|ds| - 1];
      GenuineBatch(pool, ds0);
      var p := TakeAll(pool, ds0).1;
      GenuineTake(p, d);
      var batch0, batch := TakeAll(pool, ds0).0, TakeAll(pool, ds).0;
      if batch.Some? {
        assert batch.value[..|ds0|] == batch0.value;
        assert Operations(batch.value) == Operations(batch0.value) + [OperationOf(d)];
        assert OperationsOf(ds) == OperationsOf(ds0) + [OperationOf(d)];
      }
    }
  }

  lemma GenuineTake(pool: Pool, d: Digest)
    requires GenuinePool(pool)
    ensures var (r, p) := TakeOne(pool, d);
            GenuinePool(p) && (r.Some? ==> r.value.message == OperationOf(d))
  {
    var (r, p) := TakeOne(pool, d);
    if r.Some? { assert Files(d, r.value); }
    assert forall i :: 0 <= i < |p.requests| ==> p.requests[i] in pool.requests;
  }

  /** A decision names the proposal its digest hashes, and executes those operations. */
  predicate Explained(d: Decision) {
    && d.digest == OfMessage(ConsensusMessage(d.seqNo, d.view, PrePrepare(d.requests)))
    && Operations(d.result.batch) == OperationsOf(d.requests)
  }

  ghost predicate DigestInv(r: Replica) {
    && r.cons.batchSize <= |r.cons.current|
    && (Active(r.cons) ==>
          r.cons.currentDigest ==
          OfMessage(ConsensusMessage(r.cons.tbo.currSeq, r.view.seqNo, PrePrepare(r.cons.current[..r.cons.batchSize]))))
    && (forall k :: 0 <= k < |r.decisions| ==> Explained(r.decisions[k]))
    && GenuinePool(r.log.pool)
    && GenuineLog(r.log.declog)
  }

  /** Every logged proposal, received or forged, carries the hash of its message. */
  ghost predicate GenuineLog(dl: Declog) {
    forall i :: 0 <= i < |dl.prePrepares| ==> Genuine(dl.prePrepares[i]) && dl.prePrepares[i].message.kind.PrePrepare?
  }

  lemma DecideExplained(r: Replica, ds: seq<Digest>)
    requires GenuinePool(r.log.pool)
    requires r.cons.currentDigest == OfMessage(ConsensusMessage(r.cons.tbo.currSeq, r.view.seqNo, PrePrepare(ds)))
    ensures var r' := Decide(r, ds);
            r'.Some? ==>
              && GenuinePool(r'.value.log.pool) && |r'.value.decisions| == |r.decisions| + 1
              && Explained(r'.value.decisions[|r.decisions|])
              && r'.value.decisions[..|r.decisions|] == r.decisions
  {
    GenuineBatch(r.log.pool, ds);
  }

  lemma AbsorbKeepsDigests(r: Replica, m: Msg)
    requires Sane(r) && DigestInv(r) && (m.message.kind.PrePrepare? ==> Genuine(m))
    requires Classify(r.cons, m.message, r.view.seqNo) == Accepted && Fits(r.cons, m.message)
    ensures Absorb(r, m).Some? ==> DigestInv(Absorb(r, m).value.replica)
  {
    AbsorbCases(r, m);
    if r.cons.phase.PrePreparing? {
      var c := AcceptProposal(r.cons, m, r.view, r.me, r.log.pool).state;
      assert c.current[..c.batchSize] == m.message.kind.requests;
    } else if r.cons.phase.Committing? {
      var r1 := Logged(r, m).(cons := AcceptCommit(r.cons, r.view).state);
      DecideExplained(r1, r.cons.current[..r.cons.batchSize]);
    }
  }

  lemma ReceiveKeepsDigests(r: Replica, m: Msg)
    requires Sane(r) && DigestInv(r) && (m.message.kind.PrePrepare? ==> Genuine(m))
    ensures Receive(r, m).Some? ==> DigestInv(Receive(r, m).value.replica)
  {
    if Classify(r.cons, m.message, r.view.seqNo) == Accepted && Fits(r.cons, m.message) {
      AbsorbKeepsDigests(r, m);
    }
  }

  /** Hypothesis: header digests hash their payload. */
  ghost predicate GenuineProposals(received: set<Msg>) {
    forall m :: m in received && m.message.kind.PrePrepare? ==> Genuine(m)
  }

  ghost predicate GenuineEvent(e: Event) {
    && (e.Deliver? && e.message.message.kind.PrePrepare? ==> Genuine(e.message))
    && (e.ClientRequest? ==> GenuineRequest(e.request))
  }

  lemma AddKeepsGenuine(pool: Pool, q: Request)
    requires GenuinePool(pool) && GenuineRequest(q)
    ensures GenuinePool(AddRequest(pool, q))
  {
    var d := q.header.UniqueDigest();
    assert Files(d, q);
    WithoutKeepsFiled(pool.requests, d);
  }

  ghost predicate AllFiled(entries: seq<Entry>) {
    forall i :: 0 <= i < |entries| ==> Files(entries[i].digest, entries[i].request)
  }

  lemma WithoutKeepsFiled(entries: seq<Entry>, d: Digest)
    requires AllFiled(entries)
    ensures AllFiled(Without(entries, d))
  {
    var at, rest := Find(entries, d), Without(entries, d);
    if at.Some? {
      forall i | 0 <= i < |rest| ensures Files(rest[i].digest, rest[i].request) {
        assert rest[i] == if i < at.value then entries[i] else entries[i + 1];
      }
    }
  }

  lemma PopKeepsGenuine(pool: Pool)
    requires GenuinePool(pool)
    ensures GenuinePool(PopRequest(pool))
  {
  }

  lemma QuietKeepsDigests(r: Replica, r': Replica)
    requires DigestInv(r) && Quiet(r, r') && GenuinePool(r'.log.pool)
    ensures DigestInv(r')
  {
  }

  lemma PollKeepsDigests(r: Replica)
    requires Sane(r) && DigestInv(r) && HeldInv(r, multiset{}) && GenuineProposals(r.received)
    ensures Step(r, PollQueue).Some? ==> DigestInv(Step(r, PollQueue).value.replica)
  {
    PollHolds(r);
    PollIsQuiet(r);
    var (status, c) := Poll(r.cons, r.log.pool);
    QuietKeepsDigests(r, r.(cons := c));
    if status.NextMessage? { ReceiveKeepsDigests(r.(cons := c), status.message); }
  }

  lemma ViewChangeKeepsDigests(
    r: Replica, view: SeqNo, cid: SeqNo, bound: Option<Digest>, proposed: seq<Digest>, nonce: nat)
    requires Sane(r) && DigestInv(r)
    ensures var x := FinishViewChange(r, view, cid, bound, proposed, nonce);
            x.Some? ==> DigestInv(x.value.replica)
  {
    var x := FinishViewChange(r, view, cid, bound, proposed, nonce);
    if x.Some? {
      var ds := Settled(r.log.declog, cid, bound, proposed);
      assert x.value.replica.cons.current[..x.value.replica.cons.batchSize] == ds;
    }
  }

  /** Every decision executes exactly the operations its digest commits to, in every
      view and across view changes. */
  lemma StepKeepsDigests(r: Replica, e: Event)
    requires Sane(r) && DigestInv(r) && HeldInv(r, multiset{}) && GenuineProposals(r.received) && GenuineEvent(e)
    ensures Step(r, e).Some? ==> DigestInv(Step(r, e).value.replica)
  {
    match e
    case Deliver(m) => ReceiveKeepsDigests(r.(received := r.received + {m}), m);
    case PollQueue => PollKeepsDigests(r);
    case ClientRequest(q) =>
      AddKeepsGenuine(r.log.pool, q);
      QuietKeepsDigests(r, Step(r, e).value.replica);
    case TryPropose(_) =>
      PopKeepsGenuine(r.log.pool);
      QuietKeepsDigests(r, Step(r, e).value.replica);
    case Defer(_) => QuietKeepsDigests(r, Step(r, e).value.replica);
    case CheckpointDone =>
    case ChangeView(v, cid, bound, proposed, nonce) => ViewChangeKeepsDigests(r, v, cid, bound, proposed, nonce);
  }
}
