/** Waiting for the requests of a proposal: when the phase that waits for them can end
    without a view change (src/bft/consensus/mod.rs). */
module Waiting {
  import opened Wrappers
  import opened Ordering
  import opened Core
  import opened Messages
  import opened Logs
  import opened NormalPhase
  import opened Replicas
  import opened Requests
  import opened Certificates
  import opened Histories

  /** The state after a list of events. */
  function After(r: Replica, events: seq<Event>): Option<Replica> {
    if events == [] then Some(r)
    else
      match After(r, events[..|events| - 1])
      case None => None
      case Some(r1) =>
        if !Sane(r1) then None
        else
          match Step(r1, events[|events| - 1])
          case None => None
          case Some(x) => Some(x.replica)
  }

  ghost predicate NoViewChange(events: seq<Event>) {
    forall i :: 0 <= i < |events| ==> !events[i].ChangeView?
  }

  /** Some events other than a view change lead out of the phase. */
  ghost predicate CanEnd(r: Replica) {
    exists events :: NoViewChange(events) && LeadsOut(r, events)
  }

  ghost predicate LeadsOut(r: Replica, events: seq<Event>) {
    After(r, events).Some? && !After(r, events).value.cons.phase.PreparingRequests?
  }

  /** A digest that is in the pool, or that a request can have. */
  predicate Obtainable(d: Digest, pool: Pool) {
    d.Entropy? || HasRequest(pool, d)
  }

  // ---- waiting in vain ------------------------------------------------------------------

  /** The replica waits for `d`, which no request has. */
  ghost predicate Stuck(r: Replica, d: Digest) {
    r.cons.phase.PreparingRequests? && ValidPool(r.log.pool) && d in r.cons.missing && !Obtainable(d, r.log.pool)
  }

  lemma StaysUnobtainable(pool: Pool, q: Request, d: Digest)
    requires ValidPool(pool) && !Obtainable(d, pool)
    ensures !Obtainable(d, AddRequest(pool, q)) && !Obtainable(d, PopRequest(pool))
  {
    AddRequestExact(pool, q, d);
    PopRequestExact(pool, d);
    assert Get(AddRequest(pool, q), d).None? && Get(PopRequest(pool), d).None?;
  }

  lemma StuckStep(r: Replica, e: Event, d: Digest)
    requires Sane(r) && Stuck(r, d) && !e.ChangeView?
    ensures Step(r, e).Some? ==> Stuck(Step(r, e).value.replica, d)
  {
    match e
    case PollQueue => AbsentStays(r.cons.missing, r.log.pool, d);
    case ClientRequest(q) =>
      StaysUnobtainable(r.log.pool, q, d);
      AddRequestKeepsValid(r.log.pool, q);
    case TryPropose(_) =>
      StaysUnobtainable(r.log.pool, EmptyRequest(0), d);
      PopRequestExact(r.log.pool, d);
    case Deliver(_) =>
    case Defer(_) =>
    case CheckpointDone =>
  }

  lemma {:induction false} StuckForGood(r: Replica, events: seq<Event>, d: Digest)
    requires Stuck(r, d) && NoViewChange(events)
    ensures After(r, events).Some? ==> Stuck(After(r, events).value, d)
  {
    if events != [] {
      var before, e := events[..|events| - 1], events[|events| - 1];
      assert NoViewChange(before);
      StuckForGood(r, before, d);
      var r1 := After(r, before);
      if r1.Some? && Sane(r1.value) { StuckStep(r1.value, e, d); }
    }
  }

  // ---- the way out ------------------------------------------------------------------------

  /** `events` lead from `r` to `r'` without a view change. */
  ghost predicate Leads(r: Replica, events: seq<Event>, r': Replica) {
    NoViewChange(events) && After(r, events) == Some(r')
  }

  lemma Then(r: Replica, events: seq<Event>, r1: Replica, e: Event) returns (events': seq<Event>, r': Replica)
    requires Leads(r, events, r1) && Sane(r1) && Step(r1, e).Some? && !e.ChangeView?
    ensures Leads(r, events', r') && r' == Step(r1, e).value.replica
  {
    events', r' := events + [e], Step(r1, e).value.replica;
    assert events'[..|events|] == events;
  }

  /** The request with digest `d`. */
  function RequestFor(d: Digest): Request
    requires d.Entropy?
  {
    Stored(Header(0, d.of, d.nonce), Operation([]))
  }

  /** The first `n` missing requests have arrived since `r`, and nothing else happened. */
  ghost predicate Arrived(r: Replica, r': Replica, n: nat)
    requires n <= |r.cons.missing|
  {
    && r' == r.(log := r'.log) && ValidPool(r'.log.pool) && Covers(r'.log.pool, r.log.pool)
    && forall i :: 0 <= i < n ==> HasRequest(r'.log.pool, r.cons.missing[i])
  }

  /** The pool holds all requests of the other one. */
  ghost predicate Covers(pool: Pool, other: Pool) {
    forall d :: HasRequest(other, d) ==> HasRequest(pool, d)
  }

  lemma OneArrives(r: Replica, r1: Replica, n: nat)
    requires n < |r.cons.missing| && Sane(r1) && Arrived(r, r1, n) && r.cons.missing[n].Entropy?
    ensures var x := Step(r1, ClientRequest(RequestFor(r.cons.missing[n])));
            x.Some? && Sane(x.value.replica) && Arrived(r, x.value.replica, n + 1)
  {
    var d := r.cons.missing[n];
    var q := RequestFor(d);
    assert Covers(AddRequest(r1.log.pool, q), r1.log.pool) by { PoolGrows(r1.log.pool, q); }
    AddRequestKeepsValid(r1.log.pool, q);
    assert HasRequest(AddRequest(r1.log.pool, q), d) by {
      AddRequestExact(r1.log.pool, q, d);
      assert Get(AddRequest(r1.log.pool, q), d).Some?;
    }
  }

  /** The first `n` missing requests arrive. */
  lemma {:induction false} RequestsArrive(r: Replica, n: nat) returns (events: seq<Event>, r': Replica)
    requires Sane(r) && ValidPool(r.log.pool) && n <= |r.cons.missing|
    requires forall d :: d in r.cons.missing ==> Obtainable(d, r.log.pool)
    ensures Leads(r, events, r') && Sane(r') && Arrived(r, r', n)
  {
    if n == 0 {
      events, r' := [], r;
    } else {
      var r1;
      events, r1 := RequestsArrive(r, n - 1);
      var d := r.cons.missing[n - 1];
      assert d in r.cons.missing && Obtainable(d, r.log.pool);
      if HasRequest(r1.log.pool, d) {
        r' := r1;
      } else {
        OneArrives(r, r1, n - 1);
        events, r' := Then(r, events, r1, ClientRequest(RequestFor(d)));
      }
    }
  }

  /** All requests are there, and a PREPARE is queued. */
  ghost predicate AboutToEnd(r: Replica) {
    && Sane(r) && r.cons.phase.PreparingRequests?
    && (forall d :: d in r.cons.missing ==> HasRequest(r.log.pool, d))
    && r.cons.tbo.prepares != [] && r.cons.tbo.prepares[0] != []
  }

  lemma PrepareArrives(r: Replica) returns (m: Msg)
    requires Sane(r) && r.cons.phase.PreparingRequests?
    requires forall d :: d in r.cons.missing ==> HasRequest(r.log.pool, d)
    ensures Step(r, Deliver(m)).Some? && AboutToEnd(Step(r, Deliver(m)).value.replica)
  {
    m := Stored(Header(0, Zero, 0), ConsensusMessage(r.cons.tbo.currSeq, r.view.seqNo, Prepare(Zero)));
    assert Index(r.cons.tbo.currSeq, r.cons.tbo.currSeq) == At(0);
  }

  lemma LastPoll(r: Replica)
    requires AboutToEnd(r) && Prune(r.cons.missing, r.log.pool) == []
    ensures Step(r, PollQueue).Some? && !Step(r, PollQueue).value.replica.cons.phase.PreparingRequests?
  {
    var (status, c) := Poll(r.cons, r.log.pool);
    assert status.NextMessage? && c.phase == Preparing(1) && c.batchSize <= |c.current|;
    NotWaiting(r.(cons := c), status.message);
  }

  /** A message does not make a preparing replica wait again. */
  lemma NotWaiting(r: Replica, m: Msg)
    requires Sane(r) && r.cons.phase == Preparing(1)
    ensures Receive(r, m).Some? && !Receive(r, m).value.replica.cons.phase.PreparingRequests?
  {
  }

  lemma OtherPoll(r: Replica)
    requires AboutToEnd(r) && Prune(r.cons.missing, r.log.pool) != []
    ensures Step(r, PollQueue).Some?
    ensures var r' := Step(r, PollQueue).value.replica;
            AboutToEnd(r') && |r'.cons.missing| < |r.cons.missing|
  {
    var missing, pool := r.cons.missing, r.log.pool;
    AllPresent(missing, |missing|, pool);
    PruneProgress(missing, pool, Zero);
    forall d | d in Prune(missing, pool) ensures HasRequest(pool, d) {
      PruneProgress(missing, pool, d);
      assert d in multiset(missing);
    }
  }

  lemma {:induction false} PollsEnd(r: Replica, events: seq<Event>, r1: Replica) returns (events': seq<Event>)
    requires Leads(r, events, r1) && AboutToEnd(r1)
    ensures NoViewChange(events') && LeadsOut(r, events')
    decreases |r1.cons.missing|
  {
    var r2;
    if Prune(r1.cons.missing, r1.log.pool) == [] {
      LastPoll(r1);
      events', r2 := Then(r, events, r1, PollQueue);
    } else {
      OtherPoll(r1);
      events', r2 := Then(r, events, r1, PollQueue);
      events' := PollsEnd(r, events', r2);
    }
  }

  /** Waiting can end without a view change if and only if all missing digests are ones that
      requests have. */
  lemma EndsExactly(r: Replica)
    requires Sane(r) && ValidPool(r.log.pool) && r.cons.phase.PreparingRequests?
    ensures CanEnd(r) <==> forall d :: d in r.cons.missing ==> Obtainable(d, r.log.pool)
  {
    if d :| d in r.cons.missing && !Obtainable(d, r.log.pool) {
      forall events | NoViewChange(events) ensures !LeadsOut(r, events) { StuckForGood(r, events, d); }
    } else {
      var events, r1 := RequestsArrive(r, |r.cons.missing|);
      var m := PrepareArrives(r1);
      events, r1 := Then(r, events, r1, Deliver(m));
      events := PollsEnd(r, events, r1);
    }
  }

  /** In every history. */
  lemma WaitingEndsExactly(
    trace: seq<Replica>, events: seq<Event>, me: NodeId, view: ViewInfo, batchSize: nat, k: nat)
    requires History(trace, events, me, view, batchSize) && k < |trace| && trace[k].cons.phase.PreparingRequests?
    ensures CanEnd(trace[k]) <==> forall d :: d in trace[k].cons.missing ==> Obtainable(d, trace[k].log.pool)
  {
    assert Sane(trace[k]) by { HistoryKeepsLog(trace, events, me, view, batchSize, k); }
    HistoryKeepsPool(trace, events, me, view, batchSize, k);
    EndsExactly(trace[k]);
  }

  // ---- proposals shorter than the buffer ------------------------------------------------------

  /** What an accepted proposal waits for: its own digests, and what earlier proposals or
      the zeroed buffer have left behind it. */
  ghost predicate Awaited(c: Instance, requests: seq<Digest>, d: Digest)
    requires |requests| <= |c.current|
  {
    d in c.missing || d in requests || d in c.current[|requests|..]
  }

  /** An accepted proposal makes the replica wait for good, as far as no view change comes,
      if and only if one of these is not the digest of a request. */
  lemma ProposalStuckExactly(r: Replica, m: Msg)
    requires Sane(r) && ValidPool(r.log.pool) && r.cons.phase.PrePreparing?
    requires Classify(r.cons, m.message, r.view.seqNo) == Accepted && Fits(r.cons, m.message)
    ensures Receive(r, m).Some?
    ensures var r' := Receive(r, m).value.replica;
            r'.cons.phase.PreparingRequests? && !CanEnd(r') <==>
            exists d :: Awaited(r.cons, m.message.kind.requests, d) && !Obtainable(d, r.log.pool)
  {
    var r', requests := Receive(r, m).value.replica, m.message.kind.requests;
    var current := requests + r.cons.current[|requests|..];
    assert r'.cons.missing == r.cons.missing + Absent(current, r.log.pool);
    assert r'.log.pool == r.log.pool && r'.cons.current == current;
    forall d ensures Awaited(r.cons, requests, d) <==> d in r.cons.missing || d in current {}
    if r'.cons.phase.PreparingRequests? { EndsExactly(r'); }
    if d :| Awaited(r.cons, requests, d) && !Obtainable(d, r.log.pool) {
      assert d in r'.cons.missing;
    }
  }

  /** So a first proposal of one request, where batches may have two, blocks a replica
      until the view changes. */
  lemma ShortProposalWaits() returns (trace: seq<Replica>, events: seq<Event>)
    ensures History(trace, events, 1, VIEW, 2) && NoViewChange(events)
    ensures trace[|events|].cons.phase.PreparingRequests? && !CanEnd(trace[|events|])
  {
    trace, events := HalfBatch();
    ProposalBlocks(trace[|events|]);
    trace, events := OneStepMore(trace, events, 1, VIEW, 2, Deliver(Sent(0, ProposalOf(0))));
  }

  /** A replica for batches of two has one request, and waits for a proposal. */
  ghost predicate HalfReady(r: Replica) {
    && r.view == VIEW && r.cons.phase.PrePreparing? && r.cons.tbo.currSeq == 0 && r.cons.batchSize == 0
    && r.cons.current == [Zero, Zero] && r.log.pool == Pool([], map[DIGEST := REQUEST])
  }

  lemma HalfBatch() returns (trace: seq<Replica>, events: seq<Event>)
    ensures History(trace, events, 1, VIEW, 2) && NoViewChange(events) && HalfReady(trace[|events|])
  {
    trace, events := [Initial(1, VIEW, 2)], [];
    trace, events := OneStepMore(trace, events, 1, VIEW, 2, ClientRequest(REQUEST));
    trace, events := OneStepMore(trace, events, 1, VIEW, 2, TryPropose(Some([DIGEST])));
  }

  lemma ProposalBlocks(r: Replica)
    requires HalfReady(r)
    ensures var e := Deliver(Sent(0, ProposalOf(0)));
            && Sane(r) && Step(r, e).Some?
            && Step(r, e).value.replica.cons.phase.PreparingRequests? && !CanEnd(Step(r, e).value.replica)
  {
    var m := Sent(0, ProposalOf(0));
    var r0 := r.(received := r.received + {m});
    assert Awaited(r0.cons, [DIGEST], Zero) by { assert r.cons.current[1..] == [Zero]; }
    assert !Obtainable(Zero, r.log.pool);
    ProposalStuckExactly(r0, m);
  }
}
