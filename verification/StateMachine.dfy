/** State machine safety: in a stable view all correct replicas execute the same
    operations in the same order, and reach the same application states. */
module StateMachine {
  import opened Ordering
  import opened Core
  import opened Messages
  import opened Logs
  import opened Replicas
  import opened ReplicaInvariants
  import opened Votes
  import opened Requests
  import opened Agreement
  import opened Executors

  /** Header digests hash what they came with. */
  ghost predicate GenuineRun(trace: seq<System>, acts: seq<Action>) {
    && (forall k :: 0 <= k < |acts| && acts[k].Local? ==> GenuineEvent(acts[k].event))
    && (forall k :: 0 <= k < |trace| ==> GenuineProposals(trace[k].net))
  }

  /** No view change takes place. */
  ghost predicate Stable(acts: seq<Action>) {
    forall k :: 0 <= k < |acts| && acts[k].Local? ==> !acts[k].event.ChangeView?
  }

  lemma NextDigests(sys: System, a: Action, sys': System, p: Params, faulty: set<NodeId>, i: NodeId)
    requires SystemInv(sys, p, faulty) && Agreement.Next(faulty, sys, a, sys')
    requires i < p.n && i !in faulty && DigestInv(sys.replicas[i]) && GenuineProposals(sys.net)
    requires a.Local? ==> GenuineEvent(a.event)
    ensures |sys'.replicas| == p.n && DigestInv(sys'.replicas[i])
  {
    if a.Local? && a.id == i {
      assert ReplicaInv(sys.replicas[i], i, p, sys.net);
      StepKeepsDigests(sys.replicas[i], a.event);
    }
  }

  /** In every run, view changes included, decisions execute what their digests commit to. */
  lemma {:induction false} RunDigests(
    trace: seq<System>, acts: seq<Action>, p: Params, faulty: set<NodeId>, view: SeqNo, batchSize: nat,
    t: nat, i: NodeId)
    requires Run(trace, acts, p, faulty, view, batchSize) && Tolerable(p, faulty) && view >= 0
    requires GenuineRun(trace, acts) && t <= |acts| && i < p.n && i !in faulty
    ensures |trace[t].replicas| == p.n && DigestInv(trace[t].replicas[i])
  {
    if t == 0 {
      assert trace[0].replicas[i] == Initial(i, ViewInfo(view, p), batchSize);
    } else {
      var k := t - 1;
      assert Agreement.Next(faulty, trace[k], acts[k], trace[t]) && GenuineProposals(trace[k].net);
      assert acts[k].Local? ==> GenuineEvent(acts[k].event);
      RunDigests(trace, acts, p, faulty, view, batchSize, k, i);
      RunInv(trace, acts, p, faulty, view, batchSize, k);
      NextDigests(trace[k], acts[k], trace[t], p, faulty, i);
    }
  }

  ghost predicate StableInv(r: Replica, view: SeqNo) {
    r.view.seqNo == view && forall k :: 0 <= k < |r.decisions| ==> r.decisions[k].view == view
  }

  lemma NextStable(faulty: set<NodeId>, sys: System, a: Action, sys': System, i: NodeId, view: SeqNo)
    requires Agreement.Next(faulty, sys, a, sys') && i < |sys.replicas|
    requires BaseInv(sys.replicas[i]) && CountsVotes(sys.replicas[i]) && StableInv(sys.replicas[i], view)
    requires a.Local? ==> !a.event.ChangeView?
    ensures |sys'.replicas| == |sys.replicas| && StableInv(sys'.replicas[i], view)
  {
    if a.Local? && a.id == i { StepStable(sys.replicas[i], a.event, view); }
  }

  lemma StepStable(r: Replica, e: Event, view: SeqNo)
    requires BaseInv(r) && CountsVotes(r) && StableInv(r, view) && !e.ChangeView?
    ensures Step(r, e).Some? ==> StableInv(Step(r, e).value.replica, view)
  {
    StepIdentity(r, e);
    StepDecides(r, e);
  }

  lemma {:induction false} RunStable(
    trace: seq<System>, acts: seq<Action>, p: Params, faulty: set<NodeId>, view: SeqNo, batchSize: nat,
    t: nat, i: NodeId)
    requires Run(trace, acts, p, faulty, view, batchSize) && Tolerable(p, faulty) && view >= 0
    requires Stable(acts) && t <= |acts| && i < p.n && i !in faulty
    ensures |trace[t].replicas| == p.n && StableInv(trace[t].replicas[i], view)
  {
    if t > 0 {
      var k := t - 1;
      assert Agreement.Next(faulty, trace[k], acts[k], trace[t]);
      assert acts[k].Local? ==> !acts[k].event.ChangeView?;
      RunStable(trace, acts, p, faulty, view, batchSize, k, i);
      assert BaseInv(trace[k].replicas[i]) && CountsVotes(trace[k].replicas[i]) by {
        RunInv(trace, acts, p, faulty, view, batchSize, k);
        assert ReplicaInv(trace[k].replicas[i], i, p, trace[k].net);
      }
      NextStable(faulty, trace[k], acts[k], trace[t], i, view);
    }
  }

  /** The operations a replica has handed to its executor, batch by batch. */
  function Executed(r: Replica): seq<seq<Operation>> {
    seq(|r.decisions|, k requires 0 <= k < |r.decisions| => Operations(r.decisions[k].result.batch))
  }

  /** Equal decisions execute equal operations. */
  lemma SameDigestSameOperations(a: Decision, b: Decision)
    requires Explained(a) && Explained(b) && a.digest == b.digest
    ensures a.requests == b.requests && Operations(a.result.batch) == Operations(b.result.batch)
  {
  }

  lemma DecisionsMatch(sys: System, p: Params, faulty: set<NodeId>, view: SeqNo, i: NodeId, j: NodeId, k: nat)
    requires SystemInv(sys, p, faulty) && i < p.n && j < p.n && i !in faulty && j !in faulty
    requires StableInv(sys.replicas[i], view) && StableInv(sys.replicas[j], view)
    requires DigestInv(sys.replicas[i]) && DigestInv(sys.replicas[j])
    requires k < |sys.replicas[i].decisions| && k < |sys.replicas[j].decisions|
    ensures Executed(sys.replicas[i])[k] == Executed(sys.replicas[j])[k]
  {
    var r, q := sys.replicas[i], sys.replicas[j];
    var a, b := r.decisions[k], q.decisions[k];
    assert ReplicaInv(r, i, p, sys.net) && ReplicaInv(q, j, p, sys.net);
    assert DecisionsInv(r, sys.net) && DecisionsInv(q, sys.net);
    QuorumsAgree(sys, p, faulty, a.seqNo, a.view, a.digest, b.digest);
    SameDigestSameOperations(a, b);
  }

  /** One executed history is a prefix of the other. */
  lemma ExecutedArePrefixes(
    trace: seq<System>, acts: seq<Action>, p: Params, faulty: set<NodeId>, view: SeqNo, batchSize: nat,
    t: nat, i: NodeId, j: NodeId)
    requires Run(trace, acts, p, faulty, view, batchSize) && Tolerable(p, faulty) && view >= 0
    requires GenuineRun(trace, acts) && Stable(acts) && t <= |acts| && |trace[t].replicas| == p.n
    requires i < p.n && j < p.n && i !in faulty && j !in faulty
    ensures var a, b := Executed(trace[t].replicas[i]), Executed(trace[t].replicas[j]);
            a <= b || b <= a
  {
    RunInv(trace, acts, p, faulty, view, batchSize, t);
    RunStable(trace, acts, p, faulty, view, batchSize, t, i);
    RunStable(trace, acts, p, faulty, view, batchSize, t, j);
    RunDigests(trace, acts, p, faulty, view, batchSize, t, i);
    RunDigests(trace, acts, p, faulty, view, batchSize, t, j);
    var a, b := Executed(trace[t].replicas[i]), Executed(trace[t].replicas[j]);
    forall k | 0 <= k < |a| && k < |b| ensures a[k] == b[k] {
      DecisionsMatch(trace[t], p, faulty, view, i, j, k);
    }
  }

  // ---- application states --------------------------------------------------------------

  /** What the decided path sends to the executor. */
  function RequestFor<S>(d: Decision): ExecutionRequest<S> {
    if d.result.info.BeginCheckpoint? then UpdateAndGetAppstate(d.result.batch) else DoUpdate(d.result.batch)
  }

  function ExecutorQueue<S>(decisions: seq<Decision>): seq<ExecutionRequest<S>> {
    seq(|decisions|, k requires 0 <= k < |decisions| => RequestFor(decisions[k]))
  }

  /** After the same number of batches the executors of two replicas with matching
      histories are in the same state, for any service. */
  lemma {:induction false} MatchingHistoriesMatchingStates<S, P>(svc: Service<S, P>, a: seq<Decision>, b: seq<Decision>)
    requires |a| == |b|
    requires forall k :: 0 <= k < |a| ==> Operations(a[k].result.batch) == Operations(b[k].result.batch)
    ensures Drain(svc, svc.initial, ExecutorQueue(a)) == Drain(svc, svc.initial, ExecutorQueue(b))
  {
    if a != [] {
      var a0, b0 := a[..|a| - 1], b[..|b| - 1];
      MatchingHistoriesMatchingStates(svc, a0, b0);
      assert ExecutorQueue<S>(a)[..|a| - 1] == ExecutorQueue(a0);
      assert ExecutorQueue<S>(b)[..|b| - 1] == ExecutorQueue(b0);
    }
  }

  /** State machine safety. In every state of every stable run, after the same
      instance two correct replicas have the same application state. */
  lemma StatesAgree<S, P>(
    svc: Service<S, P>, trace: seq<System>, acts: seq<Action>, p: Params, faulty: set<NodeId>,
    view: SeqNo, batchSize: nat, t: nat, i: NodeId, j: NodeId, k: nat)
    requires Run(trace, acts, p, faulty, view, batchSize) && Tolerable(p, faulty) && view >= 0
    requires GenuineRun(trace, acts) && Stable(acts) && t <= |acts| && |trace[t].replicas| == p.n
    requires i < p.n && j < p.n && i !in faulty && j !in faulty
    requires k <= |trace[t].replicas[i].decisions| && k <= |trace[t].replicas[j].decisions|
    ensures Drain(svc, svc.initial, ExecutorQueue(trace[t].replicas[i].decisions[..k])) ==
            Drain(svc, svc.initial, ExecutorQueue(trace[t].replicas[j].decisions[..k]))
  {
    ExecutedArePrefixes(trace, acts, p, faulty, view, batchSize, t, i, j);
    var a, b := trace[t].replicas[i], trace[t].replicas[j];
    forall n | 0 <= n < k
      ensures Operations(a.decisions[..k][n].result.batch) == Operations(b.decisions[..k][n].result.batch)
    {
      assert Executed(a)[n] == Operations(a.decisions[n].result.batch);
      assert Executed(b)[n] == Operations(b.decisions[n].result.batch);
    }
    MatchingHistoriesMatchingStates(svc, a.decisions[..k], b.decisions[..k]);
  }
}
