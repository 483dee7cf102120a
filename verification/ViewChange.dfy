/** From a run of the normal phase to the verdict of the view change that ends it: a
    decided value is kept, and re-proposed identically. */
module ViewChange {
  import opened Wrappers
  import opened Ordering
  import opened Core
  import opened Messages
  import opened Counting
  import opened DecisionLogs
  import opened Logs
  import opened Replicas
  import opened ReplicaInvariants
  import opened Votes
  import opened Certificates
  import opened Histories
  import opened Requests
  import opened Agreement
  import opened StateMachine
  import opened Soundness
  import opened DecidedValue

  /** Signature validation accepts the messages that are in the network. */
  ghost predicate Accepts(valid: Msg -> bool, net: set<Msg>) {
    forall m :: m in net ==> valid(m)
  }

  /** What the collect of a correct replica rests on. */
  ghost predicate Honest(r: Replica, p: Params, net: set<Msg>) {
    LogInv(r) && HoldsVotes(r) && LoggedInv(r) && r.received <= net && r.view.params == p
  }

  /** A correct replica's proof of its last decision passes the check of `highest_proof`. */
  lemma CorrectProofIsValid(r: Replica, p: Params, net: set<Msg>, valid: Msg -> bool, data: CollectData)
    requires Honest(r, p, net) && Accepts(valid, net) && Collect(r.log.declog, p) == Done(data)
    requires data.lastProof.Some?
    ensures r.cons.tbo.currSeq > 0
    ensures Offers(p, valid, data, data.lastProof.value)
    ensures Number(data.lastProof.value.prePrepare) == r.cons.tbo.currSeq - 1
  {
    ProofComplete(r);
    var last := r.decisions[r.cons.tbo.currSeq - 1];
    assert ProvesLast(r.log.declog, last, p);
    var proof := data.lastProof.value;
    forall k | 0 <= k < |proof.commits| ensures Confirms(last.digest, valid)(proof.commits[k]) {
      CommitsOfProof(r, p, net, data, k);
    }
    CountAtMost(proof.commits, Confirms(last.digest, valid));
  }

  lemma AcceptedInNet(r: Replica, net: set<Msg>, m: Msg)
    requires HoldsVotes(r) && r.received <= net && m in r.accepted
    ensures m in net
  {
    assert m in multiset(r.accepted);
    assert m in Held(r.cons.tbo) + multiset(r.accepted) + multiset{};
  }

  lemma LastVotesAreLogged(list: seq<Msg>, s: SeqNo, k: nat)
    requires k < |LastVotes(list, s)|
    ensures LastVotes(list, s)[k] in list
  {
  }

  lemma CommitsOfProof(r: Replica, p: Params, net: set<Msg>, data: CollectData, k: nat)
    requires HoldsVotes(r) && LoggedInv(r) && r.received <= net && Collect(r.log.declog, p) == Done(data)
    requires data.lastProof.Some? && k < |data.lastProof.value.commits|
    ensures data.lastProof.value.commits[k] in net
  {
    var m := data.lastProof.value.commits[k];
    assert m in r.log.declog.commits by {
      assert data.lastProof.value.commits == LastVotes(r.log.declog.commits, r.log.declog.lastExec.value);
      LastVotesAreLogged(r.log.declog.commits, r.log.declog.lastExec.value, k);
    }
    AcceptedInNet(r, net, m);
  }

  /** The highest proof is at least the one of every correct contributor. The instance
      computed from it covers the contributors that prove a decision exactly unless the
      addition wraps around. */
  lemma CidCoversCorrect(r: Replica, p: Params, net: set<Msg>, valid: Msg -> bool, data: seq<CollectData>, k: nat)
    requires Honest(r, p, net) && Accepts(valid, net)
    requires k < |data| && Collect(r.log.declog, p) == Done(data[k]) && data[k].lastProof.Some?
    ensures HighestProof(p, valid, data).Some?
    ensures var top := Number(HighestProof(p, valid, data).value.prePrepare);
            && top + 1 >= r.cons.tbo.currSeq
            && (CurrentCid(p, valid, data) >= r.cons.tbo.currSeq <==> top != I32_MAX)
  {
    CorrectProofIsValid(r, p, net, valid, data[k]);
    CidAtLeast(p, valid, data, k, r.cons.tbo.currSeq - 1);
  }

  lemma CidAtLeast(p: Params, valid: Msg -> bool, data: seq<CollectData>, k: nat, s: SeqNo)
    requires k < |data| && data[k].lastProof.Some? && Offers(p, valid, data[k], data[k].lastProof.value)
    requires Number(data[k].lastProof.value.prePrepare) == s && 0 <= s < I32_MAX
    ensures HighestProof(p, valid, data).Some?
    ensures var top := Number(HighestProof(p, valid, data).value.prePrepare);
            top >= s && (CurrentCid(p, valid, data) >= s + 1 <==> top != I32_MAX)
  {
    HighestProofIsMax(p, valid, data);
    assert AtLeast(HighestProof(p, valid, data), data[k].lastProof.value);
  }

  /** It does wrap around: the check looks at the digests of the COMMITs only, so copies
      of one valid COMMIT vouch for a proposal of the largest number. */
  lemma CidWraps(p: Params, valid: Msg -> bool, commit: Msg, data: seq<CollectData>) returns (bad: CollectData)
    requires commit.message.kind.Commit? && valid(commit)
    ensures CurrentCid(p, valid, data + [bad]) == -SPAN
  {
    var d := commit.message.kind.digest;
    var top := Stored(Header(0, d, 0), ConsensusMessage(I32_MAX, 0, PrePrepare([])));
    var proof := Proof(top, [], seq(p.Quorum(), _ => commit));
    bad := CollectData(IncompleteProof(0, [], None), Some(proof));
    CountAtMost(proof.commits, Confirms(d, valid));
    assert Offers(p, valid, (data + [bad])[|data|], proof);
    HighestProofIsMax(p, valid, data + [bad]);
  }

  // ---- collects sent at different times ---------------------------------------------

  /** The collects of one view change: `ids[k]` sent `data[k]` in state `at[k]` of the run. */
  datatype Collects = Collects(ids: seq<NodeId>, data: seq<CollectData>, at: seq<nat>)

  /** A correct collect of a view change out of view `v`: the log of a replica that has not
      gone beyond `v`, was not emptied since the replica wrote, and proves its last decision. */
  ghost predicate CorrectCollect(r: Replica, p: Params, v: SeqNo, data: CollectData) {
    && r.view.seqNo <= v && Collect(r.log.declog, p) == Done(data)
    && (r.cons.phase.Committing? ==> Intact(r))
    && (r.cons.tbo.currSeq > 0 ==> data.lastProof.Some?)
  }

  ghost predicate CanContribute(r: Replica, v: SeqNo) {
    exists data :: CorrectCollect(r, r.view.params, v, data)
  }

  /** What its log must hold for that. */
  ghost predicate HoldsEnough(r: Replica, v: SeqNo) {
    && r.view.seqNo <= v && (r.cons.phase.Committing? ==> Intact(r))
    && (r.cons.tbo.currSeq > 0 ==> ProofHeld(r.log.declog, r.cons.tbo.currSeq - 1))
  }

  lemma CollectFromLog(r: Replica, v: SeqNo)
    requires LogInv(r)
    ensures CanContribute(r, v) <==> HoldsEnough(r, v)
  {
    assert ToBeDecided(r.log.declog, r.view.params.f).Done? by { CertificateFaithful(r); }
    ProofComplete(r);
    var collect := Collect(r.log.declog, r.view.params);
    if collect.Done? {
      assert CanContribute(r, v) <==> CorrectCollect(r, r.view.params, v, collect.value);
    }
  }

  lemma CollectInHistory(
    trace: seq<Replica>, events: seq<Event>, me: NodeId, view: ViewInfo, batchSize: nat, k: nat, v: SeqNo)
    requires History(trace, events, me, view, batchSize) && k < |trace|
    ensures CanContribute(trace[k], v) <==> HoldsEnough(trace[k], v)
  {
    HistoryKeepsLog(trace, events, me, view, batchSize, k);
    CollectFromLog(trace[k], v);
  }

  /** In every history, whatever instances view changes were finished for, a replica can
      contribute such a collect if and only if nothing it needs has been dropped. */
  lemma CollectExactly(
    trace: seq<Replica>, events: seq<Event>, me: NodeId, view: ViewInfo, batchSize: nat, k: nat, v: SeqNo)
    requires History(trace, events, me, view, batchSize) && k < |trace|
    ensures CanContribute(trace[k], v) <==>
            && trace[k].view.seqNo <= v
            && (trace[k].cons.phase.Committing? ==> ProposalKept(trace, events, k))
            && (trace[k].cons.tbo.currSeq > 0 ==> ProofKept(trace, events, k))
  {
    CollectInHistory(trace, events, me, view, batchSize, k, v);
    IntactExactly(trace, events, me, view, batchSize, k);
    if trace[k].cons.tbo.currSeq > 0 { ProofHeldExactly(trace, events, me, view, batchSize, k); }
  }

  /** Each correct replica of a run goes through a history of its own. */
  lemma {:induction false} OwnHistory(
    trace: seq<System>, acts: seq<Action>, p: Params, faulty: set<NodeId>, view: SeqNo, batchSize: nat,
    t: nat, i: NodeId)
    returns (states: seq<Replica>, events: seq<Event>)
    requires Run(trace, acts, p, faulty, view, batchSize) && Tolerable(p, faulty) && view >= 0 && t <= |acts|
    requires i < p.n && i !in faulty
    ensures History(states, events, i, ViewInfo(view, p), batchSize)
    ensures |trace[t].replicas| == p.n && states[|events|] == trace[t].replicas[i]
  {
    if t == 0 {
      states, events := [Initial(i, ViewInfo(view, p), batchSize)], [];
    } else {
      states, events := OwnHistory(trace, acts, p, faulty, view, batchSize, t - 1, i);
      assert Agreement.Next(faulty, trace[t - 1], acts[t - 1], trace[t]);
      if acts[t - 1].Local? && acts[t - 1].id == i {
        states, events := OneStepMore(states, events, i, ViewInfo(view, p), batchSize, acts[t - 1].event);
      }
    }
  }

  /** So in every run: when a correct replica can contribute shows in its own history. */
  lemma CollectAlong(
    trace: seq<System>, acts: seq<Action>, p: Params, faulty: set<NodeId>, view: SeqNo, batchSize: nat,
    t: nat, i: NodeId, v: SeqNo)
    returns (states: seq<Replica>, events: seq<Event>)
    requires Run(trace, acts, p, faulty, view, batchSize) && Tolerable(p, faulty) && view >= 0 && t <= |acts|
    requires i < p.n && i !in faulty
    ensures History(states, events, i, ViewInfo(view, p), batchSize)
    ensures |trace[t].replicas| == p.n && states[|events|] == trace[t].replicas[i]
    ensures CanContribute(trace[t].replicas[i], v) <==>
            && trace[t].replicas[i].view.seqNo <= v
            && (trace[t].replicas[i].cons.phase.Committing? ==> ProposalKept(states, events, |events|))
            && (trace[t].replicas[i].cons.tbo.currSeq > 0 ==> ProofKept(states, events, |events|))
  {
    states, events := OwnHistory(trace, acts, p, faulty, view, batchSize, t, i);
    CollectExactly(states, events, i, ViewInfo(view, p), batchSize, |events|, v);
  }

  /** From its collect on, a replica queues consensus messages until it finishes a view
      change to a view beyond `v`. */
  ghost predicate Stopped(trace: seq<System>, acts: seq<Action>, i: NodeId, from: nat, v: SeqNo) {
    forall n :: from <= n < |acts| && n < |trace| && acts[n].Local? && acts[n].id == i && i < |trace[n].replicas| ==>
      StopsVoting(trace[n].replicas[i], acts[n].event, v)
  }

  ghost predicate StopsVoting(r: Replica, e: Event, v: SeqNo) {
    r.view.seqNo <= v ==> !e.Deliver? && !e.PollQueue? && (e.ChangeView? ==> e.view > v)
  }

  /** One collect each from a quorum of replicas: correct ones report their logs and stop
      voting, faulty ones send anything that names no value more than `m` times. */
  ghost predicate CollectsFrom(
    trace: seq<System>, acts: seq<Action>, p: Params, faulty: set<NodeId>, m: nat, v: SeqNo, c: Collects) {
    && |c.ids| == |c.data| == |c.at| == p.Quorum() && Distinct(c.ids)
    && (forall k :: 0 <= k < |c.ids| ==> c.ids[k] < p.n)
    && (forall k :: 0 <= k < |c.ids| && c.ids[k] in faulty ==> NamesAtMost(Some(c.data[k]), m))
    && (forall k :: 0 <= k < |c.ids| && c.ids[k] !in faulty ==> CollectFrom(trace, acts, p, v, c, k))
  }

  ghost predicate CollectFrom(trace: seq<System>, acts: seq<Action>, p: Params, v: SeqNo, c: Collects, k: nat)
    requires k < |c.ids| == |c.data| == |c.at|
  {
    && c.at[k] < |trace| && c.ids[k] < |trace[c.at[k]].replicas|
    && CorrectCollect(trace[c.at[k]].replicas[c.ids[k]], p, v, c.data[k])
    && Stopped(trace, acts, c.ids[k], c.at[k], v)
  }

  lemma {:induction false} NetGrowsAlong(
    trace: seq<System>, acts: seq<Action>, p: Params, faulty: set<NodeId>, view: SeqNo, batchSize: nat, a: nat, b: nat)
    requires Run(trace, acts, p, faulty, view, batchSize) && a <= b <= |acts|
    ensures trace[a].net <= trace[b].net
  {
    if a < b {
      NetGrowsAlong(trace, acts, p, faulty, view, batchSize, a, b - 1);
      assert Agreement.Next(faulty, trace[b - 1], acts[b - 1], trace[b]);
    }
  }

  /** A stopped replica sends no COMMIT of view `v` or before. */
  lemma StoppedStep(faulty: set<NodeId>, sys: System, a: Action, sys': System, i: NodeId, v: SeqNo, m: Msg)
    requires Agreement.Next(faulty, sys, a, sys') && i !in faulty && i < |sys.replicas|
    requires a.Local? && a.id == i ==> StopsVoting(sys.replicas[i], a.event, v)
    requires m in sys'.net && m.header.from == i && m.message.kind.Commit? && m.message.view <= v
    ensures m in sys.net
  {
    if a.Local? && a.id == i { StepSends(sys.replicas[i], a.event); }
  }

  lemma {:induction false} NoLateCommits(
    trace: seq<System>, acts: seq<Action>, p: Params, faulty: set<NodeId>, view: SeqNo, batchSize: nat,
    i: NodeId, a: nat, b: nat, v: SeqNo, m: Msg)
    requires Run(trace, acts, p, faulty, view, batchSize) && Tolerable(p, faulty) && view >= 0 && b <= |acts|
    requires i < p.n && i !in faulty && Stopped(trace, acts, i, a, v)
    requires m in trace[b].net && m.header.from == i && m.message.kind.Commit? && m.message.view <= v
    ensures a < |trace| ==> m in trace[a].net
    decreases b
  {
    if a >= b {
      if a < |trace| { NetGrowsAlong(trace, acts, p, faulty, view, batchSize, b, a); }
    } else {
      var n := b - 1;
      assert |trace[n].replicas| == p.n by { RunInv(trace, acts, p, faulty, view, batchSize, n); }
      StoppedStep(faulty, trace[n], acts[n], trace[b], i, v, m);
      NoLateCommits(trace, acts, p, faulty, view, batchSize, i, a, n, v, m);
    }
  }

  /** A correct replica that sent COMMIT for instance `s` and does not push the new view
      past it is still executing `s`. */
  lemma CommitterIsAt(
    r: Replica, i: NodeId, p: Params, net: set<Msg>, valid: Msg -> bool, s: SeqNo, v: SeqNo, d: Digest,
    data: seq<CollectData>, k: nat)
    requires Honest(r, p, net) && CommitsInv(r, i, net) && Accepts(valid, net)
    requires k < |data| && CorrectCollect(r, p, v, data[k]) && CurrentCid(p, valid, data) == s && s >= 0
    requires i in Committers(net, s, v, d)
    ensures r.cons.tbo.currSeq == s && r.view.seqNo == v && r.cons.phase.Committing? && r.cons.currentDigest == d
  {
    var m :| m in net && m.message == ConsensusMessage(s, v, Commit(d)) && m.header.from == i;
    assert VoteFits(m.message, r.cons, r.view.seqNo);
    assert r.cons.tbo.currSeq <= s by {
      if r.cons.tbo.currSeq > 0 { CidCoversCorrect(r, p, net, valid, data, k); }
    }
  }

  /** A correct replica that sent COMMIT for the decided value reports it as written. */
  lemma CommitterReports(
    r: Replica, i: NodeId, p: Params, net: set<Msg>, valid: Msg -> bool, s: SeqNo, v: SeqNo, d: Digest,
    data: seq<CollectData>, k: nat)
    requires Honest(r, p, net) && CommitsInv(r, i, net) && Accepts(valid, net)
    requires k < |data| && CorrectCollect(r, p, v, data[k]) && CurrentCid(p, valid, data) == s && s >= 0
    requires i in Committers(net, s, v, d)
    ensures Wrote(Normalize(s, data[k])) == Some(ViewDecision(v, d))
  {
    CommitterIsAt(r, i, p, net, valid, s, v, d, data, k);
    CertificateFaithful(r);
  }

  ghost function BadPositions(ids: seq<NodeId>, faulty: set<NodeId>): set<nat> {
    set k | 0 <= k < |ids| && ids[k] in faulty
  }

  lemma {:induction false} FewBadPositions(ids: seq<NodeId>, faulty: set<NodeId>)
    requires Distinct(ids)
    ensures |BadPositions(ids, faulty)| <= |faulty|
  {
    if ids == [] {
      assert BadPositions(ids, faulty) == {};
    } else {
      var n, ids0 := |ids| - 1, ids[..|ids| - 1];
      if ids[n] in faulty {
        FewBadPositions(ids0, faulty - {ids[n]});
        assert BadPositions(ids, faulty) == BadPositions(ids0, faulty - {ids[n]}) + {n};
      } else {
        FewBadPositions(ids0, faulty);
        assert BadPositions(ids, faulty) == BadPositions(ids0, faulty);
      }
    }
  }

  function Anyone(): NodeId -> bool {
    (i: NodeId) => true
  }

  function Itself(): NodeId -> NodeId {
    (i: NodeId) => i
  }

  ghost function Asked(ids: seq<NodeId>): set<NodeId> {
    Image(ids, Anyone(), Itself())
  }

  lemma DistinctIds(ids: seq<NodeId>)
    requires Distinct(ids)
    ensures |Asked(ids)| == |ids|
  {
    CountDistinct(ids, Anyone(), Itself());
    CountAtMost(ids, Anyone());
  }

  /** Correct replicas that have not gone beyond `v` report only writes up to `v`. */
  lemma CorrectWritesUpTo(r: Replica, p: Params, s: SeqNo, v: SeqNo, data: CollectData)
    requires LogInv(r) && r.view.params == p && CorrectCollect(r, p, v, data)
    ensures WritesUpTo(Normalize(s, data), v)
  {
    CertificateFaithful(r);
  }

  /** What the run says about a correct contributor at the time of its collect. */
  lemma ContributorAt(
    trace: seq<System>, acts: seq<Action>, p: Params, faulty: set<NodeId>, view: SeqNo, batchSize: nat,
    m: nat, v: SeqNo, c: Collects, k: nat, valid: Msg -> bool)
    requires Run(trace, acts, p, faulty, view, batchSize) && Tolerable(p, faulty) && view >= 0
    requires CollectsFrom(trace, acts, p, faulty, m, v, c) && k < |c.ids| && c.ids[k] !in faulty
    requires Accepts(valid, trace[|acts|].net)
    ensures c.at[k] < |trace| && |trace[c.at[k]].replicas| == p.n && c.ids[k] < p.n
    ensures var sys, i := trace[c.at[k]], c.ids[k];
            && Honest(sys.replicas[i], p, sys.net) && CommitsInv(sys.replicas[i], i, sys.net)
            && CorrectCollect(sys.replicas[i], p, v, c.data[k]) && Accepts(valid, sys.net)
  {
    var a, i := c.at[k], c.ids[k];
    assert CollectFrom(trace, acts, p, v, c, k);
    NetGrowsAlong(trace, acts, p, faulty, view, batchSize, a, |acts|);
    RunInv(trace, acts, p, faulty, view, batchSize, a);
    assert ReplicaInv(trace[a].replicas[i], i, p, trace[a].net);
  }

  /** Some correct replica among those asked reports the decided value, even if the
      COMMITs reach the deciding replica only after the collects were sent. */
  lemma SomeCollectReports(
    trace: seq<System>, acts: seq<Action>, p: Params, faulty: set<NodeId>, view: SeqNo, batchSize: nat,
    t: nat, valid: Msg -> bool, s: SeqNo, m: nat, v: SeqNo, d: Digest, c: Collects)
    returns (k: nat)
    requires Run(trace, acts, p, faulty, view, batchSize) && Tolerable(p, faulty) && view >= 0 && t <= |acts|
    requires CollectsFrom(trace, acts, p, faulty, m, v, c) && Accepts(valid, trace[|acts|].net)
    requires |Committers(trace[t].net, s, v, d)| >= p.Quorum() && CurrentCid(p, valid, c.data) == s && s >= 0
    requires Committers(trace[t].net, s, v, d) <= Range(0, p.n)
    ensures k < |c.data| && c.ids[k] !in faulty && Wrote(Normalize(s, c.data[k])) == Some(ViewDecision(v, d))
  {
    DistinctIds(c.ids);
    var i := QuorumsShareCorrect(p, Committers(trace[t].net, s, v, d), Asked(c.ids), faulty);
    k :| 0 <= k < |c.ids| && c.ids[k] == i;
    var a := c.at[k];
    assert CollectFrom(trace, acts, p, v, c, k);
    assert i in Committers(trace[a].net, s, v, d) by {
      var x :| x in trace[t].net && x.message == ConsensusMessage(s, v, Commit(d)) && x.header.from == i;
      NoLateCommits(trace, acts, p, faulty, view, batchSize, i, a, t, v, x);
    }
    ContributorAt(trace, acts, p, faulty, view, batchSize, m, v, c, k, valid);
    CommitterReports(trace[a].replicas[i], i, p, trace[a].net, valid, s, v, d, c.data, k);
  }

  lemma CommittersAreNodes(sys: System, p: Params, faulty: set<NodeId>, s: SeqNo, v: SeqNo, d: Digest)
    requires SystemInv(sys, p, faulty)
    ensures Committers(sys.net, s, v, d) <= Range(0, p.n)
  {
  }

  lemma CollectsAreSetting(
    trace: seq<System>, acts: seq<Action>, p: Params, faulty: set<NodeId>, view: SeqNo, batchSize: nat,
    t: nat, valid: Msg -> bool, s: SeqNo, m: nat, v: SeqNo, d: Digest, c: Collects)
    requires Run(trace, acts, p, faulty, view, batchSize) && Tolerable(p, faulty) && view >= 0 && t <= |acts|
    requires CollectsFrom(trace, acts, p, faulty, m, v, c) && Accepts(valid, trace[|acts|].net)
    requires |Committers(trace[t].net, s, v, d)| >= p.Quorum() && CurrentCid(p, valid, c.data) == s
    requires Committers(trace[t].net, s, v, d) <= Range(0, p.n) && s >= 0 && v >= 0
    ensures Setting(p, NormalizeAll(s, c.data), BadPositions(c.ids, faulty), |faulty|, m, v, d)
  {
    var cs := NormalizeAll(s, c.data);
    FewBadPositions(c.ids, faulty);
    var k := SomeCollectReports(trace, acts, p, faulty, view, batchSize, t, valid, s, m, v, d, c);
    assert Wrote(cs[k]) == Some(ViewDecision(v, d));
    forall j | 0 <= j < |cs| && j !in BadPositions(c.ids, faulty) ensures WritesUpTo(cs[j], v) {
      ContributorAt(trace, acts, p, faulty, view, batchSize, m, v, c, j, valid);
      CorrectWritesUpTo(trace[c.at[j]].replicas[c.ids[j]], p, s, v, c.data[j]);
    }
  }

  /** A single view change keeps a decided value when it is safe. Take any run in which a
      correct replica decides `d` for an instance in view `v`, sooner or later, and any
      quorum of collects, sent whenever, that puts the new view at that instance. If `v` is
      not 0, the faulty ones name no value more than `f` times all together and all views
      are within the window, then `sound` answers `Bound(d)` or nothing. */
  lemma DecidedValueSurvives(
    trace: seq<System>, acts: seq<Action>, p: Params, faulty: set<NodeId>, view: SeqNo, batchSize: nat,
    t: nat, i: NodeId, k: nat, valid: Msg -> bool, m: nat, gap: nat, c: Collects)
    requires Run(trace, acts, p, faulty, view, batchSize) && Tolerable(p, faulty) && view >= 0 && t <= |acts|
    requires |trace[t].replicas| == p.n && i < p.n && i !in faulty && k < |trace[t].replicas[i].decisions|
    requires var decided := trace[t].replicas[i].decisions[k];
             && Safe(p, |faulty|, m, decided.view, gap)
             && CollectsFrom(trace, acts, p, faulty, m, decided.view, c)
             && CurrentCid(p, valid, c.data) == decided.seqNo
             && Within(NormalizeAll(decided.seqNo, c.data), gap)
    requires Accepts(valid, trace[|acts|].net)
    ensures var decided := trace[t].replicas[i].decisions[k];
            KeepsValue(p, NormalizeAll(decided.seqNo, c.data), decided.digest)
  {
    var d := trace[t].replicas[i].decisions[k];
    DecisionIsBacked(trace, acts, p, faulty, view, batchSize, t, i, k);
    CollectsAreSetting(trace, acts, p, faulty, view, batchSize, t, valid, d.seqNo, m, d.view, d.digest, c);
    WrittenValueSurvives(
      p, NormalizeAll(d.seqNo, c.data), BadPositions(c.ids, faulty), |faulty|, m, d.view, d.digest, gap);
  }

  lemma DecisionIsBacked(
    trace: seq<System>, acts: seq<Action>, p: Params, faulty: set<NodeId>, view: SeqNo, batchSize: nat,
    t: nat, i: NodeId, k: nat)
    requires Run(trace, acts, p, faulty, view, batchSize) && Tolerable(p, faulty) && view >= 0 && t <= |acts|
    requires |trace[t].replicas| == p.n && i < p.n && i !in faulty && k < |trace[t].replicas[i].decisions|
    ensures var d := trace[t].replicas[i].decisions[k];
            var committers := Committers(trace[t].net, d.seqNo, d.view, d.digest);
            |committers| >= p.Quorum() && committers <= Range(0, p.n) && d.seqNo == k
  {
    RunInv(trace, acts, p, faulty, view, batchSize, t);
    var r := trace[t].replicas[i];
    assert DecisionsInv(r, trace[t].net) && ReplicaInv(r, i, p, trace[t].net);
    var d := r.decisions[k];
    CommittersAreNodes(trace[t], p, faulty, d.seqNo, d.view, d.digest);
  }

  // ---- the forged proposal ------------------------------------------------------------------

  lemma BoundProposal(list: seq<Msg>, s: SeqNo, d: Digest)
    requires ProposalFor(list, s, Some(d)).Some?
    requires forall i :: 0 <= i < |list| ==> Genuine(list[i]) && list[i].message.kind.PrePrepare?
    ensures d.OfMessage? && d.message.kind.PrePrepare?
    ensures ProposalFor(list, s, Some(d)).value.message == d.message
  {
  }

  /** A view change settles on the requests of the bound digest if and only if the replica
      holds that proposal, or the leader happens to offer the same. */
  lemma SettlesExactly(dl: Declog, s: SeqNo, d: Digest, offer: seq<Digest>)
    requires GenuineLog(dl) && d.OfMessage? && d.message.kind.PrePrepare?
    ensures Settled(dl, s, Some(d), offer) == d.message.kind.requests <==>
            ProposalFor(dl.prePrepares, s, Some(d)).Some? || offer == d.message.kind.requests
  {
    if ProposalFor(dl.prePrepares, s, Some(d)).Some? { BoundProposal(dl.prePrepares, s, d); }
  }

  /** In every reachable state, correct replicas at one instance that hold the bound
      proposal forge the same message in the new view, with the very requests the
      bound digest hashes. */
  lemma SameForgedProposal(
    trace: seq<System>, acts: seq<Action>, p: Params, faulty: set<NodeId>, view: SeqNo, batchSize: nat,
    t: nat, i: NodeId, j: NodeId, v: SeqNo, d: Digest, offer: seq<Digest>, offer': seq<Digest>, nonce: nat, nonce': nat)
    requires Run(trace, acts, p, faulty, view, batchSize) && Tolerable(p, faulty) && view >= 0
    requires GenuineRun(trace, acts) && t <= |acts| && |trace[t].replicas| == p.n
    requires i < p.n && j < p.n && i !in faulty && j !in faulty
    requires Sane(trace[t].replicas[i]) && Sane(trace[t].replicas[j])
    requires var r, q := trace[t].replicas[i], trace[t].replicas[j];
             && r.cons.tbo.currSeq == q.cons.tbo.currSeq
             && ProposalFor(r.log.declog.prePrepares, r.cons.tbo.currSeq, Some(d)).Some?
             && ProposalFor(q.log.declog.prePrepares, q.cons.tbo.currSeq, Some(d)).Some?
    ensures var r, q := trace[t].replicas[i], trace[t].replicas[j];
            var s := r.cons.tbo.currSeq;
            var x := FinishViewChange(r, v, s, Some(d), offer, nonce);
            var y := FinishViewChange(q, v, s, Some(d), offer', nonce');
            d.OfMessage? && d.message.kind.PrePrepare? &&
            var forged := OfMessage(ConsensusMessage(s, v, PrePrepare(d.message.kind.requests)));
            && (x.Some? ==> x.value.replica.cons.currentDigest == forged)
            && (y.Some? ==> y.value.replica.cons.currentDigest == forged)
  {
    var r, q := trace[t].replicas[i], trace[t].replicas[j];
    RunDigests(trace, acts, p, faulty, view, batchSize, t, i);
    RunDigests(trace, acts, p, faulty, view, batchSize, t, j);
    BoundProposal(r.log.declog.prePrepares, r.cons.tbo.currSeq, d);
    BoundProposal(q.log.declog.prePrepares, q.cons.tbo.currSeq, d);
  }

  // ---- agreement across a view change ---------------------------------------------------

  /** The digest of the proposal of view `v'` with the requests hashed into `d`. */
  function Forged(s: SeqNo, v': SeqNo, d: Digest): Digest
    requires d.OfMessage? && d.message.kind.PrePrepare?
  {
    OfMessage(ConsensusMessage(s, v', PrePrepare(d.message.kind.requests)))
  }

  /** Action `n` finishes a view change out of `v` for instance `s`, on a passing answer of
      `sound` for the collects `c`, at a replica that is past that instance, or is at it and
      holds the bound proposal. */
  ghost predicate SoundChange(
    trace: seq<System>, acts: seq<Action>, p: Params, faulty: set<NodeId>, m: nat, gap: nat, v: SeqNo, s: SeqNo,
    valid: Msg -> bool, c: Collects, answer: Sound, n: nat)
    requires n < |acts| && n < |trace| && acts[n].Local? && acts[n].event.ChangeView?
  {
    var e := acts[n].event;
    && CollectsFrom(trace, acts, p, faulty, m, v, c) && CurrentCid(p, valid, c.data) == s == e.cid
    && Safe(p, |faulty|, m, v, gap) && Within(NormalizeAll(s, c.data), gap)
    && SoundAnswer(p, NormalizeAll(s, c.data), answer) && Test(answer)
    && e.bound == (if answer.Bound? then Some(answer.digest) else None)
    && acts[n].id < |trace[n].replicas|
    && var r := trace[n].replicas[acts[n].id];
       && r.cons.tbo.currSeq >= s
       && (r.cons.tbo.currSeq == s && e.bound.Some? ==> ProposalFor(r.log.declog.prePrepares, s, e.bound).Some?)
  }

  /** Every correct replica enters view `v'` that way, each on collects of its own. */
  ghost predicate SoundChanges(
    trace: seq<System>, acts: seq<Action>, p: Params, faulty: set<NodeId>, m: nat, gap: nat, v: SeqNo, v': SeqNo,
    s: SeqNo, valid: Msg -> bool, collects: nat -> Collects, answers: nat -> Sound) {
    forall n :: 0 <= n < |acts| && n < |trace| && Enters(acts[n], faulty, v') ==>
      SoundChange(trace, acts, p, faulty, m, gap, v, s, valid, collects(n), answers(n), n)
  }

  predicate Enters(a: Action, faulty: set<NodeId>, v': SeqNo) {
    a.Local? && a.id !in faulty && a.event.ChangeView? && a.event.view == v'
  }

  /** In view `v'` replica `i` is past instance `s` or runs it with digest `g`, and it sent
      COMMITs for no other digest. */
  ghost predicate RunsOnly(sys: System, i: NodeId, s: SeqNo, v': SeqNo, g: Digest) {
    && i < |sys.replicas|
    && (sys.replicas[i].view.seqNo == v' ==>
          VoteFits(ConsensusMessage(s, v', Prepare(g)), sys.replicas[i].cons, v'))
    && CommitsOnly(sys.net, i, s, v', g)
  }

  ghost predicate CommitsOnly(net: set<Msg>, i: NodeId, s: SeqNo, v: SeqNo, g: Digest) {
    forall m, d :: m in net && m.header.from == i && m.message == ConsensusMessage(s, v, Commit(d)) ==> d == g
  }

  /** Entering the new view, the replica proposes what the bound digest hashes. */
  lemma EntersForged(
    r: Replica, v': SeqNo, s: SeqNo, d: Digest, proposed: seq<Digest>, nonce: nat)
    requires Sane(r) && GenuineLog(r.log.declog) && r.cons.tbo.currSeq == s
    requires ProposalFor(r.log.declog.prePrepares, s, Some(d)).Some?
    ensures d.OfMessage? && d.message.kind.PrePrepare?
    ensures var x := FinishViewChange(r, v', s, Some(d), proposed, nonce);
            x.Some? ==> VoteFits(ConsensusMessage(s, v', Prepare(Forged(s, v', d))), x.value.replica.cons, v')
  {
    BoundProposal(r.log.declog.prePrepares, s, d);
  }

  /** A step of a replica in its view, or into another one, keeps it. */
  lemma RunsOnlyStep(r: Replica, e: Event, i: NodeId, net: set<Msg>, nonce: nat, s: SeqNo, v': SeqNo, g: Digest)
    requires BaseInv(r) && Step(r, e).Some?
    requires r.view.seqNo == v' ==> VoteFits(ConsensusMessage(s, v', Prepare(g)), r.cons, v')
    requires CommitsOnly(net, i, s, v', g)
    requires var r' := Step(r, e).value.replica;
             e.ChangeView? && e.view == v' ==> VoteFits(ConsensusMessage(s, v', Prepare(g)), r'.cons, v')
    ensures var r' := Step(r, e).value.replica;
            r'.view.seqNo == v' ==> VoteFits(ConsensusMessage(s, v', Prepare(g)), r'.cons, v')
    ensures CommitsOnly(net + Broadcast(i, Step(r, e).value.sent, nonce), i, s, v', g)
  {
    StepIdentity(r, e);
    StepSends(r, e);
    if !e.ChangeView? && r.view.seqNo == v' { StepFits(r, e, ConsensusMessage(s, v', Prepare(g))); }
  }

  /** What makes a correct replica run one digest only is kept along the run. */
  lemma {:induction false} RunsOnlyAlong(
    trace: seq<System>, acts: seq<Action>, p: Params, faulty: set<NodeId>, view: SeqNo, batchSize: nat,
    t: nat, i: NodeId, s: SeqNo, v': SeqNo, g: Digest)
    requires Run(trace, acts, p, faulty, view, batchSize) && Tolerable(p, faulty) && view >= 0 && t <= |acts|
    requires i < p.n && i !in faulty && v' > view
    requires forall n :: 0 <= n < |acts| && Enters(acts[n], faulty, v') && acts[n].id == i ==>
               EntersWith(trace, acts, n, s, v', g)
    ensures RunsOnly(trace[t], i, s, v', g)
  {
    if t == 0 {
      assert trace[0].replicas[i] == Initial(i, ViewInfo(view, p), batchSize);
    } else {
      var n := t - 1;
      RunsOnlyAlong(trace, acts, p, faulty, view, batchSize, n, i, s, v', g);
      assert Agreement.Next(faulty, trace[n], acts[n], trace[t]);
      if acts[n].Local? && acts[n].id == i {
        assert BaseInv(trace[n].replicas[i]) by {
          RunInv(trace, acts, p, faulty, view, batchSize, n);
          assert ReplicaInv(trace[n].replicas[i], i, p, trace[n].net);
        }
        assert Enters(acts[n], faulty, v') ==> EntersWith(trace, acts, n, s, v', g);
        RunsOnlyStep(trace[n].replicas[i], acts[n].event, i, trace[n].net, acts[n].nonce, s, v', g);
      }
    }
  }

  /** The state after entering `v'` at action `n` runs instance `s` with digest `g`. */
  ghost predicate EntersWith(trace: seq<System>, acts: seq<Action>, n: nat, s: SeqNo, v': SeqNo, g: Digest)
    requires n < |acts| && acts[n].Local?
  {
    n + 1 < |trace| && acts[n].id < |trace[n + 1].replicas| &&
    VoteFits(ConsensusMessage(s, v', Prepare(g)), trace[n + 1].replicas[acts[n].id].cons, v')
  }

  /** A sound view change settles on the decided value. */
  lemma EnteringSettles(
    trace: seq<System>, acts: seq<Action>, p: Params, faulty: set<NodeId>, view: SeqNo, batchSize: nat,
    t: nat, i: NodeId, k: nat, valid: Msg -> bool, m: nat, gap: nat, v': SeqNo, c: Collects, answer: Sound, n: nat)
    requires Run(trace, acts, p, faulty, view, batchSize) && Tolerable(p, faulty) && view >= 0 && t <= |acts|
    requires GenuineRun(trace, acts) && Accepts(valid, trace[|acts|].net)
    requires |trace[t].replicas| == p.n && i < p.n && i !in faulty && k < |trace[t].replicas[i].decisions|
    requires n < |acts| && Enters(acts[n], faulty, v')
    requires var d := trace[t].replicas[i].decisions[k];
             SoundChange(trace, acts, p, faulty, m, gap, d.view, d.seqNo, valid, c, answer, n)
    ensures var d := trace[t].replicas[i].decisions[k];
            && d.digest.OfMessage? && d.digest.message.kind.PrePrepare?
            && EntersWith(trace, acts, n, d.seqNo, v', Forged(d.seqNo, v', d.digest))
  {
    var d, j := trace[t].replicas[i].decisions[k], acts[n].id;
    assert acts[n].event.bound == Some(d.digest) by {
      DecidedValueSurvives(trace, acts, p, faulty, view, batchSize, t, i, k, valid, m, gap, c);
      assert answer == Bound(d.digest);
    }
    assert Explained(d) by { RunDigests(trace, acts, p, faulty, view, batchSize, t, i); }
    assert Agreement.Next(faulty, trace[n], acts[n], trace[n + 1]);
    assert j < p.n && |trace[n].replicas| == p.n by { RunInv(trace, acts, p, faulty, view, batchSize, n); }
    if trace[n].replicas[j].cons.tbo.currSeq == d.seqNo {
      RunDigests(trace, acts, p, faulty, view, batchSize, n, j);
      EnterStep(faulty, trace[n], acts[n], trace[n + 1], d.seqNo, d.digest);
    } else {
      EnterPast(faulty, trace[n], acts[n], trace[n + 1], d.seqNo, Forged(d.seqNo, v', d.digest));
    }
  }

  /** A replica past the instance stays past it. */
  lemma EnterPast(faulty: set<NodeId>, sys: System, a: Action, sys': System, s: SeqNo, g: Digest)
    requires Agreement.Next(faulty, sys, a, sys') && a.Local? && a.event.ChangeView?
    requires sys.replicas[a.id].cons.tbo.currSeq > s
    ensures a.id < |sys'.replicas|
    ensures VoteFits(ConsensusMessage(s, a.event.view, Prepare(g)), sys'.replicas[a.id].cons, a.event.view)
  {
  }

  lemma EnterStep(faulty: set<NodeId>, sys: System, a: Action, sys': System, s: SeqNo, d: Digest)
    requires Agreement.Next(faulty, sys, a, sys') && a.Local? && a.event.ChangeView?
    requires a.event.cid == s && a.event.bound == Some(d)
    requires var r := sys.replicas[a.id];
             && DigestInv(r) && r.cons.tbo.currSeq == s
             && ProposalFor(r.log.declog.prePrepares, s, Some(d)).Some?
    ensures d.OfMessage? && d.message.kind.PrePrepare? && a.id < |sys'.replicas|
    ensures VoteFits(ConsensusMessage(s, a.event.view, Prepare(Forged(s, a.event.view, d))),
                     sys'.replicas[a.id].cons, a.event.view)
  {
    EntersForged(sys.replicas[a.id], a.event.view, s, d, a.event.proposed, a.event.nonce);
  }

  /** Agreement across a view change. If correct replicas enter view `v'` only by sound
      view changes out of `v` for an instance, some at it and some past it, then correct
      replicas that decide this instance, one in `v` and one in `v'`, execute the same
      requests. */
  lemma AgreementAcrossViews(
    trace: seq<System>, acts: seq<Action>, p: Params, faulty: set<NodeId>, view: SeqNo, batchSize: nat,
    t: nat, i: NodeId, j: NodeId, k: nat, valid: Msg -> bool, m: nat, gap: nat, collects: nat -> Collects,
    answers: nat -> Sound)
    requires Run(trace, acts, p, faulty, view, batchSize) && Tolerable(p, faulty) && view >= 0 && t <= |acts|
    requires GenuineRun(trace, acts) && Accepts(valid, trace[|acts|].net) && |trace[t].replicas| == p.n
    requires i < p.n && i !in faulty && k < |trace[t].replicas[i].decisions|
    requires j < p.n && j !in faulty && k < |trace[t].replicas[j].decisions|
    requires var a, b := trace[t].replicas[i].decisions[k], trace[t].replicas[j].decisions[k];
             && a.view < b.view
             && SoundChanges(trace, acts, p, faulty, m, gap, a.view, b.view, a.seqNo, valid, collects, answers)
    ensures var a, b := trace[t].replicas[i].decisions[k], trace[t].replicas[j].decisions[k];
            a.requests == b.requests && Operations(a.result.batch) == Operations(b.result.batch)
  {
    var a, b := trace[t].replicas[i].decisions[k], trace[t].replicas[j].decisions[k];
    DecisionIsBacked(trace, acts, p, faulty, view, batchSize, t, i, k);
    DecisionIsBacked(trace, acts, p, faulty, view, batchSize, t, j, k);
    RunDigests(trace, acts, p, faulty, view, batchSize, t, i);
    RunDigests(trace, acts, p, faulty, view, batchSize, t, j);
    assert Explained(a) && Explained(b);
    var g := Forged(k, b.view, a.digest);
    var committers := Committers(trace[t].net, k, b.view, b.digest);
    var q := QuorumsShareCorrect(p, committers, committers, faulty);
    forall n | 0 <= n < |acts| && Enters(acts[n], faulty, b.view) && acts[n].id == q
      ensures EntersWith(trace, acts, n, k, b.view, g)
    {
      EnteringSettles(
        trace, acts, p, faulty, view, batchSize, t, i, k, valid, m, gap, b.view, collects(n), answers(n), n);
    }
    ViewsFromStart(trace, acts, p, faulty, view, batchSize, t, i);
    RunsOnlyAlong(trace, acts, p, faulty, view, batchSize, t, q, k, b.view, g);
  }

  /** Nobody decides in a view before the first one. */
  lemma {:induction false} ViewsFromStart(
    trace: seq<System>, acts: seq<Action>, p: Params, faulty: set<NodeId>, view: SeqNo, batchSize: nat,
    t: nat, i: NodeId)
    requires Run(trace, acts, p, faulty, view, batchSize) && Tolerable(p, faulty) && view >= 0 && t <= |acts|
    requires i < p.n && i !in faulty
    ensures |trace[t].replicas| == p.n && trace[t].replicas[i].view.seqNo >= view
    ensures forall k :: 0 <= k < |trace[t].replicas[i].decisions| ==> trace[t].replicas[i].decisions[k].view >= view
  {
    if t > 0 {
      var n := t - 1;
      ViewsFromStart(trace, acts, p, faulty, view, batchSize, n, i);
      assert Agreement.Next(faulty, trace[n], acts[n], trace[t]);
      if acts[n].Local? && acts[n].id == i {
        var r := trace[n].replicas[i];
        assert BaseInv(r) && CountsVotes(r) by {
          RunInv(trace, acts, p, faulty, view, batchSize, n);
          assert ReplicaInv(r, i, p, trace[n].net);
        }
        StepIdentity(r, acts[n].event);
        StepDecides(r, acts[n].event);
      }
    }
  }
}
