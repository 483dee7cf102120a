/** What a replica reports in a view change is what it did: consequences of the
    log invariant for `to_be_decided`, `last_decision` and `finalize_batch`. */
module Certificates {
  import opened Wrappers
  import opened Ordering
  import opened Core
  import opened Messages
  import opened Counting
  import opened DecisionLogs
  import opened Replicas
  import opened ReplicaInvariants

  /** No checkpoint finished since the running instance's proposal was logged. */
  predicate Intact(r: Replica) {
    Active(r.cons) ==> r.log.declog.prePrepares != []
  }

  lemma ExecutingIsCurrent(r: Replica)
    requires BaseInv(r)
    ensures Executing(r.log.declog.lastExec) == r.cons.tbo.currSeq
  {
  }

  /** The certificate of the running instance: its one proposal, and a quorum write
      exactly in the COMMIT phase. */
  ghost predicate FaithfulCertificate(r: Replica) {
    var c := ToBeDecided(r.log.declog, r.view.params.f);
    var written := ViewDecision(r.view.seqNo, r.cons.currentDigest);
    && c.Done?
    && c.value == IncompleteProof(
                    r.cons.tbo.currSeq, if Active(r.cons) then [written] else [],
                    if r.cons.phase.Committing? then Some(written) else None)
  }

  /** A quorum of PREPAREs of an earlier view is logged. */
  ghost predicate OldQuorum(r: Replica) {
    exists u: SeqNo ::
      u < r.view.seqNo && Count(r.log.declog.prepares, Of(r.cons.tbo.currSeq, u)) >= 2 * r.view.params.f
  }

  /** Exactly one proposal of the running instance is logged. */
  ghost predicate OneProposal(r: Replica) {
    Count(r.log.declog.prePrepares, For(r.cons.tbo.currSeq)) == 1
  }

  /** What the PREPARE scan reports: the latest view with a quorum, which is the current one
      in the COMMIT phase of an intact log. */
  lemma QuorumWriteFaithful(r: Replica)
    requires LogInv(r)
    ensures var q := QuorumWrite(r.log.declog.prepares, |r.log.declog.prepares|, r.cons.tbo.currSeq,
                                 2 * r.view.params.f, None, 0);
            && q.Done?
            && (q.value.Some? ==> Active(r.cons) && q.value.value.view <= r.view.seqNo)
            && (q.value.Some? && q.value.value.view == r.view.seqNo ==>
                  r.cons.phase.Committing? && q.value.value.digest == r.cons.currentDigest)
            && (r.cons.phase.Committing? && Intact(r) ==>
                  q.value == Some(ViewDecision(r.view.seqNo, r.cons.currentDigest)))
            && (Active(r.cons) && !r.cons.phase.Committing? ==> (q.value.Some? <==> OldQuorum(r)))
  {
    var s, v, list := r.cons.tbo.currSeq, r.view.seqNo, r.log.declog.prepares;
    QuorumWriteExact(list, s, v, 2 * r.view.params.f, v);
    var q := QuorumWrite(list, |list|, s, 2 * r.view.params.f, None, 0);
    if q.value.Some? {
      var i :| 0 <= i < |list| && Names(list[i], s, q.value.value);
    }
    if u: SeqNo :| u < v && Count(list, Of(s, u)) >= 2 * r.view.params.f {
      QuorumWriteExact(list, s, v, 2 * r.view.params.f, u);
    }
  }

  lemma WriteSetFaithful(r: Replica)
    requires LogInv(r)
    ensures var w := WriteSet(r.log.declog.prePrepares, |r.log.declog.prePrepares|, r.cons.tbo.currSeq);
            && w.Done? && |w.value| == Count(r.log.declog.prePrepares, For(r.cons.tbo.currSeq))
            && (forall i :: 0 <= i < |w.value| ==> Active(r.cons) && w.value[i].view <= r.view.seqNo)
            && (Active(r.cons) && Intact(r) ==>
                  |w.value| > 0 && w.value[0] == ViewDecision(r.view.seqNo, r.cons.currentDigest))
  {
    var s, pp := r.cons.tbo.currSeq, r.log.declog.prePrepares;
    assert pp[..|pp|] == pp;
    WriteSetExact(pp, |pp|, s, r.view.seqNo);
    if Active(r.cons) && Intact(r) {
      CurrentIsLast(r);
    }
  }

  /** The last proposal logged is the running one. */
  lemma CurrentIsLast(r: Replica)
    requires LogInv(r) && Active(r.cons) && Intact(r)
    ensures var pp := r.log.declog.prePrepares;
            Of(r.cons.tbo.currSeq, r.view.seqNo)(pp[|pp| - 1]) && pp[|pp| - 1].header.digest == r.cons.currentDigest
  {
    var s, v, pp := r.cons.tbo.currSeq, r.view.seqNo, r.log.declog.prePrepares;
    CountPositive(pp, Of(s, v));
    var i :| 0 <= i < |pp| && Of(s, v)(pp[i]);
    assert i < |pp| - 1 ==> NotAfter(pp[i], pp[|pp| - 1]);
  }

  /** The certificate never panics, and reports no write of a later view, nor one of the
      current view that the replica has not sent a COMMIT for. On an intact log it starts
      with the running proposal and reports every write. */
  lemma CertificateFaithful(r: Replica)
    requires LogInv(r)
    ensures var c := ToBeDecided(r.log.declog, r.view.params.f);
            var written := ViewDecision(r.view.seqNo, r.cons.currentDigest);
            && c.Done? && c.value.inExec == r.cons.tbo.currSeq
            && (forall i :: 0 <= i < |c.value.writeSet| ==> c.value.writeSet[i].view <= r.view.seqNo)
            && (c.value.quorumWrites.Some? ==> c.value.quorumWrites.value.view <= r.view.seqNo)
            && (c.value.quorumWrites.Some? && c.value.quorumWrites.value.view == r.view.seqNo ==>
                  r.cons.phase.Committing? && c.value.quorumWrites.value == written)
            && (Active(r.cons) && Intact(r) ==> |c.value.writeSet| > 0 && c.value.writeSet[0] == written)
            && (r.cons.phase.Committing? && Intact(r) ==> c.value.quorumWrites == Some(written))
  {
    ExecutingIsCurrent(r);
    QuorumWriteFaithful(r);
    WriteSetFaithful(r);
  }

  /** The certificate is exact if and only if no instance is running, or the log holds its
      current proposal and no other, and before the COMMIT phase no quorum of PREPAREs of
      an earlier view. */
  lemma CertificateExactly(r: Replica)
    requires LogInv(r)
    ensures FaithfulCertificate(r) <==>
            !Active(r.cons) || (Intact(r) && OneProposal(r) && (r.cons.phase.Committing? || !OldQuorum(r)))
  {
    ExecutingIsCurrent(r);
    QuorumWriteFaithful(r);
    WriteSetFaithful(r);
    var s, pp := r.cons.tbo.currSeq, r.log.declog.prePrepares;
    var w := WriteSet(pp, |pp|, s).value;
    if !Active(r.cons) {
      BeforeCounts(pp, s);
    } else if Intact(r) {
      assert OneProposal(r) ==> w == [w[0]];
    } else {
      NoneBehind(pp, s);
    }
  }

  /** Some proposal of the last executed instance is still in the log. */
  ghost predicate LastIntact(r: Replica) {
    r.log.declog.lastExec.Some? ==> Count(r.log.declog.prePrepares, For(r.log.declog.lastExec.value)) > 0
  }

  /** `p` proves the decision `d`, with a PREPARE quorum less the leader and a COMMIT quorum. */
  ghost predicate Proves(p: Proof, d: Decision, params: Params) {
    && Number(p.prePrepare) == d.seqNo && p.prePrepare.header.digest == d.digest
    && |p.prepares| >= 2 * params.f && |p.commits| >= params.Quorum()
    && AllVote(p.prepares, ConsensusMessage(d.seqNo, d.view, Prepare(d.digest)))
    && AllVote(p.commits, ConsensusMessage(d.seqNo, d.view, Commit(d.digest)))
  }

  /** The log proves the last decision. */
  ghost predicate ProvesLast(dl: Declog, last: Decision, p: Params) {
    var r := LastDecision(dl, p); r.Done? && r.value.Some? && Proves(r.value.value, last, p)
  }

  /** Each list holds something of the last decided instance. */
  ghost predicate ProofHeld(dl: Declog, s: SeqNo) {
    Count(dl.prePrepares, For(s)) > 0 && Count(dl.prepares, For(s)) > 0 && Count(dl.commits, For(s)) > 0
  }

  /** The votes the scan returns for the decided instance. */
  lemma VotesOfDecision(list: seq<Msg>, bound: SeqNo, top: SeqNo, s: SeqNo, v: SeqNo, d: Digest, n: nat)
    requires Ordered(list, bound, top) && UpTo(list, s, v) && Uniform(list, s, v, d) && Whole(list, s, v, n) && n > 0
    ensures var votes := LastVotes(list, s);
            && |votes| == (if Count(list, For(s)) == 0 then 0 else n)
            && forall i :: 0 <= i < |votes| ==>
                 votes[i] in list && Of(s, v)(votes[i]) && !votes[i].message.kind.PrePrepare?
                 && votes[i].message.kind.digest == d
  {
    if Count(list, For(s)) == 0 {
      CountPositive(list, For(s));
    } else {
      LastVotesExact(list, bound, top, s, v, Of(s, v));
      LastVotesCount(list, bound, top, s, v);
    }
  }

  lemma PreparesOfDecision(list: seq<Msg>, bound: SeqNo, top: SeqNo, last: Decision, n: nat)
    requires Ordered(list, bound, top) && UpTo(list, last.seqNo, last.view) && n > 0
    requires Uniform(list, last.seqNo, last.view, last.digest) && Whole(list, last.seqNo, last.view, n)
    requires forall i :: 0 <= i < |list| ==> list[i].message.kind.Prepare?
    ensures var votes := LastVotes(list, last.seqNo);
            && |votes| == (if Count(list, For(last.seqNo)) == 0 then 0 else n)
            && AllVote(votes, ConsensusMessage(last.seqNo, last.view, Prepare(last.digest)))
  {
    VotesOfDecision(list, bound, top, last.seqNo, last.view, last.digest, n);
  }

  lemma CommitsOfDecision(list: seq<Msg>, bound: SeqNo, top: SeqNo, last: Decision, n: nat)
    requires Ordered(list, bound, top) && UpTo(list, last.seqNo, last.view) && n > 0
    requires Uniform(list, last.seqNo, last.view, last.digest) && Whole(list, last.seqNo, last.view, n)
    requires forall i :: 0 <= i < |list| ==> list[i].message.kind.Commit?
    ensures var votes := LastVotes(list, last.seqNo);
            && |votes| == (if Count(list, For(last.seqNo)) == 0 then 0 else n)
            && AllVote(votes, ConsensusMessage(last.seqNo, last.view, Commit(last.digest)))
  {
    VotesOfDecision(list, bound, top, last.seqNo, last.view, last.digest, n);
  }

  /** What the scans find of the last decided instance. */
  lemma ProofFromLog(dl: Declog, s: SeqNo, v: SeqNo, last: Decision, p: Params)
    requires OrderInv(dl, s, v) && KindsInv(dl) && dl.lastExec == Some(last.seqNo) && p.f > 0
    requires DecidedInv(dl, last.seqNo, last.view, last.digest, p)
    ensures FindsLast(dl, last, p)
  {
    ProposalOfDecision(dl.prePrepares, s, v, last);
    if Count(dl.prePrepares, For(last.seqNo)) > 0 {
      PreparesOfDecision(dl.prepares, s, v, last, 2 * p.f);
      CommitsOfDecision(dl.commits, s, v, last, p.Quorum());
      FromParts(dl, last, p);
    }
  }

  /** The proposal the scan stops at is the decided one. */
  lemma ProposalOfDecision(list: seq<Msg>, bound: SeqNo, top: SeqNo, last: Decision)
    requires Ordered(list, bound, top) && UpTo(list, last.seqNo, last.view)
    requires Proposals(list, last.seqNo, last.view, last.digest)
    requires Count(list, For(last.seqNo)) > 0 ==> Count(list, Of(last.seqNo, last.view)) == 1
    ensures var k := SkipLater(list, |list|, last.seqNo);
            && (k > 0 <==> Count(list, For(last.seqNo)) > 0)
            && (k > 0 ==> list[k - 1].header.digest == last.digest)
  {
    CountPositive(list, For(last.seqNo));
    if Count(list, For(last.seqNo)) > 0 { LatestView(list, bound, top, last.seqNo, last.view); }
  }

  /** Each vote is one for the decision. */
  ghost predicate AllVote(votes: seq<Msg>, message: ConsensusMessage) {
    forall i :: 0 <= i < |votes| ==> votes[i].message == message
  }

  lemma FromParts(dl: Declog, last: Decision, p: Params)
    requires dl.lastExec == Some(last.seqNo) && p.f > 0
    requires var k := SkipLater(dl.prePrepares, |dl.prePrepares|, last.seqNo);
             && k > 0 && Count(dl.prePrepares, For(last.seqNo)) > 0
             && dl.prePrepares[k - 1].header.digest == last.digest
    requires |LastVotes(dl.prepares, last.seqNo)| == if Count(dl.prepares, For(last.seqNo)) == 0 then 0 else 2 * p.f
    requires AllVote(LastVotes(dl.prepares, last.seqNo), ConsensusMessage(last.seqNo, last.view, Prepare(last.digest)))
    requires |LastVotes(dl.commits, last.seqNo)| == if Count(dl.commits, For(last.seqNo)) == 0 then 0 else p.Quorum()
    requires AllVote(LastVotes(dl.commits, last.seqNo), ConsensusMessage(last.seqNo, last.view, Commit(last.digest)))
    ensures FindsLast(dl, last, p)
  {
  }

  /** The lookup panics without the proposal, and finds a proof when the votes are there. */
  ghost predicate FindsLast(dl: Declog, last: Decision, p: Params) {
    && (LastDecision(dl, p).Panic? <==> Count(dl.prePrepares, For(last.seqNo)) == 0)
    && (!LastDecision(dl, p).Panic? ==>
          if ProofHeld(dl, last.seqNo) then ProvesLast(dl, last, p) else LastDecision(dl, p) == Done(None))
  }

  /** The lookup of the last decision: it panics exactly when the decided proposal has left
      the log. Otherwise the log yields a complete proof, with `2f` PREPAREs and `2f + 1`
      COMMITs, exactly when its votes have not been cleared. */
  lemma ProofComplete(r: Replica)
    requires LogInv(r)
    ensures LastDecision(r.log.declog, r.view.params).Panic? <==> !LastIntact(r)
    ensures r.cons.tbo.currSeq == 0 ==> LastDecision(r.log.declog, r.view.params) == Done(None)
    ensures r.cons.tbo.currSeq > 0 && LastIntact(r) ==>
              if ProofHeld(r.log.declog, r.cons.tbo.currSeq - 1)
              then ProvesLast(r.log.declog, r.decisions[r.cons.tbo.currSeq - 1], r.view.params)
              else LastDecision(r.log.declog, r.view.params) == Done(None)
  {
    var s := r.cons.tbo.currSeq;
    if s > 0 {
      assert FindsLast(r.log.declog, r.decisions[s - 1], r.view.params) by {
        ProofFromLog(r.log.declog, s, r.view.seqNo, r.decisions[s - 1], r.view.params);
      }
    }
  }

  // ---- view changes for another instance -------------------------------------------

  /** After a view change the certificate is exact if and only if it was finished for the
      running instance, or the log held no proposal of it and no quorum of PREPAREs. */
  lemma CertificateAfterChange(
    r: Replica, view: SeqNo, cid: SeqNo, bound: Option<Digest>, proposed: seq<Digest>, nonce: nat)
    requires LogInv(r) && FinishViewChange(r, view, cid, bound, proposed, nonce).Some?
    ensures var s, dl := r.cons.tbo.currSeq, r.log.declog;
            FaithfulCertificate(FinishViewChange(r, view, cid, bound, proposed, nonce).value.replica) <==>
            || cid == s
            || (Count(dl.prePrepares, For(s)) == 0
                && forall u: SeqNo :: u < view ==> Count(dl.prepares, Of(s, u)) < 2 * r.view.params.f)
  {
    var s, dl := r.cons.tbo.currSeq, r.log.declog;
    var r' := FinishViewChange(r, view, cid, bound, proposed, nonce).value.replica;
    ViewChangeKeepsLog(r, view, cid, bound, proposed, nonce);
    CertificateExactly(r');
    var m := ChangedParts(r, view, cid, bound, proposed, nonce);
    ProposalsAfterChange(dl.prePrepares, m, cid, s, r.view.seqNo);
    forall u: SeqNo
      ensures cid == s ==> Count(r'.log.declog.prepares, Of(s, u)) == 0
      ensures cid != s ==> Count(r'.log.declog.prepares, Of(s, u)) == Count(dl.prepares, Of(s, u))
    {
      PreparesAfterChange(dl.prepares, cid, s, r.view.seqNo, u);
    }
  }

  lemma ProposalsAfterChange(list: seq<Msg>, m: Msg, cid: SeqNo, s: SeqNo, v: SeqNo)
    requires Ordered(list, s, v) && Number(m) == s
    ensures Count(DropSuffix(list, cid) + [m], For(s)) == (if cid == s then 0 else Count(list, For(s))) + 1
  {
    CountAppend(DropSuffix(list, cid), m, For(s));
    if cid == s { ClearedAll(list, s, v); } else { DropSuffixCounts(list, cid, For(s)); }
  }

  lemma PreparesAfterChange(list: seq<Msg>, cid: SeqNo, s: SeqNo, v: SeqNo, u: SeqNo)
    requires Ordered(list, s, v)
    ensures Count(DropSuffix(list, cid), Of(s, u)) == if cid == s then 0 else Count(list, Of(s, u))
  {
    if cid == s {
      ClearedAll(list, s, v);
      CountPositive(DropSuffix(list, s), For(s));
      NoneOfView(DropSuffix(list, s), s, u);
    } else {
      DropSuffixCounts(list, cid, Of(s, u));
    }
  }

  /** Clearing the newest instance takes all of it. */
  lemma ClearedAll(list: seq<Msg>, s: SeqNo, v: SeqNo)
    requires Ordered(list, s, v)
    ensures Count(DropSuffix(list, s), For(s)) == 0
  {
    DropSuffixExact(list, s, s, v);
    if list == [] || Number(list[|list| - 1]) != s {
      forall i | 0 <= i < |list| ensures Number(list[i]) != s {
        assert i < |list| - 1 ==> NotAfter(list[i], list[|list| - 1]);
      }
      NoneBehind(list, s);
    }
  }

  predicate EndsWith(list: seq<Msg>, s: SeqNo) {
    list != [] && Number(list[|list| - 1]) == s
  }

  /** The view change is finished for the last decided instance, while nothing newer is
      logged behind one of its lists. */
  predicate ClearsProof(r: Replica, cid: SeqNo) {
    var last, dl := r.cons.tbo.currSeq - 1, r.log.declog;
    cid == last && (EndsWith(dl.prePrepares, last) || EndsWith(dl.prepares, last) || EndsWith(dl.commits, last))
  }

  /** A view change takes the proof of the last decision exactly in that case. */
  lemma ProofAfterChange(
    r: Replica, view: SeqNo, cid: SeqNo, bound: Option<Digest>, proposed: seq<Digest>, nonce: nat)
    requires LogInv(r) && r.cons.tbo.currSeq > 0 && FinishViewChange(r, view, cid, bound, proposed, nonce).Some?
    ensures var last := r.cons.tbo.currSeq - 1;
            ProofHeld(FinishViewChange(r, view, cid, bound, proposed, nonce).value.replica.log.declog, last) <==>
            ProofHeld(r.log.declog, last) && !ClearsProof(r, cid)
  {
    var m := ChangedParts(r, view, cid, bound, proposed, nonce);
    ProofAfterClear(r.log.declog, cid, m, r.cons.tbo.currSeq, r.view.seqNo);
  }

  lemma ProofAfterClear(dl: Declog, cid: SeqNo, m: Msg, s: SeqNo, v: SeqNo)
    requires OrderInv(dl, s, v) && s > 0 && Number(m) == s && m.message.kind.PrePrepare?
    ensures ProofHeld(Insert(ClearLastOccurrences(dl, cid), m), s - 1) <==>
            && ProofHeld(dl, s - 1)
            && !(cid == s - 1
                 && (EndsWith(dl.prePrepares, cid) || EndsWith(dl.prepares, cid) || EndsWith(dl.commits, cid)))
  {
    var dl' := ClearLastOccurrences(dl, cid);
    CountAppend(dl'.prePrepares, m, For(s - 1));
    assert Clears(dl.prePrepares, cid, dl'.prePrepares, s - 1) by { HeldAfterClear(dl.prePrepares, cid, s, v, s - 1); }
    assert Clears(dl.prepares, cid, dl'.prepares, s - 1) by { HeldAfterClear(dl.prepares, cid, s, v, s - 1); }
    assert Clears(dl.commits, cid, dl'.commits, s - 1) by { HeldAfterClear(dl.commits, cid, s, v, s - 1); }
  }

  /** Clearing takes all of an instance that ends the list, and nothing of another one. */
  ghost predicate Clears(list: seq<Msg>, cid: SeqNo, rest: seq<Msg>, s: SeqNo) {
    Count(rest, For(s)) > 0 <==> Count(list, For(s)) > 0 && !(cid == s && EndsWith(list, s))
  }

  lemma HeldAfterClear(list: seq<Msg>, cid: SeqNo, bound: SeqNo, top: SeqNo, s: SeqNo)
    requires Ordered(list, bound, top)
    ensures Clears(list, cid, DropSuffix(list, cid), s)
  {
    DropSuffixExact(list, cid, bound, top);
    if cid != s { DropSuffixCounts(list, cid, For(s)); }
  }

  // ---- whole histories of one replica ---------------------------------------------

  lemma HistoryStepKeeps(
    trace: seq<Replica>, events: seq<Event>, me: NodeId, view: ViewInfo, batchSize: nat, k: nat)
    requires History(trace, events, me, view, batchSize) && k < |events| && LogInv(trace[k])
    ensures LogInv(trace[k + 1])
  {
    assert Follows(trace[k], events[k], trace[k + 1]);
    StepKeepsLog(trace[k], events[k]);
  }

  lemma {:induction false} HistoryKeepsLog(
    trace: seq<Replica>, events: seq<Event>, me: NodeId, view: ViewInfo, batchSize: nat, k: nat)
    requires History(trace, events, me, view, batchSize) && k < |trace|
    ensures LogInv(trace[k])
  {
    if k == 0 {
      InitialLog(me, view, batchSize);
    } else {
      HistoryKeepsLog(trace, events, me, view, batchSize, k - 1);
      HistoryStepKeeps(trace, events, me, view, batchSize, k - 1);
    }
  }

  /** In every history the three lists stay sorted and bounded by the instance in
      execution, which is the running one, so neither reverse scan reaches its
      `unreachable!()`. */
  lemma LogStaysOrdered(trace: seq<Replica>, events: seq<Event>, me: NodeId, view: ViewInfo, batchSize: nat, k: nat)
    requires History(trace, events, me, view, batchSize) && k < |trace|
    ensures OrderInv(trace[k].log.declog, trace[k].cons.tbo.currSeq, trace[k].view.seqNo)
    ensures Executing(trace[k].log.declog.lastExec) == trace[k].cons.tbo.currSeq
    ensures ToBeDecided(trace[k].log.declog, trace[k].view.params.f).Done?
  {
    HistoryKeepsLog(trace, events, me, view, batchSize, k);
    CertificateFaithful(trace[k]);
    ExecutingIsCurrent(trace[k]);
  }

  /** In every history each instance is finalized under its own number, wherever
      `finalize_batch` reads it from, so checkpoints are begun exactly at the positive
      multiples of the period. */
  lemma CheckpointsAtPeriods(
    trace: seq<Replica>, events: seq<Event>, me: NodeId, view: ViewInfo, batchSize: nat, k: nat, i: nat)
    requires History(trace, events, me, view, batchSize) && k < |trace| && i < |trace[k].decisions|
    ensures |trace[k].decisions| == trace[k].cons.tbo.currSeq && trace[k].decisions[i].seqNo == i
    ensures trace[k].decisions[i].result.info.BeginCheckpoint? <==> i > 0 && i % PERIOD == 0
  {
    HistoryKeepsLog(trace, events, me, view, batchSize, k);
  }
}
