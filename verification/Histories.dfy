/** What empties the decision log, over whole histories of one replica, and a history
    that runs into it. */
module Histories {
  import opened Wrappers
  import opened Ordering
  import opened Core
  import opened Messages
  import opened Counting
  import opened DecisionLogs
  import opened Logs
  import opened NormalPhase
  import opened Replicas
  import opened ReplicaInvariants
  import opened Certificates

  /** The step logs a proposal of the running instance: received, or forged by a view change. */
  predicate LogsProposal(r: Replica, r': Replica) {
    r'.view != r.view || (!Active(r.cons) && Active(r'.cons))
  }

  /** No application state came back since the last proposal was logged. */
  ghost predicate ProposalKept(trace: seq<Replica>, events: seq<Event>, k: nat)
    requires k < |trace| == |events| + 1
  {
    k == 0 || LogsProposal(trace[k - 1], trace[k])
    || (!events[k - 1].CheckpointDone? && ProposalKept(trace, events, k - 1))
  }

  /** Nor since the one of the last decision, and no view change was finished for that
      instance while the next one had no proposal. */
  ghost predicate DecisionKept(trace: seq<Replica>, events: seq<Event>, k: nat)
    requires k < |trace| == |events| + 1
  {
    k == 0
    || (if |trace[k].decisions| > |trace[k - 1].decisions| then ProposalKept(trace, events, k - 1)
        else
          && !events[k - 1].CheckpointDone? && !ClearsLast(trace[k - 1], events[k - 1])
          && DecisionKept(trace, events, k - 1))
  }

  /** A view change was finished for another instance while a proposal of the running one
      was logged, and the log has not been emptied since. */
  ghost predicate OldProposal(trace: seq<Replica>, events: seq<Event>, k: nat)
    requires k < |trace| == |events| + 1
  {
    k > 0 && !events[k - 1].CheckpointDone? && |trace[k].decisions| == |trace[k - 1].decisions|
    && (if events[k - 1].ChangeView? then
          && events[k - 1].cid != trace[k - 1].cons.tbo.currSeq && Active(trace[k - 1].cons)
          && ProposalKept(trace, events, k - 1)
        else OldProposal(trace, events, k - 1))
  }

  /** The last decision was taken on an intact log, no checkpoint finished since, and no
      view change for its instance found one of its lists without newer messages. */
  ghost predicate ProofKept(trace: seq<Replica>, events: seq<Event>, k: nat)
    requires k < |trace| == |events| + 1
  {
    k > 0
    && (if |trace[k].decisions| > |trace[k - 1].decisions| then ProposalKept(trace, events, k - 1)
        else
          && !events[k - 1].CheckpointDone?
          && !(events[k - 1].ChangeView? && ClearsProof(trace[k - 1], events[k - 1].cid))
          && ProofKept(trace, events, k - 1))
  }

  predicate ClearsLast(r: Replica, e: Event) {
    e.ChangeView? && e.cid == r.cons.tbo.currSeq - 1 && !Active(r.cons)
  }

  ghost predicate Grows(list: seq<Msg>, list': seq<Msg>, s: SeqNo) {
    |list'| == |list| + 1 && list'[..|list|] == list && Number(list'[|list|]) == s
  }

  /** What a step does to a list of votes. */
  ghost predicate VotesFollow(list: seq<Msg>, e: Event, list': seq<Msg>, s: SeqNo) {
    if e.CheckpointDone? then list' == []
    else if e.ChangeView? then list' == DropSuffix(list, e.cid)
    else list' == list || Grows(list, list', s)
  }

  /** What a step does to the log. */
  ghost predicate LogFollows(r: Replica, e: Event, r': Replica) {
    var dl, dl', s := r.log.declog, r'.log.declog, r.cons.tbo.currSeq;
    && VotesFollow(dl.prepares, e, dl'.prepares, s) && VotesFollow(dl.commits, e, dl'.commits, s)
    && (r'.decisions != r.decisions ==> r.cons.phase.Committing? && Grows(dl.commits, dl'.commits, s))
    && ProposalsFollow(r, e, r')
  }

  /** And to its proposals. */
  ghost predicate ProposalsFollow(r: Replica, e: Event, r': Replica) {
    var pp, pp', s := r.log.declog.prePrepares, r'.log.declog.prePrepares, r.cons.tbo.currSeq;
    if e.CheckpointDone? then pp' == [] && r'.cons == r.cons && r'.view == r.view && r'.decisions == r.decisions
    else if e.ChangeView? then
      && Grows(DropSuffix(pp, e.cid), pp', s)
      && r'.view != r.view && r'.decisions == r.decisions && r'.cons.tbo.currSeq == s
    else if r'.decisions != r.decisions then
      && pp' == pp && Active(r.cons) && !Active(r'.cons)
      && r'.cons.tbo.currSeq == s + 1 && |r'.decisions| == |r.decisions| + 1
    else
      && r'.cons.tbo.currSeq == s && r'.view == r.view
      && (if LogsProposal(r, r') then Grows(pp, pp', s) else pp' == pp)
  }

  lemma AbsorbLogs(r: Replica, m: Msg)
    requires BaseInv(r) && Classify(r.cons, m.message, r.view.seqNo) == Accepted && Fits(r.cons, m.message)
    ensures Absorb(r, m).Some? ==> LogFollows(r, Deliver(m), Absorb(r, m).value.replica)
  {
    AbsorbCases(r, m);
    if r.cons.phase == Committing(2 * r.view.params.f) {
      var log := r.log.(declog := Insert(r.log.declog, m));
      FinalizeReports(log, r.cons.tbo.currSeq, r.cons.current[..r.cons.batchSize]);
    }
  }

  lemma ReceiveLogs(r: Replica, m: Msg)
    requires BaseInv(r)
    ensures Receive(r, m).Some? ==> LogFollows(r, Deliver(m), Receive(r, m).value.replica)
  {
    if Classify(r.cons, m.message, r.view.seqNo) == Accepted && Fits(r.cons, m.message) { AbsorbLogs(r, m); }
  }

  lemma QuietLogs(r: Replica, e: Event, r': Replica)
    requires Quiet(r, r') && !e.CheckpointDone? && !e.ChangeView?
    ensures LogFollows(r, e, r')
  {
  }

  /** Waking up before a message is received does not matter. */
  lemma LogsAfterQuiet(r: Replica, r1: Replica, e: Event, e1: Event, r': Replica)
    requires Quiet(r, r1) && LogFollows(r1, e1, r')
    requires !e.CheckpointDone? && !e.ChangeView? && !e1.CheckpointDone? && !e1.ChangeView?
    ensures LogFollows(r, e, r')
  {
  }

  lemma ViewChangeLogs(r: Replica, e: Event)
    requires BaseInv(r) && e.ChangeView?
    ensures Step(r, e).Some? ==> LogFollows(r, e, Step(r, e).value.replica)
  {
    if Step(r, e).Some? {
      var rest, pp' := DropSuffix(r.log.declog.prePrepares, e.cid), Step(r, e).value.replica.log.declog.prePrepares;
      assert |pp'| == |rest| + 1 && pp'[..|rest|] == rest;
    }
  }

  lemma StepLogs(r: Replica, e: Event)
    requires BaseInv(r)
    ensures Step(r, e).Some? ==> LogFollows(r, e, Step(r, e).value.replica)
  {
    match e
    case Deliver(m) => ReceiveLogs(r.(received := r.received + {m}), m);
    case PollQueue =>
      var (status, c) := Poll(r.cons, r.log.pool);
      var r1 := r.(cons := c);
      PollIsQuiet(r);
      if status.NextMessage? {
        ReceiveLogs(r1, status.message);
        if Step(r, e).Some? { LogsAfterQuiet(r, r1, e, Deliver(status.message), Step(r, e).value.replica); }
      } else {
        QuietLogs(r, e, r1);
      }
    case CheckpointDone =>
    case ChangeView(_, _, _, _, _) => ViewChangeLogs(r, e);
    case _ =>
      OthersAreQuiet(r, e);
      QuietLogs(r, e, Step(r, e).value.replica);
  }

  /** What a step does to the proposal of the last decision. */
  ghost predicate LastFollows(r: Replica, e: Event, r': Replica) {
    if r'.decisions != r.decisions then
      |r'.decisions| > |r.decisions| && Active(r.cons) && (LastIntact(r') <==> Intact(r))
    else
      && r'.cons.tbo.currSeq == r.cons.tbo.currSeq
      && (r.cons.tbo.currSeq > 0 ==>
            (LastIntact(r') <==> LastIntact(r) && !e.CheckpointDone? && !ClearsLast(r, e)))
  }

  /** And to its proof. */
  ghost predicate ProofFollows(r: Replica, e: Event, r': Replica) {
    var s, dl, dl' := r.cons.tbo.currSeq, r.log.declog, r'.log.declog;
    if r'.decisions != r.decisions then r'.cons.tbo.currSeq == s + 1 && (ProofHeld(dl', s) <==> Intact(r))
    else
      s > 0 ==>
        (ProofHeld(dl', s - 1) <==>
         ProofHeld(dl, s - 1) && !e.CheckpointDone? && !(e.ChangeView? && ClearsProof(r, e.cid)))
  }

  /** And to the older proposals of the running instance. */
  ghost predicate OldFollows(r: Replica, e: Event, r': Replica) {
    OldLogged(r') <==>
    && !e.CheckpointDone? && r'.decisions == r.decisions
    && if e.ChangeView? then e.cid != r.cons.tbo.currSeq && Active(r.cons) && Intact(r) else OldLogged(r)
  }

  ghost predicate OldLogged(r: Replica) {
    Count(r.log.declog.prePrepares, For(r.cons.tbo.currSeq)) > 1
  }

  lemma LastIntactStep(r: Replica, e: Event, r': Replica)
    requires LogInv(r) && BaseInv(r') && LogFollows(r, e, r')
    ensures LastFollows(r, e, r')
  {
    if r'.decisions != r.decisions {
      RunningLogged(r);
    } else if r.cons.tbo.currSeq > 0 {
      ProposalsHeld(r, e, r');
      KeptIntact(r, e, r');
    }
  }

  lemma KeptIntact(r: Replica, e: Event, r': Replica)
    requires r.cons.tbo.currSeq > 0 && HeldFollows(r, e, r')
    requires r.log.declog.lastExec == r'.log.declog.lastExec == Some(r.cons.tbo.currSeq - 1)
    ensures LastIntact(r') <==> LastIntact(r) && !e.CheckpointDone? && !ClearsLast(r, e)
  {
  }

  ghost predicate HeldFollows(r: Replica, e: Event, r': Replica)
    requires r.cons.tbo.currSeq > 0
  {
    var last, pp := r.cons.tbo.currSeq - 1, r.log.declog.prePrepares;
    && Stays(pp, e, r'.log.declog.prePrepares, last)
    && (Count(pp, For(last)) > 0 ==> (EndsWith(pp, last) <==> !Active(r.cons)))
  }

  /** Proposals of the last decision after a step that decides nothing. */
  lemma ProposalsHeld(r: Replica, e: Event, r': Replica)
    requires LogInv(r) && LogFollows(r, e, r') && r'.decisions == r.decisions && r.cons.tbo.currSeq > 0
    ensures HeldFollows(r, e, r')
  {
    LastProposal(r);
    ProposalsStay(r.log.declog.prePrepares, e, r'.log.declog.prePrepares, r.cons.tbo.currSeq, r.view.seqNo);
  }

  lemma ProposalsStay(pp: seq<Msg>, e: Event, pp': seq<Msg>, s: SeqNo, v: SeqNo)
    requires Ordered(pp, s, v) && s > 0
    requires if e.CheckpointDone? then pp' == []
             else if e.ChangeView? then Grows(DropSuffix(pp, e.cid), pp', s)
             else pp' == pp || Grows(pp, pp', s)
    ensures Stays(pp, e, pp', s - 1)
  {
    if e.ChangeView? {
      HeldAfterClear(pp, e.cid, s, v, s - 1);
      OtherAppended(DropSuffix(pp, e.cid), pp', s - 1);
    } else if !e.CheckpointDone? && pp' != pp {
      OtherAppended(pp, pp', s - 1);
    }
  }

  /** The proposals end with the running instance, or before it when none is running. */
  lemma LastProposal(r: Replica)
    requires LogInv(r) && r.cons.tbo.currSeq > 0
    ensures var last, pp := r.cons.tbo.currSeq - 1, r.log.declog.prePrepares;
            Count(pp, For(last)) > 0 ==> (EndsWith(pp, last) <==> !Active(r.cons))
  {
    var last, pp := r.cons.tbo.currSeq - 1, r.log.declog.prePrepares;
    CountPositive(pp, For(last));
    if Count(pp, For(last)) > 0 && !Active(r.cons) {
      var i :| 0 <= i < |pp| && For(last)(pp[i]);
      assert i < |pp| - 1 ==> NotAfter(pp[i], pp[|pp| - 1]);
    }
  }

  lemma OtherAppended(list: seq<Msg>, list': seq<Msg>, s: SeqNo)
    requires |list'| == |list| + 1 && list'[..|list|] == list && Number(list'[|list|]) != s
    ensures Count(list', For(s)) == Count(list, For(s))
  {
    assert list' == list + [list'[|list|]];
    CountAppend(list, list'[|list|], For(s));
  }

  lemma OwnAppended(list: seq<Msg>, list': seq<Msg>, s: SeqNo)
    requires Grows(list, list', s)
    ensures Count(list', For(s)) == Count(list, For(s)) + 1
  {
    assert list' == list + [list'[|list|]];
    CountAppend(list, list'[|list|], For(s));
  }

  lemma VotesHeld(list: seq<Msg>, e: Event, list': seq<Msg>, s: SeqNo, v: SeqNo)
    requires Ordered(list, s, v) && VotesFollow(list, e, list', s) && s > 0
    ensures Stays(list, e, list', s - 1)
  {
    if e.ChangeView? {
      HeldAfterClear(list, e.cid, s, v, s - 1);
    } else if !e.CheckpointDone? && list' != list {
      OtherAppended(list, list', s - 1);
    }
  }

  lemma ProofStep(r: Replica, e: Event, r': Replica)
    requires LogInv(r) && LogFollows(r, e, r')
    ensures ProofFollows(r, e, r')
  {
    if r'.decisions != r.decisions {
      ProofOfNew(r, e, r');
    } else if r.cons.tbo.currSeq > 0 {
      assert HeldFollows(r, e, r') by { ProposalsHeld(r, e, r'); }
      ProofStays(r.log.declog, e, r'.log.declog, r.cons.tbo.currSeq, r.view.seqNo);
    }
  }

  lemma ProofStays(dl: Declog, e: Event, dl': Declog, s: SeqNo, v: SeqNo)
    requires OrderInv(dl, s, v) && s > 0
    requires VotesFollow(dl.prepares, e, dl'.prepares, s) && VotesFollow(dl.commits, e, dl'.commits, s)
    requires Stays(dl.prePrepares, e, dl'.prePrepares, s - 1)
    ensures ProofHeld(dl', s - 1) <==>
            && ProofHeld(dl, s - 1) && !e.CheckpointDone?
            && !(e.ChangeView? && e.cid == s - 1
                 && (EndsWith(dl.prePrepares, s - 1) || EndsWith(dl.prepares, s - 1) || EndsWith(dl.commits, s - 1)))
  {
    VotesHeld(dl.prepares, e, dl'.prepares, s, v);
    VotesHeld(dl.commits, e, dl'.commits, s, v);
  }

  /** A list keeps what it holds of instance `s`, unless that is cleared. */
  ghost predicate Stays(list: seq<Msg>, e: Event, list': seq<Msg>, s: SeqNo) {
    Count(list', For(s)) > 0 <==>
    Count(list, For(s)) > 0 && !e.CheckpointDone? && !(e.ChangeView? && e.cid == s && EndsWith(list, s))
  }

  /** A decision on an intact log is proved by it. */
  lemma ProofOfNew(r: Replica, e: Event, r': Replica)
    requires LogInv(r) && LogFollows(r, e, r') && r'.decisions != r.decisions
    ensures ProofHeld(r'.log.declog, r.cons.tbo.currSeq) <==> Intact(r)
  {
    var s, v, dl, dl' := r.cons.tbo.currSeq, r.view.seqNo, r.log.declog, r'.log.declog;
    OwnAppended(dl.commits, dl'.commits, s);
    if Intact(r) {
      ViewCounts(dl.prePrepares, s, v);
      ViewCounts(dl.prepares, s, v);
      if dl'.prepares != dl.prepares { OwnAppended(dl.prepares, dl'.prepares, s); }
    }
  }

  lemma ViewCounts(list: seq<Msg>, s: SeqNo, v: SeqNo)
    ensures Count(list, Of(s, v)) > 0 ==> Count(list, For(s)) > 0
  {
    CountPositive(list, Of(s, v));
    CountPositive(list, For(s));
  }

  lemma OldStep(r: Replica, e: Event, r': Replica)
    requires LogInv(r) && LogFollows(r, e, r')
    ensures OldFollows(r, e, r')
  {
    var s, pp, pp' := r.cons.tbo.currSeq, r.log.declog.prePrepares, r'.log.declog.prePrepares;
    assert Count(pp, For(s)) > 0 <==> Active(r.cons) && Intact(r) by { RunningLogged(r); }
    if e.ChangeView? {
      OldAfterChange(pp, e.cid, pp', s, r.view.seqNo);
    } else if r'.decisions != r.decisions {
      NoneBehind(pp, s + 1);
    } else if !e.CheckpointDone? && pp' != pp {
      OwnAppended(pp, pp', s);
    }
  }

  lemma OldAfterChange(pp: seq<Msg>, cid: SeqNo, pp': seq<Msg>, s: SeqNo, v: SeqNo)
    requires Ordered(pp, s, v) && Grows(DropSuffix(pp, cid), pp', s)
    ensures Count(pp', For(s)) > 1 <==> cid != s && Count(pp, For(s)) > 0
  {
    assert pp' == DropSuffix(pp, cid) + [pp'[|pp'| - 1]];
    ProposalsAfterChange(pp, pp'[|pp'| - 1], cid, s, v);
  }

  lemma RunningLogged(r: Replica)
    requires LogInv(r)
    ensures Count(r.log.declog.prePrepares, For(r.cons.tbo.currSeq)) > 0 <==> Active(r.cons) && Intact(r)
  {
    if !Active(r.cons) {
      BeforeCounts(r.log.declog.prePrepares, r.cons.tbo.currSeq);
    } else {
      ViewCounts(r.log.declog.prePrepares, r.cons.tbo.currSeq, r.view.seqNo);
    }
  }

  /** The steps of a history, as far as the log is concerned. */
  ghost predicate LogHistory(trace: seq<Replica>, events: seq<Event>) {
    && |trace| == |events| + 1 && !Active(trace[0].cons) && trace[0].cons.tbo.currSeq == 0 && !OldLogged(trace[0])
    && ProposalSteps(trace, events) && LastSteps(trace, events) && ProofSteps(trace, events) && OldSteps(trace, events)
  }

  ghost predicate ProposalSteps(trace: seq<Replica>, events: seq<Event>)
    requires |trace| == |events| + 1
  {
    forall n :: 0 <= n < |events| ==> ProposalsFollow(trace[n], events[n], trace[n + 1])
  }

  ghost predicate LastSteps(trace: seq<Replica>, events: seq<Event>)
    requires |trace| == |events| + 1
  {
    forall n :: 0 <= n < |events| ==> LastFollows(trace[n], events[n], trace[n + 1])
  }

  ghost predicate ProofSteps(trace: seq<Replica>, events: seq<Event>)
    requires |trace| == |events| + 1
  {
    forall n :: 0 <= n < |events| ==> ProofFollows(trace[n], events[n], trace[n + 1])
  }

  ghost predicate OldSteps(trace: seq<Replica>, events: seq<Event>)
    requires |trace| == |events| + 1
  {
    forall n :: 0 <= n < |events| ==> OldFollows(trace[n], events[n], trace[n + 1])
  }

  lemma HistoryStep(trace: seq<Replica>, events: seq<Event>, me: NodeId, view: ViewInfo, batchSize: nat, n: nat)
    requires History(trace, events, me, view, batchSize) && n < |events|
    ensures ProposalsFollow(trace[n], events[n], trace[n + 1]) && LastFollows(trace[n], events[n], trace[n + 1])
    ensures ProofFollows(trace[n], events[n], trace[n + 1]) && OldFollows(trace[n], events[n], trace[n + 1])
  {
    assert Follows(trace[n], events[n], trace[n + 1]);
    assert LogInv(trace[n]) by { HistoryKeepsLog(trace, events, me, view, batchSize, n); }
    assert BaseInv(trace[n + 1]) by { HistoryKeepsLog(trace, events, me, view, batchSize, n + 1); }
    StepLogs(trace[n], events[n]);
    LastIntactStep(trace[n], events[n], trace[n + 1]);
    ProofStep(trace[n], events[n], trace[n + 1]);
    OldStep(trace[n], events[n], trace[n + 1]);
  }

  lemma HistoryLogs(trace: seq<Replica>, events: seq<Event>, me: NodeId, view: ViewInfo, batchSize: nat)
    requires History(trace, events, me, view, batchSize)
    ensures LogHistory(trace, events)
  {
    forall n | 0 <= n < |events|
      ensures ProposalsFollow(trace[n], events[n], trace[n + 1]) && LastFollows(trace[n], events[n], trace[n + 1])
      ensures ProofFollows(trace[n], events[n], trace[n + 1]) && OldFollows(trace[n], events[n], trace[n + 1])
    {
      HistoryStep(trace, events, me, view, batchSize, n);
    }
  }

  lemma {:induction false} IntactAlong(trace: seq<Replica>, events: seq<Event>, k: nat)
    requires k < |trace| == |events| + 1 && !Active(trace[0].cons) && ProposalSteps(trace, events)
    ensures Active(trace[k].cons) ==> (Intact(trace[k]) <==> ProposalKept(trace, events, k))
  {
    if k > 0 && Active(trace[k].cons) {
      IntactAlong(trace, events, k - 1);
      IntactStep(trace[k - 1], events[k - 1], trace[k]);
    }
  }

  lemma IntactStep(r: Replica, e: Event, r': Replica)
    requires ProposalsFollow(r, e, r') && Active(r'.cons)
    ensures Intact(r') <==> LogsProposal(r, r') || (!e.CheckpointDone? && Intact(r) && Active(r.cons))
    ensures !LogsProposal(r, r') ==> Active(r.cons)
  {
  }

  lemma {:induction false} LastIntactAlong(trace: seq<Replica>, events: seq<Event>, k: nat)
    requires k < |trace| == |events| + 1 && !Active(trace[0].cons) && trace[0].cons.tbo.currSeq == 0
    requires ProposalSteps(trace, events) && LastSteps(trace, events)
    ensures trace[k].cons.tbo.currSeq > 0 ==> (LastIntact(trace[k]) <==> DecisionKept(trace, events, k))
  {
    if k > 0 {
      LastIntactAlong(trace, events, k - 1);
      IntactAlong(trace, events, k - 1);
      assert LastFollows(trace[k - 1], events[k - 1], trace[k]);
    }
  }

  lemma {:induction false} ProofAlong(trace: seq<Replica>, events: seq<Event>, k: nat)
    requires k < |trace| == |events| + 1 && !Active(trace[0].cons) && trace[0].cons.tbo.currSeq == 0
    requires ProposalSteps(trace, events) && LastSteps(trace, events) && ProofSteps(trace, events)
    ensures trace[k].cons.tbo.currSeq > 0 ==>
              (ProofHeld(trace[k].log.declog, trace[k].cons.tbo.currSeq - 1) <==> ProofKept(trace, events, k))
  {
    if k > 0 {
      ProofAlong(trace, events, k - 1);
      IntactAlong(trace, events, k - 1);
      assert LastFollows(trace[k - 1], events[k - 1], trace[k]);
      assert ProofFollows(trace[k - 1], events[k - 1], trace[k]);
    }
  }

  lemma {:induction false} OldAlong(trace: seq<Replica>, events: seq<Event>, k: nat)
    requires k < |trace| == |events| + 1 && !Active(trace[0].cons) && !OldLogged(trace[0])
    requires ProposalSteps(trace, events) && LastSteps(trace, events) && OldSteps(trace, events)
    ensures OldLogged(trace[k]) <==> OldProposal(trace, events, k)
  {
    if k > 0 {
      OldAlong(trace, events, k - 1);
      IntactAlong(trace, events, k - 1);
      assert LastFollows(trace[k - 1], events[k - 1], trace[k]);
      assert OldFollows(trace[k - 1], events[k - 1], trace[k]);
    }
  }

  /** In every history, the running proposal is in the log if and only if no checkpoint
      finished since it was logged. */
  lemma IntactExactly(trace: seq<Replica>, events: seq<Event>, me: NodeId, view: ViewInfo, batchSize: nat, k: nat)
    requires History(trace, events, me, view, batchSize) && k < |trace|
    ensures Active(trace[k].cons) ==> (Intact(trace[k]) <==> ProposalKept(trace, events, k))
  {
    HistoryLogs(trace, events, me, view, batchSize);
    IntactAlong(trace, events, k);
  }

  /** In every history, the proposal of the last decision is in the log if and only if
      neither a checkpoint finished since it was logged, nor a view change was finished
      for its instance before the next proposal. */
  lemma LastIntactExactly(trace: seq<Replica>, events: seq<Event>, me: NodeId, view: ViewInfo, batchSize: nat, k: nat)
    requires History(trace, events, me, view, batchSize) && k < |trace|
    ensures trace[k].cons.tbo.currSeq > 0 ==> (LastIntact(trace[k]) <==> DecisionKept(trace, events, k))
  {
    HistoryLogs(trace, events, me, view, batchSize);
    LastIntactAlong(trace, events, k);
  }

  /** In every history, whatever instances view changes were finished for: the certificate
      is exact if and only if no instance is running, or its proposal is logged and no
      other one, and before the COMMIT phase no quorum of PREPAREs of an earlier view. */
  lemma FaithfulExactly(trace: seq<Replica>, events: seq<Event>, me: NodeId, view: ViewInfo, batchSize: nat, k: nat)
    requires History(trace, events, me, view, batchSize) && k < |trace|
    ensures FaithfulCertificate(trace[k]) <==>
            || !Active(trace[k].cons)
            || (ProposalKept(trace, events, k) && !OldProposal(trace, events, k)
                && (trace[k].cons.phase.Committing? || !OldQuorum(trace[k])))
  {
    HistoryLogs(trace, events, me, view, batchSize);
    IntactAlong(trace, events, k);
    OldAlong(trace, events, k);
    HistoryKeepsLog(trace, events, me, view, batchSize, k);
    CertificateExactly(trace[k]);
    RunningLogged(trace[k]);
  }

  /** In every history: `last_decision` panics if and only if the proposal of the last
      decision has been dropped. */
  lemma PanicsExactly(trace: seq<Replica>, events: seq<Event>, me: NodeId, view: ViewInfo, batchSize: nat, k: nat)
    requires History(trace, events, me, view, batchSize) && k < |trace|
    ensures LastDecision(trace[k].log.declog, trace[k].view.params).Panic? <==>
            trace[k].cons.tbo.currSeq > 0 && !DecisionKept(trace, events, k)
  {
    LastIntactExactly(trace, events, me, view, batchSize, k);
    HistoryKeepsLog(trace, events, me, view, batchSize, k);
    ProofComplete(trace[k]);
  }

  /** In every history the log proves the last decision if and only if neither its proposal
      nor its votes have been dropped. If only votes have, no proof is found. */
  lemma ProofExactly(trace: seq<Replica>, events: seq<Event>, me: NodeId, view: ViewInfo, batchSize: nat, k: nat)
    requires History(trace, events, me, view, batchSize) && k < |trace| && trace[k].cons.tbo.currSeq > 0
    ensures |trace[k].decisions| == trace[k].cons.tbo.currSeq
    ensures ProvesLast(trace[k].log.declog, trace[k].decisions[trace[k].cons.tbo.currSeq - 1], trace[k].view.params)
            <==> ProofKept(trace, events, k)
    ensures LastDecision(trace[k].log.declog, trace[k].view.params) == Done(None) <==>
            DecisionKept(trace, events, k) && !ProofKept(trace, events, k)
  {
    LastIntactExactly(trace, events, me, view, batchSize, k);
    ProofHeldExactly(trace, events, me, view, batchSize, k);
    HistoryKeepsLog(trace, events, me, view, batchSize, k);
    ProofComplete(trace[k]);
  }

  lemma ProofHeldExactly(trace: seq<Replica>, events: seq<Event>, me: NodeId, view: ViewInfo, batchSize: nat, k: nat)
    requires History(trace, events, me, view, batchSize) && k < |trace| && trace[k].cons.tbo.currSeq > 0
    ensures ProofHeld(trace[k].log.declog, trace[k].cons.tbo.currSeq - 1) <==> ProofKept(trace, events, k)
  {
    HistoryLogs(trace, events, me, view, batchSize);
    ProofAlong(trace, events, k);
  }

  /** A replica at `own` that recovers from the donor's log goes on with the instance this
      log is executing, if and only if the donor is running that instance with its proposal
      logged, or holds no proposal and `own` is there already. Between two instances the
      donor's last proposal is of the one before. */
  lemma RecoveredNumber(
    trace: seq<Replica>, events: seq<Event>, me: NodeId, view: ViewInfo, batchSize: nat, k: nat, own: SeqNo)
    requires History(trace, events, me, view, batchSize) && k < |trace|
    ensures var donor := trace[k].log.declog;
            LastNumber(donor.prePrepares, own) == Executing(donor.lastExec) <==>
            if donor.prePrepares == [] then own == trace[k].cons.tbo.currSeq else Active(trace[k].cons)
  {
    HistoryKeepsLog(trace, events, me, view, batchSize, k);
    ExecutingIsCurrent(trace[k]);
  }

  /** A history with one more event. */
  lemma OneStepMore(trace: seq<Replica>, events: seq<Event>, me: NodeId, view: ViewInfo, batchSize: nat, e: Event)
    returns (trace': seq<Replica>, events': seq<Event>)
    requires History(trace, events, me, view, batchSize)
    requires Sane(trace[|events|]) && Step(trace[|events|], e).Some?
    ensures History(trace', events', me, view, batchSize) && events' == events + [e]
    ensures trace' == trace + [Step(trace[|events|], e).value.replica]
  {
    var r' := Step(trace[|events|], e).value.replica;
    trace', events' := trace + [r'], events + [e];
    assert Follows(trace[|events|], e, r');
    forall k | 0 <= k < |events'| ensures Follows(trace'[k], events'[k], trace'[k + 1]) {
      if k < |events| { assert Follows(trace[k], events[k], trace[k + 1]); }
    }
  }

  // ---- a history that loses the proof of its last decision ----------------------------------

  const VIEW := ViewInfo(0, Params(4, 1))
  const REQUEST := EmptyRequest(0)
  const DIGEST := EmptyDigest(0)

  function Sent(from: NodeId, m: ConsensusMessage): Msg {
    Stored(Header(from, OfMessage(m), 0), m)
  }

  function ProposalOf(s: SeqNo): ConsensusMessage {
    ConsensusMessage(s, 0, PrePrepare([DIGEST]))
  }

  /** A replica of four with one request per batch, in the given phase of instance `s`. */
  ghost predicate In(r: Replica, s: SeqNo, phase: Phase, pool: Pool) {
    && r.view == VIEW && r.cons.phase == phase && r.log.pool == pool && r.log.checkpoint == NoCheckpoint
    && r.cons.tbo == Tbo(s, r.cons.tbo.getQueue, [], [], []) && r.cons.missing == []
    && |r.cons.current| == 1 && r.cons.batchSize <= 1
    && (Active(r.cons) ==>
          r.cons.current == [DIGEST] && r.cons.batchSize == 1 && r.cons.currentDigest == OfMessage(ProposalOf(s)))
  }

  const NONE := Pool([], map[])
  const WAITING := Pool([Entry(DIGEST, REQUEST)], map[])
  const TAKEN := Pool([], map[DIGEST := REQUEST])

  ghost predicate Leads(r: Replica, e: Event, s: SeqNo, phase: Phase, pool: Pool) {
    Sane(r) && Step(r, e).Some? && In(Step(r, e).value.replica, s, phase, pool)
  }

  lemma RequestComes(r: Replica, s: SeqNo)
    requires In(r, s, Init, NONE)
    ensures Leads(r, ClientRequest(REQUEST), s, Init, WAITING)
  {
  }

  lemma BatchIsTried(r: Replica, s: SeqNo)
    requires In(r, s, Init, WAITING)
    ensures Leads(r, TryPropose(Some([DIGEST])), s, PrePreparing, TAKEN)
  {
  }

  lemma ProposalComes(r: Replica, s: SeqNo)
    requires In(r, s, PrePreparing, TAKEN)
    ensures Leads(r, Deliver(Sent(0, ProposalOf(s))), s, Preparing(1), TAKEN)
  {
    var current := [DIGEST] + r.cons.current[1..];
    assert current == [DIGEST];
    assert HasRequest(TAKEN, DIGEST);
    assert Absent([DIGEST], TAKEN) == [];
  }

  lemma PrepareComes(r: Replica, s: SeqNo, i: nat)
    requires In(r, s, Preparing(i), TAKEN) && 1 <= i <= 2
    ensures Leads(r, Deliver(Sent(i, ConsensusMessage(s, 0, Prepare(OfMessage(ProposalOf(s)))))), s,
                  if i == 1 then Preparing(2) else Committing(0), TAKEN)
  {
  }

  lemma CommitComes(r: Replica, s: SeqNo, i: nat)
    requires In(r, s, Committing(i), TAKEN) && i <= 1
    ensures Leads(r, Deliver(Sent(i, ConsensusMessage(s, 0, Commit(OfMessage(ProposalOf(s)))))), s,
                  Committing(i + 1), TAKEN)
  {
  }

  lemma TakesBatch()
    ensures var (batch, pool) := TakeAll(TAKEN, [DIGEST]); batch.Some? && pool == NONE
  {
    assert [DIGEST][..0] == [];
    assert TakeOne(TAKEN, DIGEST).0 == Some(REQUEST);
    assert map[DIGEST := REQUEST] - {DIGEST} == map[];
  }

  /** The third COMMIT decides; a checkpoint is begun when due. */
  lemma LastCommitComes(r: Replica, s: SeqNo)
    requires LogInv(r) && In(r, s, Committing(2), TAKEN) && 0 <= s < I32_MAX
    ensures var e := Deliver(Sent(2, ConsensusMessage(s, 0, Commit(OfMessage(ProposalOf(s))))));
            && Step(r, e).Some?
            && var r' := Step(r, e).value.replica;
               && In(r'.(log := r'.log.(checkpoint := NoCheckpoint)), s + 1, Init, NONE)
               && r'.log.checkpoint == (if CheckpointDue(s) then Partial(s) else NoCheckpoint)
  {
    var m := Sent(2, ConsensusMessage(s, 0, Commit(OfMessage(ProposalOf(s)))));
    assert r.cons.current[..1] == [DIGEST];
    FinalizesBatch(r.log.(declog := Insert(r.log.declog, m)), s);
  }

  lemma FinalizesBatch(log: LogValue<()>, s: SeqNo)
    requires log.pool == TAKEN && log.checkpoint == NoCheckpoint && LastSeqNo(log) == s
    ensures var (r, log') := FinalizeBatch(log, s, [DIGEST]);
            && r.Some? && log'.pool == NONE
            && log'.checkpoint == if CheckpointDue(s) then Partial(s) else NoCheckpoint
  {
    TakesBatch();
  }

  /** No checkpoint finished and no view changed. */
  ghost predicate Plain(events: seq<Event>) {
    forall i :: 0 <= i < |events| ==> !events[i].CheckpointDone? && !events[i].ChangeView?
  }

  /** Then nothing has left the log. */
  lemma {:induction false} PlainKeeps(trace: seq<Replica>, events: seq<Event>, k: nat)
    requires k < |trace| == |events| + 1 && trace[0].cons.tbo.currSeq == 0 && LastSteps(trace, events)
    requires Plain(events[..k])
    ensures ProposalKept(trace, events, k) && DecisionKept(trace, events, k)
    ensures trace[k].cons.tbo.currSeq > 0 ==> ProofKept(trace, events, k)
  {
    if k > 0 {
      assert events[..k][k - 1] == events[k - 1] && events[..k - 1] == events[..k][..k - 1];
      PlainKeeps(trace, events, k - 1);
      assert LastFollows(trace[k - 1], events[k - 1], trace[k]);
    }
  }

  lemma Extend(trace: seq<Replica>, events: seq<Event>, e: Event) returns (trace': seq<Replica>, events': seq<Event>)
    requires History(trace, events, 1, VIEW, 1) && Sane(trace[|events|]) && Step(trace[|events|], e).Some?
    ensures History(trace', events', 1, VIEW, 1) && events' == events + [e] && |trace'| == |trace| + 1
    ensures forall k :: 0 <= k < |trace| ==> trace'[k] == trace[k]
    ensures Plain(events) && !e.CheckpointDone? && !e.ChangeView? ==> Plain(events')
    ensures trace'[|events'|] == Step(trace[|events|], e).value.replica
  {
    trace', events' := OneStepMore(trace, events, 1, VIEW, 1, e);
  }

  /** A plain history that ends in the given phase. */
  ghost predicate Reaches(trace: seq<Replica>, events: seq<Event>, s: SeqNo, phase: Phase, pool: Pool) {
    History(trace, events, 1, VIEW, 1) && Plain(events) && In(trace[|events|], s, phase, pool)
  }

  /** Up to the PRE-PREPARE of instance `s`. */
  lemma Proposed(trace: seq<Replica>, events: seq<Event>, s: SeqNo)
    returns (trace': seq<Replica>, events': seq<Event>)
    requires Reaches(trace, events, s, Init, NONE)
    ensures Reaches(trace', events', s, Preparing(1), TAKEN)
    ensures trace'[|events'|].log.declog.prepares == trace[|events|].log.declog.prepares
  {
    RequestComes(trace[|events|], s);
    trace', events' := Extend(trace, events, ClientRequest(REQUEST));
    BatchIsTried(trace'[|events'|], s);
    trace', events' := Extend(trace', events', TryPropose(Some([DIGEST])));
    ProposalComes(trace'[|events'|], s);
    trace', events' := Extend(trace', events', Deliver(Sent(0, ProposalOf(s))));
  }

  /** Up to the quorum of PREPAREs. */
  lemma Prepared(trace: seq<Replica>, events: seq<Event>, s: SeqNo)
    returns (trace': seq<Replica>, events': seq<Event>)
    requires Reaches(trace, events, s, Preparing(1), TAKEN)
    ensures Reaches(trace', events', s, Committing(0), TAKEN)
  {
    var digest := OfMessage(ProposalOf(s));
    PrepareComes(trace[|events|], s, 1);
    trace', events' := Extend(trace, events, Deliver(Sent(1, ConsensusMessage(s, 0, Prepare(digest)))));
    PrepareComes(trace'[|events'|], s, 2);
    trace', events' := Extend(trace', events', Deliver(Sent(2, ConsensusMessage(s, 0, Prepare(digest)))));
  }

  /** Up to the last COMMIT. */
  lemma AlmostDecided(trace: seq<Replica>, events: seq<Event>, s: SeqNo)
    returns (trace': seq<Replica>, events': seq<Event>)
    requires Reaches(trace, events, s, Committing(0), TAKEN)
    ensures Reaches(trace', events', s, Committing(2), TAKEN)
  {
    var digest := OfMessage(ProposalOf(s));
    CommitComes(trace[|events|], s, 0);
    trace', events' := Extend(trace, events, Deliver(Sent(0, ConsensusMessage(s, 0, Commit(digest)))));
    CommitComes(trace'[|events'|], s, 1);
    trace', events' := Extend(trace', events', Deliver(Sent(1, ConsensusMessage(s, 0, Commit(digest)))));
  }

  /** All of instance `s`. */
  lemma OneInstance(trace: seq<Replica>, events: seq<Event>, s: SeqNo)
    returns (trace': seq<Replica>, events': seq<Event>)
    requires Reaches(trace, events, s, Init, NONE) && 0 <= s < I32_MAX
    ensures History(trace', events', 1, VIEW, 1) && Plain(events')
    ensures var r := trace'[|events'|];
            && In(r.(log := r.log.(checkpoint := NoCheckpoint)), s + 1, Init, NONE)
            && r.log.checkpoint == if CheckpointDue(s) then Partial(s) else NoCheckpoint
  {
    trace', events' := Proposed(trace, events, s);
    trace', events' := Prepared(trace', events', s);
    trace', events' := AlmostDecided(trace', events', s);
    assert LogInv(trace'[|events'|]) by { HistoryKeepsLog(trace', events', 1, VIEW, 1, |events'|); }
    LastCommitComes(trace'[|events'|], s);
    trace', events' := Extend(
      trace', events', Deliver(Sent(2, ConsensusMessage(s, 0, Commit(OfMessage(ProposalOf(s)))))));
  }

  /** All instances before the first checkpoint. */
  lemma {:induction false} DecidesAll(s: SeqNo) returns (trace: seq<Replica>, events: seq<Event>)
    requires 0 <= s <= PERIOD
    ensures Reaches(trace, events, s, Init, NONE)
  {
    if s == 0 {
      trace, events := [Initial(1, VIEW, 1)], [];
    } else {
      trace, events := DecidesAll(s - 1);
      assert !CheckpointDue(s - 1);
      trace, events := OneInstance(trace, events, s - 1);
      var r := trace[|events|];
      assert r == r.(log := r.log.(checkpoint := NoCheckpoint));
    }
  }

  /** The panic is reached: after the first checkpoint has finished, the log no longer
      proves the last decision. */
  lemma ProofIsLost() returns (trace: seq<Replica>, events: seq<Event>)
    ensures History(trace, events, 1, VIEW, 1)
    ensures LastDecision(trace[|events|].log.declog, VIEW.params).Panic?
  {
    trace, events := DecidesAll(PERIOD);
    assert CheckpointDue(PERIOD);
    trace, events := OneInstance(trace, events, PERIOD);
    assert BaseInv(trace[|events|]) by { HistoryKeepsLog(trace, events, 1, VIEW, 1, |events|); }
    CheckpointLosesProof(trace[|events|]);
    trace, events := Extend(trace, events, CheckpointDone);
  }

  /** So it is without any checkpoint: a view change finished for the last decided instance
      takes its proposal along, if the next one has not been proposed. */
  lemma DecisionIsCleared() returns (trace: seq<Replica>, events: seq<Event>)
    ensures History(trace, events, 1, VIEW, 1) && trace[|events|].cons.tbo.currSeq == 1
    ensures events != [] && events[|events| - 1] == ChangeView(1, 0, None, [], 0) && Plain(events[..|events| - 1])
    ensures LastDecision(trace[|events|].log.declog, trace[|events|].view.params).Panic?
  {
    var trace0, events0 := DecidesAll(1);
    ChangesToOne(trace0[|events0|], Init, NONE);
    trace, events := Extend(trace0, events0, ChangeView(1, 0, None, [], 0));
    assert events[..|events| - 1] == events0;
    assert ClearsLast(trace[|events| - 1], events[|events| - 1]);
    PanicsExactly(trace, events, 1, VIEW, 1, |events|);
  }

  /** If it has been, the votes go and the proposal stays: no proof is found. The certificate
      lists the old proposal of the running instance, too. */
  lemma VotesAreCleared() returns (trace: seq<Replica>, events: seq<Event>)
    ensures History(trace, events, 1, VIEW, 1) && trace[|events|].cons.tbo.currSeq == 1
    ensures events != [] && events[|events| - 1] == ChangeView(1, 0, None, [], 0) && Plain(events[..|events| - 1])
    ensures LastDecision(trace[|events|].log.declog, trace[|events|].view.params) == Done(None)
    ensures !FaithfulCertificate(trace[|events|])
  {
    var trace1, events1 := NextProposed();
    ChangesToOne(trace1[|events1|], Preparing(1), TAKEN);
    trace, events := OneStepMore(trace1, events1, 1, VIEW, 1, ChangeView(1, 0, None, [], 0));
    assert events[..|events| - 1] == events1;
    HistoryLogs(trace, events, 1, VIEW, 1);
    DropsVotes(trace, events, |events1|);
    ProofExactly(trace, events, 1, VIEW, 1, |events|);
    FaithfulExactly(trace, events, 1, VIEW, 1, |events|);
  }

  lemma DropsVotes(trace: seq<Replica>, events: seq<Event>, k: nat)
    requires LogHistory(trace, events) && k < |events| && Plain(events[..k]) && events[k].ChangeView?
    requires ClearsProof(trace[k], events[k].cid) && Active(trace[k].cons)
    requires trace[k + 1].decisions == trace[k].decisions
    ensures DecisionKept(trace, events, k + 1) && !ProofKept(trace, events, k + 1)
    ensures events[k].cid != trace[k].cons.tbo.currSeq ==> OldProposal(trace, events, k + 1)
  {
    PlainKeeps(trace, events, k);
  }

  lemma ChangesToOne(r: Replica, phase: Phase, pool: Pool)
    requires In(r, 1, phase, pool)
    ensures Sane(r) && Step(r, ChangeView(1, 0, None, [], 0)).Some?
    ensures Step(r, ChangeView(1, 0, None, [], 0)).value.replica.cons.tbo.currSeq == 1
    ensures Active(Step(r, ChangeView(1, 0, None, [], 0)).value.replica.cons)
    ensures Step(r, ChangeView(1, 0, None, [], 0)).value.replica.decisions == r.decisions
  {
  }

  /** Instance 0 is decided and instance 1 proposed. */
  lemma NextProposed() returns (trace: seq<Replica>, events: seq<Event>)
    ensures Reaches(trace, events, 1, Preparing(1), TAKEN)
    ensures ClearsProof(trace[|events|], 0)
  {
    var trace0, events0 := DecidesAll(1);
    trace, events := Proposed(trace0, events0, 1);
    LastPrepares(trace0, events0);
  }

  /** After a plain history, the PREPAREs end with the last decided instance. */
  lemma LastPrepares(trace: seq<Replica>, events: seq<Event>)
    requires Reaches(trace, events, 1, Init, NONE)
    ensures EndsWith(trace[|events|].log.declog.prepares, 0)
  {
    var r := trace[|events|];
    var list := r.log.declog.prepares;
    HistoryLogs(trace, events, 1, VIEW, 1);
    assert events[..|events|] == events;
    PlainKeeps(trace, events, |events|);
    ProofAlong(trace, events, |events|);
    assert LogInv(r) by { HistoryKeepsLog(trace, events, 1, VIEW, 1, |events|); }
    CountPositive(list, For(0));
    var i :| 0 <= i < |list| && For(0)(list[i]);
    assert i < |list| - 1 ==> NotAfter(list[i], list[|list| - 1]);
  }

  lemma CheckpointLosesProof(r: Replica)
    requires BaseInv(r) && r.cons.tbo.currSeq > 0 && r.log.checkpoint.Partial?
    ensures Step(r, CheckpointDone).Some?
    ensures LastDecision(Step(r, CheckpointDone).value.replica.log.declog, r.view.params).Panic?
  {
  }
}
