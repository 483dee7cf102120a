/** Votes: what a replica counts, who sent it, and which requests a decision executes. */
module Votes {
  import opened Wrappers
  import opened Ordering
  import opened Core
  import opened Messages
  import opened Counting
  import opened Logs
  import opened NormalPhase
  import opened Replicas
  import opened ReplicaInvariants

  function PrepareFor(s: SeqNo, v: SeqNo, d: Digest): Msg -> bool {
    (m: Msg) => m.message == ConsensusMessage(s, v, Prepare(d))
  }

  function CommitFor(s: SeqNo, v: SeqNo, d: Digest): Msg -> bool {
    (m: Msg) => m.message == ConsensusMessage(s, v, Commit(d))
  }

  // ---- counters ------------------------------------------------------------

  /** An accepted vote is for an earlier instance or view, or for the running proposal. */
  ghost predicate VoteFits(a: ConsensusMessage, c: Instance, v: SeqNo) {
    && !a.kind.PrePrepare? && a.seqNo <= c.tbo.currSeq
    && (a.seqNo == c.tbo.currSeq ==> a.view <= v)
    && (a.seqNo == c.tbo.currSeq && a.view == v ==>
          Active(c) && a.kind.digest == c.currentDigest && (a.kind.Commit? ==> c.phase.Committing?))
  }

  /** The phase counter is the number of matching votes accepted. */
  ghost predicate CounterInv(accepted: seq<Msg>, c: Instance, v: SeqNo, f: nat) {
    && (forall i :: 0 <= i < |accepted| ==> VoteFits(accepted[i].message, c, v))
    && (Active(c) ==>
          && Count(accepted, PrepareFor(c.tbo.currSeq, v, c.currentDigest)) == PrepareVotes(c, f)
          && Count(accepted, CommitFor(c.tbo.currSeq, v, c.currentDigest)) == CommitVotes(c))
  }

  ghost predicate CountsVotes(r: Replica) {
    CounterInv(r.accepted, r.cons, r.view.seqNo, r.view.params.f)
  }

  lemma NoVotesYet(accepted: seq<Msg>, s: SeqNo, v: SeqNo, d: Digest)
    requires forall i :: 0 <= i < |accepted| ==> !(accepted[i].message.seqNo == s && accepted[i].message.view == v)
    ensures Count(accepted, PrepareFor(s, v, d)) == 0 && Count(accepted, CommitFor(s, v, d)) == 0
  {
    CountPositive(accepted, PrepareFor(s, v, d));
    CountPositive(accepted, CommitFor(s, v, d));
  }

  /** A proposal starts counting from zero. */
  lemma StartCounts(accepted: seq<Msg>, c: Instance, v: SeqNo, c': Instance, v': SeqNo, f: nat)
    requires CounterInv(accepted, c, v, f) && c'.tbo.currSeq == c.tbo.currSeq
    requires v' > v || (v' == v && !Active(c))
    requires c'.phase == Preparing(1) || c'.phase.PreparingRequests?
    ensures CounterInv(accepted, c', v', f)
  {
    assert forall i :: 0 <= i < |accepted| ==> VoteFits(accepted[i].message, c, v);
    NoVotesYet(accepted, c.tbo.currSeq, v', c'.currentDigest);
  }

  lemma VoteCounts(accepted: seq<Msg>, c: Instance, c': Instance, m: Msg, v: SeqNo, f: nat)
    requires CounterInv(accepted, c, v, f) && Active(c) && Active(c')
    requires c'.tbo.currSeq == c.tbo.currSeq == Number(m) && c'.currentDigest == c.currentDigest
    requires m.message.view == v && !m.message.kind.PrePrepare? && m.message.kind.digest == c.currentDigest
    requires m.message.kind.Commit? || c.phase.Committing? ==> c'.phase.Committing?
    requires PrepareVotes(c', f) == PrepareVotes(c, f) + if m.message.kind.Prepare? then 1 else 0
    requires CommitVotes(c') == CommitVotes(c) + if m.message.kind.Commit? then 1 else 0
    ensures CounterInv(accepted + [m], c', v, f)
  {
    CountAppend(accepted, m, PrepareFor(Number(m), v, c.currentDigest));
    CountAppend(accepted, m, CommitFor(Number(m), v, c.currentDigest));
  }

  lemma NextInstanceCounts(accepted: seq<Msg>, c: Instance, c': Instance, v: SeqNo, f: nat)
    requires forall i :: 0 <= i < |accepted| ==> accepted[i].message.seqNo <= c.tbo.currSeq
    requires forall i :: 0 <= i < |accepted| ==> !accepted[i].message.kind.PrePrepare?
    requires c'.tbo.currSeq == c.tbo.currSeq + 1 && !Active(c')
    ensures CounterInv(accepted, c', v, f)
  {
  }

  lemma QuietCounts(r: Replica, r': Replica)
    requires CountsVotes(r) && Quiet(r, r') && r'.accepted == r.accepted
    ensures CountsVotes(r')
  {
    assert forall i :: 0 <= i < |r.accepted| && VoteFits(r.accepted[i].message, r.cons, r.view.seqNo) ==>
        VoteFits(r.accepted[i].message, r'.cons, r'.view.seqNo);
  }

  lemma AbsorbCounts(r: Replica, m: Msg)
    requires BaseInv(r) && CountsVotes(r)
    requires Classify(r.cons, m.message, r.view.seqNo) == Accepted && Fits(r.cons, m.message)
    ensures Absorb(r, m).Some? ==> CountsVotes(Absorb(r, m).value.replica)
  {
    AbsorbCases(r, m);
    var v, f := r.view.seqNo, r.view.params.f;
    if Absorb(r, m).Some? {
      var c' := Absorb(r, m).value.replica.cons;
      if r.cons.phase.PrePreparing? {
        StartCounts(r.accepted, r.cons, v, c', v, f);
      } else if r.cons.phase.Preparing? || r.cons.phase.votes < 2 * f {
        VoteCounts(r.accepted, r.cons, c', m, v, f);
      } else {
        assert forall i :: 0 <= i < |r.accepted| ==> VoteFits(r.accepted[i].message, r.cons, v);
        NextInstanceCounts(r.accepted + [m], r.cons, c', v, f);
      }
    }
  }

  lemma ReceiveCounts(r: Replica, m: Msg)
    requires BaseInv(r) && CountsVotes(r)
    ensures Receive(r, m).Some? ==> CountsVotes(Receive(r, m).value.replica)
  {
    match Classify(r.cons, m.message, r.view.seqNo)
    case Accepted => if Fits(r.cons, m.message) { AbsorbCounts(r, m); }
    case _ => QuietCounts(r, Receive(r, m).value.replica);
  }

  /** The phase counter always equals the matching votes accepted. */
  lemma StepCounts(r: Replica, e: Event)
    requires BaseInv(r) && CountsVotes(r)
    ensures Step(r, e).Some? ==> CountsVotes(Step(r, e).value.replica)
  {
    match e
    case Deliver(m) => ReceiveCounts(r.(received := r.received + {m}), m);
    case PollQueue =>
      var (status, c) := Poll(r.cons, r.log.pool);
      PollIsQuiet(r);
      QuietCounts(r, r.(cons := c));
      if status.NextMessage? { ReceiveCounts(r.(cons := c), status.message); }
    case ChangeView(v, _, _, _, _) =>
      if Step(r, e).Some? {
        StartCounts(r.accepted, r.cons, r.view.seqNo, Step(r, e).value.replica.cons, v, r.view.params.f);
      }
    case CheckpointDone =>
    case _ =>
      OthersAreQuiet(r, e);
      QuietCounts(r, Step(r, e).value.replica);
  }

  // ---- every counted vote was handed over by the network, once -----------------

  /** Two votes of one sender for one instance, view and kind. */
  predicate SameVote(a: Msg, b: Msg) {
    && a.header.from == b.header.from && a.message.seqNo == b.message.seqNo && a.message.view == b.message.view
    && ((a.message.kind.Prepare? && b.message.kind.Prepare?) || (a.message.kind.Commit? && b.message.kind.Commit?))
  }

  ghost predicate UniqueVotes(received: set<Msg>) {
    forall a, b :: a in received && b in received && SameVote(a, b) ==> a == b
  }

  /** The environment hands a replica at most one vote per sender, kind, view and instance. */
  ghost predicate MayDeliver(received: set<Msg>, m: Msg) {
    forall a :: a in received ==> !SameVote(a, m)
  }

  ghost function Held(t: Tbo): multiset<Msg> {
    Contents(t.prepares) + Contents(t.commits)
  }

  ghost function AsVote(m: Msg): multiset<Msg> {
    if m.message.kind.PrePrepare? then multiset{} else multiset{m}
  }

  /** Queued, accepted and in-hand votes are distinct messages received. */
  ghost predicate HeldInv(r: Replica, inHand: multiset<Msg>) {
    && Held(r.cons.tbo) + multiset(r.accepted) + inHand <= multiset(r.received)
    && (forall m :: m in Contents(r.cons.tbo.prePrepares) ==> m in r.received && m.message.kind.PrePrepare?)
    && (forall m :: m in Held(r.cons.tbo) ==> !m.message.kind.PrePrepare?)
  }

  lemma EnqueueHolds(t: Tbo, m: Msg)
    ensures Held(Enqueue(t, m)) <= Held(t) + AsVote(m)
    ensures Contents(Enqueue(t, m).prePrepares) <=
            Contents(t.prePrepares) + if m.message.kind.PrePrepare? then multiset{m} else multiset{}
  {
    match m.message.kind
    case PrePrepare(_) => QueueContents(t.currSeq, t.prePrepares, Number(m), m);
    case Prepare(_) => QueueContents(t.currSeq, t.prepares, Number(m), m);
    case Commit(_) => QueueContents(t.currSeq, t.commits, Number(m), m);
  }

  lemma NextInstanceHolds(t: Tbo)
    ensures Held(NextInstanceQueue(t)) <= Held(t)
    ensures Contents(NextInstanceQueue(t).prePrepares) <= Contents(t.prePrepares)
  {
    AdvanceContents(t.prePrepares);
    AdvanceContents(t.prepares);
    AdvanceContents(t.commits);
  }

  /** What a step may do to the queues and the accepted votes. */
  lemma HeldShrinks(r: Replica, r': Replica, inHand: multiset<Msg>, inHand': multiset<Msg>)
    requires HeldInv(r, inHand) && r'.received == r.received
    requires Held(r'.cons.tbo) + multiset(r'.accepted) + inHand' <= Held(r.cons.tbo) + multiset(r.accepted) + inHand
    requires forall m :: m in Contents(r'.cons.tbo.prePrepares) ==>
               m in Contents(r.cons.tbo.prePrepares) || (m in r.received && m.message.kind.PrePrepare?)
    requires forall m :: m in Held(r'.cons.tbo) ==> m in Held(r.cons.tbo) || !m.message.kind.PrePrepare?
    ensures HeldInv(r', inHand')
  {
  }

  lemma AbsorbHolds(r: Replica, m: Msg)
    requires Sane(r) && HeldInv(r, AsVote(m)) && m in r.received
    requires Classify(r.cons, m.message, r.view.seqNo) == Accepted && Fits(r.cons, m.message)
    ensures Absorb(r, m).Some? ==> HeldInv(Absorb(r, m).value.replica, multiset{})
  {
    if Absorb(r, m).Some? {
      AbsorbShrinks(r, m);
      HeldShrinks(r, Absorb(r, m).value.replica, AsVote(m), multiset{});
    }
  }

  /** An absorbed vote is counted, and nothing enters the queues. */
  lemma AbsorbShrinks(r: Replica, m: Msg)
    requires Sane(r) && Classify(r.cons, m.message, r.view.seqNo) == Accepted && Fits(r.cons, m.message)
    requires Absorb(r, m).Some?
    ensures var r' := Absorb(r, m).value.replica;
            && multiset(r'.accepted) == multiset(r.accepted) + AsVote(m) && r'.received == r.received
            && Held(r'.cons.tbo) <= Held(r.cons.tbo)
            && Contents(r'.cons.tbo.prePrepares) <= Contents(r.cons.tbo.prePrepares)
  {
    AbsorbQueues(r, m);
    NextInstanceHolds(r.cons.tbo);
    assert multiset(r.accepted + [m]) == multiset(r.accepted) + multiset{m};
  }

  lemma AbsorbQueues(r: Replica, m: Msg)
    requires Sane(r) && Classify(r.cons, m.message, r.view.seqNo) == Accepted && Fits(r.cons, m.message)
    requires Absorb(r, m).Some?
    ensures var r', t := Absorb(r, m).value.replica, r.cons.tbo;
            && r'.accepted == (if m.message.kind.PrePrepare? then r.accepted else r.accepted + [m])
            && r'.received == r.received
            && (r'.cons.tbo == t.(getQueue := true) || r'.cons.tbo == NextInstanceQueue(t).(getQueue := true))
  {
    AbsorbCases(r, m);
  }

  lemma ReceiveHolds(r: Replica, m: Msg)
    requires Sane(r) && HeldInv(r, AsVote(m)) && m in r.received
    ensures Receive(r, m).Some? ==> HeldInv(Receive(r, m).value.replica, multiset{})
  {
    match Classify(r.cons, m.message, r.view.seqNo)
    case Accepted => if Fits(r.cons, m.message) { AbsorbHolds(r, m); }
    case Queued =>
      EnqueueHolds(r.cons.tbo, m);
      HeldShrinks(r, Receive(r, m).value.replica, AsVote(m), multiset{});
    case Dropped => HeldShrinks(r, Receive(r, m).value.replica, AsVote(m), multiset{});
  }

  /** A poll takes the message it returns out of its queue, and nothing else. */
  lemma PollPops(c: Instance, pool: Pool)
    ensures var (status, c') := Poll(c, pool);
            var t, t' := c.tbo, c'.tbo;
            if !status.NextMessage?
            then t'.prePrepares == t.prePrepares && t'.prepares == t.prepares && t'.commits == t.commits
            else if c.phase.Init? || c.phase.PrePreparing?
            then PopMessage(t.prePrepares) == (Some(status.message), t'.prePrepares)
                 && t'.prepares == t.prepares && t'.commits == t.commits
            else if c.phase.Committing?
            then PopMessage(t.commits) == (Some(status.message), t'.commits)
                 && t'.prePrepares == t.prePrepares && t'.prepares == t.prepares
            else PopMessage(t.prepares) == (Some(status.message), t'.prepares)
                 && t'.prePrepares == t.prePrepares && t'.commits == t.commits
  {
  }

  lemma PollTakes(c: Instance, pool: Pool)
    ensures var (status, c') := Poll(c, pool);
            var pp, votes := Contents(c.tbo.prePrepares), Held(c.tbo);
            var pp', votes' := Contents(c'.tbo.prePrepares), Held(c'.tbo);
            if !status.NextMessage? then pp' == pp && votes' == votes
            else if c.phase.Init? || c.phase.PrePreparing?
            then pp == pp' + multiset{status.message} && votes' == votes
            else pp' == pp && votes == votes' + multiset{status.message}
  {
    PollPops(c, pool);
    PopContents(c.tbo.prePrepares);
    PopContents(c.tbo.commits);
    PopContents(c.tbo.prepares);
  }

  lemma PollHolds(r: Replica)
    requires HeldInv(r, multiset{})
    ensures var (status, c) := Poll(r.cons, r.log.pool);
            if status.NextMessage?
            then HeldInv(r.(cons := c), AsVote(status.message)) && status.message in r.received
            else HeldInv(r.(cons := c), multiset{})
  {
    var (status, c) := Poll(r.cons, r.log.pool);
    PollTakes(r.cons, r.log.pool);
    var inHand := multiset{};
    if status.NextMessage? {
      var m := status.message;
      inHand := AsVote(m);
      if r.cons.phase.Init? || r.cons.phase.PrePreparing? {
        assert m in Contents(r.cons.tbo.prePrepares);
      } else {
        assert m in Held(r.cons.tbo);
        assert m in multiset(r.received);
      }
    }
    assert Held(c.tbo) + inHand == Held(r.cons.tbo);
    HeldShrinks(r, r.(cons := c), multiset{}, inHand);
  }

  lemma AddOne<T>(held: multiset<T>, s: set<T>, m: T)
    requires held <= multiset(s)
    ensures held <= multiset(s + {m})
    ensures m !in s ==> held + multiset{m} <= multiset(s + {m})
  {
    assert multiset(s) <= multiset(s + {m});
    if m !in s { assert multiset(s + {m}) == multiset(s) + multiset{m}; }
  }

  lemma HandOver(r: Replica, m: Msg)
    requires HeldInv(r, multiset{}) && MayDeliver(r.received, m)
    ensures HeldInv(r.(received := r.received + {m}), AsVote(m))
  {
    var held := Held(r.cons.tbo) + multiset(r.accepted);
    assert held == held + multiset{};
    assert !m.message.kind.PrePrepare? ==> SameVote(m, m);
    AddOne(held, r.received, m);
  }

  lemma UniqueVotesGrow(received: set<Msg>, m: Msg)
    requires UniqueVotes(received) && MayDeliver(received, m)
    ensures UniqueVotes(received + {m})
  {
    forall a, b | a in received + {m} && b in received + {m} && SameVote(a, b) ensures a == b {
      assert SameVote(b, a);
    }
  }

  ghost predicate HoldsVotes(r: Replica) {
    HeldInv(r, multiset{}) && UniqueVotes(r.received)
  }

  /** The event respects the one-vote hypothesis. */
  ghost predicate OneVote(r: Replica, e: Event) {
    e.Deliver? || e.Defer? ==> MayDeliver(r.received, e.message)
  }

  lemma DeferHolds(r: Replica, m: Msg)
    requires Sane(r) && HeldInv(r, multiset{}) && MayDeliver(r.received, m)
    ensures HeldInv(Step(r, Defer(m)).value.replica, multiset{})
  {
    HandOver(r, m);
    EnqueueHolds(r.cons.tbo, m);
    HeldShrinks(r.(received := r.received + {m}), Step(r, Defer(m)).value.replica, AsVote(m), multiset{});
  }

  lemma PollStepHolds(r: Replica)
    requires Sane(r) && HeldInv(r, multiset{})
    ensures Step(r, PollQueue).Some? ==> HeldInv(Step(r, PollQueue).value.replica, multiset{})
  {
    var (status, c) := Poll(r.cons, r.log.pool);
    PollHolds(r);
    PollIsQuiet(r);
    if status.NextMessage? { ReceiveHolds(r.(cons := c), status.message); }
  }

  lemma StepHeld(r: Replica, e: Event)
    requires Sane(r) && HeldInv(r, multiset{}) && OneVote(r, e)
    ensures Step(r, e).Some? ==> HeldInv(Step(r, e).value.replica, multiset{})
  {
    match e
    case Deliver(m) =>
      HandOver(r, m);
      ReceiveHolds(r.(received := r.received + {m}), m);
    case Defer(m) => DeferHolds(r, m);
    case PollQueue => PollStepHolds(r);
    case _ => OthersHandle(r, e);
  }

  /** The other events do not touch votes. */
  lemma OthersHandle(r: Replica, e: Event)
    requires Sane(r) && !e.Deliver? && !e.Defer? && !e.PollQueue?
    ensures Step(r, e).Some? ==>
              var r' := Step(r, e).value.replica;
              r'.cons.tbo == r.cons.tbo && r'.accepted == r.accepted && r'.received == r.received
  {
  }

  lemma ReceiveSame(r: Replica, m: Msg)
    requires Sane(r)
    ensures Receive(r, m).Some? ==>
              var r' := Receive(r, m).value.replica;
              r'.received == r.received && r'.me == r.me && r'.view == r.view
  {
  }

  lemma ReceivedGrows(r: Replica, e: Event)
    requires Sane(r)
    ensures Step(r, e).Some? ==>
              var now := Step(r, e).value.replica.received;
              now == if e.Deliver? || e.Defer? then r.received + {e.message} else r.received
  {
    match e
    case Deliver(m) => ReceiveSame(r.(received := r.received + {m}), m);
    case PollQueue =>
      var (status, c) := Poll(r.cons, r.log.pool);
      PollIsQuiet(r);
      if status.NextMessage? { ReceiveSame(r.(cons := c), status.message); }
    case _ =>
  }

  /** Queueing, re-queueing, popping and dropping never duplicate a vote. */
  lemma StepHolds(r: Replica, e: Event)
    requires Sane(r) && HoldsVotes(r) && OneVote(r, e)
    ensures Step(r, e).Some? ==> HoldsVotes(Step(r, e).value.replica)
  {
    StepHeld(r, e);
    ReceivedGrows(r, e);
    if e.Deliver? || e.Defer? { UniqueVotesGrow(r.received, e.message); }
  }

  lemma {:induction false} DistinctElements<T>(xs: seq<T>, s: set<T>)
    requires multiset(xs) <= multiset(s)
    ensures forall i, j :: 0 <= i < j < |xs| ==> xs[i] != xs[j]
    ensures forall i :: 0 <= i < |xs| ==> xs[i] in s
  {
    forall i, j | 0 <= i < j < |xs| ensures xs[i] != xs[j] {
      assert xs == xs[..i] + [xs[i]] + xs[i + 1..j] + [xs[j]] + xs[j + 1..];
      assert xs[i] == xs[j] ==> multiset(xs)[xs[i]] >= 2;
    }
    forall i | 0 <= i < |xs| ensures xs[i] in s {
      assert xs[i] in multiset(xs);
    }
  }

  function From(): Msg -> NodeId {
    (m: Msg) => m.header.from
  }

  /** The counter of the COMMIT phase is the number of different senders heard. */
  lemma CommitSenders(r: Replica, s: SeqNo, v: SeqNo, d: Digest)
    requires HoldsVotes(r)
    ensures |Image(r.accepted, CommitFor(s, v, d), From())| == Count(r.accepted, CommitFor(s, v, d))
    ensures forall i :: 0 <= i < |r.accepted| ==> r.accepted[i] in r.received
  {
    var xs := r.accepted;
    assert multiset(xs) <= multiset(r.received);
    DistinctElements(xs, r.received);
    forall i, j | 0 <= i < j < |xs| && CommitFor(s, v, d)(xs[i]) && CommitFor(s, v, d)(xs[j])
      ensures From()(xs[i]) != From()(xs[j])
    {
      assert From()(xs[i]) == From()(xs[j]) ==> SameVote(xs[i], xs[j]);
    }
    CountDistinct(xs, CommitFor(s, v, d), From());
  }

  // ---- every logged vote was accepted -------------------------------------------

  ghost predicate LoggedInv(r: Replica) {
    && (forall i :: 0 <= i < |r.log.declog.prepares| ==> r.log.declog.prepares[i] in r.accepted)
    && (forall i :: 0 <= i < |r.log.declog.commits| ==> r.log.declog.commits[i] in r.accepted)
  }

  lemma ReceiveLogged(r: Replica, m: Msg)
    requires Sane(r) && LoggedInv(r)
    ensures Receive(r, m).Some? ==> LoggedInv(Receive(r, m).value.replica)
  {
    if Classify(r.cons, m.message, r.view.seqNo) == Accepted && Fits(r.cons, m.message) {
      AbsorbCases(r, m);
    }
  }

  lemma StepLogged(r: Replica, e: Event)
    requires Sane(r) && LoggedInv(r)
    ensures Step(r, e).Some? ==> LoggedInv(Step(r, e).value.replica)
  {
    match e
    case Deliver(m) => ReceiveLogged(r.(received := r.received + {m}), m);
    case PollQueue =>
      var (status, c) := Poll(r.cons, r.log.pool);
      PollIsQuiet(r);
      if status.NextMessage? { ReceiveLogged(r.(cons := c), status.message); }
    case _ =>
  }
}
