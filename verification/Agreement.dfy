/** `n = 3f + 1` replicas, up to `f` of them faulty, over a growing set of
    sender-authenticated messages: no two correct replicas decide differently. */
module Agreement {
  import opened Wrappers
  import opened Ordering
  import opened Core
  import opened Messages
  import opened Counting
  import opened NormalPhase
  import opened Replicas
  import opened ReplicaInvariants
  import opened Votes

  // ---- what one step sends and decides ----------------------------------------

  /** Votes sent so far never belong to a later instance or view, and those of the
      running one are for its digest; a step keeps that. */
  lemma AbsorbFits(r: Replica, m: Msg, a: ConsensusMessage)
    requires BaseInv(r) && VoteFits(a, r.cons, r.view.seqNo)
    requires Classify(r.cons, m.message, r.view.seqNo) == Accepted && Fits(r.cons, m.message)
    ensures Absorb(r, m).Some? ==>
              var r' := Absorb(r, m).value.replica; VoteFits(a, r'.cons, r'.view.seqNo)
  {
    AbsorbCases(r, m);
  }

  lemma QuietFits(r: Replica, r': Replica, a: ConsensusMessage)
    requires Quiet(r, r') && VoteFits(a, r.cons, r.view.seqNo)
    ensures VoteFits(a, r'.cons, r'.view.seqNo)
  {
  }

  lemma ReceiveFits(r: Replica, m: Msg, a: ConsensusMessage)
    requires BaseInv(r) && VoteFits(a, r.cons, r.view.seqNo)
    ensures Receive(r, m).Some? ==>
              var r' := Receive(r, m).value.replica; VoteFits(a, r'.cons, r'.view.seqNo)
  {
    match Classify(r.cons, m.message, r.view.seqNo)
    case Accepted => if Fits(r.cons, m.message) { AbsorbFits(r, m, a); }
    case _ => QuietFits(r, Receive(r, m).value.replica, a);
  }

  lemma StepFits(r: Replica, e: Event, a: ConsensusMessage)
    requires BaseInv(r) && VoteFits(a, r.cons, r.view.seqNo)
    ensures Step(r, e).Some? ==>
              var r' := Step(r, e).value.replica; VoteFits(a, r'.cons, r'.view.seqNo)
  {
    match e
    case Deliver(m) => ReceiveFits(r.(received := r.received + {m}), m, a);
    case PollQueue => PollFits(r, a);
    case ChangeView(v, cid, bound, proposed, nonce) => ViewChangeFits(r, v, cid, bound, proposed, nonce, a);
    case CheckpointDone =>
    case _ =>
      OthersAreQuiet(r, e);
      QuietFits(r, Step(r, e).value.replica, a);
  }

  lemma PollFits(r: Replica, a: ConsensusMessage)
    requires BaseInv(r) && VoteFits(a, r.cons, r.view.seqNo)
    ensures Step(r, PollQueue).Some? ==>
              var r' := Step(r, PollQueue).value.replica; VoteFits(a, r'.cons, r'.view.seqNo)
  {
    var (status, c) := Poll(r.cons, r.log.pool);
    PollIsQuiet(r);
    QuietFits(r, r.(cons := c), a);
    if status.NextMessage? { ReceiveFits(r.(cons := c), status.message, a); }
  }

  lemma ViewChangeFits(
    r: Replica, v: SeqNo, cid: SeqNo, bound: Option<Digest>, proposed: seq<Digest>, nonce: nat, a: ConsensusMessage)
    requires BaseInv(r) && VoteFits(a, r.cons, r.view.seqNo)
    ensures var x := FinishViewChange(r, v, cid, bound, proposed, nonce);
            x.Some? ==> VoteFits(a, x.value.replica.cons, x.value.replica.view.seqNo)
  {
  }

  /** A COMMIT is sent on entering the COMMIT phase, and says so. */
  ghost predicate SentOnEntry(r: Replica, r': Replica, sent: Option<ConsensusMessage>) {
    sent.Some? && sent.value.kind.Commit? ==>
      && !r.cons.phase.Committing? && r'.cons.phase.Committing?
      && r'.cons.tbo.currSeq == r.cons.tbo.currSeq && r'.view == r.view
      && sent.value == ConsensusMessage(r'.cons.tbo.currSeq, r'.view.seqNo, Commit(r'.cons.currentDigest))
  }

  lemma ReceiveSends(r: Replica, m: Msg)
    requires Sane(r)
    ensures Receive(r, m).Some? ==> SentOnEntry(r, Receive(r, m).value.replica, Receive(r, m).value.sent)
  {
    if Classify(r.cons, m.message, r.view.seqNo) == Accepted && Fits(r.cons, m.message) { AbsorbCases(r, m); }
  }

  lemma StepSends(r: Replica, e: Event)
    requires Sane(r)
    ensures Step(r, e).Some? ==> SentOnEntry(r, Step(r, e).value.replica, Step(r, e).value.sent)
  {
    match e
    case Deliver(m) => ReceiveSends(r.(received := r.received + {m}), m);
    case PollQueue =>
      var (status, c) := Poll(r.cons, r.log.pool);
      PollIsQuiet(r);
      if status.NextMessage? { ReceiveSends(r.(cons := c), status.message); }
    case _ =>
  }

  /** A step decides at most once, after accepting a quorum of matching COMMITs. */
  ghost predicate DecidesByQuorum(r: Replica, r': Replica) {
    || r'.decisions == r.decisions
    || (exists d :: r'.decisions == r.decisions + [d]
          && Count(r'.accepted, CommitFor(d.seqNo, d.view, d.digest)) >= r.view.params.Quorum()
          && d.view == r.view.seqNo)
  }

  lemma AbsorbDecides(r: Replica, m: Msg)
    requires BaseInv(r) && CountsVotes(r)
    requires Classify(r.cons, m.message, r.view.seqNo) == Accepted && Fits(r.cons, m.message)
    ensures Absorb(r, m).Some? ==> DecidesByQuorum(r, Absorb(r, m).value.replica)
  {
    AbsorbCases(r, m);
    if Absorb(r, m).Some? && r.cons.phase == Committing(2 * r.view.params.f) {
      LastCommitDecides(r, m);
    }
  }

  lemma LastCommitDecides(r: Replica, m: Msg)
    requires BaseInv(r) && CountsVotes(r) && r.cons.phase == Committing(2 * r.view.params.f)
    requires Classify(r.cons, m.message, r.view.seqNo) == Accepted && Fits(r.cons, m.message) && Absorb(r, m).Some?
    ensures DecidesByQuorum(r, Absorb(r, m).value.replica)
  {
    var s, v, d := r.cons.tbo.currSeq, r.view.seqNo, r.cons.currentDigest;
    CountAppend(r.accepted, m, CommitFor(s, v, d));
    var r' := Absorb(r, m).value.replica;
    assert r'.accepted == r.accepted + [m];
    var last := r'.decisions[|r.decisions|];
    assert r'.decisions == r.decisions + [last] && last.seqNo == s && last.view == v && last.digest == d;
  }

  lemma StepDecides(r: Replica, e: Event)
    requires BaseInv(r) && CountsVotes(r)
    ensures Step(r, e).Some? ==> DecidesByQuorum(r, Step(r, e).value.replica)
  {
    match e
    case Deliver(m) =>
      var r0 := r.(received := r.received + {m});
      if Classify(r.cons, m.message, r.view.seqNo) == Accepted && Fits(r.cons, m.message) { AbsorbDecides(r0, m); }
    case PollQueue =>
      var (status, c) := Poll(r.cons, r.log.pool);
      PollIsQuiet(r);
      QuietCounts(r, r.(cons := c));
      if status.NextMessage? {
        var m := status.message;
        if Classify(c, m.message, r.view.seqNo) == Accepted && Fits(c, m.message) {
          AbsorbDecides(r.(cons := c), m);
        }
      }
    case _ =>
  }

  // ---- the system -------------------------------------------------------------------

  datatype System = System(replicas: seq<Replica>, net: set<Msg>)

  /** Faulty replicas send anything under their own name. Correct ones take steps. */
  datatype Action =
    | FaultySend(message: Msg)
    | Local(id: NodeId, event: Event, nonce: nat)

  function Broadcast(id: NodeId, sent: Option<ConsensusMessage>, nonce: nat): set<Msg> {
    if sent.None? then {} else {Stored(Header(id, OfMessage(sent.value), nonce), sent.value)}
  }

  ghost predicate Start(sys: System, p: Params, view: SeqNo, batchSize: nat) {
    && |sys.replicas| == p.n && sys.net == {}
    && forall i :: 0 <= i < p.n ==> sys.replicas[i] == Initial(i, ViewInfo(view, p), batchSize)
  }

  ghost predicate Next(faulty: set<NodeId>, sys: System, a: Action, sys': System) {
    match a
    case FaultySend(m) => m.header.from in faulty && sys' == sys.(net := sys.net + {m})
    case Local(i, e, nonce) =>
      && i < |sys.replicas| && i !in faulty && Sane(sys.replicas[i])
      && (e.Deliver? || e.Defer? ==> e.message in sys.net)
      && OneVote(sys.replicas[i], e)
      && var x := Step(sys.replicas[i], e);
         && x.Some?
         && sys' == System(sys.replicas[i := x.value.replica], sys.net + Broadcast(i, x.value.sent, nonce))
  }

  /** `trace` is a run: it starts in an initial state and each state follows by an action. */
  ghost predicate Run(
    trace: seq<System>, acts: seq<Action>, p: Params, faulty: set<NodeId>, view: SeqNo, batchSize: nat) {
    && |trace| == |acts| + 1 && Start(trace[0], p, view, batchSize)
    && forall k :: 0 <= k < |acts| ==> Next(faulty, trace[k], acts[k], trace[k + 1])
  }

  /** At most `f` of `3f + 1` replicas are faulty. */
  ghost predicate Tolerable(p: Params, faulty: set<NodeId>) {
    p.Standard() && faulty <= Range(0, p.n) && |faulty| <= p.f
  }

  // ---- the invariant ------------------------------------------------------------------

  ghost predicate ReplicaInv(r: Replica, i: NodeId, p: Params, net: set<Msg>) {
    && LogInv(r) && CountsVotes(r) && HoldsVotes(r) && LoggedInv(r)
    && r.me == i && r.view.params == p && r.received <= net
  }

  /** The COMMITs replica `i` has sent, as seen in the network. */
  ghost predicate CommitsInv(r: Replica, i: NodeId, net: set<Msg>) {
    && (forall a :: a in net && a.header.from == i && a.message.kind.Commit? ==>
          VoteFits(a.message, r.cons, r.view.seqNo))
    && (forall a, b :: a in net && b in net && a.header.from == i && a.message.kind.Commit? && SameVote(a, b) ==>
          a.message == b.message)
  }

  ghost function Committers(net: set<Msg>, s: SeqNo, v: SeqNo, d: Digest): set<NodeId> {
    set m | m in net && m.message == ConsensusMessage(s, v, Commit(d)) :: m.header.from
  }

  ghost predicate DecisionsInv(r: Replica, net: set<Msg>) {
    forall k :: 0 <= k < |r.decisions| ==>
      var d := r.decisions[k];
      |Committers(net, d.seqNo, d.view, d.digest)| >= r.view.params.Quorum()
  }

  ghost predicate SystemInv(sys: System, p: Params, faulty: set<NodeId>) {
    && |sys.replicas| == p.n && Tolerable(p, faulty)
    && (forall m :: m in sys.net ==> m.header.from < p.n)
    && (forall i :: 0 <= i < p.n && i !in faulty ==> ReplicaInv(sys.replicas[i], i, p, sys.net))
    && (forall i :: 0 <= i < p.n && i !in faulty ==> CommitsInv(sys.replicas[i], i, sys.net))
    && (forall i :: 0 <= i < p.n && i !in faulty ==> DecisionsInv(sys.replicas[i], sys.net))
  }

  lemma CommittersGrow(net: set<Msg>, net': set<Msg>, s: SeqNo, v: SeqNo, d: Digest)
    requires net <= net'
    ensures |Committers(net, s, v, d)| <= |Committers(net', s, v, d)|
  {
    SubsetSize(Committers(net, s, v, d), Committers(net', s, v, d));
  }

  lemma DecisionsGrow(r: Replica, net: set<Msg>, net': set<Msg>)
    requires DecisionsInv(r, net) && net <= net'
    ensures DecisionsInv(r, net')
  {
    forall k | 0 <= k < |r.decisions|
      ensures var d := r.decisions[k];
              |Committers(net', d.seqNo, d.view, d.digest)| >= r.view.params.Quorum()
    {
      var d := r.decisions[k];
      CommittersGrow(net, net', d.seqNo, d.view, d.digest);
    }
  }

  /** The invariant of the replica that takes the step. */
  lemma StepReplica(r: Replica, i: NodeId, p: Params, net: set<Msg>, e: Event)
    requires ReplicaInv(r, i, p, net) && OneVote(r, e) && (e.Deliver? || e.Defer? ==> e.message in net)
    ensures Step(r, e).Some? ==> ReplicaInv(Step(r, e).value.replica, i, p, net)
  {
    StepKeepsLog(r, e);
    StepCounts(r, e);
    StepHolds(r, e);
    StepLogged(r, e);
    ReceivedGrows(r, e);
    StepIdentity(r, e);
  }

  lemma StepIdentity(r: Replica, e: Event)
    requires Sane(r)
    ensures Step(r, e).Some? ==>
              var r' := Step(r, e).value.replica;
              r'.me == r.me && r'.view.params == r.view.params && (!e.ChangeView? ==> r'.view == r.view)
  {
    match e
    case Deliver(m) => ReceiveSame(r.(received := r.received + {m}), m);
    case PollQueue =>
      var (status, c) := Poll(r.cons, r.log.pool);
      PollIsQuiet(r);
      if status.NextMessage? { ReceiveSame(r.(cons := c), status.message); }
    case _ =>
  }

  lemma CommitsStillFit(r: Replica, i: NodeId, net: set<Msg>, e: Event)
    requires BaseInv(r) && CommitsInv(r, i, net) && Step(r, e).Some?
    ensures var r' := Step(r, e).value.replica;
            forall a :: a in net && a.header.from == i && a.message.kind.Commit? ==>
              VoteFits(a.message, r'.cons, r'.view.seqNo)
  {
    var r' := Step(r, e).value.replica;
    forall a | a in net && a.header.from == i && a.message.kind.Commit?
      ensures VoteFits(a.message, r'.cons, r'.view.seqNo)
    {
      StepFits(r, e, a.message);
    }
  }

  /** Sending keeps the sender's record of COMMITs consistent. */
  lemma StepCommits(r: Replica, i: NodeId, net: set<Msg>, e: Event, nonce: nat)
    requires BaseInv(r) && CommitsInv(r, i, net)
    ensures Step(r, e).Some? ==>
              CommitsInv(Step(r, e).value.replica, i, net + Broadcast(i, Step(r, e).value.sent, nonce))
  {
    if Step(r, e).Some? {
      var r', sent := Step(r, e).value.replica, Step(r, e).value.sent;
      StepSends(r, e);
      CommitsStillFit(r, i, net, e);
      SendKeepsCommits(r, r', i, net, sent, nonce);
    }
  }

  lemma SendKeepsCommits(r: Replica, r': Replica, i: NodeId, net: set<Msg>, sent: Option<ConsensusMessage>, nonce: nat)
    requires CommitsInv(r, i, net) && SentOnEntry(r, r', sent)
    requires forall a :: a in net && a.header.from == i && a.message.kind.Commit? ==>
               VoteFits(a.message, r'.cons, r'.view.seqNo)
    ensures CommitsInv(r', i, net + Broadcast(i, sent, nonce))
  {
    if sent.Some? && sent.value.kind.Commit? { NewCommitIsFirst(r, r', i, net, sent.value); }
  }

  lemma NewCommitIsFirst(r: Replica, r': Replica, i: NodeId, net: set<Msg>, c: ConsensusMessage)
    requires CommitsInv(r, i, net) && SentOnEntry(r, r', Some(c)) && c.kind.Commit?
    ensures VoteFits(c, r'.cons, r'.view.seqNo)
    ensures forall a :: a in net && a.header.from == i && a.message.kind.Commit? ==>
              !(a.message.seqNo == c.seqNo && a.message.view == c.view)
  {
  }

  lemma CountedSendersAreInNet(r: Replica, net: set<Msg>, s: SeqNo, v: SeqNo, d: Digest)
    requires HoldsVotes(r) && r.received <= net
    ensures |Committers(net, s, v, d)| >= Count(r.accepted, CommitFor(s, v, d))
  {
    CommitSenders(r, s, v, d);
    var senders := Image(r.accepted, CommitFor(s, v, d), From());
    forall n | n in senders ensures n in Committers(net, s, v, d) {
      var i :| 0 <= i < |r.accepted| && CommitFor(s, v, d)(r.accepted[i]) && From()(r.accepted[i]) == n;
      assert r.accepted[i] in net;
    }
    SubsetSize(senders, Committers(net, s, v, d));
  }

  /** A new decision is backed by a quorum of COMMIT senders in the network. */
  lemma StepDecisions(r: Replica, r': Replica, net: set<Msg>)
    requires DecisionsInv(r, net) && DecidesByQuorum(r, r') && r'.view.params == r.view.params
    requires HoldsVotes(r') && r'.received <= net
    ensures DecisionsInv(r', net)
  {
    if r'.decisions != r.decisions {
      var d :| r'.decisions == r.decisions + [d]
        && Count(r'.accepted, CommitFor(d.seqNo, d.view, d.digest)) >= r.view.params.Quorum()
        && d.view == r.view.seqNo;
      CountedSendersAreInNet(r', net, d.seqNo, d.view, d.digest);
    }
  }

  lemma StartInv(sys: System, p: Params, faulty: set<NodeId>, view: SeqNo, batchSize: nat)
    requires Start(sys, p, view, batchSize) && Tolerable(p, faulty) && view >= 0
    ensures SystemInv(sys, p, faulty)
  {
    forall i | 0 <= i < p.n ensures ReplicaInv(sys.replicas[i], i, p, sys.net) {
      InitialReplica(i, p, view, batchSize);
    }
  }

  lemma InitialReplica(i: NodeId, p: Params, view: SeqNo, batchSize: nat)
    requires p.Standard() && view >= 0
    ensures ReplicaInv(Initial(i, ViewInfo(view, p), batchSize), i, p, {})
  {
    InitialLog(i, ViewInfo(view, p), batchSize);
  }

  /** Growing the network leaves a replica that takes no step as it is. */
  lemma NetGrows(r: Replica, i: NodeId, p: Params, net: set<Msg>, net': set<Msg>)
    requires ReplicaInv(r, i, p, net) && CommitsInv(r, i, net) && DecisionsInv(r, net)
    requires net <= net' && forall m :: m in net' && m !in net ==> m.header.from != i
    ensures ReplicaInv(r, i, p, net') && CommitsInv(r, i, net') && DecisionsInv(r, net')
  {
    DecisionsGrow(r, net, net');
  }

  lemma LocalStepInv(r: Replica, i: NodeId, p: Params, net: set<Msg>, e: Event, nonce: nat)
    requires ReplicaInv(r, i, p, net) && CommitsInv(r, i, net) && DecisionsInv(r, net)
    requires OneVote(r, e) && (e.Deliver? || e.Defer? ==> e.message in net)
    requires Step(r, e).Some?
    ensures var x := Step(r, e).value;
            var net' := net + Broadcast(i, x.sent, nonce);
            ReplicaInv(x.replica, i, p, net') && CommitsInv(x.replica, i, net') && DecisionsInv(x.replica, net')
  {
    var x := Step(r, e).value;
    StepReplica(r, i, p, net, e);
    StepCommits(r, i, net, e, nonce);
    StepDecides(r, e);
    StepDecisions(r, x.replica, net);
    DecisionsGrow(x.replica, net, net + Broadcast(i, x.sent, nonce));
  }

  lemma NextInv(sys: System, a: Action, sys': System, p: Params, faulty: set<NodeId>)
    requires SystemInv(sys, p, faulty) && Next(faulty, sys, a, sys')
    ensures SystemInv(sys', p, faulty)
  {
    forall i | 0 <= i < p.n && i !in faulty
      ensures ReplicaInv(sys'.replicas[i], i, p, sys'.net)
      ensures CommitsInv(sys'.replicas[i], i, sys'.net) && DecisionsInv(sys'.replicas[i], sys'.net)
    {
      NextReplica(sys, a, sys', p, faulty, i);
    }
    NextSenders(sys, a, sys', p, faulty);
  }

  lemma NextReplica(sys: System, a: Action, sys': System, p: Params, faulty: set<NodeId>, i: NodeId)
    requires Next(faulty, sys, a, sys') && |sys.replicas| == p.n && i < p.n && i !in faulty
    requires ReplicaInv(sys.replicas[i], i, p, sys.net)
    requires CommitsInv(sys.replicas[i], i, sys.net) && DecisionsInv(sys.replicas[i], sys.net)
    ensures |sys'.replicas| == p.n && ReplicaInv(sys'.replicas[i], i, p, sys'.net)
    ensures CommitsInv(sys'.replicas[i], i, sys'.net) && DecisionsInv(sys'.replicas[i], sys'.net)
  {
    if a.Local? && a.id == i {
      LocalStepInv(sys.replicas[i], i, p, sys.net, a.event, a.nonce);
    } else {
      NetGrows(sys.replicas[i], i, p, sys.net, sys'.net);
    }
  }

  lemma NextSenders(sys: System, a: Action, sys': System, p: Params, faulty: set<NodeId>)
    requires Next(faulty, sys, a, sys') && |sys.replicas| == p.n && Tolerable(p, faulty)
    requires forall m :: m in sys.net ==> m.header.from < p.n
    ensures |sys'.replicas| == p.n && forall m :: m in sys'.net ==> m.header.from < p.n
  {
  }

  lemma {:induction false} RunInv(
    trace: seq<System>, acts: seq<Action>, p: Params, faulty: set<NodeId>, view: SeqNo, batchSize: nat, k: nat)
    requires Run(trace, acts, p, faulty, view, batchSize) && Tolerable(p, faulty) && view >= 0 && k <= |acts|
    ensures SystemInv(trace[k], p, faulty)
  {
    if k == 0 {
      StartInv(trace[0], p, faulty, view, batchSize);
    } else {
      RunInv(trace, acts, p, faulty, view, batchSize, k - 1);
      NextInv(trace[k - 1], acts[k - 1], trace[k], p, faulty);
    }
  }

  // ---- agreement ------------------------------------------------------------------------

  /** Two COMMIT quorums for one instance and view name one digest. */
  lemma QuorumsAgree(sys: System, p: Params, faulty: set<NodeId>, s: SeqNo, v: SeqNo, d: Digest, d': Digest)
    requires SystemInv(sys, p, faulty)
    requires |Committers(sys.net, s, v, d)| >= p.Quorum() && |Committers(sys.net, s, v, d')| >= p.Quorum()
    ensures d == d'
  {
    var a, b := Committers(sys.net, s, v, d), Committers(sys.net, s, v, d');
    var i := QuorumsShareCorrect(p, a, b, faulty);
    var x :| x in sys.net && x.message == ConsensusMessage(s, v, Commit(d)) && x.header.from == i;
    var y :| y in sys.net && y.message == ConsensusMessage(s, v, Commit(d')) && y.header.from == i;
    assert CommitsInv(sys.replicas[i], i, sys.net);
    assert SameVote(x, y);
  }

  /** Agreement. In every state of every run, whatever view changes it contains, two
      correct replicas that decided an instance in the same view decided the same digest. */
  lemma AgreementHolds(
    trace: seq<System>, acts: seq<Action>, p: Params, faulty: set<NodeId>, view: SeqNo, batchSize: nat,
    t: nat, i: NodeId, j: NodeId, k: nat, l: nat)
    requires Run(trace, acts, p, faulty, view, batchSize) && Tolerable(p, faulty) && view >= 0 && t < |trace|
    requires |trace[t].replicas| == p.n && i < p.n && j < p.n && i !in faulty && j !in faulty
    requires k < |trace[t].replicas[i].decisions| && l < |trace[t].replicas[j].decisions|
    ensures var a, b := trace[t].replicas[i].decisions[k], trace[t].replicas[j].decisions[l];
            a.seqNo == b.seqNo && a.view == b.view ==> a.digest == b.digest
  {
    RunInv(trace, acts, p, faulty, view, batchSize, t);
    var a, b := trace[t].replicas[i].decisions[k], trace[t].replicas[j].decisions[l];
    assert DecisionsInv(trace[t].replicas[i], trace[t].net) && DecisionsInv(trace[t].replicas[j], trace[t].net);
    if a.seqNo == b.seqNo && a.view == b.view {
      QuorumsAgree(trace[t], p, faulty, a.seqNo, a.view, a.digest, b.digest);
    }
  }
}
