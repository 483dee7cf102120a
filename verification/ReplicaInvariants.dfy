/** What every step of a replica keeps: the log mirrors the running instance, the
    vote counters count votes, and checkpoints start at the right instances. */
module ReplicaInvariants {
  import opened Wrappers
  import opened Ordering
  import opened Core
  import opened Messages
  import opened Counting
  import opened DecisionLogs
  import opened Logs
  import opened NormalPhase
  import opened Replicas

  predicate Active(c: Instance) {
    c.phase.PreparingRequests? || c.phase.Preparing? || c.phase.Committing?
  }

  /** PREPARE votes counted so far; the PRE-PREPARE stands for the leader's. */
  function PrepareVotes(c: Instance, f: nat): int {
    match c.phase
    case Preparing(i) => i - 1
    case Committing(_) => 2 * f
    case _ => 0
  }

  function CommitVotes(c: Instance): nat {
    if c.phase.Committing? then c.phase.votes else 0
  }

  ghost predicate BaseInv(r: Replica) {
    var s := r.cons.tbo.currSeq;
    && Sane(r) && r.view.params.Standard() && s >= 0 && r.view.seqNo >= 0
    && r.log.declog.lastExec == (if s == 0 then None else Some(s - 1))
    && (r.cons.phase.Preparing? ==> 1 <= r.cons.phase.votes <= 2 * r.view.params.f)
    && (r.cons.phase.Committing? ==> r.cons.phase.votes <= 2 * r.view.params.f)
  }

  // ---- the decision log ------------------------------------------------------

  ghost predicate Before(list: seq<Msg>, s: SeqNo) {
    forall i :: 0 <= i < |list| ==> Number(list[i]) < s
  }

  ghost predicate KindsInv(log: Declog) {
    && (forall i :: 0 <= i < |log.prePrepares| ==> log.prePrepares[i].message.kind.PrePrepare?)
    && (forall i :: 0 <= i < |log.prepares| ==> log.prepares[i].message.kind.Prepare?)
    && (forall i :: 0 <= i < |log.commits| ==> log.commits[i].message.kind.Commit?)
  }

  ghost predicate OrderInv(log: Declog, s: SeqNo, v: SeqNo) {
    Ordered(log.prePrepares, s, v) && Ordered(log.prepares, s, v) && Ordered(log.commits, s, v)
  }

  /** The proposals logged for `s` in view `v` have digest `d`. */
  ghost predicate Proposals(list: seq<Msg>, s: SeqNo, v: SeqNo, d: Digest) {
    forall i :: 0 <= i < |list| && Of(s, v)(list[i]) ==> list[i].header.digest == d
  }

  /** The votes logged for `s` in view `v` name digest `d`. */
  ghost predicate Uniform(list: seq<Msg>, s: SeqNo, v: SeqNo, d: Digest) {
    forall i :: 0 <= i < |list| && Of(s, v)(list[i]) ==>
      !list[i].message.kind.PrePrepare? && list[i].message.kind.digest == d
  }

  /** The log of the running instance in the current view. A checkpoint may have emptied it
      since the proposal was logged, which shows by the missing proposal. Older views may
      have left messages, too. */
  ghost predicate RunningInv(dl: Declog, saved: SeqNo, c: Instance, v: SeqNo, f: nat) {
    var s, d := c.tbo.currSeq, c.currentDigest;
    if !Active(c) then Before(dl.prePrepares, s) && Before(dl.prepares, s) && Before(dl.commits, s)
    else
      && Proposals(dl.prePrepares, s, v, d) && Uniform(dl.prepares, s, v, d) && Uniform(dl.commits, s, v, d)
      && LastNumber(dl.prePrepares, saved) == s
      && Count(dl.prepares, Of(s, v)) <= PrepareVotes(c, f)
      && Count(dl.commits, Of(s, v)) <= CommitVotes(c)
      && (dl.prePrepares != [] ==>
            && Count(dl.prePrepares, Of(s, v)) == 1
            && Count(dl.prepares, Of(s, v)) == PrepareVotes(c, f)
            && Count(dl.commits, Of(s, v)) == CommitVotes(c))
  }

  /** The list holds nothing of instance `s`, or `n` messages of view `v`. */
  ghost predicate Whole(list: seq<Msg>, s: SeqNo, v: SeqNo, n: nat) {
    Count(list, For(s)) == 0 || Count(list, Of(s, v)) == n
  }

  /** The log of the last instance, decided in view `v`. If its proposal is there, then its
      votes are there or have been cleared, one list at a time. */
  ghost predicate DecidedInv(dl: Declog, s: SeqNo, v: SeqNo, d: Digest, p: Params) {
    && UpTo(dl.prePrepares, s, v) && UpTo(dl.prepares, s, v) && UpTo(dl.commits, s, v)
    && Proposals(dl.prePrepares, s, v, d) && Uniform(dl.prepares, s, v, d) && Uniform(dl.commits, s, v, d)
    && (Count(dl.prePrepares, For(s)) > 0 ==>
          && Count(dl.prePrepares, Of(s, v)) == 1
          && Whole(dl.prepares, s, v, 2 * p.f) && Whole(dl.commits, s, v, p.Quorum()))
  }

  /** Decisions are numbered from 0 and begin checkpoints when due. */
  ghost predicate NumbersInv(decisions: seq<Decision>, s: SeqNo) {
    && |decisions| == s
    && (forall k :: 0 <= k < s ==> decisions[k].seqNo == k)
    && (forall k :: 0 <= k < s ==> (decisions[k].result.info.BeginCheckpoint? <==> CheckpointDue(k)))
  }

  ghost predicate HistoryInv(decisions: seq<Decision>, dl: Declog, s: SeqNo, p: Params) {
    && NumbersInv(decisions, s)
    && (s > 0 ==> DecidedInv(dl, s - 1, decisions[s - 1].view, decisions[s - 1].digest, p))
  }

  /** What every step keeps. */
  ghost predicate LogInv(r: Replica) {
    && BaseInv(r) && KindsInv(r.log.declog) && OrderInv(r.log.declog, r.cons.tbo.currSeq, r.view.seqNo)
    && RunningInv(r.log.declog, r.log.currSeq, r.cons, r.view.seqNo, r.view.params.f)
    && HistoryInv(r.decisions, r.log.declog, r.cons.tbo.currSeq, r.view.params)
  }

  // ---- steps of the log ---------------------------------------------------------

  lemma BeforeCounts(list: seq<Msg>, s: SeqNo)
    requires Before(list, s)
    ensures Count(list, For(s)) == 0
  {
    NoneBehind(list, s);
  }

  /** Nothing of view `v` of instance `s`. */
  ghost predicate NoneOf(list: seq<Msg>, s: SeqNo, v: SeqNo) {
    forall i :: 0 <= i < |list| ==> !Of(s, v)(list[i])
  }

  /** Other instances do not notice an appended message. */
  lemma DecidedInvKept(dl: Declog, dl': Declog, m: Msg, s: SeqNo, v: SeqNo, d: Digest, p: Params)
    requires DecidedInv(dl, s, v, d, p) && Number(m) != s && dl' == Insert(dl, m)
    ensures DecidedInv(dl', s, v, d, p)
  {
    OthersAppend(dl.prePrepares, m, s, v, d);
    OthersAppend(dl.prepares, m, s, v, d);
    OthersAppend(dl.commits, m, s, v, d);
  }

  lemma OthersAppend(list: seq<Msg>, m: Msg, s: SeqNo, v: SeqNo, d: Digest)
    requires Number(m) != s
    ensures Proposals(list, s, v, d) ==> Proposals(list + [m], s, v, d)
    ensures Uniform(list, s, v, d) ==> Uniform(list + [m], s, v, d)
    ensures UpTo(list, s, v) ==> UpTo(list + [m], s, v)
    ensures Count(list + [m], For(s)) == Count(list, For(s)) && Count(list + [m], Of(s, v)) == Count(list, Of(s, v))
  {
    CountAppend(list, m, For(s));
    CountAppend(list, m, Of(s, v));
  }

  lemma InsertKeepsOrder(dl: Declog, m: Msg, s: SeqNo, v: SeqNo)
    requires OrderInv(dl, s, v) && KindsInv(dl) && Of(s, v)(m)
    ensures OrderInv(Insert(dl, m), s, v) && KindsInv(Insert(dl, m))
  {
    match m.message.kind
    case PrePrepare(_) => OrderedAppend(dl.prePrepares, s, v, m);
    case Prepare(_) => OrderedAppend(dl.prepares, s, v, m);
    case Commit(_) => OrderedAppend(dl.commits, s, v, m);
  }

  /** Logging a message of the running instance does not touch the decided ones. */
  lemma HistoryKept(decisions: seq<Decision>, dl: Declog, s: SeqNo, p: Params, m: Msg)
    requires HistoryInv(decisions, dl, s, p) && Number(m) == s
    ensures HistoryInv(decisions, Insert(dl, m), s, p)
  {
    if s > 0 {
      DecidedInvKept(dl, Insert(dl, m), m, s - 1, decisions[s - 1].view, decisions[s - 1].digest, p);
    }
  }

  /** A proposal enters a log that holds nothing of its view. */
  lemma ProposalRuns(dl: Declog, saved: SeqNo, c: Instance, m: Msg, v: SeqNo, f: nat)
    requires m.message.kind.PrePrepare? && Of(c.tbo.currSeq, v)(m) && c.currentDigest == m.header.digest
    requires NoneOf(dl.prePrepares, Number(m), v) && NoneOf(dl.prepares, Number(m), v)
    requires NoneOf(dl.commits, Number(m), v)
    requires c.phase == Preparing(1) || c.phase.PreparingRequests?
    ensures RunningInv(Insert(dl, m), saved, c, v, f)
  {
    var s := c.tbo.currSeq;
    NoneOfView(dl.prePrepares, s, v);
    NoneOfView(dl.prepares, s, v);
    NoneOfView(dl.commits, s, v);
    CountAppend(dl.prePrepares, m, Of(s, v));
  }

  /** One more matching vote, one more in the counter. */
  lemma VoteRuns(dl: Declog, saved: SeqNo, c: Instance, c': Instance, m: Msg, v: SeqNo, f: nat)
    requires RunningInv(dl, saved, c, v, f) && Active(c) && Active(c')
    requires Number(m) == c.tbo.currSeq == c'.tbo.currSeq && c'.currentDigest == c.currentDigest
    requires m.message.view == v && !m.message.kind.PrePrepare? && m.message.kind.digest == c.currentDigest
    requires PrepareVotes(c', f) == PrepareVotes(c, f) + if m.message.kind.Prepare? then 1 else 0
    requires CommitVotes(c') == CommitVotes(c) + if m.message.kind.Commit? then 1 else 0
    ensures RunningInv(Insert(dl, m), saved, c', v, f)
  {
    CountAppend(dl.prepares, m, Of(Number(m), v));
    CountAppend(dl.commits, m, Of(Number(m), v));
    VoteAppends(dl.prepares, m, v, c.currentDigest);
    VoteAppends(dl.commits, m, v, c.currentDigest);
  }

  lemma VoteAppends(list: seq<Msg>, m: Msg, v: SeqNo, d: Digest)
    requires Uniform(list, Number(m), v, d)
    requires m.message.view == v && !m.message.kind.PrePrepare? && m.message.kind.digest == d
    ensures Uniform(list + [m], Number(m), v, d)
  {
  }

  /** A proposal is logged for an instance that had none. */
  lemma ProposalKeepsLog(r: Replica, m: Msg)
    requires LogInv(r) && r.cons.phase.PrePreparing? && Fits(r.cons, m.message)
    requires Classify(r.cons, m.message, r.view.seqNo) == Accepted
    ensures LogInv(Logged(r, m).(cons := AcceptProposal(r.cons, m, r.view, r.me, r.log.pool).state))
  {
    var c := AcceptProposal(r.cons, m, r.view, r.me, r.log.pool).state;
    InsertKeepsOrder(r.log.declog, m, r.cons.tbo.currSeq, r.view.seqNo);
    ProposalRuns(r.log.declog, r.log.currSeq, c, m, r.view.seqNo, r.view.params.f);
    HistoryKept(r.decisions, r.log.declog, r.cons.tbo.currSeq, r.view.params, m);
  }

  /** A vote is logged and counted by the phase `c`. */
  lemma VoteKeepsLog(r: Replica, c: Instance, m: Msg)
    requires LogInv(r) && Active(r.cons) && Active(c) && BaseInv(Logged(r, m).(cons := c))
    requires Number(m) == r.cons.tbo.currSeq == c.tbo.currSeq && c.currentDigest == r.cons.currentDigest
    requires m.message.view == r.view.seqNo
    requires !m.message.kind.PrePrepare? && m.message.kind.digest == c.currentDigest
    requires PrepareVotes(c, r.view.params.f) ==
             PrepareVotes(r.cons, r.view.params.f) + if m.message.kind.Prepare? then 1 else 0
    requires CommitVotes(c) == CommitVotes(r.cons) + if m.message.kind.Commit? then 1 else 0
    ensures LogInv(Logged(r, m).(cons := c))
  {
    InsertKeepsOrder(r.log.declog, m, r.cons.tbo.currSeq, r.view.seqNo);
    VoteRuns(r.log.declog, r.log.currSeq, r.cons, c, m, r.view.seqNo, r.view.params.f);
    HistoryKept(r.decisions, r.log.declog, r.cons.tbo.currSeq, r.view.params, m);
  }

  /** A counted PREPARE is logged. */
  lemma PrepareKeepsLog(r: Replica, m: Msg)
    requires LogInv(r) && r.cons.phase.Preparing?
    requires Classify(r.cons, m.message, r.view.seqNo) == Accepted
    ensures LogInv(Logged(r, m).(cons := AcceptPrepare(r.cons, r.view).state))
  {
    PrepareBase(r, m);
    VoteKeepsLog(r, AcceptPrepare(r.cons, r.view).state, m);
  }

  lemma PrepareBase(r: Replica, m: Msg)
    requires BaseInv(r) && r.cons.phase.Preparing? && Classify(r.cons, m.message, r.view.seqNo) == Accepted
    ensures var c := AcceptPrepare(r.cons, r.view).state;
            && BaseInv(Logged(r, m).(cons := c)) && Active(c)
            && PrepareVotes(c, r.view.params.f) == PrepareVotes(r.cons, r.view.params.f) + 1
            && CommitVotes(c) == CommitVotes(r.cons)
  {
  }

  /** A counted COMMIT short of the quorum is logged. */
  lemma CommitKeepsLog(r: Replica, m: Msg)
    requires LogInv(r) && r.cons.phase.Committing?
    requires Classify(r.cons, m.message, r.view.seqNo) == Accepted
    requires r.cons.phase.votes < 2 * r.view.params.f
    ensures LogInv(Logged(r, m).(cons := AcceptCommit(r.cons, r.view).state))
  {
    CommitBase(r, m);
    VoteKeepsLog(r, AcceptCommit(r.cons, r.view).state, m);
  }

  lemma CommitBase(r: Replica, m: Msg)
    requires BaseInv(r) && r.cons.phase.Committing? && Classify(r.cons, m.message, r.view.seqNo) == Accepted
    requires r.cons.phase.votes < 2 * r.view.params.f
    ensures var c := AcceptCommit(r.cons, r.view).state;
            && BaseInv(Logged(r, m).(cons := c)) && Active(c)
            && PrepareVotes(c, r.view.params.f) == PrepareVotes(r.cons, r.view.params.f)
            && CommitVotes(c) == CommitVotes(r.cons) + 1
  {
  }

  /** With its last COMMIT, the running instance has a complete certificate. */
  lemma QuorumDecides(dl: Declog, saved: SeqNo, c: Instance, m: Msg, v: SeqNo, p: Params)
    requires RunningInv(dl, saved, c, v, p.f) && OrderInv(dl, c.tbo.currSeq, v) && c.phase == Committing(2 * p.f)
    requires Number(m) == c.tbo.currSeq && m.message.view == v && m.message.kind == Commit(c.currentDigest)
    ensures DecidedInv(Insert(dl, m), c.tbo.currSeq, v, c.currentDigest, p)
    ensures LastNumber(Insert(dl, m).prePrepares, saved) == c.tbo.currSeq
  {
    CountAppend(dl.commits, m, Of(Number(m), v));
    VoteAppends(dl.commits, m, v, c.currentDigest);
    if dl.prePrepares == [] { NoneBehind(dl.prePrepares, Number(m)); }
  }

  /** Between the last COMMIT and the decided path: no phase runs, the certificate is complete. */
  ghost predicate ReadyToDecide(r: Replica) {
    var s, dl := r.cons.tbo.currSeq, r.log.declog;
    && BaseInv(r) && NumbersInv(r.decisions, s) && r.cons.phase.Init? && LastSeqNo(r.log) == s
    && KindsInv(dl) && OrderInv(dl, s, r.view.seqNo)
    && DecidedInv(dl, s, r.view.seqNo, r.cons.currentDigest, r.view.params)
  }

  /** The COMMIT that completes a quorum. */
  lemma LastCommitIsReady(r: Replica, m: Msg)
    requires LogInv(r) && r.cons.phase == Committing(2 * r.view.params.f)
    requires Classify(r.cons, m.message, r.view.seqNo) == Accepted
    ensures ReadyToDecide(Logged(r, m).(cons := AcceptCommit(r.cons, r.view).state))
  {
    InsertKeepsOrder(r.log.declog, m, r.cons.tbo.currSeq, r.view.seqNo);
    QuorumDecides(r.log.declog, r.log.currSeq, r.cons, m, r.view.seqNo, r.view.params);
  }

  /** The instance becomes the last decided one. */
  lemma DecideKeepsLog(r: Replica, ds: seq<Digest>)
    requires ReadyToDecide(r)
    ensures Decide(r, ds).Some? ==> LogInv(Decide(r, ds).value)
  {
    DecideNumbers(r, ds);
    if Decide(r, ds).Some? { NextInstanceOrder(r.log.declog, r.cons.tbo.currSeq, r.view.seqNo); }
  }

  /** A decision extends the history; the instance number read back from the log is right. */
  lemma DecideNumbers(r: Replica, ds: seq<Digest>)
    requires BaseInv(r) && NumbersInv(r.decisions, r.cons.tbo.currSeq) && LastSeqNo(r.log) == r.cons.tbo.currSeq
    ensures Decide(r, ds).Some? ==>
              var r' := Decide(r, ds).value;
              && NumbersInv(r'.decisions, r'.cons.tbo.currSeq) && r'.cons.tbo.currSeq == r.cons.tbo.currSeq + 1
              && r'.log.declog == r.log.declog.(lastExec := Some(r.cons.tbo.currSeq))
  {
    var s := r.cons.tbo.currSeq;
    FinalizeReports(r.log, s, ds);
    if Decide(r, ds).Some? {
      var r' := Decide(r, ds).value;
      assert r'.decisions[..s] == r.decisions && r'.decisions[s].seqNo == s;
      assert forall k :: 0 <= k < s ==> r'.decisions[k] == r.decisions[k];
    }
  }

  lemma FinalizeReports<S>(log: LogValue<S>, s: SeqNo, ds: seq<Digest>)
    ensures var (r, log') := FinalizeBatch(log, s, ds);
            r.Some? ==>
              && log'.declog == log.declog.(lastExec := Some(s))
              && (r.value.info.BeginCheckpoint? <==> CheckpointDue(LastSeqNo(log)))
  {
  }

  lemma NextInstanceOrder(dl: Declog, s: SeqNo, v: SeqNo)
    requires OrderInv(dl, s, v) && 0 <= s < I32_MAX
    ensures OrderInv(dl, s + 1, v)
    ensures Before(dl.prePrepares, s + 1) && Before(dl.prepares, s + 1) && Before(dl.commits, s + 1)
  {
  }

  /** A finished checkpoint empties the lists but remembers the running instance. */
  lemma CheckpointKeepsLog(r: Replica)
    requires LogInv(r)
    ensures var log := FinalizeCheckpoint(r.log, ());
            log.Some? ==> LogInv(r.(log := log.value))
  {
  }

  /** A view change, whatever instance it is finished for, adds the forged proposal of the
      new view. */
  lemma ViewChangeKeepsLog(
    r: Replica, view: SeqNo, cid: SeqNo, bound: Option<Digest>, proposed: seq<Digest>, nonce: nat)
    requires LogInv(r)
    ensures var x := FinishViewChange(r, view, cid, bound, proposed, nonce);
            x.Some? ==> LogInv(x.value.replica)
  {
    var x := FinishViewChange(r, view, cid, bound, proposed, nonce);
    if x.Some? {
      var s, r' := r.cons.tbo.currSeq, x.value.replica;
      var m := ChangedParts(r, view, cid, bound, proposed, nonce);
      ChangedLog(r.log.declog, cid, m, s, r.view.seqNo, view);
      ChangedRuns(r.log.declog, cid, m, r.log.currSeq, r'.cons, r.view.seqNo, view, r.view.params.f);
      ChangedHistory(r.decisions, r.log.declog, cid, m, s, r.view.seqNo, r.view.params);
    }
  }

  /** The forged proposal, and what else a finished view change does to the replica. */
  lemma ChangedParts(r: Replica, view: SeqNo, cid: SeqNo, bound: Option<Digest>, proposed: seq<Digest>, nonce: nat)
    returns (m: Msg)
    requires Sane(r) && FinishViewChange(r, view, cid, bound, proposed, nonce).Some?
    ensures Of(r.cons.tbo.currSeq, view)(m) && m.message.kind.PrePrepare? && view > r.view.seqNo
    ensures var r' := FinishViewChange(r, view, cid, bound, proposed, nonce).value.replica;
            && Sane(r') && r'.view == r.view.Peek(view) && r'.decisions == r.decisions
            && r'.log == r.log.(declog := Insert(ClearLastOccurrences(r.log.declog, cid), m))
            && r'.cons.tbo == r.cons.tbo && r'.cons.phase == Preparing(1) && r'.cons.currentDigest == m.header.digest
  {
    var requests := Settled(r.log.declog, cid, bound, proposed);
    var forged := ConsensusMessage(r.cons.tbo.currSeq, view, PrePrepare(requests));
    m := Stored(Header(r.view.Peek(view).Leader(), OfMessage(forged), nonce), forged);
  }

  lemma ChangedLog(dl: Declog, cid: SeqNo, m: Msg, s: SeqNo, v: SeqNo, view: SeqNo)
    requires OrderInv(dl, s, v) && KindsInv(dl) && v < view && Of(s, view)(m)
    ensures var dl' := Insert(ClearLastOccurrences(dl, cid), m); OrderInv(dl', s, view) && KindsInv(dl')
  {
    ClearKeepsOrder(dl, cid, s, v);
    LaterView(ClearLastOccurrences(dl, cid), s, v, view);
    InsertKeepsOrder(ClearLastOccurrences(dl, cid), m, s, view);
  }

  lemma ChangedRuns(
    dl: Declog, cid: SeqNo, m: Msg, saved: SeqNo, c: Instance, v: SeqNo, view: SeqNo, f: nat)
    requires OrderInv(dl, c.tbo.currSeq, v) && KindsInv(dl) && v < view && Of(c.tbo.currSeq, view)(m)
    requires m.message.kind.PrePrepare? && c.currentDigest == m.header.digest && c.phase == Preparing(1)
    ensures RunningInv(Insert(ClearLastOccurrences(dl, cid), m), saved, c, view, f)
  {
    ClearKeepsOrder(dl, cid, c.tbo.currSeq, v);
    LaterView(ClearLastOccurrences(dl, cid), c.tbo.currSeq, v, view);
    ProposalRuns(ClearLastOccurrences(dl, cid), saved, c, m, view, f);
  }

  lemma ChangedHistory(
    decisions: seq<Decision>, dl: Declog, cid: SeqNo, m: Msg, s: SeqNo, v: SeqNo, p: Params)
    requires HistoryInv(decisions, dl, s, p) && OrderInv(dl, s, v) && Number(m) == s
    ensures HistoryInv(decisions, Insert(ClearLastOccurrences(dl, cid), m), s, p)
  {
    ClearKeepsHistory(decisions, dl, cid, s, v, p);
    HistoryKept(decisions, ClearLastOccurrences(dl, cid), s, p, m);
  }

  lemma ClearKeepsOrder(dl: Declog, cid: SeqNo, s: SeqNo, v: SeqNo)
    requires OrderInv(dl, s, v) && KindsInv(dl)
    ensures OrderInv(ClearLastOccurrences(dl, cid), s, v) && KindsInv(ClearLastOccurrences(dl, cid))
  {
    DropSuffixExact(dl.prePrepares, cid, s, v);
    DropSuffixExact(dl.prepares, cid, s, v);
    DropSuffixExact(dl.commits, cid, s, v);
  }

  /** A log up to view `v` holds nothing of a later one. */
  lemma LaterView(dl: Declog, s: SeqNo, v: SeqNo, v': SeqNo)
    requires OrderInv(dl, s, v) && v < v'
    ensures OrderInv(dl, s, v')
    ensures NoneOf(dl.prePrepares, s, v') && NoneOf(dl.prepares, s, v') && NoneOf(dl.commits, s, v')
  {
  }

  lemma ClearKeepsHistory(decisions: seq<Decision>, dl: Declog, cid: SeqNo, s: SeqNo, v: SeqNo, p: Params)
    requires HistoryInv(decisions, dl, s, p) && OrderInv(dl, s, v)
    ensures HistoryInv(decisions, ClearLastOccurrences(dl, cid), s, p)
  {
    if s > 0 { ClearKeepsDecided(dl, cid, s, v, s - 1, decisions[s - 1].view, decisions[s - 1].digest, p); }
  }

  lemma ClearKeepsDecided(
    dl: Declog, cid: SeqNo, bound: SeqNo, top: SeqNo, s: SeqNo, v: SeqNo, d: Digest, p: Params)
    requires OrderInv(dl, bound, top) && DecidedInv(dl, s, v, d, p)
    ensures DecidedInv(ClearLastOccurrences(dl, cid), s, v, d, p)
  {
    DropKeepsList(dl.prePrepares, cid, bound, top, s, v, d);
    DropKeepsList(dl.prepares, cid, bound, top, s, v, d);
    DropKeepsList(dl.commits, cid, bound, top, s, v, d);
  }

  /** Clearing any instance keeps what a list holds of instance `s`, or takes it all. */
  lemma DropKeepsList(list: seq<Msg>, cid: SeqNo, bound: SeqNo, top: SeqNo, s: SeqNo, v: SeqNo, d: Digest)
    requires Ordered(list, bound, top)
    ensures var rest := DropSuffix(list, cid);
            && (UpTo(list, s, v) ==> UpTo(rest, s, v))
            && (Proposals(list, s, v, d) ==> Proposals(rest, s, v, d))
            && (Uniform(list, s, v, d) ==> Uniform(rest, s, v, d))
            && (Count(rest, For(s)) == 0
                || (Count(rest, For(s)) == Count(list, For(s)) && Count(rest, Of(s, v)) == Count(list, Of(s, v))))
  {
    DropSuffixExact(list, cid, bound, top);
    if cid != s {
      DropSuffixCounts(list, cid, For(s));
      DropSuffixCounts(list, cid, Of(s, v));
    }
  }

  /** A step that leaves the log and the vote counters as they are. */
  ghost predicate Quiet(r: Replica, r': Replica) {
    && r'.me == r.me && r'.view == r.view && r'.decisions == r.decisions
    && r'.log.declog == r.log.declog && r'.log.currSeq == r.log.currSeq
    && r'.cons.tbo.currSeq == r.cons.tbo.currSeq && r'.cons.currentDigest == r.cons.currentDigest
    && r'.cons.current == r.cons.current && r'.cons.batchSize == r.cons.batchSize
    && (r'.cons.phase == r.cons.phase
        || (r.cons.phase.Init? && r'.cons.phase.PrePreparing?)
        || (r.cons.phase.PreparingRequests? && r'.cons.phase == Preparing(1) && r'.cons.missing == []))
  }

  /** Events that touch neither the log nor the running instance. */
  lemma OthersAreQuiet(r: Replica, e: Event)
    requires Sane(r) && (e.Defer? || e.TryPropose? || e.ClientRequest?)
    ensures Step(r, e).Some? && Quiet(r, Step(r, e).value.replica)
  {
  }

  lemma QuietKeepsLog(r: Replica, r': Replica)
    requires LogInv(r) && Quiet(r, r')
    ensures LogInv(r')
  {
    QuietRuns(r.log.declog, r.log.currSeq, r.cons, r'.cons, r.view.seqNo, r.view.params.f);
  }

  lemma QuietRuns(dl: Declog, saved: SeqNo, c: Instance, c': Instance, v: SeqNo, f: nat)
    requires RunningInv(dl, saved, c, v, f)
    requires c'.tbo.currSeq == c.tbo.currSeq && c'.currentDigest == c.currentDigest && Active(c') == Active(c)
    requires PrepareVotes(c', f) == PrepareVotes(c, f) && CommitVotes(c') == CommitVotes(c)
    ensures RunningInv(dl, saved, c', v, f)
  {
  }

  /** The three ways a message is absorbed. */
  lemma AbsorbCases(r: Replica, m: Msg)
    requires Sane(r) && Classify(r.cons, m.message, r.view.seqNo) == Accepted && Fits(r.cons, m.message)
    ensures r.cons.phase.PrePreparing? || r.cons.phase.Preparing? || r.cons.phase.Committing?
    ensures r.cons.phase.PrePreparing? ==>
              var e := AcceptProposal(r.cons, m, r.view, r.me, r.log.pool);
              Absorb(r, m) == Some(Reaction(Signal(Logged(r, m).(cons := e.state)), e.sent))
    ensures r.cons.phase.Preparing? ==>
              var e := AcceptPrepare(r.cons, r.view);
              Absorb(r, m) == Some(Reaction(Signal(Logged(r, m).(cons := e.state)), e.sent))
    ensures r.cons.phase.Committing? ==>
              var r1 := Logged(r, m).(cons := AcceptCommit(r.cons, r.view).state);
              if r.cons.phase.votes + 1 != r.view.params.Quorum() then Absorb(r, m) == Some(Reaction(Signal(r1), None))
              else
                var r2 := Decide(r1, r.cons.current[..r.cons.batchSize]);
                Absorb(r, m) == if r2.None? then None else Some(Reaction(Signal(r2.value), None))
  {
  }

  lemma AbsorbVoteKeepsLog(r: Replica, m: Msg)
    requires LogInv(r) && Classify(r.cons, m.message, r.view.seqNo) == Accepted && Fits(r.cons, m.message)
    requires !r.cons.phase.Committing?
    ensures Absorb(r, m).Some? && LogInv(Absorb(r, m).value.replica)
  {
    AbsorbCases(r, m);
    if r.cons.phase.PrePreparing? {
      ProposalKeepsLog(r, m);
      var r1 := Logged(r, m).(cons := AcceptProposal(r.cons, m, r.view, r.me, r.log.pool).state);
      QuietKeepsLog(r1, Signal(r1));
    } else {
      PrepareKeepsLog(r, m);
      var r1 := Logged(r, m).(cons := AcceptPrepare(r.cons, r.view).state);
      QuietKeepsLog(r1, Signal(r1));
    }
  }

  lemma AbsorbCommitKeepsLog(r: Replica, m: Msg)
    requires LogInv(r) && Classify(r.cons, m.message, r.view.seqNo) == Accepted
    requires r.cons.phase.Committing?
    ensures Absorb(r, m).Some? ==> LogInv(Absorb(r, m).value.replica)
  {
    AbsorbCases(r, m);
    if r.cons.phase.votes < 2 * r.view.params.f {
      OneCommitKeepsLog(r, m);
    } else {
      LastCommitKeepsLog(r, m);
    }
  }

  lemma OneCommitKeepsLog(r: Replica, m: Msg)
    requires LogInv(r) && r.cons.phase.Committing? && r.cons.phase.votes < 2 * r.view.params.f
    requires Classify(r.cons, m.message, r.view.seqNo) == Accepted
    ensures LogInv(Signal(Logged(r, m).(cons := AcceptCommit(r.cons, r.view).state)))
  {
    var r1 := Logged(r, m).(cons := AcceptCommit(r.cons, r.view).state);
    CommitKeepsLog(r, m);
    QuietKeepsLog(r1, Signal(r1));
  }

  lemma LastCommitKeepsLog(r: Replica, m: Msg)
    requires LogInv(r) && r.cons.phase == Committing(2 * r.view.params.f)
    requires Classify(r.cons, m.message, r.view.seqNo) == Accepted
    ensures var r1 := Logged(r, m).(cons := AcceptCommit(r.cons, r.view).state);
            var r2 := Decide(r1, r.cons.current[..r.cons.batchSize]);
            r2.Some? ==> LogInv(Signal(r2.value))
  {
    var r1 := Logged(r, m).(cons := AcceptCommit(r.cons, r.view).state);
    assert ReadyToDecide(r1) by { LastCommitIsReady(r, m); }
    DecideKeepsLog(r1, r.cons.current[..r.cons.batchSize]);
    var r2 := Decide(r1, r.cons.current[..r.cons.batchSize]);
    if r2.Some? { QuietKeepsLog(r2.value, Signal(r2.value)); }
  }

  lemma ReceiveKeepsLog(r: Replica, m: Msg)
    requires LogInv(r)
    ensures Receive(r, m).Some? ==> LogInv(Receive(r, m).value.replica)
  {
    match Classify(r.cons, m.message, r.view.seqNo)
    case Accepted =>
      if Fits(r.cons, m.message) {
        if r.cons.phase.Committing? { AbsorbCommitKeepsLog(r, m); } else { AbsorbVoteKeepsLog(r, m); }
      }
    case _ => QuietKeepsLog(r, Receive(r, m).value.replica);
  }

  /** A poll changes the phase at most from waiting to running. */
  lemma PollIsQuiet(r: Replica)
    ensures Quiet(r, r.(cons := Poll(r.cons, r.log.pool).1))
  {
  }

  lemma PollKeepsLog(r: Replica)
    requires LogInv(r)
    ensures Step(r, PollQueue).Some? ==> LogInv(Step(r, PollQueue).value.replica)
  {
    var (status, c) := Poll(r.cons, r.log.pool);
    PollIsQuiet(r);
    QuietKeepsLog(r, r.(cons := c));
    if status.NextMessage? { ReceiveKeepsLog(r.(cons := c), status.message); }
  }

  /** Every step of a replica, whatever instance a view change is finished for, keeps its
      log ordered and in step with the phase, and its decisions numbered and proved. */
  lemma StepKeepsLog(r: Replica, e: Event)
    requires LogInv(r)
    ensures Step(r, e).Some? ==> LogInv(Step(r, e).value.replica)
  {
    match e
    case Deliver(m) => DeliverKeepsLog(r, m);
    case PollQueue => PollKeepsLog(r);
    case CheckpointDone => CheckpointKeepsLog(r);
    case ChangeView(v, cid, bound, proposed, nonce) => ViewChangeKeepsLog(r, v, cid, bound, proposed, nonce);
    case _ =>
      OthersAreQuiet(r, e);
      QuietKeepsLog(r, Step(r, e).value.replica);
  }

  lemma DeliverKeepsLog(r: Replica, m: Msg)
    requires LogInv(r)
    ensures Step(r, Deliver(m)).Some? ==> LogInv(Step(r, Deliver(m)).value.replica)
  {
    QuietKeepsLog(r, r.(received := r.received + {m}));
    ReceiveKeepsLog(r.(received := r.received + {m}), m);
  }

  lemma InitialLog(me: NodeId, view: ViewInfo, batchSize: nat)
    requires view.params.Standard() && view.seqNo >= 0
    ensures LogInv(Initial(me, view, batchSize))
  {
  }
}
