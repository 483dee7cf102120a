/** One replica's part in the normal phase: PRE-PREPARE, PREPARE, COMMIT
    (src/bft/consensus/mod.rs). */
module NormalPhase {
  import opened Wrappers
  import opened Ordering
  import opened Core
  import opened Messages
  import opened Logs

  // ---- the queue of messages to be ordered ------------------------------

  datatype Tbo = Tbo(
    currSeq: SeqNo, getQueue: bool,
    prePrepares: Buckets<Msg>, prepares: Buckets<Msg>, commits: Buckets<Msg>)

  function Enqueue(t: Tbo, m: Msg): Tbo {
    match m.message.kind
    case PrePrepare(_) => t.(prePrepares := QueueMessage(t.currSeq, t.prePrepares, Number(m), m))
    case Prepare(_) => t.(prepares := QueueMessage(t.currSeq, t.prepares, Number(m), m))
    case Commit(_) => t.(commits := QueueMessage(t.currSeq, t.commits, Number(m), m))
  }

  function NextInstanceQueue(t: Tbo): Tbo {
    t.(currSeq := Next(t.currSeq), prePrepares := AdvanceQueue(t.prePrepares),
       prepares := AdvanceQueue(t.prepares), commits := AdvanceQueue(t.commits))
  }

  /** `install_sequence_number` on the queues; `None` is the panic of a drain that
      runs past the end of a shorter queue. */
  function InstallNumber(t: Tbo, s: SeqNo): Option<Tbo> {
    var cleared := Tbo(s, true, [], [], []);
    match Index(s, t.currSeq)
    case At(k) =>
      if k == 0 then Some(t)
      else if k >= |t.prePrepares| then Some(cleared)
      else if k > |t.prepares| || k > |t.commits| then None
      else Some(Tbo(s, true, t.prePrepares[k..], t.prepares[k..], t.commits[k..]))
    case _ => Some(cleared)
  }

  /** Every queue is aligned with the current instance. */
  ghost predicate ValidTbo(t: Tbo) {
    && Aligned(t.prePrepares, t.currSeq, Number)
    && Aligned(t.prepares, t.currSeq, Number)
    && Aligned(t.commits, t.currSeq, Number)
  }

  class TboQueue {
    var currSeq: SeqNo
    var getQueue: bool
    var prePrepares: Buckets<Msg>
    var prepares: Buckets<Msg>
    var commits: Buckets<Msg>

    constructor (s: SeqNo)
      ensures Value() == Tbo(s, false, [], [], [])
    {
      currSeq, getQueue, prePrepares, prepares, commits := s, false, [], [], [];
    }

    function Value(): Tbo
      reads this
    {
      Tbo(currSeq, getQueue, prePrepares, prepares, commits)
    }

    method Queue(m: Msg)
      modifies this
      ensures Value() == Enqueue(old(Value()), m)
    {
      match m.message.kind
      case PrePrepare(_) => prePrepares := QueueMessage(currSeq, prePrepares, Number(m), m);
      case Prepare(_) => prepares := QueueMessage(currSeq, prepares, Number(m), m);
      case Commit(_) => commits := QueueMessage(currSeq, commits, Number(m), m);
    }

    method NextInstance()
      modifies this
      ensures Value() == NextInstanceQueue(old(Value()))
    {
      currSeq := Next(currSeq);
      prePrepares := AdvanceQueue(prePrepares);
      prepares := AdvanceQueue(prepares);
      commits := AdvanceQueue(commits);
    }

    /** False when the partial drain finds a vote queue too short, where the source panics. */
    method Install(s: SeqNo) returns (ok: bool)
      modifies this
      ensures ok == InstallNumber(old(Value()), s).Some?
      ensures Value() == if ok then InstallNumber(old(Value()), s).value else old(Value())
    {
      ok := true;
      match Index(s, currSeq) {
        case At(k) =>
          if k == 0 { return; }
          if k >= |prePrepares| {
            prePrepares, prepares, commits := [], [], [];
          } else if k > |prepares| || k > |commits| {
            return false;
          } else {
            prePrepares, prepares, commits := prePrepares[k..], prepares[k..], commits[k..];
          }
        case _ =>
          prePrepares, prepares, commits := [], [], [];
      }
      currSeq, getQueue := s, true;
    }
  }

  /** Filing a message appends it to the FIFO of its number and touches no other. */
  lemma EnqueueKeepsValid(t: Tbo, m: Msg)
    requires ValidTbo(t)
    ensures ValidTbo(Enqueue(t, m))
  {
    QueueAppendsToFifo(t.currSeq, t.prePrepares, m, Number, 0);
    QueueAppendsToFifo(t.currSeq, t.prepares, m, Number, 0);
    QueueAppendsToFifo(t.currSeq, t.commits, m, Number, 0);
  }

  /** The next instance keeps the FIFO of every number except the one it leaves. */
  lemma NextInstanceRefines(t: Tbo, s: SeqNo)
    requires ValidTbo(t)
    ensures ValidTbo(NextInstanceQueue(t))
    ensures Index(s, t.currSeq) != At(0) ==> SameFifos(t, NextInstanceQueue(t), s)
  {
    AdvanceKeepsLaterFifos(t.prePrepares, t.currSeq, Number, s);
    AdvanceKeepsLaterFifos(t.prepares, t.currSeq, Number, s);
    AdvanceKeepsLaterFifos(t.commits, t.currSeq, Number, s);
  }

  /** The messages of instance `s` are the same in both, in the same order. */
  ghost predicate SameFifos(t: Tbo, t': Tbo, s: SeqNo) {
    && Fifo(t'.prePrepares, t'.currSeq, s) == Fifo(t.prePrepares, t.currSeq, s)
    && Fifo(t'.prepares, t'.currSeq, s) == Fifo(t.prepares, t.currSeq, s)
    && Fifo(t'.commits, t'.currSeq, s) == Fifo(t.commits, t.currSeq, s)
  }

  // ---- jumping to a number ------------------------------------------------

  /** The PRE-PREPARE queue reaches past the target, so the jump does not clear the queues. */
  predicate Drains(t: Tbo, to: SeqNo) {
    var p := Index(to, t.currSeq);
    p.At? && (p.bucket == 0 || p.bucket < |t.prePrepares|)
  }

  /** Jumping to a later number panics exactly when the PRE-PREPARE queue reaches
      past the target but a vote queue does not. Otherwise alignment holds, and a
      jump that drains keeps the FIFO of every number still in the window. */
  lemma InstallNumberRefines(t: Tbo, to: SeqNo, s: SeqNo)
    requires ValidTbo(t)
    ensures InstallNumber(t, to).None? <==>
            && Index(to, t.currSeq).At?
            && 0 < Index(to, t.currSeq).bucket < |t.prePrepares|
            && (Index(to, t.currSeq).bucket > |t.prepares| || Index(to, t.currSeq).bucket > |t.commits|)
    ensures InstallNumber(t, to).Some? ==> ValidTbo(InstallNumber(t, to).value)
    ensures InstallNumber(t, to).Some? && Drains(t, to) && Index(s, to).At? ==>
              SameFifos(t, InstallNumber(t, to).value, s)
  {
    var p := Index(to, t.currSeq);
    if InstallNumber(t, to).Some? && p.At? && p.bucket < |t.prePrepares| {
      if p.bucket == 0 {
        SameResidue(s, t.currSeq, to);
      } else {
        JumpKeepsAlignment(t.prePrepares, t.currSeq, to, p.bucket, Number);
        JumpKeepsAlignment(t.prepares, t.currSeq, to, p.bucket, Number);
        JumpKeepsAlignment(t.commits, t.currSeq, to, p.bucket, Number);
        JumpKeepsLaterFifos(t.prePrepares, t.currSeq, to, p.bucket, s);
        JumpKeepsLaterFifos(t.prepares, t.currSeq, to, p.bucket, s);
        JumpKeepsLaterFifos(t.commits, t.currSeq, to, p.bucket, s);
      }
    }
  }

  /** No queued message is numbered `to` or within the window after it. */
  ghost predicate NothingAhead(q: Buckets<Msg>, to: SeqNo) {
    forall i, j :: 0 <= i < |q| && 0 <= j < |q[i]| ==> !Index(Number(q[i][j]), to).At?
  }

  ghost predicate KeepsAhead(t: Tbo, t': Tbo, to: SeqNo) {
    forall s: SeqNo :: Index(s, to).At? ==> SameFifos(t, t', s)
  }

  /** A jump keeps the messages of the instances ahead exactly when it drains, or when
      there are none: otherwise it clears all three queues. */
  lemma JumpKeepsExactly(t: Tbo, to: SeqNo)
    requires ValidTbo(t) && InstallNumber(t, to).Some?
    ensures KeepsAhead(t, InstallNumber(t, to).value, to) <==>
            || Drains(t, to)
            || (NothingAhead(t.prePrepares, to) && NothingAhead(t.prepares, to) && NothingAhead(t.commits, to))
  {
    var t' := InstallNumber(t, to).value;
    if Drains(t, to) {
      forall s: SeqNo | Index(s, to).At? ensures SameFifos(t, t', s) { InstallNumberRefines(t, to, s); }
    } else {
      EmptyAhead(t.prePrepares, t.currSeq, to);
      EmptyAhead(t.prepares, t.currSeq, to);
      EmptyAhead(t.commits, t.currSeq, to);
    }
  }

  /** Nothing is queued ahead of `to` exactly when the FIFOs of those numbers are empty. */
  lemma EmptyAhead(q: Buckets<Msg>, curr: SeqNo, to: SeqNo)
    requires Aligned(q, curr, Number)
    ensures NothingAhead(q, to) <==> forall s: SeqNo :: Index(s, to).At? ==> Fifo(q, curr, s) == []
  {
    if NothingAhead(q, to) {
      forall s: SeqNo | Index(s, to).At? ensures Fifo(q, curr, s) == [] {
        if Fifo(q, curr, s) != [] {
          var i := Index(s, curr).bucket;
          SamePlace(s, Number(q[i][0]), curr, to, i);
          assert false;
        }
      }
    } else {
      var i, j :| 0 <= i < |q| && 0 <= j < |q[i]| && Index(Number(q[i][j]), to).At?;
      assert q[i][j] in Fifo(q, curr, Number(q[i][j]));
    }
  }

  /** Numbers filed in one bucket are at one distance from every number. */
  lemma SamePlace(a: SeqNo, b: SeqNo, curr: SeqNo, to: SeqNo, i: nat)
    requires Index(a, curr) == At(i) && Index(b, curr) == At(i) && Index(a, to).At?
    ensures Index(b, to) == Index(a, to)
  {
    var k := Index(a, to).bucket;
    IndexIsOffset(a, curr, i);
    IndexIsOffset(b, curr, i);
    IndexIsOffset(a, to, k);
    IndexIsOffset(b, to, k);
  }

  /** A vote two instances ahead is lost by a jump of one, when no PRE-PREPARE is queued. */
  lemma JumpLosesVotes() returns (t: Tbo, m: Msg)
    ensures t == Enqueue(Tbo(0, false, [], [], []), m) && InstallNumber(t, 1).Some?
    ensures Fifo(t.commits, t.currSeq, 2) == [m]
    ensures Fifo(InstallNumber(t, 1).value.commits, 1, 2) == [] && Index(2, 1) == At(1)
  {
    m := Stored(Header(0, Zero, 0), ConsensusMessage(2, 0, Commit(Zero)));
    t := Enqueue(Tbo(0, false, [], [], []), m);
  }

  /** A PRE-PREPARE two instances ahead makes a jump of one panic, when no vote is queued. */
  lemma JumpPanics() returns (t: Tbo, m: Msg)
    ensures t == Enqueue(Tbo(0, false, [], [], []), m) && InstallNumber(t, 1).None?
  {
    m := Stored(Header(0, Zero, 0), ConsensusMessage(2, 0, PrePrepare([])));
    t := Enqueue(Tbo(0, false, [], [], []), m);
  }

  lemma SameResidue(s: SeqNo, a: SeqNo, b: SeqNo)
    requires Index(b, a) == At(0)
    ensures Index(s, a).At? ==> Index(s, b) == Index(s, a)
  {
    if Index(s, a).At? { IndexShift(s, a, b, 0, Index(s, a).bucket); }
  }

  // ---- the protocol phase ------------------------------------------------

  datatype Phase =
    | Init
    | PrePreparing
    | PreparingRequests
    | Preparing(votes: nat)
    | Committing(votes: nat)

  datatype Instance = Instance(
    batchSize: nat, phase: Phase, tbo: Tbo,
    current: seq<Digest>, currentDigest: Digest, missing: seq<Digest>)

  datatype Verdict = Queued | Dropped | Accepted

  /** What a phase does with a message. */
  function Classify(c: Instance, m: ConsensusMessage, view: SeqNo): Verdict {
    match (c.phase, m.kind)
    case (PrePreparing, PrePrepare(_)) =>
      if m.view != view then Dropped else if m.seqNo != c.tbo.currSeq then Queued else Accepted
    case (Preparing(_), Prepare(d)) =>
      if m.view != view || d != c.currentDigest then Dropped
      else if m.seqNo != c.tbo.currSeq then Queued else Accepted
    case (Committing(_), Commit(d)) =>
      if m.view != view || d != c.currentDigest then Dropped
      else if m.seqNo != c.tbo.currSeq then Queued else Accepted
    case _ => Queued
  }

  /** The digests of `ds` that are not in the pool. */
  function Absent(ds: seq<Digest>, pool: Pool): (r: seq<Digest>)
    ensures forall d :: d in r <==> d in ds && !HasRequest(pool, d)
  {
    if ds == [] then []
    else Absent(ds[..|ds| - 1], pool) +
         if HasRequest(pool, ds[|ds| - 1]) then [] else [ds[|ds| - 1]]
  }

  lemma AbsentGrows(ds: seq<Digest>, i: nat, pool: Pool)
    requires i < |ds|
    ensures Absent(ds[..i + 1], pool) == Absent(ds[..i], pool) + if HasRequest(pool, ds[i]) then [] else [ds[i]]
  {
    assert ds[..i + 1][..i] == ds[..i];
  }

  datatype Effect = Effect(
    state: Instance, verdict: Verdict, sent: Option<ConsensusMessage>, decided: Option<seq<Digest>>)

  /** A proposal longer than the buffer makes the slice copy panic. */
  predicate Fits(c: Instance, m: ConsensusMessage) {
    m.kind.PrePrepare? ==> |m.kind.requests| <= |c.current|
  }

  function AcceptProposal(c: Instance, m: Msg, view: ViewInfo, me: NodeId, pool: Pool): Effect
    requires m.message.kind.PrePrepare? && Fits(c, m.message) && view.params.n > 0
  {
    var requests := m.message.kind.requests;
    var current := requests + c.current[|requests|..];
    var missing := c.missing + Absent(current, pool);
    var vote := ConsensusMessage(c.tbo.currSeq, view.seqNo, Prepare(m.header.digest));
    Effect(
      c.(batchSize := |requests|, currentDigest := m.header.digest, current := current, missing := missing,
         phase := if missing == [] then Preparing(1) else PreparingRequests),
      Accepted, if me != view.Leader() then Some(vote) else None, None)
  }

  function AcceptPrepare(c: Instance, view: ViewInfo): Effect
    requires c.phase.Preparing?
  {
    var i := c.phase.votes + 1;
    if i == view.params.Quorum() then
      var vote := ConsensusMessage(c.tbo.currSeq, view.seqNo, Commit(c.currentDigest));
      Effect(c.(phase := Committing(0)), Accepted, Some(vote), None)
    else Effect(c.(phase := Preparing(i)), Accepted, None, None)
  }

  function AcceptCommit(c: Instance, view: ViewInfo): Effect
    requires c.phase.Committing? && c.batchSize <= |c.current|
  {
    var i := c.phase.votes + 1;
    if i == view.params.Quorum() then
      Effect(c.(phase := Init), Accepted, None, Some(c.current[..c.batchSize]))
    else Effect(c.(phase := Committing(i)), Accepted, None, None)
  }

  /** `process_message`. */
  function Process(c: Instance, m: Msg, view: ViewInfo, me: NodeId, pool: Pool): Effect
    requires view.params.n > 0 && c.batchSize <= |c.current|
    requires Classify(c, m.message, view.seqNo) == Accepted ==> Fits(c, m.message)
  {
    match Classify(c, m.message, view.seqNo)
    case Queued => Effect(c.(tbo := Enqueue(c.tbo, m)), Queued, None, None)
    case Dropped => Effect(c, Dropped, None, None)
    case Accepted =>
      if c.phase.PrePreparing? then AcceptProposal(c, m, view, me, pool)
      else if c.phase.Preparing? then AcceptPrepare(c, view)
      else AcceptCommit(c, view)
  }

  /** `finalize_view_change`: enter the PREPARE phase with a value settled by the view change. */
  function EnterNewView(c: Instance, digest: Digest, requests: seq<Digest>): Instance
    requires |requests| <= |c.current|
  {
    c.(phase := Preparing(1), currentDigest := digest, batchSize := |requests|,
       current := requests + c.current[|requests|..])
  }

  // ---- waiting for the requests of a proposal -----------------------------

  function SwapRemoveBack<T>(list: seq<T>, i: nat): seq<T> {
    if i >= |list| then list else DecisionLogs.SwapRemove(list, i)
  }

  /** The positions in ds[..n] whose request is in the pool, ascending. */
  function Present(ds: seq<Digest>, n: nat, pool: Pool): (r: seq<nat>)
    requires n <= |ds|
    ensures |r| <= n
    ensures forall i :: 0 <= i < |r| ==> r[i] < n && HasRequest(pool, ds[r[i]])
    ensures forall i, j :: 0 <= i < j < |r| ==> r[i] < r[j]
  {
    if n == 0 then []
    else Present(ds, n - 1, pool) + if HasRequest(pool, ds[n - 1]) then [n - 1] else []
  }

  /** Swap-removing positions in ascending order, each one on the shortened list. */
  function RemoveInOrder<T>(list: seq<T>, at: seq<nat>): seq<T> {
    if at == [] then list
    else SwapRemoveBack(RemoveInOrder(list, at[..|at| - 1]), at[|at| - 1])
  }

  function Prune(missing: seq<Digest>, pool: Pool): seq<Digest> {
    RemoveInOrder(missing, Present(missing, |missing|, pool))
  }

  datatype PollStatus = Recv | TryProposeAndRecv | NextMessage(message: Msg)

  /** `poll`: may change the phase and take a message out of a queue. */
  function Poll(c: Instance, pool: Pool): (PollStatus, Instance) {
    var t := c.tbo;
    var none := t.(getQueue := false);
    var c1 := c.(missing := Prune(c.missing, pool));
    if c.phase.PreparingRequests? && c1.missing != [] then (Recv, c1)
    else if !c.phase.PreparingRequests? && !t.getQueue then
      (if c.phase.Init? then TryProposeAndRecv else Recv, c)
    else if c.phase.Init? || c.phase.PrePreparing? then
      (match PopMessage(t.prePrepares)
       case (Some(m), q) => (NextMessage(m), c.(phase := PrePreparing, tbo := t.(prePrepares := q)))
       case (None, _) => (if c.phase.Init? then TryProposeAndRecv else Recv, c.(tbo := none)))
    else if c.phase.PreparingRequests? then
      (match PopMessage(t.prepares)
       case (Some(m), q) => (NextMessage(m), c1.(phase := Preparing(1), tbo := t.(prepares := q)))
       case (None, _) => (Recv, c1.(tbo := none)))
    else if c.phase.Preparing? then
      (match PopMessage(t.prepares)
       case (Some(m), q) => (NextMessage(m), c.(tbo := t.(prepares := q)))
       case (None, _) => (Recv, c.(tbo := none)))
    else
      (match PopMessage(t.commits)
       case (Some(m), q) => (NextMessage(m), c.(tbo := t.(commits := q)))
       case (None, _) => (Recv, c.(tbo := none)))
  }

  // ---- the instance as an object ------------------------------------------

  class Consensus {
    var batchSize: nat
    var phase: Phase
    const tbo: TboQueue
    var current: seq<Digest>
    var currentDigest: Digest
    var missing: seq<Digest>

    constructor (s: SeqNo, batchSize: nat)
      ensures Value() == Instance(0, Init, Tbo(s, false, [], [], []), seq(batchSize, _ => Zero), Zero, [])
      ensures fresh(tbo)
    {
      this.batchSize, phase, currentDigest, missing := 0, Init, Zero, [];
      current := seq(batchSize, _ => Zero);
      tbo := new TboQueue(s);
    }

    function Value(): Instance
      reads this, tbo
    {
      Instance(batchSize, phase, tbo.Value(), current, currentDigest, missing)
    }

    /** `propose`; the result is the PRE-PREPARE to broadcast, if any. */
    method Propose(digests: seq<Digest>, view: ViewInfo, me: NodeId) returns (sent: Option<ConsensusMessage>)
      requires view.params.n > 0
      modifies this
      ensures Value() == old(Value()).(phase := if old(phase).Init? then PrePreparing else old(phase))
      ensures sent == if old(phase).Init? && me == view.Leader()
                      then Some(ConsensusMessage(tbo.currSeq, view.seqNo, PrePrepare(digests))) else None
    {
      if !phase.Init? { return None; }
      phase := PrePreparing;
      if me != view.Leader() { return None; }
      sent := Some(ConsensusMessage(tbo.currSeq, view.seqNo, PrePrepare(digests)));
    }

    /** `process_message`, phase by phase. */
    method ProcessMessage<S>(m: Msg, view: ViewInfo, me: NodeId, log: Log<S>)
      returns (sent: Option<ConsensusMessage>, decided: Option<seq<Digest>>)
      requires view.params.n > 0 && batchSize <= |current|
      requires Classify(Value(), m.message, view.seqNo) == Accepted ==> Fits(Value(), m.message)
      modifies this, tbo, log.declog
      ensures var e := Process(old(Value()), m, view, me, old(log.Value()).pool);
              && Value() == e.state && sent == e.sent && decided == e.decided
              && log.declog.Value() == if e.verdict == Accepted
                                       then DecisionLogs.Insert(old(log.declog.Value()), m)
                                       else old(log.declog.Value())
    {
      sent, decided := None, None;
      var msg := m.message;
      match phase {
        case Init =>
          tbo.Queue(m);
        case PrePreparing =>
          if !msg.kind.PrePrepare? { tbo.Queue(m); return; }
          if msg.view != view.seqNo { return; }
          if msg.seqNo != tbo.currSeq { tbo.Queue(m); return; }
          sent := EnterProposal(m, view, me, log);
        case PreparingRequests =>
          tbo.Queue(m);
        case Preparing(votes) =>
          if !msg.kind.Prepare? { tbo.Queue(m); return; }
          if msg.view != view.seqNo || msg.kind.digest != currentDigest { return; }
          if msg.seqNo != tbo.currSeq { tbo.Queue(m); return; }
          log.declog.Push(m);
          var i := votes + 1;
          if i == view.params.Quorum() {
            sent := Some(ConsensusMessage(tbo.currSeq, view.seqNo, Commit(currentDigest)));
            phase := Committing(0);
          } else {
            phase := Preparing(i);
          }
        case Committing(votes) =>
          if !msg.kind.Commit? { tbo.Queue(m); return; }
          if msg.view != view.seqNo || msg.kind.digest != currentDigest { return; }
          if msg.seqNo != tbo.currSeq { tbo.Queue(m); return; }
          log.declog.Push(m);
          var i := votes + 1;
          if i == view.params.Quorum() {
            phase := Init;
            decided := Some(current[..batchSize]);
          } else {
            phase := Committing(i);
          }
      }
    }

    /** The accepting branch of the PRE-PREPARE phase, with its scan for missing requests. */
    method EnterProposal<S>(m: Msg, view: ViewInfo, me: NodeId, log: Log<S>)
      returns (sent: Option<ConsensusMessage>)
      requires view.params.n > 0 && m.message.kind.PrePrepare? && Fits(Value(), m.message)
      modifies this, log.declog
      ensures var e := AcceptProposal(old(Value()), m, view, me, old(log.Value()).pool);
              Value() == e.state && sent == e.sent
      ensures log.declog.Value() == DecisionLogs.Insert(old(log.declog.Value()), m)
    {
      var requests := m.message.kind.requests;
      batchSize := |requests|;
      currentDigest := m.header.digest;
      current := requests + current[|requests|..];
      sent := None;
      if me != view.Leader() {
        sent := Some(ConsensusMessage(tbo.currSeq, view.seqNo, Prepare(currentDigest)));
      }
      log.declog.Push(m);
      var found := ScanMissing(current, Pool(log.requests, log.deciding));
      missing := missing + found;
      phase := if missing == [] then Preparing(1) else PreparingRequests;
    }

    static method ScanMissing(ds: seq<Digest>, pool: Pool) returns (r: seq<Digest>)
      ensures r == Absent(ds, pool)
    {
      r := [];
      var i := 0;
      while i < |ds|
        invariant 0 <= i <= |ds| && r == Absent(ds[..i], pool)
      {
        AbsentGrows(ds, i, pool);
        if !HasRequest(pool, ds[i]) { r := r + [ds[i]]; }
        i := i + 1;
      }
      assert ds[..i] == ds;
    }

    /** `finalize_view_change`, reading the digests of the last PRE-PREPARE in the log. */
    method FinalizeViewChange<S>(digest: Digest, view: ViewInfo, me: NodeId, log: Log<S>)
      returns (sent: Option<ConsensusMessage>)
      requires view.params.n > 0 && |log.declog.prePrepares| > 0
      requires var last := log.declog.prePrepares[|log.declog.prePrepares| - 1].message;
               last.kind.PrePrepare? && Fits(Value(), last)
      modifies this
      ensures var last := log.declog.prePrepares[|log.declog.prePrepares| - 1].message;
              Value() == EnterNewView(old(Value()), digest, last.kind.requests)
      ensures sent == if me != view.Leader()
                      then Some(ConsensusMessage(tbo.currSeq, view.seqNo, Prepare(digest))) else None
    {
      phase := Preparing(1);
      currentDigest := digest;
      var digests := log.declog.prePrepares[|log.declog.prePrepares| - 1].message.kind.requests;
      batchSize := |digests|;
      current := digests + current[|digests|..];
      sent := None;
      if me != view.Leader() {
        sent := Some(ConsensusMessage(tbo.currSeq, view.seqNo, Prepare(currentDigest)));
      }
    }

    /** `install_sequence_number`: a jump of any length also resets the phase. */
    method InstallSequenceNumber(s: SeqNo) returns (ok: bool)
      modifies this, tbo
      ensures ok == InstallNumber(old(tbo.Value()), s).Some?
      ensures ok ==> Value() == old(Value()).(
                tbo := InstallNumber(old(tbo.Value()), s).value,
                phase := if Index(s, old(tbo.currSeq)) == At(0) then old(phase) else Init)
    {
      var stays := Index(s, tbo.currSeq) == At(0);
      ok := tbo.Install(s);
      if ok && !stays { phase := Init; }
    }

    /** `install_new_phase`: go on with the last proposal in the donor's log. */
    method InstallNewPhase(donor: DecisionLogs.Declog) returns (ok: bool)
      modifies this, tbo
      ensures var s := LastNumber(donor.prePrepares, old(tbo.currSeq));
              && ok == InstallNumber(old(tbo.Value()), s).Some?
              && (ok ==> Value() == old(Value()).(
                    tbo := InstallNumber(old(tbo.Value()), s).value.(getQueue := true),
                    phase := if Index(s, old(tbo.currSeq)) == At(0) then old(phase) else Init))
    {
      var s := tbo.currSeq;
      if donor.prePrepares != [] { s := Number(donor.prePrepares[|donor.prePrepares| - 1]); }
      ok := InstallSequenceNumber(s);
      if ok { tbo.getQueue := true; }
    }

    /** The two loops of a `PreparingRequests` poll: list the present digests, then
        swap-remove at those positions in ascending order. */
    static method PruneMissing(ds: seq<Digest>, pool: Pool) returns (r: seq<Digest>)
      ensures r == Prune(ds, pool)
    {
      var at := ListPresent(ds, pool);
      r := ds;
      var j := 0;
      while j < |at|
        invariant 0 <= j <= |at| && r == RemoveInOrder(ds, at[..j])
      {
        assert at[..j + 1][..j] == at[..j];
        r := SwapRemoveBack(r, at[j]);
        j := j + 1;
      }
      assert at[..j] == at;
    }

    static method ListPresent(ds: seq<Digest>, pool: Pool) returns (at: seq<nat>)
      ensures at == Present(ds, |ds|, pool)
    {
      at := [];
      var i := 0;
      while i < |ds|
        invariant 0 <= i <= |ds| && at == Present(ds, i, pool)
      {
        if HasRequest(pool, ds[i]) { at := at + [i]; }
        i := i + 1;
      }
    }

    method PollQueue<S>(log: Log<S>) returns (status: PollStatus)
      modifies this, tbo
      ensures (status, Value()) == Poll(old(Value()), log.Value().pool)
      ensures log.Value() == old(log.Value())
    {
      var popped: Option<Msg>;
      match phase {
        case Init =>
          if !tbo.getQueue { return TryProposeAndRecv; }
          popped, tbo.prePrepares := PopMessage(tbo.prePrepares).0, PopMessage(tbo.prePrepares).1;
          if popped.Some? { phase := PrePreparing; }
        case PrePreparing =>
          if !tbo.getQueue { return Recv; }
          popped, tbo.prePrepares := PopMessage(tbo.prePrepares).0, PopMessage(tbo.prePrepares).1;
        case PreparingRequests =>
          missing := PruneMissing(missing, Pool(log.requests, log.deciding));
          if missing != [] { return Recv; }
          popped, tbo.prepares := PopMessage(tbo.prepares).0, PopMessage(tbo.prepares).1;
          if popped.Some? { phase := Preparing(1); }
        case Preparing(_) =>
          if !tbo.getQueue { return Recv; }
          popped, tbo.prepares := PopMessage(tbo.prepares).0, PopMessage(tbo.prepares).1;
        case Committing(_) =>
          if !tbo.getQueue { return Recv; }
          popped, tbo.commits := PopMessage(tbo.commits).0, PopMessage(tbo.commits).1;
      }
      if popped.Some? { return NextMessage(popped.value); }
      tbo.getQueue := false;
      status := if phase.Init? then TryProposeAndRecv else Recv;
    }
  }

  // ---- a poll for missing requests makes progress ---------------------------

  lemma SwapRemoveTakesOne<T>(list: seq<T>, i: nat)
    requires i < |list|
    ensures multiset(list) == multiset(SwapRemoveBack(list, i)) + multiset{list[i]}
  {
    var n := |list|;
    assert list == list[..i] + [list[i]] + list[i + 1..];
    if i + 1 < n {
      assert list[i + 1..] == list[i + 1..n - 1] + [list[n - 1]];
      assert SwapRemoveBack(list, i) == list[..i] + [list[n - 1]] + list[i + 1..n - 1];
    } else {
      assert SwapRemoveBack(list, i) == list[..i];
    }
  }

  /** Ascending positions of elements that satisfy the pool test. */
  ghost predicate Targets(list: seq<Digest>, at: seq<nat>, pool: Pool) {
    && (forall i :: 0 <= i < |at| ==> at[i] < |list| && HasRequest(pool, list[at[i]]))
    && (forall i, j :: 0 <= i < j < |at| ==> at[i] < at[j])
  }

  /** Positions past the last removal still hold their original element, so only
      elements found present are ever removed. */
  lemma {:induction false} RemoveInOrderExact(list: seq<Digest>, at: seq<nat>, pool: Pool, d: Digest)
    requires Targets(list, at, pool)
    ensures var r := RemoveInOrder(list, at);
            && |list| - |at| <= |r| <= |list|
            && (forall x :: (at == [] || at[|at| - 1] < x) && 0 <= x < |r| ==> r[x] == list[x])
            && multiset(r)[d] <= multiset(list)[d]
            && (!HasRequest(pool, d) ==> multiset(r)[d] == multiset(list)[d])
  {
    if at != [] {
      var a0, i := at[..|at| - 1], at[|at| - 1];
      assert forall j :: 0 <= j < |a0| ==> a0[j] == at[j];
      RemoveInOrderExact(list, a0, pool, d);
      var r0 := RemoveInOrder(list, a0);
      if i < |r0| {
        assert r0[i] == list[i];
        SwapRemoveTakesOne(r0, i);
      }
    }
  }

  /** While fewer than half of the positions are used up, every removal succeeds. */
  lemma {:induction false} FirstHalfSucceeds(list: seq<Digest>, at: seq<nat>, total: nat)
    requires |at| <= total && 2 * |at| <= total + 1
    requires forall i :: 0 <= i < |at| ==> at[i] + total <= |list| + i
    ensures |list| >= |at| && |RemoveInOrder(list, at)| == |list| - |at|
  {
    if at != [] {
      var a0 := at[..|at| - 1];
      assert forall j :: 0 <= j < |a0| ==> a0[j] == at[j];
      FirstHalfSucceeds(list, a0, total);
      assert at[|at| - 1] + total <= |list| + |at| - 1;
    }
  }

  lemma {:induction false} RemovalsOnlyShrink(list: seq<Digest>, at: seq<nat>, n: nat)
    requires n <= |at|
    ensures |RemoveInOrder(list, at)| <= |RemoveInOrder(list, at[..n])|
  {
    if n < |at| {
      assert at[..|at| - 1][..n] == at[..n];
      RemovalsOnlyShrink(list, at[..|at| - 1], n);
    } else {
      assert at[..n] == at;
    }
  }

  lemma {:induction false} AscendingBound(list: seq<Digest>, at: seq<nat>, pool: Pool, i: nat)
    requires Targets(list, at, pool) && i < |at|
    ensures at[i] + |at| <= |list| + i
    decreases |at| - i
  {
    if i + 1 < |at| { AscendingBound(list, at, pool, i + 1); }
  }

  /** One poll never removes a digest absent from the log, and removes at least
      half, rounded up, of those present. */
  lemma PruneProgress(missing: seq<Digest>, pool: Pool, d: Digest)
    ensures var present := |Present(missing, |missing|, pool)|;
            |Prune(missing, pool)| + (present + 1) / 2 <= |missing|
    ensures multiset(Prune(missing, pool))[d] <= multiset(missing)[d]
    ensures !HasRequest(pool, d) ==> multiset(Prune(missing, pool))[d] == multiset(missing)[d]
  {
    var at := Present(missing, |missing|, pool);
    RemoveInOrderExact(missing, at, pool, d);
    var half := (|at| + 1) / 2;
    forall i | 0 <= i < half ensures at[..half][i] + |at| <= |missing| + i {
      AscendingBound(missing, at, pool, i);
    }
    FirstHalfSucceeds(missing, at[..half], |at|);
    RemovalsOnlyShrink(missing, at, half);
  }

  lemma {:induction false} AllPresent(ds: seq<Digest>, n: nat, pool: Pool)
    requires n <= |ds| && forall d :: d in ds ==> HasRequest(pool, d)
    ensures |Present(ds, n, pool)| == n
  {
    if n > 0 { AllPresent(ds, n - 1, pool); }
  }

  function PruneTimes(missing: seq<Digest>, pool: Pool, k: nat): seq<Digest>
    decreases k
  {
    if k == 0 then missing else PruneTimes(Prune(missing, pool), pool, k - 1)
  }

  function Pow2(k: nat): nat {
    if k == 0 then 1 else 2 * Pow2(k - 1)
  }

  /** Once every missing request has arrived, fewer than 2^k of them are gone after `k` polls. */
  lemma {:induction false} PollsTerminate(missing: seq<Digest>, pool: Pool, k: nat)
    requires |missing| < Pow2(k)
    requires forall d :: d in missing ==> HasRequest(pool, d)
    ensures PruneTimes(missing, pool, k) == []
    decreases k
  {
    if k > 0 {
      AllPresent(missing, |missing|, pool);
      PruneProgress(missing, pool, Zero);
      forall d | d in Prune(missing, pool) ensures HasRequest(pool, d) {
        PruneProgress(missing, pool, d);
        assert d in multiset(missing);
      }
      PollsTerminate(Prune(missing, pool), pool, k - 1);
    }
  }
}
