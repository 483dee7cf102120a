/** A whole replica in the normal phase: consensus, message log and request pool,
    driven by the events of its main loop (src/bft/core/server/mod.rs). */
module Replicas {
  import opened Wrappers
  import opened Ordering
  import opened Core
  import opened Messages
  import opened DecisionLogs
  import opened Logs
  import opened NormalPhase

  /** A batch handed to the executor. */
  datatype Decision = Decision(
    seqNo: SeqNo, view: SeqNo, digest: Digest, requests: seq<Digest>, result: Finalized)

  /** The last four fields are history: what the network handed over, the votes
      accepted, whether the running proposal passed the check for missing
      requests, and the decisions so far. No step reads them. The application
      state carried by a checkpoint plays no part in ordering. */
  datatype Replica = Replica(
    me: NodeId, view: ViewInfo, cons: Instance, log: LogValue<()>,
    received: set<Msg>, accepted: seq<Msg>, checked: bool, decisions: seq<Decision>)

  function Initial(me: NodeId, view: ViewInfo, batchSize: nat): Replica {
    Replica(me, view, Instance(0, Init, Tbo(0, false, [], [], []), seq(batchSize, _ => Zero), Zero, []),
            EmptyLog(batchSize), {}, [], false, [])
  }

  /** `Defer` is the queueing of a consensus message while another phase runs. A view
      change is finished for the instance `cid` of its collects. Followers check that it
      is their own one, the leader does not. */
  datatype Event =
    | Deliver(message: Msg)
    | PollQueue
    | Defer(message: Msg)
    | TryPropose(batch: Option<seq<Digest>>)
    | ClientRequest(request: Request)
    | CheckpointDone
    | ChangeView(view: SeqNo, cid: SeqNo, bound: Option<Digest>, proposed: seq<Digest>, nonce: nat)

  /** The state after an event, and the message it broadcasts. */
  datatype Reaction = Reaction(replica: Replica, sent: Option<ConsensusMessage>)

  predicate Sane(r: Replica) {
    r.view.params.n > 0 && r.cons.batchSize <= |r.cons.current|
  }

  function Signal(r: Replica): Replica {
    r.(cons := r.cons.(tbo := r.cons.tbo.(getQueue := true)))
  }

  function Logged(r: Replica, m: Msg): Replica {
    r.(log := r.log.(declog := Insert(r.log.declog, m)),
       accepted := if m.message.kind.PrePrepare? then r.accepted else r.accepted + [m],
       checked := m.message.kind.PrePrepare? || r.checked)
  }

  /** The decided path of the main loop. Instance numbers stay below 2^31 - 1. */
  function Decide(r: Replica, ds: seq<Digest>): Option<Replica> {
    var s := r.cons.tbo.currSeq;
    match FinalizeBatch(r.log, s, ds)
    case (None, _) => None
    case (Some(result), log) =>
      if s == I32_MAX then None
      else Some(r.(
        log := log, cons := r.cons.(tbo := NextInstanceQueue(r.cons.tbo)),
        decisions := r.decisions + [Decision(s, r.view.seqNo, r.cons.currentDigest, ds, result)]))
  }

  /** A consensus message reaches the protocol. `None`: the replica stops, by a
      panic on an oversized proposal or by an error of the log. */
  function Receive(r: Replica, m: Msg): Option<Reaction>
    requires Sane(r)
  {
    match Classify(r.cons, m.message, r.view.seqNo)
    case Queued => Some(Reaction(Signal(r.(cons := r.cons.(tbo := Enqueue(r.cons.tbo, m)))), None))
    case Dropped => Some(Reaction(Signal(r), None))
    case Accepted => if Fits(r.cons, m.message) then Absorb(r, m) else None
  }

  function Absorb(r: Replica, m: Msg): Option<Reaction>
    requires Sane(r) && Classify(r.cons, m.message, r.view.seqNo) == Accepted && Fits(r.cons, m.message)
  {
    var e := Process(r.cons, m, r.view, r.me, r.log.pool);
    var r1 := Logged(r, m).(cons := e.state);
    if e.decided.None? then Some(Reaction(Signal(r1), e.sent))
    else
      match Decide(r1, e.decided.value)
      case None => None
      case Some(r2) => Some(Reaction(Signal(r2), e.sent))
  }

  /** The proposal a view change settles on: the bound value's, or the leader's. */
  function Settled(log: Declog, s: SeqNo, bound: Option<Digest>, proposed: seq<Digest>): seq<Digest> {
    match ProposalFor(log.prePrepares, s, bound)
    case Some(m) => if m.message.kind.PrePrepare? then m.message.kind.requests else proposed
    case None => proposed
  }

  /** `finalize` of the synchronizer. It clears and settles instance `cid`, and proposes
      the result for the replica's own instance. */
  function FinishViewChange(
    r: Replica, view: SeqNo, cid: SeqNo, bound: Option<Digest>, proposed: seq<Digest>, nonce: nat)
    : Option<Reaction>
    requires Sane(r)
  {
    var s := r.cons.tbo.currSeq;
    var requests := Settled(r.log.declog, cid, bound, proposed);
    var view' := r.view.Peek(view);
    var forged := ConsensusMessage(s, view, PrePrepare(requests));
    var digest := OfMessage(forged);
    var m := Stored(Header(view'.Leader(), digest, nonce), forged);
    if view <= r.view.seqNo || |requests| > |r.cons.current| then None
    else
      Some(Reaction(
        r.(view := view', checked := false,
           log := r.log.(declog := Insert(ClearLastOccurrences(r.log.declog, cid), m)),
           cons := EnterNewView(r.cons, digest, requests)),
        if r.me != view'.Leader() then Some(ConsensusMessage(s, view, Prepare(digest))) else None))
  }

  function Step(r: Replica, e: Event): Option<Reaction>
    requires Sane(r)
  {
    match e
    case Deliver(m) => Receive(r.(received := r.received + {m}), m)
    case PollQueue =>
      var (status, c) := Poll(r.cons, r.log.pool);
      if status.NextMessage? then Receive(r.(cons := c), status.message)
      else Some(Reaction(r.(cons := c), None))
    case Defer(m) =>
      Some(Reaction(r.(received := r.received + {m}, cons := r.cons.(tbo := Enqueue(r.cons.tbo, m))), None))
    case TryPropose(batch) =>
      var r1 := r.(log := r.log.(pool := PopRequest(r.log.pool)));
      if !r.cons.phase.Init? || batch.None? then Some(Reaction(r1, None))
      else Some(Reaction(
        r1.(cons := r.cons.(phase := PrePreparing)),
        if r.me == r.view.Leader()
        then Some(ConsensusMessage(r.cons.tbo.currSeq, r.view.seqNo, PrePrepare(batch.value))) else None))
    case ClientRequest(q) => Some(Reaction(r.(log := r.log.(pool := AddRequest(r.log.pool, q))), None))
    case CheckpointDone =>
      (match FinalizeCheckpoint(r.log, ())
       case None => None
       case Some(log) => Some(Reaction(r.(log := log), None)))
    case ChangeView(v, cid, bound, proposed, nonce) => FinishViewChange(r, v, cid, bound, proposed, nonce)
  }

  // ---- histories ---------------------------------------------------------------------

  /** A history: from instance 0, through deliveries, polls, proposals, requests,
      returning checkpoints and view changes in any order. */
  ghost predicate History(trace: seq<Replica>, events: seq<Event>, me: NodeId, view: ViewInfo, batchSize: nat) {
    && view.params.Standard() && view.seqNo >= 0
    && |trace| == |events| + 1 && trace[0] == Initial(me, view, batchSize)
    && forall k :: 0 <= k < |events| ==> Follows(trace[k], events[k], trace[k + 1])
  }

  ghost predicate Follows(r: Replica, e: Event, r': Replica) {
    Sane(r) && Step(r, e).Some? && Step(r, e).value.replica == r'
  }

  // ---- the main loop over its components -----------------------------------------------

  /** A replica as the object that owns a consensus instance and a log. The ghost fields
      are the history of `Replica`. */
  class Server {
    const me: NodeId
    var view: ViewInfo
    const consensus: Consensus
    const log: Log<()>
    ghost var received: set<Msg>
    ghost var accepted: seq<Msg>
    ghost var checked: bool
    ghost var decisions: seq<Decision>

    ghost function Value(): Replica
      reads this, consensus, consensus.tbo, log, log.declog
    {
      Replica(me, view, consensus.Value(), log.Value(), received, accepted, checked, decisions)
    }

    constructor (me: NodeId, view: ViewInfo, batchSize: nat)
      ensures Value() == Initial(me, view, batchSize)
      ensures fresh(consensus) && fresh(consensus.tbo) && fresh(log) && fresh(log.declog)
    {
      this.me, this.view := me, view;
      consensus := new Consensus(0, batchSize);
      log := new Log<()>(batchSize);
      received, accepted, checked, decisions := {}, [], false, [];
    }

    /** The decided path: finalize the batch, hand it over, move to the next instance. */
    method Decided(s: SeqNo, ds: seq<Digest>) returns (ok: bool)
      requires s == consensus.tbo.currSeq
      modifies this, consensus.tbo, log, log.declog
      ensures var r := Decide(old(Value()), ds); ok == r.Some? && (ok ==> Value() == r.value)
    {
      var result := log.Finalize(s, ds);
      if result.None? || s == I32_MAX { return false; }
      consensus.tbo.NextInstance();
      decisions := decisions + [Decision(s, view.seqNo, consensus.currentDigest, ds, result.value)];
      ok := true;
    }

    /** A consensus message, from the network or from the queue. */
    method HandleConsensus(m: Msg) returns (ok: bool, sent: Option<ConsensusMessage>)
      requires Sane(Value())
      modifies this, consensus, consensus.tbo, log, log.declog
      ensures var r := Receive(old(Value()), m);
              ok == r.Some? && (ok ==> Value() == r.value.replica && sent == r.value.sent)
    {
      var verdict := Classify(consensus.Value(), m.message, view.seqNo);
      if verdict == Accepted && !Fits(consensus.Value(), m.message) { return false, None; }
      var s, decided := consensus.tbo.currSeq, None;
      sent, decided := consensus.ProcessMessage(m, view, me, log);
      if verdict == Accepted {
        accepted := if m.message.kind.PrePrepare? then accepted else accepted + [m];
        checked := m.message.kind.PrePrepare? || checked;
      }
      ok := true;
      if decided.Some? { ok := Decided(s, decided.value); }
      if ok { consensus.tbo.getQueue := true; }
    }

    method DeliverMessage(m: Msg) returns (ok: bool, sent: Option<ConsensusMessage>)
      requires Sane(Value())
      modifies this, consensus, consensus.tbo, log, log.declog
      ensures var r := Step(old(Value()), Deliver(m));
              ok == r.Some? && (ok ==> Value() == r.value.replica && sent == r.value.sent)
    {
      received := received + {m};
      ok, sent := HandleConsensus(m);
    }

    /** One turn of the loop that takes its message from the consensus queue. */
    method TakeQueued() returns (ok: bool, sent: Option<ConsensusMessage>)
      requires Sane(Value())
      modifies this, consensus, consensus.tbo, log, log.declog
      ensures var r := Step(old(Value()), PollQueue);
              ok == r.Some? && (ok ==> Value() == r.value.replica && sent == r.value.sent)
    {
      var status := consensus.PollQueue(log);
      ok, sent := true, None;
      if status.NextMessage? { ok, sent := HandleConsensus(status.message); }
    }

    /** `next_batch` and `propose`; the batch is the one hash order picked. */
    method TryToPropose() returns (batch: Option<seq<Digest>>, sent: Option<ConsensusMessage>)
      requires Sane(Value())
      modifies this, consensus, log
      ensures var r := Step(old(Value()), TryPropose(batch));
              r.Some? && Value() == r.value.replica && sent == r.value.sent
    {
      batch := log.NextBatch();
      sent := None;
      if batch.Some? { sent := consensus.Propose(batch.value, view, me); }
    }

    method CheckpointReturned() returns (ok: bool)
      requires Sane(Value())
      modifies log, log.declog
      ensures var r := Step(old(Value()), CheckpointDone); ok == r.Some? && (ok ==> Value() == r.value.replica)
    {
      ok := log.EndCheckpoint(());
    }

    /** The proposal of the bound value if the log has it, and the cleared log. */
    method Settle(cid: SeqNo, bound: Option<Digest>, proposed: seq<Digest>) returns (requests: seq<Digest>)
      modifies log.declog
      ensures requests == Settled(old(log.declog.Value()), cid, bound, proposed)
      ensures log.declog.Value() == ClearLastOccurrences(old(log.declog.Value()), cid)
    {
      var found := log.declog.ClearInstance(cid, bound);
      requests := proposed;
      if found.Some? && found.value.message.kind.PrePrepare? { requests := found.value.message.kind.requests; }
    }

    /** Forge the PRE-PREPARE of the new view, log it and enter the PREPARE phase. */
    method Adopt(requests: seq<Digest>, nonce: nat) returns (sent: Option<ConsensusMessage>)
      requires view.params.n > 0 && |requests| <= |consensus.current|
      modifies consensus, log.declog
      ensures var forged := ConsensusMessage(consensus.tbo.currSeq, view.seqNo, PrePrepare(requests));
              var digest := OfMessage(forged);
              && consensus.Value() == EnterNewView(old(consensus.Value()), digest, requests)
              && log.declog.Value() ==
                 Insert(old(log.declog.Value()), Stored(Header(view.Leader(), digest, nonce), forged))
              && sent == if me != view.Leader()
                         then Some(ConsensusMessage(consensus.tbo.currSeq, view.seqNo, Prepare(digest))) else None
    {
      var forged := ConsensusMessage(consensus.tbo.currSeq, view.seqNo, PrePrepare(requests));
      var digest := OfMessage(forged);
      log.declog.Push(Stored(Header(view.Leader(), digest, nonce), forged));
      sent := consensus.FinalizeViewChange(digest, view, me, log);
    }

    /** `finalize` of the synchronizer, for the instance `cid` of the collects. */
    method InstallNewView(v: SeqNo, cid: SeqNo, bound: Option<Digest>, proposed: seq<Digest>, nonce: nat)
      returns (ok: bool, sent: Option<ConsensusMessage>)
      requires Sane(Value()) && v > view.seqNo
      modifies this, consensus, log.declog
      ensures var r := Step(old(Value()), ChangeView(v, cid, bound, proposed, nonce));
              ok == r.Some? && (ok ==> Value() == r.value.replica && sent == r.value.sent)
    {
      view := view.Peek(v);
      var requests := Settle(cid, bound, proposed);
      if |requests| > |consensus.current| { return false, None; }
      sent := Adopt(requests, nonce);
      checked := false;
      ok := true;
    }
  }
}
