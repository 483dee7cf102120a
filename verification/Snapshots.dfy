/** Checkpoints, snapshots and recovery: the log, the executor that works behind it,
    and the state a recovering replica installs (src/bft/consensus/log/mod.rs,
    src/bft/executable/mod.rs, src/bft/cst/mod.rs). */
module Snapshots {
  import opened Wrappers
  import opened Ordering
  import opened Core
  import opened Messages
  import opened DecisionLogs
  import opened Logs
  import opened Executors

  /** A log and its asynchronous executor. `returned` are application states on their
      way back. History: `since` are the operations finalized after the pending
      checkpoint was begun, `lost` those of the last completed one. */
  datatype Node<S> = Node(
    log: LogValue<S>, state: S, queue: seq<ExecutionRequest<S>>, returned: seq<S>,
    since: seq<Operation>, lost: seq<Operation>)

  datatype Event<S> =
    | Finalize(seqNo: SeqNo, digests: seq<Digest>)
    | ExecuteNext
    | CheckpointReturns
    | OtherTraffic(log: LogValue<S>)

  predicate Pending<S>(c: CheckpointState<S>) {
    c.Partial? || c.PartialWithEarlier?
  }

  /** `None` when the event is not possible or the log reports an error. */
  function Step<S(==), P>(svc: Service<S, P>, d: Node<S>, e: Event<S>): Option<Node<S>> {
    match e
    case Finalize(s, ds) =>
      (match FinalizeBatch(d.log, s, ds)
       case (None, _) => None
       case (Some(r), log) =>
         if r.info.BeginCheckpoint?
         then Some(d.(log := log, queue := d.queue + [UpdateAndGetAppstate(r.batch)], since := []))
         else Some(d.(log := log, queue := d.queue + [DoUpdate(r.batch)], since := d.since + Operations(r.batch))))
    case ExecuteNext =>
      if d.queue == [] then None
      else
        var st := StateAfter(svc, d.state, d.queue[0]);
        Some(d.(state := st, queue := d.queue[1..],
                returned := if d.queue[0].UpdateAndGetAppstate? then d.returned + [st] else d.returned))
    case CheckpointReturns =>
      if d.returned == [] then None
      else
        (match FinalizeCheckpoint(d.log, d.returned[0])
         case None => None
         case Some(log) => Some(d.(log := log, returned := d.returned[1..], lost := d.since, since := [])))
    case OtherTraffic(log) =>
      if log.decided == d.log.decided && log.checkpoint == d.log.checkpoint then Some(d.(log := log)) else None
  }

  function Total<S, P>(svc: Service<S, P>, d: Node<S>): S {
    Drain(svc, d.state, d.queue)
  }

  ghost predicate Updates<S>(q: seq<ExecutionRequest<S>>) {
    forall i :: 0 <= i < |q| ==> q[i].DoUpdate?
  }

  ghost predicate NoGets<S>(q: seq<ExecutionRequest<S>>) {
    forall i :: 0 <= i < |q| ==> !q[i].UpdateAndGetAppstate?
  }

  function QueuedOps<S>(q: seq<ExecutionRequest<S>>): seq<Operation> {
    if q == [] then []
    else QueuedOps(q[..|q| - 1]) +
         if q[|q| - 1].InstallState? then [] else Operations(q[|q| - 1].batch)
  }

  /** The pending checkpoint's request sits at `k`; only updates are queued behind it. */
  ghost predicate GetAt<S>(q: seq<ExecutionRequest<S>>, k: nat, since: seq<Operation>) {
    k < |q| && q[k].UpdateAndGetAppstate? && NoGets(q[..k]) && Updates(q[k + 1..]) && QueuedOps(q[k + 1..]) == since
  }

  ghost predicate NodeInv<S, P>(svc: Service<S, P>, d: Node<S>) {
    match d.log.checkpoint
    case NoCheckpoint =>
      NoGets(d.queue) && d.returned == [] && Total(svc, d) == Replay(svc, svc.initial, d.log.decided)
    case Complete(c) =>
      NoGets(d.queue) && d.returned == [] && Total(svc, d) == Replay(svc, c.appstate, d.lost + d.log.decided)
    case _ =>
      if d.returned == [] then exists k :: GetAt(d.queue, k, d.since)
      else |d.returned| == 1 && Updates(d.queue) && Total(svc, d) == Replay(svc, d.returned[0], d.since)
  }

  // ---- steps --------------------------------------------------------------------------

  lemma {:induction false} UpdatesReplay<S, P>(svc: Service<S, P>, st: S, q: seq<ExecutionRequest<S>>)
    requires Updates(q)
    ensures Drain(svc, st, q) == Replay(svc, st, QueuedOps(q))
  {
    if q != [] {
      UpdatesReplay(svc, st, q[..|q| - 1]);
      ReplayConcat(svc, st, QueuedOps(q[..|q| - 1]), Operations(q[|q| - 1].batch));
    }
  }

  lemma DrainFront<S, P>(svc: Service<S, P>, st: S, q: seq<ExecutionRequest<S>>)
    requires q != []
    ensures Drain(svc, st, q) == Drain(svc, StateAfter(svc, st, q[0]), q[1..])
  {
    assert q == [q[0]] + q[1..];
    DrainConcat(svc, st, [q[0]], q[1..]);
    assert [q[0]][..0] == [];
  }

  lemma AppendTotal<S, P>(
    svc: Service<S, P>, st: S, q: seq<ExecutionRequest<S>>, r: ExecutionRequest<S>, base: S, ops: seq<Operation>)
    requires !r.InstallState? && Drain(svc, st, q) == Replay(svc, base, ops)
    ensures Drain(svc, st, q + [r]) == Replay(svc, base, ops + Operations(r.batch))
    ensures QueuedOps(q + [r]) == QueuedOps(q) + Operations(r.batch)
  {
    assert (q + [r])[..|q|] == q;
    ReplayConcat(svc, base, ops, Operations(r.batch));
  }

  lemma FinalizeDecides<S>(log: LogValue<S>, s: SeqNo, ds: seq<Digest>)
    ensures var (r, log') := FinalizeBatch(log, s, ds);
            r.Some? ==>
              && log'.decided == log.decided + Operations(r.value.batch)
              && (r.value.info.Nil? ==> log'.checkpoint == log.checkpoint)
              && (r.value.info.BeginCheckpoint? ==> Pending(log'.checkpoint) && !Pending(log.checkpoint))
  {
  }

  lemma AppendBehindGet<S>(q: seq<ExecutionRequest<S>>, k: nat, since: seq<Operation>, r: ExecutionRequest<S>)
    requires GetAt(q, k, since) && r.DoUpdate?
    ensures GetAt(q + [r], k, since + Operations(r.batch))
  {
    var tail := q[k + 1..];
    assert (q + [r])[..k] == q[..k] && (q + [r])[k + 1..] == tail + [r];
    assert (tail + [r])[..|tail|] == tail;
  }

  /** A batch finalized while the application state is on its way. */
  lemma FinalizeWhilePending<S, P>(svc: Service<S, P>, d: Node<S>, d': Node<S>, r: ExecutionRequest<S>)
    requires NodeInv(svc, d) && Pending(d.log.checkpoint) && r.DoUpdate?
    requires d'.log.checkpoint == d.log.checkpoint && d'.queue == d.queue + [r] && d'.state == d.state
    requires d'.returned == d.returned && d'.since == d.since + Operations(r.batch)
    ensures NodeInv(svc, d')
  {
    if d.returned == [] {
      var k: nat :| GetAt(d.queue, k, d.since);
      AppendBehindGet(d.queue, k, d.since, r);
    } else {
      AppendTotal(svc, d.state, d.queue, r, d.returned[0], d.since);
    }
  }

  lemma FinalizeBetween<S, P>(svc: Service<S, P>, d: Node<S>, d': Node<S>, r: ExecutionRequest<S>)
    requires NodeInv(svc, d) && !Pending(d.log.checkpoint) && r.DoUpdate?
    requires d'.log.checkpoint == d.log.checkpoint && d'.queue == d.queue + [r] && d'.state == d.state
    requires d'.returned == d.returned && d'.lost == d.lost
    requires d'.log.decided == d.log.decided + Operations(r.batch)
    ensures NodeInv(svc, d')
  {
    if d.log.checkpoint.NoCheckpoint? {
      AppendTotal(svc, d.state, d.queue, r, svc.initial, d.log.decided);
    } else {
      assert (d.lost + d.log.decided) + Operations(r.batch) == d.lost + d'.log.decided;
      AppendTotal(svc, d.state, d.queue, r, d.log.checkpoint.checkpoint.appstate, d.lost + d.log.decided);
    }
  }

  lemma FinalizeBegins<S, P>(svc: Service<S, P>, d: Node<S>, d': Node<S>, r: ExecutionRequest<S>)
    requires NodeInv(svc, d) && !Pending(d.log.checkpoint) && Pending(d'.log.checkpoint) && r.UpdateAndGetAppstate?
    requires d'.queue == d.queue + [r] && d'.returned == d.returned && d'.since == []
    ensures NodeInv(svc, d')
  {
    assert d'.queue[..|d.queue|] == d.queue && d'.queue[|d.queue| + 1..] == [];
    assert GetAt(d'.queue, |d.queue|, d'.since);
  }

  lemma FinalizeKeeps<S, P>(svc: Service<S, P>, d: Node<S>, s: SeqNo, ds: seq<Digest>)
    requires NodeInv(svc, d) && FinalizeBatch(d.log, s, ds).0.Some?
    ensures NodeInv(svc, Step(svc, d, Finalize(s, ds)).value)
  {
    FinalizeDecides(d.log, s, ds);
    var r := FinalizeBatch(d.log, s, ds).0.value;
    var d' := Step(svc, d, Finalize(s, ds)).value;
    var req := d'.queue[|d.queue|];
    if r.info.BeginCheckpoint? {
      FinalizeBegins(svc, d, d', req);
    } else if Pending(d.log.checkpoint) {
      FinalizeWhilePending(svc, d, d', req);
    } else {
      FinalizeBetween(svc, d, d', req);
    }
  }

  lemma GetMovesUp<S>(q: seq<ExecutionRequest<S>>, k: nat, since: seq<Operation>)
    requires GetAt(q, k, since) && k > 0
    ensures GetAt(q[1..], k - 1, since) && !q[0].UpdateAndGetAppstate?
  {
    assert q[0] == q[..k][0];
    assert q[1..][k..] == q[k + 1..];
    assert q[1..][..k - 1] == q[..k][1..];
  }

  lemma ExecuteKeeps<S, P>(svc: Service<S, P>, d: Node<S>)
    requires NodeInv(svc, d) && d.queue != []
    ensures NodeInv(svc, Step(svc, d, ExecuteNext).value)
  {
    DrainFront(svc, d.state, d.queue);
    var d' := Step(svc, d, ExecuteNext).value;
    if Pending(d.log.checkpoint) && d.returned == [] {
      var k: nat :| GetAt(d.queue, k, d.since);
      if k == 0 {
        UpdatesReplay(svc, d'.state, d'.queue);
      } else {
        GetMovesUp(d.queue, k, d.since);
      }
    }
  }

  lemma ReturnKeeps<S, P>(svc: Service<S, P>, d: Node<S>)
    requires NodeInv(svc, d) && Step(svc, d, CheckpointReturns).Some?
    ensures NodeInv(svc, Step(svc, d, CheckpointReturns).value)
  {
    assert d.since + [] == d.since;
  }

  function RunFrom<S(==), P>(svc: Service<S, P>, d: Node<S>, es: seq<Event<S>>): Option<Node<S>> {
    if es == [] then Some(d)
    else
      match RunFrom(svc, d, es[..|es| - 1])
      case None => None
      case Some(d1) => Step(svc, d1, es[|es| - 1])
  }

  function StartNode<S, P>(svc: Service<S, P>, batchSize: nat): Node<S> {
    Node(EmptyLog(batchSize), svc.initial, [], [], [], [])
  }

  lemma StepKeeps<S, P>(svc: Service<S, P>, d: Node<S>, e: Event<S>)
    requires NodeInv(svc, d)
    ensures Step(svc, d, e).Some? ==> NodeInv(svc, Step(svc, d, e).value)
  {
    if Step(svc, d, e).Some? {
      match e
      case Finalize(s, ds) => FinalizeKeeps(svc, d, s, ds);
      case ExecuteNext => ExecuteKeeps(svc, d);
      case CheckpointReturns => ReturnKeeps(svc, d);
      case OtherTraffic(_) =>
    }
  }

  /** Under every interleaving of decisions, execution and returning states, the last
      checkpoint plus what was lost at it plus what was decided since is the state
      the executor will reach. */
  lemma {:induction false} RunKeeps<S, P>(svc: Service<S, P>, d: Node<S>, es: seq<Event<S>>)
    requires NodeInv(svc, d)
    ensures RunFrom(svc, d, es).Some? ==> NodeInv(svc, RunFrom(svc, d, es).value)
  {
    if es != [] {
      RunKeeps(svc, d, es[..|es| - 1]);
      var d1 := RunFrom(svc, d, es[..|es| - 1]);
      if d1.Some? { StepKeeps(svc, d1.value, es[|es| - 1]); }
    }
  }

  // ---- the round trip ---------------------------------------------------------------------

  /** What a snapshot would rebuild. */
  ghost predicate Faithful<S, P>(svc: Service<S, P>, d: Node<S>) {
    d.log.checkpoint.Complete? ==>
      Replay(svc, d.log.checkpoint.checkpoint.appstate, d.log.decided) == Total(svc, d)
  }

  /** No batch is finalized between a checkpoint's begin and its end. */
  ghost predicate NoOverlap<S>(d: Node<S>, e: Event<S>) {
    e.Finalize? ==> !Pending(d.log.checkpoint)
  }

  ghost predicate NothingLost<S>(d: Node<S>) {
    d.lost == [] && (Pending(d.log.checkpoint) ==> d.since == [])
  }

  lemma NoOverlapLosesNothing<S, P>(svc: Service<S, P>, d: Node<S>, e: Event<S>)
    requires NothingLost(d) && NoOverlap(d, e)
    ensures Step(svc, d, e).Some? ==> NothingLost(Step(svc, d, e).value)
  {
    if e.Finalize? { FinalizeDecides(d.log, e.seqNo, e.digests); }
  }

  ghost predicate NoOverlaps<S, P>(svc: Service<S, P>, d: Node<S>, es: seq<Event<S>>) {
    forall n :: 0 <= n < |es| && RunFrom(svc, d, es[..n]).Some? ==> NoOverlap(RunFrom(svc, d, es[..n]).value, es[n])
  }

  lemma {:induction false} RunLosesNothing<S, P>(svc: Service<S, P>, d: Node<S>, es: seq<Event<S>>)
    requires NothingLost(d) && NoOverlaps(svc, d, es)
    ensures RunFrom(svc, d, es).Some? ==> NothingLost(RunFrom(svc, d, es).value)
  {
    if es != [] {
      var es0 := es[..|es| - 1];
      forall n | 0 <= n < |es0| && RunFrom(svc, d, es0[..n]).Some?
        ensures NoOverlap(RunFrom(svc, d, es0[..n]).value, es0[n])
      {
        assert es0[..n] == es[..n];
      }
      RunLosesNothing(svc, d, es0);
      var d1 := RunFrom(svc, d, es0);
      if d1.Some? { NoOverlapLosesNothing(svc, d1.value, es[|es| - 1]); }
    }
  }

  /** The instance number a recovering replica at `own` goes on with: that of the last
      proposal in the donor's log. */
  function InstalledNumber<S>(own: SeqNo, rs: RecoveryState<S>): SeqNo {
    LastNumber(rs.declog.prePrepares, own)
  }

  /** `install_recovery_state`, as far as log and executor go. */
  function Recover<S>(d: Node<S>, own: SeqNo, rs: RecoveryState<S>): Node<S> {
    d.(log := Logs.InstallState(d.log, InstalledNumber(own, rs), rs),
       queue := d.queue + [ExecutionRequest.InstallState(rs.checkpoint.appstate, rs.requests)],
       since := [], lost := [])
  }

  /** Snapshot round trip. In every run in which no batch is finalized during a
      checkpoint, a replica that installs the donor's snapshot reaches the donor's
      drained state and could itself hand on the same snapshot. It keeps the invariant
      if and only if no application state of its own is still on the way. */
  lemma SnapshotRoundTrip<S, P>(
    svc: Service<S, P>, batchSize: nat, es: seq<Event<S>>, view: ViewInfo, target: Node<S>, own: SeqNo)
    requires NoOverlaps(svc, StartNode(svc, batchSize), es) && RunFrom(svc, StartNode(svc, batchSize), es).Some?
    requires Snapshot(RunFrom(svc, StartNode(svc, batchSize), es).value.log, view).Some?
    ensures var donor := RunFrom(svc, StartNode(svc, batchSize), es).value;
            var rs := Snapshot(donor.log, view).value;
            var recovered := Recover(target, own, rs);
            && Faithful(svc, donor)
            && Total(svc, recovered) == Total(svc, donor)
            && (NodeInv(svc, recovered) <==> NoGets(target.queue) && target.returned == [])
            && NothingLost(recovered)
            && Snapshot(recovered.log, view) == Some(rs)
  {
    var start := StartNode(svc, batchSize);
    RunKeeps(svc, start, es);
    RunLosesNothing(svc, start, es);
    var donor := RunFrom(svc, start, es).value;
    var rs := Snapshot(donor.log, view).value;
    assert donor.lost + donor.log.decided == donor.log.decided;
    Recovered(svc, target, own, rs);
  }

  lemma Recovered<S, P>(svc: Service<S, P>, target: Node<S>, own: SeqNo, rs: RecoveryState<S>)
    ensures var recovered := Recover(target, own, rs);
            && Total(svc, recovered) == Replay(svc, rs.checkpoint.appstate, rs.requests)
            && (NodeInv(svc, recovered) <==> NoGets(target.queue) && target.returned == [])
  {
    var q := target.queue + [ExecutionRequest.InstallState(rs.checkpoint.appstate, rs.requests)];
    assert q[..|target.queue|] == target.queue;
    assert forall i :: 0 <= i < |target.queue| ==> q[i] == target.queue[i];
    assert [] + rs.requests == rs.requests;
  }

  /** An application state that comes back is stored if and only if a checkpoint is pending,
      as the one of that checkpoint, whenever it was asked for. */
  lemma StoresPending<S, P>(svc: Service<S, P>, d: Node<S>)
    requires d.returned != []
    ensures Step(svc, d, CheckpointReturns).Some? <==> Pending(d.log.checkpoint)
    ensures Pending(d.log.checkpoint) ==>
              Step(svc, d, CheckpointReturns).value.log.checkpoint ==
              Complete(Checkpoint(d.log.checkpoint.seqNo, d.returned[0]))
  {
  }

  /** The event does not begin a checkpoint. */
  predicate BeginsNone<S>(d: Node<S>, e: Event<S>) {
    e.Finalize? ==> !CheckpointDue(LastSeqNo(d.log))
  }

  ghost predicate BeginsNever<S, P>(svc: Service<S, P>, d: Node<S>, es: seq<Event<S>>) {
    forall n :: 0 <= n < |es| && RunFrom(svc, d, es[..n]).Some? ==> BeginsNone(RunFrom(svc, d, es[..n]).value, es[n])
  }

  /** A late application state of the recovered replica's own is an error, whenever it
      arrives before the next checkpoint is begun: the replica stops. */
  lemma LateStateStops<S, P>(
    svc: Service<S, P>, target: Node<S>, own: SeqNo, rs: RecoveryState<S>, es: seq<Event<S>>)
    requires BeginsNever(svc, Recover(target, own, rs), es) && RunFrom(svc, Recover(target, own, rs), es).Some?
    requires RunFrom(svc, Recover(target, own, rs), es).value.returned != []
    ensures var d := RunFrom(svc, Recover(target, own, rs), es).value;
            FinalizeCheckpoint(d.log, d.returned[0]).None? && Step(svc, d, CheckpointReturns).None?
  {
    StaysComplete(svc, Recover(target, own, rs), es);
  }

  lemma {:induction false} StaysComplete<S, P>(svc: Service<S, P>, d: Node<S>, es: seq<Event<S>>)
    requires d.log.checkpoint.Complete? && BeginsNever(svc, d, es)
    ensures RunFrom(svc, d, es).Some? ==> RunFrom(svc, d, es).value.log.checkpoint.Complete?
  {
    if es != [] {
      var es0 := es[..|es| - 1];
      forall n | 0 <= n < |es0| && RunFrom(svc, d, es0[..n]).Some?
        ensures BeginsNone(RunFrom(svc, d, es0[..n]).value, es0[n])
      {
        assert es0[..n] == es[..n];
      }
      StaysComplete(svc, d, es0);
      if RunFrom(svc, d, es0).Some? { assert BeginsNone(RunFrom(svc, d, es0).value, es[|es| - 1]); }
    }
  }

  // ---- exactly when -------------------------------------------------------------------------

  /** The service whose state is the list of operations it has seen. */
  function Recorder(): Service<seq<Operation>, ()> {
    Service([], (s: seq<Operation>, op: Operation) => (s + [op], ()))
  }

  lemma {:induction false} RecorderReplay(st: seq<Operation>, ops: seq<Operation>)
    ensures Replay(Recorder(), st, ops) == st + ops
  {
    if ops != [] {
      RecorderReplay(st, ops[..|ops| - 1]);
      assert ops == ops[..|ops| - 1] + [ops[|ops| - 1]];
    }
  }

  /** For a service that remembers everything, the snapshot rebuilds the donor's state
      exactly when nothing was finalized while the checkpoint was pending. */
  lemma FaithfulExactly(d: Node<seq<Operation>>)
    requires NodeInv(Recorder(), d) && d.log.checkpoint.Complete?
    ensures Faithful(Recorder(), d) <==> d.lost == []
  {
    var a := d.log.checkpoint.checkpoint.appstate;
    RecorderReplay(a, d.log.decided);
    RecorderReplay(a, d.lost + d.log.decided);
    if d.lost == [] { assert d.lost + d.log.decided == d.log.decided; }
    assert |a + (d.lost + d.log.decided)| == |a + d.log.decided| + |d.lost|;
  }

  // ---- runs that go wrong ---------------------------------------------------------------------

  /** An event as the replica produces it: the log takes in a request or a message, and
      instances are finalized in order, each with its proposal logged. */
  ghost predicate Proper<S(!new)>(d: Node<S>, e: Event<S>) {
    match e
    case OtherTraffic(log) =>
      || (exists q :: log == d.log.(pool := AddRequest(d.log.pool, q)))
      || (exists m :: log == d.log.(declog := Insert(d.log.declog, m)))
    case Finalize(s, _) => s == Executing(d.log.declog.lastExec) == LastSeqNo(d.log)
    case _ => true
  }

  ghost predicate ProperRun<S(!new), P>(svc: Service<S, P>, d: Node<S>, es: seq<Event<S>>) {
    es == [] ||
    var es0 := es[..|es| - 1];
    ProperRun(svc, d, es0) && RunFrom(svc, d, es0).Some? && Proper(RunFrom(svc, d, es0).value, es[|es| - 1])
  }

  /** `es` leads from `start` to `d`, for the service that remembers everything. */
  ghost predicate Reached(start: Node<seq<Operation>>, es: seq<Event<seq<Operation>>>, d: Node<seq<Operation>>) {
    ProperRun(Recorder(), start, es) && RunFrom(Recorder(), start, es) == Some(d)
  }

  lemma Then(
    start: Node<seq<Operation>>, es: seq<Event<seq<Operation>>>, d: Node<seq<Operation>>, e: Event<seq<Operation>>)
    returns (es': seq<Event<seq<Operation>>>, d': Node<seq<Operation>>)
    requires Reached(start, es, d) && Proper(d, e) && Step(Recorder(), d, e).Some?
    ensures Reached(start, es', d') && d' == Step(Recorder(), d, e).value
  {
    es', d' := es + [e], Step(Recorder(), d, e).value;
    assert es'[..|es|] == es;
  }

  /** Ready for instance `s`, with one operation executed for each instance before. */
  ghost predicate Ready(d: Node<seq<Operation>>, s: SeqNo) {
    && s >= 0 && Executing(d.log.declog.lastExec) == s && d.log.pool == Pool([], map[])
    && d.queue == [] && |d.state| == s
  }

  function ProposalOf(s: SeqNo): Msg
    requires s >= 0
  {
    var m := ConsensusMessage(s, 0, PrePrepare([EmptyDigest(s)]));
    Stored(Header(0, OfMessage(m), 0), m)
  }

  function BatchOf(s: SeqNo): seq<Update>
    requires s >= 0
  {
    [Update(0, EmptyDigest(s), Operation([]))]
  }

  lemma TakesIt(s: SeqNo)
    requires s >= 0
    ensures TakeAll(Pool([Entry(EmptyDigest(s), EmptyRequest(s))], map[]), [EmptyDigest(s)]) ==
            (Some(BatchOf(s)), Pool([], map[]))
  {
    var pool := Pool([Entry(EmptyDigest(s), EmptyRequest(s))], map[]);
    assert [EmptyDigest(s)][..0] == [];
    assert Find(pool.requests, EmptyDigest(s)) == Some(0);
    assert Without(pool.requests, EmptyDigest(s)) == [];
    assert [] + BatchOf(s) == BatchOf(s);
  }

  /** A request and a proposal for instance `s` come in. */
  lemma Proposed(start: Node<seq<Operation>>, es: seq<Event<seq<Operation>>>, d: Node<seq<Operation>>, s: SeqNo)
    returns (es': seq<Event<seq<Operation>>>, d': Node<seq<Operation>>)
    requires Reached(start, es, d) && s >= 0 && d.log.pool == Pool([], map[])
    ensures Reached(start, es', d')
    ensures d' == d.(log := d.log.(pool := Pool([Entry(EmptyDigest(s), EmptyRequest(s))], map[]),
                                   declog := Insert(d.log.declog, ProposalOf(s))))
  {
    assert Without([], EmptyDigest(s)) == [];
    assert AddRequest(d.log.pool, EmptyRequest(s)) == Pool([Entry(EmptyDigest(s), EmptyRequest(s))], map[]);
    es', d' := Then(start, es, d, OtherTraffic(d.log.(pool := AddRequest(d.log.pool, EmptyRequest(s)))));
    es', d' := Then(start, es', d', OtherTraffic(d'.log.(declog := Insert(d'.log.declog, ProposalOf(s)))));
  }

  /** Instance `s` is decided and begins a checkpoint when due. */
  lemma Decided(start: Node<seq<Operation>>, es: seq<Event<seq<Operation>>>, d: Node<seq<Operation>>, s: SeqNo)
    returns (es': seq<Event<seq<Operation>>>, d': Node<seq<Operation>>)
    requires Reached(start, es, d) && 0 <= s < I32_MAX
    requires Executing(d.log.declog.lastExec) == s && d.log.pool == Pool([], map[])
    requires CheckpointDue(s) ==> !Pending(d.log.checkpoint)
    ensures Reached(start, es', d') && Executing(d'.log.declog.lastExec) == s + 1 && d'.log.pool == Pool([], map[])
    ensures d'.returned == d.returned && d'.state == d.state && d'.lost == d.lost
    ensures if CheckpointDue(s)
            then d'.log.checkpoint == Begin(d.log.checkpoint, s).1 && d'.since == []
                 && d'.queue == d.queue + [UpdateAndGetAppstate(BatchOf(s))]
            else d'.log.checkpoint == d.log.checkpoint && d'.since == d.since + [Operation([])]
                 && d'.queue == d.queue + [DoUpdate(BatchOf(s))]
  {
    es', d' := Proposed(start, es, d, s);
    TakesIt(s);
    assert Operations(BatchOf(s)) == [Operation([])];
    es', d' := Then(start, es', d', Finalize(s, [EmptyDigest(s)]));
  }

  /** The only request in the queue is executed. */
  lemma Executed(
    start: Node<seq<Operation>>, es: seq<Event<seq<Operation>>>, d: Node<seq<Operation>>, s: SeqNo)
    returns (es': seq<Event<seq<Operation>>>, d': Node<seq<Operation>>)
    requires Reached(start, es, d) && s >= 0
    requires d.queue == [UpdateAndGetAppstate(BatchOf(s))] || d.queue == [DoUpdate(BatchOf(s))]
    ensures Reached(start, es', d') && d'.queue == [] && d'.state == d.state + [Operation([])] && d'.log == d.log
    ensures d'.returned == if d.queue[0].UpdateAndGetAppstate? then d.returned + [d'.state] else d.returned
    ensures d'.since == d.since && d'.lost == d.lost
  {
    assert Operations(BatchOf(s)) == [Operation([])];
    RecorderReplay(d.state, [Operation([])]);
    es', d' := Then(start, es, d, ExecuteNext);
  }

  /** An instance that does not begin a checkpoint. */
  lemma OneInstance(start: Node<seq<Operation>>, es: seq<Event<seq<Operation>>>, d: Node<seq<Operation>>, s: SeqNo)
    returns (es': seq<Event<seq<Operation>>>, d': Node<seq<Operation>>)
    requires Reached(start, es, d) && Ready(d, s) && s < I32_MAX && !CheckpointDue(s)
    ensures Reached(start, es', d') && Ready(d', s + 1)
    ensures d'.log.checkpoint == d.log.checkpoint && d'.returned == d.returned && d'.lost == d.lost
  {
    es', d' := Decided(start, es, d, s);
    es', d' := Executed(start, es', d', s);
  }

  ghost predicate NoneDue(s: SeqNo, t: SeqNo) {
    forall u: SeqNo :: s <= u < t ==> !CheckpointDue(u)
  }

  /** Instances `s` to `t - 1`, none of which begins a checkpoint. */
  lemma {:induction false} Instances(
    start: Node<seq<Operation>>, es: seq<Event<seq<Operation>>>, d: Node<seq<Operation>>, s: SeqNo, t: SeqNo)
    returns (es': seq<Event<seq<Operation>>>, d': Node<seq<Operation>>)
    requires Reached(start, es, d) && Ready(d, s) && s <= t && NoneDue(s, t)
    ensures Reached(start, es', d') && Ready(d', t)
    ensures d'.log.checkpoint == d.log.checkpoint && d'.returned == d.returned && d'.lost == d.lost
    decreases t
  {
    if s == t {
      es', d' := es, d;
    } else {
      es', d' := Instances(start, es, d, s, t - 1);
      es', d' := OneInstance(start, es', d', t - 1);
    }
  }

  /** The first checkpoint is begun. */
  lemma FirstBegun() returns (es: seq<Event<seq<Operation>>>, d: Node<seq<Operation>>)
    ensures Reached(StartNode(Recorder(), 1), es, d) && |d.state| == PERIOD
    ensures Executing(d.log.declog.lastExec) == PERIOD + 1 && d.log.pool == Pool([], map[])
    ensures d.log.checkpoint == Partial(PERIOD) && d.since == [] && d.lost == [] && d.returned == []
    ensures d.queue == [UpdateAndGetAppstate(BatchOf(PERIOD))]
  {
    var start := StartNode(Recorder(), 1);
    assert Reached(start, [], start) && Ready(start, 0);
    assert NoneDue(0, PERIOD);
    es, d := Instances(start, [], start, 0, PERIOD);
    es, d := Decided(start, es, d, PERIOD);
  }

  /** A batch finalized while a checkpoint is pending is lost: no snapshot rebuilds it. */
  lemma BatchIsLost() returns (es: seq<Event<seq<Operation>>>, d: Node<seq<Operation>>)
    ensures Reached(StartNode(Recorder(), 1), es, d)
    ensures d.lost != [] && d.log.checkpoint.Complete? && !Faithful(Recorder(), d)
  {
    var start := StartNode(Recorder(), 1);
    es, d := FirstBegun();
    es, d := Decided(start, es, d, PERIOD + 1);
    es, d := Then(start, es, d, ExecuteNext);
    es, d := Then(start, es, d, CheckpointReturns);
    RunKeeps(Recorder(), start, es);
    FaithfulExactly(d);
  }

  /** The first checkpoint is complete. */
  lemma FirstComplete() returns (es: seq<Event<seq<Operation>>>, d: Node<seq<Operation>>)
    ensures Reached(StartNode(Recorder(), 1), es, d) && Ready(d, PERIOD + 1)
    ensures d.log.checkpoint.Complete? && d.lost == []
  {
    var start := StartNode(Recorder(), 1);
    es, d := FirstBegun();
    es, d := Executed(start, es, d, PERIOD);
    StoresPending(Recorder(), d);
    es, d := Then(start, es, d, CheckpointReturns);
  }

  /** A donor with a complete checkpoint, about to begin the next one. */
  lemma Donor() returns (es: seq<Event<seq<Operation>>>, d: Node<seq<Operation>>)
    ensures Reached(StartNode(Recorder(), 1), es, d) && Ready(d, 2 * PERIOD)
    ensures d.log.checkpoint.Complete? && d.lost == []
  {
    es, d := FirstComplete();
    assert NoneDue(PERIOD + 1, 2 * PERIOD);
    es, d := Instances(StartNode(Recorder(), 1), es, d, PERIOD + 1, 2 * PERIOD);
  }

  /** A target whose first application state is on its way back. */
  lemma Target() returns (es: seq<Event<seq<Operation>>>, d: Node<seq<Operation>>)
    ensures Reached(StartNode(Recorder(), 1), es, d)
    ensures d.queue == [] && d.log.pool == Pool([], map[]) && |d.returned| == 1 && |d.returned[0]| == PERIOD + 1
  {
    es, d := FirstBegun();
    es, d := Executed(StartNode(Recorder(), 1), es, d, PERIOD);
  }

  /** An application state of its own that comes back after the recovered replica has begun
      its next checkpoint is stored as that one: 1001 operations pass for 2001, and
      snapshots are wrong from then on. By `SnapshotRoundTrip` and `RunKeeps` this is
      exactly because it was on its way when the snapshot was installed. */
  lemma StaleStateStored(view: ViewInfo, own: SeqNo)
    returns (donor: Node<seq<Operation>>, target: Node<seq<Operation>>, rs: RecoveryState<seq<Operation>>,
             es: seq<Event<seq<Operation>>>, d: Node<seq<Operation>>)
    ensures exists es1, es2 ::
              Reached(StartNode(Recorder(), 1), es1, donor) && Reached(StartNode(Recorder(), 1), es2, target)
    ensures Snapshot(donor.log, view) == Some(rs) && Reached(Recover(target, own, rs), es, d)
    ensures |target.returned| == 1 && d.log.checkpoint == Complete(Checkpoint(2 * PERIOD, target.returned[0]))
    ensures d.lost == [] && !Faithful(Recorder(), d)
  {
    var es1, es2;
    es1, donor := Donor();
    es2, target := Target();
    rs := Snapshot(donor.log, view).value;
    es, d := StoresStale(donor, target, own, rs);
    RunKeeps(Recorder(), StartNode(Recorder(), 1), es1);
    StaleIsShort(donor, rs, d);
  }

  /** After the recovery, the next instance begins a checkpoint, and the old state returns. */
  lemma StoresStale(
    donor: Node<seq<Operation>>, target: Node<seq<Operation>>, own: SeqNo, rs: RecoveryState<seq<Operation>>)
    returns (es: seq<Event<seq<Operation>>>, d: Node<seq<Operation>>)
    requires Ready(donor, 2 * PERIOD) && rs.declog == donor.log.declog
    requires target.queue == [] && target.log.pool == Pool([], map[]) && |target.returned| == 1
    ensures Reached(Recover(target, own, rs), es, d) && d.lost == [] && d.log.decided == []
    ensures d.log.checkpoint == Complete(Checkpoint(2 * PERIOD, target.returned[0]))
    ensures d.queue == [ExecutionRequest.InstallState(rs.checkpoint.appstate, rs.requests)]
                       + [UpdateAndGetAppstate(BatchOf(2 * PERIOD))]
  {
    var recovered := Recover(target, own, rs);
    assert Reached(recovered, [], recovered);
    es, d := Decided(recovered, [], recovered, 2 * PERIOD);
    StoresPending(Recorder(), d);
    es, d := Then(recovered, es, d, CheckpointReturns);
  }

  lemma StaleIsShort(donor: Node<seq<Operation>>, rs: RecoveryState<seq<Operation>>, d: Node<seq<Operation>>)
    requires NodeInv(Recorder(), donor) && Ready(donor, 2 * PERIOD)
    requires donor.log.checkpoint.Complete? && donor.lost == []
    requires rs.checkpoint == donor.log.checkpoint.checkpoint && rs.requests == donor.log.decided
    requires d.queue == [ExecutionRequest.InstallState(rs.checkpoint.appstate, rs.requests)]
                        + [UpdateAndGetAppstate(BatchOf(2 * PERIOD))]
    requires d.log.checkpoint.Complete? && |d.log.checkpoint.checkpoint.appstate| == PERIOD + 1 && d.log.decided == []
    ensures !Faithful(Recorder(), d)
  {
    var install := ExecutionRequest.InstallState(rs.checkpoint.appstate, rs.requests);
    assert [] + donor.log.decided == donor.log.decided;
    assert StateAfter(Recorder(), d.state, install) == donor.state;
    assert [install][..0] == [] && d.queue[..1] == [install];
    assert Drain(Recorder(), d.state, [install]) == donor.state;
    assert Operations(BatchOf(2 * PERIOD)) == [Operation([])];
    RecorderReplay(donor.state, [Operation([])]);
    assert Total(Recorder(), d) == donor.state + [Operation([])];
  }
}
