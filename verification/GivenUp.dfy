/** Runs in which a decided value is given up: what each hypothesis of
    `ViewChange.DecidedValueSurvives` is for. Four replicas; the leader of the first view is
    faulty and proposes one value to two replicas and another one to the third. */
module GivenUp {
  import opened Wrappers
  import opened Ordering
  import opened Core
  import opened Messages
  import opened Counting
  import opened DecisionLogs
  import opened Logs
  import opened NormalPhase
  import opened Replicas
  import opened ReplicaInvariants
  import opened Votes
  import opened Certificates
  import opened Agreement
  import opened Soundness
  import opened DecidedValue
  import opened ViewChange

  const FOUR := Params(4, 1)

  /** The first view is 0 or 1. Its leader is the replica of the same number. */
  type First = v: int | 0 <= v <= 1

  /** The correct replica that decides. */
  function Decider(v: First): NodeId {
    1 - v
  }

  function Proposal(v: First, x: nat): ConsensusMessage {
    ConsensusMessage(0, v, PrePrepare([EmptyDigest(x)]))
  }

  /** The digest of the proposal with request `x`. */
  function ValueOf(v: First, x: nat): Digest {
    OfMessage(Proposal(v, x))
  }

  function By(i: NodeId, m: ConsensusMessage): Msg {
    Stored(Header(i, OfMessage(m), 0), m)
  }

  function PrepareBy(i: NodeId, v: First, x: nat): Msg {
    By(i, ConsensusMessage(0, v, Prepare(ValueOf(v, x))))
  }

  function CommitBy(i: NodeId, v: First, x: nat): Msg {
    By(i, ConsensusMessage(0, v, Commit(ValueOf(v, x))))
  }

  // ---- one replica ------------------------------------------------------------------

  /** Replica `i` works on the leader's proposal of request `x`. */
  ghost predicate In(r: Replica, i: NodeId, v: First, x: nat, phase: Phase, received: set<Msg>) {
    && r.me == i && r.view == ViewInfo(v, FOUR) && r.cons.phase == phase && r.received == received
    && r.cons.tbo == Tbo(0, true, [], [], []) && r.cons.current == [EmptyDigest(x)] && r.cons.batchSize == 1
    && r.cons.currentDigest == ValueOf(v, x) && r.decisions == []
    && r.log.pool == Pool([], map[EmptyDigest(x) := EmptyRequest(x)]) && r.log.checkpoint == NoCheckpoint
    && r.log.declog.prePrepares == [By(v, Proposal(v, x))] && r.log.declog.lastExec == None
  }

  /** The event is possible, and sends `sent`. */
  ghost predicate Does(r: Replica, e: Event, r': Replica, sent: Option<ConsensusMessage>) {
    Sane(r) && OneVote(r, e) && Step(r, e) == Some(Reaction(r', sent))
  }

  ghost predicate Ready(r: Replica, i: NodeId, v: First, x: nat) {
    && r.me == i && r.view == ViewInfo(v, FOUR) && r.cons.phase == PrePreparing && r.received == {}
    && r.cons == Instance(0, PrePreparing, Tbo(0, false, [], [], []), [Zero], Zero, [])
    && r.log.pool == Pool([], map[EmptyDigest(x) := EmptyRequest(x)]) && r.log.checkpoint == NoCheckpoint
    && r.log.declog == EMPTY_LOG && r.decisions == []
  }

  lemma GetsRequest(i: NodeId, v: First, x: nat) returns (r: Replica)
    ensures var r0 := Initial(i, ViewInfo(v, FOUR), 1);
            && Does(r0, ClientRequest(EmptyRequest(x)), r, None)
            && r == r0.(log := r0.log.(pool := Pool([Entry(EmptyDigest(x), EmptyRequest(x))], map[])))
  {
    var r0 := Initial(i, ViewInfo(v, FOUR), 1);
    r := Step(r0, ClientRequest(EmptyRequest(x))).value.replica;
    assert Without([], EmptyDigest(x)) == [];
    assert r.log.pool.deciding == map[];
  }

  lemma GetsReady(r: Replica, i: NodeId, v: First, x: nat) returns (r': Replica)
    requires i != v && i < 4
    requires var r0 := Initial(i, ViewInfo(v, FOUR), 1);
             r == r0.(log := r0.log.(pool := Pool([Entry(EmptyDigest(x), EmptyRequest(x))], map[])))
    ensures Does(r, TryPropose(Some([EmptyDigest(x)])), r', None) && Ready(r', i, v, x)
  {
    r' := Step(r, TryPropose(Some([EmptyDigest(x)]))).value.replica;
    assert r'.cons.current == [Zero];
    assert r.log.pool.requests[1..] == [];
  }

  lemma TakesProposal(r: Replica, i: NodeId, v: First, x: nat) returns (r': Replica)
    requires Ready(r, i, v, x) && 0 <= v <= 1 && i != v && i < 4
    ensures Does(r, Deliver(By(v, Proposal(v, x))), r', Some(PrepareBy(i, v, x).message))
    ensures In(r', i, v, x, Preparing(1), {By(v, Proposal(v, x))})
  {
    var m := By(v, Proposal(v, x));
    assert [EmptyDigest(x)] + [Zero][1..] == [EmptyDigest(x)];
    assert HasRequest(r.log.pool, EmptyDigest(x));
    assert Absent([EmptyDigest(x)], r.log.pool) == [];
    r' := Step(r, Deliver(m)).value.replica;
    assert r'.log.declog.prePrepares == [m];
  }

  lemma TakesPrepare(r: Replica, i: NodeId, v: First, x: nat, n: nat, received: set<Msg>, from: NodeId)
    returns (r': Replica)
    requires In(r, i, v, x, Preparing(n), received) && 1 <= n <= 2 && MayDeliver(received, PrepareBy(from, v, x))
    ensures Does(r, Deliver(PrepareBy(from, v, x)), r', if n == 2 then Some(CommitBy(i, v, x).message) else None)
    ensures In(r', i, v, x, if n == 2 then Committing(0) else Preparing(2), received + {PrepareBy(from, v, x)})
  {
    r' := Step(r, Deliver(PrepareBy(from, v, x))).value.replica;
  }

  lemma TakesCommit(r: Replica, i: NodeId, v: First, x: nat, n: nat, received: set<Msg>, from: NodeId)
    returns (r': Replica)
    requires In(r, i, v, x, Committing(n), received) && n <= 1 && MayDeliver(received, CommitBy(from, v, x))
    ensures Does(r, Deliver(CommitBy(from, v, x)), r', None)
    ensures In(r', i, v, x, Committing(n + 1), received + {CommitBy(from, v, x)})
  {
    r' := Step(r, Deliver(CommitBy(from, v, x))).value.replica;
  }

  lemma TakesLastCommit(r: Replica, i: NodeId, v: First, x: nat, received: set<Msg>, from: NodeId)
    returns (r': Replica)
    requires In(r, i, v, x, Committing(2), received) && MayDeliver(received, CommitBy(from, v, x))
    ensures Does(r, Deliver(CommitBy(from, v, x)), r', None)
    ensures |r'.decisions| == 1 && r'.decisions[0].seqNo == 0 && r'.decisions[0].view == v
    ensures r'.decisions[0].digest == ValueOf(v, x)
  {
    assert r.cons.current[..1] == [EmptyDigest(x)];
    TakesBatch(x);
    r' := Step(r, Deliver(CommitBy(from, v, x))).value.replica;
  }

  lemma TakesBatch(x: nat)
    ensures TakeAll(Pool([], map[EmptyDigest(x) := EmptyRequest(x)]), [EmptyDigest(x)]).0.Some?
  {
    assert [EmptyDigest(x)][..0] == [];
  }

  // ---- the system -----------------------------------------------------------------------

  ghost predicate RunOf(trace: seq<System>, acts: seq<Action>, v: First) {
    Run(trace, acts, FOUR, {v as NodeId}, v, 1) && |trace[|acts|].replicas| == 4
  }

  lemma Act(trace: seq<System>, acts: seq<Action>, v: First, a: Action, sys': System)
    returns (trace': seq<System>, acts': seq<Action>)
    requires RunOf(trace, acts, v) && |sys'.replicas| == 4
    requires Agreement.Next({v as NodeId}, trace[|acts|], a, sys')
    ensures RunOf(trace', acts', v) && trace'[|acts'|] == sys'
  {
    trace', acts' := trace + [sys'], acts + [a];
    forall k | 0 <= k < |acts'| ensures Agreement.Next({v as NodeId}, trace'[k], acts'[k], trace'[k + 1]) {
      if k < |acts| { assert Agreement.Next({v as NodeId}, trace[k], acts[k], trace[k + 1]); }
    }
  }

  /** Replica `i` takes a step; the others do not change. */
  lemma Moves(
    trace: seq<System>, acts: seq<Action>, v: First, i: NodeId, e: Event, r': Replica, sent: Option<ConsensusMessage>)
    returns (trace': seq<System>, acts': seq<Action>)
    requires RunOf(trace, acts, v) && i != v && i < 4
    requires Does(trace[|acts|].replicas[i], e, r', sent)
    requires e.Deliver? || e.Defer? ==> e.message in trace[|acts|].net
    ensures RunOf(trace', acts', v)
    ensures var sys, sys' := trace[|acts|], trace'[|acts'|];
            && sys'.replicas == sys.replicas[i := r']
            && sys'.net == sys.net + if sent.Some? then {By(i, sent.value)} else {}
  {
    var sys := trace[|acts|];
    var sys' := System(sys.replicas[i := r'], sys.net + Broadcast(i, sent, 0));
    trace', acts' := Act(trace, acts, v, Local(i, e, 0), sys');
  }

  /** The other replicas are as before. */
  ghost predicate OnlyMoved(sys: System, sys': System, i: NodeId) {
    && |sys'.replicas| == |sys.replicas| && sys.net <= sys'.net
    && forall j :: 0 <= j < |sys.replicas| && j != i ==> sys'.replicas[j] == sys.replicas[j]
  }

  /** Replica `i` takes the proposal of request `x`. */
  lemma Joins(trace: seq<System>, acts: seq<Action>, v: First, i: NodeId, x: nat)
    returns (trace': seq<System>, acts': seq<Action>)
    requires RunOf(trace, acts, v) && i != v && i < 4
    requires trace[|acts|].replicas[i] == Initial(i, ViewInfo(v, FOUR), 1)
    requires By(v, Proposal(v, x)) in trace[|acts|].net
    ensures RunOf(trace', acts', v) && OnlyMoved(trace[|acts|], trace'[|acts'|], i)
    ensures In(trace'[|acts'|].replicas[i], i, v, x, Preparing(1), {By(v, Proposal(v, x))})
    ensures PrepareBy(i, v, x) in trace'[|acts'|].net
  {
    var r1 := GetsRequest(i, v, x);
    var r2 := GetsReady(r1, i, v, x);
    var r3 := TakesProposal(r2, i, v, x);
    trace', acts' := Moves(trace, acts, v, i, ClientRequest(EmptyRequest(x)), r1, None);
    trace', acts' := Moves(trace', acts', v, i, TryPropose(Some([EmptyDigest(x)])), r2, None);
    trace', acts' := Moves(
      trace', acts', v, i, Deliver(By(v, Proposal(v, x))), r3, Some(PrepareBy(i, v, x).message));
  }

  /** Replica `i` counts PREPAREs of `j` and `k`, and writes. */
  lemma Writes(trace: seq<System>, acts: seq<Action>, v: First, i: NodeId, x: nat, j: NodeId, k: NodeId)
    returns (trace': seq<System>, acts': seq<Action>)
    requires RunOf(trace, acts, v) && i != v && i < 4 && j != k
    requires In(trace[|acts|].replicas[i], i, v, x, Preparing(1), {By(v, Proposal(v, x))})
    requires PrepareBy(j, v, x) in trace[|acts|].net && PrepareBy(k, v, x) in trace[|acts|].net
    ensures RunOf(trace', acts', v) && OnlyMoved(trace[|acts|], trace'[|acts'|], i)
    ensures In(trace'[|acts'|].replicas[i], i, v, x, Committing(0),
               {By(v, Proposal(v, x)), PrepareBy(j, v, x), PrepareBy(k, v, x)})
    ensures CommitBy(i, v, x) in trace'[|acts'|].net
  {
    var pp, one, two := By(v, Proposal(v, x)), PrepareBy(j, v, x), PrepareBy(k, v, x);
    var r1 := TakesPrepare(trace[|acts|].replicas[i], i, v, x, 1, {pp}, j);
    assert {pp} + {one} == {pp, one} && {pp, one} + {two} == {pp, one, two};
    var r2 := TakesPrepare(r1, i, v, x, 2, {pp, one}, k);
    trace', acts' := Moves(trace, acts, v, i, Deliver(one), r1, None);
    trace', acts' := Moves(trace', acts', v, i, Deliver(two), r2, Some(CommitBy(i, v, x).message));
  }

  /** Replica `i` decides on COMMITs of its own, of `j` and of `k`. */
  lemma Decides(
    trace: seq<System>, acts: seq<Action>, v: First, i: NodeId, x: nat, received: set<Msg>, j: NodeId, k: NodeId)
    returns (trace': seq<System>, acts': seq<Action>)
    requires RunOf(trace, acts, v) && i != v && i < 4 && i != j && i != k && j != k
    requires In(trace[|acts|].replicas[i], i, v, x, Committing(0), received)
    requires forall m :: m in received ==> !m.message.kind.Commit?
    requires CommitBy(i, v, x) in trace[|acts|].net && CommitBy(j, v, x) in trace[|acts|].net
    requires CommitBy(k, v, x) in trace[|acts|].net
    ensures RunOf(trace', acts', v) && OnlyMoved(trace[|acts|], trace'[|acts'|], i)
    ensures HasDecided(trace'[|acts'|].replicas[i], v, x)
  {
    var one, two, three := CommitBy(i, v, x), CommitBy(j, v, x), CommitBy(k, v, x);
    var r1 := TakesCommit(trace[|acts|].replicas[i], i, v, x, 0, received, i);
    var r2 := TakesCommit(r1, i, v, x, 1, received + {one}, j);
    var r3 := TakesLastCommit(r2, i, v, x, received + {one} + {two}, k);
    trace', acts' := Moves(trace, acts, v, i, Deliver(one), r1, None);
    trace', acts' := Moves(trace', acts', v, i, Deliver(two), r2, None);
    trace', acts' := Moves(trace', acts', v, i, Deliver(three), r3, None);
  }

  ghost predicate HasDecided(r: Replica, v: First, x: nat) {
    && |r.decisions| == 1 && r.decisions[0].seqNo == 0 && r.decisions[0].view == v
    && r.decisions[0].digest == ValueOf(v, x)
  }

  // ---- the run ------------------------------------------------------------------------------

  /** The leader sends two proposals, a PREPARE for one and a COMMIT for the other. */
  lemma LeaderSends(v: First) returns (trace: seq<System>, acts: seq<Action>)
    ensures RunOf(trace, acts, v)
    ensures forall i :: 0 <= i < 4 ==> trace[|acts|].replicas[i] == Initial(i, ViewInfo(v, FOUR), 1)
    ensures trace[|acts|].net == {By(v, Proposal(v, 0)), By(v, Proposal(v, 1)), PrepareBy(v, v, 1), CommitBy(v, v, 0)}
  {
    var replicas := seq(4, (i: nat) => Initial(i, ViewInfo(v, FOUR), 1));
    trace, acts := [System(replicas, {})], [];
    var a, b, c, d := By(v, Proposal(v, 0)), By(v, Proposal(v, 1)), PrepareBy(v, v, 1), CommitBy(v, v, 0);
    trace, acts := Act(trace, acts, v, FaultySend(a), System(replicas, {} + {a}));
    trace, acts := Act(trace, acts, v, FaultySend(b), System(replicas, {} + {a} + {b}));
    trace, acts := Act(trace, acts, v, FaultySend(c), System(replicas, {} + {a} + {b} + {c}));
    trace, acts := Act(trace, acts, v, FaultySend(d), System(replicas, {} + {a} + {b} + {c} + {d}));
  }

  ghost predicate Joined(sys: System, i: NodeId, v: First, x: nat)
    requires i < |sys.replicas|
  {
    In(sys.replicas[i], i, v, x, Preparing(1), {By(v, Proposal(v, x))}) && PrepareBy(i, v, x) in sys.net
  }

  /** The decider and replica 2 take request 0, replica 3 takes request 1. */
  lemma AllJoin(v: First) returns (trace: seq<System>, acts: seq<Action>)
    ensures RunOf(trace, acts, v)
    ensures Joined(trace[|acts|], Decider(v), v, 0) && Joined(trace[|acts|], 2, v, 0) && Joined(trace[|acts|], 3, v, 1)
    ensures PrepareBy(v, v, 1) in trace[|acts|].net && CommitBy(v, v, 0) in trace[|acts|].net
  {
    trace, acts := LeaderSends(v);
    trace, acts := Joins(trace, acts, v, Decider(v), 0);
    trace, acts := Joins(trace, acts, v, 2, 0);
    trace, acts := Joins(trace, acts, v, 3, 1);
  }

  ghost predicate HasWritten(r: Replica, i: NodeId, v: First, x: nat) {
    exists received :: In(r, i, v, x, Committing(0), received)
  }

  /** A run in which one correct replica decides, another one wrote the same, and the third
      wrote something else. */
  ghost predicate Split(trace: seq<System>, acts: seq<Action>, v: First) {
    && RunOf(trace, acts, v)
    && HasDecided(trace[|acts|].replicas[Decider(v)], v, 0)
    && HasWritten(trace[|acts|].replicas[2], 2, v, 0) && HasWritten(trace[|acts|].replicas[3], 3, v, 1)
  }

  lemma Splits(v: First) returns (trace: seq<System>, acts: seq<Action>)
    ensures Split(trace, acts, v)
  {
    var a := Decider(v);
    trace, acts := AllJoin(v);
    trace, acts := Writes(trace, acts, v, a, 0, a, 2);
    trace, acts := Writes(trace, acts, v, 2, 0, a, 2);
    trace, acts := Writes(trace, acts, v, 3, 1, 3, v);
    trace, acts := Decides(
      trace, acts, v, a, 0, {By(v, Proposal(v, 0)), PrepareBy(a, v, 0), PrepareBy(2, v, 0)}, 2, v);
  }

  // ---- the collects ---------------------------------------------------------------------------

  function Report(v: First, x: nat): CollectData {
    var w := ViewDecision(v, ValueOf(v, x)); CollectData(IncompleteProof(0, [w], Some(w)), None)
  }

  lemma Reports(r: Replica, i: NodeId, v: First, x: nat)
    requires LogInv(r) && HasWritten(r, i, v, x)
    ensures CorrectCollect(r, FOUR, v, Report(v, x))
  {
    var received :| In(r, i, v, x, Committing(0), received);
    var pp := r.log.declog.prePrepares;
    assert pp[..0] == [] && Count(pp, For(0)) == 1;
    CertificateExactly(r);
    assert FaithfulCertificate(r);
  }

  /** Replicas 2 and 3 and the leader contribute after the run. */
  function Contribute(v: First, end: nat, claim: CollectData): Collects {
    Collects([2, 3, v as NodeId], [Report(v, 0), Report(v, 1), claim], [end, end, end])
  }

  lemma ReportsAfter(trace: seq<System>, acts: seq<Action>, v: First, i: NodeId, x: nat)
    requires Split(trace, acts, v) && i < 4 && i != v && HasWritten(trace[|acts|].replicas[i], i, v, x)
    ensures CorrectCollect(trace[|acts|].replicas[i], FOUR, v, Report(v, x))
  {
    RunInv(trace, acts, FOUR, {v as NodeId}, v, 1, |acts|);
    assert ReplicaInv(trace[|acts|].replicas[i], i, FOUR, trace[|acts|].net);
    Reports(trace[|acts|].replicas[i], i, v, x);
  }

  lemma ContributeQuorum(trace: seq<System>, acts: seq<Action>, v: First, m: nat, claim: CollectData)
    requires Split(trace, acts, v) && NamesAtMost(Some(claim), m)
    ensures CollectsFrom(trace, acts, FOUR, {v as NodeId}, m, v, Contribute(v, |acts|, claim))
  {
    var c := Contribute(v, |acts|, claim);
    ReportsAfter(trace, acts, v, 2, 0);
    ReportsAfter(trace, acts, v, 3, 1);
    assert CollectFrom(trace, acts, FOUR, v, c, 0) && CollectFrom(trace, acts, FOUR, v, c, 1);
  }

  /** What the verdict is about. */
  function Normal(v: First, claim: CollectData): Normalized {
    [Some(Report(v, 0)), Some(Report(v, 1)), Normalize(0, claim)]
  }

  lemma NormalIsNormal(v: First, end: nat, claim: CollectData, valid: Msg -> bool)
    requires claim.lastProof.None?
    ensures CurrentCid(FOUR, valid, Contribute(v, end, claim).data) == 0
    ensures NormalizeAll(0, Contribute(v, end, claim).data) == Normal(v, claim)
  {
    NoProofs(FOUR, valid, Contribute(v, end, claim).data);
  }

  lemma CountThree<T>(a: T, b: T, c: T, q: T -> bool)
    ensures Count([a, b, c], q) == (if q(a) then 1 else 0) + (if q(b) then 1 else 0) + (if q(c) then 1 else 0)
  {
    CountAppend([], a, q);
    CountAppend([a], b, q);
    CountAppend([a, b], c, q);
    assert [] + [a] == [a] && [a] + [b] == [a, b] && [a, b] + [c] == [a, b, c];
  }

  lemma SumThree<T>(a: T, b: T, c: T, g: T -> nat)
    ensures Sum([a, b, c], g) == g(a) + g(b) + g(c)
  {
    assert [a][..0] == [];
    assert Sum([a], g) == g(a);
    assert [a, b][..1] == [a];
    assert Sum([a, b], g) == g(a) + g(b);
    assert [a, b, c][..2] == [a, b];
  }

  /** A replica decided `d` in view `v`, a quorum of collects came in, and the new leader is
      free or bound to another value. */
  ghost predicate GivesUp(
    trace: seq<System>, acts: seq<Action>, v: First, m: nat, gap: nat, valid: Msg -> bool, c: Collects) {
    && Split(trace, acts, v) && CollectsFrom(trace, acts, FOUR, {v as NodeId}, m, v, c)
    && CurrentCid(FOUR, valid, c.data) == 0 && Within(NormalizeAll(0, c.data), gap)
    && !KeepsValue(FOUR, NormalizeAll(0, c.data), ValueOf(v, 0))
  }

  /** In view 0 everything written counts as nothing written: the new leader is free. */
  lemma GivenUpInViewZero(valid: Msg -> bool) returns (trace: seq<System>, acts: seq<Action>, c: Collects)
    ensures GivesUp(trace, acts, 0, 0, 0, valid, c)
    ensures SoundAnswer(FOUR, NormalizeAll(0, c.data), Unbound(true))
  {
    var claim := CollectData(IncompleteProof(0, [], None), None);
    trace, acts := Splits(0);
    c := Contribute(0, |acts|, claim);
    ContributeQuorum(trace, acts, 0, 0, claim);
    NormalIsNormal(0, |acts|, claim, valid);
    FreeInViewZero(claim);
  }

  lemma FreeInViewZero(claim: CollectData)
    requires claim == CollectData(IncompleteProof(0, [], None), None)
    ensures var cs := Normal(0, claim);
            Within(cs, 0) && SoundAnswer(FOUR, cs, Unbound(true)) && !KeepsValue(FOUR, cs, ValueOf(0, 0))
  {
    var cs := Normal(0, claim);
    CountThree(cs[0], cs[1], cs[2], Unwritten());
    forall ts, d ensures !Binds(FOUR, ts, d, cs) { CountThree(cs[0], cs[1], cs[2], WroteAtMost(ts, d)); }
    assert SoundAnswer(FOUR, cs, Unbound(true));
    assert MentionsBetween(cs[0], 0, 0) && MentionsBetween(cs[1], 0, 0) && MentionsBetween(cs[2], 0, 0);
    ViewsBetween(cs, 0, 0);
  }

  /** The leader claims that the value of the third replica was written in view `ts`, `m`
      times over. */
  function Claim(ts: SeqNo, m: nat): CollectData {
    Repeated(m, ViewDecision(ts, ValueOf(1, 1))).value
  }

  lemma ClaimBinds(ts: SeqNo, m: nat)
    requires ts > 1 && m + (if ts > OVERFLOW_THRES + 1 then 1 else 0) >= 2
    ensures Binds(FOUR, ts, ValueOf(1, 1), Normal(1, Claim(ts, m)))
  {
    var cs, w := Normal(1, Claim(ts, m)), ValueOf(1, 1);
    CountThree(cs[0], cs[1], cs[2], WroteAtMost(ts, w));
    CountThree(cs[0], cs[1], cs[2], WroteExactly(ts, w));
    SumThree(cs[0], cs[1], cs[2], Named(ts, w));
    RepeatedNames(m, ViewDecision(ts, w));
    var ws := [ViewDecision(1, w)];
    CountPositive(ws, NamesSince(ts, w));
    OrdersAgreeInWindow(1, ts);
    assert ts > OVERFLOW_THRES + 1 ==> NamesSince(ts, w)(ws[0]);
  }

  /** A claim that binds overturns the decision. */
  lemma ClaimOverturns(ts: SeqNo, m: nat, valid: Msg -> bool)
    returns (trace: seq<System>, acts: seq<Action>, c: Collects)
    requires ts > 1 && m + (if ts > OVERFLOW_THRES + 1 then 1 else 0) >= 2
    ensures GivesUp(trace, acts, 1, m, ts - 1, valid, c)
    ensures SoundAnswer(FOUR, NormalizeAll(0, c.data), Bound(ValueOf(1, 1)))
  {
    var claim := Claim(ts, m);
    trace, acts := Splits(1);
    c := Contribute(1, |acts|, claim);
    RepeatedNames(m, ViewDecision(ts, ValueOf(1, 1)));
    ContributeQuorum(trace, acts, 1, m, claim);
    NormalIsNormal(1, |acts|, claim, valid);
    ClaimBinds(ts, m);
    Overturned(FOUR, Normal(1, claim), ts, ValueOf(1, 1), ValueOf(1, 0));
    ClaimWithin(ts, m);
  }

  lemma ClaimWithin(ts: SeqNo, m: nat)
    requires ts > 1
    ensures Within(Normal(1, Claim(ts, m)), ts - 1)
  {
    var cs := Normal(1, Claim(ts, m));
    assert MentionsBetween(cs[0], 1, ts) && MentionsBetween(cs[1], 1, ts) && MentionsBetween(cs[2], 1, ts);
    ViewsBetween(cs, 1, ts);
  }

  /** Two mentions of a value in one faulty collect bind it. */
  lemma GivenUpByRepeats(m: nat, valid: Msg -> bool) returns (trace: seq<System>, acts: seq<Action>, c: Collects)
    requires m >= 2
    ensures GivesUp(trace, acts, 1, m, 1, valid, c)
  {
    trace, acts, c := ClaimOverturns(2, m, valid);
  }

  /** 10001 views ahead one mention will do, with the help of the third replica's. */
  lemma GivenUpFarAway(valid: Msg -> bool) returns (trace: seq<System>, acts: seq<Action>, c: Collects)
    ensures GivesUp(trace, acts, 1, 1, OVERFLOW_THRES + 1, valid, c)
  {
    trace, acts, c := ClaimOverturns(OVERFLOW_THRES + 2, 1, valid);
  }

  // ---- exactly when, over all runs --------------------------------------------------------------

  /** A correct replica decides in the first view, and a quorum contributes to a view change
      for that instance. */
  ghost predicate Contested(
    trace: seq<System>, acts: seq<Action>, v: First, m: nat, gap: nat, valid: Msg -> bool, i: NodeId, c: Collects) {
    && Run(trace, acts, FOUR, {v as NodeId}, v, 1) && Accepts(valid, trace[|acts|].net)
    && |trace[|acts|].replicas| == 4 && i < 4 && i != v
    && |trace[|acts|].replicas[i].decisions| > 0
    && var d := trace[|acts|].replicas[i].decisions[0];
       && d.view == v && CollectsFrom(trace, acts, FOUR, {v as NodeId}, m, v, c)
       && CurrentCid(FOUR, valid, c.data) == d.seqNo && Within(NormalizeAll(d.seqNo, c.data), gap)
  }

  ghost predicate RunsKeep(v: First, m: nat, gap: nat, valid: Msg -> bool) {
    forall trace: seq<System>, acts: seq<Action>, i: NodeId, c: Collects ::
      Contested(trace, acts, v, m, gap, valid, i, c) ==>
      var d := trace[|acts|].replicas[i].decisions[0];
      KeepsValue(FOUR, NormalizeAll(d.seqNo, c.data), d.digest)
  }

  function Everything(): Msg -> bool {
    (m: Msg) => true
  }

  lemma SafeRunsKeep(v: First, m: nat, gap: nat)
    requires Safe(FOUR, 1, m, v, gap)
    ensures RunsKeep(v, m, gap, Everything())
  {
    forall trace: seq<System>, acts: seq<Action>, i: NodeId, c: Collects |
      Contested(trace, acts, v, m, gap, Everything(), i, c)
      ensures var d := trace[|acts|].replicas[i].decisions[0];
              KeepsValue(FOUR, NormalizeAll(d.seqNo, c.data), d.digest)
    {
      DecidedValueSurvives(
        trace, acts, FOUR, {v as NodeId}, v, 1, |acts|, i, 0, Everything(), m, gap, c);
    }
  }

  lemma NotKept(trace: seq<System>, acts: seq<Action>, v: First, m: nat, gap: nat, m': nat, gap': nat, c: Collects)
    requires GivesUp(trace, acts, v, m, gap, Everything(), c) && m <= m' && gap <= gap'
    ensures !RunsKeep(v, m', gap', Everything())
  {
    assert Contested(trace, acts, v, m', gap', Everything(), Decider(v), c);
  }

  lemma ZeroFails(m: nat, gap: nat)
    ensures !RunsKeep(0, m, gap, Everything())
  {
    var trace, acts, c := GivenUpInViewZero(Everything());
    NotKept(trace, acts, 0, 0, 0, m, gap, c);
  }

  lemma RepeatsFail(m: nat, gap: nat)
    requires m >= 2 && gap >= 1
    ensures !RunsKeep(1, m, gap, Everything())
  {
    var trace, acts, c := GivenUpByRepeats(m, Everything());
    NotKept(trace, acts, 1, m, 1, m, gap, c);
  }

  lemma FarViewsFail(m: nat, gap: nat)
    requires m >= 1 && gap > OVERFLOW_THRES
    ensures !RunsKeep(1, m, gap, Everything())
  {
    var trace, acts, c := GivenUpFarAway(Everything());
    NotKept(trace, acts, 1, 1, OVERFLOW_THRES + 1, m, gap, c);
  }

  /** With four replicas, one of them faulty, all runs keep what is decided in the first view
      `v` if and only if `Safe` holds: `v` is not 0 and, unless all views are the same, the
      faulty collect names no value twice and no two views are more than 10000 apart. */
  lemma RunsKeepExactly(v: First, m: nat, gap: nat)
    requires m >= 1
    ensures RunsKeep(v, m, gap, Everything()) <==> Safe(FOUR, 1, m, v, gap)
  {
    if Safe(FOUR, 1, m, v, gap) {
      SafeRunsKeep(v, m, gap);
    } else if v == 0 {
      ZeroFails(m, gap);
    } else if m >= 2 {
      RepeatsFail(m, gap);
    } else {
      FarViewsFail(m, gap);
    }
  }
}
