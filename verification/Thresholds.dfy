/** How little a synchronizer may go by: the fewest senders of STOPs that install a view,
    and the collects a follower accepts (src/bft/sync/mod.rs). */
module Thresholds {
  import opened Wrappers
  import opened Ordering
  import opened Core
  import opened Messages
  import opened Counting
  import opened Soundness
  import opened DecidedValue
  import opened Synchronizers

  // ---- senders of STOPs -----------------------------------------------------------------

  function StopFrom(view: SeqNo, from: NodeId): Vc {
    Stored(Header(from, Zero, 0), VcMessage(view, Stop([])))
  }

  function AnyEnv(me: NodeId): Env {
    Env(me, 0, [], (m: Msg) => true, (m: Vc) => true, [], Unbound(false))
  }

  /** On the way to the next view, with STOPs of `counted` behind it and `buffered` ones in
      the buffer. */
  ghost predicate Stage(t: Traced, view: ViewInfo, phase: SyncPhase, buffered: set<NodeId>, counted: seq<NodeId>) {
    && t.state.view == view && t.state.phase == phase && t.state.stopped.Keys == buffered
    && t.counted == counted && t.installs == [] && !t.timedOut
  }

  lemma QueuedAlone(curr: SeqNo, m: Vc)
    ensures QueueMessage(curr, [], curr, m) == [[m]]
  {
    assert Index(curr, curr) == At(0);
    assert Padded<Vc>([], 0 + 1) == [[]];
    var one: Buckets<Vc> := [[]];
    assert [] + [m] == [m];
    assert QueueMessage(curr, [], curr, m) == one[0 := one[0] + [m]] == [[m]];
  }

  /** Polling the STOP that arrived while idle starts the count. */
  lemma PolledStop(view: ViewInfo, me: NodeId)
    requires view.params.Standard()
    ensures var m := StopFrom(Next(view.seqNo), 0);
            var t := Step(Fresh(view), Receive(m), AnyEnv(me)).value;
            && Step(t, PollNext, AnyEnv(me)).Some? && Subject(t, PollNext).1.phase == Stopping(0)
            && t.state.view == view
            && Stage(Step(t, PollNext, AnyEnv(me)).value, view, Stopping(1), {0}, [0])
  {
    var m := StopFrom(Next(view.seqNo), 0);
    QueuedAlone(Next(view.seqNo), m);
    var t := Step(Fresh(view), Receive(m), AnyEnv(me)).value;
    assert t.state.stop == [[m]];
    assert PopMessage(t.state.stop).0 == Some(m);
  }

  /** A STOP of a sender not in the buffer. */
  lemma StopComes(
    t: Traced, view: ViewInfo, phase: SyncPhase, buffered: set<NodeId>, counted: seq<NodeId>, id: NodeId, me: NodeId)
    requires Stage(t, view, phase, buffered, counted) && view.params.Standard() && id !in buffered
    requires (phase.Stopping? && phase.stops <= view.params.f)
          || (phase.Stopping2? && phase.stops + 1 < view.params.Quorum())
    ensures var r := Step(t, Receive(StopFrom(Next(view.seqNo), id)), AnyEnv(me));
            && r.Some?
            && (phase.Stopping? && phase.stops < view.params.f ==>
                  Stage(r.value, view, Stopping(phase.stops + 1), buffered + {id}, counted + [id]))
            && (phase.Stopping? && phase.stops == view.params.f ==>
                  Stage(r.value, view, Stopping2(phase.stops + 1), {}, counted + [id]))
            && (phase.Stopping2? ==>
                  Stage(r.value, view, Stopping2(phase.stops + 1), buffered + {id}, counted + [id]))
  {
  }

  /** A follower waits for the SYNC of the new view, its leader for STOP-DATA. */
  ghost predicate Installed(s: SyncState, view: ViewInfo, me: NodeId)
    requires view.params.n > 0
  {
    s.view == view.NextView() && s.phase == if me != s.view.Leader() then Syncing else StoppingData(0)
  }

  /** The last one. */
  lemma LastStopComes(t: Traced, view: ViewInfo, buffered: set<NodeId>, counted: seq<NodeId>, id: NodeId, me: NodeId)
    requires Stage(t, view, Stopping2(2 * view.params.f), buffered, counted)
    requires view.params.Standard() && id !in buffered
    ensures var r := Step(t, Receive(StopFrom(Next(view.seqNo), id)), AnyEnv(me));
            && r.Some? && r.value.installs == [Install(Next(view.seqNo), ToSet(counted + [id]), false)]
            && Installed(r.value.state, view, me)
  {
    var m := StopFrom(Next(view.seqNo), id);
    var s' := OnStop(t.state, m, me).state;
    assert s'.view == view.NextView();
    assert Process(t.state, m, AnyEnv(me)) == Some(OnStop(t.state, m, me));
  }

  lemma Extend(trace: seq<Traced>, events: seq<(Event, Env)>, view: ViewInfo, e: Event, env: Env)
    returns (trace': seq<Traced>, events': seq<(Event, Env)>)
    requires Run(trace, events, view) && trace[|events|].state.view.params.n > 0
    requires Legal(trace[|events|], e, env) && Step(trace[|events|], e, env).Some?
    ensures Run(trace', events', view) && trace'[|events'|] == Step(trace[|events|], e, env).value
  {
    var t' := Step(trace[|events|], e, env).value;
    trace', events' := trace + [t'], events + [(e, env)];
    assert Stepped(trace[|events|], e, env, t');
    forall k | 0 <= k < |events'| ensures Stepped(trace'[k], events'[k].0, events'[k].1, trace'[k + 1]) {
      if k < |events| { assert Stepped(trace[k], events[k].0, events[k].1, trace[k + 1]); }
    }
  }

  /** One more STOP in a run. */
  lemma OneMore(
    trace: seq<Traced>, events: seq<(Event, Env)>, view: ViewInfo, me: NodeId,
    phase: SyncPhase, buffered: set<NodeId>, counted: seq<NodeId>, id: NodeId)
    returns (trace': seq<Traced>, events': seq<(Event, Env)>)
    requires Run(trace, events, view) && Stage(trace[|events|], view, phase, buffered, counted) && id !in buffered
    requires (phase.Stopping? && phase.stops <= view.params.f)
          || (phase.Stopping2? && phase.stops + 1 < view.params.Quorum())
    ensures Run(trace', events', view)
    ensures var drains := phase.Stopping? && phase.stops == view.params.f;
            Stage(trace'[|events'|], view,
                  if phase.Stopping2? || drains then Stopping2(phase.stops + 1) else Stopping(phase.stops + 1),
                  if drains then {} else buffered + {id}, counted + [id])
  {
    StopComes(trace[|events|], view, phase, buffered, counted, id, me);
    trace', events' := Extend(trace, events, view, Receive(StopFrom(Next(view.seqNo), id)), AnyEnv(me));
  }

  lemma LastOne(
    trace: seq<Traced>, events: seq<(Event, Env)>, view: ViewInfo, me: NodeId,
    buffered: set<NodeId>, counted: seq<NodeId>, id: NodeId)
    returns (trace': seq<Traced>, events': seq<(Event, Env)>)
    requires Run(trace, events, view) && id !in buffered
    requires Stage(trace[|events|], view, Stopping2(2 * view.params.f), buffered, counted)
    ensures Run(trace', events', view)
    ensures trace'[|events'|].installs == [Install(Next(view.seqNo), ToSet(counted + [id]), false)]
    ensures Installed(trace'[|events'|].state, view, me)
  {
    LastStopComes(trace[|events|], view, buffered, counted, id, me);
    trace', events' := Extend(trace, events, view, Receive(StopFrom(Next(view.seqNo), id)), AnyEnv(me));
  }

  /** The nodes from 0 up to `j`. */
  function Ids(j: nat): (ids: seq<NodeId>)
    ensures |ids| == j && forall i :: 0 <= i < j ==> ids[i] == i
  {
    seq(j, i => i)
  }

  lemma IdsGrow(j: nat)
    ensures Ids(j + 1) == Ids(j) + [j] && j !in ToSet(Ids(j))
    ensures ToSet(Ids(j + 1)) == ToSet(Ids(j)) + {j}
  {
    InsertSender(Ids(j), j);
  }

  lemma {:induction false} HowManyIds(j: nat)
    ensures |ToSet(Ids(j))| == j
  {
    if j > 0 {
      HowManyIds(j - 1);
      IdsGrow(j - 1);
    }
  }

  /** STOPs of the first `j` nodes. */
  lemma {:induction false} FirstStops(view: ViewInfo, me: NodeId, j: nat)
    returns (trace: seq<Traced>, events: seq<(Event, Env)>)
    requires view.params.Standard() && 1 <= j <= view.params.f
    ensures Run(trace, events, view) && Stage(trace[|events|], view, Stopping(j), ToSet(Ids(j)), Ids(j))
  {
    if j == 1 {
      PolledStop(view, me);
      trace, events := Extend([Fresh(view)], [], view, Receive(StopFrom(Next(view.seqNo), 0)), AnyEnv(me));
      trace, events := Extend(trace, events, view, PollNext, AnyEnv(me));
      IdsGrow(0);
      assert Ids(0) == [] && ToSet([]) == {} && [] + [0] == [0];
    } else {
      IdsGrow(j - 1);
      trace, events := FirstStops(view, me, j - 1);
      trace, events := OneMore(trace, events, view, me, Stopping(j - 1), ToSet(Ids(j - 1)), Ids(j - 1), j - 1);
    }
  }

  /** After `f + 1` STOPs the buffer is drained. */
  lemma Drained(view: ViewInfo, me: NodeId) returns (trace: seq<Traced>, events: seq<(Event, Env)>)
    requires view.params.Standard()
    ensures Run(trace, events, view)
    ensures Stage(trace[|events|], view, Stopping2(view.params.f + 1), {}, Ids(view.params.f + 1))
  {
    var f := view.params.f;
    IdsGrow(f);
    trace, events := FirstStops(view, me, f);
    trace, events := OneMore(trace, events, view, me, Stopping(f), ToSet(Ids(f)), Ids(f), f);
  }

  /** And then the first `j` nodes count again. */
  lemma {:induction false} StopsAgain(view: ViewInfo, me: NodeId, j: nat)
    returns (trace: seq<Traced>, events: seq<(Event, Env)>)
    requires view.params.Standard() && j < view.params.f
    ensures Run(trace, events, view)
    ensures Stage(trace[|events|], view, Stopping2(view.params.f + 1 + j), ToSet(Ids(j)),
                  Ids(view.params.f + 1) + Ids(j))
  {
    var first := Ids(view.params.f + 1);
    if j == 0 {
      trace, events := Drained(view, me);
      assert first + Ids(0) == first && ToSet(Ids(0)) == {};
    } else {
      IdsGrow(j - 1);
      var counted := first + Ids(j - 1);
      assert counted + [j - 1] == first + Ids(j);
      trace, events := StopsAgain(view, me, j - 1);
      trace, events := OneMore(
        trace, events, view, me, Stopping2(view.params.f + j), ToSet(Ids(j - 1)), counted, j - 1);
    }
  }

  /** The bound of `f + 1` senders is tight for every size of the system: STOPs of the
      nodes 0 to `f`, and then of all but the last again, install a view. */
  lemma FewestSenders(view: ViewInfo, me: NodeId) returns (trace: seq<Traced>, events: seq<(Event, Env)>)
    requires view.params.Standard()
    ensures Run(trace, events, view)
    ensures |trace[|events|].installs| == 1
    ensures var i := trace[|events|].installs[0];
            i.view == Next(view.seqNo) && |i.senders| == view.params.f + 1 && !i.timedOut
    ensures Installed(trace[|events|].state, view, me)
  {
    var f := view.params.f;
    trace, events := StopsAgain(view, me, f - 1);
    IdsGrow(f - 1);
    trace, events := LastOne(trace, events, view, me, ToSet(Ids(f - 1)), Ids(f + 1) + Ids(f - 1), f - 1);
    assert (Ids(f + 1) + Ids(f - 1)) + [f - 1] == Ids(f + 1) + Ids(f);
    RepeatsAddNothing(Ids(f + 1), f);
    HowManyIds(f + 1);
  }

  lemma RepeatsAddNothing(ids: seq<NodeId>, j: nat)
    requires j <= |ids| && ids[..j] == Ids(j)
    ensures ToSet(ids + Ids(j)) == ToSet(ids)
  {
    forall x | x in ToSet(ids + Ids(j)) ensures x in ToSet(ids) {
      var i :| 0 <= i < |ids + Ids(j)| && (ids + Ids(j))[i] == x;
      assert x == if i < |ids| then ids[i] else ids[..j][i - |ids|];
    }
    forall x | x in ToSet(ids) ensures x in ToSet(ids + Ids(j)) {
      var i :| 0 <= i < |ids| && ids[i] == x;
      assert (ids + Ids(j))[i] == x;
    }
  }

  // ---- the instance a leader finishes for -----------------------------------------------------

  /** A view change that finishes is for the instance the replica is executing, unless the
      replica is the leader. */
  lemma FollowerChecksInstance(s: SyncState, m: Vc, env: Env)
    requires s.view.params.n > 0 && Process(s, m, env).Some? && Process(s, m, env).value.status.NewView?
    ensures s.phase.StoppingData? || s.phase.Syncing?
    ensures s.phase.Syncing? ==> Process(s, m, env).value.status.settled.currCid == env.executing
  {
  }

  /** A STOP-DATA of a replica that has decided and written nothing. */
  function EmptyData(view: SeqNo, from: NodeId): Vc {
    Stored(Header(from, Zero, 0), VcMessage(view, StopData(CollectData(IncompleteProof(0, [], None), None))))
  }

  function EmptyDatas(view: SeqNo, j: nat): (list: seq<Vc>)
    ensures |list| == j && forall i :: 0 <= i < j ==> list[i] == EmptyData(view, i)
  {
    seq(j, (i: nat) => EmptyData(view, i))
  }

  /** The leader has those of the first `j` nodes. */
  ghost predicate HasData(s: SyncState, view: ViewInfo, j: nat) {
    s.view == view && s.phase == StoppingData(j) && Filed(s.collects, view.seqNo, j)
  }

  ghost predicate Filed(collects: map<NodeId, Vc>, view: SeqNo, j: nat) {
    collects.Keys == Range(0, j) && forall i :: 0 <= i < j ==> collects[i] == EmptyData(view, i)
  }

  lemma FileOne(collects: map<NodeId, Vc>, view: SeqNo, j: nat)
    requires Filed(collects, view, j)
    ensures j !in collects && Filed(collects[j := EmptyData(view, j)], view, j + 1)
  {
    assert collects[j := EmptyData(view, j)].Keys == Range(0, j + 1);
  }

  lemma FiledListing(collects: map<NodeId, Vc>, view: SeqNo, j: nat)
    requires Filed(collects, view, j)
    ensures ListingOf(EmptyDatas(view, j), collects)
  {
    assert |collects| == |collects.Keys|;
  }

  lemma TakenData(s: SyncState, m: Vc, env: Env)
    requires s.view.params.n > 0 && TakesData(s, m, env.me)
    ensures Process(s, m, env) == Some(OnStopData(s, m, env))
  {
  }

  lemma DataComes(t: Traced, view: ViewInfo, j: nat, env: Env)
    requires HasData(t.state, view, j) && view.params.n > 0 && view.Leader() == env.me && j < 2 * view.params.f
    ensures var m := EmptyData(view.seqNo, j);
            && Explains(t.state, m, env) && Step(t, Receive(m), env).Some?
            && HasData(Step(t, Receive(m), env).value.state, view, j + 1)
  {
    var m := EmptyData(view.seqNo, j);
    FileOne(t.state.collects, view.seqNo, j);
    TakenData(t.state, m, env);
    var r := OnStopData(t.state, m, env);
    assert r.state == t.state.(collects := t.state.collects[j := m], phase := StoppingData(j + 1));
    assert Step(t, Receive(m), env) == Some(Record(t, m, r));
  }

  /** STOP-DATA of the first `j` nodes. */
  lemma {:induction false} FirstData(view: ViewInfo, me: NodeId, j: nat)
    returns (trace: seq<Traced>, events: seq<(Event, Env)>)
    requires view.params.Standard() && me == view.NextView().Leader() && j <= 2 * view.params.f
    ensures Run(trace, events, view) && HasData(trace[|events|].state, view.NextView(), j)
  {
    if j == 0 {
      trace, events := FewestSenders(view, me);
      RunKeeps(trace, events, view, |events|);
      assert trace[|events|].state.collects == map[];
    } else {
      trace, events := FirstData(view, me, j - 1);
      DataComes(trace[|events|], view.NextView(), j - 1, AnyEnv(me));
      trace, events := Extend(
        trace, events, view, Receive(EmptyData(view.NextView().seqNo, j - 1)), AnyEnv(me));
    }
  }

  lemma {:induction false} CollectsOfEmpty(view: SeqNo, j: nat)
    ensures CollectsOf(EmptyDatas(view, j)) == seq(j, _ => CollectData(IncompleteProof(0, [], None), None))
  {
    if j > 0 {
      assert EmptyDatas(view, j)[..j - 1] == EmptyDatas(view, j - 1);
      CollectsOfEmpty(view, j - 1);
    }
  }

  /** Nothing written: instance 0, and the leader is free. */
  lemma EmptyAnswer(p: Params, valid: Msg -> bool, view: SeqNo)
    ensures var cs := CollectsOf(EmptyDatas(view, p.Quorum()));
            CurrentCid(p, valid, cs) == 0 && SoundAnswer(p, NormalizeAll(0, cs), Unbound(true))
  {
    var n, c := p.Quorum(), CollectData(IncompleteProof(0, [], None), None);
    CollectsOfEmpty(view, n);
    var cs := CollectsOf(EmptyDatas(view, n));
    NoProofs(p, valid, cs);
    assert NormalizeAll(0, cs) == seq(n, _ => Some(c));
    ConstantCounts(n, Some(c), Unwritten());
    forall ts, d ensures !Binds(p, ts, d, NormalizeAll(0, cs)) { ConstantCounts(n, Some(c), WroteExactly(ts, d)); }
  }

  /** The leader does not check: whatever instance it is executing, there is a run in which
      it finishes a view change for instance 0. */
  lemma LeaderFinishesElsewhere(view: ViewInfo, me: NodeId, executing: SeqNo, offer: seq<Digest>)
    returns (trace: seq<Traced>, events: seq<(Event, Env)>, m: Vc, env: Env)
    requires view.params.Standard() && me == view.NextView().Leader()
    ensures Run(trace, events, view) && env.me == me && env.executing == executing
    ensures trace[|events|].state.view == view.NextView() && Explains(trace[|events|].state, m, env)
    ensures Process(trace[|events|].state, m, env).Some?
    ensures Process(trace[|events|].state, m, env).value.status == NewView(FinalizeState(0, offer, Unbound(true)))
  {
    var p, v := view.params, view.NextView().seqNo;
    trace, events := FirstData(view, me, 2 * p.f);
    m := EmptyData(v, 2 * p.f);
    env := AnyEnv(me).(executing := executing, offer := offer, listing := EmptyDatas(v, p.Quorum()),
                       answer := Unbound(true));
    EmptyAnswer(p, env.valid, v);
    LastDataComes(trace[|events|].state, view.NextView(), env);
  }

  lemma LastDataComes(s: SyncState, view: ViewInfo, env: Env)
    requires HasData(s, view, 2 * view.params.f) && view.params.n > 0 && view.Leader() == env.me
    requires env.listing == EmptyDatas(view.seqNo, view.params.Quorum()) && env.answer == Unbound(true)
    requires CidOf(s, env, env.listing) == 0 && Answers(s, env, env.listing)
    ensures var m := EmptyData(view.seqNo, 2 * view.params.f);
            && Explains(s, m, env) && Process(s, m, env).Some?
            && Process(s, m, env).value.status == NewView(FinalizeState(0, env.offer, Unbound(true)))
  {
    var m := EmptyData(view.seqNo, 2 * view.params.f);
    FileOne(s.collects, view.seqNo, 2 * view.params.f);
    FiledListing(s.collects[m.header.from := m], view.seqNo, view.params.Quorum());
    TakenData(s, m, env);
  }

  // ---- collects a follower accepts ------------------------------------------------------------

  ghost predicate DoesNotName(c: Option<CollectData>, w: Digest) {
    c.Some? ==> forall i :: 0 <= i < |c.value.incomplete.writeSet| ==> c.value.incomplete.writeSet[i].digest != w
  }

  /** A quorum of collects, at most `k` of them bad, of which only the bad ones name `w`,
      up to `m` times each. */
  ghost predicate Foreign(p: Params, cs: Normalized, bad: set<nat>, k: nat, m: nat, w: Digest) {
    && |cs| == p.Quorum() && |bad| <= k
    && (forall i :: 0 <= i < |cs| && i in bad ==> NamesAtMost(cs[i], m))
    && (forall i :: 0 <= i < |cs| && i !in bad ==> DoesNotName(cs[i], w))
  }

  lemma NeverNamed(c: Option<CollectData>, ts: SeqNo, w: Digest)
    requires DoesNotName(c, w)
    ensures Named(ts, w)(c) == 0
  {
    if c.Some? { CountPositive(c.value.incomplete.writeSet, NamesSince(ts, w)); }
  }

  lemma ForeignFails(p: Params, cs: Normalized, bad: set<nat>, k: nat, m: nat, w: Digest)
    requires Foreign(p, cs, bad, k, m, w) && k * m <= p.f
    ensures !SoundAnswer(p, cs, Bound(w))
  {
    TimesMonotone(|bad|, k, m);
    forall ts ensures !CertifiedValue(p, ts, w, cs) { ForeignMentions(p, cs, bad, k, m, ts, w); }
  }

  lemma ForeignMentions(p: Params, cs: Normalized, bad: set<nat>, k: nat, m: nat, ts: SeqNo, w: Digest)
    requires Foreign(p, cs, bad, k, m, w)
    ensures Sum(cs, Named(ts, w)) <= |bad| * m
  {
    forall i | 0 <= i < |cs| ensures Named(ts, w)(cs[i]) <= if i in bad then m else 0 {
      if i in bad { NamedAtMost(cs[i], m, ts, w); } else { NeverNamed(cs[i], ts, w); }
    }
    SumOfFew(cs, Named(ts, w), bad, m);
  }

  /** Mentioned more than `f` times, their own value can be bound. */
  lemma ForeignBinds(p: Params, k: nat, m: nat) returns (cs: Normalized, bad: set<nat>, w: Digest)
    requires k * m > p.f
    ensures Foreign(p, cs, bad, k, m, w) && SoundAnswer(p, cs, Bound(w))
  {
    w := Entropy(Zero, 0);
    var b := Claimants(p, k);
    EnoughClaims(p, k, m);
    var x, y := SimpleCollect([ViewDecision(1, Zero)], ViewDecision(1, Zero)), Repeated(m, ViewDecision(2, w));
    cs := seq(b, _ => y) + seq(p.Quorum() - b, _ => x);
    bad := Range(0, b);
    RepeatedNames(m, ViewDecision(2, w));
    ClaimsBind(p, b, m, x, y, 2, w);
  }

  lemma OneWrite(b: ViewDecision)
    requires b.view >= 0
    ensures Named(b.view, b.digest)(SimpleCollect([b], b)) >= 1
  {
    assert NamesSince(b.view, b.digest)([b][0]);
    CountPositive([b], NamesSince(b.view, b.digest));
  }

  /** A value that only bad collects name is never bound, for all quorums of collects with
      at most `k` bad ones that name it at most `m` times, if and only if `k * m <= f`. */
  lemma ForeignValueExactly(p: Params, k: nat, m: nat)
    ensures (forall cs: Normalized, bad, w :: Foreign(p, cs, bad, k, m, w) ==> !SoundAnswer(p, cs, Bound(w)))
            <==> k * m <= p.f
  {
    if k * m <= p.f {
      forall cs: Normalized, bad, w | Foreign(p, cs, bad, k, m, w) ensures !SoundAnswer(p, cs, Bound(w)) {
        ForeignFails(p, cs, bad, k, m, w);
      }
    } else {
      var cs, bad, w := ForeignBinds(p, k, m);
    }
  }

  /** A collect that names `w` as written in view 1 of instance 0. */
  function Claim(from: NodeId, view: SeqNo, w: Digest): Vc {
    var b := ViewDecision(1, w);
    Stored(Header(from, Zero, 0),
           VcMessage(view, StopData(CollectData(IncompleteProof(0, [b], Some(b)), None))))
  }

  lemma {:induction false} CollectsOfCopies(n: nat, m: Vc)
    requires m.message.kind.StopData?
    ensures CollectsOf(seq(n, _ => m)) == seq(n, _ => m.message.kind.collect)
  {
    if n > 0 {
      assert seq(n, _ => m)[..n - 1] == seq(n - 1, _ => m);
      CollectsOfCopies(n - 1, m);
    }
  }

  lemma {:induction false} SignedCopies(n: nat, m: Vc, check: Vc -> bool)
    requires check(m)
    ensures Signed(seq(n, _ => m), check) == seq(n, _ => m)
  {
    if n > 0 {
      assert seq(n, _ => m)[..n - 1] == seq(n - 1, _ => m);
      SignedCopies(n - 1, m, check);
    }
  }

  lemma CopiesBind(p: Params, valid: Msg -> bool, m: Vc, w: Digest)
    requires m.message == Claim(0, m.message.view, w).message
    ensures var cs := CollectsOf(seq(p.Quorum(), _ => m));
            CurrentCid(p, valid, cs) == 0 && SoundAnswer(p, NormalizeAll(0, cs), Bound(w))
  {
    var n, c := p.Quorum(), m.message.kind.collect;
    CollectsOfCopies(n, m);
    var cs := CollectsOf(seq(n, _ => m));
    NoProofs(p, valid, cs);
    var x := SimpleCollect([ViewDecision(1, w)], ViewDecision(1, w));
    assert NormalizeAll(0, cs) == seq(n, _ => x);
    OneWrite(ViewDecision(1, w));
    ConstantCounts(n, x, WroteAtMost(1, w));
    ConstantCounts(n, x, WroteExactly(1, w));
    SumOfCopies(n, x, Named(1, w));
    assert Binds(p, 1, w, NormalizeAll(0, cs));
  }

  /** A follower looks at neither the number nor the senders of the collects: a SYNC with
      `2f + 1` copies of one signed collect makes it finish with the value named there. */
  lemma FollowerTakesCopies(s: SyncState, env: Env, from: NodeId, w: Digest, proposed: seq<Digest>) returns (m: Vc)
    requires s.phase.Syncing? && s.view.params.n > 0 && env.executing == 0
    requires env.check(Claim(from, s.view.seqNo, w))
    ensures m.message.kind.Sync? && TakesSync(s, m)
    ensures m.message.kind.collects == seq(s.view.params.Quorum(), _ => Claim(from, s.view.seqNo, w))
    ensures var used := env.(listing := m.message.kind.collects, answer := Bound(w));
            && Explains(s, m, used)
            && Process(s, m, used).Some?
            && Process(s, m, used).value.status == NewView(FinalizeState(0, proposed, Bound(w)))
  {
    var n, claim := s.view.params.Quorum(), Claim(from, s.view.seqNo, w);
    m := Stored(Header(s.view.Leader(), Zero, 0), VcMessage(s.view.seqNo, Sync(proposed, seq(n, _ => claim))));
    SignedCopies(n, claim, env.check);
    CopiesBind(s.view.params, env.valid, claim, w);
    FollowerFinishes(s, m, env.(listing := seq(n, _ => claim), answer := Bound(w)));
  }

  lemma FollowerFinishes(s: SyncState, m: Vc, env: Env)
    requires s.view.params.n > 0 && TakesSync(s, m) && Test(env.answer) && env.executing == CidOf(s, env, env.listing)
    ensures Process(s, m, env).Some?
    ensures Process(s, m, env).value.status ==
            NewView(FinalizeState(env.executing, m.message.kind.proposed, env.answer))
  {
  }
}
