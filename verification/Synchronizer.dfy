/** The view change state machine: STOP, STOP-DATA, SYNC (src/bft/sync/mod.rs). */
module Synchronizers {
  import opened Wrappers
  import opened Ordering
  import opened Core
  import opened Messages
  import opened Soundness

  datatype VcKind =
    | Stop(requests: seq<Request>)
    | StopData(collect: CollectData)
    | Sync(proposed: seq<Digest>, collects: seq<Stored<VcMessage>>)

  datatype VcMessage = VcMessage(view: SeqNo, kind: VcKind)

  type Vc = Stored<VcMessage>

  datatype SyncPhase =
    | Init
    | Stopping(stops: nat)
    | Stopping2(stops: nat)
    | StoppingData(datas: nat)
    | Syncing
    | SyncingState

  /** The value a finished view change settles on. */
  datatype FinalizeState = FinalizeState(currCid: SeqNo, proposed: seq<Digest>, sound: Sound)

  datatype Status = Nil | Running | NewView(settled: FinalizeState) | RunCst

  datatype Outgoing =
    | Nothing
    | BroadcastStop(view: SeqNo)
    | SendStopData(view: SeqNo, to: NodeId)
    | BroadcastSync(view: SeqNo, proposed: seq<Digest>, collects: seq<Vc>)

  datatype SyncState = SyncState(
    view: ViewInfo, phase: SyncPhase, stopped: map<NodeId, seq<Request>>, collects: map<NodeId, Vc>,
    getQueue: bool, stop: Buckets<Vc>, stopData: Buckets<Vc>, sync: Buckets<Vc>,
    finalizeState: Option<FinalizeState>)

  datatype Reaction = Reaction(state: SyncState, status: Status, sent: Outgoing)

  /** What the rest of the replica contributes to a step: its id, the instance its log
      is executing, the batch it would propose and the signature checks. The last two
      are what the step computes from the collects in hash order: their listing, and the
      answer of `sound`. */
  datatype Env = Env(
    me: NodeId, executing: SeqNo, offer: seq<Digest>, valid: Msg -> bool, check: Vc -> bool,
    listing: seq<Vc>, answer: Sound)

  // ---- queues ---------------------------------------------------------------------

  function QueueVc(s: SyncState, m: Vc): SyncState {
    match m.message.kind
    case Stop(_) => s.(stop := QueueMessage(Next(s.view.seqNo), s.stop, m.message.view, m))
    case StopData(_) => s.(stopData := QueueMessage(s.view.seqNo, s.stopData, m.message.view, m))
    case Sync(_, _) => s.(sync := QueueMessage(s.view.seqNo, s.sync, m.message.view, m))
  }

  function StopStatus(s: SyncState, i: nat): Status {
    if i > s.view.params.f then Running else Status.Nil
  }

  // ---- what is computed from collects -----------------------------------------------

  /** The collects carried by STOP-DATA messages; other kinds are filtered out. */
  function CollectsOf(list: seq<Vc>): seq<CollectData> {
    if list == [] then []
    else
      var rest, m := CollectsOf(list[..|list| - 1]), list[|list| - 1];
      if m.message.kind.StopData? then rest + [m.message.kind.collect] else rest
  }

  function CidOf(s: SyncState, env: Env, list: seq<Vc>): SeqNo {
    CurrentCid(s.view.params, env.valid, CollectsOf(list))
  }

  /** `env.answer` is one `sound` may give for the collects in `list`. */
  ghost predicate Answers(s: SyncState, env: Env, list: seq<Vc>) {
    SoundAnswer(s.view.params, NormalizeAll(CidOf(s, env, list), CollectsOf(list)), env.answer)
  }

  /** `list` is the values of the map, in some order. */
  ghost predicate ListingOf(list: seq<Vc>, collects: map<NodeId, Vc>) {
    && |list| == |collects|
    && (forall i :: 0 <= i < |list| ==> list[i].header.from in collects && collects[list[i].header.from] == list[i])
    && (forall i, j :: 0 <= i < j < |list| ==> list[i].header.from != list[j].header.from)
  }

  /** `finalize_view_change!` with `pre_finalize` and `finalize`. */
  function Finish(s: SyncState, env: Env, state: FinalizeState, sent: Outgoing): Reaction {
    var s1 := s.(collects := map[]);
    if s.phase.Syncing? && env.executing != state.currCid then
      Reaction(s1.(finalizeState := Some(state), phase := SyncingState), RunCst, sent)
    else if state.proposed == [] && !Test(state.sound) then Reaction(s1, Running, sent)
    else
      Reaction(
        s1.(stop := AdvanceQueue(s.stop), stopData := AdvanceQueue(s.stopData), sync := AdvanceQueue(s.sync),
            phase := Init),
        NewView(state), sent)
  }

  // ---- phases --------------------------------------------------------------------------

  /** `begin_view_change`; `timedOut` is false on the path from `process_message`,
      which also empties the buffer of STOPs. */
  function Stopped(s: SyncState, timedOut: bool): Reaction {
    var s1 :=
      if s.phase.Stopping? then s.(phase := Stopping2(s.phase.stops + if timedOut then 0 else 1))
      else s.(stopped := map[], collects := map[], phase := Stopping2(0));
    Reaction(if timedOut then s1 else s1.(stopped := map[]), Running, BroadcastStop(Next(s.view.seqNo)))
  }

  function OnStop(s: SyncState, m: Vc, me: NodeId): Reaction
    requires (s.phase.Stopping? || s.phase.Stopping2?) && m.message.kind.Stop? && s.view.params.n > 0
  {
    var i := s.phase.stops + 1;
    var s1 := s.(stopped := s.stopped[m.header.from := m.message.kind.requests]);
    if s.phase.Stopping? then
      if i > s.view.params.f then Stopped(s1, false)
      else Reaction(s1.(phase := Stopping(i)), Status.Nil, Nothing)
    else if i == s.view.params.Quorum() then
      var view := s.view.NextView();
      Reaction(
        s1.(stopped := map[], view := view, phase := if me != view.Leader() then Syncing else StoppingData(0)),
        Running, SendStopData(view.seqNo, view.Leader()))
    else Reaction(s1.(phase := Stopping2(i)), Running, Nothing)
  }

  function InStopping(s: SyncState, m: Vc, me: NodeId): Reaction
    requires (s.phase.Stopping? || s.phase.Stopping2?) && s.view.params.n > 0
  {
    var status := StopStatus(s, s.phase.stops);
    if !m.message.kind.Stop? || m.message.view != Next(s.view.seqNo) then Reaction(QueueVc(s, m), status, Nothing)
    else if m.header.from in s.stopped then Reaction(s, status, Nothing)
    else OnStop(s, m, me)
  }

  function OnStopData(s: SyncState, m: Vc, env: Env): Reaction
    requires s.phase.StoppingData?
  {
    var i := s.phase.datas + 1;
    var s1 := s.(collects := s.collects[m.header.from := m]);
    if i != s.view.params.Quorum() then Reaction(s1.(phase := StoppingData(i)), Running, Nothing)
    else if !Test(env.answer) then Reaction(s.(collects := map[]), Running, Nothing)
    else
      Finish(s1, env, FinalizeState(CidOf(s, env, env.listing), env.offer, env.answer),
             BroadcastSync(s.view.seqNo, env.offer, env.listing))
  }

  function InStoppingData(s: SyncState, m: Vc, env: Env): Reaction
    requires s.phase.StoppingData? && s.view.params.n > 0
  {
    if !m.message.kind.StopData? then Reaction(QueueVc(s, m), Running, Nothing)
    else if m.message.view != s.view.seqNo then
      Reaction(if s.view.Peek(m.message.view).Leader() == env.me then QueueVc(s, m) else s, Running, Nothing)
    else if s.view.Leader() != env.me || m.header.from in s.collects then Reaction(s, Running, Nothing)
    else OnStopData(s, m, env)
  }

  /** The collects of a SYNC whose signatures check out. */
  function Signed(list: seq<Vc>, check: Vc -> bool): seq<Vc> {
    if list == [] then []
    else Signed(list[..|list| - 1], check) + if check(list[|list| - 1]) then [list[|list| - 1]] else []
  }

  function InSyncing(s: SyncState, m: Vc, env: Env): Reaction
    requires s.phase.Syncing? && s.view.params.n > 0
  {
    if !m.message.kind.Sync? || m.message.view != s.view.seqNo then Reaction(QueueVc(s, m), Running, Nothing)
    else if m.header.from != s.view.Leader() || !Test(env.answer) then Reaction(s, Running, Nothing)
    else
      Finish(s, env, FinalizeState(CidOf(s, env, env.listing), m.message.kind.proposed, env.answer), Nothing)
  }

  predicate TakesData(s: SyncState, m: Vc, me: NodeId)
    requires s.view.params.n > 0
  {
    && s.phase.StoppingData? && m.message.kind.StopData? && m.message.view == s.view.seqNo
    && s.view.Leader() == me && m.header.from !in s.collects
  }

  predicate TakesSync(s: SyncState, m: Vc)
    requires s.view.params.n > 0
  {
    s.phase.Syncing? && m.message.kind.Sync? && m.message.view == s.view.seqNo && m.header.from == s.view.Leader()
  }

  /** The listing and the answer in `env` are ones the code could compute. */
  ghost predicate Explains(s: SyncState, m: Vc, env: Env)
    requires s.view.params.n > 0
  {
    && (TakesData(s, m, env.me) && s.phase.datas + 1 == s.view.params.Quorum() ==>
          ListingOf(env.listing, s.collects[m.header.from := m]) && Answers(s, env, env.listing))
    && (TakesSync(s, m) ==>
          env.listing == Signed(m.message.kind.collects, env.check) && Answers(s, env, env.listing))
  }

  /** `process_message`; `None` is the `unreachable!()` of the state transfer phase. */
  function Process(s: SyncState, m: Vc, env: Env): Option<Reaction>
    requires s.view.params.n > 0
  {
    match s.phase
    case Init => Some(Reaction(QueueVc(s, m), Status.Nil, Nothing))
    case Stopping(_) => Some(InStopping(s, m, env.me))
    case Stopping2(_) => Some(InStopping(s, m, env.me))
    case StoppingData(_) => Some(InStoppingData(s, m, env))
    case Syncing => Some(InSyncing(s, m, env))
    case SyncingState => None
  }

  datatype PollStatus = Recv | NextMessage(message: Vc) | ResumeViewChange

  /** A message popped from a queue, or the queue has run dry. */
  function Popped(m: Option<Vc>, s: SyncState, s': SyncState): (PollStatus, SyncState) {
    if m.Some? then (NextMessage(m.value), s') else (Recv, s.(getQueue := false))
  }

  /** `poll`: the queue of the running phase, and the phase after popping from it. */
  function Poll(s: SyncState): (PollStatus, SyncState) {
    if !s.getQueue then (Recv, s)
    else if s.phase.SyncingState? then (ResumeViewChange, s)
    else if s.phase.Init? || s.phase.Stopping? || s.phase.Stopping2? then
      var (m, q) := PopMessage(s.stop);
      Popped(m, s, s.(stop := q, phase := if s.phase.Init? then Stopping(0) else s.phase))
    else if s.phase.StoppingData? then
      var (m, q) := PopMessage(s.stopData);
      Popped(m, s, s.(stopData := q))
    else
      var (m, q) := PopMessage(s.sync);
      Popped(m, s, s.(sync := q))
  }

  /** `resume_view_change`, after a state transfer. */
  function Resumed(s: SyncState, env: Env): SyncState {
    if s.finalizeState.None? then s
    else Finish(s.(finalizeState := None), env, s.finalizeState.value, Nothing).state
  }

  // ---- runs -------------------------------------------------------------------------------

  datatype Event =
    | Receive(message: Vc)
    | Defer(message: Vc)
    | PollNext
    | TimedOut

  datatype Install = Install(view: SeqNo, senders: set<NodeId>, timedOut: bool)

  /** A synchronizer with its history: the senders of the STOPs counted towards the
      next view, whether a timeout of its own made it stop, the views installed and
      the SYNCs broadcast. */
  datatype Traced = Traced(
    state: SyncState, counted: seq<NodeId>, timedOut: bool, installs: seq<Install>, syncs: seq<seq<Vc>>)

  predicate Counts(s: SyncState, m: Vc) {
    && (s.phase.Stopping? || s.phase.Stopping2?) && m.message.kind.Stop?
    && m.message.view == Next(s.view.seqNo) && m.header.from !in s.stopped
  }

  function ToSet(ids: seq<NodeId>): set<NodeId> {
    set i | 0 <= i < |ids| :: ids[i]
  }

  function Record(t: Traced, m: Vc, r: Reaction): Traced {
    var counted := if Counts(t.state, m) then t.counted + [m.header.from] else t.counted;
    var s' := r.state.(getQueue := true);
    Traced(
      s', if s'.phase.Stopping? || s'.phase.Stopping2? then counted else [], t.state.phase.Stopping2? && t.timedOut,
      if s'.view != t.state.view then t.installs + [Install(s'.view.seqNo, ToSet(counted), t.timedOut)] else t.installs,
      if r.sent.BroadcastSync? then t.syncs + [r.sent.collects] else t.syncs)
  }

  function Absorb(t: Traced, m: Vc, env: Env): Option<Traced>
    requires t.state.view.params.n > 0
  {
    match Process(t.state, m, env)
    case None => None
    case Some(r) => Some(Record(t, m, r))
  }

  function Step(t: Traced, e: Event, env: Env): Option<Traced>
    requires t.state.view.params.n > 0
  {
    match e
    case Receive(m) => Absorb(t, m, env)
    case Defer(m) => Some(t.(state := QueueVc(t.state, m)))
    case PollNext =>
      (match Poll(t.state)
       case (Recv, s) => Some(t.(state := s))
       case (NextMessage(m), s) => Absorb(t.(state := s), m, env)
       case (ResumeViewChange, s) => Some(t.(state := Resumed(s, env))))
    case TimedOut => Some(t.(state := Stopped(t.state, true).state,
                             counted := if t.state.phase.Stopping? then t.counted else [], timedOut := true))
  }

  /** The message a step processes. */
  function Subject(t: Traced, e: Event): (Option<Vc>, SyncState) {
    match e
    case Receive(m) => (Some(m), t.state)
    case PollNext =>
      var (status, s) := Poll(t.state);
      (if status.NextMessage? then Some(status.message) else None, s)
    case _ => (None, t.state)
  }

  ghost predicate Legal(t: Traced, e: Event, env: Env)
    requires t.state.view.params.n > 0
  {
    var (m, s) := Subject(t, e); m.Some? ==> Explains(s, m.value, env)
  }

  // ---- the invariant ------------------------------------------------------------------------

  /** STOPs counted so far: all from different senders, unless the buffer was emptied,
      which happens with `f + 1` senders seen and no timeout of our own. */
  ghost predicate StopsInv(s: SyncState, counted: seq<NodeId>, timedOut: bool) {
    match s.phase
    case Stopping(i) => i <= s.view.params.f && |ToSet(counted)| == i && ToSet(counted) == s.stopped.Keys
    case Stopping2(i) =>
      && i <= 2 * s.view.params.f
      && (if timedOut then |ToSet(counted)| == i && ToSet(counted) == s.stopped.Keys
          else |ToSet(counted)| >= s.view.params.f + 1)
    case _ => s.stopped == map[] && counted == []
  }

  ghost predicate CollectsInv(s: SyncState) {
    && (forall id :: id in s.collects ==> s.collects[id].header.from == id && s.collects[id].message.kind.StopData?)
    && (if s.phase.StoppingData? then |s.collects| <= s.phase.datas <= 2 * s.view.params.f else s.collects == map[])
    && (s.finalizeState.Some? ==> Test(s.finalizeState.value.sound))
    && (s.phase.SyncingState? ==> s.finalizeState.Some?)
  }

  /** A SYNC carries exactly `2f + 1` collects, from different senders. */
  ghost predicate QuorumSync(list: seq<Vc>, p: Params) {
    && |list| == p.Quorum()
    && (forall i :: 0 <= i < |list| ==> list[i].message.kind.StopData?)
    && (forall i, j :: 0 <= i < j < |list| ==> list[i].header.from != list[j].header.from)
  }

  /** Each view installed follows the one before, and the last is the current one. */
  ghost predicate Consecutive(installs: seq<Install>, view: SeqNo) {
    && (forall k :: 0 < k < |installs| ==> installs[k].view == Next(installs[k - 1].view))
    && (installs != [] ==> installs[|installs| - 1].view == view)
  }

  /** A quorum asked for the view if we timed out ourselves, `f + 1` senders otherwise. */
  ghost predicate EnoughSenders(i: Install, p: Params) {
    if i.timedOut then |i.senders| == p.Quorum() else |i.senders| >= p.f + 1
  }

  /** If the view changes at all, it moves to the next one, on enough STOPs. */
  ghost predicate InstallsNext(s: SyncState, s': SyncState, counted: seq<NodeId>, timedOut: bool) {
    s'.view != s.view ==>
      && s'.view == s.view.NextView()
      && EnoughSenders(Install(s'.view.seqNo, ToSet(counted), timedOut), s.view.params)
  }

  ghost predicate HistoryInv(t: Traced) {
    && (forall k :: 0 <= k < |t.installs| ==> EnoughSenders(t.installs[k], t.state.view.params))
    && Consecutive(t.installs, t.state.view.seqNo)
    && (forall k :: 0 <= k < |t.syncs| ==> QuorumSync(t.syncs[k], t.state.view.params))
  }

  ghost predicate SyncInv(t: Traced) {
    t.state.view.params.Standard() && StopsInv(t.state, t.counted, t.timedOut) && CollectsInv(t.state) && HistoryInv(t)
  }

  lemma InsertSender(counted: seq<NodeId>, id: NodeId)
    ensures ToSet(counted + [id]) == ToSet(counted) + {id}
    ensures |ToSet(counted)| <= |ToSet(counted + [id])|
    ensures id !in ToSet(counted) ==> |ToSet(counted + [id])| == |ToSet(counted)| + 1
  {
    var more := counted + [id];
    forall x | x in ToSet(counted) + {id} ensures x in ToSet(more) {
      if x in ToSet(counted) {
        var i :| 0 <= i < |counted| && counted[i] == x;
        assert more[i] == x;
      } else {
        assert more[|counted|] == x;
      }
    }
    assert ToSet(more) == ToSet(counted) + {id};
    SubsetSize(ToSet(counted), ToSet(more));
  }

  /** Counting one STOP: the invariant survives, and a view installed now has been
      asked for by `f + 1` different senders. */
  lemma StopCounted(s: SyncState, counted: seq<NodeId>, timedOut: bool, m: Vc, me: NodeId)
    requires s.view.params.Standard() && StopsInv(s, counted, timedOut) && Counts(s, m)
    ensures var s' := OnStop(s, m, me).state;
            && InstallsNext(s, s', counted + [m.header.from], timedOut)
            && StopsInv(s', if s'.phase.Stopping? || s'.phase.Stopping2? then counted + [m.header.from] else [],
                        s.phase.Stopping2? && timedOut)
  {
    InsertSender(counted, m.header.from);
    var s1 := s.stopped[m.header.from := m.message.kind.requests];
    assert s1.Keys == s.stopped.Keys + {m.header.from};
  }

  lemma InStoppingKeeps(s: SyncState, counted: seq<NodeId>, timedOut: bool, m: Vc, me: NodeId)
    requires s.view.params.Standard() && StopsInv(s, counted, timedOut) && CollectsInv(s)
    requires s.phase.Stopping? || s.phase.Stopping2?
    ensures var r := InStopping(s, m, me);
            var s', more := r.state, if Counts(s, m) then counted + [m.header.from] else counted;
            && CollectsInv(s') && !r.sent.BroadcastSync?
            && InstallsNext(s, s', more, timedOut)
            && StopsInv(s', if s'.phase.Stopping? || s'.phase.Stopping2? then more else [],
                        s.phase.Stopping2? && timedOut)
  {
    if Counts(s, m) { StopCounted(s, counted, timedOut, m, me); }
  }

  lemma {:induction false} CollectsOfAll(list: seq<Vc>)
    requires forall i :: 0 <= i < |list| ==> list[i].message.kind.StopData?
    ensures |CollectsOf(list)| == |list|
  {
    if list != [] { CollectsOfAll(list[..|list| - 1]); }
  }

  /** `sound` never passes on fewer collects than a quorum, so a SYNC sent after an
      earlier failure cannot be short. */
  lemma ShortFails(s: SyncState, env: Env, list: seq<Vc>)
    requires forall i :: 0 <= i < |list| ==> list[i].message.kind.StopData?
    requires Answers(s, env, list) && Test(env.answer)
    ensures |list| >= s.view.params.Quorum()
  {
    CollectsOfAll(list);
  }

  lemma FinishKeeps(s: SyncState, timedOut: bool, env: Env, state: FinalizeState, sent: Outgoing)
    requires Test(state.sound) && s.stopped == map[]
    requires s.phase.StoppingData? || s.phase.Syncing? || s.phase.SyncingState?
    requires s.finalizeState.Some? ==> Test(s.finalizeState.value.sound)
    ensures var r := Finish(s, env, state, sent);
            CollectsInv(r.state) && StopsInv(r.state, [], timedOut) && r.state.view == s.view && r.sent == sent
    ensures !s.phase.Syncing? ==> Finish(s, env, state, sent).state.phase.Init?
  {
  }

  /** The last STOP-DATA of the count. */
  lemma DataQuorum(s: SyncState, m: Vc, env: Env)
    requires CollectsInv(s) && s.phase.StoppingData? && m.message.kind.StopData? && m.header.from !in s.collects
    requires ListingOf(env.listing, s.collects[m.header.from := m]) && Answers(s, env, env.listing)
    requires Test(env.answer)
    ensures QuorumSync(env.listing, s.view.params)
  {
    var collects := s.collects[m.header.from := m];
    assert collects.Keys == s.collects.Keys + {m.header.from};
    forall i | 0 <= i < |env.listing| ensures env.listing[i].message.kind.StopData? {
      assert env.listing[i].header.from in collects;
    }
    ShortFails(s, env, env.listing);
  }

  lemma DataCounted(s: SyncState, timedOut: bool, m: Vc, env: Env)
    requires StopsInv(s, [], timedOut) && CollectsInv(s) && s.phase.StoppingData?
    requires m.message.kind.StopData? && m.header.from !in s.collects
    requires s.phase.datas + 1 == s.view.params.Quorum() ==>
               ListingOf(env.listing, s.collects[m.header.from := m]) && Answers(s, env, env.listing)
    ensures var r := OnStopData(s, m, env);
            && CollectsInv(r.state) && StopsInv(r.state, [], timedOut) && r.state.view == s.view
            && (r.sent.BroadcastSync? ==> QuorumSync(r.sent.collects, s.view.params))
  {
    var s1 := s.(collects := s.collects[m.header.from := m]);
    assert s1.collects.Keys == s.collects.Keys + {m.header.from};
    if s.phase.datas + 1 == s.view.params.Quorum() && Test(env.answer) {
      DataQuorum(s, m, env);
      FinishKeeps(s1, timedOut, env, FinalizeState(CidOf(s, env, env.listing), env.offer, env.answer),
                  BroadcastSync(s.view.seqNo, env.offer, env.listing));
    }
  }

  lemma QueueKeeps(s: SyncState, counted: seq<NodeId>, timedOut: bool, m: Vc)
    requires CollectsInv(s) && StopsInv(s, counted, timedOut)
    ensures CollectsInv(QueueVc(s, m)) && StopsInv(QueueVc(s, m), counted, timedOut) && QueueVc(s, m).view == s.view
  {
  }

  lemma InStoppingDataKeeps(s: SyncState, timedOut: bool, m: Vc, env: Env)
    requires s.view.params.Standard() && StopsInv(s, [], timedOut) && CollectsInv(s) && s.phase.StoppingData?
    requires Explains(s, m, env)
    ensures var r := InStoppingData(s, m, env);
            && CollectsInv(r.state) && StopsInv(r.state, [], timedOut) && r.state.view == s.view
            && (r.sent.BroadcastSync? ==> QuorumSync(r.sent.collects, s.view.params))
  {
    var r := InStoppingData(s, m, env);
    if TakesData(s, m, env.me) {
      assert r == OnStopData(s, m, env);
      DataCounted(s, timedOut, m, env);
    } else {
      assert r == Reaction(s, Running, Nothing) || r == Reaction(QueueVc(s, m), Running, Nothing);
      QueueKeeps(s, [], timedOut, m);
    }
  }

  lemma InSyncingKeeps(s: SyncState, timedOut: bool, m: Vc, env: Env)
    requires s.view.params.Standard() && StopsInv(s, [], timedOut) && CollectsInv(s) && s.phase.Syncing?
    ensures var r := InSyncing(s, m, env);
            && CollectsInv(r.state) && StopsInv(r.state, [], timedOut)
            && r.state.view == s.view && !r.sent.BroadcastSync?
  {
    if m.message.kind.Sync? && Test(env.answer) {
      var state := FinalizeState(CidOf(s, env, env.listing), m.message.kind.proposed, env.answer);
      FinishKeeps(s, timedOut, env, state, Nothing);
    }
  }

  /** What one processed message keeps. */
  lemma ProcessKeeps(s: SyncState, counted: seq<NodeId>, timedOut: bool, m: Vc, env: Env)
    requires s.view.params.Standard() && StopsInv(s, counted, timedOut) && CollectsInv(s)
    requires Explains(s, m, env)
    ensures Process(s, m, env).Some? ==>
              var r := Process(s, m, env).value;
              var s', more := r.state, if Counts(s, m) then counted + [m.header.from] else counted;
              && CollectsInv(s')
              && InstallsNext(s, s', more, timedOut)
              && StopsInv(s', if s'.phase.Stopping? || s'.phase.Stopping2? then more else [],
                          s.phase.Stopping2? && timedOut)
              && (r.sent.BroadcastSync? ==> QuorumSync(r.sent.collects, s.view.params))
  {
    match s.phase
    case Init =>
    case Stopping(_) => InStoppingKeeps(s, counted, timedOut, m, env.me);
    case Stopping2(_) => InStoppingKeeps(s, counted, timedOut, m, env.me);
    case StoppingData(_) => InStoppingDataKeeps(s, timedOut, m, env);
    case Syncing => InSyncingKeeps(s, timedOut, m, env);
    case SyncingState =>
  }

  /** The invariant holds after the step, under the same parameters. */
  ghost predicate Kept(t: Traced, r: Option<Traced>) {
    r.Some? ==> SyncInv(r.value) && r.value.state.view.params == t.state.view.params
  }

  lemma RecordKeepsHistory(t: Traced, m: Vc, r: Reaction)
    requires HistoryInv(t)
    requires InstallsNext(t.state, r.state, if Counts(t.state, m) then t.counted + [m.header.from] else t.counted,
                          t.timedOut)
    requires r.sent.BroadcastSync? ==> QuorumSync(r.sent.collects, t.state.view.params)
    ensures HistoryInv(Record(t, m, r)) && r.state.view.params == t.state.view.params
  {
  }

  lemma AbsorbKeeps(t: Traced, m: Vc, env: Env)
    requires SyncInv(t) && Explains(t.state, m, env)
    ensures Kept(t, Absorb(t, m, env))
  {
    ProcessKeeps(t.state, t.counted, t.timedOut, m, env);
    var x := Process(t.state, m, env);
    if x.Some? { RecordKeepsHistory(t, m, x.value); }
  }

  lemma DeferKeeps(t: Traced, m: Vc, env: Env)
    requires SyncInv(t)
    ensures Kept(t, Step(t, Defer(m), env))
  {
    QueueKeeps(t.state, t.counted, t.timedOut, m);
  }

  lemma PollKeeps(t: Traced)
    requires SyncInv(t)
    ensures var (_, s) := Poll(t.state); Kept(t, Some(t.(state := s)))
  {
  }

  lemma TimedOutKeeps(t: Traced, env: Env)
    requires SyncInv(t)
    ensures Kept(t, Step(t, TimedOut, env))
  {
  }

  /** A resumed view change always finishes: the verdict it saved had passed. */
  lemma ResumeKeeps(t: Traced, env: Env)
    requires SyncInv(t) && t.state.phase.SyncingState?
    ensures Kept(t, Some(t.(state := Resumed(t.state, env)))) && Resumed(t.state, env).phase.Init?
  {
    FinishKeeps(t.state.(finalizeState := None), t.timedOut, env, t.state.finalizeState.value, Nothing);
  }

  lemma PollNextKeeps(t: Traced, env: Env)
    requires SyncInv(t) && Legal(t, PollNext, env)
    ensures Kept(t, Step(t, PollNext, env))
  {
    PollKeeps(t);
    var (status, s) := Poll(t.state);
    match status
    case Recv =>
    case NextMessage(m) => AbsorbKeeps(t.(state := s), m, env);
    case ResumeViewChange => ResumeKeeps(t, env);
  }

  lemma StepKeeps(t: Traced, e: Event, env: Env)
    requires SyncInv(t) && Legal(t, e, env)
    ensures Kept(t, Step(t, e, env))
  {
    match e
    case Receive(m) => AbsorbKeeps(t, m, env);
    case Defer(m) => DeferKeeps(t, m, env);
    case PollNext => PollNextKeeps(t, env);
    case TimedOut => TimedOutKeeps(t, env);
  }

  /** A synchronizer as `Synchronizer::new` makes it. */
  function Fresh(view: ViewInfo): Traced {
    Traced(SyncState(view, Init, map[], map[], false, [], [], [], None), [], false, [], [])
  }

  ghost predicate Run(trace: seq<Traced>, events: seq<(Event, Env)>, view: ViewInfo) {
    && view.params.Standard() && |trace| == |events| + 1 && trace[0] == Fresh(view)
    && forall k :: 0 <= k < |events| ==> Stepped(trace[k], events[k].0, events[k].1, trace[k + 1])
  }

  ghost predicate Stepped(t: Traced, e: Event, env: Env, t': Traced) {
    t.state.view.params.n > 0 && Legal(t, e, env) && Step(t, e, env) == Some(t')
  }

  lemma SteppedKeeps(t: Traced, e: Event, env: Env, t': Traced)
    requires SyncInv(t) && Stepped(t, e, env, t')
    ensures SyncInv(t') && t'.state.view.params == t.state.view.params
  {
    StepKeeps(t, e, env);
  }

  lemma FreshHolds(view: ViewInfo)
    requires view.params.Standard()
    ensures SyncInv(Fresh(view))
  {
  }

  /** Every run, whatever messages and timeouts arrive in whatever order. */
  lemma {:induction false} RunKeeps(trace: seq<Traced>, events: seq<(Event, Env)>, view: ViewInfo, k: nat)
    requires Run(trace, events, view) && k < |trace|
    ensures SyncInv(trace[k]) && trace[k].state.view.params == view.params
  {
    if k == 0 {
      FreshHolds(view);
    } else {
      var t, e := trace[k - 1], events[k - 1];
      assert Stepped(t, e.0, e.1, trace[k]);
      RunKeeps(trace, events, view, k - 1);
      SteppedKeeps(t, e.0, e.1, trace[k]);
    }
  }

  /** Every view a run installs was asked for by a correct replica: by a quorum of
      different senders if we timed out ourselves, by `f + 1` of them otherwise. */
  lemma InstallsAskedFor(
    trace: seq<Traced>, events: seq<(Event, Env)>, view: ViewInfo, k: nat, j: nat, faulty: set<NodeId>)
    requires Run(trace, events, view) && k < |trace| && j < |trace[k].installs| && |faulty| <= view.params.f
    ensures EnoughSenders(trace[k].installs[j], view.params)
    ensures trace[k].installs[j].senders - faulty != {}
  {
    RunKeeps(trace, events, view, k);
    var senders := trace[k].installs[j].senders;
    if senders <= faulty {
      SubsetSize(senders, faulty);
      assert false;
    }
    var id :| id in senders && id !in faulty;
    assert id in senders - faulty;
  }

  /** Every SYNC a run broadcasts carries exactly `2f + 1` collects from different senders. */
  lemma SyncCarriesQuorum(trace: seq<Traced>, events: seq<(Event, Env)>, view: ViewInfo, k: nat, j: nat)
    requires Run(trace, events, view) && k < |trace| && j < |trace[k].syncs|
    ensures QuorumSync(trace[k].syncs[j], view.params)
  {
    RunKeeps(trace, events, view, k);
  }

  // ---- the synchronizer object -------------------------------------------------------------

  /** What a SYNC or a full set of STOP-DATA settles on: the instance, and `sound`. */
  method Verdict(s: SyncState, valid: Msg -> bool, list: seq<Vc>) returns (cid: SeqNo, answer: Sound)
    ensures cid == CurrentCid(s.view.params, valid, CollectsOf(list))
    ensures SoundAnswer(s.view.params, NormalizeAll(cid, CollectsOf(list)), answer)
  {
    var collects := CollectsOf(list);
    cid := CurrentCid(s.view.params, valid, collects);
    answer := ComputeSound(s.view.params, NormalizeAll(cid, collects));
  }

  /** `signed_collects`. */
  method SignedCollects(list: seq<Vc>, check: Vc -> bool) returns (kept: seq<Vc>)
    ensures kept == Signed(list, check)
  {
    kept := [];
    for i := 0 to |list|
      invariant kept == Signed(list[..i], check)
    {
      assert list[..i + 1][..i] == list[..i];
      if check(list[i]) { kept := kept + [list[i]]; }
    }
    assert list[..|list|] == list;
  }

  class Synchronizer {
    var view: ViewInfo
    var phase: SyncPhase
    var stopped: map<NodeId, seq<Request>>
    var collects: map<NodeId, Vc>
    var getQueue: bool
    var stop: Buckets<Vc>
    var stopData: Buckets<Vc>
    var sync: Buckets<Vc>
    var finalizeState: Option<FinalizeState>

    function State(): SyncState
      reads this
    {
      SyncState(view, phase, stopped, collects, getQueue, stop, stopData, sync, finalizeState)
    }

    /** Collects are filed under their sender. */
    ghost predicate Valid()
      reads this
    {
      view.params.n > 0 && forall id :: id in collects ==> collects[id].header.from == id
    }

    constructor (view: ViewInfo)
      requires view.params.n > 0
      ensures Valid() && State() == Fresh(view).state
    {
      this.view, phase, stopped, collects, getQueue := view, Init, map[], map[], false;
      stop, stopData, sync, finalizeState := [], [], [], None;
    }

    /** The values of the map, in whatever order it yields them. */
    method ListCollects() returns (list: seq<Vc>)
      requires Valid()
      ensures ListingOf(list, collects)
    {
      list := [];
      var left := collects.Keys;
      while left != {}
        invariant left <= collects.Keys && |list| + |left| == |collects|
        invariant forall i :: 0 <= i < |list| ==>
                    && list[i].header.from in collects && list[i].header.from !in left
                    && collects[list[i].header.from] == list[i]
        invariant forall i, j :: 0 <= i < j < |list| ==> list[i].header.from != list[j].header.from
        decreases left
      {
        var id :| id in left;
        list := list + [collects[id]];
        left := left - {id};
      }
    }

    method Queue(m: Vc)
      modifies this
      ensures State() == QueueVc(old(State()), m)
    {
      match m.message.kind
      case Stop(_) => stop := QueueMessage(Next(view.seqNo), stop, m.message.view, m);
      case StopData(_) => stopData := QueueMessage(view.seqNo, stopData, m.message.view, m);
      case Sync(_, _) => sync := QueueMessage(view.seqNo, sync, m.message.view, m);
    }

    /** `stopped_requests(None)` drains the buffer, so only the timeout path keeps it. */
    method BeginViewChange(timedOut: bool) returns (sent: Outgoing)
      requires Valid()
      modifies this
      ensures Valid() && Reaction(State(), Running, sent) == Stopped(old(State()), timedOut)
    {
      if phase.Stopping? {
        phase := Stopping2(phase.stops + if timedOut then 0 else 1);
      } else {
        stopped, collects, phase := map[], map[], Stopping2(0);
      }
      sent := BroadcastStop(Next(view.seqNo));
      if !timedOut { stopped := map[]; }
    }

    method CountStop(m: Vc, me: NodeId) returns (status: Status, sent: Outgoing)
      requires Valid() && (phase.Stopping? || phase.Stopping2?) && m.message.kind.Stop?
      modifies this
      ensures Valid() && Reaction(State(), status, sent) == OnStop(old(State()), m, me)
    {
      var i := phase.stops + 1;
      stopped := stopped[m.header.from := m.message.kind.requests];
      if phase.Stopping? {
        if i > view.params.f {
          sent := BeginViewChange(false);
          return Running, sent;
        }
        phase := Stopping(i);
        return Status.Nil, Nothing;
      }
      if i == view.params.Quorum() {
        stopped := map[];
        view := view.NextView();
        phase := if me != view.Leader() then Syncing else StoppingData(0);
        return Running, SendStopData(view.seqNo, view.Leader());
      }
      phase := Stopping2(i);
      return Running, Nothing;
    }

    method ProcessStop(m: Vc, me: NodeId) returns (status: Status, sent: Outgoing)
      requires Valid() && (phase.Stopping? || phase.Stopping2?)
      modifies this
      ensures Valid() && Reaction(State(), status, sent) == InStopping(old(State()), m, me)
    {
      status, sent := StopStatus(State(), phase.stops), Nothing;
      if !m.message.kind.Stop? || m.message.view != Next(view.seqNo) {
        Queue(m);
      } else if m.header.from !in stopped {
        status, sent := CountStop(m, me);
      }
    }

    method Finalize(env: Env, state: FinalizeState, sent: Outgoing) returns (status: Status)
      requires view.params.n > 0
      modifies this
      ensures Valid() && Reaction(State(), status, sent) == Finish(old(State()), env, state, sent)
    {
      collects := map[];
      if phase.Syncing? && env.executing != state.currCid {
        finalizeState, phase := Some(state), SyncingState;
        return RunCst;
      }
      if state.proposed == [] && !Test(state.sound) { return Running; }
      stop, stopData, sync := AdvanceQueue(stop), AdvanceQueue(stopData), AdvanceQueue(sync);
      phase := Init;
      return NewView(state);
    }

    method CountStopData(m: Vc, env: Env) returns (status: Status, sent: Outgoing, used: Env)
      requires Valid() && phase.StoppingData?
      modifies this
      ensures Valid() && used == env.(listing := used.listing, answer := used.answer)
      ensures old(phase).datas + 1 == view.params.Quorum() ==>
                ListingOf(used.listing, old(collects)[m.header.from := m]) && Answers(old(State()), used, used.listing)
      ensures Reaction(State(), status, sent) == OnStopData(old(State()), m, used)
    {
      var i := phase.datas + 1;
      collects := collects[m.header.from := m];
      if i != view.params.Quorum() {
        phase := StoppingData(i);
        return Running, Nothing, env;
      }
      var list := ListCollects();
      var cid, answer := Verdict(State(), env.valid, list);
      used := env.(listing := list, answer := answer);
      if !Test(answer) {
        collects := map[];
        return Running, Nothing, used;
      }
      sent := BroadcastSync(view.seqNo, env.offer, list);
      status := Finalize(used, FinalizeState(cid, env.offer, answer), sent);
    }

    method ProcessStopData(m: Vc, env: Env) returns (sent: Outgoing, status: Status, used: Env)
      requires Valid() && phase.StoppingData?
      modifies this
      ensures Valid() && used == env.(listing := used.listing, answer := used.answer)
      ensures TakesData(old(State()), m, env.me) && old(phase).datas + 1 == old(view).params.Quorum() ==>
                ListingOf(used.listing, old(collects)[m.header.from := m]) && Answers(old(State()), used, used.listing)
      ensures Reaction(State(), status, sent) == InStoppingData(old(State()), m, used)
    {
      sent, status, used := Nothing, Running, env;
      if !m.message.kind.StopData? {
        Queue(m);
      } else if m.message.view != view.seqNo {
        if view.Peek(m.message.view).Leader() == env.me { Queue(m); }
      } else if view.Leader() == env.me && m.header.from !in collects {
        status, sent, used := CountStopData(m, env);
      }
    }

    method AcceptSync(m: Vc, env: Env) returns (status: Status, used: Env)
      requires Valid() && phase.Syncing? && m.message.kind.Sync?
      requires m.message.view == view.seqNo && m.header.from == view.Leader()
      modifies this
      ensures Valid() && used == env.(listing := used.listing, answer := used.answer)
      ensures used.listing == Signed(m.message.kind.collects, env.check) && Answers(old(State()), used, used.listing)
      ensures Reaction(State(), status, Nothing) == InSyncing(old(State()), m, used)
    {
      var list := SignedCollects(m.message.kind.collects, env.check);
      var cid, answer := Verdict(State(), env.valid, list);
      used := env.(listing := list, answer := answer);
      if !Test(answer) { return Running, used; }
      status := Finalize(used, FinalizeState(cid, m.message.kind.proposed, answer), Nothing);
    }

    method PollQueue() returns (status: PollStatus)
      modifies this
      ensures (status, State()) == Poll(old(State()))
    {
      if !getQueue { return Recv; }
      var m: Option<Vc>;
      match phase {
        case SyncingState => return ResumeViewChange;
        case StoppingData(_) => m, stopData := PopMessage(stopData).0, PopMessage(stopData).1;
        case Syncing => m, sync := PopMessage(sync).0, PopMessage(sync).1;
        case Init =>
          m, stop := PopMessage(stop).0, PopMessage(stop).1;
          if m.Some? { phase := Stopping(0); }
        case Stopping(_) => m, stop := PopMessage(stop).0, PopMessage(stop).1;
        case Stopping2(_) => m, stop := PopMessage(stop).0, PopMessage(stop).1;
      }
      if m.Some? { return NextMessage(m.value); }
      getQueue := false;
      status := Recv;
    }

    /** `process_message`: `used` holds the answers that hash order chose on the way. */
    method ProcessMessage(m: Vc, env: Env) returns (done: bool, status: Status, sent: Outgoing, used: Env)
      requires Valid()
      modifies this
      ensures Valid() && used == env.(listing := used.listing, answer := used.answer)
      ensures Explains(old(State()), m, used)
      ensures Process(old(State()), m, used) == if done then Some(Reaction(State(), status, sent)) else None
    {
      done, status, sent, used := true, Running, Nothing, env;
      match phase {
        case Init =>
          Queue(m);
          status := Status.Nil;
        case Stopping(i) => status, sent := ProcessStop(m, env.me);
        case Stopping2(i) => status, sent := ProcessStop(m, env.me);
        case StoppingData(_) => sent, status, used := ProcessStopData(m, env);
        case Syncing =>
          if !m.message.kind.Sync? || m.message.view != view.seqNo {
            Queue(m);
          } else if m.header.from == view.Leader() {
            status, used := AcceptSync(m, env);
          }
        case SyncingState => done := false;
      }
    }

    /** `resume_view_change`. */
    method Resume(env: Env) returns (resumed: bool)
      requires Valid()
      modifies this
      ensures Valid() && resumed == old(finalizeState).Some? && State() == Resumed(old(State()), env)
    {
      match finalizeState {
        case None => resumed := false;
        case Some(state) =>
          finalizeState := None;
          var status := Finalize(env, state, Nothing);
          resumed := true;
      }
    }
  }
}
