/** The predicates by which a new leader, and every follower after it, settles the
    value to propose: `sound`, `binds`, `unbound`, `quorum_highest` and
    `certified_value` (src/bft/sync/mod.rs, after Cachin, "Yet Another Visit to
    Paxos", April 2011, pages 10-11). */
module Soundness {
  import opened Wrappers
  import opened Ordering
  import opened Core
  import opened Messages
  import opened Counting

  /** `None` stands for a collect of another instance. */
  type Normalized = seq<Option<CollectData>>

  datatype Sound = Unbound(ok: bool) | Bound(digest: Digest)

  function Test(s: Sound): bool {
    if s.Unbound? then s.ok else true
  }

  function Wrote(c: Option<CollectData>): Option<ViewDecision> {
    if c.None? then None else c.value.incomplete.quorumWrites
  }

  function WroteExactly(ts: SeqNo, value: Digest): Option<CollectData> -> bool {
    (c: Option<CollectData>) => Wrote(c) == Some(ViewDecision(ts, value))
  }

  /** Written before `ts`, or at `ts` with the same value; compared with the derived order. */
  function WroteAtMost(ts: SeqNo, value: Digest): Option<CollectData> -> bool {
    (c: Option<CollectData>) =>
      Wrote(c).Some? &&
      match OrdCmp(Wrote(c).value.view, ts)
      case Less => true
      case Equal => Wrote(c).value.digest == value
      case Greater => false
  }

  /** No quorum write, or one of view 0, which is read as nothing written. */
  function Unwritten(): Option<CollectData> -> bool {
    (c: Option<CollectData>) => Wrote(c).None? || Wrote(c).value.view == 0
  }

  /** `>=` on sequence numbers is the windowed order. */
  function NamesSince(ts: SeqNo, value: Digest): ViewDecision -> bool {
    (w: ViewDecision) => PartialGe(w.view, ts) && w.digest == value
  }

  function Named(ts: SeqNo, value: Digest): Option<CollectData> -> nat {
    (c: Option<CollectData>) => if c.None? then 0 else Count(c.value.incomplete.writeSet, NamesSince(ts, value))
  }

  predicate QuorumHighest(p: Params, ts: SeqNo, value: Digest, cs: Normalized) {
    Count(cs, WroteExactly(ts, value)) > 0 && Count(cs, WroteAtMost(ts, value)) >= p.Quorum()
  }

  predicate CertifiedValue(p: Params, ts: SeqNo, value: Digest, cs: Normalized) {
    Sum(cs, Named(ts, value)) > p.f
  }

  predicate Binds(p: Params, ts: SeqNo, value: Digest, cs: Normalized) {
    |cs| >= p.Quorum() && QuorumHighest(p, ts, value, cs) && CertifiedValue(p, ts, value, cs)
  }

  predicate IsUnbound(p: Params, cs: Normalized) {
    |cs| >= p.Quorum() && Count(cs, Unwritten()) >= p.Quorum()
  }

  // ---- `sound` ------------------------------------------------------------------

  function ViewsIn(ws: seq<ViewDecision>): set<SeqNo> {
    set i | 0 <= i < |ws| :: ws[i].view
  }

  function DigestsIn(ws: seq<ViewDecision>): set<Digest> {
    set i | 0 <= i < |ws| :: ws[i].digest
  }

  function Timestamps(cs: Normalized): set<SeqNo> {
    if cs == [] then {}
    else
      var c := cs[|cs| - 1];
      Timestamps(cs[..|cs| - 1])
      + (if c.None? then {0}
         else {if Wrote(c).None? then 0 else Wrote(c).value.view} + ViewsIn(c.value.incomplete.writeSet))
  }

  function Values(cs: Normalized): set<Digest> {
    if cs == [] then {}
    else
      var c := cs[|cs| - 1];
      Values(cs[..|cs| - 1]) + if c.None? then {} else DigestsIn(c.value.incomplete.writeSet)
  }

  /** What `sound` may answer, whatever the iteration order of its hash sets. */
  ghost predicate SoundAnswer(p: Params, cs: Normalized, r: Sound) {
    match r
    case Bound(d) => exists ts :: Binds(p, ts, d, cs)
    case Unbound(ok) => ok == IsUnbound(p, cs) && forall ts, d :: !Binds(p, ts, d, cs)
  }

  lemma WritesGrow(ws: seq<ViewDecision>, j: nat)
    requires j < |ws|
    ensures ViewsIn(ws[..j + 1]) == ViewsIn(ws[..j]) + {ws[j].view}
    ensures DigestsIn(ws[..j + 1]) == DigestsIn(ws[..j]) + {ws[j].digest}
  {
    var a, b := ws[..j], ws[..j + 1];
    assert b[j] == ws[j] && forall i :: 0 <= i < j ==> b[i] == a[i];
    forall i | 0 <= i < |b|
      ensures b[i].view in ViewsIn(a) + {ws[j].view} && b[i].digest in DigestsIn(a) + {ws[j].digest}
    {
      assert i < j ==> a[i].view in ViewsIn(a) && a[i].digest in DigestsIn(a);
    }
    forall i | 0 <= i < |a| ensures a[i].view in ViewsIn(b) && a[i].digest in DigestsIn(b) {
      assert b[i].view in ViewsIn(b) && b[i].digest in DigestsIn(b);
    }
    assert ViewsIn(b) == ViewsIn(a) + {ws[j].view};
    assert DigestsIn(b) == DigestsIn(a) + {ws[j].digest};
  }

  /** The loop that collects timestamps and values. */
  method Candidates(cs: Normalized) returns (timestamps: set<SeqNo>, values: set<Digest>)
    ensures timestamps == Timestamps(cs) && values == Values(cs)
  {
    timestamps, values := {}, {};
    var i := 0;
    while i < |cs|
      invariant 0 <= i <= |cs| && timestamps == Timestamps(cs[..i]) && values == Values(cs[..i])
    {
      assert cs[..i + 1][..i] == cs[..i];
      if cs[i].None? {
        timestamps := timestamps + {0};
      } else {
        var written := cs[i].value.incomplete;
        timestamps := timestamps + {if written.quorumWrites.Some? then written.quorumWrites.value.view else 0};
        var ws, j := written.writeSet, 0;
        var ts0, vs0 := timestamps, values;
        while j < |ws|
          invariant 0 <= j <= |ws|
          invariant timestamps == ts0 + ViewsIn(ws[..j]) && values == vs0 + DigestsIn(ws[..j])
        {
          WritesGrow(ws, j);
          timestamps := timestamps + {ws[j].view};
          values := values + {ws[j].digest};
          j := j + 1;
        }
        assert ws[..j] == ws;
      }
      i := i + 1;
    }
    assert cs[..i] == cs;
  }

  /** `sound`, visiting candidate timestamps and values in any order. */
  method ComputeSound(p: Params, cs: Normalized) returns (r: Sound)
    ensures SoundAnswer(p, cs, r)
  {
    var timestamps, values := Candidates(cs);
    var left := timestamps;
    while left != {}
      invariant left <= timestamps
      invariant forall ts, d :: ts in timestamps && ts !in left && d in values ==> !Binds(p, ts, d, cs)
      decreases left
    {
      var ts :| ts in left;
      var todo := values;
      while todo != {}
        invariant todo <= values
        invariant forall d :: d in values && d !in todo ==> !Binds(p, ts, d, cs)
        decreases todo
      {
        var d :| d in todo;
        if Binds(p, ts, d, cs) { return Bound(d); }
        todo := todo - {d};
      }
      left := left - {ts};
    }
    forall ts, d | Binds(p, ts, d, cs) ensures ts in timestamps && d in values {
      BoundIsCandidate(p, ts, d, cs);
    }
    r := Unbound(IsUnbound(p, cs));
  }

  lemma {:induction false} CandidateTimestamp(cs: Normalized, i: nat, ts: SeqNo, d: Digest)
    requires i < |cs| && Wrote(cs[i]) == Some(ViewDecision(ts, d))
    ensures ts in Timestamps(cs)
  {
    if i < |cs| - 1 { CandidateTimestamp(cs[..|cs| - 1], i, ts, d); }
  }

  lemma {:induction false} CandidateValue(cs: Normalized, ts: SeqNo, d: Digest)
    requires Sum(cs, Named(ts, d)) > 0
    ensures d in Values(cs)
  {
    var c := cs[|cs| - 1];
    if Named(ts, d)(c) > 0 {
      CountPositive(c.value.incomplete.writeSet, NamesSince(ts, d));
    } else {
      CandidateValue(cs[..|cs| - 1], ts, d);
    }
  }

  /** Restricting the search to the collected timestamps and values loses nothing. */
  lemma BoundIsCandidate(p: Params, ts: SeqNo, d: Digest, cs: Normalized)
    requires Binds(p, ts, d, cs)
    ensures ts in Timestamps(cs) && d in Values(cs)
  {
    CountPositive(cs, WroteExactly(ts, d));
    var i :| 0 <= i < |cs| && WroteExactly(ts, d)(cs[i]);
    CandidateTimestamp(cs, i, ts, d);
    CandidateValue(cs, ts, d);
  }

  // ---- the verdict is unique on lists of quorum size ---------------------------------

  /** On a list of exactly quorum size every collect must be counted. */
  lemma QuorumHighestIsAll(p: Params, ts: SeqNo, d: Digest, cs: Normalized)
    requires |cs| <= p.Quorum() && QuorumHighest(p, ts, d, cs)
    ensures forall i :: 0 <= i < |cs| ==> WroteAtMost(ts, d)(cs[i])
    ensures exists i :: 0 <= i < |cs| && Wrote(cs[i]) == Some(ViewDecision(ts, d))
  {
    CountAtMost(cs, WroteAtMost(ts, d));
    CountPositive(cs, WroteExactly(ts, d));
    var i :| 0 <= i < |cs| && WroteExactly(ts, d)(cs[i]);
    assert Wrote(cs[i]) == Some(ViewDecision(ts, d));
  }

  ghost predicate OneBinding(p: Params, cs: Normalized) {
    forall ts, d, ts', d' :: Binds(p, ts, d, cs) && Binds(p, ts', d', cs) ==> ts == ts' && d == d'
  }

  lemma BindingIsUnique(p: Params, cs: Normalized)
    requires |cs| <= p.Quorum()
    ensures OneBinding(p, cs)
  {
    forall ts, d, ts', d' | Binds(p, ts, d, cs) && Binds(p, ts', d', cs) ensures ts == ts' && d == d' {
      QuorumHighestIsAll(p, ts, d, cs);
      QuorumHighestIsAll(p, ts', d', cs);
      var i :| 0 <= i < |cs| && Wrote(cs[i]) == Some(ViewDecision(ts, d));
      var j :| 0 <= j < |cs| && Wrote(cs[j]) == Some(ViewDecision(ts', d'));
      assert WroteAtMost(ts', d')(cs[i]) && WroteAtMost(ts, d)(cs[j]);
    }
  }

  lemma {:induction false} ConstantCounts<T>(n: nat, x: T, q: T -> bool)
    ensures Count(seq(n, _ => x), q) == if q(x) then n else 0
  {
    if n > 0 {
      assert seq(n, _ => x)[..n - 1] == seq(n - 1, _ => x);
      ConstantCounts(n - 1, x, q);
    }
  }

  lemma {:induction false} ConstantSums<T>(n: nat, x: T, g: T -> nat)
    ensures Sum(seq(n, _ => x), g) == n * g(x)
  {
    if n > 0 {
      assert seq(n, _ => x)[..n - 1] == seq(n - 1, _ => x);
      ConstantSums(n - 1, x, g);
      OneMoreTimes(n - 1, g(x));
    }
  }

  lemma SumOfCopies<T>(n: nat, x: T, g: T -> nat)
    requires g(x) >= 1
    ensures Sum(seq(n, _ => x), g) >= n
  {
    ConstantSums(n, x, g);
    TimesMonotone(1, g(x), n);
  }

  lemma OneMoreTimes(n: nat, m: nat)
    ensures (n + 1) * m == n * m + m
  {
  }

  lemma TimesMonotone(a: nat, b: nat, m: nat)
    requires a <= b
    ensures m * a <= m * b && a * m <= b * m
  {
  }

  function SimpleCollect(writes: seq<ViewDecision>, wrote: ViewDecision): Option<CollectData> {
    Some(CollectData(IncompleteProof(0, writes, Some(wrote)), None))
  }

  /** With more collects than a quorum, two different values can bind. */
  lemma TwoBindings(p: Params, len: nat)
    returns (cs: Normalized)
    requires len > p.Quorum()
    ensures |cs| == len && !OneBinding(p, cs)
  {
    var a, b := ViewDecision(1, Zero), ViewDecision(2, Entropy(Zero, 0));
    var x, y := SimpleCollect([a, b], a), SimpleCollect([a, b], b);
    var n, k := p.Quorum(), len - p.Quorum();
    CountPositive([a, b], NamesSince(a.view, a.digest));
    CountPositive([a, b], NamesSince(b.view, b.digest));
    assert NamesSince(a.view, a.digest)([a, b][0]) && NamesSince(b.view, b.digest)([a, b][1]);
    cs := seq(n, _ => x) + seq(k, _ => y);
    MixedBinds(p, n, k, x, y, a);
    MixedBinds(p, n, k, x, y, b);
  }

  lemma MixedBinds(p: Params, n: nat, k: nat, x: Option<CollectData>, y: Option<CollectData>, w: ViewDecision)
    requires n == p.Quorum() && k > 0 && w.view >= 0
    requires WroteAtMost(w.view, w.digest)(x)
    requires Wrote(x) == Some(w) || (Wrote(y) == Some(w) && WroteAtMost(w.view, w.digest)(y))
    requires Named(w.view, w.digest)(x) >= 1
    ensures Binds(p, w.view, w.digest, seq(n, _ => x) + seq(k, _ => y))
  {
    MixedCounts(n, k, x, y, WroteAtMost(w.view, w.digest));
    MixedCounts(n, k, x, y, WroteExactly(w.view, w.digest));
    MixedSums(n, k, x, y, Named(w.view, w.digest));
    TimesMonotone(1, Named(w.view, w.digest)(x), n);
  }

  lemma MixedCounts<T>(n: nat, k: nat, x: T, y: T, q: T -> bool)
    ensures Count(seq(n, _ => x) + seq(k, _ => y), q) == (if q(x) then n else 0) + if q(y) then k else 0
  {
    CountConcat(seq(n, _ => x), seq(k, _ => y), q);
    ConstantCounts(n, x, q);
    ConstantCounts(k, y, q);
  }

  lemma MixedSums<T>(n: nat, k: nat, x: T, y: T, g: T -> nat)
    ensures Sum(seq(n, _ => x) + seq(k, _ => y), g) >= n * g(x)
  {
    SumConcat(seq(n, _ => x), seq(k, _ => y), g);
    ConstantSums(n, x, g);
  }

  /** The verdict is independent of hash set order exactly up to quorum size. */
  lemma UniqueExactlyUpToQuorum(p: Params, len: nat)
    ensures (forall cs: Normalized :: |cs| == len ==> OneBinding(p, cs)) <==> len <= p.Quorum()
  {
    if len <= p.Quorum() {
      forall cs: Normalized | |cs| == len ensures OneBinding(p, cs) { BindingIsUnique(p, cs); }
    } else {
      var cs := TwoBindings(p, len);
    }
  }

  /** Two answers `sound` may give to one list of quorum size are the same. */
  lemma AnswerIsUnique(p: Params, cs: Normalized, r: Sound, r': Sound)
    requires |cs| <= p.Quorum() && SoundAnswer(p, cs, r) && SoundAnswer(p, cs, r')
    ensures r == r'
  {
    BindingIsUnique(p, cs);
  }

  lemma BindsPermutation(p: Params, ts: SeqNo, d: Digest, cs: Normalized, cs': Normalized)
    requires multiset(cs) == multiset(cs')
    ensures Binds(p, ts, d, cs) == Binds(p, ts, d, cs')
  {
    assert |multiset(cs)| == |cs| && |multiset(cs')| == |cs'|;
    CountPermutation(cs, cs', WroteExactly(ts, d));
    CountPermutation(cs, cs', WroteAtMost(ts, d));
    SumPermutation(cs, cs', Named(ts, d));
  }

  /** The order in which collects arrive does not matter. */
  lemma AnswerPermutation(p: Params, cs: Normalized, cs': Normalized, r: Sound)
    requires multiset(cs) == multiset(cs')
    ensures SoundAnswer(p, cs, r) <==> SoundAnswer(p, cs', r)
  {
    assert |multiset(cs)| == |cs| && |multiset(cs')| == |cs'|;
    CountPermutation(cs, cs', Unwritten());
    forall ts, d ensures Binds(p, ts, d, cs) == Binds(p, ts, d, cs') { BindsPermutation(p, ts, d, cs, cs'); }
  }

  // ---- the highest proof and the instance of the new view --------------------------------

  /** A COMMIT of the proof that carries the proposal's digest and a valid signature. */
  function Confirms(d: Digest, valid: Msg -> bool): Msg -> bool {
    (m: Msg) => m.message.HasProposedDigest(d) == Some(true) && valid(m)
  }

  predicate ValidProof(p: Params, valid: Msg -> bool, proof: Proof) {
    Count(proof.commits, Confirms(proof.prePrepare.header.digest, valid)) >= p.Quorum()
  }

  /** The last of the valid proofs with the greatest instance number. */
  function HighestProof(p: Params, valid: Msg -> bool, cs: seq<CollectData>): Option<Proof> {
    if cs == [] then None
    else
      var best, c := HighestProof(p, valid, cs[..|cs| - 1]), cs[|cs| - 1].lastProof;
      if c.None? || !ValidProof(p, valid, c.value) then best
      else if best.Some? && Number(best.value.prePrepare) > Number(c.value.prePrepare) then best
      else c
  }

  function CurrentCid(p: Params, valid: Msg -> bool, cs: seq<CollectData>): SeqNo {
    match HighestProof(p, valid, cs)
    case None => 0
    case Some(proof) => Wrap(Number(proof.prePrepare) + 1)
  }

  ghost predicate Offers(p: Params, valid: Msg -> bool, c: CollectData, proof: Proof) {
    c.lastProof == Some(proof) && ValidProof(p, valid, proof)
  }

  predicate AtLeast(best: Option<Proof>, proof: Proof) {
    best.Some? && Number(best.value.prePrepare) >= Number(proof.prePrepare)
  }

  lemma {:induction false} HighestProofIsMax(p: Params, valid: Msg -> bool, cs: seq<CollectData>)
    ensures var best := HighestProof(p, valid, cs);
            && (best.Some? ==> exists i :: 0 <= i < |cs| && Offers(p, valid, cs[i], best.value))
            && forall i, proof :: 0 <= i < |cs| && Offers(p, valid, cs[i], proof) ==> AtLeast(best, proof)
  {
    if cs != [] {
      var cs0, c := cs[..|cs| - 1], cs[|cs| - 1];
      HighestProofIsMax(p, valid, cs0);
      assert forall i :: 0 <= i < |cs0| ==> cs0[i] == cs[i];
      var best0, best := HighestProof(p, valid, cs0), HighestProof(p, valid, cs);
      if best0.Some? {
        var i :| 0 <= i < |cs0| && Offers(p, valid, cs0[i], best0.value);
        assert Offers(p, valid, cs[i], best0.value);
      }
      assert best.Some? && best != best0 ==> Offers(p, valid, cs[|cs| - 1], best.value);
      forall i, proof | 0 <= i < |cs| && Offers(p, valid, cs[i], proof)
        ensures AtLeast(best, proof)
      {
        if i < |cs0| {
          assert Offers(p, valid, cs0[i], proof);
          assert AtLeast(best0, proof);
        } else {
          assert cs[i] == c && c.lastProof == Some(proof);
        }
      }
    }
  }

  lemma NoProofs(p: Params, valid: Msg -> bool, cs: seq<CollectData>)
    requires forall i :: 0 <= i < |cs| ==> cs[i].lastProof.None?
    ensures CurrentCid(p, valid, cs) == 0
  {
    HighestProofIsMax(p, valid, cs);
  }

  lemma CidPermutation(p: Params, valid: Msg -> bool, cs: seq<CollectData>, cs': seq<CollectData>)
    requires multiset(cs) == multiset(cs')
    ensures CurrentCid(p, valid, cs) == CurrentCid(p, valid, cs')
  {
    HighestProofIsMax(p, valid, cs);
    HighestProofIsMax(p, valid, cs');
    NotHigher(p, valid, cs, cs');
    NotHigher(p, valid, cs', cs);
  }

  lemma NotHigher(p: Params, valid: Msg -> bool, cs: seq<CollectData>, cs': seq<CollectData>)
    requires multiset(cs) == multiset(cs')
    ensures var a, b := HighestProof(p, valid, cs), HighestProof(p, valid, cs');
            a.Some? ==> AtLeast(b, a.value)
  {
    HighestProofIsMax(p, valid, cs);
    HighestProofIsMax(p, valid, cs');
    var a := HighestProof(p, valid, cs);
    if a.Some? {
      var i :| 0 <= i < |cs| && Offers(p, valid, cs[i], a.value);
      assert cs[i] in multiset(cs');
      var j :| 0 <= j < |cs'| && cs'[j] == cs[i];
      assert Offers(p, valid, cs'[j], a.value);
    }
  }

  function Normalize(cid: SeqNo, c: CollectData): Option<CollectData> {
    if c.incomplete.inExec == cid then Some(c) else None
  }

  function NormalizeAll(cid: SeqNo, cs: seq<CollectData>): Normalized {
    seq(|cs|, i requires 0 <= i < |cs| => Normalize(cid, cs[i]))
  }

  lemma {:induction false} NormalizePermutation(cid: SeqNo, cs: seq<CollectData>, cs': seq<CollectData>)
    requires multiset(cs) == multiset(cs')
    ensures multiset(NormalizeAll(cid, cs)) == multiset(NormalizeAll(cid, cs'))
  {
    assert |multiset(cs)| == |cs| && |multiset(cs')| == |cs'|;
    if cs != [] {
      var c, cs0 := cs[|cs| - 1], cs[..|cs| - 1];
      assert cs == cs0 + [c];
      assert c in multiset(cs');
      var j :| 0 <= j < |cs'| && cs'[j] == c;
      var cs0' := cs'[..j] + cs'[j + 1..];
      assert cs' == cs'[..j] + [c] + cs'[j + 1..];
      assert multiset(cs) == multiset(cs0) + multiset{c} && multiset(cs') == multiset(cs0') + multiset{c};
      MultisetCancel(multiset(cs0), multiset(cs0'), multiset{c});
      NormalizePermutation(cid, cs0, cs0');
      NormalizeSplits(cid, cs0, c, []);
      NormalizeSplits(cid, cs'[..j], c, cs'[j + 1..]);
      assert cs0 + [c] + [] == cs && cs0 + [] == cs0;
    }
  }

  lemma NormalizeSplits(cid: SeqNo, a: seq<CollectData>, c: CollectData, b: seq<CollectData>)
    ensures multiset(NormalizeAll(cid, a + [c] + b)) ==
            multiset(NormalizeAll(cid, a + b)) + multiset{Normalize(cid, c)}
  {
    var xs, n, ys := NormalizeAll(cid, a), Normalize(cid, c), NormalizeAll(cid, b);
    assert NormalizeAll(cid, a + [c] + b) == xs + [n] + ys;
    assert NormalizeAll(cid, a + b) == xs + ys;
  }

  /** Leader and followers that see the same collects, in any order, compute the same
      instance and the same verdict. */
  lemma FollowersRepeatLeader(
    p: Params, valid: Msg -> bool, leader: seq<CollectData>, follower: seq<CollectData>, r: Sound, r': Sound)
    requires multiset(leader) == multiset(follower) && |leader| == p.Quorum()
    requires SoundAnswer(p, NormalizeAll(CurrentCid(p, valid, leader), leader), r)
    requires SoundAnswer(p, NormalizeAll(CurrentCid(p, valid, follower), follower), r')
    ensures CurrentCid(p, valid, leader) == CurrentCid(p, valid, follower) && r == r'
  {
    CidPermutation(p, valid, leader, follower);
    var cid := CurrentCid(p, valid, leader);
    NormalizePermutation(cid, leader, follower);
    AnswerPermutation(p, NormalizeAll(cid, leader), NormalizeAll(cid, follower), r');
    AnswerIsUnique(p, NormalizeAll(cid, leader), r, r');
  }
}
