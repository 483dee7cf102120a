/** A view change keeps a decided value: what the verdict of `sound` can be once some
    correct replica has written it. */
module DecidedValue {
  import opened Wrappers
  import opened Ordering
  import opened Core
  import opened Messages
  import opened Counting
  import opened Soundness

  /** The views a collect mentions. */
  ghost function ViewsOf(c: Option<CollectData>): set<SeqNo> {
    if c.None? then {}
    else ViewsIn(c.value.incomplete.writeSet) + if Wrote(c).Some? then {Wrote(c).value.view} else {}
  }

  /** All views mentioned anywhere are non-negative and at most `gap` apart. */
  ghost predicate Within(cs: Normalized, gap: nat) {
    forall i, j, a, b :: 0 <= i < |cs| && 0 <= j < |cs| && a in ViewsOf(cs[i]) && b in ViewsOf(cs[j]) ==>
      a >= 0 && b >= 0 && Abs(a - b) <= gap
  }

  /** The collect of a replica that ran no view beyond `v`. */
  ghost predicate WritesUpTo(c: Option<CollectData>, v: SeqNo) {
    && (c.Some? ==> forall w :: w in c.value.incomplete.writeSet ==> w.view <= v)
    && (Wrote(c).Some? ==> Wrote(c).value.view <= v)
  }

  function Naming(w: Digest): ViewDecision -> bool {
    (x: ViewDecision) => x.digest == w
  }

  /** A write set that names no value more than `m` times. `certified_value` counts every
      mention. */
  ghost predicate NamesAtMost(c: Option<CollectData>, m: nat) {
    c.Some? ==> forall w :: Count(c.value.incomplete.writeSet, Naming(w)) <= m
  }

  /** A quorum of collects, all but those at `bad` (at most `k`) from correct replicas
      that ran no view beyond `v`, one of which wrote `d` in view `v`. The bad ones name
      no value more than `m` times. */
  ghost predicate Setting(p: Params, cs: Normalized, bad: set<nat>, k: nat, m: nat, v: SeqNo, d: Digest) {
    && |cs| == p.Quorum() && |bad| <= k && v >= 0
    && (forall i :: 0 <= i < |cs| && i !in bad ==> WritesUpTo(cs[i], v))
    && (forall i :: 0 <= i < |cs| && i in bad ==> NamesAtMost(cs[i], m))
    && (exists i :: 0 <= i < |cs| && i !in bad && Wrote(cs[i]) == Some(ViewDecision(v, d)))
  }

  /** The verdict is `Bound(d)` or not sound: never another value, never free. */
  ghost predicate KeepsValue(p: Params, cs: Normalized, d: Digest) {
    forall r :: SoundAnswer(p, cs, r) ==> r == Bound(d) || r == Unbound(false)
  }

  lemma {:induction false} SumOfFew<T>(xs: seq<T>, g: T -> nat, bad: set<nat>, m: nat)
    requires forall i :: 0 <= i < |xs| ==> g(xs[i]) <= if i in bad then m else 0
    ensures Sum(xs, g) <= |bad| * m
  {
    if xs != [] {
      var x0, n := xs[..|xs| - 1], |xs| - 1;
      assert forall i :: 0 <= i < |x0| ==> x0[i] == xs[i];
      SumOfFew(x0, g, bad - {n}, m);
      if n in bad {
        assert |bad| == |bad - {n}| + 1;
        OneMoreTimes(|bad - {n}|, m);
      } else {
        assert bad - {n} == bad;
      }
    }
  }

  lemma NamedAtMost(c: Option<CollectData>, m: nat, ts: SeqNo, w: Digest)
    requires NamesAtMost(c, m)
    ensures Named(ts, w)(c) <= m
  {
    if c.Some? { CountMonotone(c.value.incomplete.writeSet, NamesSince(ts, w), Naming(w)); }
  }

  /** A write set without a view as late as `ts` names nothing since `ts`. */
  lemma NamedNever(ws: seq<ViewDecision>, ts: SeqNo, w: Digest)
    requires forall x :: x in ws ==> 0 <= x.view < ts && ts - x.view <= OVERFLOW_THRES
    ensures Count(ws, NamesSince(ts, w)) == 0
  {
    forall i | 0 <= i < |ws| ensures !NamesSince(ts, w)(ws[i]) {
      assert ws[i] in ws;
      OrdersAgreeInWindow(ws[i].view, ts);
    }
    CountPositive(ws, NamesSince(ts, w));
  }

  /** A collect of a correct replica does not name a later timestamp within the window. */
  lemma NamesNothingLater(c: Option<CollectData>, v: SeqNo, ts: SeqNo, w: Digest)
    requires WritesUpTo(c, v) && v < ts
    requires forall a :: a in ViewsOf(c) ==> a >= 0 && Abs(a - ts) <= OVERFLOW_THRES
    ensures Named(ts, w)(c) == 0
  {
    if c.Some? {
      var ws := c.value.incomplete.writeSet;
      forall x | x in ws ensures 0 <= x.view < ts && ts - x.view <= OVERFLOW_THRES { assert x.view in ViewsOf(c); }
      NamedNever(ws, ts, w);
    }
  }

  /** A later timestamp cannot be certified: only the bad collects can name it. */
  lemma NotCertified(
    p: Params, cs: Normalized, bad: set<nat>, k: nat, m: nat, v: SeqNo, d: Digest, ts: SeqNo, w: Digest, j: nat)
    requires Setting(p, cs, bad, k, m, v, d) && Within(cs, OVERFLOW_THRES) && k * m <= p.f && ts > v
    requires j < |cs| && Wrote(cs[j]) == Some(ViewDecision(ts, w))
    ensures !CertifiedValue(p, ts, w, cs)
  {
    assert ts in ViewsOf(cs[j]);
    forall i | 0 <= i < |cs| ensures Named(ts, w)(cs[i]) <= if i in bad then m else 0 {
      if i in bad { NamedAtMost(cs[i], m, ts, w); } else { NamesNothingLater(cs[i], v, ts, w); }
    }
    SumOfFew(cs, Named(ts, w), bad, m);
    TimesMonotone(|bad|, k, m);
  }

  /** When a value written in view `v` by one correct replica is safe from the others: the
      new view cannot be later, or nobody claims a later one, or `k` bad collects cannot
      mention a value more than `f` times and no two views compare the wrong way round. */
  predicate Safe(p: Params, k: nat, m: nat, v: SeqNo, gap: nat) {
    v > 0 && (v == I32_MAX || gap == 0 || k == 0 || (k * m <= p.f && gap <= OVERFLOW_THRES))
  }

  /** Then the written value is the only one that can bind, and the new leader is not free
      to choose. */
  lemma WrittenValueSurvives(
    p: Params, cs: Normalized, bad: set<nat>, k: nat, m: nat, v: SeqNo, d: Digest, gap: nat)
    requires Setting(p, cs, bad, k, m, v, d) && Within(cs, gap) && Safe(p, k, m, v, gap)
    ensures KeepsValue(p, cs, d)
  {
    var a :| 0 <= a < |cs| && a !in bad && Wrote(cs[a]) == Some(ViewDecision(v, d));
    CountAtMost(cs, Unwritten());
    assert !Unwritten()(cs[a]);
    forall ts, w | Binds(p, ts, w, cs) ensures w == d {
      QuorumHighestIsAll(p, ts, w, cs);
      assert WroteAtMost(ts, w)(cs[a]);
      if ts != v {
        var j :| 0 <= j < |cs| && Wrote(cs[j]) == Some(ViewDecision(ts, w));
        assert ts in ViewsOf(cs[j]) && v in ViewsOf(cs[a]);
        assert j in bad;
        assert bad != {};
        assert Within(cs, OVERFLOW_THRES);
        NotCertified(p, cs, bad, k, m, v, d, ts, w, j);
      }
    }
  }

  // ---- each condition is needed -------------------------------------------------------------

  lemma ViewsBetween(cs: Normalized, lo: SeqNo, hi: SeqNo)
    requires 0 <= lo <= hi
    requires forall i :: 0 <= i < |cs| ==> MentionsBetween(cs[i], lo, hi)
    ensures Within(cs, hi - lo)
  {
    forall i, j, a, b | 0 <= i < |cs| && 0 <= j < |cs| && a in ViewsOf(cs[i]) && b in ViewsOf(cs[j])
      ensures a >= 0 && b >= 0 && Abs(a - b) <= hi - lo
    {
      assert MentionsBetween(cs[i], lo, hi) && MentionsBetween(cs[j], lo, hi);
    }
  }

  ghost predicate MentionsBetween(c: Option<CollectData>, lo: SeqNo, hi: SeqNo) {
    forall u :: u in ViewsOf(c) ==> lo <= u <= hi
  }

  lemma Overturned(p: Params, cs: Normalized, ts: SeqNo, w: Digest, d: Digest)
    requires Binds(p, ts, w, cs) && w != d
    ensures !KeepsValue(p, cs, d)
  {
    assert SoundAnswer(p, cs, Bound(w));
  }

  /** `b` claims, all alike, in front of collects that wrote earlier. */
  lemma ClaimsBind(
    p: Params, b: nat, m: nat, x: Option<CollectData>, y: Option<CollectData>, ts: SeqNo, w: Digest)
    requires 0 < b <= p.Quorum() && b * m > p.f
    requires WroteAtMost(ts, w)(x) && Wrote(y) == Some(ViewDecision(ts, w)) && Named(ts, w)(y) == m
    ensures Binds(p, ts, w, seq(b, _ => y) + seq(p.Quorum() - b, _ => x))
  {
    MixedCounts(b, p.Quorum() - b, y, x, WroteAtMost(ts, w));
    MixedCounts(b, p.Quorum() - b, y, x, WroteExactly(ts, w));
    MixedSums(b, p.Quorum() - b, y, x, Named(ts, w));
  }

  /** A collect that mentions its write `m` times. */
  function Repeated(m: nat, w: ViewDecision): Option<CollectData> {
    SimpleCollect(seq(m, _ => w), w)
  }

  lemma RepeatedNames(m: nat, w: ViewDecision)
    ensures NamesAtMost(Repeated(m, w), m) && (w.view >= 0 ==> Named(w.view, w.digest)(Repeated(m, w)) == m)
  {
    forall u ensures Count(seq(m, _ => w), Naming(u)) <= m { ConstantCounts(m, w, Naming(u)); }
    if w.view >= 0 { ConstantCounts(m, w, NamesSince(w.view, w.digest)); }
  }

  /** How many bad collects it takes: all of them, or one more than `f`. */
  function Claimants(p: Params, k: nat): nat {
    if k <= p.f then k else p.f + 1
  }

  lemma EnoughClaims(p: Params, k: nat, m: nat)
    requires k * m > p.f
    ensures 0 < Claimants(p, k) <= k && Claimants(p, k) * m > p.f && m > 0
  {
    assert m > 0 && k > 0;
    TimesMonotone(1, m, p.f + 1);
  }

  /** `certified_value` counts every mention: a value that bad collects list more than `f`
      times, even a single one, overturns a written value. */
  lemma RepeatsOverturn(p: Params, k: nat, m: nat, v: SeqNo) returns (cs: Normalized, bad: set<nat>, d: Digest)
    requires p.f >= 1 && k * m > p.f && 0 <= v < I32_MAX
    ensures Setting(p, cs, bad, k, m, v, d) && Within(cs, 1) && !KeepsValue(p, cs, d)
  {
    var w, b := Entropy(Zero, 0), Claimants(p, k);
    d := Zero;
    EnoughClaims(p, k, m);
    var x, y := SimpleCollect([ViewDecision(v, d)], ViewDecision(v, d)), Repeated(m, ViewDecision(v + 1, w));
    cs := seq(b, _ => y) + seq(p.Quorum() - b, _ => x);
    bad := Range(0, b);
    RepeatedNames(m, ViewDecision(v + 1, w));
    ClaimsBind(p, b, m, x, y, v + 1, w);
    Overturned(p, cs, v + 1, w, d);
    RepeatsSetting(p, cs, b, k, m, x, y, v, d);
  }

  lemma RepeatsSetting(
    p: Params, cs: Normalized, b: nat, k: nat, m: nat, x: Option<CollectData>, y: Option<CollectData>,
    v: SeqNo, d: Digest)
    requires p.f >= 1 && |cs| == p.Quorum() && b <= k && b <= p.f + 1 && v >= 0
    requires forall i :: 0 <= i < |cs| ==> cs[i] == if i < b then y else x
    requires x == SimpleCollect([ViewDecision(v, d)], ViewDecision(v, d)) && v < I32_MAX
    requires y == Repeated(m, ViewDecision(v + 1, Entropy(Zero, 0))) && NamesAtMost(y, m)
    ensures Setting(p, cs, Range(0, b), k, m, v, d) && Within(cs, 1)
  {
    assert Wrote(cs[2 * p.f]) == Some(ViewDecision(v, d));
    assert MentionsBetween(x, v, v + 1) && MentionsBetween(y, v, v + 1);
    ViewsBetween(cs, v, v + 1);
  }

  /** 10001 views ahead, `>=` reads an old write as a recent one: a single bad collect that
      claims a far view gets a value certified by the old writes of the correct ones. */
  lemma FarViewOverturns(p: Params, v: SeqNo) returns (cs: Normalized, d: Digest)
    requires p.f >= 1 && 0 < v < I32_MAX
    ensures Setting(p, cs, {0}, 1, 0, v, d) && Within(cs, OVERFLOW_THRES + 1) && !KeepsValue(p, cs, d)
  {
    var w := Entropy(Zero, 0);
    d := Zero;
    var past: SeqNo := if v - 1 <= I32_MAX - OVERFLOW_THRES - 1 then v - 1 else I32_MAX - OVERFLOW_THRES - 1;
    var ts: SeqNo := past + OVERFLOW_THRES + 1;
    var x := SimpleCollect([ViewDecision(v, d), ViewDecision(past, w)], ViewDecision(v, d));
    var y := SimpleCollect([], ViewDecision(ts, w));
    cs := [y] + seq(2 * p.f, _ => x);
    FarViewSets(p, cs, x, y, v, d);
    assert MentionsBetween(x, past, ts) && MentionsBetween(y, past, ts);
    ViewsBetween(cs, past, ts);
    FarViewNames(past, v, ts, d, w);
    FarViewBinds(p, x, y, ts, w);
    Overturned(p, cs, ts, w, d);
  }

  lemma FarViewSets(
    p: Params, cs: Normalized, x: Option<CollectData>, y: Option<CollectData>, v: SeqNo, d: Digest)
    requires p.f >= 1 && |cs| == p.Quorum() && v >= 0
    requires forall i :: 0 <= i < |cs| ==> cs[i] == if i == 0 then y else x
    requires WritesUpTo(x, v) && Wrote(x) == Some(ViewDecision(v, d)) && y.Some? && y.value.incomplete.writeSet == []
    ensures Setting(p, cs, {0}, 1, 0, v, d)
  {
    assert Wrote(cs[1]) == Some(ViewDecision(v, d));
  }

  lemma FarViewNames(past: SeqNo, v: SeqNo, ts: SeqNo, d: Digest, w: Digest)
    requires past >= 0 && ts - past > OVERFLOW_THRES
    ensures Named(ts, w)(SimpleCollect([ViewDecision(v, d), ViewDecision(past, w)], ViewDecision(v, d))) >= 1
  {
    var ws := [ViewDecision(v, d), ViewDecision(past, w)];
    OrdersAgreeInWindow(past, ts);
    assert NamesSince(ts, w)(ws[1]);
    CountPositive(ws, NamesSince(ts, w));
  }

  lemma FarViewBinds(p: Params, x: Option<CollectData>, y: Option<CollectData>, ts: SeqNo, w: Digest)
    requires p.f >= 1 && WroteAtMost(ts, w)(x) && Named(ts, w)(x) >= 1 && Wrote(y) == Some(ViewDecision(ts, w))
    ensures Binds(p, ts, w, [y] + seq(2 * p.f, _ => x))
  {
    var cs := [y] + seq(2 * p.f, _ => x);
    CountAtMost(cs, WroteAtMost(ts, w));
    CountPositive(cs, WroteExactly(ts, w));
    assert WroteExactly(ts, w)(cs[0]);
    SumConcat([y], seq(2 * p.f, _ => x), Named(ts, w));
    SumOfCopies(2 * p.f, x, Named(ts, w));
  }

  /** A write of view 0 counts as nothing written, so the new leader is free although
      a correct replica wrote `d`. */
  lemma ViewZeroIsFree(p: Params)
    returns (cs: Normalized, d: Digest)
    requires p.f >= 1
    ensures Setting(p, cs, {}, 0, 0, 0, d) && Within(cs, 0) && SoundAnswer(p, cs, Unbound(true))
  {
    d := Zero;
    cs := [SimpleCollect([ViewDecision(0, d)], ViewDecision(0, d))] + seq(2 * p.f, _ => None);
    assert cs[0] == SimpleCollect([ViewDecision(0, d)], ViewDecision(0, d));
    LoneWriterSets(p, cs, d);
    LoneWriterIsFree(p, cs, d);
  }

  lemma LoneWriterSets(p: Params, cs: Normalized, d: Digest)
    requires p.f >= 1 && |cs| == p.Quorum() && cs[0] == SimpleCollect([ViewDecision(0, d)], ViewDecision(0, d))
    requires forall i :: 1 <= i < |cs| ==> cs[i] == None
    ensures Setting(p, cs, {}, 0, 0, 0, d) && Within(cs, 0)
  {
    assert MentionsBetween(cs[0], 0, 0) && MentionsBetween(None, 0, 0);
    ViewsBetween(cs, 0, 0);
  }

  lemma LoneWriterIsFree(p: Params, cs: Normalized, d: Digest)
    requires p.f >= 1 && |cs| == p.Quorum() && Wrote(cs[0]) == Some(ViewDecision(0, d))
    requires forall i :: 1 <= i < |cs| ==> cs[i] == None
    ensures SoundAnswer(p, cs, Unbound(true))
  {
    CountAtMost(cs, Unwritten());
    forall ts, w ensures !Binds(p, ts, w, cs) {
      CountAtMost(cs, WroteAtMost(ts, w));
      assert !WroteAtMost(ts, w)(cs[1]);
    }
  }

  /** Every quorum of collects keeps the value that a correct replica wrote. */
  ghost predicate AlwaysKept(p: Params, k: nat, m: nat, v: SeqNo, gap: nat) {
    forall cs: Normalized, bad, d :: Setting(p, cs, bad, k, m, v, d) && Within(cs, gap) ==> KeepsValue(p, cs, d)
  }

  /** Exactly when that is: with up to `k` bad collects that name a value up to `m` times,
      and views up to `gap` apart, a value written in view `v` is never overturned if and
      only if `Safe` holds. */
  lemma WrittenValueExactly(p: Params, k: nat, m: nat, v: SeqNo, gap: nat)
    requires p.f >= 1 && v >= 0
    ensures AlwaysKept(p, k, m, v, gap) <==> Safe(p, k, m, v, gap)
  {
    if Safe(p, k, m, v, gap) {
      forall cs: Normalized, bad, d | Setting(p, cs, bad, k, m, v, d) && Within(cs, gap) ensures KeepsValue(p, cs, d) {
        WrittenValueSurvives(p, cs, bad, k, m, v, d, gap);
      }
    } else if v == 0 {
      var cs, d := ViewZeroIsFree(p);
      assert Setting(p, cs, {}, k, m, v, d) && Within(cs, gap) && !KeepsValue(p, cs, d);
    } else if k * m > p.f {
      var cs, bad, d := RepeatsOverturn(p, k, m, v);
      assert Setting(p, cs, bad, k, m, v, d) && Within(cs, gap);
    } else {
      var cs, d := FarViewOverturns(p, v);
      assert Setting(p, cs, {0}, k, m, v, d) && Within(cs, gap);
    }
  }
}
