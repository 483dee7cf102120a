/** System parameters, views and quorum arithmetic (src/bft/core/mod.rs and the
    `ViewInfo` part of src/bft/core/server/mod.rs). */
module Core {
  import opened Wrappers
  import opened Ordering

  type NodeId = nat

  datatype Params = Params(n: nat, f: nat) {
    function Quorum(): nat {
      2 * f + 1
    }

    /** The sizes the library documents: a static group of `n = 3f + 1` nodes.
        With `f = 0` the vote counter of the PREPARE phase starts at the quorum
        and steps past its equality test. */
    predicate Standard() {
      n == 3 * f + 1 && f >= 1
    }
  }

  function NewParams(n: nat, f: nat): Option<Params> {
    if n < 3 * f + 1 then None else Some(Params(n, f))
  }

  datatype ViewInfo = ViewInfo(seqNo: SeqNo, params: Params) {
    function Peek(s: SeqNo): ViewInfo {
      ViewInfo(s, params)
    }

    function NextView(): ViewInfo {
      Peek(Next(seqNo))
    }

    /** The cast to `usize` sign-extends, as in the source. */
    function Leader(): NodeId
      requires params.n > 0
    {
      (if seqNo < 0 then 0x1_0000_0000_0000_0000 + seqNo else seqNo) % params.n
    }
  }

  /** The node ids from `lo` up to but excluding `hi`. */
  ghost function Range(lo: nat, hi: nat): (ids: set<NodeId>)
    ensures forall i: nat :: i in ids <==> lo <= i < hi
    ensures |ids| == if lo <= hi then hi - lo else 0
    decreases hi - lo
  {
    if lo >= hi then {} else {lo} + Range(lo + 1, hi)
  }

  lemma {:induction false} SubsetSize<T>(a: set<T>, b: set<T>)
    requires a <= b
    ensures |a| <= |b|
  {
    assert b == a + (b - a);
  }

  lemma UnionSize<T>(a: set<T>, b: set<T>)
    ensures |a + b| + |a * b| == |a| + |b|
  {
    assert a + b == a + (b - a);
    assert b == (b - a) + (a * b);
  }

  /** Two quorums of a standard system share a correct replica, whatever the faulty ones. */
  lemma QuorumsShareCorrect(p: Params, a: set<NodeId>, b: set<NodeId>, faulty: set<NodeId>)
    returns (common: NodeId)
    requires p.n == 3 * p.f + 1
    requires a <= Range(0, p.n) && b <= Range(0, p.n)
    requires |a| >= p.Quorum() && |b| >= p.Quorum() && |faulty| <= p.f
    ensures common in a && common in b && common !in faulty
  {
    SubsetSize(a + b, Range(0, p.n));
    UnionSize(a, b);
    if a * b <= faulty {
      SubsetSize(a * b, faulty);
      assert false;
    }
    common :| common in a * b && common !in faulty;
  }

  ghost predicate QuorumsAlwaysMeet(p: Params) {
    forall a: set<NodeId>, b: set<NodeId>, faulty: set<NodeId> ::
      && a <= Range(0, p.n) && b <= Range(0, p.n) && faulty <= Range(0, p.n)
      && |a| >= p.Quorum() && |b| >= p.Quorum() && |faulty| <= p.f
      ==> a * b - faulty != {}
  }

  /** The constructor admits every `n >= 3f + 1`, but with the fixed quorum of
      `2f + 1` any two quorums share a correct replica exactly when `n = 3f + 1`. */
  lemma QuorumsMeetExactly(n: nat, f: nat)
    requires NewParams(n, f).Some?
    ensures QuorumsAlwaysMeet(NewParams(n, f).value) <==> n == 3 * f + 1
  {
    var p := NewParams(n, f).value;
    if n == 3 * f + 1 {
      forall a: set<NodeId>, b: set<NodeId>, faulty: set<NodeId> |
        && a <= Range(0, p.n) && b <= Range(0, p.n) && faulty <= Range(0, p.n)
        && |a| >= p.Quorum() && |b| >= p.Quorum() && |faulty| <= p.f
        ensures a * b - faulty != {}
      {
        var c := QuorumsShareCorrect(p, a, b, faulty);
        assert c in a * b - faulty;
      }
    } else {
      DisjointQuorums(p);
    }
  }

  /** In a larger system two quorums may meet in at most `f` replicas, all of them faulty. */
  lemma DisjointQuorums(p: Params)
    requires p.n > 3 * p.f + 1
    ensures !QuorumsAlwaysMeet(p)
  {
    var lo := p.n - p.Quorum();
    var a, b := Range(0, p.Quorum()), Range(lo, p.n);
    var faulty := Range(lo, p.Quorum());
    assert a * b - faulty == {};
  }
}
