/** The log of consensus messages, and the certificates a replica extracts from it
    for a view change (src/bft/consensus/log/mod.rs, `DecisionLog`). */
module DecisionLogs {
  import opened Wrappers
  import opened Ordering
  import opened Core
  import opened Messages
  import opened Counting

  datatype Declog = Declog(
    lastExec: Option<SeqNo>, prePrepares: seq<Msg>, prepares: seq<Msg>, commits: seq<Msg>)

  const EMPTY_LOG: Declog := Declog(None, [], [], [])

  /** `Panic` stands for an `unreachable!()` that was reached. */
  datatype Outcome<+T> = Done(value: T) | Panic

  /** The instance being executed. The successor is computed on `u32`, so it is not `Next`. */
  function Executing(lastExec: Option<SeqNo>): SeqNo {
    match lastExec
    case None => 0
    case Some(last) => Wrap(last + 1)
  }

  lemma ExecutingIsNext(last: SeqNo)
    requires last >= 0
    ensures Executing(Some(last)) == Next(last) <==> last != I32_MAX
  {
  }

  function Insert(log: Declog, m: Msg): Declog {
    match m.message.kind
    case PrePrepare(_) => log.(prePrepares := log.prePrepares + [m])
    case Prepare(_) => log.(prepares := log.prepares + [m])
    case Commit(_) => log.(commits := log.commits + [m])
  }

  // ---- scans, each over list[..n] from the back ------------------------

  /** Views and digests proposed for instance `s`. */
  function WriteSet(list: seq<Msg>, n: nat, s: SeqNo): Outcome<seq<ViewDecision>>
    requires n <= |list|
  {
    if n == 0 then Done([])
    else
      var m := list[n - 1];
      match OrdCmp(Number(m), s)
      case Less => Done([])
      case Greater => Panic
      case Equal =>
        Prefixed([ViewDecision(m.message.view, m.header.digest)], WriteSet(list, n - 1, s))
  }

  /** The first value, from the back, with `quorum` consecutive PREPAREs in one view. */
  function QuorumWrite(list: seq<Msg>, n: nat, s: SeqNo, quorum: nat, lastView: Option<SeqNo>, count: nat)
    : Outcome<Option<ViewDecision>>
    requires n <= |list|
  {
    if n == 0 then Done(None)
    else
      var m := list[n - 1];
      match OrdCmp(Number(m), s)
      case Less => Done(None)
      case Greater => Panic
      case Equal =>
        var c := (if lastView.Some? && m.message.view != lastView.value then 0 else count) + 1;
        if c == quorum then
          if m.message.kind.Prepare?
          then Done(Some(ViewDecision(m.message.view, m.message.kind.digest)))
          else Panic
        else QuorumWrite(list, n - 1, s, quorum, Some(m.message.view), c)
  }

  function Prefixed<T>(buf: seq<T>, rest: Outcome<seq<T>>): Outcome<seq<T>> {
    if rest.Panic? then Panic else Done(buf + rest.value)
  }

  function ToBeDecided(log: Declog, f: nat): Outcome<IncompleteProof> {
    var s := Executing(log.lastExec);
    match WriteSet(log.prePrepares, |log.prePrepares|, s)
    case Panic => Panic
    case Done(writes) =>
      match QuorumWrite(log.prepares, |log.prepares|, s, 2 * f, None, 0)
      case Panic => Panic
      case Done(quorum) => Done(IncompleteProof(s, writes, quorum))
  }

  /** How much of list[..n] is left after skipping the messages behind instance `s`. */
  function SkipLater(list: seq<Msg>, n: nat, s: SeqNo): (k: nat)
    requires n <= |list|
    ensures k <= n
    ensures k > 0 ==> Number(list[k - 1]) == s
    ensures forall i :: k <= i < n ==> Number(list[i]) != s
  {
    if n == 0 || Number(list[n - 1]) == s then n else SkipLater(list, n - 1, s)
  }

  /** The run of messages for `s` in view `v` that ends list[..n], last one first. */
  function RunBack(list: seq<Msg>, n: nat, s: SeqNo, v: SeqNo): (run: seq<Msg>)
    requires n <= |list|
    ensures |run| <= n
    ensures forall i :: 0 <= i < |run| ==>
              run[i] == list[n - 1 - i] && Number(run[i]) == s && run[i].message.view == v
  {
    if n == 0 || Number(list[n - 1]) != s || list[n - 1].message.view != v then []
    else [list[n - 1]] + RunBack(list, n - 1, s, v)
  }

  /** The votes of the last view in which instance `s` was voted on. */
  function LastVotes(list: seq<Msg>, s: SeqNo): seq<Msg> {
    var n := SkipLater(list, |list|, s);
    if n == 0 then [] else RunBack(list, n, s, list[n - 1].message.view)
  }

  function LastDecision(log: Declog, p: Params): Outcome<Option<Proof>> {
    match log.lastExec
    case None => Done(None)
    case Some(s) =>
      var k := SkipLater(log.prePrepares, |log.prePrepares|, s);
      var prepares, commits := LastVotes(log.prepares, s), LastVotes(log.commits, s);
      if k == 0 then Panic
      else if |prepares| < 2 * p.f || |commits| < p.Quorum() then Done(None)
      else Done(Some(Proof(log.prePrepares[k - 1], prepares, commits)))
  }

  function Collect(log: Declog, p: Params): Outcome<CollectData> {
    match ToBeDecided(log, p.f)
    case Panic => Panic
    case Done(incomplete) =>
      match LastDecision(log, p)
      case Panic => Panic
      case Done(proof) => Done(CollectData(incomplete, proof))
  }

  // ---- truncation ------------------------------------------------------

  /** Where the maximal suffix of messages for instance `s` starts. */
  function SuffixStart(list: seq<Msg>, s: SeqNo): (k: nat)
    ensures k <= |list|
    ensures forall i :: k <= i < |list| ==> Number(list[i]) == s
    ensures k > 0 ==> Number(list[k - 1]) != s
  {
    if list == [] || Number(list[|list| - 1]) != s then |list|
    else SuffixStart(list[..|list| - 1], s)
  }

  function DropSuffix(list: seq<Msg>, s: SeqNo): seq<Msg> {
    list[..SuffixStart(list, s)]
  }

  /** The latest proposal with digest `d` at or after position `k` of list[..n]. */
  function LatestProposal(list: seq<Msg>, k: nat, n: nat, d: Digest): (r: Option<nat>)
    requires k <= n <= |list|
    ensures r.Some? ==> k <= r.value < n && list[r.value].header.digest == d
    ensures r.Some? ==> forall i :: r.value < i < n ==> list[i].header.digest != d
    ensures r.None? ==> forall i :: k <= i < n ==> list[i].header.digest != d
  {
    if n == k then None
    else if list[n - 1].header.digest == d then Some(n - 1)
    else LatestProposal(list, k, n - 1, d)
  }

  function ProposalFor(list: seq<Msg>, s: SeqNo, value: Option<Digest>): Option<Msg> {
    if value.None? then None
    else
      match LatestProposal(list, SuffixStart(list, s), |list|, value.value)
      case None => None
      case Some(i) => Some(list[i])
  }

  function ClearLastOccurrences(log: Declog, s: SeqNo): Declog {
    log.(prePrepares := DropSuffix(log.prePrepares, s),
         prepares := DropSuffix(log.prepares, s),
         commits := DropSuffix(log.commits, s))
  }

  function SwapRemove<T>(list: seq<T>, i: nat): seq<T>
    requires i < |list|
  {
    list[i := list[|list| - 1]][..|list| - 1]
  }

  // ---- the log as an object --------------------------------------------

  class DecisionLog {
    var lastExec: Option<SeqNo>
    var prePrepares: seq<Msg>
    var prepares: seq<Msg>
    var commits: seq<Msg>

    constructor ()
      ensures Value() == EMPTY_LOG
    {
      lastExec, prePrepares, prepares, commits := None, [], [], [];
    }

    ghost function Value(): Declog
      reads this
    {
      Declog(lastExec, prePrepares, prepares, commits)
    }

    method Push(m: Msg)
      modifies this
      ensures Value() == Insert(old(Value()), m)
    {
      match m.message.kind
      case PrePrepare(_) => prePrepares := prePrepares + [m];
      case Prepare(_) => prepares := prepares + [m];
      case Commit(_) => commits := commits + [m];
    }

    /** `to_be_decided`: the write set and the quorum write of the running instance. */
    method ExtractIncomplete(f: nat) returns (r: Outcome<IncompleteProof>)
      ensures r == ToBeDecided(Value(), f)
    {
      var inExec := Executing(lastExec);
      var writes := ScanProposals(prePrepares, inExec);
      var quorum := ScanPrepares(inExec, f);
      match (writes, quorum)
      case (Done(w), Done(q)) => r := Done(IncompleteProof(inExec, w, q));
      case _ => r := Panic;
    }

    static method ScanProposals(list: seq<Msg>, s: SeqNo) returns (r: Outcome<seq<ViewDecision>>)
      ensures r == WriteSet(list, |list|, s)
    {
      var buf: seq<ViewDecision> := [];
      var n := |list|;
      assert forall rest: seq<ViewDecision> :: [] + rest == rest;
      while n > 0
        invariant 0 <= n <= |list|
        invariant buf + [] == buf
        invariant WriteSet(list, |list|, s) == Prefixed(buf, WriteSet(list, n, s))
      {
        var m := list[n - 1];
        match OrdCmp(Number(m), s)
        case Less => return Done(buf);
        case Greater => return Panic;
        case Equal =>
          var w := ViewDecision(m.message.view, m.header.digest);
          assert forall rest: seq<ViewDecision> :: (buf + [w]) + rest == buf + ([w] + rest);
          buf := buf + [w];
          n := n - 1;
      }
      r := Done(buf);
    }

    method ScanPrepares(inExec: SeqNo, f: nat) returns (r: Outcome<Option<ViewDecision>>)
      ensures r == QuorumWrite(prepares, |prepares|, inExec, 2 * f, None, 0)
    {
      var quorum := 2 * f;
      var lastView: Option<SeqNo> := None;
      var count := 0;
      var n := |prepares|;
      while n > 0
        invariant 0 <= n <= |prepares|
        invariant QuorumWrite(prepares, |prepares|, inExec, quorum, None, 0) ==
                  QuorumWrite(prepares, n, inExec, quorum, lastView, count)
      {
        var m := prepares[n - 1];
        match OrdCmp(Number(m), inExec)
        case Less => return Done(None);
        case Greater => return Panic;
        case Equal =>
          if lastView.Some? && m.message.view != lastView.value { count := 0; }
          lastView := Some(m.message.view);
          count := count + 1;
          if count == quorum {
            if !m.message.kind.Prepare? { return Panic; }
            return Done(Some(ViewDecision(m.message.view, m.message.kind.digest)));
          }
          n := n - 1;
      }
      r := Done(None);
    }

    /** `last_decision`: the proof of the last executed instance. */
    method ExtractProof(p: Params) returns (r: Outcome<Option<Proof>>)
      ensures r == LastDecision(Value(), p)
    {
      if lastExec.None? { return Done(None); }
      var s := lastExec.value;
      var k := |prePrepares|;
      while k > 0 && Number(prePrepares[k - 1]) != s
        invariant 0 <= k <= |prePrepares|
        invariant SkipLater(prePrepares, |prePrepares|, s) == SkipLater(prePrepares, k, s)
      {
        k := k - 1;
      }
      if k == 0 { return Panic; }
      var prepares' := CollectVotes(prepares, s);
      if |prepares'| < 2 * p.f { return Done(None); }
      var commits' := CollectVotes(commits, s);
      if |commits'| < p.Quorum() { return Done(None); }
      r := Done(Some(Proof(prePrepares[k - 1], prepares', commits')));
    }

    /** The reverse scan with its `found` flag, shared by PREPAREs and COMMITs. */
    static method CollectVotes(list: seq<Msg>, s: SeqNo) returns (buf: seq<Msg>)
      ensures buf == LastVotes(list, s)
    {
      buf := [];
      var lastView: SeqNo := 0;
      var found := false;
      var n := |list|;
      while n > 0
        invariant 0 <= n <= |list|
        invariant !found ==> buf == [] && SkipLater(list, |list|, s) == SkipLater(list, n, s)
        invariant found ==> LastVotes(list, s) == buf + RunBack(list, n, s, lastView)
      {
        var m := list[n - 1];
        if !found {
          if Number(m) == s {
            found := true;
            lastView := m.message.view;
            buf := [m];
          }
        } else if Number(m) != s || m.message.view != lastView {
          break;
        } else {
          buf := buf + [m];
        }
        n := n - 1;
      }
    }

    /** `clear_last_occurrences`: index lists and swap-removals drop exactly the
        trailing messages of instance `s` and leave the rest in order. */
    method ClearInstance(s: SeqNo, value: Option<Digest>) returns (found: Option<Msg>)
      modifies this
      ensures Value() == ClearLastOccurrences(old(Value()), s)
      ensures found == ProposalFor(old(prePrepares), s, value)
    {
      prePrepares, found := ClearProposals(prePrepares, s, value);
      prepares := ClearList(prepares, s);
      commits := ClearList(commits, s);
    }

    static method ClearProposals(list: seq<Msg>, s: SeqNo, value: Option<Digest>)
      returns (r: seq<Msg>, found: Option<Msg>)
      ensures r == DropSuffix(list, s) && found == ProposalFor(list, s, value)
    {
      var scratch: seq<nat>, at: Option<nat>, n := [], None, |list|;
      while n > 0 && Number(list[n - 1]) == s
        invariant SuffixStart(list, s) <= n <= |list|
        invariant |scratch| == |list| - n
        invariant forall j :: 0 <= j < |scratch| ==> scratch[j] == |list| - 1 - j
        invariant at == if value.None? then None else LatestProposal(list, n, |list|, value.value)
      {
        n := n - 1;
        scratch := scratch + [n];
        if value.Some? {
          LatestProposalExtends(list, n, |list|, value.value);
          if at.None? && list[n].header.digest == value.value { at := Some(n); }
        }
      }
      assert n == SuffixStart(list, s);
      r, found := list, None;
      var j := 0;
      while j < |scratch|
        invariant 0 <= j <= |scratch|
        invariant r == list[..|list| - j]
        invariant at.Some? ==> n <= at.value < |r| && found.None?
        invariant ProposalFor(list, s, value) == if at.Some? then Some(list[at.value]) else found
      {
        var i := scratch[j];
        if at.Some? && i == at.value {
          found := Some(r[i]);
          at := None;
        }
        r := SwapRemove(r, i);
        j := j + 1;
      }
    }

    static method ClearList(list: seq<Msg>, s: SeqNo) returns (r: seq<Msg>)
      ensures r == DropSuffix(list, s)
    {
      var scratch: seq<nat> := [];
      var n := |list|;
      while n > 0 && Number(list[n - 1]) == s
        invariant SuffixStart(list, s) <= n <= |list|
        invariant |scratch| == |list| - n
        invariant forall j :: 0 <= j < |scratch| ==> scratch[j] == |list| - 1 - j
      {
        n := n - 1;
        scratch := scratch + [n];
      }
      r := list;
      var j := 0;
      while j < |scratch|
        invariant 0 <= j <= |scratch|
        invariant r == list[..|list| - j]
      {
        r := SwapRemove(r, scratch[j]);
        j := j + 1;
      }
    }
  }

  lemma {:induction false} LatestProposalExtends(list: seq<Msg>, k: nat, n: nat, d: Digest)
    requires k < n <= |list|
    ensures LatestProposal(list, k, n, d) ==
            var r := LatestProposal(list, k + 1, n, d);
            if r.None? && list[k].header.digest == d then Some(k) else r
  {
    if n > k + 1 { LatestProposalExtends(list, k, n - 1, d); }
  }

  // ---- what the scans return on an ordered log -------------------------

  function For(s: SeqNo): Msg -> bool {
    m => Number(m) == s
  }

  /** The messages of instance `s` in view `v`. */
  function Of(s: SeqNo, v: SeqNo): Msg -> bool {
    m => Number(m) == s && m.message.view == v
  }

  /** `a` is of an earlier instance, or of an earlier or the same view of the same one. */
  predicate NotAfter(a: Msg, b: Msg) {
    Number(a) < Number(b) || (Number(a) == Number(b) && a.message.view <= b.message.view)
  }

  /** Sorted by instance and view, and never ahead of view `v` of instance `s`. */
  ghost predicate Ordered(list: seq<Msg>, s: SeqNo, v: SeqNo) {
    && (forall i, j :: 0 <= i < j < |list| ==> NotAfter(list[i], list[j]))
    && (forall i :: 0 <= i < |list| ==> Number(list[i]) <= s)
    && UpTo(list, s, v)
  }

  /** The messages of instance `s` are of views up to `v`. */
  ghost predicate UpTo(list: seq<Msg>, s: SeqNo, v: SeqNo) {
    forall i :: 0 <= i < |list| && Number(list[i]) == s ==> list[i].message.view <= v
  }

  lemma OrderedAppend(list: seq<Msg>, s: SeqNo, v: SeqNo, m: Msg)
    requires Ordered(list, s, v) && Number(m) == s && m.message.view == v
    ensures Ordered(list + [m], s, v)
  {
  }

  lemma NoneBehind(list: seq<Msg>, s: SeqNo)
    requires forall i :: 0 <= i < |list| ==> Number(list[i]) != s
    ensures Count(list, For(s)) == 0
  {
    CountPositive(list, For(s));
  }

  /** The PREPAREs of view `u` in list[..n], with the `count` of view `last` already passed. */
  function Reached(list: seq<Msg>, n: nat, s: SeqNo, u: SeqNo, last: Option<SeqNo>, count: nat): nat
    requires n <= |list|
  {
    Count(list[..n], Of(s, u)) + if last == Some(u) then count else 0
  }

  /** Where the scan stands: in a view no later than any it has passed. */
  ghost predicate Scanning(list: seq<Msg>, n: nat, s: SeqNo, v: SeqNo, q: nat, last: Option<SeqNo>, count: nat) {
    && n <= |list| && Ordered(list, s, v) && count < q
    && (if last.None? then count == 0 else UpTo(list[..n], s, last.value))
    && (forall i :: 0 <= i < |list| ==> list[i].message.kind.Prepare?)
  }

  function Passed(m: Msg, last: Option<SeqNo>, count: nat): nat {
    (if last.Some? && m.message.view != last.value then 0 else count) + 1
  }

  lemma ReachedStep(list: seq<Msg>, n: nat, s: SeqNo, v: SeqNo, q: nat, last: Option<SeqNo>, count: nat, u: SeqNo)
    requires Scanning(list, n, s, v, q, last, count) && n > 0 && Number(list[n - 1]) == s
    ensures var w := list[n - 1].message.view;
            Reached(list, n, s, u, last, count) ==
            if u <= w then Reached(list, n - 1, s, u, Some(w), Passed(list[n - 1], last, count))
            else if last == Some(u) then count else 0
  {
    var m := list[n - 1];
    assert list[..n] == list[..n - 1] + [m];
    CountAppend(list[..n - 1], m, Of(s, u));
    if u > m.message.view { NoneOfView(list[..n - 1], s, u); }
  }

  lemma ScanningStep(list: seq<Msg>, n: nat, s: SeqNo, v: SeqNo, q: nat, last: Option<SeqNo>, count: nat)
    requires Scanning(list, n, s, v, q, last, count) && n > 0 && Number(list[n - 1]) == s
    requires Passed(list[n - 1], last, count) != q
    ensures Scanning(list, n - 1, s, v, q, Some(list[n - 1].message.view), Passed(list[n - 1], last, count))
  {
  }

  /** The scan finds the latest view with a quorum. */
  lemma {:induction false} QuorumWriteFrom(
    list: seq<Msg>, n: nat, s: SeqNo, v: SeqNo, q: nat, last: Option<SeqNo>, count: nat, u: SeqNo)
    requires Scanning(list, n, s, v, q, last, count)
    ensures var r := QuorumWrite(list, n, s, q, last, count);
            && r.Done?
            && (r.value.Some? ==> Reached(list, n, s, r.value.value.view, last, count) >= q)
            && (Reached(list, n, s, u, last, count) >= q ==> r.value.Some? && r.value.value.view >= u)
    decreases n
  {
    if n == 0 {
    } else if Number(list[n - 1]) < s {
      NoneOfView(list[..n], s, u);
    } else {
      var m := list[n - 1];
      ReachedStep(list, n, s, v, q, last, count, u);
      if Passed(m, last, count) == q {
        ReachedStep(list, n, s, v, q, last, count, m.message.view);
      } else {
        ScanningStep(list, n, s, v, q, last, count);
        QuorumWriteFrom(list, n - 1, s, v, q, Some(m.message.view), Passed(m, last, count), u);
        var r := QuorumWrite(list, n - 1, s, q, Some(m.message.view), Passed(m, last, count));
        if r.value.Some? {
          ReachedStep(list, n, s, v, q, last, count, r.value.value.view);
          if r.value.value.view > m.message.view { NoneOfView(list[..n - 1], s, r.value.value.view); }
        }
      }
    }
  }

  /** `m` is a PREPARE of instance `s` for the view and digest `x`. */
  ghost predicate Names(m: Msg, s: SeqNo, x: ViewDecision) {
    m.message == ConsensusMessage(s, x.view, Prepare(x.digest))
  }

  lemma {:induction false} QuorumWriteNames(
    list: seq<Msg>, n: nat, s: SeqNo, q: nat, last: Option<SeqNo>, count: nat)
    requires n <= |list|
    ensures var r := QuorumWrite(list, n, s, q, last, count);
            r.Done? && r.value.Some? ==> exists i :: 0 <= i < |list| && Names(list[i], s, r.value.value)
    decreases n
  {
    if n > 0 && Number(list[n - 1]) == s {
      var m := list[n - 1];
      if Passed(m, last, count) != q {
        QuorumWriteNames(list, n - 1, s, q, Some(m.message.view), Passed(m, last, count));
      } else if m.message.kind.Prepare? {
        assert Names(m, s, ViewDecision(m.message.view, m.message.kind.digest));
      }
    }
  }

  lemma NoneOfView(list: seq<Msg>, s: SeqNo, u: SeqNo)
    requires forall i :: 0 <= i < |list| ==> !(Number(list[i]) == s && list[i].message.view == u)
    ensures Count(list, Of(s, u)) == 0
  {
    CountPositive(list, Of(s, u));
  }

  /** On an ordered log the PREPARE scan never panics. It reports a quorum write exactly
      when some view has `q` PREPAREs, and then of the latest such view. */
  lemma QuorumWriteExact(list: seq<Msg>, s: SeqNo, v: SeqNo, q: nat, u: SeqNo)
    requires Ordered(list, s, v) && q > 0
    requires forall i :: 0 <= i < |list| ==> list[i].message.kind.Prepare?
    ensures var r := QuorumWrite(list, |list|, s, q, None, 0);
            && r.Done?
            && (r.value.Some? ==> Count(list, Of(s, r.value.value.view)) >= q)
            && (r.value.Some? ==> exists i :: 0 <= i < |list| && Names(list[i], s, r.value.value))
            && (Count(list, Of(s, u)) >= q ==> r.value.Some? && r.value.value.view >= u)
  {
    assert list[..|list|] == list;
    QuorumWriteFrom(list, |list|, s, v, q, None, 0, u);
    QuorumWriteNames(list, |list|, s, q, None, 0);
  }

  /** `x` is the view and digest of proposal `m`, one for `s`. */
  predicate Written(x: ViewDecision, m: Msg, s: SeqNo) {
    Number(m) == s && x == ViewDecision(m.message.view, m.header.digest)
  }

  /** On an ordered log the write set lists the proposals of `s`, from the last to the first,
      and nothing else. */
  lemma {:induction false} WriteSetExact(list: seq<Msg>, n: nat, s: SeqNo, v: SeqNo)
    requires n <= |list| && Ordered(list, s, v)
    ensures var r := WriteSet(list, n, s);
            && r.Done? && |r.value| == Count(list[..n], For(s)) <= n
            && forall i :: 0 <= i < |r.value| ==> Written(r.value[i], list[n - 1 - i], s)
  {
    if n > 0 {
      assert list[..n][..n - 1] == list[..n - 1];
      if Number(list[n - 1]) < s {
        NoneBehind(list[..n], s);
      } else {
        WriteSetExact(list, n - 1, s, v);
      }
    }
  }

  lemma {:induction false} RunBackAll(list: seq<Msg>, n: nat, s: SeqNo, v: SeqNo, q: Msg -> bool)
    requires n <= |list| && forall m :: q(m) ==> Of(s, v)(m)
    requires forall i, j :: 0 <= i < j < n ==> NotAfter(list[i], list[j])
    requires n > 0 ==> Number(list[n - 1]) <= s
    requires UpTo(list[..n], s, v)
    ensures Count(RunBack(list, n, s, v), q) == Count(list[..n], q)
  {
    if n > 0 {
      var x := list[n - 1];
      assert list[..n] == list[..n - 1] + [x];
      if Of(s, v)(x) {
        RunBackAll(list, n - 1, s, v, q);
        CountConcat([x], RunBack(list, n - 1, s, v), q);
        CountAppend(list[..n - 1], x, q);
        CountAppend([], x, q);
        assert [] + [x] == [x];
      } else {
        NoneBefore(list, n, s, v, q);
      }
    }
  }

  /** If the last message is not of the latest view of instance `s`, none is. */
  lemma NoneBefore(list: seq<Msg>, n: nat, s: SeqNo, v: SeqNo, q: Msg -> bool)
    requires 0 < n <= |list| && forall m :: q(m) ==> Of(s, v)(m)
    requires forall i, j :: 0 <= i < j < n ==> NotAfter(list[i], list[j])
    requires Number(list[n - 1]) <= s && UpTo(list[..n], s, v) && !Of(s, v)(list[n - 1])
    ensures Count(list[..n], q) == 0
  {
    CountPositive(list[..n], q);
    forall i | 0 <= i < n ensures !Of(s, v)(list[..n][i]) {
      assert list[..n][n - 1] == list[n - 1];
      assert i < n - 1 ==> NotAfter(list[i], list[n - 1]);
    }
  }

  lemma SkippedHasNone(list: seq<Msg>, s: SeqNo, q: Msg -> bool)
    requires forall m :: q(m) ==> Number(m) == s
    ensures Count(list, q) == Count(list[..SkipLater(list, |list|, s)], q)
  {
    var n := SkipLater(list, |list|, s);
    assert list == list[..n] + list[n..];
    CountConcat(list[..n], list[n..], q);
    CountPositive(list[n..], q);
  }

  /** The first vote of instance `s` from the back is of its latest view. */
  lemma LatestView(list: seq<Msg>, bound: SeqNo, top: SeqNo, s: SeqNo, v: SeqNo)
    requires Ordered(list, bound, top) && UpTo(list, s, v) && Count(list, Of(s, v)) > 0
    ensures var n := SkipLater(list, |list|, s); n > 0 && list[n - 1].message.view == v
  {
    var n := SkipLater(list, |list|, s);
    CountPositive(list, Of(s, v));
    var k :| 0 <= k < |list| && Of(s, v)(list[k]);
    assert k < n;
    assert k < n - 1 ==> NotAfter(list[k], list[n - 1]);
  }

  /** On an ordered log the vote scan collects the votes of the latest view of instance
      `s`: all of them, each as often as it was logged, and nothing else. */
  lemma LastVotesExact(list: seq<Msg>, bound: SeqNo, top: SeqNo, s: SeqNo, v: SeqNo, q: Msg -> bool)
    requires Ordered(list, bound, top) && UpTo(list, s, v) && Count(list, Of(s, v)) > 0
    requires forall m :: q(m) ==> Of(s, v)(m)
    ensures Count(LastVotes(list, s), q) == Count(list, q)
    ensures forall i :: 0 <= i < |LastVotes(list, s)| ==>
              LastVotes(list, s)[i] in list && Of(s, v)(LastVotes(list, s)[i])
  {
    LatestView(list, bound, top, s, v);
    SkippedHasNone(list, s, q);
    RunBackAll(list, SkipLater(list, |list|, s), s, v, q);
  }

  /** So there are as many as the view has votes. */
  lemma LastVotesCount(list: seq<Msg>, bound: SeqNo, top: SeqNo, s: SeqNo, v: SeqNo)
    requires Ordered(list, bound, top) && UpTo(list, s, v) && Count(list, Of(s, v)) > 0
    ensures |LastVotes(list, s)| == Count(list, Of(s, v))
  {
    LastVotesExact(list, bound, top, s, v, Of(s, v));
    CountAtMost(LastVotes(list, s), Of(s, v));
  }

  // ---- clearing an instance of an ordered log ------------------------------

  lemma {:induction false} DropSuffixCounts(list: seq<Msg>, c: SeqNo, q: Msg -> bool)
    requires forall m :: q(m) ==> Number(m) != c
    ensures DropSuffix(list, c) <= list && Count(DropSuffix(list, c), q) == Count(list, q)
  {
    if list != [] && Number(list[|list| - 1]) == c {
      var l0 := list[..|list| - 1];
      assert DropSuffix(list, c) == DropSuffix(l0, c);
      DropSuffixCounts(l0, c, q);
    } else {
      assert DropSuffix(list, c) == list;
    }
  }

  /** Clearing instance `c` leaves a prefix. It takes all of the instance or, when a later
      one is logged behind it, nothing. */
  lemma DropSuffixExact(list: seq<Msg>, c: SeqNo, s: SeqNo, v: SeqNo)
    requires Ordered(list, s, v)
    ensures var rest := DropSuffix(list, c);
            && rest <= list && Ordered(rest, s, v)
            && (if list != [] && Number(list[|list| - 1]) == c then Count(rest, For(c)) == 0 else rest == list)
  {
    var rest := DropSuffix(list, c);
    if list != [] && Number(list[|list| - 1]) == c {
      forall i | 0 <= i < |rest| ensures Number(rest[i]) != c {
        assert rest[|rest| - 1] == list[|rest| - 1];
        assert NotAfter(list[i], list[|rest| - 1]) || i == |rest| - 1;
        assert NotAfter(list[|rest| - 1], list[|list| - 1]);
      }
      NoneBehind(rest, c);
    }
  }
}
