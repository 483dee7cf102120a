/** The executor thread: a fold of the service's `update` over batches
    (src/bft/executable/mod.rs). */
module Executors {
  import opened Core
  import opened Messages
  import opened Logs

  /** A deterministic service. */
  datatype Service<!S, !P> = Service(initial: S, update: (S, Operation) -> (S, P))

  datatype UpdateReply<+P> = UpdateReply(to: NodeId, digest: Digest, payload: P)

  datatype ExecutionRequest<+S> =
    | InstallState(checkpoint: S, after: seq<Operation>)
    | DoUpdate(batch: seq<Update>)
    | UpdateAndGetAppstate(batch: seq<Update>)

  datatype Notice<+S, +P> =
    | Silent
    | ExecutionFinished(replies: seq<UpdateReply<P>>)
    | ExecutionFinishedWithAppstate(replies: seq<UpdateReply<P>>, appstate: S)

  /** The state after a list of operations. */
  function Replay<S, P>(svc: Service<S, P>, st: S, ops: seq<Operation>): S {
    if ops == [] then st else svc.update(Replay(svc, st, ops[..|ops| - 1]), ops[|ops| - 1]).0
  }

  function Replies<S, P>(svc: Service<S, P>, st: S, batch: seq<Update>): seq<UpdateReply<P>> {
    if batch == [] then []
    else
      var u, before := batch[|batch| - 1], batch[..|batch| - 1];
      var payload := svc.update(Replay(svc, st, Operations(before)), u.operation).1;
      Replies(svc, st, before) + [UpdateReply(u.from, u.digest, payload)]
  }

  function StateAfter<S, P>(svc: Service<S, P>, st: S, req: ExecutionRequest<S>): S {
    match req
    case InstallState(checkpoint, after) => Replay(svc, checkpoint, after)
    case DoUpdate(batch) => Replay(svc, st, Operations(batch))
    case UpdateAndGetAppstate(batch) => Replay(svc, st, Operations(batch))
  }

  function NoticeAfter<S, P>(svc: Service<S, P>, st: S, req: ExecutionRequest<S>): Notice<S, P> {
    match req
    case InstallState(_, _) => Silent
    case DoUpdate(batch) => ExecutionFinished(Replies(svc, st, batch))
    case UpdateAndGetAppstate(batch) =>
      ExecutionFinishedWithAppstate(Replies(svc, st, batch), StateAfter(svc, st, req))
  }

  /** The state once a queue of requests has been worked off. */
  function Drain<S, P>(svc: Service<S, P>, st: S, queue: seq<ExecutionRequest<S>>): S {
    if queue == [] then st else StateAfter(svc, Drain(svc, st, queue[..|queue| - 1]), queue[|queue| - 1])
  }

  class Executor<S, P> {
    const service: Service<S, P>
    var state: S

    constructor (service: Service<S, P>)
      ensures this.service == service && state == service.initial
    {
      this.service, state := service, service.initial;
    }

    /** One turn of the executor loop. */
    method Handle(req: ExecutionRequest<S>) returns (notice: Notice<S, P>)
      modifies this
      ensures state == StateAfter(service, old(state), req)
      ensures notice == NoticeAfter(service, old(state), req)
    {
      match req
      case InstallState(checkpoint, after) =>
        state := checkpoint;
        var i := 0;
        while i < |after|
          invariant 0 <= i <= |after| && state == Replay(service, checkpoint, after[..i])
        {
          assert after[..i + 1][..i] == after[..i];
          state := service.update(state, after[i]).0;
          i := i + 1;
        }
        assert after[..i] == after;
        notice := Silent;
      case DoUpdate(batch) =>
        var replies := Run(batch);
        notice := ExecutionFinished(replies);
      case UpdateAndGetAppstate(batch) =>
        var replies := Run(batch);
        notice := ExecutionFinishedWithAppstate(replies, state);
    }

    method Run(batch: seq<Update>) returns (replies: seq<UpdateReply<P>>)
      modifies this
      ensures state == Replay(service, old(state), Operations(batch))
      ensures replies == Replies(service, old(state), batch)
    {
      replies := [];
      var i := 0;
      while i < |batch|
        invariant 0 <= i <= |batch|
        invariant state == Replay(service, old(state), Operations(batch[..i]))
        invariant replies == Replies(service, old(state), batch[..i])
      {
        assert batch[..i + 1][..i] == batch[..i];
        assert Operations(batch[..i + 1])[..i] == Operations(batch[..i]);
        var (st, payload) := service.update(state, batch[i].operation);
        state := st;
        replies := replies + [UpdateReply(batch[i].from, batch[i].digest, payload)];
        i := i + 1;
      }
      assert batch[..i] == batch;
    }
  }

  lemma {:induction false} ReplayConcat<S, P>(svc: Service<S, P>, st: S, a: seq<Operation>, b: seq<Operation>)
    ensures Replay(svc, st, a + b) == Replay(svc, Replay(svc, st, a), b)
  {
    if b == [] {
      assert a + b == a;
    } else {
      assert (a + b)[..|a + b| - 1] == a + b[..|b| - 1];
      ReplayConcat(svc, st, a, b[..|b| - 1]);
    }
  }

  lemma {:induction false} DrainConcat<S, P>(
    svc: Service<S, P>, st: S, a: seq<ExecutionRequest<S>>, b: seq<ExecutionRequest<S>>)
    ensures Drain(svc, st, a + b) == Drain(svc, Drain(svc, st, a), b)
  {
    if b == [] {
      assert a + b == a;
    } else {
      assert (a + b)[..|a + b| - 1] == a + b[..|b| - 1];
      DrainConcat(svc, st, a, b[..|b| - 1]);
    }
  }
}
