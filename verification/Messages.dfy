/** Messages of the consensus and view change sub-protocols
    (src/bft/communication/message/mod.rs). */
module Messages {
  import opened Wrappers
  import opened Ordering
  import opened Core

  /** A serialized client operation. */
  datatype Operation = Operation(payload: seq<bv8>)

  /** Hash digests, as terms: equal digests have equal pre-images. */
  datatype Digest =
    | Zero
    | OfOperation(op: Operation)
    | Entropy(of: Digest, nonce: nat)
    | OfMessage(message: ConsensusMessage)

  datatype Kind =
    | PrePrepare(requests: seq<Digest>)
    | Prepare(digest: Digest)
    | Commit(digest: Digest)

  datatype ConsensusMessage = ConsensusMessage(seqNo: SeqNo, view: SeqNo, kind: Kind) {
    function HasProposedDigest(d: Digest): Option<bool> {
      if kind.PrePrepare? then None else Some(kind.digest == d)
    }
  }

  datatype Header = Header(from: NodeId, digest: Digest, nonce: nat) {
    function UniqueDigest(): Digest {
      Entropy(digest, nonce)
    }
  }

  datatype Stored<+M> = Stored(header: Header, message: M)

  type Msg = Stored<ConsensusMessage>
  type Request = Stored<Operation>

  /** The header carries the hash of the payload it came with. */
  predicate Genuine(m: Msg) {
    m.header.digest == OfMessage(m.message)
  }

  predicate GenuineRequest(r: Request) {
    r.header.digest == OfOperation(r.message)
  }

  /** A client request with an empty payload. */
  function EmptyRequest(nonce: nat): Request {
    Stored(Header(0, OfOperation(Operation([])), nonce), Operation([]))
  }

  function EmptyDigest(nonce: nat): Digest {
    EmptyRequest(nonce).header.UniqueDigest()
  }

  function Number(m: Msg): SeqNo {
    m.message.seqNo
  }

  /** A value written in a view. */
  datatype ViewDecision = ViewDecision(view: SeqNo, digest: Digest)

  datatype IncompleteProof = IncompleteProof(
    inExec: SeqNo, writeSet: seq<ViewDecision>, quorumWrites: Option<ViewDecision>)

  datatype Proof = Proof(prePrepare: Msg, prepares: seq<Msg>, commits: seq<Msg>)

  datatype CollectData = CollectData(incomplete: IncompleteProof, lastProof: Option<Proof>)
}
