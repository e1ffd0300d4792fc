/** Per-peer sequence numbers and hash chains (internal/crypt/chain.go). */
module Transcripts {
  import opened Types
  import opened Crypt

  // The value of one Transcript object.
  datatype Chain = Chain(sendHead: Digest, sendSeq: nat, recvHead: Digest, recvSeq: nat,
                         started: bool, gaps: nat, lastGapFrom: nat, lastGapTo: nat)

  const FRESH_CHAIN := Chain(Genesis, 0, Genesis, 0, false, 0, 0, 0)

  datatype AcceptResult = Accepted | Rejected(why: OpenResult) | Replayed

  // Stamp an outbound envelope, then advance the send side past it.
  function Stamp(c: Chain, env: Envelope, id: NodeID, key: Key): Envelope {
    env.(seqNo := c.sendSeq + 1, prevHash := c.sendHead).Seal(id, key)
  }

  function Stamped(c: Chain, env: Envelope, id: NodeID, key: Key): Chain {
    c.(sendSeq := c.sendSeq + 1, sendHead := Stamp(c, env, id, key).Hash())
  }

  function Judge(c: Chain, env: Envelope, ring: Keyring): AcceptResult {
    var o := env.Open(ring);
    if o != Opened then Rejected(o)
    else if env.seqNo <= c.recvSeq then Replayed
    else Accepted
  }

  predicate IsGap(c: Chain, env: Envelope) {
    c.started && (env.prevHash != c.recvHead || env.seqNo != c.recvSeq + 1)
  }

  // The receive side after Accept; a rejected envelope leaves it alone.
  function Received(c: Chain, env: Envelope, ring: Keyring): Chain {
    if Judge(c, env, ring) != Accepted then c
    else
      var g := if IsGap(c, env)
               then c.(gaps := c.gaps + 1, lastGapFrom := c.recvSeq, lastGapTo := env.seqNo)
               else c;
      g.(recvHead := env.Hash(), recvSeq := env.seqNo, started := true)
  }

  class Transcript {
    const peer: NodeID
    var sendHead: Digest
    var sendSeq: nat
    var recvHead: Digest
    var recvSeq: nat
    var started: bool
    var gaps: nat
    var lastGapFrom: nat
    var lastGapTo: nat

    function Value(): Chain
      reads this
    {
      Chain(sendHead, sendSeq, recvHead, recvSeq, started, gaps, lastGapFrom, lastGapTo)
    }

    constructor (peer: NodeID)
      ensures this.peer == peer && Value() == FRESH_CHAIN
    {
      this.peer := peer;
      sendHead, sendSeq, recvHead, recvSeq := Genesis, 0, Genesis, 0;
      started, gaps, lastGapFrom, lastGapTo := false, 0, 0, 0;
    }

    method Next(env: Envelope, id: NodeID, key: Key) returns (sealed: Envelope)
      modifies this
      ensures sealed == Stamp(old(Value()), env, id, key)
      ensures Value() == Stamped(old(Value()), env, id, key)
    {
      sendSeq := sendSeq + 1;
      sealed := env.(seqNo := sendSeq, prevHash := sendHead).Seal(id, key);
      sendHead := sealed.Hash();
    }

    method Accept(env: Envelope, ring: Keyring) returns (r: AcceptResult)
      modifies this
      ensures r == Judge(old(Value()), env, ring)
      ensures Value() == Received(old(Value()), env, ring)
    {
      var o := env.Open(ring);
      if o != Opened {
        return Rejected(o);
      }
      if env.seqNo <= recvSeq {
        return Replayed;
      }
      if started && (env.prevHash != recvHead || env.seqNo != recvSeq + 1) {
        gaps := gaps + 1;
        lastGapFrom, lastGapTo := recvSeq, env.seqNo;
      }
      recvHead := env.Hash();
      recvSeq := env.seqNo;
      started := true;
      return Accepted;
    }
  }
}
