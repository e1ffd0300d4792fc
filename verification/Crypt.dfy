/** Signed, hash-chained envelopes (internal/crypt/envelope.go, identity.go).

    Hashing and signing are ideal: a digest is the tuple of fields it covers and
    a signature is the pair of key and digest. Module Encoding shows that the
    byte string the source hashes determines exactly these fields. */
module Crypt {
  import opened Types

  type Key = nat

  datatype Kind =
    | KindAppendEntries | KindAppendResp | KindRequestVote | KindVoteResp
    | KindPreVote | KindPreVoteResp | KindProbe | KindProbeResp

  datatype Digest =
    | Genesis
    | Covers(from: NodeID, to: NodeID, kind: Kind, term: nat, seqNo: nat,
             prev: Digest, payload: Payload)

  datatype Signature =
    | Signed(key: Key, digest: Digest)
    | Noise(bytes: seq<nat>)

  type Keyring = map<NodeID, Key>

  datatype OpenResult = Opened | BadSignature | UnknownSender

  datatype Envelope = Envelope(from: NodeID, to: NodeID, kind: Kind, term: nat, seqNo: nat,
                               prevHash: Digest, payload: Payload, sig: Signature)
  {
    function Hash(): Digest {
      Covers(from, to, kind, term, seqNo, prevHash, payload)
    }

    // The sender stamps its own name and signs.
    function Seal(id: NodeID, key: Key): Envelope {
      var e := this.(from := id);
      e.(sig := Signed(key, e.Hash()))
    }

    function Open(ring: Keyring): OpenResult {
      if from !in ring then UnknownSender
      else if sig == Signed(ring[from], Hash()) then Opened
      else BadSignature
    }

    // A hostile hop rewrites the payload and leaves the signature alone.
    function Tamper(forged: Payload): Envelope {
      this.(payload := forged)
    }
  }

  // The message type each payload is sent under.
  function KindOf(p: Payload): Kind {
    match p
    case AppendReq(_, _, _, _, _, _) => KindAppendEntries
    case AppendResp(_, _, _, _) => KindAppendResp
    case VoteReq(_, _, _, _, pre) => if pre then KindPreVote else KindRequestVote
    case VoteResp(_, _, pre) => if pre then KindPreVoteResp else KindVoteResp
    case ProbeReq(_, _, _) => KindProbe
    case ProbeResp(_, _, _) => KindProbeResp
    case Garbled(_) => KindProbe
  }

  // What an attacker without keys can put on the wire: any envelope whose
  // signature was copied from one it has seen, or is made-up bytes.
  ghost predicate Forgeable(seen: set<Envelope>, e: Envelope) {
    e.sig.Noise? || exists o :: o in seen && o.sig == e.sig
  }

  // Every envelope in the set carries its sender's signature over its own fields.
  ghost predicate AllSealed(ring: Keyring, seen: set<Envelope>) {
    forall o :: o in seen ==> o.Open(ring) == Opened
  }

  // Whatever the attacker builds either is a message that was sent, unchanged,
  // or fails to open.
  lemma OnlySentMessagesOpen(ring: Keyring, seen: set<Envelope>, e: Envelope)
    requires AllSealed(ring, seen)
    requires Forgeable(seen, e)
    ensures e.Open(ring) == Opened <==> e in seen
  {
    if e.Open(ring) == Opened {
      var o :| o in seen && o.sig == e.sig;
      assert o.Open(ring) == Opened;
      assert o.Hash() == e.Hash();
      assert o == e;
    }
  }

  // Rewriting a sealed message breaks it exactly when the payload really changes.
  lemma TamperedFailsToOpen(ring: Keyring, e: Envelope, forged: Payload)
    requires e.Open(ring) == Opened
    ensures e.Tamper(forged).Open(ring) == BadSignature <==> forged != e.payload
    ensures e.Tamper(forged).Open(ring) != UnknownSender
  {
    assert e.Tamper(forged).Hash() == e.Hash() ==> forged == e.payload;
  }
}
