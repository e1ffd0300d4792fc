/** What one receiver can conclude from one sender's stream, whatever the
    network drops, repeats, reorders or rewrites (internal/crypt/chain.go). */
module TranscriptLaw {
  import opened Types
  import opened Crypt
  import opened Transcripts

  function HeadOf(stream: seq<Envelope>): Digest {
    if stream == [] then Genesis else stream[|stream| - 1].Hash()
  }

  // What an honest sender emits to one peer: numbered from 1, each message
  // quoting the hash of the one before, all sealed.
  ghost predicate Stream(ring: Keyring, stream: seq<Envelope>) {
    forall i :: 0 <= i < |stream| ==>
      && stream[i].Open(ring) == Opened
      && stream[i].seqNo == i + 1
      && stream[i].prevHash == HeadOf(stream[..i])
  }

  // Next extends the stream, for any envelope it is given.
  lemma NextExtendsStream(ring: Keyring, stream: seq<Envelope>, c: Chain, env: Envelope, id: NodeID)
    requires Stream(ring, stream) && id in ring
    requires c.sendSeq == |stream| && c.sendHead == HeadOf(stream)
    ensures var sealed := Stamp(c, env, id, ring[id]);
      var c' := Stamped(c, env, id, ring[id]);
      && Stream(ring, stream + [sealed])
      && c'.sendSeq == |stream| + 1 && c'.sendHead == HeadOf(stream + [sealed])
      && sealed.payload == env.payload && sealed.to == env.to && sealed.kind == env.kind && sealed.term == env.term
  {
    var more := stream + [Stamp(c, env, id, ring[id])];
    forall i | 0 <= i < |more|
      ensures more[..i] == if i < |stream| then stream[..i] else stream
    {
    }
  }

  // ---------- What arrives ----------

  function ChainAfter(c: Chain, arrivals: seq<Envelope>, ring: Keyring): Chain {
    if arrivals == [] then c
    else Received(ChainAfter(c, arrivals[..|arrivals| - 1], ring), arrivals[|arrivals| - 1], ring)
  }

  // The sequence numbers accepted, in order.
  function AcceptedNumbers(arrivals: seq<Envelope>, ring: Keyring): seq<nat> {
    if arrivals == [] then []
    else
      var n := |arrivals| - 1;
      AcceptedNumbers(arrivals[..n], ring) +
      if Judge(ChainAfter(FRESH_CHAIN, arrivals[..n], ring), arrivals[n], ring) == Accepted
      then [arrivals[n].seqNo] else []
  }

  function Jumps(s: seq<nat>): nat {
    if |s| < 2 then 0
    else Jumps(s[..|s| - 1]) + if s[|s| - 1] == s[|s| - 2] + 1 then 0 else 1
  }

  // The last pair of neighbours that are not consecutive; none is (0, 0).
  function LastJump(s: seq<nat>): (nat, nat) {
    if |s| < 2 then (0, 0)
    else if s[|s| - 1] != s[|s| - 2] + 1 then (s[|s| - 2], s[|s| - 1])
    else LastJump(s[..|s| - 1])
  }

  ghost predicate Increasing(s: seq<nat>) {
    forall i, j :: 0 <= i < j < |s| ==> s[i] < s[j]
  }

  function Last(s: seq<nat>): nat {
    if s == [] then 0 else s[|s| - 1]
  }

  // Any schedule of one sender's messages, with forgeries mixed in.
  ghost predicate Schedule(ring: Keyring, stream: seq<Envelope>, arrivals: seq<Envelope>) {
    forall i :: 0 <= i < |arrivals| ==> Forgeable(ToSet(stream), arrivals[i])
  }

  lemma HonestArrival(ring: Keyring, stream: seq<Envelope>, e: Envelope)
    requires Stream(ring, stream) && Forgeable(ToSet(stream), e) && e.Open(ring) == Opened
    ensures 1 <= e.seqNo <= |stream| && e == stream[e.seqNo - 1]
  {
    forall o | o in ToSet(stream)
      ensures o.Open(ring) == Opened
    {
      var i :| 0 <= i < |stream| && stream[i] == o;
    }
    OnlySentMessagesOpen(ring, ToSet(stream), e);
    var i :| 0 <= i < |stream| && stream[i] == e;
  }

  // What the receive side knows after any schedule.
  ghost predicate Summary(ring: Keyring, stream: seq<Envelope>, c: Chain, taken: seq<nat>) {
    && Increasing(taken)
    && (forall i :: 0 <= i < |taken| ==> 1 <= taken[i] <= |stream|)
    && c.started == (taken != []) && c.recvSeq == Last(taken)
    && c.recvHead == HeadOf(stream[..Last(taken)])
    && c.gaps == Jumps(taken) && (c.lastGapFrom, c.lastGapTo) == LastJump(taken)
    && |taken| + c.gaps <= c.recvSeq
  }

  // Accepted numbers strictly increase; the gap counter is the number of
  // adjacent accepted pairs that are not consecutive, of which the last is remembered;
  // the received head is the sender's head as of the last accepted message.
  lemma {:induction false} TranscriptsTellTheTruth(ring: Keyring, stream: seq<Envelope>, arrivals: seq<Envelope>)
    requires Stream(ring, stream) && Schedule(ring, stream, arrivals)
    ensures Last(AcceptedNumbers(arrivals, ring)) <= |stream|
    ensures Summary(ring, stream, ChainAfter(FRESH_CHAIN, arrivals, ring), AcceptedNumbers(arrivals, ring))
  {
    if arrivals != [] {
      var n := |arrivals| - 1;
      TranscriptsTellTheTruth(ring, stream, arrivals[..n]);
      var c, taken := ChainAfter(FRESH_CHAIN, arrivals[..n], ring), AcceptedNumbers(arrivals[..n], ring);
      var e := arrivals[n];
      if Judge(c, e, ring) == Accepted {
        HonestArrival(ring, stream, e);
        AcceptedSummary(ring, stream, c, taken, e);
      } else {
        assert AcceptedNumbers(arrivals, ring) == taken;
      }
    }
  }

  lemma IncreasingSnoc(s: seq<nat>, n: nat)
    requires Increasing(s) && Last(s) < n
    ensures Increasing(s + [n])
  {
    var t := s + [n];
    forall i, j | 0 <= i < j < |t|
      ensures t[i] < t[j]
    {
      assert i < |s| - 1 ==> s[i] < s[|s| - 1];
    }
  }

  lemma JumpsSnoc(s: seq<nat>, n: nat)
    ensures Jumps(s + [n]) == Jumps(s) + if s == [] || n == Last(s) + 1 then 0 else 1
    ensures LastJump(s + [n]) == if s == [] || n == Last(s) + 1 then LastJump(s) else (Last(s), n)
  {
    assert (s + [n])[..|s + [n]| - 1] == s;
  }

  // The chain breaks exactly where the numbers are not consecutive.
  lemma GapIsAJump(ring: Keyring, stream: seq<Envelope>, c: Chain, taken: seq<nat>, e: Envelope)
    requires Stream(ring, stream) && Last(taken) <= |stream| && Summary(ring, stream, c, taken)
    requires 1 <= e.seqNo <= |stream| && e == stream[e.seqNo - 1]
    ensures IsGap(c, e) <==> taken != [] && e.seqNo != Last(taken) + 1
  {
    hide Increasing, Jumps, LastJump, Envelope.Open;
    if taken != [] && e.seqNo == Last(taken) + 1 {
      assert stream[..e.seqNo - 1] == stream[..Last(taken)];
    }
  }

  lemma AcceptedSummary(ring: Keyring, stream: seq<Envelope>, c: Chain, taken: seq<nat>, e: Envelope)
    requires Stream(ring, stream) && Last(taken) <= |stream| && Summary(ring, stream, c, taken)
    requires 1 <= e.seqNo <= |stream| && e == stream[e.seqNo - 1]
    requires Judge(c, e, ring) == Accepted
    ensures Summary(ring, stream, Received(c, e, ring), taken + [e.seqNo])
  {
    var n, more := e.seqNo, taken + [e.seqNo];
    IncreasingSnoc(taken, n);
    JumpsSnoc(taken, n);
    GapIsAJump(ring, stream, c, taken, e);
    assert stream[..n][n - 1] == e;
    hide Increasing, Jumps, LastJump, Envelope.Open, Stream, IsGap;
    assert Last(more) == n;
  }
}
