/** What a replica makes of every message that arrives, and what it answers: the
    rules of internal/consensus/handlers.go in terms of the state before and after. */
module Conduct {
  import opened Types
  import opened Crypt
  import opened Transcripts
  import opened Logs
  import opened Rafts
  import opened NetMatrix
  import opened Nodes
  import opened Traffic
  import opened Requests

  // ---------- Who is told what ----------

  // The one thing said, and to whom.
  ghost predicate Answers(t: NodeState, to: NodeID, m: Payload) {
    var out := t.wire.outbox;
    |out| == 1 && out[0].from == t.id && out[0].to == to && out[0].payload == m
  }

  // The members other than p, in order.
  function Peers(members: seq<NodeID>, p: NodeID): seq<NodeID> {
    if members == [] then []
    else
      var n := |members| - 1;
      Peers(members[..n], p) + if members[n] == p then [] else [members[n]]
  }

  lemma PeersAreTheOthers(members: seq<NodeID>, p: NodeID)
    requires Ascending(members)
    ensures Ascending(Peers(members, p))
    ensures forall q :: q in Peers(members, p) <==> q in members && q != p
  {
    if members != [] {
      var n := |members| - 1;
      assert members == members[..n] + [members[n]];
      PeersAreTheOthers(members[..n], p);
      if members[n] != p {
        AscendingSnoc(Peers(members[..n], p), members[n]);
      }
    }
  }

  // p says one thing to each of these, in order.
  ghost predicate OneToEach(out: seq<Envelope>, p: NodeID, qs: seq<NodeID>) {
    |out| == |qs| && forall i :: 0 <= i < |out| ==> out[i].from == p && out[i].to == qs[i]
  }

  ghost predicate AllSay(out: seq<Envelope>, m: Payload) {
    forall e :: e in out ==> e.payload == m
  }

  // Each is asked, as the leader's log stands, to take what the leader thinks it lacks.
  ghost predicate AllServed(out: seq<Envelope>, r: Raft, p: NodeID) {
    forall e :: e in out ==>
      e.payload.AppendReq? && SpokenBy(r, p, e.payload) && e.payload.prevIndex + 1 == Due(r, e.to)
  }

  // The next entry a peer is taken to lack; by default the one after the last.
  function Due(r: Raft, q: NodeID): nat {
    if Get(r.nextIndex, q) != 0 then Get(r.nextIndex, q) else |r.log| + 1
  }

  // ---------- Broadcasts ----------

  // What is new in an outbox.
  function More(before: seq<Envelope>, after: seq<Envelope>): seq<Envelope> {
    if |before| <= |after| then after[|before|..] else []
  }

  lemma SendSaysOne(s: NodeState, to: NodeID, m: Payload)
    requires to in s.wire.sendTr
    ensures var out := Send(s, to, m).wire.outbox;
      && |out| == |s.wire.outbox| + 1 && s.wire.outbox <= out && More(s.wire.outbox, out) == [out[|s.wire.outbox|]]
      && out[|s.wire.outbox|].from == s.id && out[|s.wire.outbox|].to == to && out[|s.wire.outbox|].payload == m
  {
  }

  lemma MoreAdds(a: seq<Envelope>, b: seq<Envelope>, c: seq<Envelope>)
    requires a <= b <= c
    ensures a <= c && More(a, c) == More(a, b) + More(b, c)
  {
  }

  lemma PeersSnoc(members: seq<NodeID>, p: NodeID, n: nat)
    requires 0 < n <= |members|
    ensures Peers(members[..n], p)
         == Peers(members[..n - 1], p) + if members[n - 1] == p then [] else [members[n - 1]]
  {
    assert members[..n][..n - 1] == members[..n - 1];
  }

  // Since s it has said this to these peers, and done nothing else.
  ghost predicate Told(s: NodeState, b: NodeState, qs: seq<NodeID>, m: Payload) {
    && b.wire.sendTr.Keys == s.wire.sendTr.Keys && b.wire.recvTr == s.wire.recvTr && b == s.(wire := b.wire)
    && s.wire.outbox <= b.wire.outbox
    && OneToEach(More(s.wire.outbox, b.wire.outbox), s.id, qs) && AllSay(More(s.wire.outbox, b.wire.outbox), m)
  }

  lemma TellsOneMore(s: NodeState, b: NodeState, qs: seq<NodeID>, m: Payload, q: NodeID)
    requires Told(s, b, qs, m) && q in s.wire.sendTr
    ensures Told(s, Send(b, q, m), qs + [q], m)
  {
    SendSaysOne(b, q, m);
    MoreAdds(s.wire.outbox, b.wire.outbox, Send(b, q, m).wire.outbox);
    hide More;
  }

  lemma SameTells(cfg: Config, s: NodeState, m: Payload, n: nat)
    requires n <= |cfg.members| && s.wire.sendTr.Keys == ToSet(cfg.members) - {s.id}
    ensures Told(s, BroadcastSame(cfg, s, m, n), Peers(cfg.members[..n], s.id), m)
  {
    if n > 0 {
      SameTells(cfg, s, m, n - 1);
      PeersSnoc(cfg.members, s.id, n);
      var b, q := BroadcastSame(cfg, s, m, n - 1), cfg.members[n - 1];
      SameOnlySends(cfg, s, m, n - 1);
      hide Told, Send, Peers;
      if q != s.id {
        TellsOneMore(s, b, Peers(cfg.members[..n - 1], s.id), m, q);
      }
    }
  }

  lemma SameSays(cfg: Config, s: NodeState, m: Payload)
    requires s.wire.sendTr.Keys == ToSet(cfg.members) - {s.id}
    ensures Told(s, BroadcastSame(cfg, s, m, |cfg.members|), Peers(cfg.members, s.id), m)
  {
    assert cfg.members[..|cfg.members|] == cfg.members;
    SameTells(cfg, s, m, |cfg.members|);
    hide Told, BroadcastSame, Peers;
  }

  // Sending requests is no more than that, but for a peer's next index that was missing.
  ghost predicate NextsFilled(cfg: Config, p: NodeID, r: Raft, r': Raft) {
    && r' == r.(nextIndex := r'.nextIndex)
    && forall q ::
         || Get(r'.nextIndex, q) == Get(r.nextIndex, q)
         || (q in cfg.members && q != p && Get(r.nextIndex, q) == 0 && Get(r'.nextIndex, q) == |r.log| + 1)
  }

  // Since s it has asked these peers, and done nothing else.
  ghost predicate Asked(cfg: Config, s: NodeState, b: NodeState, qs: seq<NodeID>) {
    && b.wire.sendTr.Keys == s.wire.sendTr.Keys && b.wire.recvTr == s.wire.recvTr
    && b == s.(wire := b.wire, raft := b.raft) && NextsFilled(cfg, s.id, s.raft, b.raft)
    && s.wire.outbox <= b.wire.outbox
    && OneToEach(More(s.wire.outbox, b.wire.outbox), s.id, qs)
    && AllServed(More(s.wire.outbox, b.wire.outbox), s.raft, s.id)
  }

  lemma AppendSays(cfg: Config, s: NodeState, n: nat)
    requires n <= |cfg.members| && s.wire.sendTr.Keys == ToSet(cfg.members) - {s.id} && s.raft.role == Leader
    ensures Asked(cfg, s, BroadcastAppend(cfg, s, n), Peers(cfg.members[..n], s.id))
  {
    if n > 0 {
      AppendSays(cfg, s, n - 1);
      PeersSnoc(cfg.members, s.id, n);
      var b, q := BroadcastAppend(cfg, s, n - 1), cfg.members[n - 1];
      hide Asked, SendAppend, Peers;
      if q != s.id {
        AsksOneMore(cfg, s, b, Peers(cfg.members[..n - 1], s.id), q);
      }
      assert b.id == s.id by { StillNamed(cfg, s, b, Peers(cfg.members[..n - 1], s.id)); }
    }
  }

  lemma StillNamed(cfg: Config, s: NodeState, b: NodeState, qs: seq<NodeID>)
    requires Asked(cfg, s, b, qs)
    ensures b.id == s.id
  {
  }

  lemma AsksOneMore(cfg: Config, s: NodeState, b: NodeState, qs: seq<NodeID>, q: NodeID)
    requires Asked(cfg, s, b, qs) && q in cfg.members && q != s.id && s.raft.role == Leader
    requires s.wire.sendTr.Keys == ToSet(cfg.members) - {s.id}
    ensures Asked(cfg, s, SendAppend(b, q), qs + [q])
  {
    var m := AppendFor(b.raft, b.id, q);
    ServedBy(cfg, s.raft, b.raft, s.id, q);
    hide AppendFor, SpokenBy, NextsFilled;
    SendSaysOne(b.(raft := RememberNext(b.raft, q)), q, m);
    MoreAdds(s.wire.outbox, b.wire.outbox, SendAppend(b, q).wire.outbox);
    hide More, RememberNext;
  }

  lemma ServedBy(cfg: Config, r: Raft, b: Raft, p: NodeID, q: NodeID)
    requires r.role == Leader && NextsFilled(cfg, p, r, b) && q in cfg.members && q != p
    ensures var m := AppendFor(b, p, q); m.AppendReq? && SpokenBy(r, p, m) && m.prevIndex + 1 == Due(r, q)
    ensures NextsFilled(cfg, p, r, RememberNext(b, q))
  {
    AppendForSpoken(b, p, q);
    OnlyNextChanges(b, r, p, AppendFor(b, p, q));
    hide SpokenBy;
  }

  // ---------- The ear ----------

  ghost predicate Genuine(cfg: Config, s: NodeState, env: Envelope) {
    && env.from in s.wire.recvTr && env.Open(cfg.ring) == Opened
    && env.seqNo > s.wire.recvTr[env.from].recvSeq
  }

  // The chain moves on to the envelope; a break in it is counted and remembered.
  ghost predicate ChainTook(c: Chain, env: Envelope, c': Chain) {
    var broken := c.started && (env.seqNo != c.recvSeq + 1 || env.prevHash != c.recvHead);
    && c'.recvSeq == env.seqNo && c'.recvHead == env.Hash() && c'.started
    && c'.sendSeq == c.sendSeq && c'.sendHead == c.sendHead
    && c'.gaps == c.gaps + (if broken then 1 else 0)
    && c'.lastGapFrom == (if broken then c.recvSeq else c.lastGapFrom)
    && c'.lastGapTo == (if broken then env.seqNo else c.lastGapTo)
  }

  // h is s when it has heard the envelope and not acted on it yet.
  ghost predicate Heeds(cfg: Config, s: NodeState, env: Envelope, h: NodeState) {
    && env.from in s.wire.recvTr && h == s.(links := h.links, wire := h.wire, stats := h.stats)
    && h.wire.sendTr == s.wire.sendTr && h.wire.outbox == []
    && h.wire.recvTr.Keys == s.wire.recvTr.Keys
    && (forall q :: q in s.wire.recvTr && q != env.from ==> h.wire.recvTr[q] == s.wire.recvTr[q])
    && ChainTook(s.wire.recvTr[env.from], env, h.wire.recvTr[env.from])
    && h.stats == s.stats.(chainGaps := Max(s.stats.chainGaps, h.wire.recvTr[env.from].gaps))
    && h.links.heardFrom == s.links.heardFrom + {env.from} && h.links.inboundUp == s.links.inboundUp + {env.from}
    && h.links.lastHeard == s.links.lastHeard[env.from := s.clock.tick]
    && h.links.view.owner == s.links.view.owner && h.links.view.members == s.links.view.members
    && forall a, b :: h.links.view.CanSend(a, b) <==>
         s.links.view.CanSend(a, b) || (a == env.from && b == s.links.view.owner)
  }

  lemma EdgeInUp(v: Matrix, from: NodeID)
    ensures forall a, b :: v.SetEdge(from, v.owner, true).CanSend(a, b) <==>
      v.CanSend(a, b) || (a == from && b == v.owner)
  {
    if from != v.owner {
      SetEdgeIsExact(v, from, v.owner, true);
    }
  }

  lemma Heeding(cfg: Config, p: NodeID, s: NodeState, env: Envelope, draw: nat) returns (h: NodeState)
    requires cfg.Valid() && WellWired(cfg, p, s) && Genuine(cfg, s, env)
    ensures Heeds(cfg, s, env, h) && WellWired(cfg, p, h) && env.from in h.wire.sendTr
    ensures Deliver(cfg, s, env, draw) == Dispatch(cfg, h, env.from, env.kind, env.payload, draw)
  {
    h := Heard(s.(wire := s.wire.(outbox := [])), env, cfg.ring);
    EdgeInUp(s.links.view, env.from);
    hide Dispatch, Matrix.CanSend, Matrix.SetEdge;
    assert h.wire.recvTr.Keys == s.wire.recvTr.Keys;
  }

  // A message that is forged, from a stranger, or not newer than the last one taken
  // from its sender leaves the replica as it was and gets no answer.
  lemma OthersAreIgnored(cfg: Config, s: NodeState, env: Envelope, draw: nat)
    requires cfg.Valid() && !Genuine(cfg, s, env)
    ensures var t, known := Deliver(cfg, s, env, draw), env.from in s.wire.recvTr;
      && t == s.(wire := s.wire.(outbox := []), stats := t.stats)
      && t.stats == s.stats.(badSig := t.stats.badSig, replays := t.stats.replays)
      && t.stats.badSig == s.stats.badSig + (if known && env.Open(cfg.ring) != Opened then 1 else 0)
      && t.stats.replays == s.stats.replays + (if known && env.Open(cfg.ring) == Opened then 1 else 0)
  {
  }

  // ---------- What a handler leaves alone ----------

  // t differs from h in its consensus state, its timer and what it has said.
  ghost predicate Acts(h: NodeState, t: NodeState) {
    && t == h.(raft := t.raft, clock := t.clock, wire := t.wire) && t.wire.recvTr == h.wire.recvTr
    && t.clock == h.clock.(electionElapsed := t.clock.electionElapsed, electionTimeout := t.clock.electionTimeout)
  }

  ghost predicate TimerRestarts(cfg: Config, k: Clock, draw: nat) {
    k.electionElapsed == 0 && k.electionTimeout == cfg.timeout + draw
  }

  // It says nothing and nothing about it has changed.
  ghost predicate Idle(h: NodeState, t: NodeState) {
    t == h && t.wire.outbox == []
  }

  // Elections aside, it has come into a later term that nobody leads yet.
  ghost predicate Yields(cfg: Config, h: NodeState, term: nat, draw: nat, t: NodeState) {
    && Acts(h, t) && TimerRestarts(cfg, t.clock, draw)
    && t.raft == h.raft.(role := Follower, term := term, votedFor := None, leaderID := None)
  }

  // ---------- Requests to append ----------

  // The last common point of the leader's log and this one is where the request says.
  predicate Fits(log: Log, m: Payload)
    requires m.AppendReq?
  {
    && m.prevIndex <= |log|
    && (if m.prevIndex == 0 then m.prevTerm == 0 else log[m.prevIndex - 1].term == m.prevTerm)
  }

  // The entry is there already.
  predicate Has(log: Log, i: nat, e: Entry) {
    i < |log| && log[i].term == e.term
  }

  predicate FirstMissing(log: Log, prev: nat, entries: seq<Entry>, i: nat)
    requires i < |entries|
  {
    !Has(log, prev + i, entries[i]) && forall j :: 0 <= j < i ==> Has(log, prev + j, entries[j])
  }

  // From the first entry that is not there on, the request's; if all are, no change.
  ghost predicate Installed(log: Log, prev: nat, entries: seq<Entry>, log': Log)
    requires prev <= |log|
  {
    && ((forall i :: 0 <= i < |entries| ==> Has(log, prev + i, entries[i])) ==> log' == log)
    && forall i :: 0 <= i < |entries| && FirstMissing(log, prev, entries, i) ==>
         prev + i <= |log| && log' == log[..prev + i] + entries[i..]
  }

  lemma SpliceInstalled(log: Log, prev: nat, entries: seq<Entry>)
    requires prev <= |log|
    ensures Installed(log, prev, entries, Splice(log, prev, entries))
  {
    var k := Agreeing(log, prev, entries);
    hide Agreeing;
    assert forall i :: 0 <= i < k ==> Has(log, prev + i, entries[i]);
    assert k < |entries| ==> !Has(log, prev + k, entries[k]);
  }

  // A higher commit index is followed as far as the log goes, a lower one ignored.
  ghost predicate CommitFollows(before: nat, leaders: nat, length: nat, after: nat) {
    if leaders <= before then after == before
    else after <= leaders && after <= length && (after == leaders || after == length)
  }

  // Whoever sent the request is now the leader it follows.
  ghost predicate Follows(cfg: Config, r: Raft, from: NodeID, term: nat, r': Raft) {
    && r'.role == Follower && r'.term == term && r'.leaderID == Some(from)
    && r'.votedFor == (if term == r.term && (r.role == Follower || cfg.rule == KeepVote) then r.votedFor else None)
    && r' == r.(role := r'.role, term := r'.term, leaderID := r'.leaderID, votedFor := r'.votedFor,
                log := r'.log, commitIndex := r'.commitIndex)
  }

  // A request of an older term is refused and changes nothing. Any other makes its
  // sender the leader followed; where it fits its entries are taken, its commit index
  // followed and the taking acknowledged, and where it does not the reply says from
  // where to try again: its own previous index, or just past the end if that is less.
  ghost predicate TakesUp(cfg: Config, h: NodeState, from: NodeID, m: Payload, draw: nat, t: NodeState)
    requires m.AppendReq?
  {
    var r, r' := h.raft, t.raft;
    && Acts(h, t)
    && if m.term < r.term then
         r' == r && t.clock == h.clock && Answers(t, from, AppendResp(r.term, false, 0, 0))
       else
         && Follows(cfg, r, from, m.term, r') && TimerRestarts(cfg, t.clock, draw)
         && if Fits(r.log, m) then
              && Installed(r.log, m.prevIndex, m.entries, r'.log)
              && CommitFollows(r.commitIndex, m.leaderCommit, |r'.log|, r'.commitIndex)
              && Answers(t, from, AppendResp(m.term, true,
                   if cfg.ack == WholeLog then |r'.log| else m.prevIndex + |m.entries|, 0))
            else
              && r'.log == r.log && r'.commitIndex == r.commitIndex
              && Answers(t, from, AppendResp(m.term, false, 0,
                   if m.prevIndex <= |r.log| then m.prevIndex else |r.log| + 1))
  }

  lemma SendAnswers(s: NodeState, to: NodeID, m: Payload)
    requires to in s.wire.sendTr && s.wire.outbox == []
    ensures var t := Send(s, to, m); Answers(t, to, m) && t == s.(wire := t.wire) && t.wire.recvTr == s.wire.recvTr
  {
  }

  lemma RequestTakenUp(cfg: Config, h: NodeState, from: NodeID, m: Payload, draw: nat)
    requires m.AppendReq? && from in h.wire.sendTr && h.wire.outbox == []
    ensures TakesUp(cfg, h, from, m, draw, HandleAppendReq(cfg, h, from, m, draw))
  {
    hide Splice, Send, Installed, Answers;
    if m.term < h.raft.term {
      SendAnswers(h, from, AppendResp(h.raft.term, false, 0, 0));
    } else {
      var a := Adopt(cfg, h, from, m.term, draw);
      if !Matches(a.raft.log, m.prevIndex, m.prevTerm) {
        SendAnswers(a, from, AppendResp(a.raft.term, false, 0, ConflictIndex(a.raft.log, m.prevIndex)));
      } else {
        var t := a.(raft := TakeEntries(a.raft, m.prevIndex, m.entries, m.leaderCommit));
        SpliceInstalled(a.raft.log, m.prevIndex, m.entries);
        SendAnswers(t, from, AppendResp(t.raft.term, true, AckIndex(cfg.ack, t.raft.log, m.prevIndex, m.entries), 0));
      }
    }
  }

  lemma RequestsAreTakenUp(cfg: Config, p: NodeID, s: NodeState, env: Envelope, draw: nat) returns (h: NodeState)
    requires cfg.Valid() && WellWired(cfg, p, s) && Genuine(cfg, s, env)
    requires env.kind == KindAppendEntries && env.payload.AppendReq?
    ensures Heeds(cfg, s, env, h) && TakesUp(cfg, h, env.from, env.payload, draw, Deliver(cfg, s, env, draw))
  {
    hide Deliver, HandleAppendReq, TakesUp, ChainTook, Genuine;
    h := Heeding(cfg, p, s, env, draw);
    RequestTakenUp(cfg, h, env.from, env.payload, draw);
  }

  // ---------- Replies to appends ----------

  // The members that, as far as r knows, hold its log up to n.
  function Holders(cfg: Config, r: Raft, p: NodeID, n: nat): set<NodeID> {
    set q | q in cfg.members && n <= if q == p then |r.log| else if q in r.matchIndex then r.matchIndex[q] else 0
  }

  // n is as far as a majority holds the log.
  ghost predicate HeldTo(cfg: Config, r: Raft, p: NodeID, n: nat) {
    |Holders(cfg, r, p, n)| >= cfg.Quorum() > |Holders(cfg, r, p, n + 1)|
  }

  // The commit index moves to where a majority holds the log, if that is further and
  // the entry there is of the leader's own term, and otherwise stays.
  ghost predicate CommitAdvances(cfg: Config, r: Raft, p: NodeID, after: nat) {
    && (after != r.commitIndex ==> after > r.commitIndex && HeldTo(cfg, r, p, after))
    && forall n: nat :: HeldTo(cfg, r, p, n) && n > r.commitIndex ==>
         (after == n <==> 1 <= n <= |r.log| && r.log[n - 1].term == r.term)
  }

  // What a reply makes of a leader of its term: the sender's progress is noted and the
  // commit index may advance, or the next attempt starts where the reply says.
  ghost predicate Learns(cfg: Config, h: NodeState, from: NodeID, m: Payload, t: NodeState)
    requires m.AppendResp?
  {
    var r, r' := h.raft, t.raft;
    && t == h.(raft := r') && t.wire.outbox == []
    && if m.success then
         var noted := r.(matchIndex := r.matchIndex[from := m.matchIndex],
                         nextIndex := r.nextIndex[from := m.matchIndex + 1]);
         r' == noted.(commitIndex := r'.commitIndex) && CommitAdvances(cfg, noted, h.id, r'.commitIndex)
       else r' == r.(nextIndex := r.nextIndex[from := if m.conflictIndex == 0 then 1 else m.conflictIndex])
  }

  lemma AdvanceAdvances(cfg: Config, r: Raft, p: NodeID)
    requires cfg.Valid() && p in cfg.members
    ensures var r' := AdvanceCommit(r, p, cfg.members);
      r' == r.(commitIndex := r'.commitIndex) && CommitAdvances(cfg, r, p, r'.commitIndex)
  {
    var candidate := CommitCandidate(r, p, cfg.members);
    hide CommitCandidate;
    forall n: nat
      ensures HeldTo(cfg, r, p, n) <==> n == candidate
    {
      CommitCandidateIsExact(r, p, cfg.members, n);
      CommitCandidateIsExact(r, p, cfg.members, n + 1);
      SameHolders(cfg, r, p, n);
      SameHolders(cfg, r, p, n + 1);
    }
  }

  lemma SameHolders(cfg: Config, r: Raft, p: NodeID, n: nat)
    ensures Holders(cfg, r, p, n) == Replicas(r, p, cfg.members, n)
  {
  }

  lemma ReplyNoted(cfg: Config, h: NodeState, from: NodeID, m: Payload, draw: nat)
    requires cfg.Valid() && h.id in cfg.members && m.AppendResp? && h.wire.outbox == []
    ensures var t := HandleAppendResp(cfg, h, from, m, draw);
      if m.term > h.raft.term then Yields(cfg, h, m.term, draw, t)
      else if h.raft.role == Leader && m.term == h.raft.term then Learns(cfg, h, from, m, t)
      else Idle(h, t)
  {
    AdvanceAdvances(cfg, NoteMatch(h.raft, from, m.matchIndex), h.id);
    hide AdvanceCommit, CommitAdvances;
  }

  // A reply of a later term makes anyone a follower of nobody in it; one of the leader's
  // own term is learned from; all others are ignored.
  lemma RepliesAreNoted(cfg: Config, p: NodeID, s: NodeState, env: Envelope, draw: nat) returns (h: NodeState)
    requires cfg.Valid() && WellWired(cfg, p, s) && Genuine(cfg, s, env)
    requires env.kind == KindAppendResp && env.payload.AppendResp?
    ensures Heeds(cfg, s, env, h)
    ensures var t, m := Deliver(cfg, s, env, draw), env.payload;
      if m.term > s.raft.term then Yields(cfg, h, m.term, draw, t)
      else if s.raft.role == Leader && m.term == s.raft.term then Learns(cfg, h, env.from, m, t)
      else Idle(h, t)
  {
    hide Deliver, HandleAppendResp, Yields, Learns, ChainTook, Genuine;
    h := Heeding(cfg, p, s, env, draw);
    ReplyNoted(cfg, h, env.from, env.payload, draw);
  }

  // ---------- Votes ----------

  // A log ending in lastTerm at lastIndex is no older than this one.
  predicate NoOlder(log: Log, lastTerm: nat, lastIndex: nat) {
    var mine := if log == [] then 0 else log[|log| - 1].term;
    lastTerm > mine || (lastTerm == mine && lastIndex >= |log|)
  }

  // A straw poll changes nothing, and the answer is yes exactly if the term would be
  // new, the log is no older, and no leader has been heard within the timeout.
  lemma PollsAreAnswered(cfg: Config, p: NodeID, s: NodeState, env: Envelope, draw: nat) returns (h: NodeState)
    requires cfg.Valid() && WellWired(cfg, p, s) && Genuine(cfg, s, env)
    requires (env.kind == KindPreVote || env.kind == KindRequestVote) && env.payload.VoteReq? && env.payload.preVote
    ensures Heeds(cfg, s, env, h)
    ensures var t, m, r := Deliver(cfg, s, env, draw), env.payload, s.raft;
      && t == h.(wire := t.wire) && t.wire.recvTr == h.wire.recvTr
      && Answers(t, env.from, VoteResp(r.term,
           && m.term > r.term && NoOlder(r.log, m.lastTerm, m.lastIndex)
           && (r.leaderID == None || s.clock.electionElapsed >= s.clock.electionTimeout), true))
  {
    hide Deliver, Send, ChainTook, Genuine, Answers;
    h := Heeding(cfg, p, s, env, draw);
    SendAnswers(h, env.from, VoteResp(h.raft.term, GrantsPreVote(h, env.payload), true));
  }

  // Asked for a vote, it first comes into the term if that is later. It votes, and
  // restarts its timer, exactly if the term is then its own, its vote is free or given
  // to this candidate already, and the candidate's log is no older.
  ghost predicate Ballots(cfg: Config, h: NodeState, from: NodeID, m: Payload, draw: nat, t: NodeState)
    requires m.VoteReq?
  {
    var r, later := h.raft, m.term > h.raft.term;
    var free := later || r.votedFor == None || r.votedFor == Some(m.candidate);
    var granted := m.term >= r.term && free && NoOlder(r.log, m.lastTerm, m.lastIndex);
    && Acts(h, t) && (if later || granted then TimerRestarts(cfg, t.clock, draw) else t.clock == h.clock)
    && t.raft == r.(role := if later then Follower else r.role, term := if later then m.term else r.term,
                    leaderID := if later then None else r.leaderID,
                    votedFor := if granted then Some(m.candidate) else if later then None else r.votedFor)
    && Answers(t, from, VoteResp(t.raft.term, granted, false))
  }

  lemma VoteAnswered(cfg: Config, h: NodeState, from: NodeID, m: Payload, draw: nat)
    requires m.VoteReq? && !m.preVote && from in h.wire.sendTr && h.wire.outbox == []
    ensures Ballots(cfg, h, from, m, draw, HandleVoteReq(cfg, h, from, m, draw))
  {
    hide Send, Answers;
    var f := if m.term > h.raft.term then BecomeFollower(cfg, h, m.term, None, draw) else h;
    var g := ResetTimer(cfg, f.(raft := f.raft.(votedFor := Some(m.candidate))), draw);
    SendAnswers(g, from, VoteResp(g.raft.term, true, false));
    SendAnswers(f, from, VoteResp(f.raft.term, false, false));
  }

  lemma VotesAreAnswered(cfg: Config, p: NodeID, s: NodeState, env: Envelope, draw: nat) returns (h: NodeState)
    requires cfg.Valid() && WellWired(cfg, p, s) && Genuine(cfg, s, env)
    requires (env.kind == KindPreVote || env.kind == KindRequestVote) && env.payload.VoteReq? && !env.payload.preVote
    ensures Heeds(cfg, s, env, h) && Ballots(cfg, h, env.from, env.payload, draw, Deliver(cfg, s, env, draw))
  {
    hide Deliver, HandleVoteReq, Ballots, ChainTook, Genuine;
    h := Heeding(cfg, p, s, env, draw);
    VoteAnswered(cfg, h, env.from, env.payload, draw);
  }

  // ---------- Counting votes ----------

  // It runs in the next term, votes for itself, and asks every other member.
  ghost predicate Campaigns(cfg: Config, h: NodeState, r: Raft, draw: nat, t: NodeState, out: seq<Envelope>) {
    && t.raft == r.(role := Candidate, term := r.term + 1, votedFor := Some(h.id), votes := {h.id})
    && TimerRestarts(cfg, t.clock, draw) && t.stats == h.stats.(termBumps := h.stats.termBumps + 1)
    && OneToEach(out, h.id, Peers(cfg.members, h.id))
    && AllSay(out, VoteReq(r.term + 1, h.id, |r.log|, LastTerm(r.log), false))
  }

  lemma Campaigned(cfg: Config, s: NodeState, draw: nat)
    requires s.wire.sendTr.Keys == ToSet(cfg.members) - {s.id} && s.wire.outbox == []
    ensures var t := StartCampaign(cfg, s, draw);
      && Campaigns(cfg, s, s.raft, draw, t, t.wire.outbox)
      && t == s.(raft := t.raft, clock := t.clock, stats := t.stats, wire := t.wire) && t.wire.recvTr == s.wire.recvTr
      && t.wire.sendTr.Keys == s.wire.sendTr.Keys
      && t.clock == s.clock.(electionElapsed := t.clock.electionElapsed, electionTimeout := t.clock.electionTimeout)
  {
    var c := ResetTimer(cfg, s.(raft := Rafts.Campaign(s.raft, s.id),
                                stats := s.stats.(termBumps := s.stats.termBumps + 1)), draw);
    SameSays(cfg, c, Ballot(c, false));
    hide BroadcastSame, OneToEach, Peers;
  }

  // It leads: it takes every other member to have nothing past the end of its log and
  // nothing confirmed, forgets whom it has heard, and asks every other member at once.
  ghost predicate Leads(cfg: Config, h: NodeState, r: Raft, t: NodeState) {
    && t == h.(raft := t.raft, clock := h.clock.(heartbeatElapsed := 0), links := h.links.(heardFrom := {}),
               wire := t.wire)
    && t.wire.recvTr == h.wire.recvTr
    && t.raft == r.(role := Leader, leaderID := Some(h.id),
                    nextIndex := t.raft.nextIndex, matchIndex := t.raft.matchIndex)
    && (forall q :: Get(t.raft.nextIndex, q) ==
          if q in cfg.members && q != h.id then |r.log| + 1 else Get(r.nextIndex, q))
    && (forall q :: Get(t.raft.matchIndex, q) ==
          if q in cfg.members && q != h.id then 0 else Get(r.matchIndex, q))
    && OneToEach(t.wire.outbox, h.id, Peers(cfg.members, h.id)) && AllServed(t.wire.outbox, t.raft, h.id)
  }

  lemma Led(cfg: Config, s: NodeState)
    requires s.wire.sendTr.Keys == ToSet(cfg.members) - {s.id} && s.wire.outbox == []
    ensures Leads(cfg, s, s.raft, BecomeLeader(cfg, s))
  {
    var r := s.raft;
    var l := ClearHeard(s.(raft := Rafts.Elected(r, s.id, cfg.members),
                           clock := s.clock.(heartbeatElapsed := 0)));
    SetForOthersIsExact(r.nextIndex, cfg.members, s.id, |r.log| + 1);
    SetForOthersIsExact(r.matchIndex, cfg.members, s.id, 0);
    hide SetForOthers;
    assert cfg.members[..|cfg.members|] == cfg.members;
    AppendSays(cfg, l, |cfg.members|);
    hide BroadcastAppend, Peers, OneToEach, AllServed;
    StillServed(cfg, l.raft, BecomeLeader(cfg, s).raft, s.id, BecomeLeader(cfg, s).wire.outbox);
  }

  lemma StillServed(cfg: Config, r: Raft, r': Raft, p: NodeID, out: seq<Envelope>)
    requires AllServed(out, r, p) && NextsFilled(cfg, p, r, r')
    ensures AllServed(out, r', p)
  {
    hide SpokenBy;
    forall e | e in out
      ensures e.payload.AppendReq? && SpokenBy(r', p, e.payload) && e.payload.prevIndex + 1 == Due(r', e.to)
    {
      OnlyNextChanges(r, r', p, e.payload);
    }
  }

  // A yes to a straw poll still on is counted, and with a majority it campaigns.
  ghost predicate PollCounts(cfg: Config, h: NodeState, from: NodeID, draw: nat, t: NodeState) {
    var r := h.raft.(preVotes := h.raft.preVotes + {from});
    if |r.preVotes| < cfg.Quorum() then t == h.(raft := r) && t.wire.outbox == []
    else
      && Campaigns(cfg, h, r, draw, t, t.wire.outbox)
      && t == h.(raft := t.raft, clock := t.clock, stats := t.stats, wire := t.wire) && t.wire.recvTr == h.wire.recvTr
      && t.clock == h.clock.(electionElapsed := t.clock.electionElapsed, electionTimeout := t.clock.electionTimeout)
  }

  // A vote in an election still on is counted, and with a majority it leads.
  ghost predicate VoteCounts(cfg: Config, h: NodeState, from: NodeID, t: NodeState) {
    var r := h.raft.(votes := h.raft.votes + {from});
    if |r.votes| < cfg.Quorum() then t == h.(raft := r) && t.wire.outbox == [] else Leads(cfg, h, r, t)
  }

  lemma VoteRespCounted(cfg: Config, h: NodeState, from: NodeID, m: Payload, draw: nat)
    requires m.VoteResp? && h.wire.sendTr.Keys == ToSet(cfg.members) - {h.id} && h.wire.outbox == []
    ensures var t, r := HandleVoteResp(cfg, h, from, m, draw), h.raft;
      if m.preVote then
        if r.role == PreCandidate && m.granted then PollCounts(cfg, h, from, draw, t) else Idle(h, t)
      else if m.term > r.term then Yields(cfg, h, m.term, draw, t)
      else if r.role == Candidate && m.term == r.term && m.granted then VoteCounts(cfg, h, from, t)
      else Idle(h, t)
  {
    var p := h.(raft := h.raft.(preVotes := h.raft.preVotes + {from}));
    var v := h.(raft := h.raft.(votes := h.raft.votes + {from}));
    Campaigned(cfg, p, draw);
    Led(cfg, v);
    hide StartCampaign, BecomeLeader, OneToEach, AllSay, AllServed, Peers;
  }

  // What an answer to a straw poll or a ballot does.
  lemma AnswersAreCounted(cfg: Config, p: NodeID, s: NodeState, env: Envelope, draw: nat) returns (h: NodeState)
    requires cfg.Valid() && WellWired(cfg, p, s) && Genuine(cfg, s, env)
    requires (env.kind == KindVoteResp || env.kind == KindPreVoteResp) && env.payload.VoteResp?
    ensures Heeds(cfg, s, env, h)
    ensures var t, m, r := Deliver(cfg, s, env, draw), env.payload, s.raft;
      if m.preVote then
        if r.role == PreCandidate && m.granted then PollCounts(cfg, h, env.from, draw, t) else Idle(h, t)
      else if m.term > r.term then Yields(cfg, h, m.term, draw, t)
      else if r.role == Candidate && m.term == r.term && m.granted then VoteCounts(cfg, h, env.from, t)
      else Idle(h, t)
  {
    hide Deliver, HandleVoteResp, PollCounts, VoteCounts, Yields, ChainTook, Genuine;
    h := Heeding(cfg, p, s, env, draw);
    VoteRespCounted(cfg, h, env.from, env.payload, draw);
  }

  // ---------- Gossip ----------

  // What peer says of whom it hears settles the edges into peer, and no others.
  ghost predicate Settles(members: seq<NodeID>, v: Matrix, peer: NodeID, up: set<NodeID>, v': Matrix) {
    && v' == v.(edges := v'.edges)
    && forall a, b :: v'.CanSend(a, b) <==>
         if b == peer && a != peer && a in members then a in up else v.CanSend(a, b)
  }

  lemma Settled(cfg: Config, h: NodeState, peer: NodeID, up: set<NodeID>)
    ensures var t := Merge(cfg, h, peer, up);
      && t == h.(links := h.links.(view := t.links.view))
      && Settles(cfg.members, h.links.view, peer, up, t.links.view)
  {
    MergeIsExact(cfg.members, h.links.view, peer, up, |cfg.members|);
    assert cfg.members[..|cfg.members|] == cfg.members;
    hide MergeInbound, Matrix.CanSend;
  }

  // Gossip is taken over, and if it asks for any it is answered with whom this
  // replica hears; nothing else comes of it.
  lemma GossipIsAnswered(cfg: Config, p: NodeID, s: NodeState, env: Envelope, draw: nat) returns (h: NodeState)
    requires cfg.Valid() && WellWired(cfg, p, s) && Genuine(cfg, s, env)
    requires Gossips(env)
    ensures Heeds(cfg, s, env, h)
    ensures var t, m := Deliver(cfg, s, env, draw), env.payload;
      && t == h.(links := h.links.(view := t.links.view), wire := t.wire) && t.wire.recvTr == h.wire.recvTr
      && Settles(cfg.members, h.links.view, env.from, m.inboundUp, t.links.view)
      && if m.ProbeReq? then Answers(t, env.from, ProbeResp(s.raft.term, s.id, h.links.inboundUp))
         else t.wire == h.wire
  {
    hide Deliver, Merge, Send, Settles, ChainTook, Genuine, Answers;
    h := Heeding(cfg, p, s, env, draw);
    Settled(cfg, h, env.from, env.payload.inboundUp);
    var g := Merge(cfg, h, env.from, env.payload.inboundUp);
    SendAnswers(g, env.from, ProbeResp(g.raft.term, g.id, g.links.inboundUp));
  }

  // ---------- Terms ----------

  // Messages by which terms spread: all but straw polls and gossip.
  predicate Binding(env: Envelope) {
    match env.payload
    case AppendReq(_, _, _, _, _, _) => env.kind == KindAppendEntries
    case AppendResp(_, _, _, _) => env.kind == KindAppendResp
    case VoteReq(_, _, _, _, pre) => !pre && (env.kind == KindRequestVote || env.kind == KindPreVote)
    case VoteResp(_, _, pre) => !pre && (env.kind == KindVoteResp || env.kind == KindPreVoteResp)
    case _ => false
  }

  // Nobody's term is ever below that of what it has accepted; coming into a later one
  // it follows, with its vote free or just given, and nothing committed is touched but
  // at its new leader's word.
  lemma TermsNeverLag(cfg: Config, p: NodeID, s: NodeState, env: Envelope, draw: nat)
    requires cfg.Valid() && WellWired(cfg, p, s) && Genuine(cfg, s, env) && Binding(env)
    ensures var r, r', m := s.raft, Deliver(cfg, s, env, draw).raft, env.payload;
      && r'.term == Max(r.term, m.term)
      && (m.term > r.term ==>
            && r'.role == Follower
            && r'.leaderID == (if m.AppendReq? then Some(env.from) else None)
            && (r'.votedFor == None || (m.VoteReq? && r'.votedFor == Some(m.candidate)))
            && (!m.AppendReq? ==> r'.log == r.log && r'.commitIndex == r.commitIndex))
  {
    hide Deliver, Installed, CommitFollows, CommitAdvances, Answers, OneToEach, AllSay, AllServed, ChainTook, Genuine;
    match env.payload {
      case AppendReq(_, _, _, _, _, _) =>
        var h := RequestsAreTakenUp(cfg, p, s, env, draw);
      case AppendResp(_, _, _, _) =>
        var h := RepliesAreNoted(cfg, p, s, env, draw);
      case VoteReq(_, _, _, _, _) =>
        var h := VotesAreAnswered(cfg, p, s, env, draw);
      case VoteResp(_, _, _) =>
        var h := AnswersAreCounted(cfg, p, s, env, draw);
    }
  }

  // A node that takes a request has committed at least what the leader has, as far as
  // its own log then goes.
  lemma FollowersCommit(cfg: Config, p: NodeID, s: NodeState, env: Envelope, draw: nat)
    requires cfg.Valid() && WellWired(cfg, p, s) && Genuine(cfg, s, env)
    requires env.kind == KindAppendEntries && env.payload.AppendReq?
    requires env.payload.term >= s.raft.term && Fits(s.raft.log, env.payload)
    ensures var r', m := Deliver(cfg, s, env, draw).raft, env.payload;
      && r'.commitIndex >= Min(m.leaderCommit, |r'.log|)
      && (m.leaderCommit <= s.raft.commitIndex ==> r'.commitIndex == s.raft.commitIndex)
  {
    hide Deliver, Installed, Answers, ChainTook, Genuine, Fits;
    var h := RequestsAreTakenUp(cfg, p, s, env, draw);
  }

  // A payload under another kind's label is heard and comes to nothing.
  lemma MislabelledIsIgnored(cfg: Config, p: NodeID, s: NodeState, env: Envelope, draw: nat) returns (h: NodeState)
    requires cfg.Valid() && WellWired(cfg, p, s) && Genuine(cfg, s, env)
    requires match env.payload
      case VoteReq(_, _, _, _, _) => env.kind != KindRequestVote && env.kind != KindPreVote
      case VoteResp(_, _, _) => env.kind != KindVoteResp && env.kind != KindPreVoteResp
      case Garbled(_) => true
      case m => env.kind != KindOf(m)
    ensures Heeds(cfg, s, env, h) && Idle(h, Deliver(cfg, s, env, draw))
  {
    hide Deliver, ChainTook, Genuine;
    h := Heeding(cfg, p, s, env, draw);
  }

  // ---------- Commands ----------

  // A leader adds the command to its log and asks every other member to take what it
  // lacks; anyone else does nothing.
  lemma ProposalsAreAppended(cfg: Config, p: NodeID, s: NodeState, cmd: string)
    requires WellWired(cfg, p, s)
    ensures var t, r := Propose(cfg, s, cmd), s.raft.(log := s.raft.log + [Entry(s.raft.term, cmd)]);
      if s.raft.role != Leader then t == s
      else
        && t == s.(raft := t.raft, wire := t.wire) && t.wire.recvTr == s.wire.recvTr
        && NextsFilled(cfg, p, r, t.raft) && s.wire.outbox <= t.wire.outbox
        && OneToEach(More(s.wire.outbox, t.wire.outbox), p, Peers(cfg.members, p))
        && AllServed(More(s.wire.outbox, t.wire.outbox), r, p)
  {
    if s.raft.role == Leader {
      assert cfg.members[..|cfg.members|] == cfg.members;
      AppendSays(cfg, s.(raft := s.raft.(log := s.raft.log + [Entry(s.raft.term, cmd)])), |cfg.members|);
      hide BroadcastAppend, OneToEach, AllServed, More, Peers;
    }
  }
}
