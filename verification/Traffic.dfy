/** What one step of a replica emits, and what it leaves of the replica's
    evidence about its links. */
module Traffic {
  import opened Types
  import opened Crypt
  import opened Transcripts
  import opened Rafts
  import opened NetMatrix
  import opened Nodes

  predicate IsProbe(p: Payload) {
    p.ProbeReq? || p.ProbeResp?
  }

  // b has the same evidence about its links as a, and has rejected as much.
  ghost predicate SameSight(a: NodeState, b: NodeState) {
    && b.id == a.id && b.key == a.key && b.clock.tick == a.clock.tick
    && b.links == a.links.(heardFrom := b.links.heardFrom)
    && b.wire.recvTr == a.wire.recvTr
    && b.stats.badSig == a.stats.badSig && b.stats.replays == a.stats.replays
  }

  // Sealed by this node after its chains stood at k0; a probe tells exactly up.
  ghost predicate WroteOne(ring: Keyring, k0: map<NodeID, Chain>, up: Option<set<NodeID>>, s: NodeState, e: Envelope)
    requires s.wire.sendTr.Keys == k0.Keys
  {
    && e.Open(ring) == Opened && e.from == s.id && e.kind == KindOf(e.payload) && !e.payload.Garbled?
    && e.to in k0 && k0[e.to].sendSeq < e.seqNo <= s.wire.sendTr[e.to].sendSeq
    && (IsProbe(e.payload) ==> up == Some(e.payload.inboundUp))
  }

  // To any one peer, later messages carry higher numbers.
  ghost predicate Numbered(out: seq<Envelope>) {
    forall i, j :: 0 <= i < j < |out| && out[i].to == out[j].to ==> out[i].seqNo < out[j].seqNo
  }

  ghost predicate Wrote(ring: Keyring, k0: map<NodeID, Chain>, up: Option<set<NodeID>>, s: NodeState) {
    && s.id in ring && s.key == ring[s.id]
    && s.wire.sendTr.Keys == k0.Keys
    && (forall q :: q in k0 ==> k0[q].sendSeq <= s.wire.sendTr[q].sendSeq)
    && (forall e :: e in s.wire.outbox ==> WroteOne(ring, k0, up, s, e))
    && Numbered(s.wire.outbox)
  }

  // ---------- Sending ----------

  lemma SendWrote(ring: Keyring, k0: map<NodeID, Chain>, up: Option<set<NodeID>>, s: NodeState, to: NodeID, p: Payload)
    requires Wrote(ring, k0, up, s) && !p.Garbled?
    requires IsProbe(p) ==> up == Some(p.inboundUp)
    ensures Wrote(ring, k0, up, Send(s, to, p)) && SameSight(s, Send(s, to, p))
  {
    var s' := Send(s, to, p);
    forall e | e in s'.wire.outbox
      ensures WroteOne(ring, k0, up, s', e)
    {
      assert e in s.wire.outbox ==> WroteOne(ring, k0, up, s, e);
    }
    assert forall i :: 0 <= i < |s.wire.outbox| ==> WroteOne(ring, k0, up, s, s.wire.outbox[i]);
  }

  lemma BroadcastSameWrote(cfg: Config, k0: map<NodeID, Chain>, up: Option<set<NodeID>>, s: NodeState, p: Payload,
        n: nat)
    requires Wrote(cfg.ring, k0, up, s) && !p.Garbled? && n <= |cfg.members|
    requires IsProbe(p) ==> up == Some(p.inboundUp)
    ensures Wrote(cfg.ring, k0, up, BroadcastSame(cfg, s, p, n)) && SameSight(s, BroadcastSame(cfg, s, p, n))
  {
    hide Wrote;
    if n > 0 {
      BroadcastSameWrote(cfg, k0, up, s, p, n - 1);
      var b := BroadcastSame(cfg, s, p, n - 1);
      SendWrote(cfg.ring, k0, up, b, cfg.members[n - 1], p);
    }
  }

  lemma BroadcastAppendWrote(cfg: Config, k0: map<NodeID, Chain>, up: Option<set<NodeID>>, s: NodeState, n: nat)
    requires Wrote(cfg.ring, k0, up, s) && n <= |cfg.members|
    ensures Wrote(cfg.ring, k0, up, BroadcastAppend(cfg, s, n)) && SameSight(s, BroadcastAppend(cfg, s, n))
  {
    hide WroteOne;
    if n > 0 {
      BroadcastAppendWrote(cfg, k0, up, s, n - 1);
      var b, m := BroadcastAppend(cfg, s, n - 1), cfg.members[n - 1];
      var z := b.(raft := RememberNext(b.raft, m));
      SameWire(cfg.ring, k0, up, b, z);
      SendWrote(cfg.ring, k0, up, z, m, AppendFor(b.raft, b.id, m));
    }
  }

  // Broadcasting touches the send side, and for entries the next indexes.
  lemma SameOnlySends(cfg: Config, s: NodeState, p: Payload, n: nat)
    requires n <= |cfg.members|
    ensures BroadcastSame(cfg, s, p, n) == s.(wire := BroadcastSame(cfg, s, p, n).wire)
  {
  }

  lemma AppendOnlySends(cfg: Config, s: NodeState, n: nat)
    requires n <= |cfg.members|
    ensures var b := BroadcastAppend(cfg, s, n);
      b == s.(wire := b.wire, raft := s.raft.(nextIndex := b.raft.nextIndex))
  {
  }

  // Only the wire, the name and the key matter to what was written.
  lemma SameWire(ring: Keyring, k0: map<NodeID, Chain>, up: Option<set<NodeID>>, a: NodeState, b: NodeState)
    requires Wrote(ring, k0, up, a)
    requires b.id == a.id && b.key == a.key && b.wire.sendTr == a.wire.sendTr && b.wire.outbox == a.wire.outbox
    ensures Wrote(ring, k0, up, b)
  {
    forall e | e in b.wire.outbox
      ensures WroteOne(ring, k0, up, b, e)
    {
      assert WroteOne(ring, k0, up, a, e);
    }
  }

  // Without probes so far, the next probe may tell anything.
  lemma NoProbesYet(ring: Keyring, k0: map<NodeID, Chain>, up: Option<set<NodeID>>, s: NodeState)
    requires Wrote(ring, k0, None, s)
    ensures Wrote(ring, k0, up, s)
  {
    forall e | e in s.wire.outbox
      ensures WroteOne(ring, k0, up, s, e)
    {
      assert WroteOne(ring, k0, None, s, e);
    }
  }

  // ---------- Tick ----------

  lemma StartCampaignWrote(cfg: Config, k0: map<NodeID, Chain>, up: Option<set<NodeID>>, s: NodeState, draw: nat)
    requires Wrote(cfg.ring, k0, up, s)
    ensures Wrote(cfg.ring, k0, up, StartCampaign(cfg, s, draw)) && SameSight(s, StartCampaign(cfg, s, draw))
  {
    hide Wrote, BroadcastSame;
    var c := ResetTimer(cfg, s.(raft := Rafts.Campaign(s.raft, s.id),
                                stats := s.stats.(termBumps := s.stats.termBumps + 1)), draw);
    SameWire(cfg.ring, k0, up, s, c);
    BroadcastSameWrote(cfg, k0, up, c, Ballot(c, false), |cfg.members|);
  }

  lemma BeginElectionWrote(cfg: Config, k0: map<NodeID, Chain>, up: Option<set<NodeID>>, s: NodeState, draw: nat)
    requires Wrote(cfg.ring, k0, up, s)
    ensures Wrote(cfg.ring, k0, up, BeginElection(cfg, s, draw)) && SameSight(s, BeginElection(cfg, s, draw))
  {
    hide Wrote, BroadcastSame, StartCampaign;
    if cfg.mode == CrossFault && !s.links.view.HasBidirectionalQuorum(s.id) {
      SameWire(cfg.ring, k0, up, s, BeginElection(cfg, s, draw));
    } else {
      var e := s.(stats := s.stats.(electionsStarted := s.stats.electionsStarted + 1));
      SameWire(cfg.ring, k0, up, s, e);
      if cfg.mode == Baseline {
        StartCampaignWrote(cfg, k0, up, e, draw);
      } else {
        var c := ResetTimer(cfg, e.(raft := Rafts.PreCampaign(e.raft, e.id)), draw);
        SameWire(cfg.ring, k0, up, e, c);
        BroadcastSameWrote(cfg, k0, up, c, Ballot(c, true), |cfg.members|);
      }
    }
  }

  lemma LeaderTickWrote(cfg: Config, k0: map<NodeID, Chain>, up: Option<set<NodeID>>, s: NodeState, draw: nat)
    requires Wrote(cfg.ring, k0, up, s)
    ensures Wrote(cfg.ring, k0, up, LeaderTick(cfg, s, draw)) && SameSight(s, LeaderTick(cfg, s, draw))
  {
    hide Wrote, BroadcastAppend;
    var beat := s.clock.heartbeatElapsed + 1;
    var b;
    if beat >= cfg.heartbeat {
      var z := s.(clock := s.clock.(heartbeatElapsed := 0));
      SameWire(cfg.ring, k0, up, s, z);
      BroadcastAppendWrote(cfg, k0, up, z, |cfg.members|);
      b := BroadcastAppend(cfg, z, |cfg.members|);
    } else {
      b := s.(clock := s.clock.(heartbeatElapsed := beat));
      SameWire(cfg.ring, k0, up, s, b);
    }
    SameWire(cfg.ring, k0, up, b, LeaderTick(cfg, s, draw));
  }

  lemma RoleTickWrote(cfg: Config, k0: map<NodeID, Chain>, up: Option<set<NodeID>>, s: NodeState, draw: nat)
    requires Wrote(cfg.ring, k0, up, s)
    ensures Wrote(cfg.ring, k0, up, RoleTick(cfg, s, draw)) && SameSight(s, RoleTick(cfg, s, draw))
  {
    hide Wrote, LeaderTick, BeginElection;
    if s.raft.role == Leader {
      LeaderTickWrote(cfg, k0, up, s, draw);
    } else if s.clock.electionElapsed >= s.clock.electionTimeout {
      BeginElectionWrote(cfg, k0, up, s, draw);
    }
  }

  lemma SetEdgeIsExact(v: Matrix, from: NodeID, to: NodeID, up: bool)
    requires from != to
    ensures forall a, b ::
      v.SetEdge(from, to, up).CanSend(a, b) <==> if a == from && b == to then up else v.CanSend(a, b)
  {
  }

  // d is s with exactly the silent ones of ms taken down.
  ghost predicate Swept(cfg: Config, s: NodeState, ms: seq<NodeID>, d: NodeState) {
    && d == s.(links := s.links.(inboundUp := d.links.inboundUp, view := d.links.view))
    && d.links.view.owner == s.id && d.links.view.members == s.links.view.members
    && (forall m :: m in d.links.inboundUp <==>
         m in s.links.inboundUp && !(m in ms && m != s.id && Silent(cfg, s, m)))
    && (forall a, b :: d.links.view.CanSend(a, b) <==>
         s.links.view.CanSend(a, b) && !(b == s.id && a in ms && a != s.id && Silent(cfg, s, a)))
  }

  lemma SweepTurn(cfg: Config, s: NodeState, ms: seq<NodeID>, d: NodeState, m: NodeID)
    requires s.links.view.owner == s.id && Swept(cfg, s, ms, d)
    ensures Swept(cfg, s, ms + [m], if m != s.id && Silent(cfg, s, m) then MarkDown(d, m) else d)
  {
    if m != s.id && Silent(cfg, s, m) {
      SetEdgeIsExact(d.links.view, m, s.id, false);
      assert MarkDown(d, m).links.view == d.links.view.SetEdge(m, s.id, false);
    }
    hide Silent, Matrix.CanSend, Matrix.SetEdge;
  }

  // The sweep takes down exactly the silent members.
  lemma SweepIsExact(cfg: Config, s: NodeState, n: nat)
    requires n <= |cfg.members| && s.links.view.owner == s.id
    ensures Swept(cfg, s, cfg.members[..n], DetectSilence(cfg, s, n))
  {
    hide Silent, MarkDown;
    if n > 0 {
      SweepIsExact(cfg, s, n - 1);
      hide Swept;
      SweepTurn(cfg, s, cfg.members[..n - 1], DetectSilence(cfg, s, n - 1), cfg.members[n - 1]);
      assert cfg.members[..n] == cfg.members[..n - 1] + [cfg.members[n - 1]];
    }
  }

  // What Tick does to a node's evidence, and what it emits.
  lemma TickTraffic(cfg: Config, p: NodeID, s: NodeState, draw: nat)
    requires WellWired(cfg, p, s)
    ensures var s' := Tick(cfg, s, draw);
      && WellWired(cfg, p, s') && s'.wire.recvTr == s.wire.recvTr && s'.clock.tick == s.clock.tick + 1
      && s'.stats.replays == s.stats.replays
      && Wrote(cfg.ring, s.wire.sendTr, Some(s'.links.inboundUp), s')
      && (cfg.mode != CrossFault ==> s'.links == s.links.(heardFrom := s'.links.heardFrom))
      && (cfg.mode == CrossFault ==>
           var t := s.(clock := s.clock.(tick := s.clock.tick + 1));
           s'.links == DetectSilence(cfg, t, |cfg.members|).links.(heardFrom := s'.links.heardFrom))
  {
    hide RoleTick, BroadcastSame, DetectSilence;
    var k0, z := s.wire.sendTr, StartTick(s);
    var t := RoleTick(cfg, z, draw);
    RoleTickWrote(cfg, k0, None, z, draw);
    if cfg.mode == CrossFault {
      var d := DetectSilence(cfg, t, |cfg.members|);
      var u := s.(clock := s.clock.(tick := s.clock.tick + 1));
      SweepSees(cfg, u, t, |cfg.members|);
      var up := Some(d.links.inboundUp);
      NoProbesYet(cfg.ring, k0, up, t);
      SameWire(cfg.ring, k0, up, t, d);
      if d.clock.probeElapsed + 1 >= cfg.probe {
        var y := d.(clock := d.clock.(probeElapsed := 0));
        SameWire(cfg.ring, k0, up, d, y);
        BroadcastSameWrote(cfg, k0, up, y, ProbeReq(y.raft.term, y.id, y.links.inboundUp), |cfg.members|);
      } else {
        SameWire(cfg.ring, k0, up, d, Gossip(cfg, t));
      }
    } else {
      NoProbesYet(cfg.ring, k0, Some(t.links.inboundUp), t);
    }
  }

  // The sweep reads the tick and the links and nothing else.
  lemma SweepSees(cfg: Config, a: NodeState, b: NodeState, n: nat)
    requires n <= |cfg.members| && SameSight(a, b)
    ensures var d, e := DetectSilence(cfg, a, n), DetectSilence(cfg, b, n);
      && e == b.(links := e.links)
      && e.links == d.links.(heardFrom := b.links.heardFrom)
  {
  }

  // ---------- Deliver ----------

  lemma MergeIsExact(members: seq<NodeID>, v: Matrix, peer: NodeID, up: set<NodeID>, n: nat)
    requires n <= |members|
    ensures MergeInbound(members, v, peer, up, n) == v.(edges := MergeInbound(members, v, peer, up, n).edges)
    ensures forall a, b :: MergeInbound(members, v, peer, up, n).CanSend(a, b) <==>
      if b == peer && a != peer && a in members[..n] then a in up else v.CanSend(a, b)
  {
    if n > 0 {
      var m := members[n - 1];
      MergeIsExact(members, v, peer, up, n - 1);
      assert members[..n] == members[..n - 1] + [m];
      if m != peer {
        SetEdgeIsExact(MergeInbound(members, v, peer, up, n - 1), m, peer, m in up);
      }
      forall a, b
        ensures MergeInbound(members, v, peer, up, n).CanSend(a, b) <==>
          if b == peer && a != peer && a in members[..n] then a in up else v.CanSend(a, b)
      {
        assert a in members[..n] <==> a in members[..n - 1] || a == m;
      }
    }
  }

  // What a message says about links into its sender, if anything.
  predicate Gossips(env: Envelope) {
    || (env.kind == KindProbe && env.payload.ProbeReq?)
    || (env.kind == KindProbeResp && env.payload.ProbeResp?)
  }

  lemma RequestWrote(cfg: Config, k0: map<NodeID, Chain>, up: Option<set<NodeID>>, s: NodeState, env: Envelope,
        draw: nat)
    requires cfg.Valid() && Wrote(cfg.ring, k0, up, s)
    requires env.kind == KindAppendEntries && env.payload.AppendReq?
    ensures var s' := HandleAppendReq(cfg, s, env.from, env.payload, draw);
      Wrote(cfg.ring, k0, up, s') && SameSight(s, s')
  {
    hide Wrote;
    var m, from := env.payload, env.from;
    if m.term < s.raft.term {
      SendWrote(cfg.ring, k0, up, s, from, AppendResp(s.raft.term, false, 0, 0));
    } else {
      var a := Adopt(cfg, s, from, m.term, draw);
      SameWire(cfg.ring, k0, up, s, a);
      if !Logs.Matches(a.raft.log, m.prevIndex, m.prevTerm) {
        SendWrote(cfg.ring, k0, up, a, from,
                  AppendResp(a.raft.term, false, 0, ConflictIndex(a.raft.log, m.prevIndex)));
      } else {
        var t := a.(raft := TakeEntries(a.raft, m.prevIndex, m.entries, m.leaderCommit));
        SameWire(cfg.ring, k0, up, a, t);
        SendWrote(cfg.ring, k0, up, t, from,
                  AppendResp(t.raft.term, true, AckIndex(cfg.ack, t.raft.log, m.prevIndex, m.entries), 0));
      }
    }
  }

  lemma VoteReqWrote(cfg: Config, k0: map<NodeID, Chain>, up: Option<set<NodeID>>, s: NodeState, env: Envelope,
        draw: nat)
    requires Wrote(cfg.ring, k0, up, s) && env.payload.VoteReq?
    ensures var s' := HandleVoteReq(cfg, s, env.from, env.payload, draw);
      Wrote(cfg.ring, k0, up, s') && SameSight(s, s')
  {
    hide Wrote;
    var m, from := env.payload, env.from;
    if m.preVote {
      SendWrote(cfg.ring, k0, up, s, from, VoteResp(s.raft.term, GrantsPreVote(s, m), true));
    } else {
      var f := if m.term > s.raft.term then BecomeFollower(cfg, s, m.term, None, draw) else s;
      SameWire(cfg.ring, k0, up, s, f);
      if GrantsVote(f.raft, m) {
        var g := ResetTimer(cfg, f.(raft := f.raft.(votedFor := Some(m.candidate))), draw);
        SameWire(cfg.ring, k0, up, f, g);
        SendWrote(cfg.ring, k0, up, g, from, VoteResp(g.raft.term, true, false));
      } else {
        SendWrote(cfg.ring, k0, up, f, from, VoteResp(f.raft.term, false, false));
      }
    }
  }

  lemma VoteRespWrote(cfg: Config, k0: map<NodeID, Chain>, up: Option<set<NodeID>>, s: NodeState, env: Envelope,
        draw: nat)
    requires Wrote(cfg.ring, k0, up, s) && env.payload.VoteResp?
    ensures var s' := HandleVoteResp(cfg, s, env.from, env.payload, draw);
      Wrote(cfg.ring, k0, up, s') && SameSight(s, s')
  {
    hide Wrote, StartCampaign, BroadcastAppend;
    var m, from := env.payload, env.from;
    var s' := HandleVoteResp(cfg, s, from, m, draw);
    var p := s.(raft := s.raft.(preVotes := s.raft.preVotes + {from}));
    var v := s.(raft := s.raft.(votes := s.raft.votes + {from}));
    if s' == StartCampaign(cfg, p, draw) {
      SameWire(cfg.ring, k0, up, s, p);
      StartCampaignWrote(cfg, k0, up, p, draw);
    } else if s' == BecomeLeader(cfg, v) {
      var l := ClearHeard(v.(raft := Rafts.Elected(v.raft, v.id, cfg.members),
                             clock := v.clock.(heartbeatElapsed := 0)));
      SameWire(cfg.ring, k0, up, s, l);
      BroadcastAppendWrote(cfg, k0, up, l, |cfg.members|);
    } else {
      SameWire(cfg.ring, k0, up, s, s');
    }
  }

  // A handler changes nothing about the links except, for gossip, the column of
  // the sender.
  lemma DispatchTraffic(cfg: Config, k0: map<NodeID, Chain>, s: NodeState, env: Envelope, draw: nat)
    requires cfg.Valid() && Wrote(cfg.ring, k0, Some(s.links.inboundUp), s)
    ensures var s' := Dispatch(cfg, s, env.from, env.kind, env.payload, draw);
      var g := if Gossips(env) then Merge(cfg, s, env.from, env.payload.inboundUp) else s;
      Wrote(cfg.ring, k0, Some(s.links.inboundUp), s') && SameSight(g, s')
  {
    hide Wrote, HandleAppendReq, HandleVoteReq, HandleVoteResp, Send, MergeInbound;
    var up, m, from := Some(s.links.inboundUp), env.payload, env.from;
    var s' := Dispatch(cfg, s, from, env.kind, m, draw);
    if env.kind == KindAppendEntries && m.AppendReq? {
      RequestWrote(cfg, k0, up, s, env, draw);
    } else if m.VoteReq? && (env.kind == KindRequestVote || env.kind == KindPreVote) {
      VoteReqWrote(cfg, k0, up, s, env, draw);
    } else if m.VoteResp? && (env.kind == KindVoteResp || env.kind == KindPreVoteResp) {
      VoteRespWrote(cfg, k0, up, s, env, draw);
    } else if env.kind == KindProbe && m.ProbeReq? {
      var g := Merge(cfg, s, from, m.inboundUp);
      SameWire(cfg.ring, k0, up, s, g);
      SendWrote(cfg.ring, k0, up, g, from, ProbeResp(g.raft.term, g.id, g.links.inboundUp));
    } else {
      SameWire(cfg.ring, k0, up, s, s');
    }
  }

  // What Deliver does to a node's evidence, and what it emits.
  lemma DeliverTraffic(cfg: Config, p: NodeID, s: NodeState, env: Envelope, draw: nat)
    requires cfg.Valid() && WellWired(cfg, p, s)
    ensures var s' := Deliver(cfg, s, env, draw);
      && WellWired(cfg, p, s') && s'.clock.tick == s.clock.tick
      && Wrote(cfg.ring, s.wire.sendTr, Some(s'.links.inboundUp), s')
      && if Accepts(cfg, s, env) then
           var h := Heard(s, env, cfg.ring);
           var g := if Gossips(env) then Merge(cfg, h, env.from, env.payload.inboundUp) else h;
           SameSight(g, s')
         else
           && s'.links == s.links && s'.wire.recvTr == s.wire.recvTr
           && s'.stats.replays == s.stats.replays +
                if env.from in s.wire.recvTr && Judge(s.wire.recvTr[env.from], env, cfg.ring) == Replayed then 1 else 0
  {
    hide Dispatch, MergeInbound, Received;
    var k0, d := s.wire.sendTr, s.(wire := s.wire.(outbox := []));
    if Accepts(cfg, s, env) {
      DispatchTraffic(cfg, k0, Heard(d, env, cfg.ring), env, draw);
    }
  }

  // Proposing touches nothing but the log and the send side.
  lemma ProposeTraffic(cfg: Config, p: NodeID, s: NodeState, cmd: string)
    requires WellWired(cfg, p, s)
    ensures var s' := Propose(cfg, s, cmd);
      && WellWired(cfg, p, s') && SameSight(s, s')
      && forall q :: q in s.wire.sendTr ==> s.wire.sendTr[q].sendSeq <= s'.wire.sendTr[q].sendSeq
  {
    hide BroadcastAppend;
    var z := s.(wire := s.wire.(outbox := []),
                raft := s.raft.(log := s.raft.log + [Entry(s.raft.term, cmd)]));
    if s.raft.role == Leader {
      BroadcastAppendWrote(cfg, s.wire.sendTr, None, z, |cfg.members|);
      OldOutbox(cfg, s.(raft := z.raft), z, |cfg.members|);
    }
  }

  // What already waits in the outbox does not affect what is sent.
  lemma OldOutbox(cfg: Config, a: NodeState, b: NodeState, n: nat)
    requires n <= |cfg.members| && a.(wire := b.wire) == b
    requires a.wire.sendTr == b.wire.sendTr && a.wire.recvTr == b.wire.recvTr
    ensures var x, y := BroadcastAppend(cfg, a, n), BroadcastAppend(cfg, b, n);
      x.(wire := y.wire) == y && x.wire.sendTr == y.wire.sendTr && x.wire.recvTr == y.wire.recvTr
  {
  }
}
