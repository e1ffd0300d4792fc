/** What is due on a replica's tick and what it then says, and how often over a run
    (internal/consensus/node.go). */
module Duties {
  import opened Types
  import opened Crypt
  import opened Transcripts
  import opened Logs
  import opened Rafts
  import opened NetMatrix
  import opened Nodes
  import opened Clusters
  import opened Traffic
  import opened Histories
  import opened Timing
  import opened Requests
  import opened Conduct

  // ---------- The start ----------

  // A new replica follows nobody, has voted for nobody and has an empty log; its first
  // timeout is drawn like every other; it takes every link to be up, has heard nobody
  // yet, and is at the beginning of every transcript.
  lemma ReplicasStartFresh(cfg: Config, p: NodeID, key: Key, draw: nat)
    requires p in cfg.members
    ensures var s := NewNode(cfg, p, key, draw);
      && s.id == p && s.key == key
      && s.raft.role == Follower && s.raft.term == 0 && s.raft.log == [] && s.raft.commitIndex == 0
      && s.raft.votedFor == None && s.raft.leaderID == None
      && s.clock.electionTimeout == cfg.timeout + draw
      && s.clock.tick == s.clock.electionElapsed == s.clock.heartbeatElapsed == s.clock.probeElapsed == 0
      && s.links.view.owner == p && s.links.view.members == cfg.members && s.links.heardFrom == {}
      && s.links.lastHeard == map[] && s.links.inboundUp == ToSet(cfg.members) - {p} && s.wire.outbox == []
      && (forall a, b :: a in cfg.members && b in cfg.members ==> s.links.view.CanSend(a, b))
      && forall q :: q in cfg.members && q != p ==>
           && q in s.wire.sendTr && q in s.wire.recvTr
           && s.wire.sendTr[q].sendSeq == 0 && s.wire.sendTr[q].sendHead == Genesis
           && s.wire.recvTr[q].recvSeq == 0 && !s.wire.recvTr[q].started
  {
    assert (set m | m in cfg.members && m != p) == ToSet(cfg.members) - {p};
  }

  // ---------- One tick ----------

  // A leader beats when a heartbeat is due. With pre-vote, when its election timer is
  // out, it goes on only if it and those it has heard since the last time are a
  // majority, and starts listening anew.
  ghost predicate Reigns(cfg: Config, s: NodeState, draw: nat, t: NodeState, out: seq<Envelope>) {
    var beat := s.clock.heartbeatElapsed + 1 >= cfg.heartbeat;
    var checked := cfg.mode != Baseline && s.clock.electionElapsed + 1 >= s.clock.electionTimeout;
    var ousted := checked && 1 + |s.links.heardFrom| < cfg.Quorum();
    && t.clock.heartbeatElapsed == (if beat then 0 else s.clock.heartbeatElapsed + 1)
    && (if beat then OneToEach(out, s.id, Peers(cfg.members, s.id)) && AllServed(out, s.raft, s.id) else out == [])
    && t.clock.electionElapsed == (if checked then 0 else s.clock.electionElapsed + 1)
    && t.clock.electionTimeout == (if ousted then cfg.timeout + draw else s.clock.electionTimeout)
    && t.links.heardFrom == (if checked then {} else s.links.heardFrom) && t.stats == s.stats
    && NextsFilled(cfg, s.id, s.raft, s.raft.(nextIndex := t.raft.nextIndex))
    && t.raft == s.raft.(nextIndex := t.raft.nextIndex,
                         role := if ousted then Follower else Leader,
                         leaderID := if ousted then None else s.raft.leaderID,
                         votedFor := if ousted && cfg.rule == AsWritten then None else s.raft.votedFor)
  }

  // Anyone else runs when its election timer is out: at once in baseline mode, by a
  // straw poll with pre-vote, and with reachability only if it sees a majority with
  // working links both ways.
  ghost predicate Runs(cfg: Config, s: NodeState, draw: nat, t: NodeState, out: seq<Envelope>) {
    && t.clock.electionElapsed == 0 && t.clock.electionTimeout == cfg.timeout + draw
    && t.clock.heartbeatElapsed == s.clock.heartbeatElapsed && t.links.heardFrom == s.links.heardFrom
    && if cfg.mode == CrossFault && !s.links.view.HasBidirectionalQuorum(s.id) then
         t.raft == s.raft && out == [] && t.stats == s.stats.(declined := s.stats.declined + 1)
       else
         && OneToEach(out, s.id, Peers(cfg.members, s.id))
         && AllSay(out, VoteReq(s.raft.term + 1, s.id, |s.raft.log|, LastTerm(s.raft.log), cfg.mode != Baseline))
         && t.stats == s.stats.(electionsStarted := s.stats.electionsStarted + 1,
                                termBumps := s.stats.termBumps + if cfg.mode == Baseline then 1 else 0)
         && t.raft == if cfg.mode == Baseline
                      then s.raft.(role := Candidate, term := s.raft.term + 1,
                                   votedFor := Some(s.id), votes := {s.id})
                      else s.raft.(role := PreCandidate, preVotes := {s.id})
  }

  ghost predicate Waits(s: NodeState, t: NodeState, out: seq<Envelope>) {
    && t.raft == s.raft && t.stats == s.stats && t.links.heardFrom == s.links.heardFrom && out == []
    && t.clock.electionElapsed == s.clock.electionElapsed + 1 && t.clock.electionTimeout == s.clock.electionTimeout
    && t.clock.heartbeatElapsed == s.clock.heartbeatElapsed
  }

  ghost predicate RoleDone(cfg: Config, s: NodeState, draw: nat, t: NodeState, out: seq<Envelope>) {
    if s.raft.role == Leader then Reigns(cfg, s, draw, t, out)
    else if s.clock.electionElapsed + 1 >= s.clock.electionTimeout then Runs(cfg, s, draw, t, out)
    else Waits(s, t, out)
  }

  // Nothing came from m within a timeout, now that one more tick has passed.
  predicate Missing(cfg: Config, s: NodeState, m: NodeID) {
    && m in cfg.members && m != s.id
    && s.clock.tick + 1 > cfg.timeout + if m in s.links.lastHeard then s.links.lastHeard[m] else 0
  }

  // In crossfault mode the links from whoever is missing go down, and every so often
  // each other member is told whom this replica hears.
  ghost predicate Probes(cfg: Config, s: NodeState, t: NodeState, out: seq<Envelope>) {
    if cfg.mode != CrossFault then
      out == [] && t.clock.probeElapsed == s.clock.probeElapsed && t.links == s.links.(heardFrom := t.links.heardFrom)
    else
      && t.links == s.links.(heardFrom := t.links.heardFrom, inboundUp := t.links.inboundUp, view := t.links.view)
      && t.links.inboundUp == (set m | m in s.links.inboundUp && !Missing(cfg, s, m))
      && t.links.view == s.links.view.(edges := t.links.view.edges)
      && (forall a, b :: t.links.view.CanSend(a, b) <==>
            if b == s.links.view.owner && a != b && Missing(cfg, s, a) then false else s.links.view.CanSend(a, b))
      && if s.clock.probeElapsed + 1 < cfg.probe then out == [] && t.clock.probeElapsed == s.clock.probeElapsed + 1
         else
           && t.clock.probeElapsed == 0 && OneToEach(out, s.id, Peers(cfg.members, s.id))
           && AllSay(out, ProbeReq(t.raft.term, s.id, t.links.inboundUp))
  }

  // First what the role asks for, then what reachability does.
  ghost predicate Ticks(cfg: Config, s: NodeState, draw: nat, t: NodeState, n: nat) {
    && t == s.(raft := t.raft, clock := t.clock, links := t.links, wire := t.wire, stats := t.stats)
    && t.wire.recvTr == s.wire.recvTr && t.clock.tick == s.clock.tick + 1
    && n <= |t.wire.outbox| && RoleDone(cfg, s, draw, t, t.wire.outbox[..n]) && Probes(cfg, s, t, t.wire.outbox[n..])
  }

  lemma LeaderReigns(cfg: Config, s: NodeState, draw: nat)
    requires s.raft.role == Leader && s.wire.sendTr.Keys == ToSet(cfg.members) - {s.id}
    ensures var t := RoleTick(cfg, StartTick(s), draw);
      && Reigns(cfg, s, draw, t, t.wire.outbox)
      && t == s.(raft := t.raft, clock := t.clock, links := t.links, wire := t.wire)
      && t.wire.recvTr == s.wire.recvTr && t.wire.sendTr.Keys == s.wire.sendTr.Keys
      && t.links == s.links.(heardFrom := t.links.heardFrom)
      && t.clock.tick == s.clock.tick + 1 && t.clock.probeElapsed == s.clock.probeElapsed
  {
    var z := StartTick(s);
    var y := z.(clock := z.clock.(heartbeatElapsed := 0));
    assert cfg.members[..|cfg.members|] == cfg.members;
    AppendSays(cfg, y, |cfg.members|);
    hide BroadcastAppend, Peers, OneToEach, AllServed;
  }

  // An election begins, with nothing else waiting to be sent.
  lemma Begins(cfg: Config, z: NodeState, draw: nat)
    requires z.wire.sendTr.Keys == ToSet(cfg.members) - {z.id} && z.wire.outbox == []
    ensures var t := BeginElection(cfg, z, draw);
      && Runs(cfg, z, draw, t, t.wire.outbox)
      && t == z.(raft := t.raft, clock := t.clock, wire := t.wire, stats := t.stats)
      && t.wire.recvTr == z.wire.recvTr && t.wire.sendTr.Keys == z.wire.sendTr.Keys
      && t.clock == z.clock.(electionElapsed := t.clock.electionElapsed, electionTimeout := t.clock.electionTimeout)
  {
    var e := z.(stats := z.stats.(electionsStarted := z.stats.electionsStarted + 1));
    if cfg.mode == Baseline {
      Campaigned(cfg, e, draw);
    } else {
      var c := ResetTimer(cfg, e.(raft := Rafts.PreCampaign(e.raft, e.id)), draw);
      SameSays(cfg, c, Ballot(c, true));
    }
    hide BroadcastSame, StartCampaign, Peers, OneToEach, AllSay, Matrix.HasBidirectionalQuorum;
  }

  lemma OthersRun(cfg: Config, s: NodeState, draw: nat)
    requires s.raft.role != Leader && s.wire.sendTr.Keys == ToSet(cfg.members) - {s.id}
    requires s.clock.electionElapsed + 1 >= s.clock.electionTimeout
    ensures var t := RoleTick(cfg, StartTick(s), draw);
      && Runs(cfg, s, draw, t, t.wire.outbox)
      && t == s.(raft := t.raft, clock := t.clock, wire := t.wire, stats := t.stats)
      && t.wire.recvTr == s.wire.recvTr && t.wire.sendTr.Keys == s.wire.sendTr.Keys
      && t.clock.tick == s.clock.tick + 1 && t.clock.probeElapsed == s.clock.probeElapsed
  {
    Begins(cfg, StartTick(s), draw);
    hide BeginElection, Peers, OneToEach, AllSay, Matrix.HasBidirectionalQuorum;
  }

  lemma RoleTicks(cfg: Config, s: NodeState, draw: nat)
    requires s.wire.sendTr.Keys == ToSet(cfg.members) - {s.id}
    ensures var t := RoleTick(cfg, StartTick(s), draw);
      && RoleDone(cfg, s, draw, t, t.wire.outbox)
      && t == s.(raft := t.raft, clock := t.clock, links := t.links, wire := t.wire, stats := t.stats)
      && t.wire.recvTr == s.wire.recvTr && t.wire.sendTr.Keys == s.wire.sendTr.Keys
      && t.links == s.links.(heardFrom := t.links.heardFrom)
      && t.clock.tick == s.clock.tick + 1 && t.clock.probeElapsed == s.clock.probeElapsed
  {
    if s.raft.role == Leader {
      LeaderReigns(cfg, s, draw);
      hide Reigns, RoleTick;
    } else if s.clock.electionElapsed + 1 >= s.clock.electionTimeout {
      OthersRun(cfg, s, draw);
      hide Runs, RoleTick;
    }
  }

  // Gossip leaves everything but the links and the probe counter alone.
  lemma GossipProbes(cfg: Config, s: NodeState, u: NodeState)
    requires cfg.mode == CrossFault && u.wire.sendTr.Keys == ToSet(cfg.members) - {u.id} && s.links.view.owner == s.id
    requires u.id == s.id && u.clock.tick == s.clock.tick + 1 && u.clock.probeElapsed == s.clock.probeElapsed
    requires u.links == s.links.(heardFrom := u.links.heardFrom)
    ensures var g := Gossip(cfg, u);
      && Probes(cfg, s, g, More(u.wire.outbox, g.wire.outbox)) && u.wire.outbox <= g.wire.outbox
      && g == u.(clock := u.clock.(probeElapsed := g.clock.probeElapsed), links := g.links, wire := g.wire)
      && g.links.heardFrom == u.links.heardFrom && g.wire.recvTr == u.wire.recvTr
  {
    var d := DetectSilence(cfg, u, |cfg.members|);
    SweepIsExact(cfg, u, |cfg.members|);
    MissingIsSilent(cfg, s, u);
    assert cfg.members[..|cfg.members|] == cfg.members;
    hide DetectSilence, Silent, Missing, Matrix.CanSend;
    var z := d.(clock := d.clock.(probeElapsed := 0));
    SameSays(cfg, z, ProbeReq(z.raft.term, z.id, z.links.inboundUp));
    hide BroadcastSame, Peers, OneToEach, AllSay;
  }

  lemma MissingIsSilent(cfg: Config, s: NodeState, u: NodeState)
    requires u.id == s.id && u.clock.tick == s.clock.tick + 1 && u.links.lastHeard == s.links.lastHeard
    ensures forall m :: Missing(cfg, s, m) <==> m in cfg.members && m != u.id && Silent(cfg, u, m)
  {
  }

  lemma SameRole(cfg: Config, s: NodeState, draw: nat, u: NodeState, t: NodeState, out: seq<Envelope>)
    requires RoleDone(cfg, s, draw, u, out) && t.raft == u.raft && t.stats == u.stats
    requires t.links.heardFrom == u.links.heardFrom && t.clock == u.clock.(probeElapsed := t.clock.probeElapsed)
    ensures RoleDone(cfg, s, draw, t, out)
  {
    hide OneToEach, AllSay, AllServed, NextsFilled, Matrix.HasBidirectionalQuorum;
  }

  // What a tick does and says, in every mode and role.
  lemma TicksAreDutiful(cfg: Config, p: NodeID, s: NodeState, draw: nat) returns (n: nat)
    requires WiredAt(cfg, p, s)
    ensures Ticks(cfg, s, draw, Tick(cfg, s, draw), n)
  {
    var u := RoleTick(cfg, StartTick(s), draw);
    RoleTicks(cfg, s, draw);
    n := |u.wire.outbox|;
    hide RoleTick, Gossip, RoleDone, Probes;
    var t := Tick(cfg, s, draw);
    if cfg.mode == CrossFault {
      GossipProbes(cfg, s, u);
      SameRole(cfg, s, draw, u, t, u.wire.outbox);
      assert t.wire.outbox[..n] == u.wire.outbox;
    } else {
      assert t.wire.outbox[..n] == u.wire.outbox && t.wire.outbox[n..] == [];
      NoProbes(cfg, s, t);
    }
  }

  lemma NoProbes(cfg: Config, s: NodeState, t: NodeState)
    requires cfg.mode != CrossFault && t.clock.probeElapsed == s.clock.probeElapsed
    requires t.links == s.links.(heardFrom := t.links.heardFrom)
    ensures Probes(cfg, s, t, [])
  {
  }

  // ---------- How often ----------

  // Between ticks neither counter runs; winning an election restarts the heartbeat.
  lemma DeliveryKeepsPace(cfg: Config, p: NodeID, s: NodeState, env: Envelope, draw: nat)
    requires cfg.Valid() && WellWired(cfg, p, s)
    ensures var k, t := s.clock, Deliver(cfg, s, env, draw);
      && t.clock.tick == k.tick && t.clock.probeElapsed == k.probeElapsed
      && t.clock.heartbeatElapsed == (if s.raft.role != Leader && t.raft.role == Leader then 0 else k.heartbeatElapsed)
  {
    hide Deliver, Genuine, Answers, ChainTook, Installed, CommitFollows, CommitAdvances, OneToEach, AllSay, AllServed;
    hide Peers, Settles;
    if !Genuine(cfg, s, env) {
      OthersAreIgnored(cfg, s, env, draw);
    } else if env.payload.AppendReq? && env.kind == KindAppendEntries {
      var h := RequestsAreTakenUp(cfg, p, s, env, draw);
    } else if env.payload.AppendResp? && env.kind == KindAppendResp {
      var h := RepliesAreNoted(cfg, p, s, env, draw);
    } else if env.payload.VoteReq? && (env.kind == KindPreVote || env.kind == KindRequestVote) {
      if env.payload.preVote {
        var h := PollsAreAnswered(cfg, p, s, env, draw);
      } else {
        var h := VotesAreAnswered(cfg, p, s, env, draw);
      }
    } else if env.payload.VoteResp? && (env.kind == KindPreVoteResp || env.kind == KindVoteResp) {
      var h := AnswersAreCounted(cfg, p, s, env, draw);
    } else if Gossips(env) {
      var h := GossipIsAnswered(cfg, p, s, env, draw);
    } else {
      var h := MislabelledIsIgnored(cfg, p, s, env, draw);
    }
  }

  // p's tick told every other member whom it hears.
  ghost predicate ProbedAt(cfg: Config, states: seq<Cluster>, acts: seq<Action>, p: NodeID, i: nat) {
    && i < |acts| && i + 1 < |states| && acts[i].TickAt? && acts[i].p == p && p in states[i + 1].nodes
    && var s := states[i + 1].nodes[p];
      forall q :: q in cfg.members && q != p ==>
        Said(s.wire.outbox, p, q, ProbeReq(s.raft.term, p, s.links.inboundUp))
  }

  ghost predicate Said(out: seq<Envelope>, p: NodeID, q: NodeID, m: Payload) {
    exists e :: e in out && e.from == p && e.to == q && e.payload == m
  }

  // p's tick, as a leader's, asked every other member to take what it may lack.
  ghost predicate BeatAt(cfg: Config, states: seq<Cluster>, acts: seq<Action>, p: NodeID, i: nat) {
    && i < |acts| && i + 1 < |states| && acts[i].TickAt? && acts[i].p == p
    && p in states[i].nodes && p in states[i + 1].nodes
    && forall q :: q in cfg.members && q != p ==>
         AskedToTake(states[i + 1].nodes[p].wire.outbox, states[i].nodes[p].raft, p, q)
  }

  ghost predicate AskedToTake(out: seq<Envelope>, r: Raft, p: NodeID, q: NodeID) {
    exists e :: e in out && e.from == p && e.to == q && e.payload.AppendReq? && SpokenBy(r, p, e.payload)
      && e.payload.prevIndex + 1 == Due(r, q)
  }

  ghost predicate OnPace(cfg: Config, s: NodeState) {
    s.clock.probeElapsed < cfg.probe && s.clock.heartbeatElapsed < cfg.heartbeat
  }

  // One to each is one to each of them.
  lemma EachIsTold(cfg: Config, out: seq<Envelope>, p: NodeID, q: NodeID) returns (i: nat)
    requires cfg.Valid() && OneToEach(out, p, Peers(cfg.members, p)) && q in cfg.members && q != p
    ensures i < |out| && out[i].from == p && out[i].to == q
  {
    PeersAreTheOthers(cfg.members, p);
    hide Peers;
    i :| 0 <= i < |Peers(cfg.members, p)| && Peers(cfg.members, p)[i] == q;
  }

  // A tick on which a probe, or for a leader a heartbeat, falls due.
  lemma TickPaces(cfg: Config, p: NodeID, s: NodeState, draw: nat)
    requires cfg.Valid() && WiredAt(cfg, p, s) && OnPace(cfg, s)
    ensures var t := Tick(cfg, s, draw);
      && OnPace(cfg, t)
      && (cfg.mode == CrossFault ==>
            || t.clock.probeElapsed == s.clock.probeElapsed + 1
            || forall q :: q in cfg.members && q != p ==>
                 Said(t.wire.outbox, p, q, ProbeReq(t.raft.term, p, t.links.inboundUp)))
      && (s.raft.role == Leader ==>
            || t.clock.heartbeatElapsed == s.clock.heartbeatElapsed + 1
            || forall q :: q in cfg.members && q != p ==> AskedToTake(t.wire.outbox, s.raft, p, q))
  {
    hide Tick, OneToEach, AllSay, AllServed, NextsFilled, Peers, Matrix.CanSend, SpokenBy, Due;
    var n := TicksAreDutiful(cfg, p, s, draw);
    var t := Tick(cfg, s, draw);
    var role, probes := t.wire.outbox[..n], t.wire.outbox[n..];
    if cfg.mode == CrossFault && s.clock.probeElapsed + 1 >= cfg.probe {
      forall q | q in cfg.members && q != p
        ensures Said(t.wire.outbox, p, q, ProbeReq(t.raft.term, p, t.links.inboundUp))
      {
        var i := EachIsTold(cfg, probes, p, q);
        SaidIn(probes, i, ProbeReq(t.raft.term, p, t.links.inboundUp));
        assert probes[i] in t.wire.outbox;
      }
    }
    if s.raft.role == Leader && s.clock.heartbeatElapsed + 1 >= cfg.heartbeat {
      forall q | q in cfg.members && q != p
        ensures AskedToTake(t.wire.outbox, s.raft, p, q)
      {
        var i := EachIsTold(cfg, role, p, q);
        ServedIn(role, i, s.raft, p);
        assert role[i] in t.wire.outbox;
      }
    }
  }

  lemma SaidIn(out: seq<Envelope>, i: nat, m: Payload)
    requires AllSay(out, m) && i < |out|
    ensures out[i] in out && out[i].payload == m
  {
  }

  lemma ServedIn(out: seq<Envelope>, i: nat, r: Raft, p: NodeID)
    requires AllServed(out, r, p) && i < |out|
    ensures out[i] in out && out[i].payload.AppendReq? && SpokenBy(r, p, out[i].payload)
    ensures out[i].payload.prevIndex + 1 == Due(r, out[i].to)
  {
    hide SpokenBy, Due;
  }

  // One step of a run, as p's counters see it.
  lemma StepPaces(cfg: Config, states: seq<Cluster>, acts: seq<Action>, n: nat, p: NodeID)
    requires Run(cfg, states, acts) && n < |acts| && p in cfg.members
    requires p in states[n].nodes && OnPace(cfg, states[n].nodes[p])
    ensures p in states[n + 1].nodes && OnPace(cfg, states[n + 1].nodes[p])
    ensures var s, t, ticked := states[n].nodes[p], states[n + 1].nodes[p], acts[n].TickAt? && acts[n].p == p;
      && (cfg.mode == CrossFault ==>
            || t.clock.probeElapsed == s.clock.probeElapsed + (if ticked then 1 else 0)
            || ProbedAt(cfg, states, acts, p, n))
      && (s.raft.role == Leader && t.raft.role == Leader ==>
            || t.clock.heartbeatElapsed == s.clock.heartbeatElapsed + (if ticked then 1 else 0)
            || BeatAt(cfg, states, acts, p, n))
  {
    hide Init, Next, Tick, Deliver, Propose, WiredAt, Said, AskedToTake;
    RunIsWired(cfg, states, acts, n);
    StepFacts(cfg, states, acts, n);
    var s := states[n].nodes[p];
    if p == Actor(acts[n]) {
      match acts[n] {
        case TickAt(_, d) => TickPaces(cfg, p, s, d);
        case DeliverTo(env, d) =>
          assert WellWired(cfg, p, s) by { WiredIsWell(cfg, p, s); }
          DeliveryKeepsPace(cfg, p, s, env, d);
        case ProposeAt(_, cmd) => ProposeKeepsTime(cfg, s, cmd);
      }
    }
  }

  lemma WiredIsWell(cfg: Config, p: NodeID, s: NodeState)
    requires WiredAt(cfg, p, s)
    ensures WellWired(cfg, p, s)
  {
  }

  lemma FirstOnPace(cfg: Config, c: Cluster, p: NodeID)
    requires cfg.Valid() && Init(cfg, c) && p in c.nodes
    ensures OnPace(cfg, c.nodes[p])
  {
    assert BeginsAt(cfg, c, p);
  }

  lemma {:induction false} AlwaysOnPace(cfg: Config, states: seq<Cluster>, acts: seq<Action>, n: nat, p: NodeID)
    requires Run(cfg, states, acts) && n <= |acts| && p in cfg.members
    ensures n < |states| && p in states[n].nodes && OnPace(cfg, states[n].nodes[p])
  {
    hide Next, Init, OnPace, ProbedAt, BeatAt;
    MembersAreNodes(cfg, states, acts, n, p);
    if n == 0 {
      FirstOnPace(cfg, states[0], p);
    } else {
      AlwaysOnPace(cfg, states, acts, n - 1, p);
      StepPaces(cfg, states, acts, n - 1, p);
    }
  }

  // As long as it has not probed, its counter has counted its ticks.
  lemma {:induction false} ProbeCount(cfg: Config, states: seq<Cluster>, acts: seq<Action>, p: NodeID, n: nat, n1: nat)
    requires Run(cfg, states, acts) && cfg.mode == CrossFault && p in cfg.members && n <= n1 <= |acts|
    requires forall i: nat :: n <= i < n1 ==> !ProbedAt(cfg, states, acts, p, i)
    ensures n < |states| && n1 < |states| && p in states[n].nodes && p in states[n1].nodes
    ensures states[n1].nodes[p].clock.probeElapsed == states[n].nodes[p].clock.probeElapsed + TicksIn(acts, p, n, n1)
    decreases n1
  {
    hide Run, ProbedAt, BeatAt, OnPace;
    RunShape(cfg, states, acts);
    AlwaysOnPace(cfg, states, acts, n1, p);
    if n < n1 {
      ProbeCount(cfg, states, acts, p, n, n1 - 1);
      AlwaysOnPace(cfg, states, acts, n1 - 1, p);
      StepPaces(cfg, states, acts, n1 - 1, p);
    }
  }

  // In crossfault mode no member ticks as often as the probe interval says without
  // telling every other member, at one of these ticks, whom it hears.
  lemma NobodyForgetsToProbe(cfg: Config, states: seq<Cluster>, acts: seq<Action>, p: NodeID, n: nat, n1: nat)
    returns (i: nat)
    requires Run(cfg, states, acts) && cfg.mode == CrossFault && p in cfg.members && n <= n1 <= |acts|
    requires TicksIn(acts, p, n, n1) >= cfg.probe
    ensures n <= i < n1 && ProbedAt(cfg, states, acts, p, i)
  {
    hide Run, ProbedAt;
    if forall i: nat :: n <= i < n1 ==> !ProbedAt(cfg, states, acts, p, i) {
      ProbeCount(cfg, states, acts, p, n, n1);
      AlwaysOnPace(cfg, states, acts, n1, p);
      assert false;
    }
    i :| n <= i < n1 && ProbedAt(cfg, states, acts, p, i);
  }

  ghost predicate LeadsThroughout(states: seq<Cluster>, p: NodeID, n: nat, n1: nat) {
    forall j :: n <= j <= n1 && j < |states| ==> p in states[j].nodes && states[j].nodes[p].raft.role == Leader
  }

  lemma {:induction false} BeatCount(cfg: Config, states: seq<Cluster>, acts: seq<Action>, p: NodeID, n: nat, n1: nat)
    requires Run(cfg, states, acts) && p in cfg.members && n <= n1 <= |acts| && LeadsThroughout(states, p, n, n1)
    requires forall i: nat :: n <= i < n1 ==> !BeatAt(cfg, states, acts, p, i)
    ensures n < |states| && n1 < |states| && p in states[n].nodes && p in states[n1].nodes
    ensures states[n1].nodes[p].clock.heartbeatElapsed
         == states[n].nodes[p].clock.heartbeatElapsed + TicksIn(acts, p, n, n1)
    decreases n1
  {
    hide Run, ProbedAt, BeatAt, OnPace;
    RunShape(cfg, states, acts);
    AlwaysOnPace(cfg, states, acts, n1, p);
    if n < n1 {
      BeatCount(cfg, states, acts, p, n, n1 - 1);
      AlwaysOnPace(cfg, states, acts, n1 - 1, p);
      StepPaces(cfg, states, acts, n1 - 1, p);
    }
  }

  // No leader ticks as often as the heartbeat interval says without asking every other
  // member, at one of these ticks, to take whatever it may lack.
  lemma LeadersKeepBeating(cfg: Config, states: seq<Cluster>, acts: seq<Action>, p: NodeID, n: nat, n1: nat)
    returns (i: nat)
    requires Run(cfg, states, acts) && p in cfg.members && n <= n1 <= |acts| && LeadsThroughout(states, p, n, n1)
    requires TicksIn(acts, p, n, n1) >= cfg.heartbeat
    ensures n <= i < n1 && BeatAt(cfg, states, acts, p, i)
  {
    hide Run, BeatAt, LeadsThroughout;
    if forall i: nat :: n <= i < n1 ==> !BeatAt(cfg, states, acts, p, i) {
      BeatCount(cfg, states, acts, p, n, n1);
      AlwaysOnPace(cfg, states, acts, n1, p);
      assert false;
    }
    i :| n <= i < n1 && BeatAt(cfg, states, acts, p, i);
  }
}
