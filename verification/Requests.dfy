/** Every append request on the wire quotes the log of a leader, whatever has
    become of that leader since (internal/consensus/handlers.go). */
module Requests {
  import opened Types
  import opened Crypt
  import opened Transcripts
  import opened Logs
  import opened Rafts
  import opened Nodes
  import opened Clusters
  import opened Traffic
  import opened Histories
  import Simulation

  // All of log from the previous index on, or, past its end, nothing.
  ghost predicate Quotes(log: Log, m: Payload)
    requires m.AppendReq?
  {
    if m.prevIndex <= |log| then m.entries == log[m.prevIndex..] && TermAt(log, m.prevIndex) == Some(m.prevTerm)
    else m.entries == [] && m.prevTerm == 0
  }

  // p, with this state, leads the request's term and speaks for itself.
  ghost predicate SpokenBy(r: Raft, p: NodeID, m: Payload)
    requires m.AppendReq?
  {
    r.role == Leader && m.term == r.term && m.leader == p && m.leaderCommit == r.commitIndex && Quotes(r.log, m)
  }

  // ---------- One step ----------

  ghost predicate AllSpokenBy(r: Raft, p: NodeID, out: seq<Envelope>) {
    forall e :: e in out && e.payload.AppendReq? ==> SpokenBy(r, p, e.payload)
  }

  ghost predicate NoRequests(out: seq<Envelope>) {
    forall e :: e in out ==> !e.payload.AppendReq?
  }

  lemma AppendForSpoken(r: Raft, p: NodeID, to: NodeID)
    requires r.role == Leader
    ensures AppendFor(r, p, to).AppendReq? && SpokenBy(r, p, AppendFor(r, p, to))
  {
    hide NextFor;
  }

  // What is said of a leader does not depend on whom it takes to have what.
  lemma OnlyNextChanges(r: Raft, r': Raft, p: NodeID, m: Payload)
    requires m.AppendReq? && SpokenBy(r, p, m) && r' == r.(nextIndex := r'.nextIndex)
    ensures SpokenBy(r', p, m)
  {
  }

  lemma SentSpoken(s: NodeState, to: NodeID, m: Payload)
    requires AllSpokenBy(s.raft, s.id, s.wire.outbox) && (m.AppendReq? ==> SpokenBy(s.raft, s.id, m))
    ensures AllSpokenBy(s.raft, s.id, Send(s, to, m).wire.outbox)
  {
    hide SpokenBy;
  }

  lemma BroadcastSpoken(cfg: Config, s: NodeState, n: nat)
    requires n <= |cfg.members| && s.raft.role == Leader && AllSpokenBy(s.raft, s.id, s.wire.outbox)
    ensures var b := BroadcastAppend(cfg, s, n);
      b.id == s.id && b.raft == s.raft.(nextIndex := b.raft.nextIndex) && AllSpokenBy(b.raft, s.id, b.wire.outbox)
  {
    hide SpokenBy, AppendFor, NextFor;
    if n > 0 {
      BroadcastSpoken(cfg, s, n - 1);
      var b, to := BroadcastAppend(cfg, s, n - 1), cfg.members[n - 1];
      var z := b.(raft := RememberNext(b.raft, to));
      forall e | e in z.wire.outbox && e.payload.AppendReq?
        ensures SpokenBy(z.raft, s.id, e.payload)
      {
        OnlyNextChanges(b.raft, z.raft, s.id, e.payload);
      }
      AppendForSpoken(b.raft, s.id, to);
      OnlyNextChanges(b.raft, z.raft, s.id, AppendFor(b.raft, s.id, to));
      SentSpoken(z, to, AppendFor(b.raft, s.id, to));
    }
  }

  lemma SameAsksNothing(cfg: Config, s: NodeState, m: Payload, n: nat)
    requires n <= |cfg.members| && !m.AppendReq?
    ensures forall e :: e in BroadcastSame(cfg, s, m, n).wire.outbox && e.payload.AppendReq? ==> e in s.wire.outbox
  {
  }

  // Nothing but a leader's broadcast, in a tick or on winning, makes requests.
  lemma TickSpeaks(cfg: Config, s: NodeState, draw: nat)
    ensures AllSpokenBy(s.raft, s.id, Tick(cfg, s, draw).wire.outbox)
  {
    hide SpokenBy, BroadcastAppend, BroadcastSame, DetectSilence;
    var z := StartTick(s);
    var t := RoleTick(cfg, z, draw);
    if z.raft.role == Leader {
      LeaderTickSpeaks(cfg, z, draw);
    } else {
      ElectionAsksNothing(cfg, z, draw);
    }
    if cfg.mode == CrossFault {
      GossipAsksNothing(cfg, t);
    }
  }

  lemma LeaderTickSpeaks(cfg: Config, s: NodeState, draw: nat)
    requires s.raft.role == Leader && s.wire.outbox == []
    ensures AllSpokenBy(s.raft, s.id, LeaderTick(cfg, s, draw).wire.outbox)
  {
    hide SpokenBy, BroadcastAppend;
    var z := s.(clock := s.clock.(heartbeatElapsed := 0));
    BroadcastSpoken(cfg, z, |cfg.members|);
    var b := BroadcastAppend(cfg, z, |cfg.members|);
    forall e | e in b.wire.outbox && e.payload.AppendReq?
      ensures SpokenBy(s.raft, s.id, e.payload)
    {
      OnlyNextChanges(b.raft, s.raft, s.id, e.payload);
    }
  }

  lemma CampaignAsksNothing(cfg: Config, s: NodeState, draw: nat)
    ensures forall e :: e in StartCampaign(cfg, s, draw).wire.outbox && e.payload.AppendReq? ==> e in s.wire.outbox
  {
    hide BroadcastSame;
    var c := ResetTimer(cfg, s.(raft := Rafts.Campaign(s.raft, s.id),
                                stats := s.stats.(termBumps := s.stats.termBumps + 1)), draw);
    SameAsksNothing(cfg, c, Ballot(c, false), |cfg.members|);
  }

  lemma ElectionAsksNothing(cfg: Config, s: NodeState, draw: nat)
    requires s.wire.outbox == []
    ensures NoRequests(BeginElection(cfg, s, draw).wire.outbox)
  {
    hide BroadcastSame, StartCampaign;
    var e := s.(stats := s.stats.(electionsStarted := s.stats.electionsStarted + 1));
    CampaignAsksNothing(cfg, e, draw);
    var c := ResetTimer(cfg, e.(raft := Rafts.PreCampaign(e.raft, e.id)), draw);
    SameAsksNothing(cfg, c, Ballot(c, true), |cfg.members|);
  }

  lemma GossipAsksNothing(cfg: Config, s: NodeState)
    ensures forall e :: e in Gossip(cfg, s).wire.outbox && e.payload.AppendReq? ==> e in s.wire.outbox
  {
    hide BroadcastSame;
    var d := DetectSilence(cfg, s, |cfg.members|);
    Simulation.SilenceOnlyLinks(cfg, s, |cfg.members|);
    hide DetectSilence;
    var z := d.(clock := d.clock.(probeElapsed := 0));
    SameAsksNothing(cfg, z, ProbeReq(z.raft.term, z.id, z.links.inboundUp), |cfg.members|);
  }

  lemma WinnerSpeaks(cfg: Config, s: NodeState)
    requires s.wire.outbox == []
    ensures var t := BecomeLeader(cfg, s); AllSpokenBy(t.raft, s.id, t.wire.outbox)
  {
    hide SpokenBy, BroadcastAppend;
    var l := ClearHeard(s.(raft := Rafts.Elected(s.raft, s.id, cfg.members),
                           clock := s.clock.(heartbeatElapsed := 0)));
    BroadcastSpoken(cfg, l, |cfg.members|);
  }

  lemma VoteRespSpeaks(cfg: Config, s: NodeState, from: NodeID, m: Payload, draw: nat)
    requires m.VoteResp? && s.wire.outbox == []
    ensures var t := HandleVoteResp(cfg, s, from, m, draw); AllSpokenBy(t.raft, s.id, t.wire.outbox)
  {
    hide SpokenBy, StartCampaign, BecomeLeader;
    CampaignAsksNothing(cfg, s.(raft := s.raft.(preVotes := s.raft.preVotes + {from})), draw);
    WinnerSpeaks(cfg, s.(raft := s.raft.(votes := s.raft.votes + {from})));
  }

  lemma RequestAsksNothing(cfg: Config, s: NodeState, from: NodeID, m: Payload, draw: nat)
    requires m.AppendReq? && s.wire.outbox == []
    ensures NoRequests(HandleAppendReq(cfg, s, from, m, draw).wire.outbox)
  {
    hide Splice, Matches;
  }

  lemma VoteReqAsksNothing(cfg: Config, s: NodeState, from: NodeID, m: Payload, draw: nat)
    requires m.VoteReq? && s.wire.outbox == []
    ensures NoRequests(HandleVoteReq(cfg, s, from, m, draw).wire.outbox)
  {
  }

  lemma DeliverSpeaks(cfg: Config, s: NodeState, env: Envelope, draw: nat)
    requires cfg.Valid()
    ensures var t := Deliver(cfg, s, env, draw); AllSpokenBy(t.raft, s.id, t.wire.outbox)
  {
    hide SpokenBy, HandleVoteResp, HandleAppendReq, HandleVoteReq, Judge, Received, MergeInbound;
    if Accepts(cfg, s, env) {
      var h, m := Heard(s.(wire := s.wire.(outbox := [])), env, cfg.ring), env.payload;
      if m.VoteResp? {
        VoteRespSpeaks(cfg, h, env.from, m, draw);
      } else if m.VoteReq? {
        VoteReqAsksNothing(cfg, h, env.from, m, draw);
      } else if m.AppendReq? {
        RequestAsksNothing(cfg, h, env.from, m, draw);
      }
    }
  }

  // ---------- Over a run ----------

  lemma NamedRight(cfg: Config, p: NodeID, c: Cluster, s: NodeState)
    requires Wired(cfg, c) && p in c.nodes && s == c.nodes[p]
    ensures s.id == p
  {
    assert WiredAt(cfg, p, s);
  }

  // A sent request was spoken by its sender as leader of its term in this step.
  lemma SentIsSpoken(cfg: Config, states: seq<Cluster>, acts: seq<Action>, e: Envelope, k: nat) returns (i: nat)
    requires Run(cfg, states, acts) && SentAt(states, acts, e, k) && e.payload.AppendReq?
    ensures k <= i <= k + 1 && i < |states| && e.from in states[i].nodes
    ensures SpokenBy(states[i].nodes[e.from].raft, e.from, e.payload)
  {
    hide Init, Next, SpokenBy, WiredAt, Tick, Deliver, Propose;
    RunIsWired(cfg, states, acts, k);
    StepFacts(cfg, states, acts, k);
    var s, s' := states[k].nodes[e.from], states[k + 1].nodes[e.from];
    NamedRight(cfg, e.from, states[k], s);
    match acts[k] {
      case TickAt(_, d) =>
        TickSpeaks(cfg, s, d);
        i := k;
      case DeliverTo(env, d) =>
        DeliverSpeaks(cfg, s, env, d);
        i := k + 1;
    }
  }

  // Every request on the wire was spoken by its sender as leader of its term, at
  // some moment: it quotes all of the log from the previous index on, or lies past
  // the end and is empty. The sender may have been deposed since.
  lemma RequestsAreSlices(cfg: Config, states: seq<Cluster>, acts: seq<Action>, e: Envelope, j: nat)
    returns (i: nat)
    requires Run(cfg, states, acts) && j < |states| && e in states[j].net && e.payload.AppendReq?
    ensures i <= j && e.from in states[i].nodes
    ensures SpokenBy(states[i].nodes[e.from].raft, e.from, e.payload)
  {
    hide Init, Next, SpokenBy, SentAt;
    WireIsHistory(cfg, states, acts, j, e);
    var k: nat :| k < j && SentAt(states, acts, e, k);
    i := SentIsSpoken(cfg, states, acts, e, k);
  }
}
