/** Every step of a replica is a sequence of moves, so every invariant of the
    moves holds along every run of the cluster. */
module Simulation {
  import opened Types
  import opened Crypt
  import opened Transcripts
  import opened Logs
  import opened Rafts
  import opened Nodes
  import opened Worlds
  import opened CommitMoves
  import ElectionSafety
  import LogMatching
  import Commitment
  import Voters

  // Commitment is part of the invariant only while acknowledgements are honest.
  ghost predicate Good(cfg: Config, w: World, honest: bool) {
    && cfg.Valid() && Sound(cfg) && ElectionSafety.Inv(cfg, w) && LogMatching.Inv(w)
    && (honest ==> Commitment.Inv(cfg, w))
  }

  // How what a node says is put on record: an acknowledgement by someone whose word
  // is not needed as one of nothing.
  ghost function Recorded(cfg: Config, elect: map<nat, Election>, from: NodeID, body: Payload): (r: Payload)
    ensures !body.AppendResp? ==> r == body
    ensures body.AppendResp? && !body.success ==> r == body
  {
    if body.AppendResp? && body.success && !Commitment.Trusted(cfg, elect, from, body.term)
    then body.(matchIndex := 0) else body
  }

  // Unless the cluster is tight, the acknowledgement covers no more than the request
  // vouched for.
  ghost predicate HonestAck(cfg: Config, log: Log, m: Payload)
    requires m.AppendReq?
  {
    && m.prevIndex <= |log|
    && (|| Tight(cfg)
        || AckIndex(cfg.ack, Splice(log, m.prevIndex, m.entries), m.prevIndex, m.entries) <= m.prevIndex + |m.entries|)
  }

  // An envelope the adversary has not touched, whose contents are on record.
  ghost predicate OnRecord(cfg: Config, w: World, e: Envelope) {
    && e.Open(cfg.ring) == Opened && e.kind == KindOf(e.payload)
    && (e.payload.AppendResp? && e.payload.success ==> e.payload.term in w.elect)
    && Packet(e.from, e.to, Recorded(cfg, w.elect, e.from, e.payload)) in w.sent
  }

  ghost predicate Synced(cfg: Config, w: World, p: NodeID, s: NodeState) {
    && WellWired(cfg, p, s) && p in w.nodes && w.nodes[p] == s.raft
    && forall e :: e in s.wire.outbox ==> OnRecord(cfg, w, e)
  }

  // w' is later than w and differs from it at most in node p.
  ghost predicate StepOf(w: World, p: NodeID, w': World) {
    Later(w, w') && forall q :: q in w.nodes && q != p ==> w'.nodes[q] == w.nodes[q]
  }

  lemma StepsCompose(w: World, p: NodeID, w1: World, w2: World)
    requires StepOf(w, p, w1) && StepOf(w1, p, w2)
    ensures StepOf(w, p, w2)
  {
    forall t | t in w.llog
      ensures t in w2.llog && LogMatching.StartsWith(w2.llog[t], w.llog[t])
    {
      var a, b, c := w.llog[t], w1.llog[t], w2.llog[t];
      assert LogMatching.StartsWith(b, a) && LogMatching.StartsWith(c, b);
      assert c[..|a|] == c[..|b|][..|a|];
    }
  }

  // ---------- Sending ----------

  ghost predicate MayTell(cfg: Config, w: World, honest: bool, k: Packet) {
    MaySay(cfg, w, k) && (honest ==> MayVouch(w, k))
  }

  lemma SayKeepsGood(cfg: Config, w: World, k: Packet, honest: bool)
    requires Good(cfg, w, honest) && MayTell(cfg, w, honest, k)
    ensures Good(cfg, SendAll(w, {k}), honest)
  {
    hide ElectionSafety.Inv, LogMatching.Inv, Commitment.Inv;
    ElectionSafety.SendKeeps(cfg, w, {k});
    LogMatching.SendKeeps(cfg, w, {k});
    if honest {
      CommitMoves.SendKeeps(cfg, w, {k});
    }
  }

  lemma ToldTerm(cfg: Config, w: World, honest: bool, k: Packet)
    requires MayTell(cfg, w, honest, k) && k.body.AppendResp? && k.body.success
    ensures k.body.term in w.elect
  {
  }

  lemma SaySynced(cfg: Config, w: World, p: NodeID, s: NodeState, to: NodeID, body: Payload)
    requires Synced(cfg, w, p, s) && to in s.wire.sendTr
    requires body.AppendResp? && body.success ==> body.term in w.elect
    ensures Synced(cfg, SendAll(w, {Packet(p, to, Recorded(cfg, w.elect, p, body))}), p, Send(s, to, body))
  {
    var w' := SendAll(w, {Packet(p, to, Recorded(cfg, w.elect, p, body))});
    var s' := Send(s, to, body);
    forall e | e in s'.wire.outbox
      ensures OnRecord(cfg, w', e)
    {
      assert e in s.wire.outbox ==> OnRecord(cfg, w, e);
    }
    assert s'.wire.sendTr.Keys == s.wire.sendTr.Keys;
  }

  lemma SayOne(cfg: Config, w: World, p: NodeID, s: NodeState, to: NodeID, body: Payload, honest: bool)
    returns (w': World)
    requires Good(cfg, w, honest) && Synced(cfg, w, p, s)
    requires to in s.wire.sendTr ==> MayTell(cfg, w, honest, Packet(p, to, Recorded(cfg, w.elect, p, body)))
    ensures Good(cfg, w', honest) && Synced(cfg, w', p, Send(s, to, body))
    ensures StepOf(w, p, w') && w' == w.(sent := w'.sent)
  {
    hide ElectionSafety.Inv, LogMatching.Inv, Commitment.Inv, MayTell, Synced;
    if to in s.wire.sendTr {
      w' := SendAll(w, {Packet(p, to, Recorded(cfg, w.elect, p, body))});
      SayKeepsGood(cfg, w, Packet(p, to, Recorded(cfg, w.elect, p, body)), honest);
      if body.AppendResp? && body.success {
        ToldTerm(cfg, w, honest, Packet(p, to, Recorded(cfg, w.elect, p, body)));
      }
      SaySynced(cfg, w, p, s, to, body);
    } else {
      w' := w;
    }
  }

  // ---------- Moves under the joint invariant ----------

  lemma GoodStepDown(cfg: Config, w: World, p: NodeID, t: nat, leader: Option<NodeID>, honest: bool)
    requires Sound(cfg) && Good(cfg, w, honest) && p in w.nodes
    requires t > w.nodes[p].term
          || (t == w.nodes[p].term && ElectionSafety.MayUnvote(cfg, w, p))
    ensures Good(cfg, StepDownAt(cfg, w, p, t, leader), honest) && StepOf(w, p, StepDownAt(cfg, w, p, t, leader))
  {
    hide ElectionSafety.Inv, LogMatching.Inv, Commitment.Inv;
    var r := StepDown(cfg.rule, w.nodes[p], t, leader);
    ElectionSafety.StepDownKeeps(cfg, w, p, t, leader);
    LogMatching.SameLogKeeps(w, p, r);
    if honest {
      QuietKeeps(cfg, w, p, r);
    }
  }

  lemma GoodCampaign(cfg: Config, w: World, p: NodeID, honest: bool)
    requires Good(cfg, w, honest) && p in w.nodes
    ensures Good(cfg, CampaignAt(w, p), honest) && StepOf(w, p, CampaignAt(w, p))
  {
    hide ElectionSafety.Inv, LogMatching.Inv, Commitment.Inv;
    ElectionSafety.CampaignKeeps(cfg, w, p);
    LogMatching.SameLogKeeps(w, p, Rafts.Campaign(w.nodes[p], p));
    if honest {
      CommitMoves.CampaignKeeps(cfg, w, p);
    }
  }

  lemma GoodPreCampaign(cfg: Config, w: World, p: NodeID, honest: bool)
    requires Sound(cfg) && Good(cfg, w, honest) && p in w.nodes && cfg.mode != Baseline
    ensures Good(cfg, PreCampaignAt(w, p), honest) && StepOf(w, p, PreCampaignAt(w, p))
  {
    hide ElectionSafety.Inv, LogMatching.Inv, Commitment.Inv;
    var r := Rafts.PreCampaign(w.nodes[p], p);
    ElectionSafety.PreCampaignKeeps(cfg, w, p);
    LogMatching.SameLogKeeps(w, p, r);
    if honest {
      QuietKeeps(cfg, w, p, r);
    }
  }

  lemma GoodVote(cfg: Config, w: World, p: NodeID, c: NodeID, honest: bool)
    requires Good(cfg, w, honest) && p in w.nodes
    requires w.nodes[p].votedFor == None || w.nodes[p].votedFor == Some(c)
    ensures Good(cfg, VoteAt(w, p, c), honest) && StepOf(w, p, VoteAt(w, p, c))
  {
    hide ElectionSafety.Inv, LogMatching.Inv, Commitment.Inv;
    var r := w.nodes[p].(votedFor := Some(c));
    ElectionSafety.VoteKeeps(cfg, w, p, c);
    LogMatching.SameLogKeeps(w, p, r);
    if honest {
      QuietKeeps(cfg, w, p, r);
    }
  }

  lemma GoodTally(cfg: Config, w: World, p: NodeID, v: NodeID, honest: bool)
    requires Good(cfg, w, honest) && p in w.nodes && v in w.nodes
    requires w.nodes[p].role == Candidate && Granted(w.sent, v, p, w.nodes[p].term)
    ensures Good(cfg, TallyAt(w, p, v), honest) && StepOf(w, p, TallyAt(w, p, v))
  {
    hide ElectionSafety.Inv, LogMatching.Inv, Commitment.Inv;
    var r := w.nodes[p].(votes := w.nodes[p].votes + {v});
    ElectionSafety.TallyKeeps(cfg, w, p, v);
    LogMatching.SameLogKeeps(w, p, r);
    if honest {
      QuietKeeps(cfg, w, p, r);
    }
  }

  lemma GoodElect(cfg: Config, w: World, p: NodeID, honest: bool)
    requires cfg.Valid() && Good(cfg, w, honest)
    requires p in w.nodes && w.nodes[p].role == Candidate && |w.nodes[p].votes| >= cfg.Quorum()
    ensures Good(cfg, ElectAt(cfg, w, p), honest) && StepOf(w, p, ElectAt(cfg, w, p))
  {
    hide ElectionSafety.Inv, LogMatching.Inv, Commitment.Inv;
    ElectionSafety.TermIsVacant(cfg, w, p);
    ElectionSafety.CandidateTermPositive(cfg, w, p);
    ElectionSafety.ElectKeeps(cfg, w, p);
    LogMatching.LedTerms(w);
    LogMatching.ElectKeeps(cfg, w, p);
    if honest {
      CommitMoves.ElectKeeps(cfg, w, p);
    }
  }

  lemma GoodTake(cfg: Config, w: World, p: NodeID, m: Payload, honest: bool)
    requires cfg.Valid() && Good(cfg, w, honest)
    requires p in w.nodes && m.AppendReq? && m.term == w.nodes[p].term && w.nodes[p].role == Follower
    requires exists from :: Packet(from, p, m) in w.sent
    requires Matches(w.nodes[p].log, m.prevIndex, m.prevTerm)
    ensures m.prevIndex <= |w.nodes[p].log|
    ensures Good(cfg, TakeAt(w, p, m), honest) && StepOf(w, p, TakeAt(w, p, m))
  {
    hide ElectionSafety.Inv, LogMatching.Inv, Commitment.Inv;
    var from :| Packet(from, p, m) in w.sent;
    var k := Packet(from, p, m);
    LogMatching.SentIsServed(w, k);
    ElectionSafety.OtherKeeps(cfg, w, p, TakeEntries(w.nodes[p], m.prevIndex, m.entries, m.leaderCommit));
    LogMatching.TakeKeeps(w, p, m);
    if honest {
      Commitment.SentIsCovered(cfg, w, k);
      CommitMoves.TakeKeeps(cfg, w, p, m);
    }
  }

  lemma GoodBookkeeping(cfg: Config, w: World, p: NodeID, r: Raft, honest: bool)
    requires Good(cfg, w, honest) && p in w.nodes && Bookkeeping(w.nodes[p], r)
    ensures Good(cfg, Put(w, p, r), honest) && StepOf(w, p, Put(w, p, r))
  {
    hide ElectionSafety.Inv, LogMatching.Inv, Commitment.Inv;
    ElectionSafety.OtherKeeps(cfg, w, p, r);
    LogMatching.SameLogKeeps(w, p, r);
    if honest {
      QuietKeeps(cfg, w, p, r);
    }
  }

  lemma GoodNoteMatch(cfg: Config, w: World, p: NodeID, v: NodeID, m: nat, honest: bool)
    requires Good(cfg, w, honest) && p in w.nodes && w.nodes[p].role == Leader
    requires Commitment.Trusted(cfg, w.elect, v, w.nodes[p].term) ==>
      Commitment.AckSent(w.sent, v, p, w.nodes[p].term, m)
    ensures Good(cfg, Put(w, p, NoteMatch(w.nodes[p], v, m)), honest)
    ensures StepOf(w, p, Put(w, p, NoteMatch(w.nodes[p], v, m)))
  {
    hide ElectionSafety.Inv, LogMatching.Inv, Commitment.Inv;
    var r := NoteMatch(w.nodes[p], v, m);
    ElectionSafety.OtherKeeps(cfg, w, p, r);
    LogMatching.SameLogKeeps(w, p, r);
    if honest {
      NoteMatchKeeps(cfg, w, p, v, m);
    }
  }

  lemma GoodAdvance(cfg: Config, w: World, p: NodeID, honest: bool)
    requires cfg.Valid() && Good(cfg, w, honest) && p in w.nodes && w.nodes[p].role == Leader
    ensures Good(cfg, Put(w, p, Rafts.AdvanceCommit(w.nodes[p], p, cfg.members)), honest)
    ensures StepOf(w, p, Put(w, p, Rafts.AdvanceCommit(w.nodes[p], p, cfg.members)))
  {
    hide ElectionSafety.Inv, LogMatching.Inv, Commitment.Inv;
    var r := Rafts.AdvanceCommit(w.nodes[p], p, cfg.members);
    ElectionSafety.OtherKeeps(cfg, w, p, r);
    LogMatching.SameLogKeeps(w, p, r);
    if honest {
      AdvanceKeeps(cfg, w, p);
    }
  }

  lemma GoodPropose(cfg: Config, w: World, p: NodeID, cmd: string, honest: bool)
    requires Good(cfg, w, honest) && p in w.nodes && w.nodes[p].role == Leader
    ensures Good(cfg, ProposeAt(w, p, cmd), honest) && StepOf(w, p, ProposeAt(w, p, cmd))
  {
    hide ElectionSafety.Inv, LogMatching.Inv, Commitment.Inv;
    var r := w.nodes[p];
    var log := r.log + [Entry(r.term, cmd)];
    ElectionSafety.OtherKeeps(cfg, w, p, r.(log := log));
    ElectionSafety.LogsIrrelevant(cfg, Put(w, p, r.(log := log)), w.llog[r.term := log]);
    LogMatching.ProposeKeeps(cfg, w, p, cmd);
    if honest {
      CommitMoves.ProposeKeeps(cfg, w, p, cmd);
    }
  }

  // ---------- Broadcasts ----------

  // The same body to everyone else, when each copy may be said.
  lemma SaySame(cfg: Config, w: World, p: NodeID, s: NodeState, body: Payload, n: nat, honest: bool)
    returns (w': World)
    requires n <= |cfg.members| && Good(cfg, w, honest) && Synced(cfg, w, p, s)
    requires !body.AppendResp?
    requires forall to :: to in cfg.members && to != p ==> MayTell(cfg, w, honest, Packet(p, to, body))
    ensures Good(cfg, w', honest) && Synced(cfg, w', p, BroadcastSame(cfg, s, body, n))
    ensures StepOf(w, p, w') && w' == w.(sent := w'.sent)
  {
    hide Good;
    if n == 0 {
      w' := w;
    } else {
      var w1 := SaySame(cfg, w, p, s, body, n - 1, honest);
      var b := BroadcastSame(cfg, s, body, n - 1);
      var to := cfg.members[n - 1];
      if to == s.id {
        w' := w1;
      } else {
        assert MayTell(cfg, w, honest, Packet(p, to, body));
        w' := SayOne(cfg, w1, p, b, to, body, honest);
        StepsCompose(w, p, w1, w');
      }
    }
  }

  lemma AppendForIsServed(r: Raft, id: NodeID, m: NodeID)
    ensures var body := AppendFor(r, id, m);
      body.AppendReq? && body.term == r.term && body.leaderCommit == r.commitIndex && Served(r.log, body)
      && Voters.ReachesEnd(r.log, body)
  {
    var prev := NextFor(r, m) - 1;
    hide NextFor;
    var entries := Slice(r.log, prev + 1);
    if prev <= |r.log| {
      assert entries == r.log[prev..] && prev + |entries| == |r.log|;
      assert TermAt(r.log, prev).Some?;
    }
  }

  lemma AppendForReaches(cfg: Config, w: World, p: NodeID, m: NodeID)
    requires Commitment.Inv(cfg, w) && p in w.nodes
    ensures AppendFor(w.nodes[p], p, m).AppendReq? && Commitment.Reaches(AppendFor(w.nodes[p], p, m))
  {
    assert Commitment.Covered(cfg, w, w.nodes[p].log, w.nodes[p].commitIndex, w.nodes[p].term);
    hide Commitment.Covered, Commitment.Committed;
  }

  // A leader may send a request served from its log that reaches its commit index.
  lemma MayTellAppend(cfg: Config, w: World, p: NodeID, to: NodeID, m: Payload, honest: bool)
    requires p in w.nodes && to in w.nodes && to != p && w.nodes[p].role == Leader
    requires m.AppendReq? && m.term == w.nodes[p].term && m.leaderCommit == w.nodes[p].commitIndex
    requires Served(w.nodes[p].log, m) && Voters.ReachesEnd(w.nodes[p].log, m)
    requires honest ==> Commitment.Reaches(m)
    ensures MayTell(cfg, w, honest, Packet(p, to, m))
  {
    hide Served, Commitment.Reaches, Voters.ReachesEnd;
  }

  lemma AppendForTold(cfg: Config, w: World, p: NodeID, to: NodeID, r: Raft, honest: bool)
    requires Good(cfg, w, honest) && p in w.nodes && to in w.nodes && to != p && w.nodes[p] == r && r.role == Leader
    ensures MayTell(cfg, Put(w, p, RememberNext(r, to)), honest, Packet(p, to, AppendFor(r, p, to)))
  {
    AppendForIsServed(r, p, to);
    if honest {
      AppendForReaches(cfg, w, p, to);
    }
    hide Good, MayTell, Served, AppendFor, NextFor, Commitment.Reaches, Voters.ReachesEnd;
    MayTellAppend(cfg, Put(w, p, RememberNext(r, to)), p, to, AppendFor(r, p, to), honest);
  }

  lemma SayAppends(cfg: Config, w: World, p: NodeID, s: NodeState, n: nat, honest: bool)
    returns (w': World)
    requires n <= |cfg.members| && w.nodes.Keys == ToSet(cfg.members)
    requires Good(cfg, w, honest) && Synced(cfg, w, p, s) && s.raft.role == Leader
    ensures Good(cfg, w', honest) && Synced(cfg, w', p, BroadcastAppend(cfg, s, n)) && StepOf(w, p, w')
    ensures Bookkeeping(s.raft, BroadcastAppend(cfg, s, n).raft)
  {
    hide Good, MayTell, NextFor;
    if n == 0 {
      w' := w;
    } else {
      var w1 := SayAppends(cfg, w, p, s, n - 1, honest);
      var b := BroadcastAppend(cfg, s, n - 1);
      var to := cfg.members[n - 1];
      if to == s.id {
        w' := w1;
      } else {
        var r := RememberNext(b.raft, to);
        var w2 := Put(w1, p, r);
        GoodBookkeeping(cfg, w1, p, r, honest);
        var body := AppendFor(b.raft, p, to);
        AppendForTold(cfg, w1, p, to, b.raft, honest);
        w' := SayOne(cfg, w2, p, b.(raft := r), to, body, honest);
        StepsCompose(w, p, w1, w2);
        StepsCompose(w, p, w2, w');
      }
    }
  }

  // ---------- Elections ----------

  lemma SayBallots(cfg: Config, w: World, p: NodeID, s: NodeState, pre: bool, honest: bool)
    returns (w': World)
    requires Good(cfg, w, honest) && Synced(cfg, w, p, s) && w.nodes.Keys == ToSet(cfg.members)
    requires !pre ==> s.raft.role == Candidate
    ensures Good(cfg, w', honest) && Synced(cfg, w', p, BroadcastVoteReq(cfg, s, pre)) && StepOf(w, p, w')
  {
    hide ElectionSafety.Inv, LogMatching.Inv, Commitment.Inv;
    forall to | to in cfg.members && to != p
      ensures MayTell(cfg, w, honest, Packet(p, to, Ballot(s, pre)))
    {
      assert to in w.nodes;
    }
    w' := SaySame(cfg, w, p, s, Ballot(s, pre), |cfg.members|, honest);
  }

  lemma SimCampaign(cfg: Config, w: World, p: NodeID, s: NodeState, draw: nat, honest: bool)
    returns (w': World)
    requires Good(cfg, w, honest) && Synced(cfg, w, p, s) && w.nodes.Keys == ToSet(cfg.members)
    ensures Good(cfg, w', honest) && Synced(cfg, w', p, StartCampaign(cfg, s, draw)) && StepOf(w, p, w')
  {
    hide ElectionSafety.Inv, LogMatching.Inv, Commitment.Inv, BroadcastVoteReq;
    var w1 := CampaignAt(w, p);
    GoodCampaign(cfg, w, p, honest);
    var c := ResetTimer(cfg, s.(raft := Rafts.Campaign(s.raft, s.id),
                                stats := s.stats.(termBumps := s.stats.termBumps + 1)), draw);
    w' := SayBallots(cfg, w1, p, c, false, honest);
    StepsCompose(w, p, w1, w');
  }

  lemma SimBeginElection(cfg: Config, w: World, p: NodeID, s: NodeState, draw: nat, honest: bool)
    returns (w': World)
    requires Sound(cfg) && Good(cfg, w, honest) && Synced(cfg, w, p, s) && w.nodes.Keys == ToSet(cfg.members)
    ensures Good(cfg, w', honest) && Synced(cfg, w', p, BeginElection(cfg, s, draw)) && StepOf(w, p, w')
  {
    hide ElectionSafety.Inv, LogMatching.Inv, Commitment.Inv, BroadcastVoteReq, StartCampaign;
    if cfg.mode == CrossFault && !s.links.view.HasBidirectionalQuorum(s.id) {
      w' := w;
    } else {
      var e := s.(stats := s.stats.(electionsStarted := s.stats.electionsStarted + 1));
      if cfg.mode == Baseline {
        w' := SimCampaign(cfg, w, p, e, draw, honest);
      } else {
        var w1 := PreCampaignAt(w, p);
        GoodPreCampaign(cfg, w, p, honest);
        var c := ResetTimer(cfg, e.(raft := Rafts.PreCampaign(e.raft, e.id)), draw);
        w' := SayBallots(cfg, w1, p, c, true, honest);
        StepsCompose(w, p, w1, w');
      }
    }
  }

  lemma SimBecomeLeader(cfg: Config, w: World, p: NodeID, s: NodeState, honest: bool)
    returns (w': World)
    requires cfg.Valid() && Good(cfg, w, honest) && Synced(cfg, w, p, s) && w.nodes.Keys == ToSet(cfg.members)
    requires s.raft.role == Candidate && |s.raft.votes| >= cfg.Quorum()
    ensures Good(cfg, w', honest) && Synced(cfg, w', p, BecomeLeader(cfg, s)) && StepOf(w, p, w')
  {
    hide ElectionSafety.Inv, LogMatching.Inv, Commitment.Inv, BroadcastAppend;
    var w1 := ElectAt(cfg, w, p);
    GoodElect(cfg, w, p, honest);
    var l := ClearHeard(s.(raft := Rafts.Elected(s.raft, s.id, cfg.members),
                           clock := s.clock.(heartbeatElapsed := 0)));
    w' := SayAppends(cfg, w1, p, l, |cfg.members|, honest);
    StepsCompose(w, p, w1, w');
  }

  // ---------- Tick ----------

  lemma LeaderMayUnvote(cfg: Config, w: World, p: NodeID)
    requires cfg.mode != Baseline && ElectionSafety.Inv(cfg, w) && p in w.nodes && w.nodes[p].role == Leader
    ensures ElectionSafety.MayUnvote(cfg, w, p)
  {
  }

  lemma SimLeaderTick(cfg: Config, w: World, p: NodeID, s: NodeState, draw: nat, honest: bool)
    returns (w': World)
    requires Sound(cfg) && Good(cfg, w, honest) && Synced(cfg, w, p, s) && w.nodes.Keys == ToSet(cfg.members)
    requires s.raft.role == Leader
    ensures Good(cfg, w', honest) && Synced(cfg, w', p, LeaderTick(cfg, s, draw)) && StepOf(w, p, w')
  {
    hide ElectionSafety.Inv, LogMatching.Inv, Commitment.Inv, BroadcastAppend;
    var beat := s.clock.heartbeatElapsed + 1;
    var w1, b;
    if beat >= cfg.heartbeat {
      var z := s.(clock := s.clock.(heartbeatElapsed := 0));
      w1 := SayAppends(cfg, w, p, z, |cfg.members|, honest);
      b := BroadcastAppend(cfg, z, |cfg.members|);
    } else {
      w1 := w;
      b := s.(clock := s.clock.(heartbeatElapsed := beat));
    }
    if cfg.mode != Baseline && b.clock.electionElapsed >= b.clock.electionTimeout && !HasHeardFromQuorum(cfg, b) {
      LeaderMayUnvote(cfg, w1, p);
      w' := StepDownAt(cfg, w1, p, b.raft.term, None);
      GoodStepDown(cfg, w1, p, b.raft.term, None, honest);
      StepsCompose(w, p, w1, w');
    } else {
      w' := w1;
    }
  }

  lemma SilenceOnlyLinks(cfg: Config, s: NodeState, n: nat)
    requires n <= |cfg.members|
    ensures DetectSilence(cfg, s, n) == s.(links := DetectSilence(cfg, s, n).links)
  {
  }

  lemma SimGossip(cfg: Config, w: World, p: NodeID, s: NodeState, honest: bool)
    returns (w': World)
    requires Good(cfg, w, honest) && Synced(cfg, w, p, s) && w.nodes.Keys == ToSet(cfg.members)
    ensures Good(cfg, w', honest) && Synced(cfg, w', p, Gossip(cfg, s)) && StepOf(w, p, w')
  {
    hide ElectionSafety.Inv, LogMatching.Inv, Commitment.Inv, BroadcastSame;
    var d := DetectSilence(cfg, s, |cfg.members|);
    SilenceOnlyLinks(cfg, s, |cfg.members|);
    hide DetectSilence;
    if d.clock.probeElapsed + 1 >= cfg.probe {
      var z := d.(clock := d.clock.(probeElapsed := 0));
      var body := ProbeReq(z.raft.term, z.id, z.links.inboundUp);
      forall to | to in cfg.members && to != p
        ensures MayTell(cfg, w, honest, Packet(p, to, body))
      {
        assert to in w.nodes;
      }
      w' := SaySame(cfg, w, p, z, body, |cfg.members|, honest);
    } else {
      w' := w;
    }
  }

  lemma SimTick(cfg: Config, w: World, p: NodeID, s: NodeState, draw: nat, honest: bool)
    returns (w': World)
    requires Sound(cfg) && Good(cfg, w, honest) && Synced(cfg, w, p, s) && w.nodes.Keys == ToSet(cfg.members)
    ensures Good(cfg, w', honest) && Synced(cfg, w', p, Tick(cfg, s, draw)) && StepOf(w, p, w')
  {
    hide ElectionSafety.Inv, LogMatching.Inv, Commitment.Inv, LeaderTick, BeginElection, Gossip;
    var t := StartTick(s);
    var w1;
    if t.raft.role == Leader {
      w1 := SimLeaderTick(cfg, w, p, t, draw, honest);
    } else if t.clock.electionElapsed >= t.clock.electionTimeout {
      w1 := SimBeginElection(cfg, w, p, t, draw, honest);
    } else {
      w1 := w;
    }
    if cfg.mode == CrossFault {
      w' := SimGossip(cfg, w1, p, RoleTick(cfg, t, draw), honest);
      StepsCompose(w, p, w1, w');
    } else {
      w' := w1;
    }
  }

  // ---------- Handlers ----------

  lemma SimStepDown(cfg: Config, w: World, p: NodeID, s: NodeState, t: nat, leader: Option<NodeID>, draw: nat,
        honest: bool)
    returns (w': World)
    requires Sound(cfg) && Good(cfg, w, honest) && Synced(cfg, w, p, s)
    requires t > s.raft.term || (t == s.raft.term && ElectionSafety.MayUnvote(cfg, w, p))
    ensures Good(cfg, w', honest) && Synced(cfg, w', p, BecomeFollower(cfg, s, t, leader, draw))
    ensures StepOf(w, p, w') && w'.sent == w.sent && w'.elect == w.elect && w'.llog == w.llog
  {
    hide ElectionSafety.Inv, LogMatching.Inv, Commitment.Inv;
    w' := StepDownAt(cfg, w, p, t, leader);
    GoodStepDown(cfg, w, p, t, leader, honest);
  }

  // A request of its own term reaches nobody else who leads that term.
  lemma RequestFromLeader(cfg: Config, w: World, p: NodeID, from: NodeID, m: Payload)
    requires Sound(cfg) && ElectionSafety.Inv(cfg, w) && p in w.nodes && m.AppendReq?
    requires Packet(from, p, m) in w.sent
    ensures m.term in w.elect && w.elect[m.term].leader == from && from != p && from in w.nodes
    ensures m.term == w.nodes[p].term && w.nodes[p].role != Follower ==> ElectionSafety.MayUnvote(cfg, w, p)
  {
  }

  lemma SimAdopt(cfg: Config, w: World, p: NodeID, s: NodeState, from: NodeID, m: Payload, draw: nat, honest: bool)
    returns (w': World)
    requires Sound(cfg) && Good(cfg, w, honest) && Synced(cfg, w, p, s)
    requires m.AppendReq? && m.term >= s.raft.term && Packet(from, p, m) in w.sent
    ensures Good(cfg, w', honest) && Synced(cfg, w', p, Adopt(cfg, s, from, m.term, draw))
    ensures StepOf(w, p, w') && w'.sent == w.sent && w'.elect == w.elect && w'.llog == w.llog
    ensures var a := Adopt(cfg, s, from, m.term, draw).raft;
      a.term == m.term && a.role == Follower && a.log == s.raft.log
  {
    hide ElectionSafety.Inv, LogMatching.Inv, Commitment.Inv;
    RequestFromLeader(cfg, w, p, from, m);
    var w1, f := w, s;
    if m.term > s.raft.term || s.raft.role != Follower {
      w1 := SimStepDown(cfg, w, p, s, m.term, Some(from), draw, honest);
      f := BecomeFollower(cfg, s, m.term, Some(from), draw);
    }
    var r := f.raft.(leaderID := Some(from));
    w' := Put(w1, p, r);
    GoodBookkeeping(cfg, w1, p, r, honest);
    StepsCompose(w, p, w1, w');
  }

  // After a follower takes a request it holds the leader's log as far as that goes.
  lemma AckIsTrue(cfg: Config, w: World, p: NodeID, from: NodeID, m: Payload)
    requires LogMatching.Inv(w) && p in w.nodes && m.AppendReq?
    requires Packet(from, p, m) in w.sent
    requires Matches(w.nodes[p].log, m.prevIndex, m.prevTerm)
    ensures m.prevIndex <= |w.nodes[p].log|
    ensures var s, n := Splice(w.nodes[p].log, m.prevIndex, m.entries), m.prevIndex + |m.entries|;
      m.term in w.llog && n <= |w.llog[m.term]|
      && forall k :: 0 <= k <= n ==> LogMatching.StartsWith(s, w.llog[m.term][..k])
  {
    var log, n := w.nodes[p].log, m.prevIndex + |m.entries|;
    LogMatching.TakeFollowsLeader(w, log, m);
    var s := Splice(log, m.prevIndex, m.entries);
    var lead := w.llog[m.term];
    hide LogMatching.Inv, Splice;
    forall k | 0 <= k <= n
      ensures LogMatching.StartsWith(s, lead[..k])
    {
      assert s[..n][..k] == s[..k] && lead[..n][..k] == lead[..k];
    }
  }

  // What is recorded of its acknowledgement is true: it is trusted, and then has
  // nothing but the leader's entries, or it says no more than was vouched for.
  lemma RecordIsTrue(cfg: Config, w: World, p: NodeID, from: NodeID, m: Payload)
    requires LogMatching.Inv(w) && Commitment.Inv(cfg, w) && p in w.nodes && m.AppendReq?
    requires Packet(from, p, m) in w.sent && m.term == w.nodes[p].term
    requires Matches(w.nodes[p].log, m.prevIndex, m.prevTerm) && HonestAck(cfg, w.nodes[p].log, m)
    ensures m.prevIndex <= |w.nodes[p].log| && m.term in w.llog
    ensures var s := Splice(w.nodes[p].log, m.prevIndex, m.entries);
      var ack := AppendResp(m.term, true, AckIndex(cfg.ack, s, m.prevIndex, m.entries), 0);
      var n := Recorded(cfg, w.elect, p, ack).matchIndex;
      n <= |w.llog[m.term]| && LogMatching.StartsWith(s, w.llog[m.term][..n])
  {
    AckIsTrue(cfg, w, p, from, m);
    var k := Packet(from, p, m);
    LogMatching.SentIsServed(w, k);
    Commitment.SentIsCovered(cfg, w, k);
    Voters.TakenTrails(w, p, m);
    var s := Splice(w.nodes[p].log, m.prevIndex, m.entries);
    var lead, n := w.llog[m.term], m.prevIndex + |m.entries|;
    hide Splice;
    assert LogMatching.StartsWith(s, lead[..n]) && LogMatching.StartsWith(s, lead[..0]);
    hide LogMatching.Inv, Commitment.Inv;
  }

  lemma MatchInside(log: Log, m: Payload)
    requires m.AppendReq? && Matches(log, m.prevIndex, m.prevTerm)
    ensures m.prevIndex <= |log|
  {
  }

  lemma SimTake(cfg: Config, w: World, p: NodeID, s: NodeState, from: NodeID, m: Payload, honest: bool)
    returns (w': World)
    requires cfg.Valid() && Sound(cfg) && Good(cfg, w, honest) && Synced(cfg, w, p, s)
    requires m.AppendReq? && m.term == s.raft.term && s.raft.role == Follower && Packet(from, p, m) in w.sent
    requires Matches(s.raft.log, m.prevIndex, m.prevTerm)
    requires honest ==> HonestAck(cfg, s.raft.log, m)
    ensures var t := s.(raft := TakeEntries(s.raft, m.prevIndex, m.entries, m.leaderCommit));
      Good(cfg, w', honest) && Synced(cfg, w', p, Send(t, from,
        AppendResp(t.raft.term, true, AckIndex(cfg.ack, t.raft.log, m.prevIndex, m.entries), 0)))
    ensures StepOf(w, p, w')
  {
    hide ElectionSafety.Inv, LogMatching.Inv, Commitment.Inv;
    var r := TakeEntries(s.raft, m.prevIndex, m.entries, m.leaderCommit);
    var t := s.(raft := r);
    var w1 := TakeAt(w, p, m);
    GoodTake(cfg, w, p, m, honest);
    RequestFromLeader(cfg, w, p, from, m);
    var body := AppendResp(r.term, true, AckIndex(cfg.ack, r.log, m.prevIndex, m.entries), 0);
    var k := Packet(p, from, Recorded(cfg, w.elect, p, body));
    MatchInside(s.raft.log, m);
    if honest {
      RecordIsTrue(cfg, w, p, from, m);
    }
    assert MaySay(cfg, w1, k);
    assert honest ==> MayVouch(w1, k);
    w' := SayOne(cfg, w1, p, t, from, body, honest);
    StepsCompose(w, p, w1, w');
  }

  lemma SimAppendReq(cfg: Config, w: World, p: NodeID, s: NodeState, from: NodeID, m: Payload, draw: nat, honest: bool)
    returns (w': World)
    requires cfg.Valid() && Sound(cfg) && Good(cfg, w, honest) && Synced(cfg, w, p, s)
    requires m.AppendReq? && Packet(from, p, m) in w.sent
    requires honest && m.term >= s.raft.term && Matches(s.raft.log, m.prevIndex, m.prevTerm) ==>
      HonestAck(cfg, s.raft.log, m)
    ensures Good(cfg, w', honest) && Synced(cfg, w', p, HandleAppendReq(cfg, s, from, m, draw)) && StepOf(w, p, w')
  {
    hide ElectionSafety.Inv, LogMatching.Inv, Commitment.Inv, Adopt;
    RequestFromLeader(cfg, w, p, from, m);
    if m.term < s.raft.term {
      w' := SayOne(cfg, w, p, s, from, AppendResp(s.raft.term, false, 0, 0), honest);
    } else {
      var w1 := SimAdopt(cfg, w, p, s, from, m, draw, honest);
      var a := Adopt(cfg, s, from, m.term, draw);
      if Matches(a.raft.log, m.prevIndex, m.prevTerm) {
        w' := SimTake(cfg, w1, p, a, from, m, honest);
      } else {
        var body := AppendResp(a.raft.term, false, 0, ConflictIndex(a.raft.log, m.prevIndex));
        assert MayTell(cfg, w1, honest, Packet(p, from, body));
        w' := SayOne(cfg, w1, p, a, from, body, honest);
      }
      StepsCompose(w, p, w1, w');
    }
  }

  lemma SentFacts(cfg: Config, w: World, k: Packet)
    requires ElectionSafety.Inv(cfg, w) && k in w.sent
    ensures k.from in w.nodes && k.to in w.nodes && k.from != k.to
    ensures k.body.VoteReq? && !k.body.preVote ==>
      k.body.candidate == k.from && w.nodes[k.from].term >= k.body.term
    ensures k.body.AppendResp? && k.body.success ==> k.body.conflictIndex == 0
  {
  }

  lemma SimAppendResp(cfg: Config, w: World, p: NodeID, s: NodeState, from: NodeID, m: Payload, draw: nat, honest: bool)
    returns (w': World)
    requires cfg.Valid() && Sound(cfg) && Good(cfg, w, honest) && Synced(cfg, w, p, s)
    requires m.AppendResp? && Packet(from, p, Recorded(cfg, w.elect, from, m)) in w.sent
    ensures Good(cfg, w', honest) && Synced(cfg, w', p, HandleAppendResp(cfg, s, from, m, draw)) && StepOf(w, p, w')
  {
    hide ElectionSafety.Inv, LogMatching.Inv, Commitment.Inv;
    SentFacts(cfg, w, Packet(from, p, Recorded(cfg, w.elect, from, m)));
    if m.term > s.raft.term {
      w' := SimStepDown(cfg, w, p, s, m.term, None, draw, honest);
    } else if s.raft.role != Leader || m.term < s.raft.term {
      w' := w;
    } else if m.success {
      var r := NoteMatch(s.raft, from, m.matchIndex);
      var w1 := Put(w, p, r);
      assert Commitment.Trusted(cfg, w.elect, from, s.raft.term) ==>
        Commitment.AckSent(w.sent, from, p, s.raft.term, m.matchIndex);
      GoodNoteMatch(cfg, w, p, from, m.matchIndex, honest);
      w' := Put(w1, p, Rafts.AdvanceCommit(r, p, cfg.members));
      GoodAdvance(cfg, w1, p, honest);
      StepsCompose(w, p, w1, w');
    } else {
      var r := BackUp(s.raft, from, m.conflictIndex);
      w' := Put(w, p, r);
      GoodBookkeeping(cfg, w, p, r, honest);
    }
  }

  // Only a node that is neither candidate nor leader has a vote to give away.
  lemma GranterIsIdle(cfg: Config, w: World, p: NodeID, c: NodeID)
    requires Sound(cfg) && ElectionSafety.Inv(cfg, w) && p in w.nodes && c != p
    requires w.nodes[p].votedFor == None || w.nodes[p].votedFor == Some(c)
    ensures !Standing(w.nodes[p])
  {
  }

  lemma BallotIsCurrent(cfg: Config, w: World, c: NodeID, p: NodeID, m: Payload)
    requires Commitment.Inv(cfg, w) && m.VoteReq? && !m.preVote && Packet(c, p, m) in w.sent && c in w.nodes
    ensures w.nodes[c].term == m.term && w.nodes[c].role == Candidate ==>
      m.lastIndex == |w.nodes[c].log| && m.lastTerm == LastTerm(w.nodes[c].log)
  {
  }

  lemma SimGrant(cfg: Config, w: World, p: NodeID, s: NodeState, from: NodeID, m: Payload, draw: nat, honest: bool)
    returns (w': World)
    requires Sound(cfg) && Good(cfg, w, honest) && Synced(cfg, w, p, s)
    requires m.VoteReq? && !m.preVote && Packet(from, p, m) in w.sent && GrantsVote(s.raft, m)
    ensures var g := ResetTimer(cfg, s.(raft := s.raft.(votedFor := Some(m.candidate))), draw);
      Good(cfg, w', honest) && Synced(cfg, w', p, Send(g, from, VoteResp(g.raft.term, true, false)))
    ensures StepOf(w, p, w')
  {
    hide ElectionSafety.Inv, LogMatching.Inv, Commitment.Inv;
    SentFacts(cfg, w, Packet(from, p, m));
    GranterIsIdle(cfg, w, p, from);
    if honest {
      BallotIsCurrent(cfg, w, from, p, m);
    }
    var w1 := VoteAt(w, p, from);
    GoodVote(cfg, w, p, from, honest);
    var g := ResetTimer(cfg, s.(raft := s.raft.(votedFor := Some(m.candidate))), draw);
    var k := Packet(p, from, VoteResp(g.raft.term, true, false));
    assert MaySay(cfg, w1, k);
    assert honest ==> MayVouch(w1, k);
    w' := SayOne(cfg, w1, p, g, from, k.body, honest);
    StepsCompose(w, p, w1, w');
  }

  lemma SimVoteReq(cfg: Config, w: World, p: NodeID, s: NodeState, from: NodeID, m: Payload, draw: nat, honest: bool)
    returns (w': World)
    requires Sound(cfg) && Good(cfg, w, honest) && Synced(cfg, w, p, s)
    requires m.VoteReq? && Packet(from, p, m) in w.sent
    ensures Good(cfg, w', honest) && Synced(cfg, w', p, HandleVoteReq(cfg, s, from, m, draw)) && StepOf(w, p, w')
  {
    hide ElectionSafety.Inv, LogMatching.Inv, Commitment.Inv, GrantsPreVote;
    SentFacts(cfg, w, Packet(from, p, m));
    if m.preVote {
      w' := SayOne(cfg, w, p, s, from, VoteResp(s.raft.term, GrantsPreVote(s, m), true), honest);
    } else {
      var w1, f := w, s;
      if m.term > s.raft.term {
        w1 := SimStepDown(cfg, w, p, s, m.term, None, draw, honest);
        f := BecomeFollower(cfg, s, m.term, None, draw);
      }
      if GrantsVote(f.raft, m) {
        w' := SimGrant(cfg, w1, p, f, from, m, draw, honest);
      } else {
        w' := SayOne(cfg, w1, p, f, from, VoteResp(f.raft.term, false, false), honest);
      }
      StepsCompose(w, p, w1, w');
    }
  }

  lemma SimVoteResp(cfg: Config, w: World, p: NodeID, s: NodeState, from: NodeID, m: Payload, draw: nat, honest: bool)
    returns (w': World)
    requires cfg.Valid() && Sound(cfg) && Good(cfg, w, honest) && Synced(cfg, w, p, s)
    requires w.nodes.Keys == ToSet(cfg.members)
    requires m.VoteResp? && Packet(from, p, m) in w.sent
    ensures Good(cfg, w', honest) && Synced(cfg, w', p, HandleVoteResp(cfg, s, from, m, draw)) && StepOf(w, p, w')
  {
    hide ElectionSafety.Inv, LogMatching.Inv, Commitment.Inv, StartCampaign, BecomeLeader;
    SentFacts(cfg, w, Packet(from, p, m));
    if m.preVote {
      if s.raft.role != PreCandidate || !m.granted {
        w' := w;
      } else {
        var r := s.raft.(preVotes := s.raft.preVotes + {from});
        var w1 := Put(w, p, r);
        GoodBookkeeping(cfg, w, p, r, honest);
        if |r.preVotes| >= cfg.Quorum() {
          w' := SimCampaign(cfg, w1, p, s.(raft := r), draw, honest);
          StepsCompose(w, p, w1, w');
        } else {
          w' := w1;
        }
      }
    } else if m.term > s.raft.term {
      w' := SimStepDown(cfg, w, p, s, m.term, None, draw, honest);
    } else if s.raft.role != Candidate || m.term != s.raft.term || !m.granted {
      w' := w;
    } else {
      var w1 := TallyAt(w, p, from);
      assert Granted(w.sent, from, p, s.raft.term);
      GoodTally(cfg, w, p, from, honest);
      var v := s.(raft := s.raft.(votes := s.raft.votes + {from}));
      if |v.raft.votes| >= cfg.Quorum() {
        w' := SimBecomeLeader(cfg, w1, p, v, honest);
        StepsCompose(w, p, w1, w');
      } else {
        w' := w1;
      }
    }
  }

  lemma SimProbe(cfg: Config, w: World, p: NodeID, s: NodeState, from: NodeID, m: Payload, honest: bool)
    returns (w': World)
    requires Good(cfg, w, honest) && Synced(cfg, w, p, s)
    requires m.ProbeReq? && Packet(from, p, m) in w.sent
    ensures Good(cfg, w', honest) && Synced(cfg, w', p, HandleProbeReq(cfg, s, from, m)) && StepOf(w, p, w')
  {
    hide ElectionSafety.Inv, LogMatching.Inv, Commitment.Inv, Merge;
    SentFacts(cfg, w, Packet(from, p, m));
    MergeOnlyLinks(cfg, s, from, m.inboundUp);
    var g := Merge(cfg, s, from, m.inboundUp);
    w' := SayOne(cfg, w, p, g, from, ProbeResp(g.raft.term, g.id, g.links.inboundUp), honest);
  }

  lemma MergeOnlyLinks(cfg: Config, s: NodeState, peer: NodeID, up: set<NodeID>)
    ensures Merge(cfg, s, peer, up) == s.(links := Merge(cfg, s, peer, up).links)
  {
  }

  // ---------- Deliver ----------

  lemma SimDispatch(cfg: Config, w: World, p: NodeID, s: NodeState, env: Envelope, draw: nat, honest: bool)
    returns (w': World)
    requires cfg.Valid() && Sound(cfg) && Good(cfg, w, honest) && Synced(cfg, w, p, s)
    requires w.nodes.Keys == ToSet(cfg.members) && OnRecord(cfg, w, env) && env.to == p
    requires env.payload.AppendReq? ==>
      var m := env.payload;
      honest && m.term >= s.raft.term && Matches(s.raft.log, m.prevIndex, m.prevTerm) ==> HonestAck(cfg, s.raft.log, m)
    ensures Good(cfg, w', honest) && StepOf(w, p, w')
    ensures Synced(cfg, w', p, Dispatch(cfg, s, env.from, env.kind, env.payload, draw))
  {
    hide ElectionSafety.Inv, LogMatching.Inv, Commitment.Inv;
    hide HandleAppendReq, HandleAppendResp, HandleVoteReq, HandleVoteResp, HandleProbeReq, Merge;
    var from, m := env.from, env.payload;
    match m
    case AppendReq(_, _, _, _, _, _) => w' := SimAppendReq(cfg, w, p, s, from, m, draw, honest);
    case AppendResp(_, _, _, _) => w' := SimAppendResp(cfg, w, p, s, from, m, draw, honest);
    case VoteReq(_, _, _, _, _) => w' := SimVoteReq(cfg, w, p, s, from, m, draw, honest);
    case VoteResp(_, _, _) => w' := SimVoteResp(cfg, w, p, s, from, m, draw, honest);
    case ProbeReq(_, _, _) => w' := SimProbe(cfg, w, p, s, from, m, honest);
    case ProbeResp(_, _, _) =>
      MergeOnlyLinks(cfg, s, from, m.inboundUp);
      w' := w;
    case Garbled(_) => w' := w;
  }

  lemma SimDeliver(cfg: Config, w: World, p: NodeID, s: NodeState, env: Envelope, draw: nat, honest: bool)
    returns (w': World)
    requires cfg.Valid() && Sound(cfg) && Good(cfg, w, honest) && Synced(cfg, w, p, s)
    requires w.nodes.Keys == ToSet(cfg.members) && env.to == p
    requires Accepts(cfg, s, env) ==> OnRecord(cfg, w, env)
    requires honest && TakesRequest(cfg, s, env) ==> HonestAck(cfg, s.raft.log, env.payload)
    ensures Good(cfg, w', honest) && StepOf(w, p, w') && Synced(cfg, w', p, Deliver(cfg, s, env, draw))
  {
    hide ElectionSafety.Inv, LogMatching.Inv, Commitment.Inv, Dispatch, Judge, Received;
    if Accepts(cfg, s, env) {
      var h := Heard(s.(wire := s.wire.(outbox := [])), env, cfg.ring);
      assert h.wire.recvTr.Keys == s.wire.recvTr.Keys;
      w' := SimDispatch(cfg, w, p, h, env, draw, honest);
    } else {
      w' := w;
    }
  }
}
