/** The replica as the source has it: one object whose methods update its fields in
    place (internal/consensus/node.go, handlers.go). Every method is proved to take
    the state exactly where the function of the same name in module Nodes says. */
module Replicas {
  import opened Types
  import opened Crypt
  import opened Transcripts
  import opened Logs
  import opened Rafts
  import opened NetMatrix
  import opened Nodes

  // The values of a table of transcripts.
  ghost function Chains(m: map<NodeID, Transcript>): map<NodeID, Chain>
    reads m.Values
  {
    map p | p in m :: m[p].Value()
  }

  ghost predicate Distinct(m: map<NodeID, Transcript>) {
    forall p, q :: p in m && q in m && p != q ==> m[p] != m[q]
  }

  lemma NoTranscripts()
    ensures Distinct(map[])
  {
  }

  lemma AddTranscript(m: map<NodeID, Transcript>, p: NodeID, tr: Transcript)
    requires Distinct(m) && p !in m && tr !in m.Values
    ensures Distinct(m[p := tr]) && m[p := tr].Values == m.Values + {tr}
  {
    assert forall q :: q in m ==> m[q] in m.Values;
    assert m[p := tr][p] == tr;
    forall x | x in m.Values
      ensures x in m[p := tr].Values
    {
      var q :| q in m && m[q] == x;
      assert m[p := tr][q] == x;
    }
  }

  lemma ChainKeys(m: map<NodeID, Transcript>)
    ensures Chains(m).Keys == m.Keys
  {
  }

  lemma ChainOf(m: map<NodeID, Transcript>, p: NodeID)
    requires p in m
    ensures p in Chains(m) && Chains(m)[p] == m[p].Value()
  {
  }

  lemma RejectedKeepsChain(chains: map<NodeID, Chain>, env: Envelope, ring: Keyring)
    requires env.from in chains && Judge(chains[env.from], env, ring) != Accepted
    ensures chains[env.from := Received(chains[env.from], env, ring)] == chains
  {
  }

  lemma NewChains(cfg: Config, id: NodeID, key: Key, draw: nat)
    ensures var w := NewNode(cfg, id, key, draw).wire;
      w.sendTr == w.recvTr == map m | m in cfg.members && m != id :: FRESH_CHAIN
  {
  }

  lemma LogLength(log: LogStore)
    ensures |log.Value()| == |log.entries|
  {
  }

  // Entries as they come off the wire: what they claim about their position and
  // hashes is not looked at.
  function Claimed(entries: seq<Entry>): (rs: seq<Record>)
    ensures Contents(rs) == entries
  {
    seq(|entries|, i requires 0 <= i < |entries| => Record(entries[i].term, 0, entries[i].cmd, ZeroHash, ZeroHash))
  }

  lemma AllFresh(m: map<NodeID, Transcript>, members: seq<NodeID>, id: NodeID)
    requires forall p :: p in m <==> p in members && p != id
    requires forall p :: p in m ==> m[p].Value() == FRESH_CHAIN
    ensures Chains(m) == map p | p in members && p != id :: FRESH_CHAIN
  {
  }

  // A transcript in each direction for every other member.
  method FreshTranscripts(members: seq<NodeID>, id: NodeID)
    returns (s: map<NodeID, Transcript>, r: map<NodeID, Transcript>)
    ensures forall m :: m in s <==> m in members && m != id
    ensures forall m :: m in r <==> m in members && m != id
    ensures Distinct(s) && Distinct(r) && s.Values !! r.Values && fresh(s.Values) && fresh(r.Values)
    ensures Chains(s) == Chains(r) == map m | m in members && m != id :: FRESH_CHAIN
  {
    hide Distinct, Chains;
    s, r := map[], map[];
    NoTranscripts();
    for i := 0 to |members|
      invariant forall m :: m in s <==> m in members[..i] && m != id
      invariant forall m :: m in r <==> m in members[..i] && m != id
      invariant Distinct(s) && Distinct(r) && s.Values !! r.Values
      invariant fresh(s.Values) && fresh(r.Values)
      invariant forall m :: m in s ==> s[m].Value() == FRESH_CHAIN
      invariant forall m :: m in r ==> r[m].Value() == FRESH_CHAIN
    {
      var m := members[i];
      assert members[..i + 1] == members[..i] + [m];
      if m != id && m !in s {
        var a := new Transcript(m);
        var b := new Transcript(m);
        AddTranscript(s, m, a);
        AddTranscript(r, m, b);
        s, r := s[m := a], r[m := b];
      }
    }
    assert members[..|members|] == members;
    AllFresh(s, members, id);
    AllFresh(r, members, id);
  }

  class Replica {
    const cfg: Config
    const id: NodeID
    const key: Key
    const log: LogStore
    const view: View
    const sendTr: map<NodeID, Transcript>
    const recvTr: map<NodeID, Transcript>

    var role: Role
    var currentTerm: nat
    var votedFor: Option<NodeID>
    var leaderID: Option<NodeID>
    var commitIndex: nat
    var nextIndex: map<NodeID, nat>
    var matchIndex: map<NodeID, nat>
    var votes: set<NodeID>
    var preVotes: set<NodeID>

    var tick: nat
    var electionElapsed: nat
    var electionTimeout: nat
    var heartbeatElapsed: nat
    var probeElapsed: nat

    var heardFrom: set<NodeID>
    var inboundUp: set<NodeID>
    var lastHeard: map<NodeID, nat>

    var outbox: seq<Envelope>

    var termBumps: nat
    var electionsStarted: nat
    var declinedToRun: nat
    var droppedBadSig: nat
    var droppedReplay: nat
    var droppedChain: nat

    // ---------- The abstract value ----------

    // The objects this replica is made of.
    ghost function Footprint(): set<object> {
      {this, log, view} + sendTr.Values + recvTr.Values
    }

    ghost function RaftState(): Raft
      reads this, log
    {
      Raft(role, currentTerm, votedFor, leaderID, commitIndex, log.Value(), nextIndex, matchIndex, votes, preVotes)
    }

    ghost function WireState(): Wire
      reads this, sendTr.Values, recvTr.Values
    {
      Wire(Chains(sendTr), Chains(recvTr), outbox)
    }

    ghost function State(): NodeState
      reads Footprint()
    {
      NodeState(id, key, RaftState(),
                Clock(tick, electionElapsed, electionTimeout, heartbeatElapsed, probeElapsed),
                Links(heardFrom, inboundUp, lastHeard, view.Value()),
                WireState(),
                Stats(termBumps, electionsStarted, declinedToRun, droppedBadSig, droppedReplay, droppedChain))
    }

    // No two tables or peers share a transcript.
    ghost predicate Valid()
      reads Footprint()
    {
      && cfg.Valid() && cfg.AsCoded() && log.Valid()
      && view.owner == id && view.members == cfg.members
      && Distinct(sendTr) && Distinct(recvTr) && sendTr.Values !! recvTr.Values
    }

    constructor (cfg: Config, id: NodeID, key: Key, draw: nat)
      requires cfg.Valid() && cfg.AsCoded()
      ensures Valid() && State() == NewNode(cfg, id, key, draw)
      ensures this.cfg == cfg && this.id == id
      ensures fresh(Footprint() - {this})
    {
      hide Chains, Distinct, FullMatrix, Config.Valid, LogStore.Value, View.Value, Contents;
      var s, r := FreshTranscripts(cfg.members, id);
      var l := new LogStore();
      var v := new View(id, cfg.members);
      NewChains(cfg, id, key, draw);
      this.cfg, this.id, this.key, log, view, sendTr, recvTr := cfg, id, key, l, v, s, r;
      role, currentTerm, votedFor, leaderID, commitIndex := Follower, 0, None, None, 0;
      nextIndex, matchIndex, votes, preVotes := map[], map[], {}, {};
      tick, heartbeatElapsed, probeElapsed := 0, 0, 0;
      electionElapsed, electionTimeout := 0, cfg.timeout + draw;
      heardFrom, inboundUp, lastHeard := {}, set m | m in cfg.members && m != id, map[];
      outbox := [];
      termBumps, electionsStarted, declinedToRun := 0, 0, 0;
      droppedBadSig, droppedReplay, droppedChain := 0, 0, 0;
    }

    // ---------- Shared moves ----------

    method ResetElectionTimer(draw: nat)
      requires Valid()
      modifies this
      ensures Valid() && State() == ResetTimer(cfg, old(State()), draw)
    {
      hide Chains, Distinct, Contents, LogStore.Value, View.Value;
      electionElapsed := 0;
      electionTimeout := cfg.timeout + draw;
    }

    method Send(to: NodeID, p: Payload)
      requires Valid()
      modifies this, sendTr.Values
      ensures Valid() && State() == Nodes.Send(old(State()), to, p)
    {
      hide Chains, Distinct, Contents, LogStore.Value, View.Value, Stamp, Stamped;
      ChainKeys(sendTr);
      if to !in sendTr {
        return;
      }
      var env := Envelope(id, to, KindOf(p), currentTerm, 0, Genesis, p, Noise([]));
      var sealed := Seal(to, env);
      outbox := outbox + [sealed];
    }

    // Run the envelope through the peer's transcript.
    method Seal(to: NodeID, env: Envelope) returns (sealed: Envelope)
      requires Valid() && to in sendTr
      modifies sendTr.Values
      ensures Valid() && to in old(Chains(sendTr))
      ensures var chains := old(Chains(sendTr));
        var after := chains[to := Stamped(chains[to], env, id, key)];
        && sealed == Stamp(chains[to], env, id, key)
        && State() == old(State()).(wire := old(WireState()).(sendTr := after))
    {
      hide Contents, LogStore.Value, View.Value, Stamp, Stamped;
      ghost var before, heard := Chains(sendTr), Chains(recvTr);
      var tr := sendTr[to];
      sealed := tr.Next(env, id, key);
      assert Chains(sendTr) == before[to := tr.Value()];
      assert Chains(recvTr) == heard;
    }

    method BecomeFollower(term: nat, leader: Option<NodeID>, draw: nat)
      requires Valid()
      modifies this
      ensures Valid() && State() == Nodes.BecomeFollower(cfg, old(State()), term, leader, draw)
    {
      hide Chains, Distinct, Contents, LogStore.Value, View.Value;
      ghost var t, r, v, l := Chains(sendTr), Chains(recvTr), view.Value(), log.Value();
      role := Follower;
      currentTerm := term;
      votedFor := None;
      leaderID := leader;
      ResetElectionTimer(draw);
      assert Chains(sendTr) == t && Chains(recvTr) == r && view.Value() == v && log.Value() == l;
    }

    method ClearHeard()
      requires Valid()
      modifies this
      ensures Valid() && State() == Nodes.ClearHeard(old(State()))
    {
      heardFrom := {};
    }

    // ---------- Broadcasts ----------

    method BroadcastAppend()
      requires Valid()
      modifies this, sendTr.Values
      ensures Valid() && State() == Nodes.BroadcastAppend(cfg, old(State()), |cfg.members|)
    {
      hide Chains, Distinct, Contents, LogStore.Value, View.Value, Nodes.SendAppend;
      ghost var s := State();
      for i := 0 to |cfg.members|
        invariant Valid() && State() == Nodes.BroadcastAppend(cfg, s, i)
      {
        if cfg.members[i] != id {
          SendAppend(cfg.members[i]);
        }
      }
    }

    // One turn of the broadcast.
    method SendAppend(m: NodeID)
      requires Valid()
      modifies this, sendTr.Values
      ensures Valid() && State() == Nodes.SendAppend(old(State()), m)
    {
      hide Chains, Distinct, View.Value, Nodes.Send, NextFor, RememberNext;
      var next := NextIndexFor(m);
      var prevIndex := next - 1;
      var prevTerm := match TermAt(log.Value(), prevIndex) case Some(t) => t case None => 0;
      var rs := log.SliceFrom(next);
      Send(m, AppendReq(currentTerm, id, prevIndex, prevTerm, Contents(rs), commitIndex));
    }

    // An unset next index defaults to just past the log.
    method NextIndexFor(m: NodeID) returns (next: nat)
      requires Valid()
      modifies this`nextIndex
      ensures Valid() && next == NextFor(old(RaftState()), m)
      ensures State() == old(State()).(raft := RememberNext(old(RaftState()), m))
    {
      hide Chains, Distinct, Contents, View.Value;
      next := Get(nextIndex, m);
      if next == 0 {
        next := |log.entries| + 1;
        nextIndex := nextIndex[m := next];
      }
    }

    method BroadcastVoteReq(pre: bool)
      requires Valid()
      modifies this, sendTr.Values
      ensures Valid() && State() == Nodes.BroadcastVoteReq(cfg, old(State()), pre)
    {
      ghost var s := State();
      var p := VoteReq(if pre then currentTerm + 1 else currentTerm, id, |log.entries|, LastTerm(log.Value()), pre);
      SendToOthers(p);
    }

    method SendToOthers(p: Payload)
      requires Valid()
      modifies this, sendTr.Values
      ensures Valid() && State() == BroadcastSame(cfg, old(State()), p, |cfg.members|)
    {
      ghost var s := State();
      for i := 0 to |cfg.members|
        invariant Valid() && State() == BroadcastSame(cfg, s, p, i)
      {
        if cfg.members[i] != id {
          Send(cfg.members[i], p);
        }
      }
    }

    method BroadcastProbe()
      requires Valid()
      modifies this, sendTr.Values
      ensures Valid() && State() == Nodes.BroadcastProbe(cfg, old(State()))
    {
      SendToOthers(ProbeReq(currentTerm, id, inboundUp));
    }

    // ---------- Elections ----------

    method PromoteToCandidate(draw: nat)
      requires Valid()
      modifies this, sendTr.Values
      ensures Valid() && State() == StartCampaign(cfg, old(State()), draw)
    {
      hide Chains, Distinct, Contents, LogStore.Value, View.Value, BroadcastSame;
      ghost var s, t, r, v, l := State(), Chains(sendTr), Chains(recvTr), view.Value(), log.Value();
      currentTerm := currentTerm + 1;
      termBumps := termBumps + 1;
      role := Candidate;
      votedFor := Some(id);
      votes := {id};
      ResetElectionTimer(draw);
      assert State() == ResetTimer(cfg, s.(raft := Campaign(s.raft, id),
                                           stats := s.stats.(termBumps := s.stats.termBumps + 1)), draw) by {
        assert Chains(sendTr) == t && Chains(recvTr) == r && view.Value() == v && log.Value() == l;
      }
      hide Replica.State;
      BroadcastVoteReq(false);
    }

    // The straw poll for the next term.
    method StartPoll(draw: nat)
      requires Valid()
      modifies this, sendTr.Values
      ensures Valid()
      ensures var s := old(State());
        State() == Nodes.BroadcastVoteReq(cfg, ResetTimer(cfg, s.(raft := PreCampaign(s.raft, id)), draw), true)
    {
      hide Chains, Distinct, Contents, LogStore.Value, View.Value, BroadcastSame;
      ghost var s, t, r, v, l := State(), Chains(sendTr), Chains(recvTr), view.Value(), log.Value();
      role := PreCandidate;
      preVotes := {id};
      ResetElectionTimer(draw);
      assert State() == ResetTimer(cfg, s.(raft := PreCampaign(s.raft, id)), draw) by {
        assert Chains(sendTr) == t && Chains(recvTr) == r && view.Value() == v && log.Value() == l;
      }
      hide Replica.State;
      BroadcastVoteReq(true);
    }

    method BeginElection(draw: nat)
      requires Valid()
      modifies this, sendTr.Values
      ensures Valid() && State() == Nodes.BeginElection(cfg, old(State()), draw)
    {
      hide Chains, Distinct, Contents, LogStore.Value, View.Value, BroadcastSame, StartCampaign;
      ghost var s, t, r, v, l := State(), Chains(sendTr), Chains(recvTr), view.Value(), log.Value();
      if cfg.mode == CrossFault {
        var able := view.HasBidirectionalQuorum(id);
        if !able {
          declinedToRun := declinedToRun + 1;
          ResetElectionTimer(draw);
          assert Chains(sendTr) == t && Chains(recvTr) == r && view.Value() == v && log.Value() == l;
          return;
        }
      }
      electionsStarted := electionsStarted + 1;
      assert State() == s.(stats := s.stats.(electionsStarted := s.stats.electionsStarted + 1)) by {
        assert Chains(sendTr) == t && Chains(recvTr) == r && view.Value() == v && log.Value() == l;
      }
      hide Replica.State;
      if cfg.mode == Baseline {
        PromoteToCandidate(draw);
      } else {
        StartPoll(draw);
      }
    }

    method BecomeLeader()
      requires Valid()
      modifies this, sendTr.Values
      ensures Valid() && State() == Nodes.BecomeLeader(cfg, old(State()))
    {
      hide Chains, Distinct, Contents, LogStore.Value, View.Value, Nodes.BroadcastAppend, Rafts.Elected;
      TakeOffice();
      heartbeatElapsed := 0;
      ClearHeard();
      BroadcastAppend();
    }

    // Assume the role, with every follower believed to be just behind.
    method TakeOffice()
      requires Valid()
      modifies this
      ensures Valid() && State() == old(State()).(raft := Rafts.Elected(old(RaftState()), id, cfg.members))
    {
      hide Chains, Distinct, Contents, LogStore.Value, View.Value, SetForOthers;
      ghost var s, t, r, v, l := State(), Chains(sendTr), Chains(recvTr), view.Value(), log.Value();
      LogLength(log);
      role := Leader;
      leaderID := Some(id);
      ResetIndexes(|log.entries|);
      assert Chains(sendTr) == t && Chains(recvTr) == r && view.Value() == v && log.Value() == l;
    }

    method ResetIndexes(last: nat)
      modifies this`nextIndex, this`matchIndex
      ensures nextIndex == SetForOthers(old(nextIndex), cfg.members, id, last + 1)
      ensures matchIndex == SetForOthers(old(matchIndex), cfg.members, id, 0)
    {
      for i := 0 to |cfg.members|
        invariant nextIndex == SetForOthers(old(nextIndex), cfg.members[..i], id, last + 1)
        invariant matchIndex == SetForOthers(old(matchIndex), cfg.members[..i], id, 0)
      {
        var m := cfg.members[i];
        assert cfg.members[..i + 1][..i] == cfg.members[..i];
        if m != id {
          nextIndex := nextIndex[m := last + 1];
          matchIndex := matchIndex[m := 0];
        }
      }
      assert cfg.members[..|cfg.members|] == cfg.members;
    }

    // ---------- Tick ----------

    method DetectSilence()
      requires Valid()
      modifies this, view
      ensures Valid() && State() == Nodes.DetectSilence(cfg, old(State()), |cfg.members|)
    {
      hide Chains, Distinct, Contents, LogStore.Value;
      ghost var s := State();
      for i := 0 to |cfg.members|
        invariant Valid() && State() == Nodes.DetectSilence(cfg, s, i)
        invariant tick == s.clock.tick && lastHeard == s.links.lastHeard
      {
        var m := cfg.members[i];
        if m == id {
          continue;
        }
        var quiet := if m in lastHeard then tick - lastHeard[m] > cfg.timeout else tick > cfg.timeout;
        if quiet {
          inboundUp := inboundUp - {m};
          view.ObserveSilence(m);
        }
      }
    }

    method Tick(draw: nat) returns (out: seq<Envelope>)
      requires Valid()
      modifies Footprint()
      ensures Valid() && State() == Nodes.Tick(cfg, old(State()), draw)
      ensures out == State().wire.outbox
    {
      hide Chains, Distinct, Contents, LogStore.Value, View.Value, Nodes.LeaderTick, Nodes.BeginElection, Nodes.Gossip;
      ghost var s, t, r, v, l := State(), Chains(sendTr), Chains(recvTr), view.Value(), log.Value();
      tick := tick + 1;
      outbox := [];
      electionElapsed := electionElapsed + 1;
      assert State() == StartTick(s) by {
        assert Chains(sendTr) == t && Chains(recvTr) == r && view.Value() == v && log.Value() == l;
      }
      if role == Leader {
        LeaderTick(draw);
      } else if electionElapsed >= electionTimeout {
        BeginElection(draw);
      }
      if cfg.mode == CrossFault {
        GossipTick();
      }
      out := outbox;
    }

    // The leader's branch: heartbeat, then CheckQuorum.
    method LeaderTick(draw: nat)
      requires Valid()
      modifies this, sendTr.Values
      ensures Valid() && State() == Nodes.LeaderTick(cfg, old(State()), draw)
    {
      hide Chains, Distinct, Contents, LogStore.Value, View.Value, Nodes.BroadcastAppend, Nodes.BecomeFollower;
      heartbeatElapsed := heartbeatElapsed + 1;
      if heartbeatElapsed >= cfg.heartbeat {
        heartbeatElapsed := 0;
        BroadcastAppend();
      }
      CheckQuorum(draw);
    }

    method CheckQuorum(draw: nat)
      requires Valid()
      modifies this
      ensures Valid()
      ensures var b := old(State());
        State() ==
          if cfg.mode != Baseline && b.clock.electionElapsed >= b.clock.electionTimeout then
            var q := b.(clock := b.clock.(electionElapsed := 0));
            Nodes.ClearHeard(if Nodes.HasHeardFromQuorum(cfg, q) then q
                             else Nodes.BecomeFollower(cfg, q, q.raft.term, None, draw))
          else b
    {
      hide Chains, Distinct, Contents, LogStore.Value, View.Value, Nodes.BecomeFollower;
      if cfg.mode != Baseline && electionElapsed >= electionTimeout {
        electionElapsed := 0;
        var heard := HasHeardFromQuorum();
        if !heard {
          BecomeFollower(currentTerm, None, draw);
        }
        ClearHeard();
      }
    }

    method HasHeardFromQuorum() returns (ok: bool)
      requires Valid()
      ensures ok <==> Nodes.HasHeardFromQuorum(cfg, State())
    {
      ok := 1 + |heardFrom| >= cfg.Quorum();
    }

    // The crossfault branch: look for silence, then probe.
    method GossipTick()
      requires Valid()
      modifies this, view, sendTr.Values
      ensures Valid() && State() == Nodes.Gossip(cfg, old(State()))
    {
      hide Chains, Distinct, Contents, LogStore.Value, View.Value, Nodes.DetectSilence, BroadcastSame;
      DetectSilence();
      probeElapsed := probeElapsed + 1;
      if probeElapsed >= cfg.probe {
        probeElapsed := 0;
        BroadcastProbe();
      }
    }

    // ---------- Handlers ----------

    method HandleAppendReq(from: NodeID, m: Payload, draw: nat)
      requires Valid() && m.AppendReq?
      modifies this, log, sendTr.Values
      ensures Valid() && State() == Nodes.HandleAppendReq(cfg, old(State()), from, m, draw)
    {
      hide Chains, Distinct, Contents, LogStore.Value, View.Value, Nodes.Send, Splice, Adopt;
      if m.term < currentTerm {
        Send(from, AppendResp(currentTerm, false, 0, 0));
        return;
      }
      AdoptLeader(from, m.term, draw);
      if !Matches(log.Value(), m.prevIndex, m.prevTerm) {
        LogLength(log);
        var conflict := |log.entries| + 1;
        if m.prevIndex < conflict {
          conflict := m.prevIndex;
        }
        Send(from, AppendResp(currentTerm, false, 0, conflict));
        return;
      }
      TakeEntries(m.prevIndex, m.entries, m.leaderCommit);
      LogLength(log);
      Send(from, AppendResp(currentTerm, true, |log.entries|, 0));
    }

    // A leader of at least this term: stand down and wait for it.
    method AdoptLeader(from: NodeID, term: nat, draw: nat)
      requires Valid()
      modifies this
      ensures Valid() && State() == Adopt(cfg, old(State()), from, term, draw)
    {
      hide Chains, Distinct, Contents, LogStore.Value, View.Value, Nodes.BecomeFollower;
      if term > currentTerm || role != Follower {
        BecomeFollower(term, Some(from), draw);
      }
      leaderID := Some(from);
      ResetElectionTimer(draw);
    }

    // Splice what the leader sent and follow its commit index.
    method TakeEntries(prevIndex: nat, entries: seq<Entry>, leaderCommit: nat)
      requires Valid() && prevIndex <= |log.Value()|
      modifies this`commitIndex, log
      ensures Valid()
      ensures State() == old(State()).(raft := Rafts.TakeEntries(old(RaftState()), prevIndex, entries, leaderCommit))
    {
      hide Chains, Distinct, View.Value, Splice, Cuts;
      var _ := log.AppendFromLeader(prevIndex, Claimed(entries));
      if leaderCommit > commitIndex {
        commitIndex := Min(leaderCommit, |log.entries|);
      }
    }

    method AdvanceCommit()
      requires Valid()
      modifies this
      ensures Valid()
      ensures State() == old(State()).(raft := Rafts.AdvanceCommit(old(State()).raft, id, cfg.members))
    {
      hide Chains, Distinct, View.Value, SortDesc;
      ghost var r := RaftState();
      var matches := [|log.entries|];
      for i := 0 to |cfg.members|
        invariant matches == MatchList(r, id, cfg.members, i)
      {
        if cfg.members[i] != id {
          matches := matches + [Get(matchIndex, cfg.members[i])];
        }
      }
      var candidate := SortDesc(matches)[|cfg.members| / 2];
      if candidate <= commitIndex {
        return;
      }
      if TermAt(log.Value(), candidate) != Some(currentTerm) {
        return;
      }
      commitIndex := candidate;
    }

    method HandleAppendResp(from: NodeID, m: Payload, draw: nat)
      requires Valid() && m.AppendResp?
      modifies this
      ensures Valid() && State() == Nodes.HandleAppendResp(cfg, old(State()), from, m, draw)
    {
      hide Chains, Distinct, Contents, LogStore.Value, View.Value, CommitCandidate;
      if m.term > currentTerm {
        BecomeFollower(m.term, None, draw);
        return;
      }
      if role != Leader || m.term < currentTerm {
        return;
      }
      if m.success {
        matchIndex := matchIndex[from := m.matchIndex];
        nextIndex := nextIndex[from := m.matchIndex + 1];
        AdvanceCommit();
        return;
      }
      var next := m.conflictIndex;
      if next == 0 {
        next := 1;
      }
      nextIndex := nextIndex[from := next];
    }

    method HandleVoteReq(from: NodeID, m: Payload, draw: nat)
      requires Valid() && m.VoteReq?
      modifies this, sendTr.Values
      ensures Valid() && State() == Nodes.HandleVoteReq(cfg, old(State()), from, m, draw)
    {
      hide Chains, Distinct, Contents, View.Value, Nodes.Send, LastTerm, Nodes.BecomeFollower;
      var upToDate := UpToDate(log.Value(), m.lastTerm, m.lastIndex);
      if m.preVote {
        var live := leaderID != None && electionElapsed < electionTimeout;
        Send(from, VoteResp(currentTerm, m.term > currentTerm && upToDate && !live, true));
        return;
      }
      if m.term > currentTerm {
        BecomeFollower(m.term, None, draw);
      }
      var granted := m.term == currentTerm && (votedFor == None || votedFor == Some(m.candidate)) && upToDate;
      if granted {
        CastVote(m.candidate, draw);
      }
      hide Replica.State;
      Send(from, VoteResp(currentTerm, granted, false));
    }

    method CastVote(candidate: NodeID, draw: nat)
      requires Valid()
      modifies this
      ensures Valid()
      ensures var s := old(State());
        State() == ResetTimer(cfg, s.(raft := s.raft.(votedFor := Some(candidate))), draw)
    {
      hide Chains, Distinct, Contents, LogStore.Value, View.Value;
      votedFor := Some(candidate);
      ResetElectionTimer(draw);
    }

    method HandleVoteResp(from: NodeID, m: Payload, draw: nat)
      requires Valid() && m.VoteResp?
      modifies this, sendTr.Values
      ensures Valid() && State() == Nodes.HandleVoteResp(cfg, old(State()), from, m, draw)
    {
      hide Chains, Distinct, Contents, LogStore.Value, View.Value, StartCampaign, Nodes.BecomeLeader;
      if m.preVote {
        if role != PreCandidate || !m.granted {
          return;
        }
        preVotes := preVotes + {from};
        if |preVotes| >= cfg.Quorum() {
          PromoteToCandidate(draw);
        }
        return;
      }
      if m.term > currentTerm {
        BecomeFollower(m.term, None, draw);
        return;
      }
      if role != Candidate || m.term != currentTerm || !m.granted {
        return;
      }
      votes := votes + {from};
      if |votes| >= cfg.Quorum() {
        BecomeLeader();
      }
    }

    method MergeInbound(peer: NodeID, up: set<NodeID>)
      requires Valid()
      modifies view
      ensures Valid() && State() == Merge(cfg, old(State()), peer, up)
    {
      ghost var v := view.Value();
      for i := 0 to |cfg.members|
        invariant Valid() && view.Value() == Nodes.MergeInbound(cfg.members, v, peer, up, i)
      {
        var m := cfg.members[i];
        if m != peer {
          view.SetEdge(m, peer, m in up);
        }
      }
    }

    method HandleProbeReq(from: NodeID, m: Payload)
      requires Valid() && m.ProbeReq?
      modifies this, view, sendTr.Values
      ensures Valid() && State() == Nodes.HandleProbeReq(cfg, old(State()), from, m)
    {
      MergeInbound(from, m.inboundUp);
      Send(from, ProbeResp(currentTerm, id, inboundUp));
    }

    // ---------- Deliver and Propose ----------

    method Deliver(env: Envelope, draw: nat) returns (out: seq<Envelope>)
      requires Valid()
      modifies Footprint()
      ensures Valid() && State() == Nodes.Deliver(cfg, old(State()), env, draw)
      ensures out == State().wire.outbox
    {
      hide Chains, Distinct, Contents, LogStore.Value, View.Value, Nodes.Dispatch, Received, Judge;
      ghost var s, t, r, v, l := State(), Chains(sendTr), Chains(recvTr), view.Value(), log.Value();
      outbox := [];
      ChainKeys(recvTr);
      ghost var d := s.(wire := s.wire.(outbox := []));
      assert State() == d by {
        assert Chains(sendTr) == t && Chains(recvTr) == r && view.Value() == v && log.Value() == l;
      }
      if env.from !in recvTr {
        return [];
      }
      var verdict := Verify(env);
      if verdict != Accepted {
        RejectedKeepsChain(d.wire.recvTr, env, cfg.ring);
        CountRejected(verdict);
        return [];
      }
      NoteHeard(env.from);
      assert State() == Heard(d, env, cfg.ring);
      hide Replica.State;
      Dispatch(env, draw);
      out := outbox;
    }

    method CountRejected(verdict: AcceptResult)
      requires Valid() && verdict != Accepted
      modifies this`droppedBadSig, this`droppedReplay
      ensures Valid()
      ensures var s := old(State());
        State() == match verdict
          case Rejected(_) => s.(stats := s.stats.(badSig := s.stats.badSig + 1))
          case Replayed => s.(stats := s.stats.(replays := s.stats.replays + 1))
          case Accepted => s
    {
      hide Chains, Distinct, Contents, LogStore.Value, View.Value;
      if verdict == Replayed {
        droppedReplay := droppedReplay + 1;
      } else {
        droppedBadSig := droppedBadSig + 1;
      }
    }

    // Run the envelope through the sender's transcript.
    method Verify(env: Envelope) returns (verdict: AcceptResult)
      requires Valid() && env.from in recvTr
      modifies recvTr.Values
      ensures Valid() && env.from in old(Chains(recvTr))
      ensures var chains := old(Chains(recvTr));
        && verdict == Judge(chains[env.from], env, cfg.ring)
        && State() == old(State()).(wire := old(WireState()).(
             recvTr := chains[env.from := Received(chains[env.from], env, cfg.ring)]))
    {
      hide Contents, LogStore.Value, View.Value, Received, Judge;
      ghost var before, sent := Chains(recvTr), Chains(sendTr);
      var tr := recvTr[env.from];
      verdict := tr.Accept(env, cfg.ring);
      assert Chains(recvTr) == before[env.from := tr.Value()];
      assert Chains(sendTr) == sent;
    }

    // A verified message is evidence that its sender can reach this node.
    method NoteHeard(from: NodeID)
      requires Valid() && from in recvTr
      modifies this, view
      ensures Valid()
      ensures from in Chains(recvTr)
      ensures var s := old(State());
        State() == s.(links := s.links.(heardFrom := s.links.heardFrom + {from},
                                        inboundUp := s.links.inboundUp + {from},
                                        lastHeard := s.links.lastHeard[from := s.clock.tick],
                                        view := s.links.view.ObserveInbound(from)),
                      stats := s.stats.(chainGaps := Max(s.stats.chainGaps, Chains(recvTr)[from].gaps)))
    {
      hide Chains, Distinct, Contents, LogStore.Value, View.Value, Matrix.ObserveInbound, Config.Valid;
      ChainKeys(recvTr);
      ghost var s, t, r, v, l := State(), Chains(sendTr), Chains(recvTr), view.Value(), log.Value();
      heardFrom := heardFrom + {from};
      inboundUp := inboundUp + {from};
      lastHeard := lastHeard[from := tick];
      view.ObserveInbound(from);
      assert State() == s.(links := s.links.(heardFrom := s.links.heardFrom + {from},
                                             inboundUp := s.links.inboundUp + {from},
                                             lastHeard := s.links.lastHeard[from := s.clock.tick],
                                             view := s.links.view.ObserveInbound(from))) by {
        assert Chains(sendTr) == t && Chains(recvTr) == r && log.Value() == l;
      }
      assert Chains(recvTr) == r;
      hide Replica.State;
      NoteGaps(from);
    }

    // Keep the worst gap count of any peer.
    method NoteGaps(from: NodeID)
      requires Valid() && from in recvTr
      modifies this`droppedChain
      ensures Valid() && from in Chains(recvTr)
      ensures var s := old(State());
        State() == s.(stats := s.stats.(chainGaps := Max(s.stats.chainGaps, Chains(recvTr)[from].gaps)))
    {
      hide Chains, Distinct, Contents, LogStore.Value, View.Value;
      ChainOf(recvTr, from);
      if recvTr[from].gaps > droppedChain {
        droppedChain := recvTr[from].gaps;
      }
    }

    method Dispatch(env: Envelope, draw: nat)
      requires Valid()
      modifies this, log, view, sendTr.Values
      ensures Valid() && State() == Nodes.Dispatch(cfg, old(State()), env.from, env.kind, env.payload, draw)
    {
      hide Chains, Distinct, Contents, LogStore.Value, View.Value, Nodes.HandleAppendReq, Nodes.HandleVoteReq,
            Nodes.HandleVoteResp, Nodes.HandleAppendResp, Nodes.Send, Nodes.MergeInbound;
      var from, m := env.from, env.payload;
      match env.kind
      case KindAppendEntries => if m.AppendReq? { HandleAppendReq(from, m, draw); }
      case KindAppendResp => if m.AppendResp? { HandleAppendResp(from, m, draw); }
      case KindRequestVote => if m.VoteReq? { HandleVoteReq(from, m, draw); }
      case KindPreVote => if m.VoteReq? { HandleVoteReq(from, m, draw); }
      case KindVoteResp => if m.VoteResp? { HandleVoteResp(from, m, draw); }
      case KindPreVoteResp => if m.VoteResp? { HandleVoteResp(from, m, draw); }
      case KindProbe => if m.ProbeReq? { HandleProbeReq(from, m); }
      case KindProbeResp => if m.ProbeResp? { MergeInbound(from, m.inboundUp); }
    }

    // Only a leader accepts writes.
    method Propose(cmd: string) returns (ok: bool)
      requires Valid()
      modifies Footprint()
      ensures Valid() && State() == Nodes.Propose(cfg, old(State()), cmd)
      ensures ok <==> old(role) == Leader
    {
      if role != Leader {
        return false;
      }
      ghost var s := State();
      var _ := log.Append(currentTerm, cmd);
      assert State() == s.(raft := s.raft.(log := s.raft.log + [Entry(s.raft.term, cmd)]));
      BroadcastAppend();
      ok := true;
    }
  }

  // A replica's view is over the roster and is what its state says.
  lemma ViewOf(r: Replica)
    requires r.Valid()
    ensures Ascending(r.view.members) && r.State().links.view == r.view.Value()
    ensures r.State().raft.role == r.role
  {
  }
}
