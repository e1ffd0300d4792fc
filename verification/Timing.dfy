/** Election arithmetic of a node that accepts nothing, and CheckQuorum
    (internal/consensus/node.go). */
module Timing {
  import opened Types
  import opened Crypt
  import opened Transcripts
  import opened Rafts
  import opened NetMatrix
  import opened Nodes
  import opened Clusters
  import opened Traffic
  import opened Histories
  import opened Evidence

  // ---------- The election timer ----------

  // Timeouts lie in [T, 2T), and nobody sits on an expired one except a baseline
  // leader, which never looks at it.
  ghost predicate ClockSane(cfg: Config, s: NodeState) {
    && cfg.timeout <= s.clock.electionTimeout < 2 * cfg.timeout
    && ((s.raft.role == Leader && cfg.mode == Baseline) || s.clock.electionElapsed < s.clock.electionTimeout)
  }

  // How often the timer has run out on this node while it was not leader.
  function Timeouts(s: NodeState): nat {
    s.stats.electionsStarted + s.stats.declined
  }

  lemma GossipKeepsTime(cfg: Config, s: NodeState)
    ensures var g := Gossip(cfg, s);
      g == s.(clock := s.clock.(probeElapsed := g.clock.probeElapsed), links := g.links, wire := g.wire)
    ensures Gossip(cfg, s).links.heardFrom == s.links.heardFrom
  {
    var d := DetectSilence(cfg, s, |cfg.members|);
    SweepKeepsRest(cfg, s, |cfg.members|);
    var y := d.(clock := d.clock.(probeElapsed := 0));
    SameOnlySends(cfg, y, ProbeReq(y.raft.term, y.id, y.links.inboundUp), |cfg.members|);
    hide DetectSilence, BroadcastSame;
  }

  lemma SweepKeepsRest(cfg: Config, s: NodeState, n: nat)
    requires n <= |cfg.members|
    ensures var d := DetectSilence(cfg, s, n); d == s.(links := d.links)
    ensures DetectSilence(cfg, s, n).links.heardFrom == s.links.heardFrom
  {
  }

  // One tick of a node that is not leader.
  ghost predicate Ticked(cfg: Config, s: NodeState, s': NodeState) {
    && s'.raft.role != Leader && ClockSane(cfg, s') && s'.links.heardFrom == s.links.heardFrom
    && s'.stats.electionsStarted >= s.stats.electionsStarted && s'.stats.declined >= s.stats.declined
    && if s.clock.electionElapsed + 1 < s.clock.electionTimeout then
         && s'.clock.electionElapsed == s.clock.electionElapsed + 1
         && s'.clock.electionTimeout == s.clock.electionTimeout
         && s'.stats == s.stats && s'.raft == s.raft
       else
         && s'.clock.electionElapsed == 0 && Timeouts(s') == Timeouts(s) + 1
         && (var won := if cfg.mode == Baseline then 1 else 0;
             s'.raft.term == s.raft.term + won && s'.stats.termBumps == s.stats.termBumps + won)
         && (s'.stats.declined > s.stats.declined <==>
              cfg.mode == CrossFault && !s.links.view.HasBidirectionalQuorum(s.id))
  }

  lemma TickIsPaced(cfg: Config, s: NodeState, draw: nat)
    requires cfg.Valid() && draw < cfg.timeout && s.raft.role != Leader && ClockSane(cfg, s)
    ensures Ticked(cfg, s, Tick(cfg, s, draw))
  {
    var z := StartTick(s);
    var t := RoleTick(cfg, z, draw);
    if z.clock.electionElapsed >= z.clock.electionTimeout {
      ElectionIsPaced(cfg, z, draw);
    }
    GossipKeepsTime(cfg, t);
    hide BeginElection, Gossip;
  }

  lemma ElectionIsPaced(cfg: Config, s: NodeState, draw: nat)
    requires cfg.Valid() && draw < cfg.timeout && s.raft.role != Leader
    ensures var s' := BeginElection(cfg, s, draw);
      && s'.raft.role != Leader && ClockSane(cfg, s') && s'.links == s.links
      && s'.stats.electionsStarted >= s.stats.electionsStarted && s'.stats.declined >= s.stats.declined
      && s'.clock.electionElapsed == 0 && Timeouts(s') == Timeouts(s) + 1
      && (var won := if cfg.mode == Baseline then 1 else 0;
          s'.raft.term == s.raft.term + won && s'.stats.termBumps == s.stats.termBumps + won)
      && (s'.stats.declined > s.stats.declined <==>
           cfg.mode == CrossFault && !s.links.view.HasBidirectionalQuorum(s.id))
  {
    var e := s.(stats := s.stats.(electionsStarted := s.stats.electionsStarted + 1));
    var c := ResetTimer(cfg, e.(raft := Rafts.Campaign(e.raft, e.id),
                                stats := e.stats.(termBumps := e.stats.termBumps + 1)), draw);
    SameOnlySends(cfg, c, Ballot(c, false), |cfg.members|);
    var p := ResetTimer(cfg, e.(raft := Rafts.PreCampaign(e.raft, e.id)), draw);
    SameOnlySends(cfg, p, Ballot(p, true), |cfg.members|);
    hide BroadcastSame;
  }

  // One tick of a leader outside baseline mode.
  lemma LeaderTickIsPaced(cfg: Config, s: NodeState, draw: nat)
    requires cfg.Valid() && draw < cfg.timeout && s.raft.role == Leader && ClockSane(cfg, s)
    ensures var s' := Tick(cfg, s, draw);
      && ClockSane(cfg, s') && Timeouts(s') == Timeouts(s) && s'.stats == s.stats
      && var due := cfg.mode != Baseline && s.clock.electionElapsed + 1 >= s.clock.electionTimeout;
        if !due then
          && s'.raft.role == Leader && s'.links.heardFrom == s.links.heardFrom
          && s'.clock.electionElapsed == s.clock.electionElapsed + 1
          && s'.clock.electionTimeout == s.clock.electionTimeout
        else
          && (s'.raft.role == Leader <==> 1 + |s.links.heardFrom| >= cfg.Quorum())
          && s'.links.heardFrom == {} && s'.clock.electionElapsed == 0
          && (s'.raft.role == Leader ==> s'.clock.electionTimeout == s.clock.electionTimeout)
  {
    var z := StartTick(s);
    AppendOnlySends(cfg, z.(clock := z.clock.(heartbeatElapsed := 0)), |cfg.members|);
    GossipKeepsTime(cfg, RoleTick(cfg, z, draw));
    hide BroadcastAppend, Gossip;
  }

  // ---------- Handlers keep the clock sane ----------

  // The clock stays sane and nobody's evidence is lost, except on winning an election.
  ghost predicate TimeKept(cfg: Config, s: NodeState, s': NodeState) {
    && ClockSane(cfg, s')
    && s'.links.heardFrom == if s.raft.role != Leader && s'.raft.role == Leader then {} else s.links.heardFrom
  }

  lemma RequestKeepsTime(cfg: Config, s: NodeState, from: NodeID, m: Payload, draw: nat)
    requires cfg.Valid() && draw < cfg.timeout && ClockSane(cfg, s) && m.AppendReq?
    ensures TimeKept(cfg, s, HandleAppendReq(cfg, s, from, m, draw))
  {
  }

  lemma VoteReqKeepsTime(cfg: Config, s: NodeState, from: NodeID, m: Payload, draw: nat)
    requires cfg.Valid() && draw < cfg.timeout && ClockSane(cfg, s) && m.VoteReq?
    ensures TimeKept(cfg, s, HandleVoteReq(cfg, s, from, m, draw))
  {
  }

  lemma AckKeepsTime(cfg: Config, s: NodeState, from: NodeID, m: Payload, draw: nat)
    requires cfg.Valid() && draw < cfg.timeout && ClockSane(cfg, s) && m.AppendResp?
    ensures TimeKept(cfg, s, HandleAppendResp(cfg, s, from, m, draw))
  {
    hide CommitCandidate;
  }

  lemma DispatchKeepsTime(cfg: Config, s: NodeState, env: Envelope, draw: nat)
    requires cfg.Valid() && draw < cfg.timeout && ClockSane(cfg, s)
    ensures TimeKept(cfg, s, Dispatch(cfg, s, env.from, env.kind, env.payload, draw))
  {
    var from, m := env.from, env.payload;
    if m.VoteResp? {
      BallotKeepsTime(cfg, s, from, m, draw);
    } else if m.AppendReq? {
      RequestKeepsTime(cfg, s, from, m, draw);
    } else if m.VoteReq? {
      VoteReqKeepsTime(cfg, s, from, m, draw);
    } else if m.AppendResp? {
      AckKeepsTime(cfg, s, from, m, draw);
    }
    hide HandleVoteResp, HandleVoteReq, HandleAppendReq, HandleAppendResp, MergeInbound;
  }

  lemma BallotKeepsTime(cfg: Config, s: NodeState, from: NodeID, m: Payload, draw: nat)
    requires cfg.Valid() && draw < cfg.timeout && ClockSane(cfg, s) && m.VoteResp?
    ensures TimeKept(cfg, s, HandleVoteResp(cfg, s, from, m, draw))
  {
    var p := s.(raft := s.raft.(preVotes := s.raft.preVotes + {from}));
    var c := ResetTimer(cfg, p.(raft := Rafts.Campaign(p.raft, p.id),
                                stats := p.stats.(termBumps := p.stats.termBumps + 1)), draw);
    SameOnlySends(cfg, c, Ballot(c, false), |cfg.members|);
    var v := s.(raft := s.raft.(votes := s.raft.votes + {from}));
    var l := ClearHeard(v.(raft := Rafts.Elected(v.raft, v.id, cfg.members),
                           clock := v.clock.(heartbeatElapsed := 0)));
    AppendOnlySends(cfg, l, |cfg.members|);
    hide BroadcastSame, BroadcastAppend;
  }

  lemma DeliverKeepsTime(cfg: Config, s: NodeState, env: Envelope, draw: nat)
    requires cfg.Valid() && draw < cfg.timeout && ClockSane(cfg, s)
    ensures var s' := Deliver(cfg, s, env, draw);
      && ClockSane(cfg, s')
      && s'.links.heardFrom ==
         (if s.raft.role != Leader && s'.raft.role == Leader then {}
          else if Accepts(cfg, s, env) then s.links.heardFrom + {env.from} else s.links.heardFrom)
      && (!Accepts(cfg, s, env) ==>
           && s'.raft == s.raft && s'.clock == s.clock
           && s'.stats == s.stats.(badSig := s'.stats.badSig, replays := s'.stats.replays))
  {
    hide Dispatch, Received;
    var d := s.(wire := s.wire.(outbox := []));
    if Accepts(cfg, s, env) {
      DispatchKeepsTime(cfg, Heard(d, env, cfg.ring), env, draw);
    }
  }

  lemma ProposeKeepsTime(cfg: Config, s: NodeState, cmd: string)
    ensures var s' := Propose(cfg, s, cmd);
      && s'.clock == s.clock && s'.stats == s.stats && s'.links == s.links
      && s'.raft.role == s.raft.role && s'.raft.term == s.raft.term
  {
    AppendOnlySends(cfg, s.(raft := s.raft.(log := s.raft.log + [Entry(s.raft.term, cmd)])), |cfg.members|);
  }

  lemma {:induction false} RunIsSane(cfg: Config, states: seq<Cluster>, acts: seq<Action>, n: nat, p: NodeID)
    requires Run(cfg, states, acts) && n <= |acts| && p in cfg.members
    ensures p in states[n].nodes && ClockSane(cfg, states[n].nodes[p])
  {
    hide Next, ClockSane, Init, WiredAt, Wired;
    MembersAreNodes(cfg, states, acts, n, p);
    if n == 0 {
      FirstIsSane(cfg, states[0], p);
    } else {
      RunIsSane(cfg, states, acts, n - 1, p);
      RunIsWired(cfg, states, acts, n - 1);
      SaneStep(cfg, states, acts, n - 1, p);
    }
  }

  lemma MembersAreNodes(cfg: Config, states: seq<Cluster>, acts: seq<Action>, n: nat, p: NodeID)
    requires Run(cfg, states, acts) && n <= |acts| && p in cfg.members
    ensures p in states[n].nodes
  {
    hide Next, Init, WiredAt;
    RunIsWired(cfg, states, acts, n);
    assert p in ToSet(cfg.members);
  }

  lemma FirstIsSane(cfg: Config, c: Cluster, p: NodeID)
    requires cfg.Valid() && Init(cfg, c) && p in c.nodes
    ensures ClockSane(cfg, c.nodes[p])
  {
    assert BeginsAt(cfg, c, p);
  }

  lemma SaneStep(cfg: Config, states: seq<Cluster>, acts: seq<Action>, n: nat, p: NodeID)
    requires Run(cfg, states, acts) && n < |acts| && Wired(cfg, states[n])
    requires p in states[n].nodes && ClockSane(cfg, states[n].nodes[p])
    ensures p in states[n + 1].nodes && ClockSane(cfg, states[n + 1].nodes[p])
  {
    hide Init, Tick, Deliver, Propose, WiredAt;
    StepFacts(cfg, states, acts, n);
    assert Taken(cfg, states, acts, n);
    var s := states[n].nodes[p];
    if p == Actor(acts[n]) {
      match acts[n]
      case TickAt(_, d) =>
        if s.raft.role == Leader {
          LeaderTickIsPaced(cfg, s, d);
        } else {
          TickIsPaced(cfg, s, d);
        }
      case DeliverTo(env, d) => DeliverKeepsTime(cfg, s, env, d);
      case ProposeAt(_, cmd) => ProposeKeepsTime(cfg, s, cmd);
    }
  }

  // ---------- A node that hears nothing ----------

  // Between steps n and n1 node p accepts no message.
  ghost predicate Deaf(cfg: Config, states: seq<Cluster>, acts: seq<Action>, p: NodeID, n: nat, n1: nat) {
    forall j: nat, q :: n <= j < n1 ==> !AcceptedAt(cfg, states, acts, p, q, j)
  }

  // p's ticks between steps n and n1.
  function TicksIn(acts: seq<Action>, p: NodeID, n: nat, n1: nat): nat
    requires n <= n1 <= |acts|
    decreases n1
  {
    if n1 == n then 0
    else TicksIn(acts, p, n, n1 - 1) + if acts[n1 - 1].TickAt? && acts[n1 - 1].p == p then 1 else 0
  }

  lemma TicksSplit(acts: seq<Action>, p: NodeID, n: nat)
    requires n <= |acts|
    ensures Ticks(acts[..n], p) == TicksIn(acts, p, 0, n)
  {
    if n > 0 {
      TicksSplit(acts, p, n - 1);
      assert acts[..n][..n - 1] == acts[..n - 1];
    }
  }

  lemma TicksAdd(acts: seq<Action>, p: NodeID, n: nat, m: nat, k: nat)
    requires n <= m <= k <= |acts|
    ensures TicksIn(acts, p, n, k) == TicksIn(acts, p, n, m) + TicksIn(acts, p, m, k)
    decreases k
  {
    if m < k {
      TicksAdd(acts, p, n, m, k - 1);
    }
  }

  // What a deaf step does to the node it runs at.
  ghost predicate DeafStep(cfg: Config, s: NodeState, s': NodeState, ticked: bool) {
    if ticked then exists d: nat :: d < cfg.timeout && s' == Tick(cfg, s, d)
    else
      && s'.clock == s.clock && s'.raft.role == s.raft.role && s'.raft.term == s.raft.term
      && s'.links == s.links && s'.stats == s.stats.(badSig := s'.stats.badSig, replays := s'.stats.replays)
  }

  lemma DeafStepFacts(cfg: Config, states: seq<Cluster>, acts: seq<Action>, p: NodeID, n: nat)
    requires Run(cfg, states, acts) && n < |acts| && p in cfg.members
    requires Deaf(cfg, states, acts, p, n, n + 1)
    ensures p in states[n].nodes && p in states[n + 1].nodes
    ensures ClockSane(cfg, states[n].nodes[p]) && WiredAt(cfg, p, states[n].nodes[p])
    ensures DeafStep(cfg, states[n].nodes[p], states[n + 1].nodes[p], acts[n].TickAt? && acts[n].p == p)
  {
    hide Init, Tick, Deliver, Propose, ClockSane, WiredAt, Accepts, MergeInbound, Wrote;
    RunIsWired(cfg, states, acts, n);
    MembersAreNodes(cfg, states, acts, n, p);
    RunIsSane(cfg, states, acts, n, p);
    StepFacts(cfg, states, acts, n);
    assert Taken(cfg, states, acts, n);
    var s, s' := states[n].nodes[p], states[n + 1].nodes[p];
    if p == Actor(acts[n]) {
      match acts[n]
      case TickAt(_, d) =>
      case DeliverTo(env, d) =>
        assert !AcceptedAt(cfg, states, acts, p, env.from, n);
        assert WiredAt(cfg, p, s);
        RejectedKeepsLinks(cfg, p, s, env, d);
      case ProposeAt(_, cmd) => ProposeKeepsTime(cfg, s, cmd);
    }
  }

  lemma RejectedKeepsLinks(cfg: Config, p: NodeID, s: NodeState, env: Envelope, d: nat)
    requires cfg.Valid() && d < cfg.timeout && WiredAt(cfg, p, s) && ClockSane(cfg, s) && !Accepts(cfg, s, env)
    ensures DeafStep(cfg, s, Deliver(cfg, s, env, d), false)
  {
    hide Deliver, Wrote;
    DeliverTraffic(cfg, p, s, env, d);
    DeliverKeepsTime(cfg, s, env, d);
  }

  // x ticks leave room for b timeouts of T to 2T - 1 ticks, and e more.
  ghost predicate Fits(t: nat, b: nat, e: nat, x: nat)
    requires t >= 1
  {
    b * t + e <= x <= b * (2 * t - 1) + e
  }

  lemma FitsOneMore(t: nat, b: nat, e: nat, x: nat)
    requires t >= 1 && Fits(t, b, e, x)
    ensures Fits(t, b, e + 1, x + 1)
    ensures t <= e + 1 <= 2 * t - 1 ==> Fits(t, b + 1, 0, x + 1)
  {
    assert (b + 1) * t == b * t + t;
    assert (b + 1) * (2 * t - 1) == b * (2 * t - 1) + (2 * t - 1);
  }

  // After k ticks and b timeouts.
  ghost predicate Paced(cfg: Config, s0: NodeState, s: NodeState, k: nat)
    requires cfg.timeout >= 1
  {
    var b := Timeouts(s) - Timeouts(s0);
    && s.raft.role != Leader && ClockSane(cfg, s) && b >= 0
    && Fits(cfg.timeout, b, s.clock.electionElapsed, k + s0.clock.electionElapsed)
    && s.raft.term - s0.raft.term == s.stats.termBumps - s0.stats.termBumps
       == (if cfg.mode == Baseline then b else 0)
  }

  lemma PacedTick(cfg: Config, s0: NodeState, s: NodeState, k: nat, draw: nat)
    requires cfg.Valid() && draw < cfg.timeout && Paced(cfg, s0, s, k)
    ensures Paced(cfg, s0, Tick(cfg, s, draw), k + 1)
  {
    hide Tick, Fits;
    TickIsPaced(cfg, s, draw);
    FitsOneMore(cfg.timeout, Timeouts(s) - Timeouts(s0), s.clock.electionElapsed, k + s0.clock.electionElapsed);
  }

  lemma {:induction false} DeafIsPaced(cfg: Config, states: seq<Cluster>, acts: seq<Action>, p: NodeID, n: nat, n1: nat)
    requires Run(cfg, states, acts) && n <= n1 <= |acts| && p in cfg.members && Deaf(cfg, states, acts, p, n, n1)
    requires p in states[n].nodes && states[n].nodes[p].raft.role != Leader
    ensures p in states[n1].nodes
    ensures Paced(cfg, states[n].nodes[p], states[n1].nodes[p], TicksIn(acts, p, n, n1))
    decreases n1
  {
    hide Init, Next, Tick, AcceptedAt, WiredAt;
    if n1 == n {
      RunIsSane(cfg, states, acts, n, p);
    } else {
      DeafIsPaced(cfg, states, acts, p, n, n1 - 1);
      DeafStepFacts(cfg, states, acts, p, n1 - 1);
      var s0, s, s' := states[n].nodes[p], states[n1 - 1].nodes[p], states[n1].nodes[p];
      var k := TicksIn(acts, p, n, n1 - 1);
      if acts[n1 - 1].TickAt? && acts[n1 - 1].p == p {
        var d: nat :| d < cfg.timeout && s' == Tick(cfg, s, d);
        PacedTick(cfg, s0, s, k, d);
      }
    }
  }

  lemma Quotient(x: nat, t: nat)
    requires t >= 1
    ensures (x / t) * t <= x < (x / t + 1) * t
  {
    assert x == (x / t) * t + x % t;
  }

  lemma ScaleUp(a: nat, b: nat, t: nat)
    requires a <= b
    ensures a * t <= b * t
  {
  }

  // As many timeouts of T to 2T - 1 ticks as fit in x ticks.
  ghost predicate BetweenFloors(t: nat, x: nat, b: int)
    requires t >= 1
  {
    x / (2 * t - 1) <= b <= x / t
  }

  lemma FloorBounds(x: nat, b: nat, t: nat, r: nat)
    requires t >= 1 && Fits(t, b, r, x) && r <= 2 * t - 2
    ensures BetweenFloors(t, x, b)
  {
    var u := 2 * t - 1;
    Quotient(x, t);
    Quotient(x, u);
    assert (b + 1) * u == b * u + u;
    if x / t < b {
      ScaleUp(x / t + 1, b, t);
    }
    if x / u > b {
      ScaleUp(b + 1, x / u, u);
    }
  }

  lemma PacedBounds(cfg: Config, s: NodeState, s': NodeState, k: nat)
    requires cfg.Valid() && Paced(cfg, s, s', k)
    ensures var x, b := k + s.clock.electionElapsed, Timeouts(s') - Timeouts(s);
      && BetweenFloors(cfg.timeout, x, b)
      && s'.raft.term == s.raft.term + (if cfg.mode == Baseline then b else 0)
      && s'.raft.role != Leader
  {
    hide Fits, BetweenFloors;
    hide Timeouts;
    FloorBounds(k + s.clock.electionElapsed, Timeouts(s') - Timeouts(s), cfg.timeout, s'.clock.electionElapsed);
  }

  // A node that is not leader and accepts nothing during k of its ticks times out
  // between floor((k+e)/(2T-1)) and floor((k+e)/T) times; in baseline mode each
  // timeout raises its term, in the other modes none does.
  lemma OneWayNodeArithmetic(cfg: Config, states: seq<Cluster>, acts: seq<Action>, p: NodeID, n: nat, n1: nat)
    requires Run(cfg, states, acts) && n <= n1 <= |acts| && p in cfg.members && Deaf(cfg, states, acts, p, n, n1)
    requires p in states[n].nodes && states[n].nodes[p].raft.role != Leader
    ensures p in states[n1].nodes
    ensures var s, s' := states[n].nodes[p], states[n1].nodes[p];
      var x, b := TicksIn(acts, p, n, n1) + s.clock.electionElapsed, Timeouts(s') - Timeouts(s);
      && BetweenFloors(cfg.timeout, x, b)
      && s'.raft.term == s.raft.term + (if cfg.mode == Baseline then b else 0)
      && s'.raft.role != Leader
  {
    hide *;
    RunShape(cfg, states, acts);
    DeafIsPaced(cfg, states, acts, p, n, n1);
    PacedBounds(cfg, states[n].nodes[p], states[n1].nodes[p], TicksIn(acts, p, n, n1));
  }

  // ---------- Declining ----------

  lemma DeafIsSilent(cfg: Config, states: seq<Cluster>, acts: seq<Action>, p: NodeID, m: NodeID, n: nat, n1: nat)
    requires n <= n1 <= |acts| && n1 < |states| && p in states[n1].nodes
    requires Deaf(cfg, states, acts, p, n, n1)
    requires Noted(cfg, states, acts, n1, p, m) && TicksIn(acts, p, n, n1) > cfg.timeout
    ensures Silent(cfg, states[n1].nodes[p], m)
  {
    hide AcceptedAt, Window;
    var s := states[n1].nodes[p];
    TicksSplit(acts, p, n1);
    TicksAdd(acts, p, 0, n, n1);
    if m in s.links.lastHeard {
      var j: nat :| j < n1 && HeardThen(cfg, states, acts, p, m, j, s.links.lastHeard[m]);
      AcceptedInTime(cfg, states, acts, p, m, j);
      HeardEarlier(cfg, states, acts, p, m, j, n, n1);
    }
  }

  // After more than T deaf ticks every edge into the node is believed down.
  lemma DeafIsBlind(cfg: Config, states: seq<Cluster>, acts: seq<Action>, p: NodeID, n: nat, n1: nat)
    requires Run(cfg, states, acts) && n <= n1 <= |acts| && p in cfg.members && Deaf(cfg, states, acts, p, n, n1)
    requires cfg.mode == CrossFault && |cfg.members| >= 2 && TicksIn(acts, p, n, n1) > cfg.timeout
    ensures p in states[n1].nodes
    ensures !states[n1].nodes[p].links.view.HasBidirectionalQuorum(p)
  {
    hide Init, Next, AcceptedAt, HeardThen, Silent;
    MembersAreNodes(cfg, states, acts, n1, p);
    RunIsWired(cfg, states, acts, n1);
    RosterStays(cfg, states, acts, n1, p);
    var s := states[n1].nodes[p];
    assert WiredAt(cfg, p, s);
    forall m | m in cfg.members && m != p
      ensures !s.links.view.CanSend(m, p)
    {
      RunIsNoted(cfg, states, acts, n1, p, m);
      DeafIsSilent(cfg, states, acts, p, m, n, n1);
    }
    assert s.links.view.Peers(p) <= {p};
    SubsetCardinality(s.links.view.Peers(p), {p});
  }

  lemma HeardEarlier(cfg: Config, states: seq<Cluster>, acts: seq<Action>, p: NodeID, m: NodeID, j: nat, n: nat,
        n1: nat)
    requires j < n1 && n <= n1 <= |acts| && AcceptedAt(cfg, states, acts, p, m, j)
    requires Deaf(cfg, states, acts, p, n, n1)
    ensures Ticks(acts[..j], p) <= TicksIn(acts, p, 0, n)
  {
    assert j < n;
    TicksSplit(acts, p, j);
    TicksAdd(acts, p, 0, j, n);
  }

  // Once more than T deaf ticks have passed, a crossfault node with peers only
  // declines: it never starts an election again while it stays deaf.
  lemma {:induction false} OneWayNodeDeclines(cfg: Config, states: seq<Cluster>, acts: seq<Action>, p: NodeID,
                                              n: nat, n1: nat, n2: nat)
    requires Run(cfg, states, acts) && n <= n1 <= n2 <= |acts| && p in cfg.members
    requires Deaf(cfg, states, acts, p, n, n2)
    requires cfg.mode == CrossFault && |cfg.members| >= 2 && TicksIn(acts, p, n, n1) > cfg.timeout
    ensures p in states[n1].nodes && p in states[n2].nodes
    ensures states[n2].nodes[p].stats.electionsStarted == states[n1].nodes[p].stats.electionsStarted
    decreases n2
  {
    hide *;
    RunShape(cfg, states, acts);
    MembersAreNodes(cfg, states, acts, n1, p);
    if n1 < n2 {
      DeafSplits(cfg, states, acts, p, n, n2 - 1, n2);
      OneWayNodeDeclines(cfg, states, acts, p, n, n1, n2 - 1);
      MoreTicks(acts, p, n, n1, n2 - 1);
      DeafIsBlind(cfg, states, acts, p, n, n2 - 1);
      DeafStepFacts(cfg, states, acts, p, n2 - 1);
      BlindStep(cfg, states[n2 - 1].nodes[p], states[n2].nodes[p], p, acts[n2 - 1].TickAt? && acts[n2 - 1].p == p);
    }
  }

  lemma DeafSplits(cfg: Config, states: seq<Cluster>, acts: seq<Action>, p: NodeID, n: nat, m: nat, k: nat)
    requires n <= m <= k && Deaf(cfg, states, acts, p, n, k)
    ensures Deaf(cfg, states, acts, p, n, m) && Deaf(cfg, states, acts, p, m, k)
  {
    hide AcceptedAt;
  }

  lemma MoreTicks(acts: seq<Action>, p: NodeID, n: nat, m: nat, k: nat)
    requires n <= m <= k <= |acts|
    ensures TicksIn(acts, p, n, m) <= TicksIn(acts, p, n, k)
  {
    TicksAdd(acts, p, n, m, k);
  }

  lemma BlindStep(cfg: Config, s: NodeState, s': NodeState, p: NodeID, ticked: bool)
    requires cfg.Valid() && cfg.mode == CrossFault && WiredAt(cfg, p, s) && ClockSane(cfg, s)
    requires DeafStep(cfg, s, s', ticked) && !s.links.view.HasBidirectionalQuorum(p)
    ensures s'.stats.electionsStarted == s.stats.electionsStarted
  {
    hide Tick;
    if ticked {
      var d: nat :| d < cfg.timeout && s' == Tick(cfg, s, d);
      if s.raft.role == Leader {
        LeaderTickIsPaced(cfg, s, d);
      } else {
        TickIsPaced(cfg, s, d);
      }
    }
  }

  // ---------- CheckQuorum ----------

  // k deaf ticks into its watch: before its first check, or after it with nothing heard since.
  ghost predicate OnWatch(cfg: Config, s: NodeState, k: nat) {
    s.raft.role == Leader ==>
      || k <= s.clock.electionElapsed
      || (s.links.heardFrom == {} && k <= 2 * cfg.timeout - 1 + s.clock.electionElapsed)
  }

  lemma WatchStep(cfg: Config, s: NodeState, s': NodeState, k: nat, ticked: bool)
    requires cfg.Valid() && cfg.mode != Baseline && |cfg.members| >= 2 && ClockSane(cfg, s)
    requires DeafStep(cfg, s, s', ticked) && OnWatch(cfg, s, k)
    ensures OnWatch(cfg, s', k + if ticked then 1 else 0)
  {
    hide Tick;
    if ticked {
      var d: nat :| d < cfg.timeout && s' == Tick(cfg, s, d);
      if s.raft.role == Leader {
        LeaderTickIsPaced(cfg, s, d);
      } else {
        TickIsPaced(cfg, s, d);
      }
    }
  }

  lemma {:induction false} DeafIsOnWatch(cfg: Config, states: seq<Cluster>, acts: seq<Action>, p: NodeID, n: nat,
        n1: nat)
    requires Run(cfg, states, acts) && n <= n1 <= |acts| && p in cfg.members && Deaf(cfg, states, acts, p, n, n1)
    requires cfg.mode != Baseline && |cfg.members| >= 2
    ensures p in states[n1].nodes && OnWatch(cfg, states[n1].nodes[p], TicksIn(acts, p, n, n1))
    decreases n1
  {
    if n == n1 {
      hide Run;
      RunShape(cfg, states, acts);
      MembersAreNodes(cfg, states, acts, n, p);
    } else {
      hide OnWatch, DeafStep, Deaf, Run, ClockSane, WiredAt;
      RunShape(cfg, states, acts);
      DeafSplits(cfg, states, acts, p, n, n1 - 1, n1);
      DeafIsOnWatch(cfg, states, acts, p, n, n1 - 1);
      DeafStepFacts(cfg, states, acts, p, n1 - 1);
      WatchStep(cfg, states[n1 - 1].nodes[p], states[n1].nodes[p], TicksIn(acts, p, n, n1 - 1),
                acts[n1 - 1].TickAt? && acts[n1 - 1].p == p);
    }
  }

  // Outside baseline mode, a leader with peers that accepts nothing for
  // 2 * (2T - 1) of its ticks is no longer leader.
  lemma DeafLeaderStepsDown(cfg: Config, states: seq<Cluster>, acts: seq<Action>, p: NodeID, n: nat, n1: nat)
    requires Run(cfg, states, acts) && n <= n1 <= |acts| && p in cfg.members && Deaf(cfg, states, acts, p, n, n1)
    requires cfg.mode != Baseline && |cfg.members| >= 2
    requires TicksIn(acts, p, n, n1) >= 2 * (2 * cfg.timeout - 1)
    ensures p in states[n1].nodes && states[n1].nodes[p].raft.role != Leader
  {
    hide Run, Deaf;
    RunShape(cfg, states, acts);
    DeafIsOnWatch(cfg, states, acts, p, n, n1);
    RunIsSane(cfg, states, acts, n1, p);
  }

  // Step j wipes p's list of whom it has heard: p wins an election, or a leader's check is due.
  ghost predicate ClearedAt(cfg: Config, states: seq<Cluster>, acts: seq<Action>, p: NodeID, j: nat) {
    && j < |acts| && j + 1 < |states| && Actor(acts[j]) == p && p in states[j].nodes && p in states[j + 1].nodes
    && Clears(cfg, states[j].nodes[p], states[j + 1].nodes[p], acts[j].TickAt?)
  }

  ghost predicate Clears(cfg: Config, s: NodeState, s': NodeState, ticked: bool) {
    if s.raft.role != Leader then s'.raft.role == Leader
    else ticked && cfg.mode != Baseline && s.clock.electionElapsed + 1 >= s.clock.electionTimeout
  }

  // p has accepted something from q since it last wiped the list.
  ghost predicate HeardSince(cfg: Config, states: seq<Cluster>, acts: seq<Action>, n: nat, p: NodeID, q: NodeID) {
    exists j: nat :: j < n && AcceptedAt(cfg, states, acts, p, q, j) && NotClearedFrom(cfg, states, acts, p, j, n)
  }

  ghost predicate NotClearedFrom(cfg: Config, states: seq<Cluster>, acts: seq<Action>, p: NodeID, j: nat, n: nat) {
    forall i: nat :: j <= i < n ==> !ClearedAt(cfg, states, acts, p, i)
  }

  lemma HeardStep(cfg: Config, states: seq<Cluster>, acts: seq<Action>, n: nat, p: NodeID, q: NodeID)
    requires Run(cfg, states, acts) && n < |acts| && p in cfg.members
    ensures p in states[n].nodes && p in states[n + 1].nodes
    ensures q in states[n + 1].nodes[p].links.heardFrom <==>
      && !ClearedAt(cfg, states, acts, p, n)
      && (AcceptedAt(cfg, states, acts, p, q, n) || q in states[n].nodes[p].links.heardFrom)
  {
    hide Init, Tick, Deliver, Propose, ClockSane, WiredAt, Accepts;
    RunIsWired(cfg, states, acts, n);
    MembersAreNodes(cfg, states, acts, n, p);
    RunIsSane(cfg, states, acts, n, p);
    StepFacts(cfg, states, acts, n);
    assert Taken(cfg, states, acts, n);
    var s := states[n].nodes[p];
    if p == Actor(acts[n]) {
      match acts[n]
      case TickAt(_, d) =>
        if s.raft.role == Leader {
          LeaderTickIsPaced(cfg, s, d);
        } else {
          TickIsPaced(cfg, s, d);
        }
      case DeliverTo(env, d) => DeliverKeepsTime(cfg, s, env, d);
      case ProposeAt(_, cmd) => ProposeKeepsTime(cfg, s, cmd);
    }
  }

  lemma NothingHeardYet(cfg: Config, states: seq<Cluster>, acts: seq<Action>, p: NodeID, q: NodeID)
    requires Run(cfg, states, acts) && p in states[0].nodes
    ensures q !in states[0].nodes[p].links.heardFrom && !HeardSince(cfg, states, acts, 0, p, q)
  {
    hide Next;
    assert BeginsAt(cfg, states[0], p);
  }

  lemma {:induction false} HeardFromIsHistory(cfg: Config, states: seq<Cluster>, acts: seq<Action>, n: nat,
        p: NodeID, q: NodeID)
    requires Run(cfg, states, acts) && n <= |acts| && p in cfg.members
    ensures p in states[n].nodes
    ensures q in states[n].nodes[p].links.heardFrom <==> HeardSince(cfg, states, acts, n, p, q)
  {
    hide *;
    RunShape(cfg, states, acts);
    MembersAreNodes(cfg, states, acts, n, p);
    if n == 0 {
      NothingHeardYet(cfg, states, acts, p, q);
    } else {
      HeardFromIsHistory(cfg, states, acts, n - 1, p, q);
      HeardStep(cfg, states, acts, n - 1, p, q);
      HeardSinceStep(cfg, states, acts, n - 1, p, q);
    }
  }

  lemma HeardSinceStep(cfg: Config, states: seq<Cluster>, acts: seq<Action>, n: nat, p: NodeID, q: NodeID)
    ensures HeardSince(cfg, states, acts, n + 1, p, q) <==>
      && !ClearedAt(cfg, states, acts, p, n)
      && (AcceptedAt(cfg, states, acts, p, q, n) || HeardSince(cfg, states, acts, n, p, q))
  {
    hide AcceptedAt, ClearedAt;
    if HeardSince(cfg, states, acts, n + 1, p, q) {
      var j: nat :| j < n + 1 && AcceptedAt(cfg, states, acts, p, q, j)
        && NotClearedFrom(cfg, states, acts, p, j, n + 1);
      assert !ClearedAt(cfg, states, acts, p, n);
      assert NotClearedFrom(cfg, states, acts, p, j, n);
    }
    if !ClearedAt(cfg, states, acts, p, n) {
      if AcceptedAt(cfg, states, acts, p, q, n) {
        assert NotClearedFrom(cfg, states, acts, p, n, n + 1);
      } else if HeardSince(cfg, states, acts, n, p, q) {
        var j: nat :| j < n && AcceptedAt(cfg, states, acts, p, q, j) && NotClearedFrom(cfg, states, acts, p, j, n);
        assert NotClearedFrom(cfg, states, acts, p, j, n + 1);
      }
    }
  }

  // A leader survives a check exactly when, with itself, those it has accepted
  // something from since the list was last wiped make a quorum.
  lemma CheckQuorumIsExact(cfg: Config, states: seq<Cluster>, acts: seq<Action>, n: nat, p: NodeID)
    requires Run(cfg, states, acts) && n < |acts| && acts[n].TickAt? && acts[n].p == p && cfg.mode != Baseline
    requires p in cfg.members && p in states[n].nodes && states[n].nodes[p].raft.role == Leader
    requires states[n].nodes[p].clock.electionElapsed + 1 >= states[n].nodes[p].clock.electionTimeout
    ensures p in states[n + 1].nodes
    ensures states[n + 1].nodes[p].raft.role == Leader <==>
      1 + |set q | q in cfg.members && HeardSince(cfg, states, acts, n, p, q)| >= cfg.Quorum()
  {
    hide Init, Tick, ClockSane, HeardSince, WiredAt, Wired;
    RunIsWired(cfg, states, acts, n);
    StepFacts(cfg, states, acts, n);
    assert Taken(cfg, states, acts, n);
    RunIsSane(cfg, states, acts, n, p);
    var s := states[n].nodes[p];
    LeaderTickIsPaced(cfg, s, acts[n].draw);
    forall q
      ensures q in s.links.heardFrom <==> q in cfg.members && HeardSince(cfg, states, acts, n, p, q)
    {
      HeardFromIsHistory(cfg, states, acts, n, p, q);
      HeardAmongMembers(cfg, states, acts, n, p, q);
    }
    assert s.links.heardFrom == set q | q in cfg.members && HeardSince(cfg, states, acts, n, p, q);
  }

  lemma HeardAmongMembers(cfg: Config, states: seq<Cluster>, acts: seq<Action>, n: nat, p: NodeID, q: NodeID)
    requires Run(cfg, states, acts)
    ensures HeardSince(cfg, states, acts, n, p, q) ==> q in cfg.members
  {
    hide Run, AcceptedAt, NotClearedFrom;
    if HeardSince(cfg, states, acts, n, p, q) {
      var j: nat :| j < n && AcceptedAt(cfg, states, acts, p, q, j) && NotClearedFrom(cfg, states, acts, p, j, n);
      AcceptedAmongMembers(cfg, states, acts, p, q, j);
    }
  }
}
