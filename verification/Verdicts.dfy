/** Exactly which configurations keep logs matched, repair followers, and keep what
    they commit. */
module Verdicts {
  import opened Types
  import opened Logs
  import opened Rafts
  import opened Nodes
  import opened Clusters
  import opened Worlds
  import opened Stages
  import opened Witnesses
  import opened Safety
  import opened Histories
  import opened Backups
  import Divergence
  import Overcommit

  // ---------- Where elections are unsafe ----------

  // Two leaders of term 1 hold different entries, and a follower holds the first's.
  ghost predicate Split(c: Cluster, a: NodeID, b: NodeID, v: NodeID) {
    && a in c.nodes && b in c.nodes && v in c.nodes
    && var ra, rb, rv := c.nodes[a].raft, c.nodes[b].raft, c.nodes[v].raft;
      && ra.log == [Entry(1, "x")] && ra.commitIndex == 1 && rb.log == [Entry(1, "y")] && rb.commitIndex == 1
      && rb.role == Leader && rb.term == 1 && Divergence.Pliable(rv, [Entry(1, "x")])
  }

  lemma SomeSplit(cfg: Config) returns (c: Cluster, a: NodeID, b: NodeID, v: NodeID)
    requires cfg.Valid() && Loose(cfg) && |cfg.members| >= 3
    ensures Reached(cfg, c) && Split(c, a, b, v) && b in cfg.members && v in cfg.members && b != v
  {
    var vs;
    a, b, vs := SomeCast(cfg);
    var ra, rb;
    c, ra, rb := Divergence.LeadersDiverge(cfg, a, b, vs, "x", "y");
    v := vs[0];
    assert v in vs;
    hide Reached, Ascending, Loose;
  }

  lemma XIsNotY()
    ensures [Entry(1, "x")][..1] != [Entry(1, "y")][..1] && !([Entry(1, "y")] <= [Entry(1, "x")])
    ensures [Entry(1, "x")][0] != [Entry(1, "y")][0]
  {
    assert "x"[0] != "y"[0];
    assert [Entry(1, "x")][..1][0] != [Entry(1, "y")][..1][0];
  }

  // ---------- Log matching ----------

  // Logs that agree on the term at an index, whenever and wherever they are read, are
  // identical up to it.
  ghost predicate LogsMatch(states: seq<Cluster>) {
    forall i, j, p, q ::
      0 <= i < |states| && 0 <= j < |states| && p in states[i].nodes && q in states[j].nodes ==>
        Agree(states[i].nodes[p].raft.log, states[j].nodes[q].raft.log)
  }

  ghost predicate MatchesLogs(cfg: Config) {
    forall states, acts :: Run(cfg, states, acts) ==> LogsMatch(states)
  }

  lemma RunMatches(cfg: Config, states: seq<Cluster>, acts: seq<Action>)
    requires Sound(cfg) && Run(cfg, states, acts)
    ensures LogsMatch(states)
  {
    hide Run, Sound;
    forall i, j, p, q | 0 <= i < |states| && 0 <= j < |states| && p in states[i].nodes && q in states[j].nodes
      ensures Agree(states[i].nodes[p].raft.log, states[j].nodes[q].raft.log)
    {
      var a, b := states[i].nodes[p].raft.log, states[j].nodes[q].raft.log;
      forall n | 0 <= n < |a| && n < |b| && a[n].term == b[n].term
        ensures a[..n + 1] == b[..n + 1]
      {
        LogsAlwaysMatch(cfg, states, acts, i, p, j, q, n + 1);
      }
    }
  }

  lemma NotMatched(cfg: Config, c: Cluster, a: NodeID, b: NodeID, v: NodeID)
    requires Reached(cfg, c) && Split(c, a, b, v)
    ensures !MatchesLogs(cfg)
  {
    hide Run;
    var states, acts := RunTo(cfg, c);
    assert states[|acts|] == c;
    XIsNotY();
    assert !Agree(c.nodes[a].raft.log, c.nodes[b].raft.log);
    assert a in states[|acts|].nodes && b in states[|acts|].nodes;
    assert !LogsMatch(states);
  }

  // In each configuration logs always match exactly if elections are safe.
  lemma LogMatchingIsExact(cfg: Config)
    requires cfg.Valid()
    ensures MatchesLogs(cfg) <==> cfg.rule == KeepVote || cfg.mode == Baseline || |cfg.members| <= 2
  {
    hide Run, LogsMatch, Split, Reached;
    if Sound(cfg) {
      forall states, acts | Run(cfg, states, acts)
        ensures LogsMatch(states)
      {
        RunMatches(cfg, states, acts);
      }
    } else {
      var c, a, b, v := SomeSplit(cfg);
      NotMatched(cfg, c, a, b, v);
    }
  }

  // ---------- Repair ----------

  // If p leads and q would listen, p's log ends up a prefix of q's.
  ghost predicate Repairs(cfg: Config, c: Cluster, p: NodeID, q: NodeID, draw: nat) {
    p in c.nodes && q in c.nodes ==>
      var x := Pair(c.nodes[p], c.nodes[q]);
      Talking(cfg, x) ==> x.leader.raft.log <= Repaired(cfg, x, draw).follower.raft.log
  }

  ghost predicate AllRepair(cfg: Config, states: seq<Cluster>) {
    forall n, p, q, draw: nat :: 0 <= n < |states| ==> Repairs(cfg, states[n], p, q, draw)
  }

  ghost predicate RepairsFollowers(cfg: Config) {
    forall states, acts :: Run(cfg, states, acts) ==> AllRepair(cfg, states)
  }

  lemma RunRepairs(cfg: Config, states: seq<Cluster>, acts: seq<Action>)
    requires Sound(cfg) && Run(cfg, states, acts)
    ensures AllRepair(cfg, states)
  {
    RunShape(cfg, states, acts);
    hide Run, Sound, Repaired;
    forall n, p, q, draw: nat | 0 <= n < |states|
      ensures Repairs(cfg, states[n], p, q, draw)
    {
      if p in states[n].nodes && q in states[n].nodes && Talking(cfg, Pair(states[n].nodes[p], states[n].nodes[q])) {
        LeadersRepairFollowers(cfg, states, acts, n, p, q, draw);
      }
    }
  }

  lemma NotRepaired(cfg: Config, c: Cluster, a: NodeID, b: NodeID, v: NodeID)
    requires Reached(cfg, c) && Split(c, a, b, v) && b in cfg.members && v in cfg.members && b != v
    ensures !RepairsFollowers(cfg)
  {
    var states, acts := RunTo(cfg, c);
    ReachedWired(cfg, c, b);
    ReachedWired(cfg, c, v);
    hide Run, Repaired, Reached;
    var x := Pair(c.nodes[b], c.nodes[v]);
    XIsNotY();
    TwinsStay(cfg, x, 0);
    assert !Repairs(cfg, c, b, v, 0);
    assert !AllRepair(cfg, states) by {
      assert states[|acts|] == c;
    }
  }

  // In each configuration every leader can repair whoever listens to it exactly if
  // elections are safe.
  lemma RepairIsExact(cfg: Config)
    requires cfg.Valid()
    ensures RepairsFollowers(cfg) <==> cfg.rule == KeepVote || cfg.mode == Baseline || |cfg.members| <= 2
  {
    hide Run, AllRepair, Split, Reached;
    if Sound(cfg) {
      forall states, acts | Run(cfg, states, acts)
        ensures AllRepair(cfg, states)
      {
        RunRepairs(cfg, states, acts);
      }
    } else {
      var c, a, b, v := SomeSplit(cfg);
      NotRepaired(cfg, c, a, b, v);
    }
  }

  // ---------- Commits ----------

  ghost predicate KeepsCommits(cfg: Config) {
    forall states, acts :: Run(cfg, states, acts) ==> CommitsHold(states)
  }

  lemma AlwaysKept(cfg: Config)
    requires Sound(cfg) && AcksAreSafe(cfg)
    ensures KeepsCommits(cfg)
  {
    hide Run, Sound, AcksAreSafe, CommitsHold;
    forall states, acts | Run(cfg, states, acts)
      ensures CommitsHold(states)
    {
      CommitsAreKept(cfg, states, acts);
    }
  }

  lemma NotKept(cfg: Config, c: Cluster, p: NodeID, q: NodeID, n: nat)
    requires Reached(cfg, c) && p in c.nodes && q in c.nodes
    requires Overlooks(c.nodes[q].raft, c.nodes[p].raft) || Disagree(c.nodes[p].raft, c.nodes[q].raft, n)
    ensures !KeepsCommits(cfg)
  {
    hide Run, Overlooks, Disagree;
    var states, acts := RunTo(cfg, c);
    assert states[|acts|] == c;
    assert p in states[|acts|].nodes && q in states[|acts|].nodes;
    assert !Consistent(c.nodes[p].raft, c.nodes[q].raft);
    assert !CommitsHold(states);
  }

  // In each configuration, whatever its timers, what is committed is kept exactly if no
  // majority leaves a member out, or elections are safe and acknowledgements cover only
  // what was vouched for, or there are four members and elections are safe.
  lemma CommitSafetyIsExact(cfg: Config)
    requires cfg.Valid()
    ensures KeepsCommits(cfg) <==>
      || |cfg.members| <= 2
      || ((cfg.rule == KeepVote || cfg.mode == Baseline) && (cfg.ack == Vouched || |cfg.members| == 4))
  {
    hide KeepsCommits, Tight, Overlooks;
    TightIsExact(cfg);
    if Sound(cfg) && AcksAreSafe(cfg) {
      AlwaysKept(cfg);
    } else if Sound(cfg) {
      var c, p, q := Overcommit.CommitsCanBeLost(cfg, "x", "y");
      NotKept(cfg, c, p, q, 0);
    } else {
      var c, a, b, v := SomeSplit(cfg);
      XIsNotY();
      NotKept(cfg, c, a, b, 1);
    }
  }
}
