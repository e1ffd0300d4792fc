/** The safety theorems, over every run of the cluster. */
module Safety {
  import opened Types
  import opened Crypt
  import opened Transcripts
  import opened Logs
  import opened Rafts
  import opened Nodes
  import opened Clusters
  import opened Worlds
  import opened CommitMoves
  import opened Simulation
  import ElectionSafety
  import LogMatching
  import Commitment

  ghost predicate Matched(cfg: Config, c: Cluster, w: World) {
    && c.nodes.Keys == ToSet(cfg.members) && w.nodes.Keys == ToSet(cfg.members)
    && (forall p :: p in c.nodes ==> Synced(cfg, w, p, c.nodes[p]))
    && forall e :: e in c.net ==> OnRecord(cfg, w, e)
  }

  lemma SyncedGrows(cfg: Config, w: World, w': World, p: NodeID, s: NodeState)
    requires Synced(cfg, w, p, s) && Later(w, w') && w'.nodes[p] == w.nodes[p]
    ensures Synced(cfg, w', p, s)
  {
    forall e | e in s.wire.outbox
      ensures OnRecord(cfg, w', e)
    {
      assert OnRecord(cfg, w, e);
    }
  }

  lemma RecordGrows(cfg: Config, w: World, w': World, e: Envelope)
    requires OnRecord(cfg, w, e) && Later(w, w')
    ensures OnRecord(cfg, w', e)
  {
  }

  lemma EmittedOnRecord(cfg: Config, w: World, p: NodeID, s: NodeState)
    requires Synced(cfg, w, p, s)
    ensures forall e :: e in Emitted(s) ==> OnRecord(cfg, w, e)
  {
  }

  // Installing one node's step keeps the cluster matched.
  lemma InstallMatched(cfg: Config, c: Cluster, w: World, p: NodeID, s: NodeState, w': World)
    requires Matched(cfg, c, w) && p in c.nodes && StepOf(w, p, w') && Synced(cfg, w', p, s)
    ensures Matched(cfg, Install(c, p, s), w') && Matched(cfg, c.(nodes := c.nodes[p := s]), w')
  {
    hide OnRecord, Synced;
    forall q | q in c.nodes && q != p
      ensures Synced(cfg, w', q, c.nodes[q])
    {
      SyncedGrows(cfg, w, w', q, c.nodes[q]);
    }
    forall e | e in c.net
      ensures OnRecord(cfg, w', e)
    {
      assert OnRecord(cfg, w, e);
      RecordGrows(cfg, w, w', e);
    }
    EmittedOnRecord(cfg, w', p, s);
  }

  // The configurations in which no acknowledgement can mislead a leader.
  ghost predicate AcksAreSafe(cfg: Config) {
    cfg.ack == Vouched || Tight(cfg)
  }

  lemma StepMatched(cfg: Config, c: Cluster, a: Action, w: World, honest: bool) returns (w': World)
    requires cfg.Valid() && Sound(cfg) && Enabled(cfg, c, a)
    requires Matched(cfg, c, w) && Good(cfg, w, honest)
    requires honest ==> AcksAreSafe(cfg) || HonestStep(cfg, c, a)
    ensures Matched(cfg, Apply(cfg, c, a), w') && Good(cfg, w', honest) && Later(w, w')
  {
    hide ElectionSafety.Inv, LogMatching.Inv, Commitment.Inv, Tick, Deliver, Synced, OnRecord;
    match a
    case TickAt(p, d) =>
      w' := SimTick(cfg, w, p, c.nodes[p], d, honest);
      InstallMatched(cfg, c, w, p, Tick(cfg, c.nodes[p], d), w');
    case DeliverTo(env, d) =>
      AcceptedIsOnRecord(cfg, c, w, env);
      TakenHonestly(cfg, c, env, d, honest);
      w' := SimDeliver(cfg, w, env.to, c.nodes[env.to], env, d, honest);
      InstallMatched(cfg, c, w, env.to, Deliver(cfg, c.nodes[env.to], env, d), w');
    case ProposeAt(p, cmd) =>
      w' := SimPropose(cfg, w, p, c.nodes[p], cmd, honest);
      InstallMatched(cfg, c, w, p, Propose(cfg, c.nodes[p], cmd), w');
  }

  // Whatever the adversary builds, a replica only accepts what was really sent.
  lemma AcceptedIsOnRecord(cfg: Config, c: Cluster, w: World, env: Envelope)
    requires Matched(cfg, c, w) && Forgeable(c.net, env) && env.to in c.nodes
    ensures Accepts(cfg, c.nodes[env.to], env) ==> OnRecord(cfg, w, env)
  {
    OnlySentMessagesOpen(cfg.ring, c.net, env);
  }

  lemma TakenHonestly(cfg: Config, c: Cluster, env: Envelope, d: nat, honest: bool)
    requires env.to in c.nodes
    requires honest ==> AcksAreSafe(cfg) || HonestStep(cfg, c, DeliverTo(env, d))
    ensures honest && TakesRequest(cfg, c.nodes[env.to], env) ==>
      HonestAck(cfg, c.nodes[env.to].raft.log, env.payload)
  {
    if honest && TakesRequest(cfg, c.nodes[env.to], env) {
      SpliceLength(c.nodes[env.to].raft.log, env.payload.prevIndex, env.payload.entries);
    }
  }

  lemma SimPropose(cfg: Config, w: World, p: NodeID, s: NodeState, cmd: string, honest: bool) returns (w': World)
    requires Good(cfg, w, honest) && Synced(cfg, w, p, s) && w.nodes.Keys == ToSet(cfg.members)
    ensures Good(cfg, w', honest) && Synced(cfg, w', p, Propose(cfg, s, cmd)) && StepOf(w, p, w')
  {
    hide ElectionSafety.Inv, LogMatching.Inv, Commitment.Inv, BroadcastAppend;
    if s.raft.role == Leader {
      var w1 := Worlds.ProposeAt(w, p, cmd);
      GoodPropose(cfg, w, p, cmd, honest);
      var t := s.(raft := s.raft.(log := s.raft.log + [Entry(s.raft.term, cmd)]));
      w' := SayAppends(cfg, w1, p, t, |cfg.members|, honest);
      StepsCompose(w, p, w1, w');
    } else {
      w' := w;
    }
  }

  // ---------- Runs ----------

  function FirstWorld(cfg: Config): World {
    World(map p | p in cfg.members :: FRESH_RAFT, {}, map[], map[])
  }

  lemma FirstElections(cfg: Config)
    ensures ElectionSafety.Inv(cfg, FirstWorld(cfg))
  {
  }

  lemma FirstCommitment(cfg: Config)
    ensures Commitment.Inv(cfg, FirstWorld(cfg))
  {
    var w := FirstWorld(cfg);
    hide Commitment.Committed, Commitment.Overruled, Commitment.Protects, Commitment.OwnEntry;
    assert Commitment.AcksKept(w) && Commitment.VotesInformed(w) && Commitment.ElectionsInformed(w);
  }

  lemma NewNodeSynced(cfg: Config, p: NodeID, d: nat)
    requires cfg.Valid() && p in cfg.members
    ensures Synced(cfg, FirstWorld(cfg), p, NewNode(cfg, p, cfg.ring[p], d))
  {
    var s := NewNode(cfg, p, cfg.ring[p], d);
    assert s.wire.sendTr.Keys == ToSet(cfg.members) - {p};
    assert s.wire.recvTr.Keys == ToSet(cfg.members) - {p};
  }

  lemma FirstWorldGood(cfg: Config, c: Cluster)
    requires cfg.Valid() && Sound(cfg) && Init(cfg, c)
    ensures Good(cfg, FirstWorld(cfg), true) && Good(cfg, FirstWorld(cfg), false)
    ensures Matched(cfg, c, FirstWorld(cfg))
  {
    var w := FirstWorld(cfg);
    FirstElections(cfg);
    FirstCommitment(cfg);
    assert LogMatching.Inv(w);
    hide ElectionSafety.Inv, Commitment.Inv, LogMatching.Inv;
    forall p | p in c.nodes
      ensures Synced(cfg, w, p, c.nodes[p])
    {
      assert BeginsAt(cfg, c, p);
      var d: nat :| d < cfg.timeout && c.nodes[p] == NewNode(cfg, p, cfg.ring[p], d);
      NewNodeSynced(cfg, p, d);
    }
  }

  // What a node's state says of the history, then and forever after.
  ghost predicate Witnessed(cfg: Config, w: World, p: NodeID, r: Raft, honest: bool) {
    && LogMatching.Rooted(w.llog, r.log) && LogMatching.TermsBelow(r.log, r.term + 1)
    && (r.role == Leader ==>
          && r.term in w.elect && r.term in w.llog && w.elect[r.term].leader == p
          && LogMatching.StartsWith(w.llog[r.term], r.log)
          && LogMatching.StartsWith(r.log, w.elect[r.term].init))
    && (honest ==> Commitment.Covered(cfg, w, r.log, r.commitIndex, r.term))
  }

  lemma WitnessedNow(cfg: Config, w: World, p: NodeID, honest: bool)
    requires Good(cfg, w, honest) && p in w.nodes
    ensures Witnessed(cfg, w, p, w.nodes[p], honest)
  {
    LogMatching.NodeLogFacts(w, p);
    hide LogMatching.Inv, LogMatching.Rooted, LogMatching.TermsBelow, Commitment.Covered;
    if honest {
      assert Commitment.NodesCovered(cfg, w);
    }
    hide Commitment.Inv;
  }

  lemma WitnessedLater(cfg: Config, w: World, w': World, p: NodeID, r: Raft, honest: bool)
    requires Witnessed(cfg, w, p, r, honest) && Later(w, w')
    ensures Witnessed(cfg, w', p, r, honest)
  {
    LogMatching.RootedGrows(w.llog, w'.llog, r.log);
    if honest {
      CoveredGrows(cfg, w, w', r.log, r.commitIndex, r.term, r.log, r.term);
    }
    hide Commitment.Covered, LogMatching.Rooted;
    if r.role == Leader {
      var a, b := w.llog[r.term], w'.llog[r.term];
      assert LogMatching.StartsWith(b, a);
      assert b[..|r.log|] == b[..|a|][..|r.log|];
    }
  }

  ghost predicate Explained(cfg: Config, w: World, states: seq<Cluster>, honest: bool) {
    forall i, p :: 0 <= i < |states| && p in states[i].nodes ==>
      Witnessed(cfg, w, p, states[i].nodes[p].raft, honest)
  }

  lemma RunPrefix(cfg: Config, states: seq<Cluster>, acts: seq<Action>, n: nat)
    requires Run(cfg, states, acts) && n <= |acts|
    ensures Run(cfg, states[..n + 1], acts[..n])
    ensures HonestRun(cfg, states, acts) ==> HonestRun(cfg, states[..n + 1], acts[..n])
  {
    hide Init, Next, HonestStep;
    var ss, aa := states[..n + 1], acts[..n];
    forall i: nat | i < n
      ensures Taken(cfg, ss, aa, i)
    {
      assert Taken(cfg, states, acts, i);
    }
    if HonestRun(cfg, states, acts) {
      forall i: nat
        ensures HonestAt(cfg, ss, aa, i)
      {
        assert HonestAt(cfg, states, acts, i);
      }
    }
  }

  // One history explains every state of a run.
  lemma {:induction false} Explain(cfg: Config, states: seq<Cluster>, acts: seq<Action>,
        honest: bool) returns (w: World)
    requires Sound(cfg) && Run(cfg, states, acts) && (honest ==> AcksAreSafe(cfg) || HonestRun(cfg, states, acts))
    ensures Good(cfg, w, honest) && Matched(cfg, states[|acts|], w) && Explained(cfg, w, states, honest)
  {
    hide Good, Synced, OnRecord, Witnessed, HonestStep, Init, Enabled, Apply;
    if acts == [] {
      FirstWorldGood(cfg, states[0]);
      w := FirstWorld(cfg);
      MatchedWitnessed(cfg, states[0], w, honest);
    } else {
      var n := |acts| - 1;
      RunPrefix(cfg, states, acts, n);
      var w0 := Explain(cfg, states[..n + 1], acts[..n], honest);
      assert states[..n + 1][n] == states[n] && Taken(cfg, states, acts, n);
      assert HonestRun(cfg, states, acts) ==> HonestAt(cfg, states, acts, n);
      w := StepMatched(cfg, states[n], acts[n], w0, honest);
      MatchedWitnessed(cfg, states[n + 1], w, honest);
      ExplainedSnoc(cfg, w0, w, states, honest);
    }
  }

  lemma ExplainedSnoc(cfg: Config, w0: World, w: World, states: seq<Cluster>, honest: bool)
    requires states != [] && Later(w0, w)
    requires Explained(cfg, w0, states[..|states| - 1], honest)
    requires var c := states[|states| - 1];
      forall p :: p in c.nodes ==> Witnessed(cfg, w, p, c.nodes[p].raft, honest)
    ensures Explained(cfg, w, states, honest)
  {
    hide Witnessed, Later;
    var before := states[..|states| - 1];
    forall i, p | 0 <= i < |states| && p in states[i].nodes
      ensures Witnessed(cfg, w, p, states[i].nodes[p].raft, honest)
    {
      if i < |before| {
        assert before[i] == states[i];
        assert Witnessed(cfg, w0, p, before[i].nodes[p].raft, honest);
        WitnessedLater(cfg, w0, w, p, states[i].nodes[p].raft, honest);
      }
    }
  }

  lemma MatchedWitnessed(cfg: Config, c: Cluster, w: World, honest: bool)
    requires Good(cfg, w, honest) && Matched(cfg, c, w)
    ensures forall p :: p in c.nodes ==> Witnessed(cfg, w, p, c.nodes[p].raft, honest)
  {
    hide Good, Witnessed;
    forall p | p in c.nodes
      ensures Witnessed(cfg, w, p, c.nodes[p].raft, honest)
    {
      assert Synced(cfg, w, p, c.nodes[p]);
      WitnessedNow(cfg, w, p, honest);
    }
  }

  // ---------- Theorems ----------

  // No two nodes are ever leader in the same term, at the same time or not.
  ghost predicate OneLeaderPerTerm(states: seq<Cluster>) {
    forall i, j, p, q ::
      0 <= i < |states| && 0 <= j < |states| && p in states[i].nodes && q in states[j].nodes ==>
        var a, b := states[i].nodes[p].raft, states[j].nodes[q].raft;
        a.role == Leader && b.role == Leader && a.term == b.term ==> p == q
  }

  lemma LeadersCoincide(cfg: Config, w: World, p: NodeID, a: Raft, q: NodeID, b: Raft)
    requires Witnessed(cfg, w, p, a, false) && Witnessed(cfg, w, q, b, false)
    ensures a.role == Leader && b.role == Leader && a.term == b.term ==> p == q
  {
  }

  lemma ExplainedAt(cfg: Config, w: World, states: seq<Cluster>, honest: bool, i: nat, p: NodeID)
    requires Explained(cfg, w, states, honest) && i < |states| && p in states[i].nodes
    ensures Witnessed(cfg, w, p, states[i].nodes[p].raft, honest)
  {
  }

  lemma ElectionsAreSafe(cfg: Config, states: seq<Cluster>, acts: seq<Action>)
    requires Sound(cfg) && Run(cfg, states, acts)
    ensures OneLeaderPerTerm(states)
  {
    hide Good, Matched, Run, Witnessed, Sound, Explained;
    var w := Explain(cfg, states, acts, false);
    forall i, j, p, q | 0 <= i < |states| && 0 <= j < |states| && p in states[i].nodes && q in states[j].nodes
      ensures var a, b := states[i].nodes[p].raft, states[j].nodes[q].raft;
        a.role == Leader && b.role == Leader && a.term == b.term ==> p == q
    {
      var a, b := states[i].nodes[p].raft, states[j].nodes[q].raft;
      ExplainedAt(cfg, w, states, false, i, p);
      ExplainedAt(cfg, w, states, false, j, q);
      LeadersCoincide(cfg, w, p, a, q, b);
    }
  }

  // Logs that agree on the term at an index, whenever and wherever they are
  // read, are identical up to that index.
  lemma LogsAlwaysMatch(cfg: Config, states: seq<Cluster>, acts: seq<Action>,
                        i: nat, p: NodeID, j: nat, q: NodeID, n: nat)
    requires Sound(cfg) && Run(cfg, states, acts)
    requires i < |states| && j < |states| && p in states[i].nodes && q in states[j].nodes
    requires var a, b := states[i].nodes[p].raft.log, states[j].nodes[q].raft.log;
      1 <= n <= |a| && n <= |b| && a[n - 1].term == b[n - 1].term
    ensures states[i].nodes[p].raft.log[..n] == states[j].nodes[q].raft.log[..n]
  {
    hide Good, Matched, Run;
    var w := Explain(cfg, states, acts, false);
    var a, b := states[i].nodes[p].raft, states[j].nodes[q].raft;
    assert Witnessed(cfg, w, p, a, false) && Witnessed(cfg, w, q, b, false);
    hide LogMatching.StartsWith, Commitment.Covered;
    LogMatching.SameTermSamePrefix(w.llog, a.log, b.log, n - 1);
  }

  // Whatever any node has committed is in the log of every leader of a later
  // term, earlier or later in the run.
  lemma LeadersAreComplete(cfg: Config, states: seq<Cluster>, acts: seq<Action>,
                           i: nat, p: NodeID, j: nat, q: NodeID)
    requires Sound(cfg) && Run(cfg, states, acts) && (AcksAreSafe(cfg) || HonestRun(cfg, states, acts))
    requires i < |states| && j < |states| && p in states[i].nodes && q in states[j].nodes
    requires states[j].nodes[q].raft.role == Leader
    requires states[j].nodes[q].raft.term > states[i].nodes[p].raft.term
    ensures var a, b := states[i].nodes[p].raft, states[j].nodes[q].raft;
      a.commitIndex <= |a.log| && a.log[..a.commitIndex] <= b.log
  {
    hide Good, Matched, Init, Apply, Enabled, HonestStep, LogMatching.Rooted;
    var w := Explain(cfg, states, acts, true);
    var a, b := states[i].nodes[p].raft, states[j].nodes[q].raft;
    assert Witnessed(cfg, w, p, a, true) && Witnessed(cfg, w, q, b, true);
    CoveredInLaterLeader(cfg, w, a, b);
  }

  lemma CommittedLater(cfg: Config, w: World, t: nat, n: nat, u: nat)
    requires cfg.Valid() && Good(cfg, w, true) && Commitment.Committed(cfg, w, t, n) && u in w.elect
    ensures u > t ==> LogMatching.StartsWith(w.elect[u].init, Commitment.Upto(w.llog, t, n))
    ensures u >= t ==> u in w.llog && LogMatching.StartsWith(w.llog[u], Commitment.Upto(w.llog, t, n))
  {
    assert ElectionSafety.ElectionsWon(cfg, w) && LogMatching.Histories(w) && Commitment.ElectionsInformed(w);
    assert w.nodes.Keys == ToSet(cfg.members);
    hide Good, ElectionSafety.ElectionsWon, Commitment.ElectionsInformed, Commitment.Committed;
    if u > t {
      Commitment.CommittedIsInherited(cfg, w, t, n, u);
    }
    if u >= t {
      CommittedIsKept(cfg, w, t, n, u);
    }
  }

  lemma CoveredInLaterLeader(cfg: Config, w: World, a: Raft, b: Raft)
    requires cfg.Valid() && Good(cfg, w, true)
    requires Commitment.Covered(cfg, w, a.log, a.commitIndex, a.term)
    requires b.term in w.elect && b.term > a.term
    requires LogMatching.StartsWith(b.log, w.elect[b.term].init)
    ensures a.log[..a.commitIndex] <= b.log
  {
    hide Good;
    var c := a.commitIndex;
    if c > 0 {
      var t: nat, n: nat :| Commitment.Committed(cfg, w, t, n) && t <= a.term && c <= n
        && a.log[..c] == Commitment.Upto(w.llog, t, n)[..c];
      CommittedLater(cfg, w, t, n, b.term);
      assert Commitment.OwnEntry(w.llog, t, n);
      hide Commitment.Committed;
      var init, u := w.elect[b.term].init, Commitment.Upto(w.llog, t, n);
      assert b.log[..c] == b.log[..|init|][..c];
      assert init[..n][..c] == init[..c];
    }
  }

  // No two nodes ever commit different entries at the same index.
  lemma CommitsAgree(cfg: Config, states: seq<Cluster>, acts: seq<Action>,
                     i: nat, p: NodeID, j: nat, q: NodeID, n: nat)
    requires Sound(cfg) && Run(cfg, states, acts) && (AcksAreSafe(cfg) || HonestRun(cfg, states, acts))
    requires i < |states| && j < |states| && p in states[i].nodes && q in states[j].nodes
    requires 1 <= n <= states[i].nodes[p].raft.commitIndex && n <= states[j].nodes[q].raft.commitIndex
    ensures var a, b := states[i].nodes[p].raft.log, states[j].nodes[q].raft.log;
      n <= |a| && n <= |b| && a[n - 1] == b[n - 1]
  {
    hide Good, Matched, Init, Apply, Enabled, HonestStep, Commitment.Covered, LogMatching.Rooted;
    var w := Explain(cfg, states, acts, true);
    var a, b := states[i].nodes[p].raft, states[j].nodes[q].raft;
    assert Witnessed(cfg, w, p, a, true) && Witnessed(cfg, w, q, b, true);
    CoveredAgree(cfg, w, a, b, n);
  }

  lemma CoveredAgree(cfg: Config, w: World, a: Raft, b: Raft, n: nat)
    requires cfg.Valid() && Good(cfg, w, true)
    requires Commitment.Covered(cfg, w, a.log, a.commitIndex, a.term)
    requires Commitment.Covered(cfg, w, b.log, b.commitIndex, b.term)
    requires 1 <= n <= a.commitIndex && n <= b.commitIndex
    ensures n <= |a.log| && n <= |b.log| && a.log[n - 1] == b.log[n - 1]
  {
    hide Good;
    var t: nat, k: nat :| Commitment.Committed(cfg, w, t, k) && t <= a.term && a.commitIndex <= k
      && a.log[..a.commitIndex] == Commitment.Upto(w.llog, t, k)[..a.commitIndex];
    var u: nat, l: nat :| Commitment.Committed(cfg, w, u, l) && u <= b.term && b.commitIndex <= l
      && b.log[..b.commitIndex] == Commitment.Upto(w.llog, u, l)[..b.commitIndex];
    CommittedLater(cfg, w, t, k, u);
    CommittedLater(cfg, w, u, l, t);
    assert Commitment.OwnEntry(w.llog, t, k) && Commitment.OwnEntry(w.llog, u, l);
    hide Commitment.Committed;
    assert a.log[n - 1] == a.log[..a.commitIndex][n - 1] == w.llog[t][n - 1];
    assert b.log[n - 1] == b.log[..b.commitIndex][n - 1] == w.llog[u][n - 1];
  }

  // ---------- What keeping commits means ----------

  // Something a has committed is missing from the log of b, the leader of a later term.
  ghost predicate Overlooks(b: Raft, a: Raft) {
    b.role == Leader && b.term > a.term && !(a.commitIndex <= |a.log| && a.log[..a.commitIndex] <= b.log)
  }

  // Both have committed index n, and not the same entry there.
  ghost predicate Disagree(a: Raft, b: Raft, n: nat) {
    && 1 <= n <= a.commitIndex && n <= b.commitIndex
    && !(n <= |a.log| && n <= |b.log| && a.log[n - 1] == b.log[n - 1])
  }

  ghost predicate Consistent(a: Raft, b: Raft) {
    !Overlooks(b, a) && forall n: nat :: !Disagree(a, b, n)
  }

  // At any two moments of the run, nothing committed is overlooked or disagreed about.
  ghost predicate CommitsHold(states: seq<Cluster>) {
    forall i, j, p, q ::
      0 <= i < |states| && 0 <= j < |states| && p in states[i].nodes && q in states[j].nodes ==>
        Consistent(states[i].nodes[p].raft, states[j].nodes[q].raft)
  }

  lemma MomentsAreConsistent(cfg: Config, states: seq<Cluster>, acts: seq<Action>, i: nat, p: NodeID, j: nat, q: NodeID)
    requires Sound(cfg) && Run(cfg, states, acts) && (AcksAreSafe(cfg) || HonestRun(cfg, states, acts))
    requires i < |states| && j < |states| && p in states[i].nodes && q in states[j].nodes
    ensures Consistent(states[i].nodes[p].raft, states[j].nodes[q].raft)
  {
    hide Run, HonestRun, Sound, AcksAreSafe;
    var a, b := states[i].nodes[p].raft, states[j].nodes[q].raft;
    if b.role == Leader && b.term > a.term {
      LeadersAreComplete(cfg, states, acts, i, p, j, q);
    }
    forall n: nat
      ensures !Disagree(a, b, n)
    {
      if 1 <= n <= a.commitIndex && n <= b.commitIndex {
        CommitsAgree(cfg, states, acts, i, p, j, q, n);
      }
    }
  }

  lemma CommitsAreKept(cfg: Config, states: seq<Cluster>, acts: seq<Action>)
    requires Sound(cfg) && Run(cfg, states, acts) && (AcksAreSafe(cfg) || HonestRun(cfg, states, acts))
    ensures CommitsHold(states)
  {
    hide Run, HonestRun, Sound, AcksAreSafe, Consistent;
    forall i, j, p, q | 0 <= i < |states| && 0 <= j < |states| && p in states[i].nodes && q in states[j].nodes
      ensures Consistent(states[i].nodes[p].raft, states[j].nodes[q].raft)
    {
      MomentsAreConsistent(cfg, states, acts, i, p, j, q);
    }
  }
}
