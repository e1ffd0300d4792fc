/** What becomes of a node's log in any run, whether or not elections are safe: its
    terms stay in order, and while a leader's term lasts it only adds to it. */
module LogHistories {
  import opened Types
  import opened Crypt
  import opened Transcripts
  import opened Logs
  import opened Rafts
  import opened Nodes
  import opened Clusters
  import opened Traffic
  import opened Histories
  import opened Requests
  import opened Worlds
  import opened Safety
  import Simulation

  // ---------- One step ----------

  // The log stays; nobody becomes a candidate in the term it was in, or a leader but
  // from a candidate of the same term.
  ghost predicate Turned(r: Raft, r': Raft) {
    && r'.log == r.log && r'.term >= r.term
    && (r'.role == Candidate ==> r'.term > r.term || (r'.term == r.term && r.role == Candidate))
    && (r'.role == Leader ==> r'.term == r.term && (r.role == Leader || r.role == Candidate))
  }

  lemma CampaignTurns(cfg: Config, s: NodeState, draw: nat)
    ensures var t := StartCampaign(cfg, s, draw); t.raft == Rafts.Campaign(s.raft, s.id)
  {
    var c := ResetTimer(cfg, s.(raft := Rafts.Campaign(s.raft, s.id),
                                stats := s.stats.(termBumps := s.stats.termBumps + 1)), draw);
    SameOnlySends(cfg, c, Ballot(c, false), |cfg.members|);
    hide BroadcastSame;
  }

  lemma ElectionTurns(cfg: Config, s: NodeState, draw: nat)
    requires s.raft.role != Leader
    ensures Turned(s.raft, BeginElection(cfg, s, draw).raft)
  {
    var e := s.(stats := s.stats.(electionsStarted := s.stats.electionsStarted + 1));
    CampaignTurns(cfg, e, draw);
    var c := ResetTimer(cfg, e.(raft := Rafts.PreCampaign(e.raft, e.id)), draw);
    SameOnlySends(cfg, c, Ballot(c, true), |cfg.members|);
    hide BroadcastSame, StartCampaign;
  }

  lemma LeaderTurns(cfg: Config, s: NodeState, draw: nat)
    requires s.raft.role == Leader
    ensures Turned(s.raft, LeaderTick(cfg, s, draw).raft)
  {
    AppendOnlySends(cfg, s.(clock := s.clock.(heartbeatElapsed := 0)), |cfg.members|);
    hide BroadcastAppend;
  }

  lemma GossipTurns(cfg: Config, s: NodeState)
    ensures Gossip(cfg, s).raft == s.raft
  {
    var d := DetectSilence(cfg, s, |cfg.members|);
    Simulation.SilenceOnlyLinks(cfg, s, |cfg.members|);
    var z := d.(clock := d.clock.(probeElapsed := 0));
    SameOnlySends(cfg, z, ProbeReq(z.raft.term, z.id, z.links.inboundUp), |cfg.members|);
    hide DetectSilence, BroadcastSame;
  }

  lemma TickTurns(cfg: Config, s: NodeState, draw: nat)
    ensures Turned(s.raft, Tick(cfg, s, draw).raft)
  {
    hide LeaderTick, BeginElection, Gossip;
    var z := StartTick(s);
    if z.raft.role == Leader {
      LeaderTurns(cfg, z, draw);
    } else {
      ElectionTurns(cfg, z, draw);
    }
    GossipTurns(cfg, RoleTick(cfg, z, draw));
  }

  // What taking a request leaves: a follower of its term, with its entries spliced in.
  ghost predicate TookIn(r: Raft, r': Raft, m: Payload)
    requires m.AppendReq?
  {
    && m.term >= r.term && Matches(r.log, m.prevIndex, m.prevTerm) && m.prevIndex <= |r.log|
    && r'.role == Follower && r'.term == m.term && r'.log == Splice(r.log, m.prevIndex, m.entries)
  }

  lemma RequestTurns(cfg: Config, s: NodeState, from: NodeID, m: Payload, draw: nat)
    requires m.AppendReq?
    ensures var r' := HandleAppendReq(cfg, s, from, m, draw).raft; Turned(s.raft, r') || TookIn(s.raft, r', m)
  {
    hide Splice;
  }

  lemma VoteRespTurns(cfg: Config, s: NodeState, from: NodeID, m: Payload, draw: nat)
    requires m.VoteResp?
    ensures Turned(s.raft, HandleVoteResp(cfg, s, from, m, draw).raft)
  {
    CampaignTurns(cfg, s.(raft := s.raft.(preVotes := s.raft.preVotes + {from})), draw);
    var v := s.(raft := s.raft.(votes := s.raft.votes + {from}));
    var l := ClearHeard(v.(raft := Rafts.Elected(v.raft, v.id, cfg.members),
                           clock := v.clock.(heartbeatElapsed := 0)));
    AppendOnlySends(cfg, l, |cfg.members|);
    hide BroadcastAppend, StartCampaign;
  }

  lemma OthersTurn(cfg: Config, s: NodeState, from: NodeID, m: Payload, draw: nat)
    requires cfg.Valid()
    ensures m.VoteReq? ==> Turned(s.raft, HandleVoteReq(cfg, s, from, m, draw).raft)
    ensures m.AppendResp? ==> Turned(s.raft, HandleAppendResp(cfg, s, from, m, draw).raft)
    ensures m.ProbeReq? ==> HandleProbeReq(cfg, s, from, m).raft == s.raft
  {
    hide CommitCandidate, MergeInbound;
  }

  lemma DeliverTurns(cfg: Config, s: NodeState, env: Envelope, draw: nat)
    requires cfg.Valid()
    ensures var r' := Deliver(cfg, s, env, draw).raft;
      || Turned(s.raft, r')
      || (Accepts(cfg, s, env) && env.payload.AppendReq? && TookIn(s.raft, r', env.payload))
  {
    hide HandleVoteResp, HandleAppendReq, HandleAppendResp, HandleVoteReq, HandleProbeReq, MergeInbound, Judge;
    hide Received, Splice;
    if Accepts(cfg, s, env) {
      var h, m := Heard(s.(wire := s.wire.(outbox := [])), env, cfg.ring), env.payload;
      OthersTurn(cfg, h, env.from, m, draw);
      if m.AppendReq? {
        RequestTurns(cfg, h, env.from, m, draw);
      } else if m.VoteResp? {
        VoteRespTurns(cfg, h, env.from, m, draw);
      }
    }
  }

  // A leader's log with one more entry of its term.
  ghost predicate Extended(r: Raft, r': Raft) {
    r.role == Leader && r'.role == Leader && r'.term == r.term && exists cmd :: r'.log == r.log + [Entry(r.term, cmd)]
  }

  lemma ProposeTurns(cfg: Config, s: NodeState, cmd: string)
    ensures var r' := Propose(cfg, s, cmd).raft; Turned(s.raft, r') || Extended(s.raft, r')
  {
    AppendOnlySends(cfg, s.(raft := s.raft.(log := s.raft.log + [Entry(s.raft.term, cmd)])), |cfg.members|);
    hide BroadcastAppend;
  }

  // Every way a step can change a node: nothing else touches a log.
  lemma StepTurns(cfg: Config, states: seq<Cluster>, acts: seq<Action>, n: nat, p: NodeID)
    requires Run(cfg, states, acts) && n < |acts| && p in states[n].nodes
    ensures p in states[n + 1].nodes
    ensures var r, r' := states[n].nodes[p].raft, states[n + 1].nodes[p].raft;
      || Turned(r, r') || Extended(r, r')
      || (acts[n].DeliverTo? && acts[n].env.payload.AppendReq? && TookIn(r, r', acts[n].env.payload)
          && AcceptedAt(cfg, states, acts, p, acts[n].env.from, n))
  {
    hide Init, Next, Tick, Deliver, Propose, WiredAt, Turned, Extended, TookIn, Accepts;
    RunIsWired(cfg, states, acts, n);
    StepFacts(cfg, states, acts, n);
    var s := states[n].nodes[p];
    if p == Actor(acts[n]) {
      match acts[n] {
        case TickAt(_, d) => TickTurns(cfg, s, d);
        case DeliverTo(env, d) => DeliverTurns(cfg, s, env, d);
        case ProposeAt(_, cmd) => ProposeTurns(cfg, s, cmd);
      }
    } else {
      SameTurned(s.raft);
    }
  }

  lemma SameTurned(r: Raft)
    ensures Turned(r, r)
  {
  }

  // ---------- Terms in order ----------

  // Terms never fall along the log; they start at 1 and never pass t.
  ghost predicate InOrder(log: Log, t: nat) {
    Nondecreasing(log) && forall k :: 0 <= k < |log| ==> 1 <= log[k].term <= t
  }

  // And whoever stands or leads has come to a term past 0.
  ghost predicate Sorted(r: Raft) {
    InOrder(r.log, r.term) && (r.role == Candidate || r.role == Leader ==> r.term >= 1)
  }

  // Two ordered logs that agree on the term where they are joined make an ordered one.
  lemma JoinedInOrder(log: Log, lead: Log, n: nat, t: nat)
    requires InOrder(log, t) && InOrder(lead, t) && n <= |log| && n <= |lead|
    requires n > 0 ==> log[n - 1].term == lead[n - 1].term
    ensures InOrder(log[..n] + lead[n..], t)
  {
    var s := log[..n] + lead[n..];
    forall i, j | 0 <= i < j < |s|
      ensures s[i].term <= s[j].term
    {
      if i < n <= j {
        assert log[i].term <= log[n - 1].term == lead[n - 1].term <= lead[j].term;
      }
    }
  }

  lemma SplicedShape(lead: Log, log: Log, prev: nat, k: nat)
    requires prev <= |log| && prev <= |lead| && TermAt(log, prev) == TermAt(lead, prev)
    requires k == Agreeing(log, prev, lead[prev..]) && prev + k < |lead|
    ensures var n := prev + k;
      && n <= |log| && Splice(log, prev, lead[prev..]) == log[..n] + lead[n..]
      && (n > 0 ==> log[n - 1].term == lead[n - 1].term)
  {
    hide Agreeing;
    var entries := lead[prev..];
    assert entries[k..] == lead[prev + k..];
    if k > 0 {
      assert log[prev + (k - 1)].term == entries[k - 1].term;
    }
  }

  // What a leader with an ordered log asks a follower to take keeps its log in order.
  lemma SplicedInOrder(lead: Log, log: Log, m: Payload, t: nat)
    requires m.AppendReq? && Quotes(lead, m) && InOrder(lead, m.term) && InOrder(log, t) && t <= m.term
    requires Matches(log, m.prevIndex, m.prevTerm) && m.prevIndex <= |log|
    ensures InOrder(Splice(log, m.prevIndex, m.entries), m.term)
  {
    var k := Agreeing(log, m.prevIndex, m.entries);
    if k < |m.entries| {
      SplicedShape(lead, log, m.prevIndex, k);
      JoinedInOrder(log, lead, m.prevIndex + k, m.term);
      hide InOrder;
    }
    hide Quotes, Matches;
  }

  lemma SameNodes(cfg: Config, states: seq<Cluster>, acts: seq<Action>, i: nat, j: nat)
    requires Run(cfg, states, acts) && i <= |acts| && j <= |acts|
    ensures i < |states| && j < |states| && states[i].nodes.Keys == states[j].nodes.Keys
  {
    hide Init, Next, WiredAt;
    RunIsWired(cfg, states, acts, i);
    RunIsWired(cfg, states, acts, j);
  }

  lemma {:induction false} SortedAlways(cfg: Config, states: seq<Cluster>, acts: seq<Action>, n: nat, p: NodeID)
    requires Run(cfg, states, acts) && n < |states| && p in states[n].nodes
    ensures Sorted(states[n].nodes[p].raft)
    decreases n
  {
    hide Run, Init, Next, Turned, Extended, TookIn, SpokenBy, Sorted, AcceptedAt, SentAt;
    RunShape(cfg, states, acts);
    if n == 0 {
      FirstSorted(cfg, states, acts, p);
      return;
    }
    SameNodes(cfg, states, acts, n, n - 1);
    SortedAlways(cfg, states, acts, n - 1, p);
    StepTurns(cfg, states, acts, n - 1, p);
    var r, r' := states[n - 1].nodes[p].raft, states[n].nodes[p].raft;
    if Turned(r, r') || Extended(r, r') {
      SortedStep(r, r');
    } else {
      var m := acts[n - 1].env.payload;
      var i, q := AcceptedIsSpoken(cfg, states, acts, p, n - 1);
      SortedAlways(cfg, states, acts, i, q);
      SortedTakes(states[i].nodes[q].raft, q, r, r', m);
    }
  }

  lemma FirstSorted(cfg: Config, states: seq<Cluster>, acts: seq<Action>, p: NodeID)
    requires Run(cfg, states, acts) && p in states[0].nodes
    ensures Sorted(states[0].nodes[p].raft)
  {
    assert BeginsAt(cfg, states[0], p);
  }

  lemma SortedStep(r: Raft, r': Raft)
    requires Sorted(r) && (Turned(r, r') || Extended(r, r'))
    ensures Sorted(r')
  {
  }

  // An accepted request was spoken, before, by a leader of its term.
  lemma AcceptedIsSpoken(cfg: Config, states: seq<Cluster>, acts: seq<Action>, p: NodeID, n: nat)
    returns (i: nat, q: NodeID)
    requires Run(cfg, states, acts) && n < |acts| && acts[n].DeliverTo? && acts[n].env.payload.AppendReq?
    requires AcceptedAt(cfg, states, acts, p, acts[n].env.from, n)
    ensures i <= n && i < |states| && q in states[i].nodes
    ensures SpokenBy(states[i].nodes[q].raft, q, acts[n].env.payload)
  {
    hide Init, Next, SpokenBy, AcceptedAt;
    var e := acts[n].env;
    q := e.from;
    var k := AcceptedWasSent(cfg, states, acts, p, q, n);
    i := SentIsSpoken(cfg, states, acts, e, k);
  }

  lemma SortedTakes(lead: Raft, q: NodeID, r: Raft, r': Raft, m: Payload)
    requires m.AppendReq? && SpokenBy(lead, q, m) && Sorted(lead) && Sorted(r) && TookIn(r, r', m)
    ensures Sorted(r')
  {
    hide Splice, InOrder, Quotes, Matches;
    SplicedInOrder(lead.log, r.log, m, r.term);
  }

  // Along every log, in every reachable state of every configuration, terms never
  // fall; they start at 1 and never pass the node's own.
  lemma LogTermsAreOrdered(cfg: Config, states: seq<Cluster>, acts: seq<Action>, i: nat, p: NodeID)
    requires Run(cfg, states, acts) && i < |states| && p in states[i].nodes
    ensures var r := states[i].nodes[p].raft;
      Nondecreasing(r.log) && forall k :: 0 <= k < |r.log| ==> 1 <= r.log[k].term <= r.term
  {
    hide Run;
    SortedAlways(cfg, states, acts, i, p);
  }

  // ---------- Leaders only append ----------

  // Once a node has led term t with this log, it never stands in that term again, and
  // whenever it leads it the log is still there.
  ghost predicate Keeps(r: Raft, t: nat, log: Log) {
    r.term > t || (r.term == t && r.role != Candidate && (r.role == Leader ==> log <= r.log))
  }

  lemma KeepsStep(r: Raft, r': Raft, t: nat, log: Log)
    requires Keeps(r, t, log) && (Turned(r, r') || Extended(r, r'))
    ensures Keeps(r', t, log)
  {
  }

  lemma KeepsTakes(r: Raft, r': Raft, m: Payload, t: nat, log: Log)
    requires m.AppendReq? && Keeps(r, t, log) && TookIn(r, r', m)
    ensures Keeps(r', t, log)
  {
  }

  lemma {:induction false} KeepsAlways(cfg: Config, states: seq<Cluster>, acts: seq<Action>, i: nat, j: nat, p: NodeID)
    requires Run(cfg, states, acts) && i <= j < |states| && p in states[i].nodes
    requires states[i].nodes[p].raft.role == Leader
    ensures p in states[j].nodes
    ensures var a := states[i].nodes[p].raft; Keeps(states[j].nodes[p].raft, a.term, a.log)
    decreases j
  {
    hide Run, Turned, Extended, TookIn, AcceptedAt, Keeps;
    RunShape(cfg, states, acts);
    var a := states[i].nodes[p].raft;
    if i == j {
      LeaderKeeps(a);
    } else {
      KeepsAlways(cfg, states, acts, i, j - 1, p);
      StepTurns(cfg, states, acts, j - 1, p);
      var r, r' := states[j - 1].nodes[p].raft, states[j].nodes[p].raft;
      if Turned(r, r') || Extended(r, r') {
        KeepsStep(r, r', a.term, a.log);
      } else {
        KeepsTakes(r, r', acts[j - 1].env.payload, a.term, a.log);
      }
    }
  }

  lemma LeaderKeeps(r: Raft)
    requires r.role == Leader
    ensures Keeps(r, r.term, r.log)
  {
  }

  // In every configuration a leader only appends to its log while its term lasts.
  lemma LeadersOnlyAppend(cfg: Config, states: seq<Cluster>, acts: seq<Action>, i: nat, j: nat, p: NodeID)
    requires Run(cfg, states, acts) && i <= j < |states| && p in states[i].nodes && p in states[j].nodes
    requires states[i].nodes[p].raft.role == Leader && states[j].nodes[p].raft.role == Leader
    requires states[i].nodes[p].raft.term == states[j].nodes[p].raft.term
    ensures states[i].nodes[p].raft.log <= states[j].nodes[p].raft.log
  {
    hide Run;
    KeepsAlways(cfg, states, acts, i, j, p);
  }

  // ---------- What a request quotes stays ----------

  // A stretch of log, placed where the request says it is.
  ghost predicate Contains(log: Log, m: Payload)
    requires m.AppendReq?
  {
    && m.prevIndex + |m.entries| <= |log|
    && m.entries == log[m.prevIndex..m.prevIndex + |m.entries|]
    && TermAt(log, m.prevIndex) == Some(m.prevTerm)
  }

  lemma QuoteLasts(a: Log, b: Log, m: Payload)
    requires m.AppendReq? && Quotes(a, m) && m.prevIndex <= |a| && a <= b
    ensures Contains(b, m)
  {
    assert a == b[..|a|];
    assert b[..|a|][m.prevIndex..] == b[m.prevIndex..|a|];
  }

  // From the sending on, as often as the sender is seen leading the request's term,
  // what the request quotes is in its log; and where elections are safe nobody else is
  // ever seen leading it.
  lemma RequestsStayInTheLog(cfg: Config, states: seq<Cluster>, acts: seq<Action>, e: Envelope, i: nat,
                             k: nat, q: NodeID)
    requires Run(cfg, states, acts) && i <= k < |states| && e.payload.AppendReq?
    requires e.from in states[i].nodes && SpokenBy(states[i].nodes[e.from].raft, e.from, e.payload)
    requires q in states[k].nodes
    requires states[k].nodes[q].raft.role == Leader && states[k].nodes[q].raft.term == e.payload.term
    ensures Sound(cfg) ==> q == e.from
    ensures q == e.from && e.payload.prevIndex <= |states[i].nodes[q].raft.log| ==>
      Contains(states[k].nodes[q].raft.log, e.payload)
  {
    hide Init, Next, Quotes, Contains, Sound, Run;
    if Sound(cfg) {
      ElectionsAreSafe(cfg, states, acts);
    }
    if q == e.from {
      LeadersOnlyAppend(cfg, states, acts, i, k, q);
      var a, b := states[i].nodes[q].raft.log, states[k].nodes[q].raft.log;
      if e.payload.prevIndex <= |a| {
        QuoteLasts(a, b, e.payload);
      }
    }
  }
}
