/** Rewriting messages in flight gains an attacker nothing over dropping them. */
module Tampering {
  import opened Types
  import opened Crypt
  import opened Transcripts
  import opened Logs
  import opened Rafts
  import opened NetMatrix
  import opened Nodes
  import opened Clusters
  import opened Traffic
  import opened Histories

  // The same node with another count of rejected messages.
  function Counting(s: NodeState, bad: nat): NodeState {
    s.(stats := s.stats.(badSig := bad))
  }

  // Equal but for rejected messages and the scratch outbox.
  ghost predicate Alike(a: NodeState, b: NodeState) {
    b == Counting(a, b.stats.badSig).(wire := a.wire.(outbox := b.wire.outbox))
  }

  ghost predicate Twins(c: Cluster, d: Cluster) {
    && d.net == c.net && d.nodes.Keys == c.nodes.Keys
    && forall p :: p in c.nodes ==> Alike(c.nodes[p], d.nodes[p])
  }

  // ---------- No code path reads the count ----------

  lemma SameIgnores(cfg: Config, s: NodeState, p: Payload, n: nat, bad: nat)
    requires n <= |cfg.members|
    ensures BroadcastSame(cfg, Counting(s, bad), p, n) == Counting(BroadcastSame(cfg, s, p, n), bad)
  {
  }

  lemma AppendIgnores(cfg: Config, s: NodeState, n: nat, bad: nat)
    requires n <= |cfg.members|
    ensures BroadcastAppend(cfg, Counting(s, bad), n) == Counting(BroadcastAppend(cfg, s, n), bad)
  {
  }

  lemma SweepIgnores(cfg: Config, s: NodeState, n: nat, bad: nat)
    requires n <= |cfg.members|
    ensures DetectSilence(cfg, Counting(s, bad), n) == Counting(DetectSilence(cfg, s, n), bad)
  {
  }

  lemma CampaignIgnores(cfg: Config, s: NodeState, draw: nat, bad: nat)
    ensures StartCampaign(cfg, Counting(s, bad), draw) == Counting(StartCampaign(cfg, s, draw), bad)
  {
    var c := ResetTimer(cfg, s.(raft := Rafts.Campaign(s.raft, s.id),
                                stats := s.stats.(termBumps := s.stats.termBumps + 1)), draw);
    SameIgnores(cfg, c, Ballot(c, false), |cfg.members|, bad);
    hide BroadcastSame;
  }

  lemma ElectionIgnores(cfg: Config, s: NodeState, draw: nat, bad: nat)
    ensures BeginElection(cfg, Counting(s, bad), draw) == Counting(BeginElection(cfg, s, draw), bad)
  {
    var e := s.(stats := s.stats.(electionsStarted := s.stats.electionsStarted + 1));
    CampaignIgnores(cfg, e, draw, bad);
    var p := ResetTimer(cfg, e.(raft := Rafts.PreCampaign(e.raft, e.id)), draw);
    SameIgnores(cfg, p, Ballot(p, true), |cfg.members|, bad);
    hide BroadcastSame, StartCampaign;
  }

  lemma LeaderTickIgnores(cfg: Config, s: NodeState, draw: nat, bad: nat)
    ensures LeaderTick(cfg, Counting(s, bad), draw) == Counting(LeaderTick(cfg, s, draw), bad)
  {
    AppendIgnores(cfg, s.(clock := s.clock.(heartbeatElapsed := 0)), |cfg.members|, bad);
    hide BroadcastAppend;
  }

  lemma GossipIgnores(cfg: Config, s: NodeState, bad: nat)
    ensures Gossip(cfg, Counting(s, bad)) == Counting(Gossip(cfg, s), bad)
  {
    SweepIgnores(cfg, s, |cfg.members|, bad);
    var d := DetectSilence(cfg, s, |cfg.members|);
    var y := d.(clock := d.clock.(probeElapsed := 0));
    SameIgnores(cfg, y, ProbeReq(y.raft.term, y.id, y.links.inboundUp), |cfg.members|, bad);
    hide DetectSilence, BroadcastSame;
  }

  lemma TickIgnores(cfg: Config, a: NodeState, b: NodeState, draw: nat)
    requires Alike(a, b)
    ensures Tick(cfg, b, draw) == Counting(Tick(cfg, a, draw), b.stats.badSig)
  {
    var z, bad := StartTick(a), b.stats.badSig;
    assert StartTick(b) == Counting(z, bad);
    LeaderTickIgnores(cfg, z, draw, bad);
    ElectionIgnores(cfg, z, draw, bad);
    GossipIgnores(cfg, RoleTick(cfg, z, draw), bad);
    hide LeaderTick, BeginElection, Gossip;
  }

  lemma BallotIgnores(cfg: Config, s: NodeState, from: NodeID, m: Payload, draw: nat, bad: nat)
    requires m.VoteResp?
    ensures HandleVoteResp(cfg, Counting(s, bad), from, m, draw) == Counting(HandleVoteResp(cfg, s, from, m, draw), bad)
  {
    CampaignIgnores(cfg, s.(raft := s.raft.(preVotes := s.raft.preVotes + {from})), draw, bad);
    var v := s.(raft := s.raft.(votes := s.raft.votes + {from}));
    AppendIgnores(cfg, ClearHeard(v.(raft := Rafts.Elected(v.raft, v.id, cfg.members),
                                     clock := v.clock.(heartbeatElapsed := 0))), |cfg.members|, bad);
    hide StartCampaign, BroadcastAppend;
  }

  lemma RequestIgnores(cfg: Config, s: NodeState, from: NodeID, m: Payload, draw: nat, bad: nat)
    requires m.AppendReq?
    ensures HandleAppendReq(cfg, Counting(s, bad), from, m, draw)
         == Counting(HandleAppendReq(cfg, s, from, m, draw), bad)
  {
    hide Splice;
  }

  lemma VoteReqIgnores(cfg: Config, s: NodeState, from: NodeID, m: Payload, draw: nat, bad: nat)
    requires m.VoteReq?
    ensures HandleVoteReq(cfg, Counting(s, bad), from, m, draw) == Counting(HandleVoteReq(cfg, s, from, m, draw), bad)
  {
  }

  lemma AckIgnores(cfg: Config, s: NodeState, from: NodeID, m: Payload, draw: nat, bad: nat)
    requires m.AppendResp? && cfg.Valid()
    ensures HandleAppendResp(cfg, Counting(s, bad), from, m, draw)
         == Counting(HandleAppendResp(cfg, s, from, m, draw), bad)
  {
    hide CommitCandidate;
  }

  lemma DispatchIgnores(cfg: Config, s: NodeState, env: Envelope, draw: nat, bad: nat)
    requires cfg.Valid()
    ensures Dispatch(cfg, Counting(s, bad), env.from, env.kind, env.payload, draw)
         == Counting(Dispatch(cfg, s, env.from, env.kind, env.payload, draw), bad)
  {
    hide HandleAppendReq, HandleAppendResp, HandleVoteReq, HandleVoteResp, MergeInbound;
    var from, m := env.from, env.payload;
    match m
    case AppendReq(_, _, _, _, _, _) => RequestIgnores(cfg, s, from, m, draw, bad);
    case AppendResp(_, _, _, _) => AckIgnores(cfg, s, from, m, draw, bad);
    case VoteReq(_, _, _, _, _) => VoteReqIgnores(cfg, s, from, m, draw, bad);
    case VoteResp(_, _, _) => BallotIgnores(cfg, s, from, m, draw, bad);
    case _ =>
  }

  lemma DeliverIgnores(cfg: Config, a: NodeState, b: NodeState, env: Envelope, draw: nat)
    requires cfg.Valid() && Alike(a, b)
    ensures var x, y := Deliver(cfg, a, env, draw), Deliver(cfg, b, env, draw);
      && Alike(x, y) && x.wire.outbox == y.wire.outbox
      && (env.Open(cfg.ring) == Opened ==> y.stats.badSig == b.stats.badSig)
  {
    hide Dispatch, Received, Envelope.Open;
    var bad, d := b.stats.badSig, a.(wire := a.wire.(outbox := []));
    assert b.(wire := b.wire.(outbox := [])) == Counting(d, bad);
    if Accepts(cfg, a, env) {
      DispatchIgnores(cfg, Heard(d, env, cfg.ring), env, draw, bad);
      assert Heard(Counting(d, bad), env, cfg.ring) == Counting(Heard(d, env, cfg.ring), bad);
      assert Deliver(cfg, b, env, draw) == Counting(Deliver(cfg, a, env, draw), bad);
    }
  }

  lemma ProposeIgnores(cfg: Config, a: NodeState, b: NodeState, cmd: string)
    requires Alike(a, b)
    ensures Alike(Propose(cfg, a, cmd), Propose(cfg, b, cmd))
    ensures Propose(cfg, b, cmd).stats == b.stats
  {
    if a.raft.role == Leader {
      var log := a.raft.log + [Entry(a.raft.term, cmd)];
      var x, y := a.(raft := a.raft.(log := log)), b.(raft := b.raft.(log := log));
      AppendIgnores(cfg, x, |cfg.members|, b.stats.badSig);
      OldOutbox(cfg, Counting(x, b.stats.badSig), y, |cfg.members|);
      AppendOnlySends(cfg, y, |cfg.members|);
      hide BroadcastAppend;
    }
  }

  // ---------- Runs ----------

  // The step delivers something other than a message that was really sent.
  ghost predicate Forged(c: Cluster, a: Action) {
    a.DeliverTo? && a.env !in c.net
  }

  // The first n actions of a run, without the forged deliveries.
  ghost function Kept(states: seq<Cluster>, acts: seq<Action>, n: nat): seq<Action>
    requires n <= |acts| && n <= |states|
  {
    if n == 0 then []
    else Kept(states, acts, n - 1) + if Forged(states[n - 1], acts[n - 1]) then [] else [acts[n - 1]]
  }

  // Every delivery is of a message that was sent, unchanged.
  ghost predicate Authentic(states: seq<Cluster>, acts: seq<Action>) {
    |acts| <= |states| && forall i :: 0 <= i < |acts| ==> !Forged(states[i], acts[i])
  }

  ghost predicate Unbothered(c: Cluster) {
    forall p :: p in c.nodes ==> c.nodes[p].stats.badSig == 0
  }

  // Rewriting the payload of any message on the wire makes a forgery.
  lemma RewritesAreForgeries(cfg: Config, states: seq<Cluster>, acts: seq<Action>, n: nat, e: Envelope, forged: Payload)
    requires Run(cfg, states, acts) && n <= |acts| && e in states[n].net && forged != e.payload
    ensures Forgeable(states[n].net, e.Tamper(forged)) && e.Tamper(forged) !in states[n].net
  {
    hide Next, Init;
    WireIsSealed(cfg, states, acts, n);
    TamperedFailsToOpen(cfg.ring, e, forged);
  }

  lemma WireIsSealed(cfg: Config, states: seq<Cluster>, acts: seq<Action>, n: nat)
    requires Run(cfg, states, acts) && n <= |acts|
    ensures AllSealed(cfg.ring, states[n].net)
  {
    hide Next, Init, SentAt, Envelope.Open;
    forall e | e in states[n].net
      ensures e.Open(cfg.ring) == Opened
    {
      WireIsHistory(cfg, states, acts, n, e);
      var i: nat :| i < n && SentAt(states, acts, e, i);
      SentTells(cfg, states, acts, e, i);
    }
  }

  // A forged delivery changes nothing but the receiver's count and outbox.
  lemma ForgeryIsNothing(cfg: Config, c: Cluster, a: Action, c': Cluster)
    requires Next(cfg, c, a, c') && Forged(c, a) && AllSealed(cfg.ring, c.net)
    ensures c'.net == c.net && c'.nodes.Keys == c.nodes.Keys
    ensures forall p :: p in c.nodes ==> Alike(c.nodes[p], c'.nodes[p])
  {
    OnlySentMessagesOpen(cfg.ring, c.net, a.env);
    hide Dispatch, Envelope.Open;
    var s := c.nodes[a.env.to];
    var s' := Deliver(cfg, s, a.env, a.draw);
    assert s'.wire.outbox == [];
    assert Emitted(s') == {};
  }

  // Twins stay twins under the same step.
  lemma TwinsStep(cfg: Config, c: Cluster, d: Cluster, a: Action, c': Cluster)
    returns (d': Cluster)
    requires Next(cfg, c, a, c') && Twins(c, d) && !Forged(c, a)
    requires AllSealed(cfg.ring, c.net)
    ensures Next(cfg, d, a, d') && Twins(c', d')
    ensures Unbothered(d) ==> Unbothered(d')
  {
    hide Tick, Deliver, Propose, Alike, Envelope.Open;
    d' := Apply(cfg, d, a);
    var p := Actor(a);
    match a
    case TickAt(_, draw) => TwinsTick(cfg, c.nodes[p], d.nodes[p], draw);
    case DeliverTo(env, draw) => DeliverIgnores(cfg, c.nodes[p], d.nodes[p], env, draw);
    case ProposeAt(_, cmd) => ProposeIgnores(cfg, c.nodes[p], d.nodes[p], cmd);
  }

  lemma TwinsTick(cfg: Config, a: NodeState, b: NodeState, draw: nat)
    requires Alike(a, b)
    ensures var x, y := Tick(cfg, a, draw), Tick(cfg, b, draw);
      Alike(x, y) && x.wire.outbox == y.wire.outbox && y.stats.badSig == b.stats.badSig
  {
    hide Tick;
    TickIgnores(cfg, a, b, draw);
  }

  lemma AlikeChains(a: NodeState, b: NodeState, c: NodeState)
    requires Alike(a, b) && Alike(a, c)
    ensures Alike(b, c)
  {
  }

  lemma TwinsForget(c: Cluster, d: Cluster, c': Cluster)
    requires Twins(c, d) && c'.net == c.net && c'.nodes.Keys == c.nodes.Keys
    requires forall p :: p in c.nodes ==> Alike(c.nodes[p], c'.nodes[p])
    ensures Twins(c', d)
  {
    hide Alike;
    forall p | p in c'.nodes
      ensures Alike(c'.nodes[p], d.nodes[p])
    {
      AlikeChains(c.nodes[p], c'.nodes[p], d.nodes[p]);
    }
  }

  // What the matching run owes after n steps.
  ghost predicate MatchingRun(cfg: Config, states: seq<Cluster>, acts: seq<Action>, n: nat, ss: seq<Cluster>)
    requires n <= |acts| && n < |states|
  {
    var kept := Kept(states, acts, n);
    && Run(cfg, ss, kept) && Authentic(ss, kept)
    && Twins(states[n], ss[|kept|]) && Unbothered(ss[|kept|])
  }

  // For every run under an attacker who rewrites, the run that leaves out exactly
  // the forged deliveries reaches a twin of every state, and rejects no signature.
  lemma {:induction false} TamperingIsOmission(cfg: Config, states: seq<Cluster>, acts: seq<Action>, n: nat)
    returns (ss: seq<Cluster>)
    requires Run(cfg, states, acts) && n <= |acts|
    ensures MatchingRun(cfg, states, acts, n, ss)
  {
    hide Twins, Unbothered, Next, Forged, Init, AllSealed;
    if n == 0 {
      ss := [states[0]];
      FirstTwins(cfg, states[0]);
    } else {
      var before := TamperingIsOmission(cfg, states, acts, n - 1);
      WireIsSealed(cfg, states, acts, n - 1);
      ss := MatchStep(cfg, states, acts, n - 1, before);
    }
  }

  lemma FirstTwins(cfg: Config, c: Cluster)
    requires Init(cfg, c)
    ensures Twins(c, c) && Unbothered(c)
  {
    forall p | p in c.nodes
      ensures c.nodes[p].stats.badSig == 0
    {
      assert BeginsAt(cfg, c, p);
    }
  }

  lemma MatchStep(cfg: Config, states: seq<Cluster>, acts: seq<Action>, n: nat, before: seq<Cluster>)
    returns (ss: seq<Cluster>)
    requires Run(cfg, states, acts) && n < |acts| && MatchingRun(cfg, states, acts, n, before)
    requires AllSealed(cfg.ring, states[n].net)
    ensures MatchingRun(cfg, states, acts, n + 1, ss)
  {
    hide Twins, Unbothered, Next, Init, AllSealed, Alike;
    var kept := Kept(states, acts, n);
    var c, d, a := states[n], before[|kept|], acts[n];
    assert Taken(cfg, states, acts, n);
    if Forged(c, a) {
      ForgeryIsNothing(cfg, c, a, states[n + 1]);
      TwinsForget(c, d, states[n + 1]);
      assert Kept(states, acts, n + 1) == kept;
      ss := before;
    } else {
      var d' := TwinsStep(cfg, c, d, a, states[n + 1]);
      TwinsNet(c, d);
      assert Kept(states, acts, n + 1) == kept + [a];
      ss := before + [d'];
      RunSnoc(cfg, before, kept, a, d');
    }
  }

  lemma TwinsNet(c: Cluster, d: Cluster)
    requires Twins(c, d)
    ensures c.net == d.net
  {
  }

  lemma RunSnoc(cfg: Config, ss: seq<Cluster>, aa: seq<Action>, a: Action, d: Cluster)
    requires Run(cfg, ss, aa) && Next(cfg, ss[|aa|], a, d) && Authentic(ss, aa) && !Forged(ss[|aa|], a)
    ensures Run(cfg, ss + [d], aa + [a]) && Authentic(ss + [d], aa + [a])
  {
    hide Run, Next, Forged;
    RunShape(cfg, ss, aa);
    RunExtends(cfg, ss, aa, a, d);
    assert forall i :: 0 <= i <= |aa| ==> (ss + [d])[i] == ss[i];
    assert forall i :: 0 <= i < |aa| ==> (aa + [a])[i] == aa[i];
  }
}
