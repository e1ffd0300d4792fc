/** Facts about who sent and who accepted what, over whole runs of the cluster. */
module Histories {
  import opened Types
  import opened Crypt
  import opened Transcripts
  import opened NetMatrix
  import opened Nodes
  import opened Clusters
  import opened Traffic

  // The node a step runs at.
  function Actor(a: Action): NodeID {
    match a
    case TickAt(p, _) => p
    case DeliverTo(env, _) => env.to
    case ProposeAt(p, _) => p
  }

  // Step i put e on the wire.
  ghost predicate SentAt(states: seq<Cluster>, acts: seq<Action>, e: Envelope, i: nat) {
    && i < |acts| && i + 1 < |states| && !acts[i].ProposeAt? && e.from == Actor(acts[i])
    && e.from in states[i + 1].nodes && e in states[i + 1].nodes[e.from].wire.outbox
  }

  // Step j delivered a message from p to o, and o accepted it.
  ghost predicate AcceptedAt(cfg: Config, states: seq<Cluster>, acts: seq<Action>, o: NodeID, p: NodeID, j: nat) {
    && j < |acts| && j < |states| && acts[j].DeliverTo? && acts[j].env.to == o && acts[j].env.from == p
    && o in states[j].nodes && Accepts(cfg, states[j].nodes[o], acts[j].env)
  }

  ghost predicate Wired(cfg: Config, c: Cluster) {
    && c.nodes.Keys == ToSet(cfg.members)
    && forall p :: p in c.nodes ==> WiredAt(cfg, p, c.nodes[p])
  }

  ghost predicate WiredAt(cfg: Config, p: NodeID, s: NodeState) {
    WellWired(cfg, p, s) && s.links.view.owner == p
  }

  // The step ran at its actor and left every other node alone.
  ghost predicate StepAt(cfg: Config, c: Cluster, a: Action, c': Cluster, s: NodeState, s': NodeState)
    requires cfg.Valid()
  {
    var p := Actor(a);
    && p in c.nodes && c'.nodes == c.nodes[p := s'] && s == c.nodes[p]
    && c'.net == (if a.ProposeAt? then c.net else c.net + Emitted(s'))
    && s' == match a
      case TickAt(_, d) => Tick(cfg, s, d)
      case DeliverTo(env, d) => Deliver(cfg, s, env, d)
      case ProposeAt(_, cmd) => Propose(cfg, s, cmd)
  }

  lemma RunShape(cfg: Config, states: seq<Cluster>, acts: seq<Action>)
    requires Run(cfg, states, acts)
    ensures cfg.Valid() && |states| == |acts| + 1
  {
  }

  lemma RunExtends(cfg: Config, states: seq<Cluster>, acts: seq<Action>, a: Action, c: Cluster)
    requires Run(cfg, states, acts) && Next(cfg, states[|acts|], a, c)
    ensures Run(cfg, states + [c], acts + [a])
  {
    hide Next, Init;
    var ss, aa := states + [c], acts + [a];
    forall i: nat | i < |aa|
      ensures Taken(cfg, ss, aa, i)
    {
      assert i < |acts| ==> Taken(cfg, states, acts, i);
    }
  }

  lemma NextSteps(cfg: Config, c: Cluster, a: Action, c': Cluster)
    requires Next(cfg, c, a, c')
    ensures Actor(a) in c.nodes && Actor(a) in c'.nodes
    ensures StepAt(cfg, c, a, c', c.nodes[Actor(a)], c'.nodes[Actor(a)])
  {
    hide Tick, Deliver, Propose;
  }

  lemma StepKeepsWired(cfg: Config, a: Action, s: NodeState, s': NodeState, c: Cluster, c': Cluster)
    requires cfg.Valid() && WiredAt(cfg, Actor(a), s) && StepAt(cfg, c, a, c', s, s')
    ensures WiredAt(cfg, Actor(a), s')
  {
    hide Tick, Deliver, Propose, Wrote, DetectSilence, MergeInbound, Accepts;
    match a
    case TickAt(p, d) =>
      TickTraffic(cfg, p, s, d);
      SweepIsExact(cfg, s.(clock := s.clock.(tick := s.clock.tick + 1)), |cfg.members|);
    case DeliverTo(env, d) =>
      DeliverTraffic(cfg, env.to, s, env, d);
      if Accepts(cfg, s, env) && Gossips(env) {
        MergeIsExact(cfg.members, Heard(s, env, cfg.ring).links.view, env.from, env.payload.inboundUp, |cfg.members|);
      }
    case ProposeAt(p, cmd) =>
      ProposeTraffic(cfg, p, s, cmd);
  }

  lemma {:induction false} RunIsWired(cfg: Config, states: seq<Cluster>, acts: seq<Action>, n: nat)
    requires Run(cfg, states, acts) && n <= |acts|
    ensures Wired(cfg, states[n])
  {
    hide StepAt, WiredAt, Next, Init;
    if n == 0 {
      FirstIsWired(cfg, states[0]);
    } else {
      RunIsWired(cfg, states, acts, n - 1);
      StepFacts(cfg, states, acts, n - 1);
    }
  }

  lemma FirstIsWired(cfg: Config, c: Cluster)
    requires cfg.Valid() && Init(cfg, c)
    ensures Wired(cfg, c)
  {
    hide WiredAt;
    forall p | p in c.nodes
      ensures WiredAt(cfg, p, c.nodes[p])
    {
      NewNodeIsWired(cfg, c, p);
    }
  }

  // No step changes the roster of anybody's view.
  lemma StepKeepsRoster(cfg: Config, a: Action, s: NodeState, s': NodeState, c: Cluster, c': Cluster)
    requires cfg.Valid() && WiredAt(cfg, Actor(a), s) && StepAt(cfg, c, a, c', s, s')
    ensures s'.links.view.members == s.links.view.members
  {
    hide Tick, Deliver, Propose, Wrote, DetectSilence, MergeInbound, Accepts;
    match a
    case TickAt(p, d) =>
      TickTraffic(cfg, p, s, d);
      SweepIsExact(cfg, s.(clock := s.clock.(tick := s.clock.tick + 1)), |cfg.members|);
    case DeliverTo(env, d) =>
      DeliverTraffic(cfg, env.to, s, env, d);
      if Accepts(cfg, s, env) && Gossips(env) {
        MergeIsExact(cfg.members, Heard(s, env, cfg.ring).links.view, env.from, env.payload.inboundUp, |cfg.members|);
      }
    case ProposeAt(p, cmd) =>
      ProposeTraffic(cfg, p, s, cmd);
  }

  lemma FirstRoster(cfg: Config, c: Cluster, p: NodeID)
    requires Init(cfg, c) && p in c.nodes
    ensures c.nodes[p].links.view.members == cfg.members
  {
    assert BeginsAt(cfg, c, p);
  }

  lemma {:induction false} RosterStays(cfg: Config, states: seq<Cluster>, acts: seq<Action>, n: nat, p: NodeID)
    requires Run(cfg, states, acts) && n <= |acts| && p in states[n].nodes
    ensures states[n].nodes[p].links.view.members == cfg.members
  {
    hide StepAt, WiredAt, Next, Wired;
    if n == 0 {
      FirstRoster(cfg, states[0], p);
    } else {
      hide Init;
      RunIsWired(cfg, states, acts, n - 1);
      StepFacts(cfg, states, acts, n - 1);
      RosterStays(cfg, states, acts, n - 1, p);
      var q := Actor(acts[n - 1]);
      StepKeepsRoster(cfg, acts[n - 1], states[n - 1].nodes[q], states[n].nodes[q], states[n - 1], states[n]);
    }
  }

  lemma NewNodeIsWired(cfg: Config, c: Cluster, p: NodeID)
    requires cfg.Valid() && Init(cfg, c) && p in c.nodes
    ensures WiredAt(cfg, p, c.nodes[p])
  {
    assert BeginsAt(cfg, c, p);
    var s := c.nodes[p];
    assert s.wire.sendTr.Keys == ToSet(cfg.members) - {p};
    assert s.wire.recvTr.Keys == ToSet(cfg.members) - {p};
  }

  // Step i of a run, seen from the node it runs at and from the others.
  lemma StepFacts(cfg: Config, states: seq<Cluster>, acts: seq<Action>, i: nat)
    requires Run(cfg, states, acts) && i < |acts| && Wired(cfg, states[i])
    ensures var p := Actor(acts[i]);
      && p in states[i].nodes && p in states[i + 1].nodes
      && WiredAt(cfg, p, states[i].nodes[p]) && WiredAt(cfg, p, states[i + 1].nodes[p])
      && StepAt(cfg, states[i], acts[i], states[i + 1], states[i].nodes[p], states[i + 1].nodes[p])
      && states[i + 1].nodes.Keys == states[i].nodes.Keys
      && forall q :: q in states[i].nodes && q != p ==> states[i + 1].nodes[q] == states[i].nodes[q]
    ensures Wired(cfg, states[i + 1])
  {
    hide WiredAt, Init;
    assert Taken(cfg, states, acts, i);
    NextSteps(cfg, states[i], acts[i], states[i + 1]);
    hide Next;
    var p := Actor(acts[i]);
    StepKeepsWired(cfg, acts[i], states[i].nodes[p], states[i + 1].nodes[p], states[i], states[i + 1]);
  }

  // ---------- What was sent ----------

  // Everything a step emits is sealed, numbered past what was sent before, and a
  // probe tells whom its sender hears at that moment.
  lemma SentTells(cfg: Config, states: seq<Cluster>, acts: seq<Action>, e: Envelope, i: nat)
    requires Run(cfg, states, acts) && SentAt(states, acts, e, i)
    ensures e.from in states[i].nodes
    ensures var s, s' := states[i].nodes[e.from], states[i + 1].nodes[e.from];
      && s'.wire.sendTr.Keys == s.wire.sendTr.Keys
      && WroteOne(cfg.ring, s.wire.sendTr, Some(s'.links.inboundUp), s', e)
  {
    hide Tick, Deliver, Propose, WroteOne, Next, Init;
    RunIsWired(cfg, states, acts, i);
    StepFacts(cfg, states, acts, i);
    var s := states[i].nodes[e.from];
    match acts[i]
    case TickAt(p, d) => TickTraffic(cfg, p, s, d);
    case DeliverTo(env, d) => DeliverTraffic(cfg, env.to, s, env, d);
  }

  // The wire holds nothing but what steps of the run have put on it.
  lemma {:induction false} WireIsHistory(cfg: Config, states: seq<Cluster>, acts: seq<Action>, n: nat, e: Envelope)
    requires Run(cfg, states, acts) && n <= |acts| && e in states[n].net
    ensures exists i: nat :: i < n && SentAt(states, acts, e, i)
  {
    hide WiredAt, Next, Tick, Deliver, Propose;
    if n == 0 {
      assert false;
    } else if e in states[n - 1].net {
      WireIsHistory(cfg, states, acts, n - 1, e);
    } else {
      RunIsWired(cfg, states, acts, n - 1);
      StepFacts(cfg, states, acts, n - 1);
      var p := Actor(acts[n - 1]);
      assert e in Emitted(states[n].nodes[p]);
      EmittedByActor(cfg, states, acts, n - 1, e);
      assert SentAt(states, acts, e, n - 1);
    }
  }

  lemma EmittedByActor(cfg: Config, states: seq<Cluster>, acts: seq<Action>, i: nat, e: Envelope)
    requires Run(cfg, states, acts) && i < |acts| && !acts[i].ProposeAt?
    requires Actor(acts[i]) in states[i + 1].nodes && e in states[i + 1].nodes[Actor(acts[i])].wire.outbox
    ensures e.from == Actor(acts[i])
  {
    hide Tick, Deliver, Propose, Next, Init;
    RunIsWired(cfg, states, acts, i);
    StepFacts(cfg, states, acts, i);
    var s := states[i].nodes[Actor(acts[i])];
    match acts[i] {
      case TickAt(p, d) => TickTraffic(cfg, p, s, d);
      case DeliverTo(env, d) => DeliverTraffic(cfg, env.to, s, env, d);
    }
    var s' := states[i + 1].nodes[Actor(acts[i])];
    assert WroteOne(cfg.ring, s.wire.sendTr, Some(s'.links.inboundUp), s', e);
  }

  // Whatever a node accepts was sent, unchanged, by the node it names.
  lemma AcceptedWasSent(cfg: Config, states: seq<Cluster>, acts: seq<Action>, o: NodeID, p: NodeID, j: nat)
    returns (i: nat)
    requires Run(cfg, states, acts) && AcceptedAt(cfg, states, acts, o, p, j)
    ensures i < j && SentAt(states, acts, acts[j].env, i)
  {
    hide Init, Apply;
    var net, env := states[j].net, acts[j].env;
    forall e | e in net
      ensures e.Open(cfg.ring) == Opened
    {
      WireIsHistory(cfg, states, acts, j, e);
      var k: nat :| k < j && SentAt(states, acts, e, k);
      SentTells(cfg, states, acts, e, k);
    }
    assert Taken(cfg, states, acts, j);
    OnlySentMessagesOpen(cfg.ring, net, env);
    WireIsHistory(cfg, states, acts, j, env);
    i :| i < j && SentAt(states, acts, env, i);
  }

  // ---------- Sequence numbers ----------

  // What one step does to a node's counters towards and from one peer.
  ghost predicate Counted(w: Wire, w': Wire, q: NodeID) {
    && q in w.sendTr && q in w'.sendTr && w.sendTr[q].sendSeq <= w'.sendTr[q].sendSeq
    && q in w.recvTr && q in w'.recvTr && w.recvTr[q].recvSeq <= w'.recvTr[q].recvSeq
  }

  lemma DeliverCounts(cfg: Config, p: NodeID, s: NodeState, env: Envelope, draw: nat, q: NodeID)
    requires cfg.Valid() && WellWired(cfg, p, s) && q in s.wire.sendTr
    ensures var w' := Deliver(cfg, s, env, draw).wire;
      && Counted(s.wire, w', q)
      && (if Accepts(cfg, s, env) && env.from == q then s.wire.recvTr[q].recvSeq < env.seqNo == w'.recvTr[q].recvSeq
          else w'.recvTr[q] == s.wire.recvTr[q])
  {
    hide Deliver, WroteOne, MergeInbound;
    DeliverTraffic(cfg, p, s, env, draw);
  }

  lemma MemberIsWired(cfg: Config, p: NodeID, s: NodeState, q: NodeID)
    requires WiredAt(cfg, p, s) && q in cfg.members && q != p
    ensures WellWired(cfg, p, s) && q in s.wire.sendTr && q in s.wire.recvTr
  {
    assert q in ToSet(cfg.members) - {p};
  }

  lemma StepCounts(cfg: Config, states: seq<Cluster>, acts: seq<Action>, i: nat, p: NodeID, q: NodeID)
    requires Run(cfg, states, acts) && i < |acts| && p in cfg.members && q in cfg.members && p != q
    ensures p in states[i].nodes && p in states[i + 1].nodes
    ensures var w, w' := states[i].nodes[p].wire, states[i + 1].nodes[p].wire;
      && Counted(w, w', q)
      && (if AcceptedAt(cfg, states, acts, p, q, i) then w.recvTr[q].recvSeq < acts[i].env.seqNo == w'.recvTr[q].recvSeq
          else w'.recvTr[q] == w.recvTr[q])
  {
    hide Tick, Deliver, Propose, WroteOne, Next, Init, DetectSilence, Accepts, WiredAt;
    RunIsWired(cfg, states, acts, i);
    StepFacts(cfg, states, acts, i);
    var s := states[i].nodes[p];
    assert WiredAt(cfg, p, s);
    MemberIsWired(cfg, p, s, q);
    if p == Actor(acts[i]) {
      match acts[i]
      case TickAt(_, d) => TickTraffic(cfg, p, s, d);
      case DeliverTo(env, d) => DeliverCounts(cfg, p, s, env, d, q);
      case ProposeAt(_, cmd) => ProposeTraffic(cfg, p, s, cmd);
    }
  }

  lemma {:induction false} CountsGrow(cfg: Config, states: seq<Cluster>, acts: seq<Action>, i: nat, j: nat,
        p: NodeID, q: NodeID)
    requires Run(cfg, states, acts) && i <= j <= |acts| && p in cfg.members && q in cfg.members && p != q
    ensures p in states[i].nodes && p in states[j].nodes
    ensures Counted(states[i].nodes[p].wire, states[j].nodes[p].wire, q)
    decreases j
  {
    hide Init, Next, AcceptedAt;
    if i == j {
      RunIsWired(cfg, states, acts, i);
    } else {
      CountsGrow(cfg, states, acts, i, j - 1, p, q);
      StepCounts(cfg, states, acts, j - 1, p, q);
    }
  }

  lemma AcceptedAmongMembers(cfg: Config, states: seq<Cluster>, acts: seq<Action>, o: NodeID, p: NodeID, j: nat)
    requires Run(cfg, states, acts) && AcceptedAt(cfg, states, acts, o, p, j)
    ensures o in cfg.members && p in cfg.members && o != p
  {
    hide Init, Next;
    RunIsWired(cfg, states, acts, j);
  }

  // Between any two nodes, messages are accepted in the order they were sent, and
  // none twice, whatever the network does.
  lemma AcceptedInSendingOrder(cfg: Config, states: seq<Cluster>, acts: seq<Action>, o: NodeID, p: NodeID,
                               j: nat, k: nat, si: nat, sk: nat)
    requires Run(cfg, states, acts) && j < k
    requires AcceptedAt(cfg, states, acts, o, p, j) && SentAt(states, acts, acts[j].env, si)
    requires AcceptedAt(cfg, states, acts, o, p, k) && SentAt(states, acts, acts[k].env, sk)
    ensures acts[j].env.seqNo < acts[k].env.seqNo && si <= sk
  {
    hide Init, Next;
    AcceptedAmongMembers(cfg, states, acts, o, p, j);
    StepCounts(cfg, states, acts, j, o, p);
    CountsGrow(cfg, states, acts, j + 1, k, o, p);
    StepCounts(cfg, states, acts, k, o, p);
    SentTells(cfg, states, acts, acts[j].env, si);
    SentTells(cfg, states, acts, acts[k].env, sk);
    if sk < si {
      CountsGrow(cfg, states, acts, sk + 1, si, p, o);
    }
  }
}
