/** What the simulated fabric guarantees: nothing is lost or doubled unaccounted,
    everything arrives on time, and each edge keeps its order. */
module NetworkLaws {
  import opened Types
  import opened Crypt
  import opened Transcripts
  import opened NetMatrix
  import opened Nodes
  import opened Traffic
  import opened Networks

  // ---------- Bookkeeping over the history ----------

  function AllQueued(h: seq<Happening>): multiset<Flight> {
    if h == [] then multiset{}
    else AllQueued(h[..|h| - 1]) + if h[|h| - 1].Queued? then multiset{h[|h| - 1].flight} else multiset{}
  }

  function AllHanded(h: seq<Happening>): multiset<Flight> {
    if h == [] then multiset{}
    else AllHanded(h[..|h| - 1]) + if h[|h| - 1].Handed? then multiset{h[|h| - 1].flight} else multiset{}
  }

  function LostCount(h: seq<Happening>): nat {
    if h == [] then 0 else LostCount(h[..|h| - 1]) + if h[|h| - 1].Lost? then 1 else 0
  }

  lemma HistorySnoc(h: seq<Happening>, e: Happening)
    ensures AllQueued(h + [e]) == AllQueued(h) + if e.Queued? then multiset{e.flight} else multiset{}
    ensures AllHanded(h + [e]) == AllHanded(h) + if e.Handed? then multiset{e.flight} else multiset{}
    ensures LostCount(h + [e]) == LostCount(h) + if e.Lost? then 1 else 0
  {
    assert (h + [e])[..|h + [e]| - 1] == h;
  }

  // Messages on the wire or, while the queue is drained, still waiting their turn.
  function Pending(s: Sim, rest: seq<Flight>): seq<Flight> {
    s.inflight + rest
  }

  // Every message ever queued is pending or was handed over, once.
  ghost predicate Balanced(s: Sim, rest: seq<Flight>) {
    && AllQueued(s.history) == AllHanded(s.history) + multiset(Pending(s, rest))
    && s.delivered == |AllHanded(s.history)| && s.dropped == LostCount(s.history)
  }

  ghost predicate WiredNodes(cfg: Config, nodes: map<NodeID, NodeState>) {
    nodes.Keys == ToSet(cfg.members) && forall p :: p in nodes ==> WellWired(cfg, p, nodes[p])
  }

  ghost predicate Addressed(nodes: map<NodeID, NodeState>, env: Envelope) {
    env.from in nodes && env.to in nodes && env.from != env.to
  }

  ghost predicate Sane(f: Fabric, s: Sim, rest: seq<Flight>) {
    f.cfg.Valid() && WiredNodes(f.cfg, s.nodes) && Balanced(s, rest) && Routable(s.nodes, Pending(s, rest))
  }

  ghost predicate Routable(nodes: map<NodeID, NodeState>, ms: seq<Flight>) {
    forall m :: m in ms ==> Addressed(nodes, m.env)
  }

  // Balance and routing look at nothing but these.
  lemma SaneFrame(f: Fabric, s: Sim, t: Sim, rest: seq<Flight>)
    requires Sane(f, s, rest) && WiredNodes(f.cfg, t.nodes)
    requires t.inflight == s.inflight && t.history == s.history && t.delivered == s.delivered && t.dropped == s.dropped
    ensures Sane(f, t, rest)
  {
    SameNames(f.cfg, s.nodes, t.nodes, Pending(s, rest));
    hide WiredNodes, Routable, AllQueued, AllHanded, LostCount;
  }

  lemma SameNames(cfg: Config, a: map<NodeID, NodeState>, b: map<NodeID, NodeState>, ms: seq<Flight>)
    requires WiredNodes(cfg, a) && WiredNodes(cfg, b)
    ensures a.Keys == b.Keys
    ensures Routable(a, ms) ==> Routable(b, ms)
  {
    hide WellWired;
    assert forall p :: p in a <==> p in b.Keys;
  }

  lemma OneNodeWired(cfg: Config, nodes: map<NodeID, NodeState>, p: NodeID, s: NodeState)
    requires WiredNodes(cfg, nodes) && p in nodes && WellWired(cfg, p, s)
    ensures WiredNodes(cfg, nodes[p := s])
  {
    hide WellWired;
  }

  // ---------- Every operation keeps the books ----------

  lemma QueueKeeps(f: Fabric, s: Sim, rest: seq<Flight>, m: Flight)
    requires Sane(f, s, rest) && Addressed(s.nodes, m.env)
    ensures Sane(f, Queue(s, m), rest)
  {
    hide WiredNodes, AllQueued, AllHanded, LostCount, Addressed;
    HistorySnoc(s.history, Queued(m));
    assert multiset(Pending(Queue(s, m), rest)) == multiset(Pending(s, rest)) + multiset{m};
  }

  lemma LoseKeeps(f: Fabric, s: Sim, rest: seq<Flight>, env: Envelope)
    requires Sane(f, s, rest)
    ensures Sane(f, s.(dropped := s.dropped + 1, history := s.history + [Lost(env)]), rest)
  {
    hide WiredNodes, AllQueued, AllHanded, LostCount, Routable;
    HistorySnoc(s.history, Lost(env));
  }

  lemma SaneParts(f: Fabric, s: Sim, rest: seq<Flight>)
    requires Sane(f, s, rest)
    ensures f.cfg.Valid() && WiredNodes(f.cfg, s.nodes)
  {
  }

  lemma EnqueueKeeps(f: Fabric, s: Sim, rest: seq<Flight>, env: Envelope)
    requires Sane(f, s, rest) && Addressed(s.nodes, env)
    ensures var t := Enqueue(f, s, env);
      Sane(f, t, rest) && t.nodes == s.nodes && t.tick == s.tick && t.delivered == s.delivered
  {
    hide Sane, WiredNodes, FindRelay, DelayFor;
    var e := Edge(env.from, env.to);
    if e in s.down {
      var via := if f.relay then FindRelay(s, env.from, env.to) else None;
      if via.Some? {
        var t := s.(relayed := s.relayed + 1);
        SaneParts(f, s, rest);
        SaneFrame(f, s, t, rest);
        QueueKeeps(f, t, rest,
                   Flight(env, s.tick + (DelayFor(f, env.from, via.value) + DelayFor(f, via.value, env.to)), via));
      } else {
        LoseKeeps(f, s, rest, env);
      }
    } else if e in s.corrupt {
      var forged := env.Tamper(f.forge(s.corrupted, env.payload));
      var t := s.(corrupted := s.corrupted + 1);
      SaneParts(f, s, rest);
      SaneFrame(f, s, t, rest);
      QueueKeeps(f, t, rest, Flight(forged, s.tick + DelayFor(f, env.from, env.to), None));
    } else {
      QueueKeeps(f, s, rest, Flight(env, s.tick + DelayFor(f, env.from, env.to), None));
    }
  }

  ghost predicate AllAddressed(nodes: map<NodeID, NodeState>, out: seq<Envelope>) {
    forall e :: e in out ==> Addressed(nodes, e)
  }

  lemma EnqueueAllKeeps(f: Fabric, s: Sim, rest: seq<Flight>, out: seq<Envelope>, n: nat)
    requires Sane(f, s, rest) && n <= |out| && AllAddressed(s.nodes, out)
    ensures var t := EnqueueAll(f, s, out, n);
      Sane(f, t, rest) && t.nodes == s.nodes && t.tick == s.tick && t.delivered == s.delivered
  {
    hide Sane, Enqueue;
    if n > 0 {
      EnqueueAllKeeps(f, s, rest, out, n - 1);
      assert out[n - 1] in out;
      EnqueueKeeps(f, EnqueueAll(f, s, out, n - 1), rest, out[n - 1]);
    }
  }

  // What a replica puts in its outbox is addressed to other members.
  lemma WroteAddressed(cfg: Config, nodes: map<NodeID, NodeState>, p: NodeID, s: NodeState, k0: map<NodeID, Chain>,
                       up: Option<set<NodeID>>)
    requires nodes.Keys == ToSet(cfg.members) && p in nodes && s.id == p
    requires Wrote(cfg.ring, k0, up, s) && k0.Keys == ToSet(cfg.members) - {p}
    ensures AllAddressed(nodes, s.wire.outbox)
  {
    forall e | e in s.wire.outbox
      ensures Addressed(nodes, e)
    {
      assert WroteOne(cfg.ring, k0, up, s, e);
      assert e.to in k0.Keys;
    }
  }

  lemma NextIsRoutable(f: Fabric, s: Sim, rest: seq<Flight>, m: Flight)
    requires Sane(f, s, [m] + rest)
    ensures f.cfg.Valid() && WiredNodes(f.cfg, s.nodes) && Addressed(s.nodes, m.env)
  {
    assert m in Pending(s, [m] + rest);
  }

  lemma HandedSane(f: Fabric, s: Sim, rest: seq<Flight>, m: Flight, t: Sim)
    requires Sane(f, s, [m] + rest) && WiredNodes(f.cfg, t.nodes) && t.inflight == s.inflight
    requires t.history == s.history + [Handed(m, s.tick)] && t.delivered == s.delivered + 1 && t.dropped == s.dropped
    ensures Sane(f, t, rest)
  {
    hide WiredNodes, Balanced, Addressed;
    HandedBalance(s, rest, m, t);
    SameNames(f.cfg, s.nodes, t.nodes, Pending(s, [m] + rest));
  }

  // The receiver's move: well wired still, and what it says is for other members.
  lemma ReceiverWired(cfg: Config, nodes: map<NodeID, NodeState>, p: NodeID, env: Envelope, draw: nat)
    requires cfg.Valid() && WiredNodes(cfg, nodes) && p in nodes
    ensures var d := Deliver(cfg, nodes[p], env, draw);
      WiredNodes(cfg, nodes[p := d]) && AllAddressed(nodes[p := d], d.wire.outbox)
  {
    hide Deliver, Wrote, AllAddressed;
    var d := Deliver(cfg, nodes[p], env, draw);
    DeliverTraffic(cfg, p, nodes[p], env, draw);
    OneNodeWired(cfg, nodes, p, d);
    WroteAddressed(cfg, nodes[p := d], p, d, nodes[p].wire.sendTr, Some(d.links.inboundUp));
  }

  lemma HandKeeps(f: Fabric, s: Sim, rest: seq<Flight>, m: Flight)
    requires f.cfg.Valid() && Sane(f, s, [m] + rest)
    ensures var t := Hand(f, s, m);
      Sane(f, t, rest) && t.tick == s.tick
  {
    hide Deliver, EnqueueAll, Balanced, Sane, Routable, AllAddressed, WiredNodes;
    var p, cfg, draw := m.env.to, f.cfg, Draw(f, m.env.to, s.drawn);
    NextIsRoutable(f, s, rest, m);
    var d := Deliver(cfg, s.nodes[p], m.env, draw);
    ReceiverWired(cfg, s.nodes, p, m.env, draw);
    var t := s.(nodes := s.nodes[p := d], delivered := s.delivered + 1, drawn := s.drawn + 1,
                history := s.history + [Handed(m, s.tick)]);
    HandedSane(f, s, rest, m, t);
    EnqueueAllKeeps(f, t, rest, d.wire.outbox, |d.wire.outbox|);
  }

  lemma HandedBalance(s: Sim, rest: seq<Flight>, m: Flight, t: Sim)
    requires Balanced(s, [m] + rest) && t.inflight == s.inflight
    requires t.history == s.history + [Handed(m, s.tick)] && t.delivered == s.delivered + 1 && t.dropped == s.dropped
    ensures Balanced(t, rest)
    ensures forall x :: x in Pending(t, rest) ==> x in Pending(s, [m] + rest)
  {
    hide AllQueued, AllHanded, LostCount;
    HistorySnoc(s.history, Handed(m, s.tick));
    assert multiset(Pending(s, [m] + rest)) == multiset(s.inflight) + multiset{m} + multiset(rest);
    assert multiset(Pending(t, rest)) == multiset(s.inflight) + multiset(rest);
  }

  lemma RetainKeeps(f: Fabric, s: Sim, rest: seq<Flight>, m: Flight)
    requires Sane(f, s, [m] + rest)
    ensures Sane(f, s.(inflight := s.inflight + [m]), rest)
  {
    hide WiredNodes, AllQueued, AllHanded, LostCount, Routable;
    assert Pending(s.(inflight := s.inflight + [m]), rest) == Pending(s, [m] + rest);
  }

  lemma DrainKeeps(f: Fabric, s: Sim, pending: seq<Flight>, n: nat)
    requires f.cfg.Valid() && Sane(f, s, pending) && n <= |pending|
    ensures var t := Drain(f, s, pending, n);
      Sane(f, t, pending[n..]) && t.tick == s.tick
  {
    hide Sane, Hand;
    if n > 0 {
      DrainKeeps(f, s, pending, n - 1);
      var b, m := Drain(f, s, pending, n - 1), pending[n - 1];
      assert pending[n - 1..] == [m] + pending[n..];
      if m.due > b.tick {
        RetainKeeps(f, b, pending[n..], m);
      } else {
        HandKeeps(f, b, pending[n..], m);
      }
    } else {
      assert pending[0..] == pending;
    }
  }

  lemma TickerWired(cfg: Config, nodes: map<NodeID, NodeState>, p: NodeID, draw: nat)
    requires cfg.Valid() && WiredNodes(cfg, nodes) && p in nodes
    ensures var t := Tick(cfg, nodes[p], draw);
      WiredNodes(cfg, nodes[p := t]) && AllAddressed(nodes[p := t], t.wire.outbox)
  {
    hide Tick, Wrote, DetectSilence, AllAddressed;
    var t := Tick(cfg, nodes[p], draw);
    TickTraffic(cfg, p, nodes[p], draw);
    OneNodeWired(cfg, nodes, p, t);
    WroteAddressed(cfg, nodes[p := t], p, t, nodes[p].wire.sendTr, Some(t.links.inboundUp));
  }

  lemma TickOneKeeps(f: Fabric, s: Sim, p: NodeID)
    requires f.cfg.Valid() && Sane(f, s, []) && p in s.nodes
    ensures Sane(f, TickOne(f, s, p), []) && TickOne(f, s, p).tick == s.tick
  {
    hide Tick, EnqueueAll, Sane, AllAddressed, WiredNodes;
    var cfg, draw := f.cfg, Draw(f, p, s.drawn);
    SaneParts(f, s, []);
    var t := Tick(cfg, s.nodes[p], draw);
    TickerWired(cfg, s.nodes, p, draw);
    var u := s.(nodes := s.nodes[p := t], drawn := s.drawn + 1);
    SaneFrame(f, s, u, []);
    EnqueueAllKeeps(f, u, [], t.wire.outbox, |t.wire.outbox|);
  }

  lemma TickAllKeeps(f: Fabric, s: Sim, n: nat)
    requires f.cfg.Valid() && Sane(f, s, []) && n <= |f.cfg.members|
    ensures Sane(f, TickAll(f, s, n), []) && TickAll(f, s, n).tick == s.tick
  {
    hide Sane, TickOne;
    if n > 0 {
      TickAllKeeps(f, s, n - 1);
      var b, p := TickAll(f, s, n - 1), f.cfg.members[n - 1];
      if p in b.nodes {
        TickOneKeeps(f, b, p);
      }
    }
  }

  lemma SetAside(s: Sim, t: Sim)
    requires Balanced(s, []) && Pending(t, s.inflight) == Pending(s, [])
    requires t.history == s.history && t.delivered == s.delivered && t.dropped == s.dropped
    ensures Balanced(t, s.inflight)
  {
  }

  lemma SetAsideSane(f: Fabric, s: Sim, t: Sim)
    requires Sane(f, s, []) && t == s.(tick := s.tick + 1, inflight := [])
    ensures Sane(f, t, s.inflight)
  {
    hide WiredNodes, Routable, Balanced;
    assert Pending(t, s.inflight) == Pending(s, []) == s.inflight;
    SetAside(s, t);
  }

  lemma StepKeeps(f: Fabric, s: Sim)
    requires f.cfg.Valid() && Sane(f, s, [])
    ensures Sane(f, Step(f, s), [])
  {
    hide Drain, TickAll, Sane;
    var t := s.(tick := s.tick + 1, inflight := []);
    SetAsideSane(f, s, t);
    DrainKeeps(f, t, s.inflight, |s.inflight|);
    assert s.inflight[|s.inflight|..] == [];
    TickAllKeeps(f, Drain(f, t, s.inflight, |s.inflight|), |f.cfg.members|);
  }

  lemma OfferKeeps(f: Fabric, s: Sim, cmd: string)
    requires Sane(f, s, [])
    ensures Sane(f, ProposeToLeader(f, s, cmd), [])
  {
    hide Propose, SoleLeader, Sane;
    SaneParts(f, s, []);
    var l := SoleLeader(f.cfg, s.nodes);
    if l.Some? && l.value in s.nodes {
      var p := l.value;
      ProposeTraffic(f.cfg, p, s.nodes[p], cmd);
      OneNodeWired(f.cfg, s.nodes, p, Propose(f.cfg, s.nodes[p], cmd));
      SaneFrame(f, s, ProposeToLeader(f, s, cmd), []);
    }
  }

  lemma {:induction false} AlwaysSane(f: Fabric, sims: seq<Sim>, moves: seq<Move>, n: nat)
    requires Simulated(f, sims, moves) && n <= |moves|
    ensures Sane(f, sims[n], [])
  {
    hide Step, ProposeToLeader, Sane, FirstSim;
    if n == 0 {
      FirstSane(f);
    } else {
      AlwaysSane(f, sims, moves, n - 1);
      assert Moved(f, sims, moves, n - 1);
      var s, t := sims[n - 1], sims[n];
      match moves[n - 1]
      case StepOn => StepKeeps(f, s);
      case Offer(cmd) => OfferKeeps(f, s, cmd);
      case _ =>
        SaneParts(f, s, []);
        SaneFrame(f, s, t, []);
    }
  }

  lemma FirstSane(f: Fabric)
    requires f.cfg.Valid()
    ensures Sane(f, FirstSim(f), [])
  {
    var s := FirstSim(f);
    forall p | p in s.nodes
      ensures WellWired(f.cfg, p, s.nodes[p])
    {
      assert s.nodes[p].wire.sendTr.Keys == ToSet(f.cfg.members) - {p};
      assert s.nodes[p].wire.recvTr.Keys == ToSet(f.cfg.members) - {p};
    }
  }

  // Every message offered to the network was dropped, delivered or is in flight,
  // and the queue neither loses, doubles nor alters what was put on it.
  lemma MessagesAreConserved(f: Fabric, sims: seq<Sim>, moves: seq<Move>, n: nat)
    requires Simulated(f, sims, moves) && n <= |moves|
    ensures var s := sims[n];
      && LostCount(s.history) + |AllQueued(s.history)| == s.dropped + s.delivered + |s.inflight|
      && AllQueued(s.history) == AllHanded(s.history) + multiset(s.inflight)
  {
    hide Simulated, WiredNodes, Routable, AllQueued, AllHanded, LostCount;
    SimShape(f, sims, moves);
    AlwaysSane(f, sims, moves, n);
    var s := sims[n];
    assert Pending(s, []) == s.inflight;
    assert |AllQueued(s.history)| == |AllHanded(s.history)| + |multiset(s.inflight)|;
  }

  lemma SimShape(f: Fabric, sims: seq<Sim>, moves: seq<Move>)
    requires Simulated(f, sims, moves)
    ensures f.cfg.Valid() && |sims| == |moves| + 1
  {
  }
}
