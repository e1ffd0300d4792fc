/** The simulated fabric between the replicas (internal/sim/network.go). */
module Networks {
  import opened Types
  import opened Crypt
  import opened NetMatrix
  import opened Nodes

  datatype Edge = Edge(from: NodeID, to: NodeID)

  // A message in transit; via is the relay it goes through, if any.
  datatype Flight = Flight(env: Envelope, due: nat, via: Option<NodeID>)

  // What stays fixed in a run. forge is what the hostile hop writes over a payload
  // the nth time it strikes, and rng the stream each replica draws from.
  datatype Fabric = Fabric(cfg: Config, cloud: map<NodeID, nat>, latency: map<Edge, nat>,
                           baseDelay: nat, crossDelay: nat, relay: bool,
                           forge: (nat, Payload) -> Payload, rng: (NodeID, nat) -> nat)

  // A log of what became of every message, kept for the statements about it.
  datatype Happening =
    | Lost(env: Envelope)
    | Queued(flight: Flight)
    | Handed(flight: Flight, at: nat)

  // The value of one Network object.
  datatype Sim = Sim(nodes: map<NodeID, NodeState>, down: set<Edge>, corrupt: set<Edge>,
                     inflight: seq<Flight>, tick: nat, drawn: nat,
                     delivered: nat, dropped: nat, corrupted: nat, relayed: nat,
                     history: seq<Happening>)

  function DelayFor(f: Fabric, from: NodeID, to: NodeID): nat {
    if Edge(from, to) in f.latency then f.latency[Edge(from, to)]
    else if from in f.cloud && to in f.cloud && f.cloud[from] != f.cloud[to] then f.baseDelay + f.crossDelay
    else f.baseDelay
  }

  function Draw(f: Fabric, p: NodeID, k: nat): (d: nat)
    requires f.cfg.timeout >= 1
    ensures d < f.cfg.timeout
  {
    f.rng(p, k) % f.cfg.timeout
  }

  // The relay comes from the sender's belief and must also work in fact.
  function FindRelay(s: Sim, from: NodeID, to: NodeID): Option<NodeID> {
    if from !in s.nodes then None
    else
      match Relay(s.nodes[from].links.view, from, to)
      case None => None
      case Some(via) =>
        if via == to || Edge(from, via) in s.down || Edge(via, to) in s.down then None else Some(via)
  }

  function Queue(s: Sim, m: Flight): Sim {
    s.(inflight := s.inflight + [m], history := s.history + [Queued(m)])
  }

  // The network's faults strike when a message is put on the wire.
  function Enqueue(f: Fabric, s: Sim, env: Envelope): Sim {
    var e := Edge(env.from, env.to);
    if e in s.down then
      match if f.relay then FindRelay(s, env.from, env.to) else None
      case Some(via) =>
        Queue(s.(relayed := s.relayed + 1),
              Flight(env, s.tick + (DelayFor(f, env.from, via) + DelayFor(f, via, env.to)), Some(via)))
      case None => s.(dropped := s.dropped + 1, history := s.history + [Lost(env)])
    else if e in s.corrupt then
      Queue(s.(corrupted := s.corrupted + 1),
            Flight(env.Tamper(f.forge(s.corrupted, env.payload)), s.tick + DelayFor(f, env.from, env.to), None))
    else Queue(s, Flight(env, s.tick + DelayFor(f, env.from, env.to), None))
  }

  function EnqueueAll(f: Fabric, s: Sim, out: seq<Envelope>, n: nat): Sim
    requires n <= |out|
  {
    if n == 0 then s else Enqueue(f, EnqueueAll(f, s, out, n - 1), out[n - 1])
  }

  // A message for nobody vanishes without being counted.
  function Hand(f: Fabric, s: Sim, m: Flight): Sim
    requires f.cfg.Valid()
  {
    if m.env.to !in s.nodes then s
    else
      var d := Deliver(f.cfg, s.nodes[m.env.to], m.env, Draw(f, m.env.to, s.drawn));
      EnqueueAll(f, s.(nodes := s.nodes[m.env.to := d], delivered := s.delivered + 1, drawn := s.drawn + 1,
                       history := s.history + [Handed(m, s.tick)]), d.wire.outbox, |d.wire.outbox|)
  }

  // The first n pending messages: hand over what is due, keep the rest.
  function Drain(f: Fabric, s: Sim, pending: seq<Flight>, n: nat): Sim
    requires f.cfg.Valid() && n <= |pending|
  {
    if n == 0 then s
    else
      var b, m := Drain(f, s, pending, n - 1), pending[n - 1];
      if m.due > b.tick then b.(inflight := b.inflight + [m]) else Hand(f, b, m)
  }

  function TickOne(f: Fabric, s: Sim, p: NodeID): Sim
    requires f.cfg.Valid() && p in s.nodes
  {
    var t := Tick(f.cfg, s.nodes[p], Draw(f, p, s.drawn));
    EnqueueAll(f, s.(nodes := s.nodes[p := t], drawn := s.drawn + 1), t.wire.outbox, |t.wire.outbox|)
  }

  function TickAll(f: Fabric, s: Sim, n: nat): Sim
    requires f.cfg.Valid() && n <= |f.cfg.members|
  {
    if n == 0 then s
    else
      var b, p := TickAll(f, s, n - 1), f.cfg.members[n - 1];
      if p in b.nodes then TickOne(f, b, p) else b
  }

  // One tick of the whole simulation. The queue is set aside first, so that
  // replies made while it is drained are kept.
  function Step(f: Fabric, s: Sim): Sim
    requires f.cfg.Valid()
  {
    var t := s.(tick := s.tick + 1, inflight := []);
    TickAll(f, Drain(f, t, s.inflight, |s.inflight|), |f.cfg.members|)
  }

  // ---------- Faults and clients ----------

  // How many of the first n members are leader, and the last of them.
  function Leaders(cfg: Config, nodes: map<NodeID, NodeState>, n: nat): (r: (nat, Option<NodeID>))
    requires n <= |cfg.members|
  {
    if n == 0 then (0, None)
    else
      var b, p := Leaders(cfg, nodes, n - 1), cfg.members[n - 1];
      if p in nodes && nodes[p].raft.role == Leader then (b.0 + 1, Some(p)) else b
  }

  function SoleLeader(cfg: Config, nodes: map<NodeID, NodeState>): Option<NodeID> {
    var l := Leaders(cfg, nodes, |cfg.members|);
    if l.0 == 1 then l.1 else None
  }

  // The search reports a leader exactly when it is the only one.
  lemma SoleLeaderIsExact(cfg: Config, nodes: map<NodeID, NodeState>, p: NodeID)
    requires Ascending(cfg.members) && nodes.Keys == ToSet(cfg.members)
    ensures SoleLeader(cfg, nodes) == Some(p) <==>
      p in nodes && nodes[p].raft.role == Leader && forall q :: q in nodes && nodes[q].raft.role == Leader ==> q == p
  {
    LeadersCount(cfg, nodes, |cfg.members|);
    var l, n := Leaders(cfg, nodes, |cfg.members|), |cfg.members|;
    assert cfg.members[..n] == cfg.members;
    forall q | q in nodes
      ensures q in cfg.members
    {
      assert q in ToSet(cfg.members);
    }
  }

  lemma LeadersCount(cfg: Config, nodes: map<NodeID, NodeState>, n: nat)
    requires Ascending(cfg.members) && nodes.Keys == ToSet(cfg.members) && n <= |cfg.members|
    ensures var l := Leaders(cfg, nodes, n);
      && (l.0 == 0 ==> l.1 == None && forall q :: q in cfg.members[..n] ==> nodes[q].raft.role != Leader)
      && (l.0 >= 1 ==> l.1.Some? && l.1.value in cfg.members[..n] && nodes[l.1.value].raft.role == Leader)
      && (l.0 == 1 ==> forall q :: q in cfg.members[..n] && nodes[q].raft.role == Leader ==> l.1 == Some(q))
      && (l.0 >= 2 ==> exists q :: q in cfg.members[..n] && nodes[q].raft.role == Leader && l.1 != Some(q))
  {
    forall q | q in cfg.members
      ensures q in nodes
    {
      assert q in ToSet(cfg.members);
    }
    if n > 0 {
      LeadersCount(cfg, nodes, n - 1);
      var b, p := Leaders(cfg, nodes, n - 1), cfg.members[n - 1];
      assert cfg.members[..n] == cfg.members[..n - 1] + [p];
      assert p !in cfg.members[..n - 1];
      if b.0 >= 1 && nodes[p].raft.role == Leader {
        assert b.1.value in cfg.members[..n];
      }
    }
  }

  datatype Move =
    | StepOn
    | Cut(e: Edge)
    | Heal(e: Edge)
    | Subvert(e: Edge)
    | Clean(e: Edge)
    | Offer(cmd: string)

  function ProposeToLeader(f: Fabric, s: Sim, cmd: string): Sim {
    match SoleLeader(f.cfg, s.nodes)
    case Some(p) => if p in s.nodes then s.(nodes := s.nodes[p := Propose(f.cfg, s.nodes[p], cmd)]) else s
    case None => s
  }

  function Perform(f: Fabric, s: Sim, m: Move): Sim
    requires f.cfg.Valid()
  {
    match m
    case StepOn => Step(f, s)
    case Cut(e) => s.(down := s.down + {e})
    case Heal(e) => s.(down := s.down - {e})
    case Subvert(e) => s.(corrupt := s.corrupt + {e})
    case Clean(e) => s.(corrupt := s.corrupt - {e})
    case Offer(cmd) => ProposeToLeader(f, s, cmd)
  }

  function FirstSim(f: Fabric): Sim
    requires f.cfg.Valid()
  {
    Sim(map p | p in f.cfg.members :: NewNode(f.cfg, p, f.cfg.ring[p], Draw(f, p, 0)),
        {}, {}, [], 0, 1, 0, 0, 0, 0, [])
  }

  // Move i of a simulation.
  ghost predicate Moved(f: Fabric, sims: seq<Sim>, moves: seq<Move>, i: nat)
    requires f.cfg.Valid()
  {
    i < |moves| && i + 1 < |sims| && sims[i + 1] == Perform(f, sims[i], moves[i])
  }

  // The states a simulation goes through.
  ghost predicate Simulated(f: Fabric, sims: seq<Sim>, moves: seq<Move>) {
    && f.cfg.Valid() && |sims| == |moves| + 1 && sims[0] == FirstSim(f)
    && forall i: nat :: i < |moves| ==> Moved(f, sims, moves, i)
  }
}
