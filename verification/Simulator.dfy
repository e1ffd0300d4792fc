/** The simulator as the source has it: one object holding the replicas, the faults
    and the queue (internal/sim/network.go). Every method is proved to do what the
    function of module Networks says. */
module Simulator {
  import opened Types
  import opened Crypt
  import opened NetMatrix
  import opened Rafts
  import opened Nodes
  import opened Replicas
  import opened Networks

  ghost function AllObjects(nodes: map<NodeID, Replica>): set<object> {
    set p, o | p in nodes && o in nodes[p].Footprint() :: o
  }

  lemma Inside(nodes: map<NodeID, Replica>, p: NodeID)
    requires p in nodes
    ensures nodes[p].Footprint() <= AllObjects(nodes)
  {
  }

  lemma StateOf(nodes: map<NodeID, Replica>, p: NodeID)
    ensures p in States(nodes) <==> p in nodes
    ensures p in nodes ==> States(nodes)[p] == nodes[p].State()
  {
  }

  ghost predicate Apart(nodes: map<NodeID, Replica>) {
    forall p, q :: p in nodes && q in nodes && p != q ==> nodes[p].Footprint() !! nodes[q].Footprint()
  }

  ghost function States(nodes: map<NodeID, Replica>): map<NodeID, NodeState>
    reads AllObjects(nodes)
  {
    map p | p in nodes :: (Inside(nodes, p); nodes[p].State())
  }

  ghost predicate AllValid(cfg: Config, nodes: map<NodeID, Replica>)
    reads AllObjects(nodes)
  {
    forall p :: p in nodes ==>
      (Inside(nodes, p); nodes[p].cfg == cfg && nodes[p].id == p && nodes[p].Valid())
  }

  // A replica whose objects did not change has not changed.
  twostate lemma Untouched(r: Replica)
    requires unchanged(r.Footprint())
    ensures r.State() == old(r.State()) && r.Valid() == old(r.Valid())
  {
  }

  lemma AllValidParts(cfg: Config, nodes: map<NodeID, Replica>)
    ensures AllValid(cfg, nodes) <==>
      forall p :: p in nodes ==> nodes[p].cfg == cfg && nodes[p].id == p && nodes[p].Valid()
  {
    hide Replica.Valid;
  }

  lemma ApartAt(nodes: map<NodeID, Replica>, p: NodeID, q: NodeID)
    requires Apart(nodes) && p in nodes && q in nodes && p != q
    ensures nodes[p].Footprint() !! nodes[q].Footprint()
  {
    hide Replica.Footprint;
  }

  lemma StatesAre(nodes: map<NodeID, Replica>, before: map<NodeID, NodeState>)
    requires before == States(nodes)
    ensures before.Keys == nodes.Keys && forall q :: q in nodes ==> before[q] == nodes[q].State()
  {
  }

  // Only p moved.
  lemma OneMoved(nodes: map<NodeID, Replica>, before: map<NodeID, NodeState>, p: NodeID)
    requires p in nodes && before.Keys == nodes.Keys
    requires forall q :: q in nodes && q != p ==> nodes[q].State() == before[q]
    ensures States(nodes) == before[p := nodes[p].State()]
  {
    hide Replica.State;
  }

  // One fresh replica for every member.
  method BuildReplicas(fabric: Fabric) returns (nodes: map<NodeID, Replica>)
    requires fabric.cfg.Valid() && fabric.cfg.AsCoded()
    ensures Apart(nodes) && AllValid(fabric.cfg, nodes) && fresh(AllObjects(nodes))
    ensures States(nodes) == FirstSim(fabric).nodes
  {
    hide Replica.Footprint, Apart, AllValid, Started, States, AllObjects, ToSet, Config.Valid;
    nodes := map[];
    NoReplicas(fabric);
    for i := 0 to |fabric.cfg.members|
      invariant nodes.Keys == ToSet(fabric.cfg.members[..i])
      invariant Apart(nodes) && AllValid(fabric.cfg, nodes) && fresh(AllObjects(nodes))
      invariant Started(fabric, nodes) && forall o :: o in AllObjects(nodes) ==> allocated(o)
    {
      var p := fabric.cfg.members[i];
      NextMember(fabric.cfg, i);
      nodes := BuildOne(fabric, nodes, p);
    }
    assert fabric.cfg.members[..|fabric.cfg.members|] == fabric.cfg.members;
    AllStarted(fabric, nodes);
  }

  method BuildOne(fabric: Fabric, nodes: map<NodeID, Replica>, p: NodeID) returns (more: map<NodeID, Replica>)
    requires fabric.cfg.Valid() && fabric.cfg.AsCoded() && p in fabric.cfg.members && p !in nodes
    requires p in fabric.cfg.ring && fabric.cfg.timeout >= 1
    requires Apart(nodes) && AllValid(fabric.cfg, nodes) && Started(fabric, nodes)
    requires forall o :: o in AllObjects(nodes) ==> allocated(o)
    ensures more.Keys == nodes.Keys + {p}
    ensures Apart(more) && AllValid(fabric.cfg, more) && Started(fabric, more)
    ensures fresh(AllObjects(more) - AllObjects(nodes))
    ensures forall o :: o in AllObjects(more) ==> allocated(o)
  {
    hide Replica.State, Replica.Valid, NewNode, Apart, AllValid, Started, Draw, Config.Valid;
    var r := new Replica(fabric.cfg, p, fabric.cfg.ring[p], Draw(fabric, p, 0));
    AddReplica(fabric, nodes, p, r);
    more := nodes[p := r];
  }

  lemma NextMember(cfg: Config, i: nat)
    requires cfg.Valid() && i < |cfg.members|
    ensures var p, members := cfg.members[i], cfg.members;
      && p in cfg.ring && cfg.timeout >= 1 && p !in ToSet(members[..i])
      && ToSet(members[..i + 1]) == ToSet(members[..i]) + {p}
  {
    var members := cfg.members;
    assert members[..i + 1] == members[..i] + [members[i]];
  }

  // Every replica is as its constructor left it.
  ghost predicate Started(fabric: Fabric, nodes: map<NodeID, Replica>)
    requires fabric.cfg.Valid()
    reads AllObjects(nodes)
  {
    forall p :: p in nodes ==>
      (Inside(nodes, p); p in fabric.cfg.members && nodes[p].State() == NewNode(fabric.cfg, p, fabric.cfg.ring[p],
            Draw(fabric, p, 0)))
  }

  lemma NoReplicas(fabric: Fabric)
    requires fabric.cfg.Valid()
    ensures ToSet(fabric.cfg.members[..0]) == {}
    ensures AllObjects(map[]) == {} && Apart(map[]) && AllValid(fabric.cfg, map[]) && Started(fabric, map[])
  {
  }

  lemma AddReplica(fabric: Fabric, nodes: map<NodeID, Replica>, p: NodeID, r: Replica)
    requires fabric.cfg.Valid() && p in fabric.cfg.members && p !in nodes
    requires Apart(nodes) && AllValid(fabric.cfg, nodes) && Started(fabric, nodes)
    requires r.Footprint() !! AllObjects(nodes) && r.cfg == fabric.cfg && r.id == p && r.Valid()
    requires r.State() == NewNode(fabric.cfg, p, fabric.cfg.ring[p], Draw(fabric, p, 0))
    ensures Apart(nodes[p := r]) && AllValid(fabric.cfg, nodes[p := r]) && Started(fabric, nodes[p := r])
    ensures AllObjects(nodes[p := r]) == AllObjects(nodes) + r.Footprint()
  {
    hide Replica.State, Replica.Valid, Replica.Footprint, NewNode;
    forall q | q in nodes
      ensures nodes[q].Footprint() <= AllObjects(nodes)
    {
      Inside(nodes, q);
    }
    var after := nodes[p := r];
    forall o
      ensures o in AllObjects(after) <==> o in AllObjects(nodes) || o in r.Footprint()
    {
      if q :| q in nodes && o in nodes[q].Footprint() {
        assert after[q] == nodes[q];
      }
      assert after[p] == r;
    }
  }

  lemma AllStarted(fabric: Fabric, nodes: map<NodeID, Replica>)
    requires fabric.cfg.Valid() && nodes.Keys == ToSet(fabric.cfg.members) && Started(fabric, nodes)
    ensures States(nodes) == FirstSim(fabric).nodes
  {
    hide Replica.State, NewNode;
  }

  class Network {
    const fabric: Fabric
    const nodes: map<NodeID, Replica>
    var down: set<Edge>
    var corrupt: set<Edge>
    var inflight: seq<Flight>
    var tick: nat
    var drawn: nat
    var delivered: nat
    var dropped: nat
    var corrupted: nat
    var relayed: nat
    ghost var history: seq<Happening>

    ghost function Value(): Sim
      reads this, AllObjects(nodes)
    {
      Sim(States(nodes), down, corrupt, inflight, tick, drawn, delivered, dropped, corrupted, relayed, history)
    }

    ghost predicate Valid()
      reads this, AllObjects(nodes)
    {
      && fabric.cfg.Valid() && fabric.cfg.AsCoded()
      && this !in AllObjects(nodes) && Apart(nodes) && AllValid(fabric.cfg, nodes)
    }

    constructor (fabric: Fabric)
      requires fabric.cfg.Valid() && fabric.cfg.AsCoded()
      ensures this.fabric == fabric && Valid() && Value() == FirstSim(fabric)
      ensures fresh(AllObjects(nodes))
    {
      hide Apart, AllValid, States, NewNode;
      var ns := BuildReplicas(fabric);
      this.fabric, nodes := fabric, ns;
      down, corrupt, inflight, tick, drawn := {}, {}, [], 0, 1;
      delivered, dropped, corrupted, relayed := 0, 0, 0, 0;
      history := [];
    }

    // ---------- Fault injection ----------

    method CutLink(from: NodeID, to: NodeID)
      requires Valid()
      modifies this
      ensures Valid() && Value() == Perform(fabric, old(Value()), Cut(Edge(from, to)))
    {
      hide AllObjects, Apart, AllValid, States, Replica.State, Replica.Valid, Replica.Footprint;
      down := down + {Edge(from, to)};
    }

    method HealLink(from: NodeID, to: NodeID)
      requires Valid()
      modifies this
      ensures Valid() && Value() == Perform(fabric, old(Value()), Heal(Edge(from, to)))
    {
      hide AllObjects, Apart, AllValid, States, Replica.State, Replica.Valid, Replica.Footprint;
      down := down - {Edge(from, to)};
    }

    method PartitionBoth(a: NodeID, b: NodeID)
      requires Valid()
      modifies this
      ensures Valid()
      ensures Value() == Perform(fabric, Perform(fabric, old(Value()), Cut(Edge(a, b))), Cut(Edge(b, a)))
    {
      hide AllObjects, Apart, AllValid, States, Replica.State, Replica.Valid, Replica.Footprint;
      CutLink(a, b);
      CutLink(b, a);
    }

    method CorruptLink(from: NodeID, to: NodeID)
      requires Valid()
      modifies this
      ensures Valid() && Value() == Perform(fabric, old(Value()), Subvert(Edge(from, to)))
    {
      hide AllObjects, Apart, AllValid, States, Replica.State, Replica.Valid, Replica.Footprint;
      corrupt := corrupt + {Edge(from, to)};
    }

    method CleanLink(from: NodeID, to: NodeID)
      requires Valid()
      modifies this
      ensures Valid() && Value() == Perform(fabric, old(Value()), Clean(Edge(from, to)))
    {
      hide AllObjects, Apart, AllValid, States, Replica.State, Replica.Valid, Replica.Footprint;
      corrupt := corrupt - {Edge(from, to)};
    }

    // ---------- The queue ----------

    method FindRelay(from: NodeID, to: NodeID) returns (r: Option<NodeID>)
      requires Valid()
      ensures r == Networks.FindRelay(Value(), from, to)
      ensures Valid() && Value() == old(Value())
    {
      hide Apart, Replica.State, Replica.Valid, Relay, States, View.Value, Config.Valid, Ascending;
      StateOf(nodes, from);
      if from !in nodes {
        return None;
      }
      ViewOf(nodes[from]);
      var via := nodes[from].view.FindRelay(from, to);
      if via == None || via.value == to {
        return None;
      }
      if Edge(from, via.value) in down || Edge(via.value, to) in down {
        return None;
      }
      r := via;
    }

    method Enqueue(env: Envelope)
      requires Valid()
      modifies this
      ensures Valid() && Value() == Networks.Enqueue(fabric, old(Value()), env)
    {
      hide AllObjects, Apart, AllValid, States, Replica.State, Replica.Valid, Replica.Footprint, Networks.FindRelay,
            DelayFor, Queue;
      var e := Edge(env.from, env.to);
      if e in down {
        if fabric.relay {
          var via := FindRelay(env.from, env.to);
          if via.Some? {
            relayed := relayed + 1;
            var due := tick + (DelayFor(fabric, env.from, via.value) + DelayFor(fabric, via.value, env.to));
            Push(Flight(env, due, via));
            return;
          }
        }
        dropped := dropped + 1;
        history := history + [Lost(env)];
        return;
      }
      var sent := env;
      if e in corrupt {
        sent := env.Tamper(fabric.forge(corrupted, env.payload));
        corrupted := corrupted + 1;
      }
      Push(Flight(sent, tick + DelayFor(fabric, env.from, env.to), None));
    }

    method Push(m: Flight)
      requires Valid()
      modifies this`inflight, this`history
      ensures Valid() && Value() == Queue(old(Value()), m)
    {
      hide AllObjects, Apart, AllValid, States, Replica.State, Replica.Valid, Replica.Footprint;
      inflight := inflight + [m];
      history := history + [Queued(m)];
    }

    method EnqueueAll(out: seq<Envelope>)
      requires Valid()
      modifies this
      ensures Valid() && Value() == Networks.EnqueueAll(fabric, old(Value()), out, |out|)
    {
      hide AllObjects, Apart, AllValid, States, Replica.State, Replica.Valid, Replica.Footprint, Networks.Enqueue;
      ghost var s := Value();
      for i := 0 to |out|
        invariant Valid() && Value() == Networks.EnqueueAll(fabric, s, out, i)
      {
        Enqueue(out[i]);
      }
    }

    // ---------- Running the replicas ----------

    // One replica takes a message; the others are untouched.
    method HandTo(p: NodeID, env: Envelope, draw: nat) returns (out: seq<Envelope>)
      requires Valid() && p in nodes
      modifies nodes[p].Footprint()
      ensures Valid()
      ensures States(nodes) == old(States(nodes))[p := Nodes.Deliver(fabric.cfg, old(nodes[p].State()), env, draw)]
      ensures out == nodes[p].State().wire.outbox
    {
      hide Replica.State, Replica.Valid, States, AllObjects, Apart, AllValid, Config.Valid;
      hide Nodes.Deliver, Nodes.Tick, Nodes.Propose;
      ghost var before := States(nodes);
      StatesAre(nodes, before);
      AllValidParts(fabric.cfg, nodes);
      out := nodes[p].Deliver(env, draw);
      forall q | q in nodes && q != p
        ensures nodes[q].State() == before[q] && nodes[q].Valid()
      {
        ApartAt(nodes, p, q);
        Untouched(nodes[q]);
      }
      AllValidParts(fabric.cfg, nodes);
      OneMoved(nodes, before, p);
    }

    method RunOne(p: NodeID, draw: nat) returns (out: seq<Envelope>)
      requires Valid() && p in nodes
      modifies nodes[p].Footprint()
      ensures Valid()
      ensures States(nodes) == old(States(nodes))[p := Nodes.Tick(fabric.cfg, old(nodes[p].State()), draw)]
      ensures out == nodes[p].State().wire.outbox
    {
      hide Replica.State, Replica.Valid, States, AllObjects, Apart, AllValid, Config.Valid;
      hide Nodes.Deliver, Nodes.Tick, Nodes.Propose;
      ghost var before := States(nodes);
      StatesAre(nodes, before);
      AllValidParts(fabric.cfg, nodes);
      out := nodes[p].Tick(draw);
      forall q | q in nodes && q != p
        ensures nodes[q].State() == before[q] && nodes[q].Valid()
      {
        ApartAt(nodes, p, q);
        Untouched(nodes[q]);
      }
      AllValidParts(fabric.cfg, nodes);
      OneMoved(nodes, before, p);
    }

    method Deliver(m: Flight)
      requires Valid()
      modifies this, AllObjects(nodes)
      ensures Valid() && Value() == Hand(fabric, old(Value()), m)
    {
      hide AllObjects, Apart, AllValid, Replica.State, Replica.Valid, Replica.Footprint, Nodes.Deliver,
            Networks.EnqueueAll;
      if m.env.to !in nodes {
        return;
      }
      Inside(nodes, m.env.to);
      StateOf(nodes, m.env.to);
      delivered := delivered + 1;
      var out := HandTo(m.env.to, m.env, Draw(fabric, m.env.to, drawn));
      drawn := drawn + 1;
      history := history + [Handed(m, tick)];
      EnqueueAll(out);
    }

    method Step()
      requires Valid()
      modifies this, AllObjects(nodes)
      ensures Valid() && Value() == Networks.Step(fabric, old(Value()))
    {
      hide AllObjects, Apart, AllValid, States, Replica.State, Replica.Valid, Replica.Footprint, Hand, TickAll;
      tick := tick + 1;
      var pending := inflight;
      inflight := [];
      ghost var t := Value();
      for i := 0 to |pending|
        invariant Valid() && Value() == Drain(fabric, t, pending, i)
      {
        if pending[i].due > tick {
          inflight := inflight + [pending[i]];
        } else {
          Deliver(pending[i]);
        }
      }
      RunAll();
    }

    // Every replica runs, in member order, and what it emits is queued.
    method RunAll()
      requires Valid()
      modifies this, AllObjects(nodes)
      ensures Valid() && Value() == TickAll(fabric, old(Value()), |fabric.cfg.members|)
    {
      hide AllObjects, Apart, AllValid, Replica.State, Replica.Valid, Replica.Footprint, Nodes.Tick,
            Networks.EnqueueAll;
      ghost var s := Value();
      for i := 0 to |fabric.cfg.members|
        invariant Valid() && Value() == TickAll(fabric, s, i)
      {
        var p := fabric.cfg.members[i];
        if p in nodes {
          Inside(nodes, p);
          StateOf(nodes, p);
          var out := RunOne(p, Draw(fabric, p, drawn));
          drawn := drawn + 1;
          EnqueueAll(out);
        }
      }
    }

    // ---------- Clients ----------

    // The leader, if exactly one replica says it is.
    method Leader() returns (r: Option<NodeID>)
      requires Valid()
      ensures r == SoleLeader(fabric.cfg, States(nodes))
      ensures Valid() && Value() == old(Value())
    {
      hide Replica.State, Replica.Valid, Apart, States, View.Value, Ascending;
      var found, count := None, 0;
      for i := 0 to |fabric.cfg.members|
        invariant (count, found) == Leaders(fabric.cfg, States(nodes), i)
      {
        var p := fabric.cfg.members[i];
        StateOf(nodes, p);
        if p in nodes {
          ViewOf(nodes[p]);
        }
        if p in nodes && nodes[p].role == Role.Leader {
          found, count := Some(p), count + 1;
        }
      }
      r := if count == 1 then found else None;
    }

    method Propose(cmd: string) returns (ok: bool)
      requires Valid()
      modifies this, AllObjects(nodes)
      ensures Valid() && Value() == ProposeToLeader(fabric, old(Value()), cmd)
      ensures ok <==>
        var nodes, l := old(States(nodes)), SoleLeader(fabric.cfg, old(States(nodes)));
        l.Some? && l.value in nodes && nodes[l.value].raft.role == Role.Leader
    {
      hide AllObjects, Apart, AllValid, Replica.State, Replica.Valid, Replica.Footprint, Nodes.Propose, SoleLeader;
      var l := Leader();
      if l == None || l.value !in nodes {
        return false;
      }
      Inside(nodes, l.value);
      StateOf(nodes, l.value);
      ok := ProposeTo(l.value, cmd);
    }

    method ProposeTo(p: NodeID, cmd: string) returns (ok: bool)
      requires Valid() && p in nodes
      modifies nodes[p].Footprint()
      ensures Valid()
      ensures States(nodes) == old(States(nodes))[p := Nodes.Propose(fabric.cfg, old(nodes[p].State()), cmd)]
      ensures ok <==> old(nodes[p].State()).raft.role == Role.Leader
    {
      hide Replica.State, Replica.Valid, States, AllObjects, Apart, AllValid, Config.Valid;
      hide Nodes.Deliver, Nodes.Tick, Nodes.Propose;
      ghost var before := States(nodes);
      StatesAre(nodes, before);
      AllValidParts(fabric.cfg, nodes);
      ViewOf(nodes[p]);
      ok := nodes[p].Propose(cmd);
      forall q | q in nodes && q != p
        ensures nodes[q].State() == before[q] && nodes[q].Valid()
      {
        ApartAt(nodes, p, q);
        Untouched(nodes[q]);
      }
      AllValidParts(fabric.cfg, nodes);
      OneMoved(nodes, before, p);
    }
  }
}
