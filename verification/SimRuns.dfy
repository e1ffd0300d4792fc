/** The simulator runs the protocol: every state it reaches is a state of a run of
    the cluster, so everything proved of runs holds in it. */
module SimRuns {
  import opened Types
  import opened Crypt
  import opened Nodes
  import opened Clusters
  import opened Histories
  import opened Networks
  import opened NetworkLaws
  import opened Routes
  import opened Worlds
  import opened Safety

  // What is in transit was sent, or made from what was sent.
  ghost predicate Grounded(net: set<Envelope>, ms: seq<Flight>) {
    forall m :: m in ms ==> Forgeable(net, m.env)
  }

  ghost predicate Tracks(f: Fabric, s: Sim, rest: seq<Flight>, states: seq<Cluster>, acts: seq<Action>) {
    && Run(f.cfg, states, acts) && states[|acts|].nodes == s.nodes
    && Grounded(states[|acts|].net, Pending(s, rest))
  }

  ghost predicate Within(out: seq<Envelope>, net: set<Envelope>) {
    forall e :: e in out ==> e in net
  }

  lemma EnqueueGrounded(f: Fabric, s: Sim, rest: seq<Flight>, env: Envelope, net: set<Envelope>)
    requires Grounded(net, Pending(s, rest)) && env in net
    ensures Grounded(net, Pending(Enqueue(f, s, env), rest)) && Enqueue(f, s, env).nodes == s.nodes
  {
    hide FindRelay, DelayFor;
    var t := Enqueue(f, s, env);
    assert Forgeable(net, env) && Forgeable(net, env.Tamper(f.forge(s.corrupted, env.payload)));
    if t.inflight != s.inflight {
      assert forall x :: x in Pending(t, rest) ==> x in Pending(s, rest) || x == t.inflight[|s.inflight|];
    }
  }

  lemma EnqueueAllGrounded(f: Fabric, s: Sim, rest: seq<Flight>, out: seq<Envelope>, n: nat, net: set<Envelope>)
    requires Grounded(net, Pending(s, rest)) && Within(out, net) && n <= |out|
    ensures Grounded(net, Pending(EnqueueAll(f, s, out, n), rest)) && EnqueueAll(f, s, out, n).nodes == s.nodes
  {
    hide Grounded, Enqueue;
    if n > 0 {
      EnqueueAllGrounded(f, s, rest, out, n - 1, net);
      assert out[n - 1] in out;
      EnqueueGrounded(f, EnqueueAll(f, s, out, n - 1), rest, out[n - 1], net);
    }
  }

  // One node moves and what it emits goes on the wire.
  lemma StepTracks(f: Fabric, s: Sim, rest: seq<Flight>, states: seq<Cluster>, acts: seq<Action>,
                   a: Action, t: Sim, p: NodeID, s': NodeState, base: Sim, k: nat)
    returns (ss: seq<Cluster>, aa: seq<Action>)
    requires Tracks(f, s, rest, states, acts) && !a.ProposeAt? && Enabled(f.cfg, states[|acts|], a)
    requires f.cfg.Valid() && Apply(f.cfg, states[|acts|], a) == Install(states[|acts|], p, s')
    requires t.nodes == s.nodes[p := s'] && t.inflight == s.inflight && p == Actor(a)
    requires Accounts(f, base, t, states, acts, k)
    ensures var u := EnqueueAll(f, t, s'.wire.outbox, |s'.wire.outbox|);
      Tracks(f, u, rest, ss, aa) && Accounts(f, base, u, ss, aa, k) && acts <= aa && states <= ss
  {
    hide Enabled, Apply, Init, EnqueueAll, Accounts, Speaking;
    var c' := Install(states[|acts|], p, s');
    ss, aa := states + [c'], acts + [a];
    RunExtends(f.cfg, states, acts, a, c');
    GroundedGrows(states[|acts|].net, c'.net, s, t, rest);
    EnqueueAllGrounded(f, t, rest, s'.wire.outbox, |s'.wire.outbox|, c'.net);
    ActorSpeaks(f, ss, aa, t);
    AccountsSaid(f, base, t, states, acts, k, a, c');
  }

  // Whoever has just moved in a run speaks for itself.
  lemma ActorSpeaks(f: Fabric, states: seq<Cluster>, acts: seq<Action>, t: Sim)
    requires Run(f.cfg, states, acts) && acts != [] && !acts[|acts| - 1].ProposeAt? && |states| == |acts| + 1
    requires states[|acts|].nodes == t.nodes && Actor(acts[|acts| - 1]) in t.nodes
    ensures Speaking(t, Actor(acts[|acts| - 1]))
  {
    hide Init, Next;
    var n, p := |acts|, Actor(acts[|acts| - 1]);
    RosterStays(f.cfg, states, acts, n, p);
    forall e | e in t.nodes[p].wire.outbox
      ensures e.from == p
    {
      EmittedByActor(f.cfg, states, acts, n - 1, e);
    }
  }

  lemma GroundedGrows(net: set<Envelope>, net': set<Envelope>, s: Sim, t: Sim, rest: seq<Flight>)
    requires Grounded(net, Pending(s, rest)) && net <= net' && t.inflight == s.inflight
    ensures Grounded(net', Pending(t, rest))
  {
    forall m | m in Pending(t, rest)
      ensures Forgeable(net', m.env)
    {
      assert m in Pending(s, rest);
    }
  }

  lemma HandTracks(f: Fabric, s: Sim, rest: seq<Flight>, m: Flight, states: seq<Cluster>, acts: seq<Action>,
                   base: Sim, k: nat)
    returns (ss: seq<Cluster>, aa: seq<Action>)
    requires f.cfg.Valid() && Sane(f, s, [m] + rest) && Tracks(f, s, [m] + rest, states, acts)
    requires Accounts(f, base, s, states, acts, k)
    ensures Tracks(f, Hand(f, s, m), rest, ss, aa) && Accounts(f, base, Hand(f, s, m), ss, aa, k)
    ensures acts <= aa && states <= ss
  {
    hide Init, Next, Deliver, EnqueueAll, Sane, WiredNodes, Accounts;
    NextIsRoutable(f, s, rest, m);
    var p, draw := m.env.to, Draw(f, m.env.to, s.drawn);
    var d := Deliver(f.cfg, s.nodes[p], m.env, draw);
    assert m in Pending(s, [m] + rest);
    assert forall x :: x in Pending(s, rest) ==> x in Pending(s, [m] + rest);
    var t := s.(nodes := s.nodes[p := d], delivered := s.delivered + 1, drawn := s.drawn + 1,
                history := s.history + [Handed(m, s.tick)]);
    AccountsQuiet(f, base, s, t, states, acts, k);
    ss, aa := StepTracks(f, s, rest, states, acts, DeliverTo(m.env, draw), t, p, d, base, k);
  }

  lemma DrainTracks(f: Fabric, s: Sim, pending: seq<Flight>, n: nat, states: seq<Cluster>, acts: seq<Action>,
                    base: Sim, k: nat)
    returns (ss: seq<Cluster>, aa: seq<Action>)
    requires f.cfg.Valid() && n <= |pending| && Sane(f, s, pending) && Tracks(f, s, pending, states, acts)
    requires Accounts(f, base, s, states, acts, k)
    ensures var t := Drain(f, s, pending, n); Tracks(f, t, pending[n..], ss, aa) && Accounts(f, base, t, ss, aa, k)
    ensures acts <= aa && states <= ss
  {
    hide Sane, Hand, Run, Accounts;
    if n == 0 {
      assert pending[0..] == pending;
      ss, aa := states, acts;
    } else {
      var ss0, aa0 := DrainTracks(f, s, pending, n - 1, states, acts, base, k);
      DrainKeeps(f, s, pending, n - 1);
      var b, m := Drain(f, s, pending, n - 1), pending[n - 1];
      assert pending[n - 1..] == [m] + pending[n..];
      if m.due > b.tick {
        assert Pending(b.(inflight := b.inflight + [m]), pending[n..]) == Pending(b, pending[n - 1..]);
        AccountsQuiet(f, base, b, b.(inflight := b.inflight + [m]), ss0, aa0, k);
        ss, aa := ss0, aa0;
      } else {
        ss, aa := HandTracks(f, b, pending[n..], m, ss0, aa0, base, k);
      }
    }
  }

  lemma TickOneTracks(f: Fabric, s: Sim, p: NodeID, states: seq<Cluster>, acts: seq<Action>, base: Sim, k: nat)
    returns (ss: seq<Cluster>, aa: seq<Action>)
    requires f.cfg.Valid() && p in s.nodes && Tracks(f, s, [], states, acts) && Accounts(f, base, s, states, acts, k)
    ensures Tracks(f, TickOne(f, s, p), [], ss, aa) && Accounts(f, base, TickOne(f, s, p), ss, aa, k)
    ensures acts <= aa && states <= ss
  {
    hide Init, Next, Tick, EnqueueAll, Accounts;
    var draw := Draw(f, p, s.drawn);
    var t := Tick(f.cfg, s.nodes[p], draw);
    var u := s.(nodes := s.nodes[p := t], drawn := s.drawn + 1);
    AccountsQuiet(f, base, s, u, states, acts, k);
    ss, aa := StepTracks(f, s, [], states, acts, TickAt(p, draw), u, p, t, base, k);
  }

  lemma TickAllTracks(f: Fabric, s: Sim, n: nat, states: seq<Cluster>, acts: seq<Action>, base: Sim, k: nat)
    returns (ss: seq<Cluster>, aa: seq<Action>)
    requires f.cfg.Valid() && n <= |f.cfg.members| && Tracks(f, s, [], states, acts)
    requires Accounts(f, base, s, states, acts, k)
    ensures Tracks(f, TickAll(f, s, n), [], ss, aa) && Accounts(f, base, TickAll(f, s, n), ss, aa, k)
    ensures acts <= aa && states <= ss
  {
    hide TickOne, Tracks, Accounts;
    if n == 0 {
      ss, aa := states, acts;
    } else {
      ss, aa := TickAllTracks(f, s, n - 1, states, acts, base, k);
      var b, p := TickAll(f, s, n - 1), f.cfg.members[n - 1];
      if p in b.nodes {
        ss, aa := TickOneTracks(f, b, p, ss, aa, base, k);
      }
    }
  }

  lemma StepOnTracks(f: Fabric, s: Sim, states: seq<Cluster>, acts: seq<Action>)
    returns (ss: seq<Cluster>, aa: seq<Action>)
    requires f.cfg.Valid() && Sane(f, s, []) && Tracks(f, s, [], states, acts)
    ensures Tracks(f, Step(f, s), [], ss, aa) && acts <= aa && states <= ss
    ensures Accounts(f, s.(tick := s.tick + 1), Step(f, s), ss, aa, |acts|)
  {
    hide Drain, TickAll, Sane, Tracks, Accounts;
    var t := s.(tick := s.tick + 1, inflight := []);
    AsideTracks(f, s, t, states, acts);
    SetAsideSane(f, s, t);
    var base, k := s.(tick := s.tick + 1), |acts|;
    TracksShape(f, s, [], states, acts);
    AccountsStart(f, base, states, acts);
    AccountsQuiet(f, base, base, t, states, acts, k);
    ss, aa := DrainTracks(f, t, s.inflight, |s.inflight|, states, acts, base, k);
    assert s.inflight[|s.inflight|..] == [];
    var ss1, aa1 := ss, aa;
    ss, aa := TickAllTracks(f, Drain(f, t, s.inflight, |s.inflight|), |f.cfg.members|, ss, aa, base, k);
    assert acts <= aa1 <= aa && states <= ss1 <= ss;
  }

  lemma TracksShape(f: Fabric, s: Sim, rest: seq<Flight>, states: seq<Cluster>, acts: seq<Action>)
    requires Tracks(f, s, rest, states, acts)
    ensures |states| == |acts| + 1 && states[|acts|].nodes == s.nodes
  {
    hide Init, Next;
  }

  lemma AsideTracks(f: Fabric, s: Sim, t: Sim, states: seq<Cluster>, acts: seq<Action>)
    requires Tracks(f, s, [], states, acts) && t == s.(tick := s.tick + 1, inflight := [])
    ensures Tracks(f, t, s.inflight, states, acts)
  {
    hide Run;
    assert Pending(t, s.inflight) == Pending(s, []) == s.inflight;
    RunShape(f.cfg, states, acts);
  }

  lemma FaultTracks(f: Fabric, s: Sim, t: Sim, states: seq<Cluster>, acts: seq<Action>)
    requires Tracks(f, s, [], states, acts) && t.nodes == s.nodes && t.inflight == s.inflight
    ensures Tracks(f, t, [], states, acts)
  {
    hide Run;
    assert Pending(t, []) == Pending(s, []);
    RunShape(f.cfg, states, acts);
  }

  lemma MoveTracks(f: Fabric, s: Sim, m: Move, states: seq<Cluster>, acts: seq<Action>)
    returns (ss: seq<Cluster>, aa: seq<Action>)
    requires f.cfg.Valid() && Sane(f, s, []) && Tracks(f, s, [], states, acts)
    ensures Tracks(f, Perform(f, s, m), [], ss, aa)
  {
    hide Tracks, Sane, Step, ProposeToLeader;
    match m {
      case StepOn => ss, aa := StepOnTracks(f, s, states, acts);
      case Offer(cmd) => ss, aa := OfferTracks(f, s, cmd, states, acts);
      case _ =>
        FaultTracks(f, s, Perform(f, s, m), states, acts);
        ss, aa := states, acts;
    }
  }

  lemma OfferTracks(f: Fabric, s: Sim, cmd: string, states: seq<Cluster>, acts: seq<Action>)
    returns (ss: seq<Cluster>, aa: seq<Action>)
    requires f.cfg.Valid() && Tracks(f, s, [], states, acts)
    ensures Tracks(f, ProposeToLeader(f, s, cmd), [], ss, aa)
  {
    hide Init, Propose, SoleLeader;
    var l := SoleLeader(f.cfg, s.nodes);
    assert Pending(ProposeToLeader(f, s, cmd), []) == Pending(s, []);
    if l.Some? && l.value in s.nodes {
      var a, c := ProposeAt(l.value, cmd), states[|acts|];
      var c' := Apply(f.cfg, c, a);
      RunExtends(f.cfg, states, acts, a, c');
      ss, aa := states + [c'], acts + [a];
    } else {
      ss, aa := states, acts;
    }
  }

  // Every state of a simulation has a run of the cluster behind it.
  lemma {:induction false} SimulationsAreRuns(f: Fabric, sims: seq<Sim>, moves: seq<Move>, n: nat)
    returns (states: seq<Cluster>, acts: seq<Action>)
    requires Simulated(f, sims, moves) && n <= |moves|
    ensures Tracks(f, sims[n], [], states, acts)
  {
    hide Sane, Perform, Tracks, FirstSim;
    if n == 0 {
      states, acts := [Cluster(FirstSim(f).nodes, {})], [];
      FirstTracks(f);
    } else {
      states, acts := SimulationsAreRuns(f, sims, moves, n - 1);
      AlwaysSane(f, sims, moves, n - 1);
      assert Moved(f, sims, moves, n - 1);
      states, acts := MoveTracks(f, sims[n - 1], moves[n - 1], states, acts);
    }
  }

  lemma FirstTracks(f: Fabric)
    requires f.cfg.Valid()
    ensures Tracks(f, FirstSim(f), [], [Cluster(FirstSim(f).nodes, {})], [])
  {
    var c := Cluster(FirstSim(f).nodes, {});
    assert Pending(FirstSim(f), []) == [];
    forall p | p in c.nodes
      ensures p in f.cfg.ring && exists d: nat :: d < f.cfg.timeout && c.nodes[p] == NewNode(f.cfg, p, f.cfg.ring[p], d)
    {
      assert c.nodes[p] == NewNode(f.cfg, p, f.cfg.ring[p], Draw(f, p, 0));
    }
    assert c.nodes.Keys == ToSet(f.cfg.members);
  }

  // In each step of the simulator every message the replicas say, in the order they say
  // it, goes its direct way if that is open, else around if it may and can, and is lost
  // otherwise; nothing else is queued or lost, and the counters agree.
  lemma EveryMessageIsRouted(f: Fabric, sims: seq<Sim>, moves: seq<Move>, n: nat)
    returns (states: seq<Cluster>, acts: seq<Action>, k: nat)
    requires Simulated(f, sims, moves) && n < |moves| && moves[n] == StepOn
    ensures n + 1 < |sims| && Run(f.cfg, states, acts) && |states| == |acts| + 1 && k <= |acts|
    ensures states[k].nodes == sims[n].nodes && states[|acts|].nodes == sims[n + 1].nodes
    ensures sims[n + 1].tick == sims[n].tick + 1 && sims[n].history <= sims[n + 1].history
    ensures sims[n + 1].down == sims[n].down && sims[n + 1].corrupt == sims[n].corrupt
    ensures AllFated(f, sims[n].(tick := sims[n].tick + 1), SaidFrom(states, acts, k), Since(sims[n], sims[n + 1]))
    ensures Tallied(sims[n], sims[n + 1])
  {
    hide Sane, Step, FirstSim, Init, Next, AllFated;
    var ss, aa := SimulationsAreRuns(f, sims, moves, n);
    AlwaysSane(f, sims, moves, n);
    assert Moved(f, sims, moves, n);
    k := |aa|;
    TracksShape(f, sims[n], [], ss, aa);
    states, acts := StepOnTracks(f, sims[n], ss, aa);
    TracksShape(f, sims[n + 1], [], states, acts);
    assert states[..|ss|] == ss;
    assert Accounts(f, sims[n].(tick := sims[n].tick + 1), sims[n + 1], states, acts, k);
  }

  // So in the simulator too no term ever has two leaders.
  lemma SimulatorElectsOnePerTerm(f: Fabric, sims: seq<Sim>, moves: seq<Move>, n: nat, p: NodeID, q: NodeID)
    requires Simulated(f, sims, moves) && n <= |moves| && Sound(f.cfg)
    requires var nodes := sims[n].nodes;
      && p in nodes && q in nodes && nodes[p].raft.role == Leader && nodes[q].raft.role == Leader
      && nodes[p].raft.term == nodes[q].raft.term
    ensures p == q
  {
    hide Run, Simulated, Sound;
    SimShape(f, sims, moves);
    var states, acts := SimulationsAreRuns(f, sims, moves, n);
    RunShape(f.cfg, states, acts);
    ElectionsAreSafe(f.cfg, states, acts);
  }

  // ---------- Links cut and healed ----------

  ghost predicate NoneDirect(h: seq<Happening>, e: Edge) {
    forall x :: x in h && x.Queued? && x.flight.via == None ==> Edge(x.flight.env.from, x.flight.env.to) != e
  }

  ghost predicate NoneLost(h: seq<Happening>, e: Edge) {
    forall x :: x in h && x.Lost? ==> Edge(x.env.from, x.env.to) != e
  }

  lemma InFates(h: seq<Happening>, x: Happening)
    requires x in h && !x.Handed?
    ensures x in Fates(h)
  {
    var n := |h| - 1;
    if x != h[n] {
      assert h == h[..n] + [h[n]];
      InFates(h[..n], x);
    }
  }

  lemma FatedRespects(f: Fabric, s: Sim, xs: seq<Sending>, h: seq<Happening>, e: Edge)
    requires AllFated(f, s, xs, h)
    ensures if e in s.down then NoneDirect(h, e) else NoneLost(h, e)
  {
    hide TravelTime, Offers, Fates;
    forall x | x in h && !x.Handed?
      ensures exists i :: 0 <= i < |xs| && Fated(f, s, xs[i], x)
    {
      InFates(h, x);
      var i :| 0 <= i < |Fates(h)| && Fates(h)[i] == x;
      assert Fated(f, s, xs[i], x);
    }
  }

  // What one move adds to the history respects the links as they then were.
  lemma MoveRespects(f: Fabric, sims: seq<Sim>, moves: seq<Move>, n: nat, e: Edge)
    requires Simulated(f, sims, moves) && n < |moves|
    ensures n + 1 < |sims| && sims[n].history <= sims[n + 1].history
    ensures e in sims[n + 1].down <==> moves[n] == Cut(e) || (e in sims[n].down && moves[n] != Heal(e))
    ensures e in sims[n + 1].corrupt <==> moves[n] == Subvert(e) || (e in sims[n].corrupt && moves[n] != Clean(e))
    ensures var h := Since(sims[n], sims[n + 1]); if e in sims[n].down then NoneDirect(h, e) else NoneLost(h, e)
  {
    hide Step, FirstSim, AllFated, Run, SoleLeader;
    assert Moved(f, sims, moves, n);
    if moves[n] == StepOn {
      var states, acts, k := EveryMessageIsRouted(f, sims, moves, n);
      FatedRespects(f, sims[n].(tick := sims[n].tick + 1), SaidFrom(states, acts, k), Since(sims[n], sims[n + 1]), e);
    } else {
      assert sims[n + 1].history == sims[n].history && Since(sims[n], sims[n + 1]) == [];
    }
  }

  // From when a directed edge is cut until it is healed nothing sets out on it, and the
  // opposite edge is not affected.
  lemma {:induction false} CutLinksCarryNothing(f: Fabric, sims: seq<Sim>, moves: seq<Move>, i: nat, j: nat, e: Edge)
    requires Simulated(f, sims, moves) && i < j <= |moves| && moves[i] == Cut(e)
    requires forall n :: i < n < j ==> moves[n] != Heal(e)
    ensures j < |sims| && e in sims[j].down && sims[i + 1].history <= sims[j].history
    ensures NoneDirect(Since(sims[i + 1], sims[j]), e)
    decreases j
  {
    hide Simulated, NoneDirect, NoneLost;
    MoveRespects(f, sims, moves, j - 1, e);
    if i + 1 < j {
      CutLinksCarryNothing(f, sims, moves, i, j - 1, e);
      SinceAdds(sims[i + 1], sims[j - 1], sims[j]);
      NoneDirectAdds(Since(sims[i + 1], sims[j - 1]), Since(sims[j - 1], sims[j]), e);
    } else {
      NothingSince(sims[j], e);
    }
  }

  // While a directed edge is up, however many others are cut, no message for it is lost.
  lemma {:induction false} OpenLinksLoseNothing(f: Fabric, sims: seq<Sim>, moves: seq<Move>, i: nat, j: nat, e: Edge)
    requires Simulated(f, sims, moves) && i <= j <= |moves| && i < |sims| && e !in sims[i].down
    requires forall n :: i <= n < j ==> moves[n] != Cut(e)
    ensures j < |sims| && e !in sims[j].down && sims[i].history <= sims[j].history
    ensures NoneLost(Since(sims[i], sims[j]), e)
    decreases j
  {
    hide Simulated, NoneDirect, NoneLost;
    SimShape(f, sims, moves);
    if i < j {
      OpenLinksLoseNothing(f, sims, moves, i, j - 1, e);
      MoveRespects(f, sims, moves, j - 1, e);
      SinceAdds(sims[i], sims[j - 1], sims[j]);
      NoneLostAdds(Since(sims[i], sims[j - 1]), Since(sims[j - 1], sims[j]), e);
    } else {
      NothingSince(sims[i], e);
    }
  }

  lemma NothingSince(s: Sim, e: Edge)
    ensures NoneDirect(Since(s, s), e) && NoneLost(Since(s, s), e)
  {
  }

  lemma NoneDirectAdds(a: seq<Happening>, b: seq<Happening>, e: Edge)
    requires NoneDirect(a, e) && NoneDirect(b, e)
    ensures NoneDirect(a + b, e)
  {
  }

  lemma NoneLostAdds(a: seq<Happening>, b: seq<Happening>, e: Edge)
    requires NoneLost(a, e) && NoneLost(b, e)
    ensures NoneLost(a + b, e)
  {
  }
}
