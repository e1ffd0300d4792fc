/** Which way the simulated fabric sends each message, which it loses, and when it
    runs the replicas (internal/sim/network.go). */
module Routes {
  import opened Types
  import opened Crypt
  import opened NetMatrix
  import opened Nodes
  import opened Clusters
  import opened Traffic
  import opened Histories
  import opened Networks
  import opened NetworkLaws

  // ---------- What becomes of a message ----------

  // A message as it leaves its sender, and what the sender then believes of the links.
  datatype Sending = Sending(env: Envelope, view: Matrix)

  // The belief offers a third node, the first in member order, and not the direct way.
  ghost predicate Offers(view: Matrix, from: NodeID, to: NodeID, via: NodeID) {
    && !view.CanSend(from, to) && view.Bridges(from, via, to)
    && forall v :: view.Bridges(from, v, to) ==> via <= v
  }

  // How long one hop takes: what is set for the edge, or more between two clouds than
  // within one.
  ghost predicate TravelTime(f: Fabric, from: NodeID, to: NodeID, ticks: nat) {
    var apart := from in f.cloud && to in f.cloud && f.cloud[from] != f.cloud[to];
    if Edge(from, to) in f.latency then ticks == f.latency[Edge(from, to)]
    else ticks == f.baseDelay + (if apart then f.crossDelay else 0)
  }

  // Its own edge is up: it goes that way, rewritten on it if the edge is hostile.
  ghost predicate GoesDirect(f: Fabric, s: Sim, x: Sending, m: Flight) {
    var e := Edge(x.env.from, x.env.to);
    && e !in s.down && m.via == None && m.due >= s.tick && TravelTime(f, e.from, e.to, m.due - s.tick)
    && if e in s.corrupt then exists forged :: m.env == x.env.Tamper(forged) else m.env == x.env
  }

  // Its own edge is down, and a third node its sender believes in carries it over two
  // edges that are up.
  ghost predicate GoesAround(f: Fabric, s: Sim, x: Sending, m: Flight) {
    var from, to := x.env.from, x.env.to;
    && f.relay && Edge(from, to) in s.down && m.via.Some? && m.env == x.env
    && var via := m.via.value;
      && Offers(x.view, from, to, via) && Edge(from, via) !in s.down && Edge(via, to) !in s.down
      && exists a: nat, b: nat ::
           TravelTime(f, from, via, a) && TravelTime(f, via, to, b) && m.due == s.tick + (a + b)
  }

  // Its own edge is down, and if messages may be relayed its sender believes in no third
  // node or in one that is cut off on either side.
  ghost predicate GetsLost(f: Fabric, s: Sim, x: Sending) {
    var from, to := x.env.from, x.env.to;
    && Edge(from, to) in s.down
    && (f.relay ==>
          forall via :: Offers(x.view, from, to, via) ==> Edge(from, via) in s.down || Edge(via, to) in s.down)
  }

  ghost predicate Fated(f: Fabric, s: Sim, x: Sending, h: Happening) {
    match h
    case Queued(m) => GoesDirect(f, s, x, m) || GoesAround(f, s, x, m)
    case Lost(env) => env == x.env && GetsLost(f, s, x)
    case Handed(_, _) => false
  }

  lemma DelayIsTravelTime(f: Fabric, from: NodeID, to: NodeID)
    ensures TravelTime(f, from, to, DelayFor(f, from, to))
  {
  }

  lemma RelayIsOffered(s: Sim, from: NodeID, to: NodeID)
    requires from in s.nodes && Ascending(s.nodes[from].links.view.members)
    ensures var view := s.nodes[from].links.view;
      match FindRelay(s, from, to)
      case Some(via) => Edge(from, via) !in s.down && Edge(via, to) !in s.down
        && Offers(view, from, to, via)
      case None => forall via :: Offers(view, from, to, via) ==> Edge(from, via) in s.down || Edge(via, to) in s.down
  {
    var view := s.nodes[from].links.view;
    RelayIsExact(view, from, to);
    hide Relay, Matrix.CanSend;
    forall via | Offers(view, from, to, via)
      ensures Relay(view, from, to) == Some(via) && via != to
    {
    }
  }

  // The whole effect of offering one message: it is fated, at once, and nothing else
  // about the network changes.
  ghost predicate Offered(f: Fabric, s: Sim, x: Sending, t: Sim) {
    && |t.history| == |s.history| + 1 && s.history <= t.history && Fated(f, s, x, t.history[|s.history|])
    && Same(s, t)
    && match t.history[|s.history|]
      case Queued(m) =>
        && t.inflight == s.inflight + [m] && t.dropped == s.dropped
        && t.relayed == s.relayed + (if m.via.Some? then 1 else 0)
        && t.corrupted == s.corrupted
             + (if m.via == None && Edge(m.env.from, m.env.to) in s.corrupt then 1 else 0)
      case _ =>
        t.inflight == s.inflight && t.dropped == s.dropped + 1 && t.relayed == s.relayed && t.corrupted == s.corrupted
  }

  // The same replicas, links and time.
  ghost predicate Same(s: Sim, t: Sim) {
    t.nodes == s.nodes && t.down == s.down && t.corrupt == s.corrupt && t.tick == s.tick
  }

  lemma EnqueueOffers(f: Fabric, s: Sim, env: Envelope)
    requires env.from in s.nodes && Ascending(s.nodes[env.from].links.view.members)
    ensures Offered(f, s, Sending(env, s.nodes[env.from].links.view), Enqueue(f, s, env))
  {
    hide FindRelay, DelayFor, TravelTime, Offers, Ascending;
    var from, to := env.from, env.to;
    DelayIsTravelTime(f, from, to);
    if Edge(from, to) in s.down && f.relay {
      RelayIsOffered(s, from, to);
      var r := FindRelay(s, from, to);
      if r.Some? {
        DelayIsTravelTime(f, from, r.value);
        DelayIsTravelTime(f, r.value, to);
        var h := Enqueue(f, s, env).history[|s.history|];
        assert GoesAround(f, s, Sending(env, s.nodes[from].links.view), h.flight);
      }
    }
  }

  // ---------- Everything said is fated ----------

  // What has become of messages, leaving handovers aside.
  function Fates(h: seq<Happening>): seq<Happening> {
    if h == [] then []
    else
      var n := |h| - 1;
      Fates(h[..n]) + if h[n].Handed? then [] else [h[n]]
  }

  lemma FatesAdd(a: seq<Happening>, b: seq<Happening>)
    ensures Fates(a + b) == Fates(a) + Fates(b)
  {
    if b == [] {
      assert a + b == a;
    } else {
      var n := |b| - 1;
      assert (a + b)[..|a + b| - 1] == a + b[..n];
      FatesAdd(a, b[..n]);
    }
  }

  // How many of these were relayed, and how many set out on one of these hostile edges.
  function Relays(h: seq<Happening>): nat {
    if h == [] then 0
    else
      var n := |h| - 1;
      Relays(h[..n]) + if h[n].Queued? && h[n].flight.via.Some? then 1 else 0
  }

  function Strikes(h: seq<Happening>, hostile: set<Edge>): nat {
    if h == [] then 0
    else
      var n := |h| - 1;
      var m := h[n];
      Strikes(h[..n], hostile) +
      if m.Queued? && m.flight.via == None && Edge(m.flight.env.from, m.flight.env.to) in hostile then 1 else 0
  }

  lemma CountsSnoc(h: seq<Happening>, x: Happening, hostile: set<Edge>)
    ensures Relays(h + [x]) == Relays(h) + if x.Queued? && x.flight.via.Some? then 1 else 0
    ensures Strikes(h + [x], hostile) == Strikes(h, hostile) +
      if x.Queued? && x.flight.via == None && Edge(x.flight.env.from, x.flight.env.to) in hostile then 1 else 0
  {
    assert (h + [x])[..|h + [x]| - 1] == h;
  }

  // Each of these messages, in order, has come to one of these fates, and no other has.
  ghost predicate AllFated(f: Fabric, s: Sim, xs: seq<Sending>, h: seq<Happening>) {
    |Fates(h)| == |xs| && forall i :: 0 <= i < |xs| ==> Fated(f, s, xs[i], Fates(h)[i])
  }

  lemma AllFatedAdd(f: Fabric, s: Sim, xs: seq<Sending>, a: seq<Happening>, ys: seq<Sending>, b: seq<Happening>)
    requires AllFated(f, s, xs, a) && AllFated(f, s, ys, b)
    ensures AllFated(f, s, xs + ys, a + b)
  {
    hide Fated, Fates;
    FatesAdd(a, b);
  }

  lemma FatedAlike(f: Fabric, s: Sim, t: Sim, x: Sending, h: Happening)
    requires t.down == s.down && t.corrupt == s.corrupt && t.tick == s.tick && Fated(f, s, x, h)
    ensures Fated(f, t, x, h)
  {
    hide Offers, TravelTime;
  }

  lemma OneFated(f: Fabric, s: Sim, x: Sending, h: Happening)
    requires Fated(f, s, x, h)
    ensures AllFated(f, s, [x], [h])
  {
    hide GoesDirect, GoesAround, GetsLost;
    assert [h][..0] == [];
    assert Fates([h]) == [h];
  }

  // What a replica has just said.
  function Sendings(s: NodeState, n: nat): seq<Sending>
    requires n <= |s.wire.outbox|
  {
    if n == 0 then [] else Sendings(s, n - 1) + [Sending(s.wire.outbox[n - 1], s.links.view)]
  }

  // New in b since a.
  function Since(a: Sim, b: Sim): seq<Happening> {
    if |a.history| <= |b.history| then b.history[|a.history|..] else []
  }

  lemma CountsAdd(a: seq<Happening>, b: seq<Happening>, hostile: set<Edge>)
    ensures Relays(a + b) == Relays(a) + Relays(b)
    ensures Strikes(a + b, hostile) == Strikes(a, hostile) + Strikes(b, hostile)
  {
    if b == [] {
      assert a + b == a;
    } else {
      var n := |b| - 1;
      CountsAdd(a, b[..n], hostile);
      assert a + b == (a + b[..n]) + [b[n]];
      CountsSnoc(a + b[..n], b[n], hostile);
    }
  }

  // The counters say what the history since base does.
  ghost predicate Tallied(base: Sim, s: Sim) {
    && s.relayed == base.relayed + Relays(Since(base, s))
    && s.corrupted == base.corrupted + Strikes(Since(base, s), base.corrupt)
  }

  // p has just said all that is in its outbox, in its own name.
  ghost predicate Speaking(s: Sim, p: NodeID) {
    && p in s.nodes && Ascending(s.nodes[p].links.view.members)
    && forall e :: e in s.nodes[p].wire.outbox ==> e.from == p
  }

  lemma OutboxIsFated(f: Fabric, s: Sim, p: NodeID, n: nat)
    requires Speaking(s, p) && n <= |s.nodes[p].wire.outbox|
    ensures var t := EnqueueAll(f, s, s.nodes[p].wire.outbox, n);
      && Same(s, t) && s.history <= t.history && AllFated(f, s, Sendings(s.nodes[p], n), Since(s, t))
      && Tallied(s, t)
  {
    if n == 0 {
      assert Since(s, s) == [];
    } else {
      var out := s.nodes[p].wire.outbox;
      OutboxIsFated(f, s, p, n - 1);
      var b, t := EnqueueAll(f, s, out, n - 1), EnqueueAll(f, s, out, n);
      hide EnqueueAll, Enqueue, Fated, AllFated, Ascending, Relays, Strikes;
      assert out[n - 1] in out;
      EnqueueOffers(f, b, out[n - 1]);
      var x, h := Sending(out[n - 1], s.nodes[p].links.view), t.history[|b.history|];
      FatedAlike(f, b, s, x, h);
      OneFated(f, s, x, h);
      AllFatedAdd(f, s, Sendings(s.nodes[p], n - 1), Since(s, b), [x], [h]);
      CountsSnoc(Since(s, b), h, s.corrupt);
      assert Since(s, t) == Since(s, b) + [h];
    }
  }

  // ---------- Over a stretch of a run ----------

  // All that was said from step k of the run on, with what its senders believed.
  function SaidFrom(states: seq<Cluster>, acts: seq<Action>, k: nat): seq<Sending>
    requires |states| == |acts| + 1
    decreases |acts|
  {
    if |acts| <= k then []
    else
      var n := |acts| - 1;
      SaidFrom(states[..n + 1], acts[..n], k) + SaidIn(states[n + 1], acts[n])
  }

  function SaidIn(c: Cluster, a: Action): seq<Sending> {
    var p := Actor(a);
    if a.ProposeAt? || p !in c.nodes then [] else Sendings(c.nodes[p], |c.nodes[p].wire.outbox|)
  }

  // Since base, which step k of the run stood at, all that was said has been fated.
  ghost predicate Accounts(f: Fabric, base: Sim, s: Sim, states: seq<Cluster>, acts: seq<Action>, k: nat) {
    && |states| == |acts| + 1 && k <= |acts| && base.history <= s.history
    && s.down == base.down && s.corrupt == base.corrupt && s.tick == base.tick
    && AllFated(f, base, SaidFrom(states, acts, k), Since(base, s)) && Tallied(base, s)
  }

  lemma AccountsStart(f: Fabric, s: Sim, states: seq<Cluster>, acts: seq<Action>)
    requires |states| == |acts| + 1
    ensures Accounts(f, s, s, states, acts, |acts|)
  {
    assert Since(s, s) == [];
  }

  lemma SinceAdds(a: Sim, b: Sim, c: Sim)
    requires a.history <= b.history <= c.history
    ensures Since(a, c) == Since(a, b) + Since(b, c) && a.history <= c.history
  {
  }

  lemma QuietIsFated(f: Fabric, s: Sim, h: seq<Happening>)
    requires |h| <= 1 && forall x :: x in h ==> x.Handed?
    ensures AllFated(f, s, [], h) && Relays(h) == 0 && forall hostile :: Strikes(h, hostile) == 0
  {
    assert h != [] ==> h[..0] == [] && h[0] in h;
  }

  // A handover is no fate; nor is a message kept back in the queue.
  lemma AccountsQuiet(f: Fabric, base: Sim, s: Sim, t: Sim, states: seq<Cluster>, acts: seq<Action>, k: nat)
    requires Accounts(f, base, s, states, acts, k) && t.down == s.down && t.corrupt == s.corrupt && t.tick == s.tick
    requires t.relayed == s.relayed && t.corrupted == s.corrupted
    requires t.history == s.history || (|t.history| == |s.history| + 1 && s.history <= t.history
                                        && t.history[|s.history|].Handed?)
    ensures Accounts(f, base, t, states, acts, k)
  {
    hide Fated, AllFated, Fates, SaidFrom, Relays, Strikes;
    SinceAdds(base, s, t);
    QuietIsFated(f, base, Since(s, t));
    AllFatedAdd(f, base, SaidFrom(states, acts, k), Since(base, s), [], Since(s, t));
    CountsAdd(Since(base, s), Since(s, t), base.corrupt);
    assert SaidFrom(states, acts, k) + [] == SaidFrom(states, acts, k);
  }

  lemma SaidInIs(c: Cluster, a: Action, s: Sim)
    requires !a.ProposeAt? && c.nodes == s.nodes && Actor(a) in s.nodes
    ensures SaidIn(c, a) == Sendings(s.nodes[Actor(a)], |s.nodes[Actor(a)].wire.outbox|)
  {
  }

  // p moves, and all it says is offered.
  lemma AccountsSaid(f: Fabric, base: Sim, s: Sim, states: seq<Cluster>, acts: seq<Action>, k: nat,
                     a: Action, c: Cluster)
    requires Accounts(f, base, s, states, acts, k) && !a.ProposeAt? && c.nodes == s.nodes && Speaking(s, Actor(a))
    ensures var out := s.nodes[Actor(a)].wire.outbox;
      Accounts(f, base, EnqueueAll(f, s, out, |out|), states + [c], acts + [a], k)
  {
    hide Fated, AllFated, EnqueueAll, Ascending, Fates, Since, SaidFrom, SaidIn, Sendings, Relays, Strikes;
    var p := Actor(a);
    var out := s.nodes[p].wire.outbox;
    var t := EnqueueAll(f, s, out, |out|);
    OutboxIsFated(f, s, p, |out|);
    var xs, ys := SaidFrom(states, acts, k), Sendings(s.nodes[p], |out|);
    SaidSnoc(states, acts, k, a, c);
    SaidInIs(c, a, s);
    AllFatedAlike(f, s, base, ys, Since(s, t));
    AllFatedAdd(f, base, xs, Since(base, s), ys, Since(s, t));
    SinceAdds(base, s, t);
    CountsAdd(Since(base, s), Since(s, t), base.corrupt);
  }

  lemma AllFatedAlike(f: Fabric, s: Sim, t: Sim, xs: seq<Sending>, h: seq<Happening>)
    requires t.down == s.down && t.corrupt == s.corrupt && t.tick == s.tick && AllFated(f, s, xs, h)
    ensures AllFated(f, t, xs, h)
  {
    hide Fated;
    forall i | 0 <= i < |xs|
      ensures Fated(f, t, xs[i], Fates(h)[i])
    {
      FatedAlike(f, s, t, xs[i], Fates(h)[i]);
    }
  }

  lemma SaidSnoc(states: seq<Cluster>, acts: seq<Action>, k: nat, a: Action, c: Cluster)
    requires |states| == |acts| + 1 && k <= |acts|
    ensures SaidFrom(states + [c], acts + [a], k) == SaidFrom(states, acts, k) + SaidIn(c, a)
  {
    var ss, aa, n := states + [c], acts + [a], |acts|;
    assert ss[..n + 1] == states && aa[..n] == acts;
  }

  // ---------- Time ----------

  // The replicas of the first list have ticked once since, and no other has ticked.
  ghost predicate TickedOnce(a: map<NodeID, NodeState>, b: map<NodeID, NodeState>, ps: seq<NodeID>) {
    && b.Keys == a.Keys
    && forall p :: p in a ==> b[p].clock.tick == a[p].clock.tick + (if p in ps then 1 else 0)
  }

  lemma DeliveryTicksNobody(cfg: Config, p: NodeID, s: NodeState, env: Envelope, draw: nat)
    requires cfg.Valid() && WellWired(cfg, p, s)
    ensures Deliver(cfg, s, env, draw).clock.tick == s.clock.tick
  {
    hide Deliver, Wrote, Config.Valid;
    DeliverTraffic(cfg, p, s, env, draw);
  }

  lemma HandTicksNobody(f: Fabric, s: Sim, rest: seq<Flight>, m: Flight)
    requires f.cfg.Valid() && Sane(f, s, [m] + rest)
    ensures TickedOnce(s.nodes, Hand(f, s, m).nodes, [])
  {
    hide Deliver, EnqueueAll, Sane, WiredNodes, Config.Valid;
    NextIsRoutable(f, s, rest, m);
    var p, draw := m.env.to, Draw(f, m.env.to, s.drawn);
    WiredAmong(f.cfg, s.nodes, p);
    DeliveryTicksNobody(f.cfg, p, s.nodes[p], m.env, draw);
    var d := Deliver(f.cfg, s.nodes[p], m.env, draw);
    EnqueuesMoveNobody(f, s.(nodes := s.nodes[p := d], delivered := s.delivered + 1, drawn := s.drawn + 1,
                             history := s.history + [Handed(m, s.tick)]), d.wire.outbox, |d.wire.outbox|);
  }

  lemma WiredAmong(cfg: Config, nodes: map<NodeID, NodeState>, p: NodeID)
    requires WiredNodes(cfg, nodes) && p in nodes
    ensures WellWired(cfg, p, nodes[p])
  {
  }

  lemma EnqueuesMoveNobody(f: Fabric, s: Sim, out: seq<Envelope>, n: nat)
    requires n <= |out|
    ensures EnqueueAll(f, s, out, n).nodes == s.nodes
  {
    hide FindRelay, DelayFor;
  }

  lemma DrainTicksNobody(f: Fabric, s: Sim, pending: seq<Flight>, n: nat)
    requires f.cfg.Valid() && Sane(f, s, pending) && n <= |pending|
    ensures TickedOnce(s.nodes, Drain(f, s, pending, n).nodes, [])
  {
    hide Sane, Hand;
    if n > 0 {
      DrainTicksNobody(f, s, pending, n - 1);
      DrainKeeps(f, s, pending, n - 1);
      var b, m := Drain(f, s, pending, n - 1), pending[n - 1];
      assert pending[n - 1..] == [m] + pending[n..];
      if m.due <= b.tick {
        HandTicksNobody(f, b, pending[n..], m);
      }
    }
  }

  lemma TickOneTicks(f: Fabric, s: Sim, p: NodeID)
    requires f.cfg.Valid() && WiredNodes(f.cfg, s.nodes) && p in s.nodes
    ensures TickedOnce(s.nodes, TickOne(f, s, p).nodes, [p])
  {
    hide Tick, EnqueueAll, Wrote, WiredNodes, DetectSilence;
    var draw := Draw(f, p, s.drawn);
    WiredAmong(f.cfg, s.nodes, p);
    var t := Tick(f.cfg, s.nodes[p], draw);
    TickTraffic(f.cfg, p, s.nodes[p], draw);
    EnqueuesMoveNobody(f, s.(nodes := s.nodes[p := t], drawn := s.drawn + 1), t.wire.outbox, |t.wire.outbox|);
  }

  lemma TicksAdd(a: map<NodeID, NodeState>, b: map<NodeID, NodeState>, c: map<NodeID, NodeState>,
                 ps: seq<NodeID>, qs: seq<NodeID>)
    requires TickedOnce(a, b, ps) && TickedOnce(b, c, qs) && forall p :: p in ps ==> p !in qs
    ensures TickedOnce(a, c, ps + qs)
  {
  }

  lemma NobodyTicked(nodes: map<NodeID, NodeState>)
    ensures TickedOnce(nodes, nodes, [])
  {
  }

  lemma NewMember(cfg: Config, n: nat)
    requires cfg.Valid() && 0 < n <= |cfg.members|
    ensures var ms, p := cfg.members, cfg.members[n - 1];
      ms[..n] == ms[..n - 1] + [p] && forall q :: q in ms[..n - 1] ==> q !in [p]
  {
  }

  lemma TickAllTicksEach(f: Fabric, s: Sim, n: nat)
    requires f.cfg.Valid() && Sane(f, s, []) && n <= |f.cfg.members|
    ensures TickedOnce(s.nodes, TickAll(f, s, n).nodes, f.cfg.members[..n])
  {
    hide Sane, TickOne, TickedOnce, WiredNodes, WellWired, Config.Valid, ToSet;
    if n == 0 {
      NobodyTicked(s.nodes);
      assert f.cfg.members[..0] == [];
    } else {
      TickAllTicksEach(f, s, n - 1);
      TickAllKeeps(f, s, n - 1);
      var b, p := TickAll(f, s, n - 1), f.cfg.members[n - 1];
      SaneParts(f, b, []);
      MemberIsThere(f.cfg, b.nodes, p);
      TickOneTicks(f, b, p);
      NewMember(f.cfg, n);
      TicksAdd(s.nodes, b.nodes, TickOne(f, b, p).nodes, f.cfg.members[..n - 1], [p]);
    }
  }

  lemma MemberIsThere(cfg: Config, nodes: map<NodeID, NodeState>, p: NodeID)
    requires WiredNodes(cfg, nodes) && p in cfg.members
    ensures p in nodes && WellWired(cfg, p, nodes[p])
  {
    assert p in ToSet(cfg.members);
  }

  lemma StepTicksEach(f: Fabric, s: Sim)
    requires f.cfg.Valid() && Sane(f, s, [])
    ensures TickedOnce(s.nodes, Step(f, s).nodes, f.cfg.members)
  {
    hide Sane, Drain, TickAll, TickedOnce;
    var t, n := s.(tick := s.tick + 1, inflight := []), |f.cfg.members|;
    SetAsideSane(f, s, t);
    DrainTicksNobody(f, t, s.inflight, |s.inflight|);
    DrainKeeps(f, t, s.inflight, |s.inflight|);
    assert s.inflight[|s.inflight|..] == [];
    var d := Drain(f, t, s.inflight, |s.inflight|);
    TickAllTicksEach(f, d, n);
    assert f.cfg.members[..n] == f.cfg.members && [] + f.cfg.members == f.cfg.members;
    TicksAdd(s.nodes, d.nodes, TickAll(f, d, n).nodes, [], f.cfg.members);
  }

  lemma MoveTicks(f: Fabric, s: Sim, m: Move)
    requires f.cfg.Valid() && Sane(f, s, [])
    ensures TickedOnce(s.nodes, Perform(f, s, m).nodes, if m == StepOn then f.cfg.members else [])
  {
    hide Sane, Step, Propose, SoleLeader, Config.Valid;
    if m == StepOn {
      StepTicksEach(f, s);
    } else if m.Offer? {
      var l := SoleLeader(f.cfg, s.nodes);
      if l.Some? && l.value in s.nodes {
        ProposalTicksNobody(f.cfg, s.nodes[l.value], m.cmd);
      }
    }
  }

  // One step of the simulator is one tick of every replica.
  lemma EveryoneTicks(f: Fabric, sims: seq<Sim>, moves: seq<Move>, n: nat, p: NodeID)
    requires Simulated(f, sims, moves) && n < |moves| && p in f.cfg.members
    ensures n + 1 < |sims| && p in sims[n].nodes && p in sims[n + 1].nodes
    ensures var k, k' := sims[n].nodes[p].clock.tick, sims[n + 1].nodes[p].clock.tick;
      k' == k + if moves[n] == StepOn then 1 else 0
  {
    hide Sane, Perform, FirstSim, WiredNodes, WellWired, Config.Valid, ToSet;
    SimShape(f, sims, moves);
    AlwaysSane(f, sims, moves, n);
    assert Moved(f, sims, moves, n);
    SaneParts(f, sims[n], []);
    MemberIsThere(f.cfg, sims[n].nodes, p);
    MoveTicks(f, sims[n], moves[n]);
  }

  lemma ProposalTicksNobody(cfg: Config, s: NodeState, cmd: string)
    ensures Propose(cfg, s, cmd).clock == s.clock
  {
    AppendOnlySends(cfg, s.(raft := s.raft.(log := s.raft.log + [Entry(s.raft.term, cmd)])), |cfg.members|);
    hide BroadcastAppend;
  }

  // ---------- Commands ----------

  lemma ProposalLogs(cfg: Config, s: NodeState, cmd: string)
    requires s.raft.role == Leader
    ensures var r := Propose(cfg, s, cmd).raft;
      r.log == s.raft.log + [Entry(s.raft.term, cmd)] && r.term == s.raft.term
  {
    AppendOnlySends(cfg, s.(raft := s.raft.(log := s.raft.log + [Entry(s.raft.term, cmd)])), |cfg.members|);
    hide BroadcastAppend;
  }

  lemma OfferIs(f: Fabric, s: Sim, m: Move)
    requires f.cfg.Valid() && m.Offer?
    ensures var l := SoleLeader(f.cfg, s.nodes);
      Perform(f, s, m) == if l.Some? && l.value in s.nodes
                          then s.(nodes := s.nodes[l.value := Propose(f.cfg, s.nodes[l.value], m.cmd)]) else s
  {
    hide SoleLeader, Propose, Config.Valid, Step;
  }

  lemma WiredKeys(cfg: Config, nodes: map<NodeID, NodeState>)
    requires cfg.Valid() && WiredNodes(cfg, nodes)
    ensures Ascending(cfg.members) && nodes.Keys == ToSet(cfg.members)
  {
  }

  lemma OfferReaches(f: Fabric, s: Sim, m: Move, p: NodeID)
    requires f.cfg.Valid() && WiredNodes(f.cfg, s.nodes) && m.Offer? && p in s.nodes
    ensures var t := Perform(f, s, m);
      && t == s.(nodes := t.nodes) && t.nodes.Keys == s.nodes.Keys
      && if s.nodes[p].raft.role == Leader && forall q :: q in s.nodes && s.nodes[q].raft.role == Leader ==> q == p
         then t.nodes[p].raft.log == s.nodes[p].raft.log + [Entry(s.nodes[p].raft.term, m.cmd)]
              && t.nodes[p].raft.term == s.nodes[p].raft.term
         else t.nodes[p] == s.nodes[p]
  {
    hide *;
    OfferIs(f, s, m);
    WiredKeys(f.cfg, s.nodes);
    SoleLeaderIsExact(f.cfg, s.nodes, p);
    if s.nodes[p].raft.role == Leader {
      ProposalLogs(f.cfg, s.nodes[p], m.cmd);
    }
  }

  // A command reaches the leader, if exactly one replica leads, and nobody else; it ends
  // the leader's log under its term.
  lemma CommandsReachTheLeader(f: Fabric, sims: seq<Sim>, moves: seq<Move>, n: nat, p: NodeID)
    requires Simulated(f, sims, moves) && n < |moves| && moves[n].Offer? && p in f.cfg.members
    ensures n + 1 < |sims| && sims[n + 1] == sims[n].(nodes := sims[n + 1].nodes)
    ensures sims[n + 1].nodes.Keys == sims[n].nodes.Keys && p in sims[n].nodes
    ensures var a, b := sims[n].nodes, sims[n + 1].nodes;
      if a[p].raft.role == Leader && forall q :: q in a && a[q].raft.role == Leader ==> q == p
      then b[p].raft.log == a[p].raft.log + [Entry(a[p].raft.term, moves[n].cmd)] && b[p].raft.term == a[p].raft.term
      else b[p] == a[p]
  {
    hide Sane, Perform, FirstSim, WiredNodes, WellWired, Config.Valid, ToSet;
    SimShape(f, sims, moves);
    AlwaysSane(f, sims, moves, n);
    assert Moved(f, sims, moves, n);
    SaneParts(f, sims[n], []);
    MemberIsThere(f.cfg, sims[n].nodes, p);
    OfferReaches(f, sims[n], moves[n], p);
  }
}
