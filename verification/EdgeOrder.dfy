/** Timing and order on the simulated fabric. */
module EdgeOrder {
  import opened Types
  import opened Crypt
  import opened Transcripts
  import opened Nodes
  import opened Traffic
  import opened Networks
  import opened NetworkLaws

  // Every hop takes at least a tick.
  ghost predicate Prompt(f: Fabric) {
    f.cfg.Valid() && f.baseDelay >= 1 && forall e :: e in f.latency ==> f.latency[e] >= 1
  }

  lemma DelayIsPositive(f: Fabric, from: NodeID, to: NodeID)
    requires Prompt(f)
    ensures DelayFor(f, from, to) >= 1
  {
  }

  // ---------- On time ----------

  ghost predicate OnTime(h: Happening) {
    h.Handed? ==> h.at == h.flight.due
  }

  // Nothing in flight is overdue, nothing waiting its turn was due earlier, and
  // everything handed over so far was handed over when due.
  ghost predicate Punctual(s: Sim, rest: seq<Flight>) {
    && (forall m :: m in s.inflight ==> s.tick < m.due)
    && (forall m :: m in rest ==> s.tick <= m.due)
    && (forall h :: h in s.history ==> OnTime(h))
  }

  lemma EnqueuePunctual(f: Fabric, s: Sim, rest: seq<Flight>, env: Envelope)
    requires Prompt(f) && Punctual(s, rest)
    ensures Punctual(Enqueue(f, s, env), rest) && Enqueue(f, s, env).tick == s.tick
  {
    hide FindRelay, DelayFor;
    var e := Edge(env.from, env.to);
    DelayIsPositive(f, env.from, env.to);
    var via := if f.relay then FindRelay(s, env.from, env.to) else None;
    if via.Some? {
      DelayIsPositive(f, env.from, via.value);
    }
  }

  lemma EnqueueAllPunctual(f: Fabric, s: Sim, rest: seq<Flight>, out: seq<Envelope>, n: nat)
    requires Prompt(f) && Punctual(s, rest) && n <= |out|
    ensures Punctual(EnqueueAll(f, s, out, n), rest) && EnqueueAll(f, s, out, n).tick == s.tick
  {
    hide Punctual, Enqueue, Prompt;
    if n > 0 {
      EnqueueAllPunctual(f, s, rest, out, n - 1);
      EnqueuePunctual(f, EnqueueAll(f, s, out, n - 1), rest, out[n - 1]);
    }
  }

  lemma HandPunctual(f: Fabric, s: Sim, rest: seq<Flight>, m: Flight)
    requires Prompt(f) && Punctual(s, [m] + rest) && m.due <= s.tick
    ensures Punctual(Hand(f, s, m), rest) && Hand(f, s, m).tick == s.tick
  {
    hide Prompt, EnqueueAll, Deliver;
    assert f.cfg.Valid() by { PromptValid(f); }
    assert m in [m] + rest;
    assert forall x :: x in rest ==> x in [m] + rest;
    if m.env.to in s.nodes {
      var d := Deliver(f.cfg, s.nodes[m.env.to], m.env, Draw(f, m.env.to, s.drawn));
      var t := s.(nodes := s.nodes[m.env.to := d], delivered := s.delivered + 1, drawn := s.drawn + 1,
                  history := s.history + [Handed(m, s.tick)]);
      EnqueueAllPunctual(f, t, rest, d.wire.outbox, |d.wire.outbox|);
    }
  }

  lemma PromptValid(f: Fabric)
    requires Prompt(f)
    ensures f.cfg.Valid()
  {
  }

  lemma DrainPunctual(f: Fabric, s: Sim, pending: seq<Flight>, n: nat)
    requires f.cfg.Valid() && Prompt(f) && Punctual(s, pending) && n <= |pending|
    ensures var t := Drain(f, s, pending, n);
      Punctual(t, pending[n..]) && t.tick == s.tick
  {
    hide Hand, Prompt;
    if n == 0 {
      assert pending[0..] == pending;
    } else {
      DrainPunctual(f, s, pending, n - 1);
      var b, m := Drain(f, s, pending, n - 1), pending[n - 1];
      assert pending[n - 1..] == [m] + pending[n..];
      assert forall x :: x in pending[n..] ==> x in pending[n - 1..];
      if m.due <= b.tick {
        HandPunctual(f, b, pending[n..], m);
      }
    }
  }

  lemma TickAllPunctual(f: Fabric, s: Sim, n: nat)
    requires f.cfg.Valid() && Prompt(f) && Punctual(s, []) && n <= |f.cfg.members|
    ensures Punctual(TickAll(f, s, n), []) && TickAll(f, s, n).tick == s.tick
  {
    hide Prompt, Tick, EnqueueAll;
    if n > 0 {
      TickAllPunctual(f, s, n - 1);
      var b, p := TickAll(f, s, n - 1), f.cfg.members[n - 1];
      if p in b.nodes {
        var t := Tick(f.cfg, b.nodes[p], Draw(f, p, b.drawn));
        EnqueueAllPunctual(f, b.(nodes := b.nodes[p := t], drawn := b.drawn + 1), [], t.wire.outbox, |t.wire.outbox|);
      }
    }
  }

  lemma StepPunctual(f: Fabric, s: Sim)
    requires f.cfg.Valid() && Prompt(f) && Punctual(s, [])
    ensures Punctual(Step(f, s), [])
  {
    hide Drain, TickAll, Prompt;
    var t := s.(tick := s.tick + 1, inflight := []);
    DrainPunctual(f, t, s.inflight, |s.inflight|);
    assert s.inflight[|s.inflight|..] == [];
    TickAllPunctual(f, Drain(f, t, s.inflight, |s.inflight|), |f.cfg.members|);
  }

  // With every delay at least one tick, each message that is handed over is handed
  // over on the tick it is due, and none in flight is ever late.
  lemma {:induction false} EverythingArrivesWhenDue(f: Fabric, sims: seq<Sim>, moves: seq<Move>, n: nat)
    requires Prompt(f) && Simulated(f, sims, moves) && n <= |moves|
    ensures Punctual(sims[n], [])
  {
    hide Step, ProposeToLeader, Prompt;
    if n > 0 {
      hide FirstSim;
      EverythingArrivesWhenDue(f, sims, moves, n - 1);
      assert Moved(f, sims, moves, n - 1);
      if moves[n - 1] == StepOn {
        StepPunctual(f, sims[n - 1]);
      } else if moves[n - 1].Offer? {
        OfferKeepsQueue(f, sims[n - 1], moves[n - 1].cmd);
      }
    }
  }

  lemma OfferKeepsQueue(f: Fabric, s: Sim, cmd: string)
    ensures ProposeToLeader(f, s, cmd) == s.(nodes := ProposeToLeader(f, s, cmd).nodes)
  {
  }

  // ---------- In order ----------

  function SendSeq(nodes: map<NodeID, NodeState>, p: NodeID, q: NodeID): nat {
    if p in nodes && q in nodes[p].wire.sendTr then nodes[p].wire.sendTr[q].sendSeq else 0
  }

  function RecvSeq(nodes: map<NodeID, NodeState>, q: NodeID, p: NodeID): nat {
    if q in nodes && p in nodes[q].wire.recvTr then nodes[q].wire.recvTr[p].recvSeq else 0
  }

  predicate SameEdge(a: Envelope, b: Envelope) {
    a.from == b.from && a.to == b.to
  }

  // x is queued before y: on one edge, numbers follow due ticks, and the queue
  // position decides between messages due together.
  ghost predicate InOrder(x: Flight, y: Flight) {
    SameEdge(x.env, y.env) ==> (x.env.seqNo < y.env.seqNo <==> x.due <= y.due) && x.env.seqNo != y.env.seqNo
  }

  // Sent, and past everything its receiver has accepted.
  ghost predicate Lives(nodes: map<NodeID, NodeState>, env: Envelope) {
    RecvSeq(nodes, env.to, env.from) < env.seqNo <= SendSeq(nodes, env.from, env.to)
  }

  ghost predicate Backed(nodes: map<NodeID, NodeState>) {
    forall p, q :: RecvSeq(nodes, q, p) <= SendSeq(nodes, p, q)
  }

  ghost predicate NoReplays(nodes: map<NodeID, NodeState>) {
    forall p :: p in nodes ==> nodes[p].stats.replays == 0
  }

  ghost predicate Sorted(ms: seq<Flight>) {
    forall i, j :: 0 <= i < j < |ms| ==> InOrder(ms[i], ms[j])
  }

  function Delay(f: Fabric, m: Flight): nat {
    DelayFor(f, m.env.from, m.env.to)
  }

  ghost predicate Scheduled(f: Fabric, s: Sim, rest: seq<Flight>) {
    && (forall m :: m in s.inflight ==> s.tick < m.due <= s.tick + Delay(f, m))
    && (forall m :: m in rest ==> s.tick <= m.due < s.tick + Delay(f, m))
  }

  ghost predicate AllLive(nodes: map<NodeID, NodeState>, ms: seq<Flight>) {
    forall m :: m in ms ==> Lives(nodes, m.env)
  }

  ghost predicate Ordered(f: Fabric, s: Sim, rest: seq<Flight>) {
    && Sorted(Pending(s, rest)) && AllLive(s.nodes, Pending(s, rest)) && Scheduled(f, s, rest)
    && Backed(s.nodes) && NoReplays(s.nodes)
  }

  // env carries a higher number than everything pending on its edge.
  ghost predicate Newest(ms: seq<Flight>, env: Envelope) {
    forall m :: m in ms && SameEdge(m.env, env) ==> m.env.seqNo < env.seqNo
  }

  lemma QueueOrdered(f: Fabric, s: Sim, rest: seq<Flight>, m: Flight)
    requires Prompt(f) && Ordered(f, s, rest) && Newest(Pending(s, rest), m.env) && Lives(s.nodes, m.env)
    requires m.due == s.tick + Delay(f, m)
    ensures Ordered(f, Queue(s, m), rest)
  {
    hide Prompt, Lives, Backed, NoReplays, DelayFor;
    DelayIsPositive(f, m.env.from, m.env.to);
    var before, after := Pending(s, rest), Pending(Queue(s, m), rest);
    var n := |s.inflight|;
    forall i, j | 0 <= i < j < |after|
      ensures InOrder(after[i], after[j])
    {
      if j == n {
        assert after[i] == s.inflight[i] == before[i];
        assert s.inflight[i] in s.inflight && before[i] in before;
      } else if i == n {
        assert after[j] == rest[j - n - 1] == before[j - 1];
        assert rest[j - n - 1] in rest && before[j - 1] in before;
      } else {
        var x, y := if i < n then i else i - 1, if j < n then j else j - 1;
        assert after[i] == before[x] && after[j] == before[y];
      }
    }
    assert forall x :: x in after ==> x in before || x == m;
  }

  lemma EnqueueOrdered(f: Fabric, s: Sim, rest: seq<Flight>, env: Envelope)
    requires Prompt(f) && !f.relay && Ordered(f, s, rest) && Newest(Pending(s, rest), env) && Lives(s.nodes, env)
    ensures var t := Enqueue(f, s, env);
      && Ordered(f, t, rest) && t.nodes == s.nodes && t.tick == s.tick
      && forall m :: m in Pending(t, rest) ==>
           m in Pending(s, rest) || (SameEdge(m.env, env) && m.env.seqNo == env.seqNo)
  {
    hide Prompt, Lives, Backed, NoReplays, DelayFor, Sorted;
    var e, due := Edge(env.from, env.to), s.tick + DelayFor(f, env.from, env.to);
    if e in s.down {
      assert Pending(Enqueue(f, s, env), rest) == Pending(s, rest);
    } else if e in s.corrupt {
      var forged := env.Tamper(f.forge(s.corrupted, env.payload));
      assert Lives(s.nodes, forged) by { TamperLives(s.nodes, env, f.forge(s.corrupted, env.payload)); }
      var t := s.(corrupted := s.corrupted + 1);
      assert Pending(t, rest) == Pending(s, rest);
      QueueOrdered(f, t, rest, Flight(forged, due, None));
    } else {
      QueueOrdered(f, s, rest, Flight(env, due, None));
    }
  }

  lemma TamperLives(nodes: map<NodeID, NodeState>, env: Envelope, forged: Payload)
    requires Lives(nodes, env)
    ensures Lives(nodes, env.Tamper(forged))
  {
  }

  // Everything out[n..] holds is newer than all that is pending, and live.
  ghost predicate Fresher(nodes: map<NodeID, NodeState>, ms: seq<Flight>, out: seq<Envelope>, n: nat) {
    forall k :: n <= k < |out| ==> Newest(ms, out[k]) && Lives(nodes, out[k])
  }

  lemma EnqueueAllOrdered(f: Fabric, s: Sim, rest: seq<Flight>, out: seq<Envelope>, p: NodeID, n: nat)
    requires Prompt(f) && !f.relay && Ordered(f, s, rest) && n <= |out|
    requires Numbered(out) && (forall e :: e in out ==> e.from == p)
    requires Fresher(s.nodes, Pending(s, rest), out, 0)
    ensures var t := EnqueueAll(f, s, out, n);
      && Ordered(f, t, rest) && t.nodes == s.nodes && t.tick == s.tick
      && Fresher(t.nodes, Pending(t, rest), out, n)
  {
    hide Prompt, Lives, Ordered, Enqueue;
    if n > 0 {
      EnqueueAllOrdered(f, s, rest, out, p, n - 1);
      var b := EnqueueAll(f, s, out, n - 1);
      EnqueueOrdered(f, b, rest, out[n - 1]);
    }
  }

  // ---------- What a replica's step does to the counters ----------

  // p moves from s to s' and says out.
  ghost predicate Counters(cfg: Config, p: NodeID, s: NodeState, s': NodeState) {
    && WellWired(cfg, p, s) && WellWired(cfg, p, s')
    && s'.wire.sendTr.Keys == s.wire.sendTr.Keys && s'.wire.recvTr.Keys == s.wire.recvTr.Keys
    && (forall q :: q in s.wire.sendTr ==> s.wire.sendTr[q].sendSeq <= s'.wire.sendTr[q].sendSeq)
    && Numbered(s'.wire.outbox)
    && (forall e :: e in s'.wire.outbox ==>
         e.from == p && e.to in s.wire.sendTr && s.wire.sendTr[e.to].sendSeq < e.seqNo <= s'.wire.sendTr[e.to].sendSeq)
  }

  lemma WroteCounters(cfg: Config, p: NodeID, s: NodeState, s': NodeState, up: Option<set<NodeID>>)
    requires WellWired(cfg, p, s) && WellWired(cfg, p, s') && Wrote(cfg.ring, s.wire.sendTr, up, s')
    ensures Counters(cfg, p, s, s')
  {
    forall e | e in s'.wire.outbox
      ensures WroteOne(cfg.ring, s.wire.sendTr, up, s', e)
    {
    }
  }

  // What p says next is newer than anything pending, and live.
  lemma SaidIsFresher(cfg: Config, nodes: map<NodeID, NodeState>, p: NodeID, s': NodeState, ms: seq<Flight>)
    requires WiredNodes(cfg, nodes) && p in nodes && Counters(cfg, p, nodes[p], s')
    requires AllLive(nodes, ms) && Backed(nodes)
    ensures Fresher(nodes[p := s'], ms, s'.wire.outbox, 0)
  {
    hide WellWired, Numbered;
    var out, after := s'.wire.outbox, nodes[p := s'];
    forall k | 0 <= k < |out|
      ensures Newest(ms, out[k]) && Lives(after, out[k])
    {
      var e := out[k];
      assert e in out;
      NotItself(cfg, p, nodes[p], e.to);
      assert RecvSeq(nodes, e.to, p) <= SendSeq(nodes, p, e.to) < e.seqNo;
      assert RecvSeq(after, e.to, p) == RecvSeq(nodes, e.to, p);
      assert e.to in s'.wire.sendTr;
      forall m | m in ms && SameEdge(m.env, e)
        ensures m.env.seqNo < e.seqNo
      {
        assert Lives(nodes, m.env);
      }
    }
  }

  lemma NotItself(cfg: Config, p: NodeID, s: NodeState, q: NodeID)
    requires WellWired(cfg, p, s) && q in s.wire.sendTr
    ensures q != p
  {
    assert q in s.wire.sendTr.Keys;
  }

  // ---------- Handing over ----------

  // After taking m off the queue, what remains on its edge is newer than m.
  lemma RestIsNewer(f: Fabric, s: Sim, rest: seq<Flight>, m: Flight, x: Flight)
    requires Ordered(f, s, [m] + rest) && m.due <= s.tick
    requires x in Pending(s, rest) && SameEdge(x.env, m.env)
    ensures m.env.seqNo < x.env.seqNo
  {
    hide AllLive, Backed, NoReplays, DelayFor;
    var v, n := Pending(s, [m] + rest), |s.inflight|;
    assert v[n] == m;
    if x in s.inflight {
      var i :| 0 <= i < n && s.inflight[i] == x;
      assert v[i] == x && InOrder(v[i], v[n]);
    } else {
      var i :| 0 <= i < |rest| && rest[i] == x;
      assert v[n + 1 + i] == x && InOrder(v[n], v[n + 1 + i]);
      assert m in [m] + rest && x in [m] + rest;
    }
  }

  lemma TakenOut(f: Fabric, s: Sim, rest: seq<Flight>, m: Flight)
    requires Ordered(f, s, [m] + rest)
    ensures Ordered(f, s, rest) && Lives(s.nodes, m.env)
  {
    hide Lives, Backed, NoReplays, DelayFor, InOrder;
    var v, w, n := Pending(s, [m] + rest), Pending(s, rest), |s.inflight|;
    assert v[n] == m && m in v;
    forall i, j | 0 <= i < j < |w|
      ensures InOrder(w[i], w[j])
    {
      var x, y := if i < n then i else i + 1, if j < n then j else j + 1;
      assert w[i] == v[x] && w[j] == v[y];
    }
    assert forall x :: x in w ==> x in v;
    assert forall x :: x in rest ==> x in [m] + rest;
  }

  // The receiver's step, its counters, and what it still counts as a replay.
  lemma DeliverCounters(cfg: Config, p: NodeID, s: NodeState, env: Envelope, draw: nat)
    requires cfg.Valid() && WellWired(cfg, p, s) && env.from in s.wire.recvTr
    requires s.wire.recvTr[env.from].recvSeq < env.seqNo
    ensures var d := Deliver(cfg, s, env, draw);
      && Counters(cfg, p, s, d) && d.stats.replays == s.stats.replays
      && forall q :: q in s.wire.recvTr ==>
           d.wire.recvTr[q].recvSeq == if Accepts(cfg, s,
                 env) && q == env.from then env.seqNo else s.wire.recvTr[q].recvSeq
  {
    hide Deliver, Wrote, MergeInbound;
    var d := Deliver(cfg, s, env, draw);
    DeliverTraffic(cfg, p, s, env, draw);
    WroteCounters(cfg, p, s, d, Some(d.links.inboundUp));
  }

  // d is what the receiver p of env becomes: p's counters grew, and the only number
  // it may have accepted is env's.
  ghost predicate Handover(cfg: Config, nodes: map<NodeID, NodeState>, p: NodeID, d: NodeState, env: Envelope) {
    && p in nodes && env.to == p && Counters(cfg, p, nodes[p], d) && d.stats.replays == nodes[p].stats.replays
    && forall q :: q in nodes[p].wire.recvTr ==>
         || d.wire.recvTr[q].recvSeq == nodes[p].wire.recvTr[q].recvSeq
         || (q == env.from && d.wire.recvTr[q].recvSeq == env.seqNo)
  }

  lemma HandedLives(cfg: Config, nodes: map<NodeID, NodeState>, p: NodeID, d: NodeState, env: Envelope, x: Envelope)
    requires Handover(cfg, nodes, p, d, env) && Lives(nodes, x)
    requires SameEdge(x, env) ==> env.seqNo < x.seqNo
    ensures Lives(nodes[p := d], x)
  {
    hide Numbered, WellWired;
  }

  // Everything still pending survives the receiver's step.
  lemma HandedNodes(f: Fabric, s: Sim, rest: seq<Flight>, m: Flight, d: NodeState)
    requires Ordered(f, s, [m] + rest) && m.due <= s.tick
    requires Handover(f.cfg, s.nodes, m.env.to, d, m.env)
    ensures Ordered(f, s.(nodes := s.nodes[m.env.to := d]), rest)
  {
    TakenOut(f, s, rest, m);
    hide Handover, Lives, Sorted, Scheduled, SameEdge;
    var p, nodes := m.env.to, s.nodes[m.env.to := d];
    forall x | x in Pending(s, rest)
      ensures Lives(nodes, x.env)
    {
      assert Lives(s.nodes, x.env);
      if SameEdge(x.env, m.env) {
        RestIsNewer(f, s, rest, m, x);
      }
      HandedLives(f.cfg, s.nodes, p, d, m.env, x.env);
    }
    HandedBacked(f.cfg, s.nodes, p, d, m.env);
    HandedReplays(f.cfg, s.nodes, p, d, m.env);
    hide Backed, NoReplays;
    assert Pending(s.(nodes := nodes), rest) == Pending(s, rest);
    SameSchedule(f, s, nodes, rest);
  }

  lemma SameSchedule(f: Fabric, s: Sim, nodes: map<NodeID, NodeState>, rest: seq<Flight>)
    requires Scheduled(f, s, rest)
    ensures Scheduled(f, s.(nodes := nodes), rest)
  {
  }

  lemma HandedReplays(cfg: Config, nodes: map<NodeID, NodeState>, p: NodeID, d: NodeState, env: Envelope)
    requires Handover(cfg, nodes, p, d, env) && NoReplays(nodes)
    ensures NoReplays(nodes[p := d])
  {
  }

  lemma HandedBacked(cfg: Config, nodes: map<NodeID, NodeState>, p: NodeID, d: NodeState, env: Envelope)
    requires Handover(cfg, nodes, p, d, env) && Backed(nodes) && Lives(nodes, env)
    ensures Backed(nodes[p := d])
  {
    hide Numbered;
    var after := nodes[p := d];
    forall a, b
      ensures RecvSeq(after, b, a) <= SendSeq(after, a, b)
    {
      assert RecvSeq(nodes, b, a) <= SendSeq(nodes, a, b);
      assert SendSeq(nodes, a, b) <= SendSeq(after, a, b);
    }
  }

  lemma HandOrdered(f: Fabric, s: Sim, rest: seq<Flight>, m: Flight)
    requires f.cfg.Valid() && Prompt(f) && !f.relay && Sane(f, s, [m] + rest)
    requires Ordered(f, s, [m] + rest) && m.due <= s.tick
    ensures Ordered(f, Hand(f, s, m), rest) && Hand(f, s, m).tick == s.tick
  {
    hide Prompt, Deliver, EnqueueAll, Ordered, Sane, Lives, WiredNodes;
    var p, cfg, draw := m.env.to, f.cfg, Draw(f, m.env.to, s.drawn);
    NextIsRoutable(f, s, rest, m);
    TakenOut(f, s, rest, m);
    var d := Deliver(cfg, s.nodes[p], m.env, draw);
    ReceiverCounters(cfg, s.nodes, m.env, draw);
    HandedNodes(f, s, rest, m, d);
    var t := s.(nodes := s.nodes[p := d], delivered := s.delivered + 1, drawn := s.drawn + 1,
                history := s.history + [Handed(m, s.tick)]);
    OrderedFrame(f, s.(nodes := s.nodes[p := d]), t, rest);
    OrderedParts(f, s, rest);
    SaidIsFresher(cfg, s.nodes, p, d, Pending(s, rest));
    EnqueueAllOrdered(f, t, rest, d.wire.outbox, p, |d.wire.outbox|);
  }

  lemma OrderedFrame(f: Fabric, s: Sim, t: Sim, rest: seq<Flight>)
    requires Ordered(f, s, rest) && t.nodes == s.nodes && t.inflight == s.inflight && t.tick == s.tick
    ensures Ordered(f, t, rest)
  {
    hide Sorted, AllLive, Backed, NoReplays;
    assert Pending(t, rest) == Pending(s, rest);
  }

  lemma OrderedParts(f: Fabric, s: Sim, rest: seq<Flight>)
    requires Ordered(f, s, rest)
    ensures AllLive(s.nodes, Pending(s, rest)) && Backed(s.nodes) && NoReplays(s.nodes)
  {
  }

  lemma ReceiverCounters(cfg: Config, nodes: map<NodeID, NodeState>, env: Envelope, draw: nat)
    requires cfg.Valid() && WiredNodes(cfg, nodes) && Addressed(nodes, env) && Lives(nodes, env)
    ensures var d := Deliver(cfg, nodes[env.to], env, draw);
      Handover(cfg, nodes, env.to, d, env) && Counters(cfg, env.to, nodes[env.to], d)
  {
    hide Deliver, Accepts, Counters;
    var s := nodes[env.to];
    assert env.from in ToSet(cfg.members) - {env.to};
    assert WellWired(cfg, env.to, s);
    DeliverCounters(cfg, env.to, s, env, draw);
  }

  lemma RetainOrdered(f: Fabric, s: Sim, rest: seq<Flight>, m: Flight)
    requires Ordered(f, s, [m] + rest) && m.due > s.tick
    ensures Ordered(f, s.(inflight := s.inflight + [m]), rest)
  {
    hide Sorted, AllLive, Backed, NoReplays, DelayFor;
    assert Pending(s.(inflight := s.inflight + [m]), rest) == Pending(s, [m] + rest);
    assert forall x :: x in rest ==> x in [m] + rest;
    assert m in [m] + rest;
  }

  lemma DrainOrdered(f: Fabric, s: Sim, pending: seq<Flight>, n: nat)
    requires f.cfg.Valid() && Prompt(f) && !f.relay && n <= |pending|
    requires Sane(f, s, pending) && Ordered(f, s, pending)
    ensures var t := Drain(f, s, pending, n);
      Sane(f, t, pending[n..]) && Ordered(f, t, pending[n..]) && t.tick == s.tick
  {
    hide Sane, Ordered, Hand, Prompt;
    DrainKeeps(f, s, pending, n);
    if n == 0 {
      assert pending[0..] == pending;
    } else {
      DrainOrdered(f, s, pending, n - 1);
      var b, m := Drain(f, s, pending, n - 1), pending[n - 1];
      assert pending[n - 1..] == [m] + pending[n..];
      if m.due > b.tick {
        RetainOrdered(f, b, pending[n..], m);
      } else {
        HandOrdered(f, b, pending[n..], m);
      }
    }
  }

  lemma TickOneOrdered(f: Fabric, s: Sim, p: NodeID)
    requires f.cfg.Valid() && Prompt(f) && !f.relay && Sane(f, s, []) && Ordered(f, s, []) && p in s.nodes
    ensures Ordered(f, TickOne(f, s, p), []) && TickOne(f, s, p).tick == s.tick
  {
    hide Prompt, Tick, EnqueueAll, Ordered, Sane, WiredNodes;
    var cfg, draw := f.cfg, Draw(f, p, s.drawn);
    SaneParts(f, s, []);
    OrderedParts(f, s, []);
    var t := Tick(cfg, s.nodes[p], draw);
    TickCounters(cfg, s.nodes, p, draw);
    SaidIsFresher(cfg, s.nodes, p, t, Pending(s, []));
    var u := s.(nodes := s.nodes[p := t], drawn := s.drawn + 1);
    GrownOrdered(f, s, u, p);
    EnqueueAllOrdered(f, u, [], t.wire.outbox, p, |t.wire.outbox|);
  }

  lemma TickCounters(cfg: Config, nodes: map<NodeID, NodeState>, p: NodeID, draw: nat)
    requires cfg.Valid() && WiredNodes(cfg, nodes) && p in nodes
    ensures var t := Tick(cfg, nodes[p], draw);
      && Counters(cfg, p, nodes[p], t) && t.wire.recvTr == nodes[p].wire.recvTr
      && t.stats.replays == nodes[p].stats.replays
  {
    hide Tick, DetectSilence, Wrote;
    assert WellWired(cfg, p, nodes[p]);
    var t := Tick(cfg, nodes[p], draw);
    TickTraffic(cfg, p, nodes[p], draw);
    WroteCounters(cfg, p, nodes[p], t, Some(t.links.inboundUp));
  }

  // p's send side grows and nothing else does.
  lemma GrownOrdered(f: Fabric, s: Sim, u: Sim, p: NodeID)
    requires Ordered(f, s, []) && p in s.nodes && p in u.nodes && u.nodes == s.nodes[p := u.nodes[p]]
    requires u.inflight == s.inflight && u.tick == s.tick
    requires u.nodes[p].wire.recvTr == s.nodes[p].wire.recvTr && u.nodes[p].stats.replays == s.nodes[p].stats.replays
    requires u.nodes[p].wire.sendTr.Keys == s.nodes[p].wire.sendTr.Keys
    requires forall q :: q in s.nodes[p].wire.sendTr ==>
      s.nodes[p].wire.sendTr[q].sendSeq <= u.nodes[p].wire.sendTr[q].sendSeq
    ensures Ordered(f, u, [])
  {
    hide Sorted, Scheduled;
    assert forall a, b :: SendSeq(s.nodes, a, b) <= SendSeq(u.nodes, a, b);
    assert forall a, b :: RecvSeq(u.nodes, b, a) == RecvSeq(s.nodes, b, a);
    assert Pending(u, []) == Pending(s, []);
    forall m | m in Pending(u, [])
      ensures Lives(u.nodes, m.env)
    {
      assert Lives(s.nodes, m.env);
    }
    assert Backed(u.nodes);
    assert NoReplays(u.nodes);
    SameQueue(f, s, u);
  }

  lemma SameQueue(f: Fabric, s: Sim, u: Sim)
    requires Scheduled(f, s, []) && u.inflight == s.inflight && u.tick == s.tick
    ensures Scheduled(f, u, [])
  {
  }

  lemma TickAllOrdered(f: Fabric, s: Sim, n: nat)
    requires f.cfg.Valid() && Prompt(f) && !f.relay && Sane(f, s, []) && Ordered(f, s, []) && n <= |f.cfg.members|
    ensures Sane(f, TickAll(f, s, n), []) && Ordered(f, TickAll(f, s, n), [])
  {
    hide Sane, Ordered, TickOne, Prompt;
    TickAllKeeps(f, s, n);
    if n > 0 {
      TickAllOrdered(f, s, n - 1);
      var b, p := TickAll(f, s, n - 1), f.cfg.members[n - 1];
      if p in b.nodes {
        TickOneOrdered(f, b, p);
      }
    }
  }

  lemma StepOrdered(f: Fabric, s: Sim)
    requires f.cfg.Valid() && Prompt(f) && !f.relay && Sane(f, s, []) && Ordered(f, s, [])
    ensures Ordered(f, Step(f, s), [])
  {
    hide Drain, TickAll, Prompt, Sane, Ordered;
    var t := s.(tick := s.tick + 1, inflight := []);
    SetAsideSane(f, s, t);
    SetAsideOrdered(f, s, t);
    DrainOrdered(f, t, s.inflight, |s.inflight|);
    assert s.inflight[|s.inflight|..] == [];
    TickAllOrdered(f, Drain(f, t, s.inflight, |s.inflight|), |f.cfg.members|);
  }

  lemma SetAsideOrdered(f: Fabric, s: Sim, t: Sim)
    requires Ordered(f, s, []) && t == s.(tick := s.tick + 1, inflight := [])
    ensures Ordered(f, t, s.inflight)
  {
    hide Sorted, AllLive, Backed, NoReplays, DelayFor;
    assert Pending(t, s.inflight) == Pending(s, []) == s.inflight;
  }

  lemma OfferOrdered(f: Fabric, s: Sim, cmd: string)
    requires f.cfg.Valid() && Sane(f, s, []) && Ordered(f, s, [])
    ensures Ordered(f, ProposeToLeader(f, s, cmd), [])
  {
    hide Propose, SoleLeader, Sane, Ordered;
    SaneParts(f, s, []);
    var l := SoleLeader(f.cfg, s.nodes);
    if l.Some? && l.value in s.nodes {
      var p := l.value;
      assert WellWired(f.cfg, p, s.nodes[p]);
      ProposeTraffic(f.cfg, p, s.nodes[p], cmd);
      GrownOrdered(f, s, ProposeToLeader(f, s, cmd), p);
    }
  }

  // With relaying off and every delay at least one tick, each edge delivers in
  // sequence order: in every reachable state everything in flight is newer than
  // all its receiver has accepted, and no replica has ever counted a replay.
  lemma {:induction false} EdgesKeepOrder(f: Fabric, sims: seq<Sim>, moves: seq<Move>, n: nat)
    requires Prompt(f) && !f.relay && Simulated(f, sims, moves) && n <= |moves|
    ensures Ordered(f, sims[n], [])
  {
    hide Step, ProposeToLeader, Prompt, Sane, Ordered, FirstSim;
    if n == 0 {
      FirstOrdered(f);
    } else {
      EdgesKeepOrder(f, sims, moves, n - 1);
      AlwaysSane(f, sims, moves, n - 1);
      assert Moved(f, sims, moves, n - 1);
      var s := sims[n - 1];
      match moves[n - 1]
      case StepOn => StepOrdered(f, s);
      case Offer(cmd) => OfferOrdered(f, s, cmd);
      case _ => OrderedFrame(f, s, sims[n], []);
    }
  }

  lemma FirstOrdered(f: Fabric)
    requires f.cfg.Valid()
    ensures Ordered(f, FirstSim(f), [])
  {
    assert Pending(FirstSim(f), []) == [];
  }

  // ---------- What was handed over ----------

  // env carries a higher number than everything handed over on its edge.
  ghost predicate AfterAll(h: seq<Happening>, env: Envelope) {
    forall x :: x in h && x.Handed? && SameEdge(x.flight.env, env) ==> x.flight.env.seqNo < env.seqNo
  }

  // On each edge the history hands over in sequence order.
  ghost predicate HandedInOrder(h: seq<Happening>) {
    forall i, j :: 0 <= i < j < |h| && h[i].Handed? && h[j].Handed? && SameEdge(h[i].flight.env, h[j].flight.env) ==>
      h[i].flight.env.seqNo < h[j].flight.env.seqNo
  }

  ghost predicate HandedWereSent(nodes: map<NodeID, NodeState>, h: seq<Happening>) {
    forall x :: x in h && x.Handed? ==>
      x.flight.env.seqNo <= SendSeq(nodes, x.flight.env.from, x.flight.env.to)
  }

  ghost predicate PendingAfterAll(h: seq<Happening>, ms: seq<Flight>) {
    forall m :: m in ms ==> AfterAll(h, m.env)
  }

  ghost predicate Past(s: Sim, rest: seq<Flight>) {
    && HandedInOrder(s.history) && HandedWereSent(s.nodes, s.history)
    && PendingAfterAll(s.history, Pending(s, rest))
  }

  ghost predicate HandsNothing(e: Happening) {
    !e.Handed?
  }

  lemma NoHandoverKeeps(h: seq<Happening>, e: Happening, nodes: map<NodeID, NodeState>)
    requires HandsNothing(e)
    ensures HandedInOrder(h) ==> HandedInOrder(h + [e])
    ensures HandedWereSent(nodes, h) ==> HandedWereSent(nodes, h + [e])
    ensures forall env :: AfterAll(h, env) ==> AfterAll(h + [e], env)
  {
  }

  lemma EnqueuePast(f: Fabric, s: Sim, rest: seq<Flight>, env: Envelope)
    requires !f.relay && Past(s, rest) && AfterAll(s.history, env)
    ensures var t := Enqueue(f, s, env);
      && Past(t, rest) && t.nodes == s.nodes
      && forall e :: AfterAll(s.history, e) ==> AfterAll(t.history, e)
  {
    hide AfterAll, HandedInOrder, HandedWereSent, DelayFor;
    var t := Enqueue(f, s, env);
    var e := t.history[|s.history|];
    assert t.history == s.history + [e];
    NoHandoverKeeps(s.history, e, s.nodes);
    if Edge(env.from, env.to) !in s.down {
      var m := t.inflight[|s.inflight|];
      assert t.inflight == s.inflight + [m];
      TamperAfterAll(s.history, env, m.env.payload);
      assert forall x :: x in Pending(t, rest) ==> x in Pending(s, rest) || x == m;
    } else {
      assert Pending(t, rest) == Pending(s, rest);
    }
  }

  lemma TamperAfterAll(h: seq<Happening>, env: Envelope, forged: Payload)
    ensures AfterAll(h, env) ==> AfterAll(h, env.Tamper(forged))
  {
  }

  lemma EnqueueAllPast(f: Fabric, s: Sim, rest: seq<Flight>, out: seq<Envelope>, n: nat)
    requires !f.relay && Past(s, rest) && n <= |out| && forall e :: e in out ==> AfterAll(s.history, e)
    ensures var t := EnqueueAll(f, s, out, n);
      Past(t, rest) && t.nodes == s.nodes && forall e :: e in out ==> AfterAll(t.history, e)
  {
    hide Past, AfterAll, Enqueue;
    if n > 0 {
      EnqueueAllPast(f, s, rest, out, n - 1);
      assert out[n - 1] in out;
      EnqueuePast(f, EnqueueAll(f, s, out, n - 1), rest, out[n - 1]);
    }
  }

  // What p says next comes after everything handed over so far.
  lemma SaidAfterAll(cfg: Config, nodes: map<NodeID, NodeState>, p: NodeID, s': NodeState, h: seq<Happening>)
    requires p in nodes && Counters(cfg, p, nodes[p], s') && HandedWereSent(nodes, h)
    ensures forall e :: e in s'.wire.outbox ==> AfterAll(h, e)
    ensures HandedWereSent(nodes[p := s'], h)
  {
    hide WellWired, Numbered;
    forall x | x in h && x.Handed?
      ensures x.flight.env.seqNo <= SendSeq(nodes[p := s'], x.flight.env.from, x.flight.env.to)
    {
      assert x.flight.env.seqNo <= SendSeq(nodes, x.flight.env.from, x.flight.env.to);
    }
  }

  lemma HandedPast(f: Fabric, s: Sim, rest: seq<Flight>, m: Flight)
    requires Past(s, [m] + rest) && Ordered(f, s, [m] + rest) && m.due <= s.tick
    ensures Past(s.(history := s.history + [Handed(m, s.tick)]), rest)
  {
    var h, t := s.history, s.(history := s.history + [Handed(m, s.tick)]);
    assert m in Pending(s, [m] + rest);
    TakenOut(f, s, rest, m);
    forall x | x in Pending(t, rest)
      ensures AfterAll(t.history, x.env)
    {
      assert x in Pending(s, [m] + rest);
      assert AfterAll(h, x.env);
      if SameEdge(m.env, x.env) {
        RestIsNewer(f, s, rest, m, x);
      }
    }
    hide Ordered, PendingAfterAll, Pending;
    assert AfterAll(h, m.env);
    assert forall i :: 0 <= i < |h| ==> h[i] in h;
  }

  lemma HandPast(f: Fabric, s: Sim, rest: seq<Flight>, m: Flight)
    requires f.cfg.Valid() && Prompt(f) && !f.relay && Sane(f, s, [m] + rest)
    requires Ordered(f, s, [m] + rest) && Past(s, [m] + rest) && m.due <= s.tick
    ensures Past(Hand(f, s, m), rest)
  {
    hide Prompt, Deliver, EnqueueAll, Ordered, Sane, Lives, WiredNodes, Past, AfterAll;
    var p, cfg, draw := m.env.to, f.cfg, Draw(f, m.env.to, s.drawn);
    NextIsRoutable(f, s, rest, m);
    TakenOut(f, s, rest, m);
    HandedPast(f, s, rest, m);
    var d := Deliver(cfg, s.nodes[p], m.env, draw);
    ReceiverCounters(cfg, s.nodes, m.env, draw);
    var u := s.(history := s.history + [Handed(m, s.tick)]);
    var t := u.(nodes := s.nodes[p := d], delivered := s.delivered + 1, drawn := s.drawn + 1);
    PastMoves(cfg, u, t, rest, p, d);
    EnqueueAllPast(f, t, rest, d.wire.outbox, |d.wire.outbox|);
  }

  lemma PastMoves(cfg: Config, u: Sim, t: Sim, rest: seq<Flight>, p: NodeID, d: NodeState)
    requires Past(u, rest) && p in u.nodes && Counters(cfg, p, u.nodes[p], d)
    requires t.nodes == u.nodes[p := d] && t.inflight == u.inflight && t.history == u.history
    ensures Past(t, rest) && forall e :: e in d.wire.outbox ==> AfterAll(t.history, e)
  {
    hide Counters, HandedInOrder, AfterAll, HandedWereSent;
    SaidAfterAll(cfg, u.nodes, p, d, u.history);
    assert Pending(t, rest) == Pending(u, rest);
  }

  lemma DrainPast(f: Fabric, s: Sim, pending: seq<Flight>, n: nat)
    requires f.cfg.Valid() && Prompt(f) && !f.relay && n <= |pending|
    requires Sane(f, s, pending) && Ordered(f, s, pending) && Past(s, pending)
    ensures Past(Drain(f, s, pending, n), pending[n..])
  {
    hide Sane, Ordered, Hand, Prompt, Past;
    if n == 0 {
      assert pending[0..] == pending;
    } else {
      DrainPast(f, s, pending, n - 1);
      DrainOrdered(f, s, pending, n - 1);
      var b, m := Drain(f, s, pending, n - 1), pending[n - 1];
      assert pending[n - 1..] == [m] + pending[n..];
      if m.due > b.tick {
        RetainPast(b, pending[n..], m);
      } else {
        HandPast(f, b, pending[n..], m);
      }
    }
  }

  lemma RetainPast(s: Sim, rest: seq<Flight>, m: Flight)
    requires Past(s, [m] + rest)
    ensures Past(s.(inflight := s.inflight + [m]), rest)
  {
    assert Pending(s.(inflight := s.inflight + [m]), rest) == Pending(s, [m] + rest);
  }

  lemma TickAllPast(f: Fabric, s: Sim, n: nat)
    requires f.cfg.Valid() && Prompt(f) && !f.relay && n <= |f.cfg.members|
    requires Sane(f, s, []) && Ordered(f, s, []) && Past(s, [])
    ensures Past(TickAll(f, s, n), [])
  {
    hide Sane, Ordered, Tick, EnqueueAll, Prompt, Past, AfterAll, WiredNodes;
    if n > 0 {
      TickAllPast(f, s, n - 1);
      TickAllOrdered(f, s, n - 1);
      var b, p := TickAll(f, s, n - 1), f.cfg.members[n - 1];
      if p in b.nodes {
        SaneParts(f, b, []);
        var t := Tick(f.cfg, b.nodes[p], Draw(f, p, b.drawn));
        TickCounters(f.cfg, b.nodes, p, Draw(f, p, b.drawn));
        var u := b.(nodes := b.nodes[p := t], drawn := b.drawn + 1);
        PastMoves(f.cfg, b, u, [], p, t);
        EnqueueAllPast(f, u, [], t.wire.outbox, |t.wire.outbox|);
      }
    }
  }

  lemma StepPast(f: Fabric, s: Sim)
    requires f.cfg.Valid() && Prompt(f) && !f.relay && Sane(f, s, []) && Ordered(f, s, []) && Past(s, [])
    ensures Past(Step(f, s), [])
  {
    hide Drain, TickAll, Prompt, Sane, Ordered, HandedInOrder, HandedWereSent, AfterAll;
    var t := s.(tick := s.tick + 1, inflight := []);
    assert Pending(t, s.inflight) == Pending(s, []) == s.inflight;
    SetAsideSane(f, s, t);
    SetAsideOrdered(f, s, t);
    DrainPast(f, t, s.inflight, |s.inflight|);
    DrainOrdered(f, t, s.inflight, |s.inflight|);
    assert s.inflight[|s.inflight|..] == [];
    TickAllPast(f, Drain(f, t, s.inflight, |s.inflight|), |f.cfg.members|);
  }

  lemma OfferPast(f: Fabric, s: Sim, cmd: string)
    requires f.cfg.Valid() && Sane(f, s, []) && Past(s, [])
    ensures Past(ProposeToLeader(f, s, cmd), [])
  {
    hide Propose, SoleLeader, Sane, HandedInOrder, AfterAll;
    SaneParts(f, s, []);
    var l, t := SoleLeader(f.cfg, s.nodes), ProposeToLeader(f, s, cmd);
    if l.Some? && l.value in s.nodes {
      var p := l.value;
      assert WellWired(f.cfg, p, s.nodes[p]);
      ProposeTraffic(f.cfg, p, s.nodes[p], cmd);
      hide WellWired, WiredNodes;
      forall x | x in s.history && x.Handed?
        ensures x.flight.env.seqNo <= SendSeq(t.nodes, x.flight.env.from, x.flight.env.to)
      {
        assert x.flight.env.seqNo <= SendSeq(s.nodes, x.flight.env.from, x.flight.env.to);
      }
      assert Pending(t, []) == Pending(s, []);
    }
  }

  // Over the whole life of the simulation each edge hands its messages over in
  // the order of their sequence numbers.
  lemma {:induction false} HandedInSequence(f: Fabric, sims: seq<Sim>, moves: seq<Move>, n: nat)
    requires Prompt(f) && !f.relay && Simulated(f, sims, moves) && n <= |moves|
    ensures Past(sims[n], [])
  {
    hide Step, ProposeToLeader, Prompt, Sane, Ordered, HandedInOrder, AfterAll, HandedWereSent, FirstSim;
    if n == 0 {
      FirstPast(f);
    } else {
      HandedInSequence(f, sims, moves, n - 1);
      EdgesKeepOrder(f, sims, moves, n - 1);
      AlwaysSane(f, sims, moves, n - 1);
      assert Moved(f, sims, moves, n - 1);
      var s := sims[n - 1];
      match moves[n - 1]
      case StepOn => StepPast(f, s);
      case Offer(cmd) => OfferPast(f, s, cmd);
      case _ => assert Pending(sims[n], []) == Pending(s, []);
    }
  }

  lemma FirstPast(f: Fabric)
    requires f.cfg.Valid()
    ensures Past(FirstSim(f), [])
  {
    assert Pending(FirstSim(f), []) == [];
  }
}
