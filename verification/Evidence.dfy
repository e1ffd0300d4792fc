/** What a node believes about links, and why: its own column of the matrix is a
    sliding window over what it has heard, every other column is the last thing
    the column's owner said (internal/consensus/node.go, handlers.go). */
module Evidence {
  import opened Types
  import opened Crypt
  import opened Transcripts
  import opened NetMatrix
  import opened Nodes
  import opened Clusters
  import opened Traffic
  import opened Histories

  // ---------- The sliding window ----------

  function Ticks(acts: seq<Action>, p: NodeID): nat {
    if acts == [] then 0
    else Ticks(acts[..|acts| - 1], p) + if acts[|acts| - 1].TickAt? && acts[|acts| - 1].p == p then 1 else 0
  }

  // The node's own reading of the window, from its clock and its notes.
  ghost predicate Window(cfg: Config, s: NodeState, m: NodeID) {
    && (m in s.links.lastHeard ==> s.links.lastHeard[m] <= s.clock.tick)
    && (m in s.links.inboundUp <==> !Silent(cfg, s, m))
    && (s.links.view.CanSend(m, s.id) <==> m in s.links.inboundUp)
  }

  lemma TickKeepsWindow(cfg: Config, p: NodeID, s: NodeState, draw: nat, m: NodeID)
    requires cfg.mode == CrossFault && WiredAt(cfg, p, s) && m in cfg.members && m != p
    requires Window(cfg, s, m)
    ensures Window(cfg, Tick(cfg, s, draw), m)
    ensures Tick(cfg, s, draw).links.lastHeard == s.links.lastHeard
  {
    hide Tick, DetectSilence, WroteOne;
    TickTraffic(cfg, p, s, draw);
    var t := s.(clock := s.clock.(tick := s.clock.tick + 1));
    SweepIsExact(cfg, t, |cfg.members|);
    assert cfg.members[..|cfg.members|] == cfg.members;
    assert Silent(cfg, s, m) ==> Silent(cfg, t, m);
  }

  lemma DeliverKeepsWindow(cfg: Config, p: NodeID, s: NodeState, env: Envelope, draw: nat, m: NodeID)
    requires cfg.Valid() && WiredAt(cfg, p, s) && m in cfg.members && m != p
    requires Window(cfg, s, m)
    ensures var s' := Deliver(cfg, s, env, draw);
      && Window(cfg, s', m)
      && if Accepts(cfg, s, env) && env.from == m
         then m in s'.links.lastHeard && s'.links.lastHeard[m] == s.clock.tick
         else (m in s'.links.lastHeard <==> m in s.links.lastHeard)
              && (m in s.links.lastHeard ==> s'.links.lastHeard[m] == s.links.lastHeard[m])
  {
    hide Deliver, MergeInbound, Wrote, Received, Judge;
    DeliverTraffic(cfg, p, s, env, draw);
    if Accepts(cfg, s, env) {
      var h := Heard(s, env, cfg.ring);
      SetEdgeIsExact(s.links.view, env.from, p, true);
      if Gossips(env) {
        MergeIsExact(cfg.members, h.links.view, env.from, env.payload.inboundUp, |cfg.members|);
      }
    }
  }

  // heard is when, by p's clock, p last accepted something from m before step n.
  ghost predicate Remembers(cfg: Config, states: seq<Cluster>, acts: seq<Action>, n: nat, p: NodeID, m: NodeID,
                            heard: map<NodeID, nat>)
  {
    && (m in heard ==> exists j: nat :: j < n && HeardThen(cfg, states, acts, p, m, j, heard[m]))
    && (forall j: nat :: j < n && AcceptedAt(cfg, states, acts, p, m, j) ==>
         m in heard && j <= |acts| && Ticks(acts[..j], p) <= heard[m])
  }

  ghost predicate HeardThen(cfg: Config, states: seq<Cluster>, acts: seq<Action>, p: NodeID, m: NodeID, j: nat,
        t: nat) {
    AcceptedAt(cfg, states, acts, p, m, j) && Ticks(acts[..j], p) == t
  }

  lemma RemembersOld(cfg: Config, states: seq<Cluster>, acts: seq<Action>, n: nat, p: NodeID, m: NodeID,
                     heard: map<NodeID, nat>, heard': map<NodeID, nat>)
    requires Remembers(cfg, states, acts, n, p, m, heard) && !AcceptedAt(cfg, states, acts, p, m, n)
    requires (m in heard' <==> m in heard) && (m in heard ==> heard'[m] == heard[m])
    ensures Remembers(cfg, states, acts, n + 1, p, m, heard')
  {
    hide AcceptedAt, HeardThen;
  }

  lemma RemembersNew(cfg: Config, states: seq<Cluster>, acts: seq<Action>, n: nat, p: NodeID, m: NodeID,
                     heard: map<NodeID, nat>, heard': map<NodeID, nat>)
    requires Remembers(cfg, states, acts, n, p, m, heard) && AcceptedAt(cfg, states, acts, p, m, n)
    requires m in heard' && heard'[m] == Ticks(acts[..n], p) && (m in heard ==> heard[m] <= heard'[m])
    ensures Remembers(cfg, states, acts, n + 1, p, m, heard')
  {
    assert HeardThen(cfg, states, acts, p, m, n, heard'[m]);
    hide HeardThen;
  }

  // The node's clock and notes say what the run says.
  ghost predicate Noted(cfg: Config, states: seq<Cluster>, acts: seq<Action>, n: nat, p: NodeID, m: NodeID)
    requires n <= |acts| && n < |states| && p in states[n].nodes
  {
    var s := states[n].nodes[p];
    && Window(cfg, s, m) && s.clock.tick == Ticks(acts[..n], p)
    && Remembers(cfg, states, acts, n, p, m, s.links.lastHeard)
  }

  lemma {:induction false} RunIsNoted(cfg: Config, states: seq<Cluster>, acts: seq<Action>, n: nat, p: NodeID,
        m: NodeID)
    requires Run(cfg, states, acts) && cfg.mode == CrossFault && n <= |acts|
    requires p in cfg.members && m in cfg.members && m != p
    ensures p in states[n].nodes && Noted(cfg, states, acts, n, p, m)
  {
    hide Next, AcceptedAt, WiredAt, StepAt, Window, Remembers, Init, Noted;
    RunIsWired(cfg, states, acts, n);
    if n == 0 {
      FirstNoted(cfg, states, acts, p, m);
    } else {
      RunIsWired(cfg, states, acts, n - 1);
      RunIsNoted(cfg, states, acts, n - 1, p, m);
      NoteStep(cfg, states, acts, n - 1, p, m);
    }
  }

  lemma FirstNoted(cfg: Config, states: seq<Cluster>, acts: seq<Action>, p: NodeID, m: NodeID)
    requires Run(cfg, states, acts) && p in states[0].nodes && m in cfg.members && m != p
    ensures Noted(cfg, states, acts, 0, p, m)
  {
    hide Next, AcceptedAt;
    assert cfg.Valid() && BeginsAt(cfg, states[0], p);
  }

  // A step that hears nothing from m leaves the note about m alone.
  lemma QuietStep(cfg: Config, p: NodeID, s: NodeState, s': NodeState, a: Action, m: NodeID)
    requires cfg.Valid() && cfg.mode == CrossFault && WiredAt(cfg, p, s) && m in cfg.members && m != p
    requires Window(cfg, s, m)
    requires a.DeliverTo? ==> !(Accepts(cfg, s, a.env) && a.env.from == m)
    requires s' == match a
      case TickAt(_, d) => Tick(cfg, s, d)
      case DeliverTo(env, d) => Deliver(cfg, s, env, d)
      case ProposeAt(_, cmd) => Propose(cfg, s, cmd)
    ensures Window(cfg, s', m) && s'.clock.tick == s.clock.tick + if a.TickAt? then 1 else 0
    ensures m in s'.links.lastHeard <==> m in s.links.lastHeard
    ensures m in s.links.lastHeard ==> s'.links.lastHeard[m] == s.links.lastHeard[m]
  {
    hide Tick, Deliver, Propose, Window, Wrote, DetectSilence, MergeInbound, Judge, Received, Accepts;
    match a
    case TickAt(_, d) =>
      TickKeepsWindow(cfg, p, s, d, m);
      TickTraffic(cfg, p, s, d);
    case DeliverTo(env, d) =>
      DeliverKeepsWindow(cfg, p, s, env, d, m);
      DeliverTraffic(cfg, p, s, env, d);
    case ProposeAt(_, cmd) =>
      ProposeTraffic(cfg, p, s, cmd);
      ProposeKeepsWindow(cfg, s, s', m);
  }

  // A step that accepts something from m notes the time.
  lemma LoudStep(cfg: Config, p: NodeID, s: NodeState, env: Envelope, draw: nat, m: NodeID)
    requires cfg.Valid() && WiredAt(cfg, p, s) && m in cfg.members && m != p && Window(cfg, s, m)
    requires Accepts(cfg, s, env) && env.from == m
    ensures var s' := Deliver(cfg, s, env, draw);
      && Window(cfg, s', m) && s'.clock.tick == s.clock.tick
      && m in s'.links.lastHeard && s'.links.lastHeard[m] == s.clock.tick
      && (m in s.links.lastHeard ==> s.links.lastHeard[m] <= s.clock.tick)
  {
    hide Deliver, Wrote, MergeInbound, Judge, Received, Accepts;
    DeliverKeepsWindow(cfg, p, s, env, draw, m);
    DeliverTraffic(cfg, p, s, env, draw);
  }

  lemma NoteStep(cfg: Config, states: seq<Cluster>, acts: seq<Action>, n: nat, p: NodeID, m: NodeID)
    requires Run(cfg, states, acts) && cfg.mode == CrossFault && n < |acts|
    requires p in cfg.members && m in cfg.members && m != p
    requires Wired(cfg, states[n]) && p in states[n].nodes && Noted(cfg, states, acts, n, p, m)
    ensures p in states[n + 1].nodes
    ensures Noted(cfg, states, acts, n + 1, p, m)
  {
    hide Tick, Deliver, Propose, Next, Init, Window, Remembers, Accepts, WellWired, Silent;
    StepFacts(cfg, states, acts, n);
    assert acts[..n + 1][..n] == acts[..n] && acts[..n + 1][n] == acts[n];
    var s, s' := states[n].nodes[p], states[n + 1].nodes[p];
    assert WiredAt(cfg, p, s);
    if AcceptedAt(cfg, states, acts, p, m, n) {
      LoudStep(cfg, p, s, acts[n].env, acts[n].draw, m);
      RemembersNew(cfg, states, acts, n, p, m, s.links.lastHeard, s'.links.lastHeard);
    } else {
      if p == Actor(acts[n]) {
        QuietStep(cfg, p, s, s', acts[n], m);
      }
      RemembersOld(cfg, states, acts, n, p, m, s.links.lastHeard, s'.links.lastHeard);
    }
  }

  lemma ProposeKeepsWindow(cfg: Config, s: NodeState, s': NodeState, m: NodeID)
    requires SameSight(s, s') && Window(cfg, s, m)
    ensures Window(cfg, s', m)
  {
  }

  // In every reachable state the edge from m into p is believed up exactly when p
  // accepted something from m within its last T ticks, or never has and at most T
  // ticks have passed; and that is exactly when p counts m among those it hears.
  lemma SilenceIsASlidingWindow(cfg: Config, states: seq<Cluster>, acts: seq<Action>, p: NodeID, m: NodeID)
    requires Run(cfg, states, acts) && cfg.mode == CrossFault
    requires p in cfg.members && m in cfg.members && m != p
    ensures p in states[|acts|].nodes
    ensures var s, now := states[|acts|].nodes[p], Ticks(acts, p);
      && (s.links.view.CanSend(m, p) <==> m in s.links.inboundUp)
      && (m in s.links.inboundUp <==>
           || (exists j: nat :: AcceptedAt(cfg, states, acts, p, m, j) && now - Ticks(acts[..j], p) <= cfg.timeout)
           || (now <= cfg.timeout && forall j: nat :: !AcceptedAt(cfg, states, acts, p, m, j)))
  {
    hide Init, Next, AcceptedAt;
    var n := |acts|;
    RunIsNoted(cfg, states, acts, n, p, m);
    RunIsWired(cfg, states, acts, n);
    assert WiredAt(cfg, p, states[n].nodes[p]);
    assert acts[..n] == acts;
    var s := states[n].nodes[p];
    forall j: nat | AcceptedAt(cfg, states, acts, p, m, j)
      ensures j < n
    {
      AcceptedInTime(cfg, states, acts, p, m, j);
    }
    if m in s.links.lastHeard {
      var j: nat :| j < n && HeardThen(cfg, states, acts, p, m, j, s.links.lastHeard[m]);
    }
  }

  lemma AcceptedInTime(cfg: Config, states: seq<Cluster>, acts: seq<Action>, p: NodeID, m: NodeID, j: nat)
    requires AcceptedAt(cfg, states, acts, p, m, j)
    ensures j < |acts|
  {
  }

  // ---------- Gossip ----------

  // At step j, o took the gossip in a message from p.
  ghost predicate GossipTaken(cfg: Config, states: seq<Cluster>, acts: seq<Action>, o: NodeID, p: NodeID, j: nat) {
    AcceptedAt(cfg, states, acts, o, p, j) && Gossips(acts[j].env)
  }

  // o's column for p is what p's own inboundUp said after step i, when p sent the
  // gossip that o took at step j, the latest before step n.
  ghost predicate ToldAt(cfg: Config, states: seq<Cluster>, acts: seq<Action>, n: nat, o: NodeID, p: NodeID, j: nat,
        i: nat) {
    && n < |states| && o in states[n].nodes
    && i < j < n && GossipTaken(cfg, states, acts, o, p, j) && SentAt(states, acts, acts[j].env, i)
    && (forall k: nat :: j < k < n ==> !GossipTaken(cfg, states, acts, o, p, k))
    && (forall m :: m in cfg.members && m != p ==>
         (states[n].nodes[o].links.view.CanSend(m, p) <==> m in states[i + 1].nodes[p].links.inboundUp))
  }

  // o has taken no gossip from p before step n and still believes the best.
  ghost predicate Untold(cfg: Config, states: seq<Cluster>, acts: seq<Action>, n: nat, o: NodeID, p: NodeID) {
    && n < |states| && o in states[n].nodes
    && (forall k: nat :: k < n ==> !GossipTaken(cfg, states, acts, o, p, k))
    && (forall m :: m in cfg.members && m != p ==> states[n].nodes[o].links.view.CanSend(m, p))
  }

  ghost predicate Told(cfg: Config, states: seq<Cluster>, acts: seq<Action>, n: nat, o: NodeID, p: NodeID) {
    exists j: nat, i: nat :: ToldAt(cfg, states, acts, n, o, p, j, i)
  }

  // For every two nodes and every reachable state.
  lemma {:induction false} GossipIsFresh(cfg: Config, states: seq<Cluster>, acts: seq<Action>, n: nat, o: NodeID,
        p: NodeID)
    requires Run(cfg, states, acts) && n <= |acts| && o in cfg.members && p in cfg.members && o != p
    ensures Untold(cfg, states, acts, n, o, p) || Told(cfg, states, acts, n, o, p)
  {
    hide Next, GossipTaken, SentAt, ToldAt, Untold, Init;
    if n == 0 {
      FirstUntold(cfg, states, acts, o, p);
    } else {
      GossipIsFresh(cfg, states, acts, n - 1, o, p);
      if GossipTaken(cfg, states, acts, o, p, n - 1) {
        var i := TakeGossip(cfg, states, acts, n - 1, o, p);
        assert ToldAt(cfg, states, acts, n, o, p, n - 1, i);
      } else {
        ColumnStays(cfg, states, acts, n - 1, o, p);
        if Told(cfg, states, acts, n - 1, o, p) {
          var j: nat, i: nat :| ToldAt(cfg, states, acts, n - 1, o, p, j, i);
          StillTold(cfg, states, acts, n - 1, o, p, j, i);
        } else {
          StillUntold(cfg, states, acts, n - 1, o, p);
        }
      }
    }
  }

  lemma FirstUntold(cfg: Config, states: seq<Cluster>, acts: seq<Action>, o: NodeID, p: NodeID)
    requires Run(cfg, states, acts) && o in cfg.members && p in cfg.members && o != p
    ensures Untold(cfg, states, acts, 0, o, p)
  {
    hide Next;
    assert o in ToSet(cfg.members);
    assert BeginsAt(cfg, states[0], o);
  }

  lemma StillTold(cfg: Config, states: seq<Cluster>, acts: seq<Action>, n: nat, o: NodeID, p: NodeID, j: nat, i: nat)
    requires ToldAt(cfg, states, acts, n, o, p, j, i) && !GossipTaken(cfg, states, acts, o, p, n)
    requires n + 1 < |states| && o in states[n + 1].nodes
    requires SameColumn(states[n].nodes[o].links.view, states[n + 1].nodes[o].links.view, p)
    ensures ToldAt(cfg, states, acts, n + 1, o, p, j, i)
  {
    hide GossipTaken, SentAt;
  }

  lemma StillUntold(cfg: Config, states: seq<Cluster>, acts: seq<Action>, n: nat, o: NodeID, p: NodeID)
    requires Untold(cfg, states, acts, n, o, p) && !GossipTaken(cfg, states, acts, o, p, n)
    requires n + 1 < |states| && o in states[n + 1].nodes
    requires SameColumn(states[n].nodes[o].links.view, states[n + 1].nodes[o].links.view, p)
    ensures Untold(cfg, states, acts, n + 1, o, p)
  {
    hide GossipTaken;
  }

  ghost predicate SameColumn(v: Matrix, w: Matrix, p: NodeID) {
    forall m :: w.CanSend(m, p) <==> v.CanSend(m, p)
  }

  // Nothing but gossip from p changes what others believe about links into p.
  lemma ColumnStays(cfg: Config, states: seq<Cluster>, acts: seq<Action>, n: nat, o: NodeID, p: NodeID)
    requires Run(cfg, states, acts) && n < |acts| && o in cfg.members && o != p
    requires !GossipTaken(cfg, states, acts, o, p, n)
    ensures o in states[n].nodes && o in states[n + 1].nodes
    ensures SameColumn(states[n].nodes[o].links.view, states[n + 1].nodes[o].links.view, p)
  {
    hide Next, Init, Tick, Deliver, Propose, Wrote, DetectSilence, MergeInbound, Judge, Received;
    RunIsWired(cfg, states, acts, n);
    StepFacts(cfg, states, acts, n);
    var s := states[n].nodes[o];
    if o == Actor(acts[n]) {
      match acts[n]
      case TickAt(_, d) =>
        TickTraffic(cfg, o, s, d);
        SweepIsExact(cfg, s.(clock := s.clock.(tick := s.clock.tick + 1)), |cfg.members|);
      case DeliverTo(env, d) =>
        DeliverTraffic(cfg, o, s, env, d);
        if Accepts(cfg, s, env) {
          DeliveredColumn(cfg, o, s, env, p);
        }
      case ProposeAt(_, cmd) =>
        ProposeTraffic(cfg, o, s, cmd);
    }
  }

  lemma DeliveredColumn(cfg: Config, o: NodeID, s: NodeState, env: Envelope, p: NodeID)
    requires WiredAt(cfg, o, s) && Accepts(cfg, s, env) && o != p
    ensures var h := Heard(s, env, cfg.ring);
      var v := h.links.view;
      && SameColumn(s.links.view, v, p)
      && (Gossips(env) ==>
           var w := Merge(cfg, h, env.from, env.payload.inboundUp).links.view;
           if env.from == p
           then forall m :: m in cfg.members && m != p ==> (w.CanSend(m, p) <==> m in env.payload.inboundUp)
           else SameColumn(s.links.view, w, p))
  {
    hide MergeInbound, Judge, Received;
    var h := Heard(s, env, cfg.ring);
    assert env.from in s.wire.recvTr.Keys;
    SetEdgeIsExact(s.links.view, env.from, o, true);
    if Gossips(env) {
      MergeIsExact(cfg.members, h.links.view, env.from, env.payload.inboundUp, |cfg.members|);
      assert cfg.members[..|cfg.members|] == cfg.members;
    }
  }

  // Taking p's gossip makes the column for p what the gossip says.
  lemma GossipInstalled(cfg: Config, o: NodeID, s: NodeState, env: Envelope, draw: nat)
    requires cfg.Valid() && WiredAt(cfg, o, s) && Accepts(cfg, s, env) && Gossips(env) && env.from != o
    ensures forall m :: m in cfg.members && m != env.from ==>
      (Deliver(cfg, s, env, draw).links.view.CanSend(m, env.from) <==> m in env.payload.inboundUp)
  {
    hide Deliver, MergeInbound, Judge, Received, Wrote, Heard;
    DeliverTraffic(cfg, o, s, env, draw);
    DeliveredColumn(cfg, o, s, env, env.from);
  }

  lemma TakeGossip(cfg: Config, states: seq<Cluster>, acts: seq<Action>, n: nat, o: NodeID, p: NodeID)
    returns (i: nat)
    requires Run(cfg, states, acts) && n < |acts| && o in cfg.members && p in cfg.members && o != p
    requires GossipTaken(cfg, states, acts, o, p, n)
    ensures ToldAt(cfg, states, acts, n + 1, o, p, n, i)
  {
    hide Next, Init, Tick, Deliver, Propose, MergeInbound, Judge, Received, Wrote, SentAt, Heard, WellWired;
    RunIsWired(cfg, states, acts, n);
    StepFacts(cfg, states, acts, n);
    i := AcceptedWasSent(cfg, states, acts, o, p, n);
    SentTells(cfg, states, acts, acts[n].env, i);
    GossipInstalled(cfg, o, states[n].nodes[o], acts[n].env, acts[n].draw);
  }
}
