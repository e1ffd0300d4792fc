/** The steps from which runs of the cluster are put together: what each leaves of
    the node that takes it, and which letters then wait for the others. */
module Stages {
  import opened Types
  import opened Crypt
  import opened Transcripts
  import opened Logs
  import opened Rafts
  import opened NetMatrix
  import opened Nodes
  import opened Clusters
  import opened Traffic
  import opened Histories
  import Simulation

  // ---------- Reachable states ----------

  ghost predicate Reached(cfg: Config, c: Cluster) {
    exists states, acts :: Run(cfg, states, acts) && states[|acts|] == c
  }

  lemma NextIsApply(cfg: Config, c: Cluster, a: Action)
    requires cfg.Valid() && Enabled(cfg, c, a)
    ensures Next(cfg, c, a, Apply(cfg, c, a))
  {
  }

  lemma RunTo(cfg: Config, c: Cluster) returns (states: seq<Cluster>, acts: seq<Action>)
    requires Reached(cfg, c)
    ensures Run(cfg, states, acts) && |states| == |acts| + 1 && states[|acts|] == c && cfg.Valid()
  {
    hide Init, Next;
    states, acts :| Run(cfg, states, acts) && states[|acts|] == c;
  }

  lemma ReachedBy(cfg: Config, states: seq<Cluster>, acts: seq<Action>, c: Cluster)
    requires Run(cfg, states, acts) && states[|acts|] == c
    ensures Reached(cfg, c)
  {
    hide Init, Next;
  }

  lemma ReachedWired(cfg: Config, c: Cluster, p: NodeID)
    requires Reached(cfg, c) && p in cfg.members
    ensures cfg.Valid() && c.nodes.Keys == ToSet(cfg.members) && p in c.nodes && WiredAt(cfg, p, c.nodes[p])
  {
    hide Run, WiredAt;
    var states, acts := RunTo(cfg, c);
    RunIsWired(cfg, states, acts, |acts|);
  }

  lemma NothingHeard(cfg: Config, c: Cluster, p: NodeID, q: NodeID)
    requires cfg.Valid() && Init(cfg, c) && p in cfg.members && q in cfg.members && p != q
    ensures p in c.nodes && q in c.nodes && q in c.nodes[p].wire.sendTr && p in c.nodes[q].wire.recvTr
    ensures c.nodes[q].wire.recvTr[p].recvSeq == 0
  {
    assert BeginsAt(cfg, c, p) && BeginsAt(cfg, c, q);
  }

  lemma SentLow(cfg: Config, states: seq<Cluster>, acts: seq<Action>, i: nat, n: nat, p: NodeID, q: NodeID, e: Envelope)
    requires Run(cfg, states, acts) && i < n <= |acts| && SentAt(states, acts, e, i)
    requires p in cfg.members && q in cfg.members && p != q && e.from == p && e.to == q
    ensures p in states[n].nodes && q in states[n].nodes[p].wire.sendTr
    ensures e.seqNo <= states[n].nodes[p].wire.sendTr[q].sendSeq
  {
    hide Init, Next;
    SentTells(cfg, states, acts, e, i);
    CountsGrow(cfg, states, acts, i + 1, n, p, q);
  }

  lemma AcceptedNames(cfg: Config, states: seq<Cluster>, acts: seq<Action>, o: NodeID, p: NodeID, j: nat)
    requires AcceptedAt(cfg, states, acts, o, p, j)
    ensures acts[j].DeliverTo? && acts[j].env.from == p && acts[j].env.to == o
  {
  }

  lemma {:induction false} HeardWasSent(cfg: Config, states: seq<Cluster>, acts: seq<Action>, n: nat,
        p: NodeID, q: NodeID)
    requires Run(cfg, states, acts) && n <= |acts| && p in cfg.members && q in cfg.members && p != q
    ensures n < |states| && p in states[n].nodes && q in states[n].nodes
    ensures q in states[n].nodes[p].wire.sendTr && p in states[n].nodes[q].wire.recvTr
    ensures states[n].nodes[q].wire.recvTr[p].recvSeq <= states[n].nodes[p].wire.sendTr[q].sendSeq
  {
    if n == 0 {
      NothingHeard(cfg, states[0], p, q);
      return;
    }
    hide Init, Next, AcceptedAt, SentAt;
    HeardWasSent(cfg, states, acts, n - 1, p, q);
    StepCounts(cfg, states, acts, n - 1, p, q);
    StepCounts(cfg, states, acts, n - 1, q, p);
    if AcceptedAt(cfg, states, acts, q, p, n - 1) {
      AcceptedNames(cfg, states, acts, q, p, n - 1);
      var i := AcceptedWasSent(cfg, states, acts, q, p, n - 1);
      SentLow(cfg, states, acts, i, n, p, q, acts[n - 1].env);
    }
  }

  // ---------- Letters ----------

  // e waits for its addressee: sealed, untouched, and newer than all it has accepted
  // from the sender.
  ghost predicate Letter(cfg: Config, c: Cluster, e: Envelope, from: NodeID, to: NodeID, body: Payload) {
    && e in c.net && e.from == from && e.to == to && e.payload == body
    && e.kind == KindOf(body) && e.Open(cfg.ring) == Opened
    && to in c.nodes && from in c.nodes[to].wire.recvTr && c.nodes[to].wire.recvTr[from].recvSeq < e.seqNo
  }

  ghost predicate Awaits(cfg: Config, c: Cluster, from: NodeID, to: NodeID, body: Payload) {
    exists e :: Letter(cfg, c, e, from, to, body)
  }

  ghost predicate SameHearing(c: Cluster, c': Cluster, p: NodeID, froms: set<NodeID>) {
    && p in c.nodes && p in c'.nodes && c'.nodes[p].wire.recvTr.Keys == c.nodes[p].wire.recvTr.Keys
    && forall q :: q in c.nodes[p].wire.recvTr && q !in froms ==>
         c'.nodes[p].wire.recvTr[q] == c.nodes[p].wire.recvTr[q]
  }

  // c' comes after c; only these nodes have moved, and have opened letters only from those.
  ghost predicate OnlyMoved(cfg: Config, c: Cluster, who: set<NodeID>, froms: set<NodeID>, c': Cluster) {
    && Reached(cfg, c') && c'.nodes.Keys == c.nodes.Keys && c.net <= c'.net
    && (forall q :: q in c.nodes && q !in who ==> c'.nodes[q] == c.nodes[q])
    && forall p :: p in who ==> SameHearing(c, c', p, froms)
  }

  lemma NobodyMoved(cfg: Config, c: Cluster)
    requires Reached(cfg, c)
    ensures OnlyMoved(cfg, c, {}, {}, c)
  {
    hide Reached;
  }

  lemma StaysPut(cfg: Config, c: Cluster, p: NodeID, froms: set<NodeID>)
    requires Reached(cfg, c) && p in c.nodes
    ensures OnlyMoved(cfg, c, {p}, froms, c)
  {
    hide Reached;
  }

  lemma Wider(cfg: Config, c: Cluster, who: set<NodeID>, froms: set<NodeID>, c': Cluster, froms': set<NodeID>)
    requires OnlyMoved(cfg, c, who, froms, c') && froms <= froms'
    ensures OnlyMoved(cfg, c, who, froms', c')
  {
    hide Reached;
    forall p | p in who
      ensures SameHearing(c, c', p, froms')
    {
      assert SameHearing(c, c', p, froms);
    }
  }

  lemma MovesCompose(cfg: Config, c: Cluster, who1: set<NodeID>, froms1: set<NodeID>, c1: Cluster,
                     who2: set<NodeID>, froms2: set<NodeID>, c2: Cluster)
    requires OnlyMoved(cfg, c, who1, froms1, c1) && OnlyMoved(cfg, c1, who2, froms2, c2)
    ensures OnlyMoved(cfg, c, who1 + who2, froms1 + froms2, c2)
  {
    hide Reached;
    forall p | p in who1 + who2
      ensures SameHearing(c, c2, p, froms1 + froms2)
    {
      assert p in who1 ==> SameHearing(c, c1, p, froms1);
      assert p in who2 ==> SameHearing(c1, c2, p, froms2);
      assert p !in who1 ==> c1.nodes[p] == c.nodes[p];
      assert p !in who2 ==> c2.nodes[p] == c1.nodes[p];
    }
  }

  lemma MovedReached(cfg: Config, c: Cluster, who: set<NodeID>, froms: set<NodeID>, c': Cluster)
    requires OnlyMoved(cfg, c, who, froms, c')
    ensures Reached(cfg, c') && c'.nodes.Keys == c.nodes.Keys
  {
    hide Reached;
  }

  lemma StillAwaits(cfg: Config, c: Cluster, who: set<NodeID>, froms: set<NodeID>, c': Cluster,
                    from: NodeID, to: NodeID, body: Payload)
    requires OnlyMoved(cfg, c, who, froms, c') && Awaits(cfg, c, from, to, body)
    requires to !in who || from !in froms
    ensures Awaits(cfg, c', from, to, body)
  {
    hide Reached;
    var e :| Letter(cfg, c, e, from, to, body);
    assert to in who ==> SameHearing(c, c', to, froms);
    assert Letter(cfg, c', e, from, to, body);
  }

  // Everything p has just queued waits for its addressee.
  ghost predicate Posted(cfg: Config, c: Cluster, p: NodeID) {
    p in c.nodes && forall e :: e in c.nodes[p].wire.outbox ==> Letter(cfg, c, e, p, e.to, e.payload)
  }

  ghost predicate Says(out: seq<Envelope>, to: NodeID, body: Payload) {
    exists e :: e in out && e.to == to && e.payload == body
  }

  lemma SaidAwaits(cfg: Config, c: Cluster, p: NodeID, to: NodeID, body: Payload)
    requires Posted(cfg, c, p) && Says(c.nodes[p].wire.outbox, to, body)
    ensures Awaits(cfg, c, p, to, body)
  {
    hide Letter;
  }

  // ---------- One step ----------

  // What a tick or a delivery puts on the wire waits for its addressees.
  lemma StepPosts(cfg: Config, c: Cluster, a: Action) returns (c': Cluster)
    requires cfg.Valid() && Reached(cfg, c) && Enabled(cfg, c, a) && Actor(a) in cfg.members
    ensures c' == Apply(cfg, c, a) && Reached(cfg, c') && c'.nodes.Keys == c.nodes.Keys && c.net <= c'.net
    ensures forall q :: q in c.nodes && q != Actor(a) ==> c'.nodes[q] == c.nodes[q]
    ensures !a.ProposeAt? ==> Posted(cfg, c', Actor(a))
  {
    hide Run, Init, Enabled, Tick, Deliver, Propose, Letter;
    var states, acts := RunTo(cfg, c);
    c' := Apply(cfg, c, a);
    NextIsApply(cfg, c, a);
    RunExtends(cfg, states, acts, a, c');
    var ss, aa := states + [c'], acts + [a];
    ReachedBy(cfg, ss, aa, c');
    RunIsWired(cfg, states, acts, |acts|);
    NextSteps(cfg, c, a, c');
    if !a.ProposeAt? {
      forall e | e in c'.nodes[Actor(a)].wire.outbox
        ensures Letter(cfg, c', e, Actor(a), e.to, e.payload)
      {
        SentIsLetter(cfg, ss, aa, |acts|, e);
      }
    }
  }

  lemma SentIsLetter(cfg: Config, states: seq<Cluster>, acts: seq<Action>, i: nat, e: Envelope)
    requires Run(cfg, states, acts) && i < |acts| && !acts[i].ProposeAt? && Actor(acts[i]) in states[i + 1].nodes
    requires e in states[i + 1].nodes[Actor(acts[i])].wire.outbox
    ensures Letter(cfg, states[i + 1], e, Actor(acts[i]), e.to, e.payload)
  {
    hide Init, Next, Tick, Deliver, Propose;
    EmittedByActor(cfg, states, acts, i, e);
    assert SentAt(states, acts, e, i);
    SentTells(cfg, states, acts, e, i);
    RunIsWired(cfg, states, acts, i);
    StepFacts(cfg, states, acts, i);
    var p, q := e.from, e.to;
    OtherMember(cfg, p, states[i].nodes[p], q);
    HeardWasSent(cfg, states, acts, i, p, q);
  }

  lemma OtherMember(cfg: Config, p: NodeID, s: NodeState, q: NodeID)
    requires WiredAt(cfg, p, s) && q in s.wire.sendTr
    ensures p in cfg.members && q in cfg.members && p != q
  {
    assert q in ToSet(cfg.members) - {p};
  }

  // ---------- Where a node stands ----------

  // Every link is up but those into p from someone overdue, as it is until p hears gossip.
  ghost predicate Up(cfg: Config, p: NodeID, v: Matrix, lastHeard: map<NodeID, nat>, tick: nat) {
    && v.members == cfg.members && v.owner == p
    && forall x, y :: x in cfg.members && y in cfg.members ==>
         v.CanSend(x, y) || (y == p && x != p && Overdue(cfg, lastHeard, tick, x))
  }

  // The node's consensus state, its tick, and how long its timer has run.
  ghost predicate Stands(cfg: Config, s: NodeState, r: Raft, tick: nat, elapsed: nat) {
    && s.raft == r && s.clock.tick == tick
    && s.clock.electionElapsed == elapsed && s.clock.electionTimeout == cfg.timeout
    && (cfg.mode == CrossFault ==> Up(cfg, s.id, s.links.view, s.links.lastHeard, tick))
  }

  // A member of a reachable cluster that stands there with its timer just reset.
  ghost predicate At(cfg: Config, c: Cluster, p: NodeID, r: Raft, tick: nat) {
    Reached(cfg, c) && p in cfg.members && p in c.nodes && Stands(cfg, c.nodes[p], r, tick, 0)
  }

  lemma StillAt(cfg: Config, c: Cluster, who: set<NodeID>, froms: set<NodeID>, c': Cluster,
                p: NodeID, r: Raft, tick: nat)
    requires OnlyMoved(cfg, c, who, froms, c') && p !in who && At(cfg, c, p, r, tick)
    ensures At(cfg, c', p, r, tick)
  {
    hide Reached, Stands;
  }

  // p stands somewhere, with its timer just reset.
  ghost predicate Here(cfg: Config, c: Cluster, p: NodeID) {
    p in c.nodes && At(cfg, c, p, c.nodes[p].raft, c.nodes[p].clock.tick)
  }

  lemma StillHere(cfg: Config, c: Cluster, who: set<NodeID>, froms: set<NodeID>, c': Cluster, p: NodeID)
    requires OnlyMoved(cfg, c, who, froms, c') && p !in who && Here(cfg, c, p)
    ensures Here(cfg, c', p) && c'.nodes[p] == c.nodes[p]
  {
    hide Reached, Stands;
  }

  // The node itself and whoever will not be overdue when its timer runs out.
  function Company(cfg: Config, s: NodeState): set<NodeID> {
    set m | m in cfg.members && (m == s.id || Recent(s, m))
  }

  predicate Recent(s: NodeState, m: NodeID) {
    s.clock.tick <= 1 + s.clock.electionElapsed + if m in s.links.lastHeard then s.links.lastHeard[m] else 0
  }

  // They are a majority, and the node may run.
  ghost predicate Current(cfg: Config, s: NodeState) {
    |Company(cfg, s)| >= cfg.Quorum()
  }

  lemma CurrentIsQuorum(cfg: Config, s: NodeState)
    requires cfg.Valid() && Up(cfg, s.id, s.links.view, s.links.lastHeard, s.clock.tick)
    requires Current(cfg, s) && s.id in cfg.members
    requires s.clock.electionElapsed + 1 == cfg.timeout
    ensures s.links.view.HasBidirectionalQuorum(s.id)
  {
    SubsetCardinality(Company(cfg, s), s.links.view.Peers(s.id));
  }

  lemma FreshIsCurrent(cfg: Config, s: NodeState)
    requires cfg.Valid() && s.clock.tick <= 1 + s.clock.electionElapsed
    ensures Current(cfg, s)
  {
    assert Company(cfg, s) == ToSet(cfg.members);
    AscendingCardinality(cfg.members);
  }

  // Whom the node has heard from since its last tick.
  function NowHeard(s: NodeState): set<NodeID> {
    set m | m in s.links.lastHeard && s.links.lastHeard[m] == s.clock.tick
  }

  lemma HeardIsCurrent(cfg: Config, s: NodeState, us: set<NodeID>)
    requires us <= NowHeard(s) && us <= ToSet(cfg.members) && s.id in cfg.members && s.id !in us
    requires |us| + 1 >= cfg.Quorum()
    ensures Current(cfg, s)
  {
    assert |us + {s.id}| == |us| + 1;
    SubsetCardinality(us + {s.id}, Company(cfg, s));
  }

  // ---------- Sending ----------

  lemma SendOnlySends(s: NodeState, to: NodeID, body: Payload)
    ensures Send(s, to, body) == s.(wire := Send(s, to, body).wire)
  {
  }

  lemma SendSays(s: NodeState, to: NodeID, body: Payload)
    requires to in s.wire.sendTr
    ensures Says(Send(s, to, body).wire.outbox, to, body)
  {
    var t := Send(s, to, body);
    assert t.wire.outbox[|s.wire.outbox|] in t.wire.outbox;
  }

  lemma SendKeepsSaid(s: NodeState, to: NodeID, body: Payload, q: NodeID, other: Payload)
    requires Says(s.wire.outbox, q, other)
    ensures Says(Send(s, to, body).wire.outbox, q, other)
  {
    var e :| e in s.wire.outbox && e.to == q && e.payload == other;
    assert e in Send(s, to, body).wire.outbox;
  }

  lemma BroadcastSameSays(cfg: Config, s: NodeState, body: Payload, n: nat, q: NodeID)
    requires n <= |cfg.members| && q in cfg.members[..n] && q != s.id && q in s.wire.sendTr
    ensures Says(BroadcastSame(cfg, s, body, n).wire.outbox, q, body)
  {
    hide Says;
    var b, m := BroadcastSame(cfg, s, body, n - 1), cfg.members[n - 1];
    SameOnlySends(cfg, s, body, n - 1);
    SameKeepsPeers(cfg, s, body, n - 1);
    if q == m {
      SendSays(b, q, body);
    } else {
      assert cfg.members[..n] == cfg.members[..n - 1] + [m];
      BroadcastSameSays(cfg, s, body, n - 1, q);
      SendKeepsSaid(b, m, body, q, body);
    }
  }

  lemma SameKeepsPeers(cfg: Config, s: NodeState, body: Payload, n: nat)
    requires n <= |cfg.members|
    ensures BroadcastSame(cfg, s, body, n).wire.sendTr.Keys == s.wire.sendTr.Keys
  {
  }

  lemma BroadcastKeepsSaid(cfg: Config, s: NodeState, body: Payload, n: nat, q: NodeID, other: Payload)
    requires n <= |cfg.members| && Says(s.wire.outbox, q, other)
    ensures Says(BroadcastSame(cfg, s, body, n).wire.outbox, q, other)
  {
    hide Says, Send;
    if n > 0 {
      BroadcastKeepsSaid(cfg, s, body, n - 1, q, other);
      SendKeepsSaid(BroadcastSame(cfg, s, body, n - 1), cfg.members[n - 1], body, q, other);
    }
  }

  // Taking someone to have nothing new changes no request.
  lemma RememberedRequest(r: Raft, m: NodeID, id: NodeID, q: NodeID)
    ensures AppendFor(RememberNext(r, m), id, q) == AppendFor(r, id, q)
  {
  }

  lemma BroadcastAppendSays(cfg: Config, s: NodeState, n: nat, q: NodeID)
    requires n <= |cfg.members| && s.wire.sendTr.Keys == ToSet(cfg.members) - {s.id}
    ensures var b := BroadcastAppend(cfg, s, n);
      && b.wire.sendTr.Keys == s.wire.sendTr.Keys && b.id == s.id && b.wire.recvTr == s.wire.recvTr
      && AppendFor(b.raft, s.id, q) == AppendFor(s.raft, s.id, q)
      && (q in cfg.members[..n] && q != s.id ==> Says(b.wire.outbox, q, AppendFor(s.raft, s.id, q)))
  {
    hide Says, AppendFor;
    if n > 0 {
      BroadcastAppendSays(cfg, s, n - 1, q);
      var b, m := BroadcastAppend(cfg, s, n - 1), cfg.members[n - 1];
      assert cfg.members[..n] == cfg.members[..n - 1] + [m];
      if m != s.id {
        var z := b.(raft := RememberNext(b.raft, m));
        RememberedRequest(b.raft, m, s.id, q);
        hide RememberNext;
        if q == m {
          SendSays(z, q, AppendFor(b.raft, b.id, q));
        } else if q in cfg.members[..n - 1] && q != s.id {
          SendKeepsSaid(z, m, AppendFor(b.raft, b.id, m), q, AppendFor(s.raft, s.id, q));
        }
      }
    }
  }

  // ---------- A letter is opened ----------

  // The node as its handler finds it.
  ghost predicate Hearing(cfg: Config, p: NodeID, s: NodeState, from: NodeID, h: NodeState) {
    && WellWired(cfg, p, h) && h.wire.outbox == [] && from in h.wire.sendTr
    && h.links.heardFrom == s.links.heardFrom + {from}
    && s.id == p && h.raft == s.raft && h.clock == s.clock
    && h.links.lastHeard == s.links.lastHeard[from := s.clock.tick]
    && (Up(cfg, p, s.links.view, s.links.lastHeard, s.clock.tick) ==>
          Up(cfg, p, h.links.view, h.links.lastHeard, s.clock.tick))
  }

  lemma HearingKeepsUp(cfg: Config, p: NodeID, v: Matrix, lastHeard: map<NodeID, nat>, tick: nat, from: NodeID)
    requires Up(cfg, p, v, lastHeard, tick)
    ensures Up(cfg, p, v.ObserveInbound(from), lastHeard[from := tick], tick)
  {
  }

  lemma OpensLetter(cfg: Config, p: NodeID, s: NodeState, e: Envelope) returns (h: NodeState)
    requires cfg.Valid() && WellWired(cfg, p, s) && !IsProbe(e.payload)
    requires e.kind == KindOf(e.payload) && e.Open(cfg.ring) == Opened
    requires e.from in s.wire.recvTr && s.wire.recvTr[e.from].recvSeq < e.seqNo
    ensures Hearing(cfg, p, s, e.from, h)
    ensures Deliver(cfg, s, e, 0) == Dispatch(cfg, h, e.from, e.kind, e.payload, 0)
    ensures var t := Deliver(cfg, s, e, 0).wire.recvTr;
      t.Keys == s.wire.recvTr.Keys && forall q :: q in t && q != e.from ==> t[q] == s.wire.recvTr[q]
  {
    h := Heard(s.(wire := s.wire.(outbox := [])), e, cfg.ring);
    DeliverTraffic(cfg, p, s, e, 0);
    if Up(cfg, p, s.links.view, s.links.lastHeard, s.clock.tick) {
      HearingKeepsUp(cfg, p, s.links.view, s.links.lastHeard, s.clock.tick, e.from);
    }
    hide Up, Dispatch, Wrote;
    assert h.wire.recvTr.Keys == s.wire.recvTr.Keys;
  }

  lemma Reads(cfg: Config, c: Cluster, from: NodeID, p: NodeID, m: Payload) returns (c': Cluster, h: NodeState)
    requires cfg.Valid() && Reached(cfg, c) && p in cfg.members && Awaits(cfg, c, from, p, m) && !IsProbe(m)
    ensures p in c.nodes && Hearing(cfg, p, c.nodes[p], from, h)
    ensures OnlyMoved(cfg, c, {p}, {from}, c') && Posted(cfg, c', p)
    ensures c'.nodes[p] == Dispatch(cfg, h, from, KindOf(m), m, 0)
  {
    hide Deliver, Dispatch, Reached, Posted, Hearing;
    var e :| Letter(cfg, c, e, from, p, m);
    ReachedWired(cfg, c, p);
    h := OpensLetter(cfg, p, c.nodes[p], e);
    c' := StepPosts(cfg, c, DeliverTo(e, 0));
    assert SameHearing(c, c', p, {from});
  }

  // A node that answers with one letter.
  lemma Answers(cfg: Config, c': Cluster, p: NodeID, g: NodeState, r: Raft, tick: nat, to: NodeID, body: Payload)
    requires Posted(cfg, c', p) && Reached(cfg, c') && p in cfg.members
    requires Stands(cfg, g, r, tick, 0) && to in g.wire.sendTr && c'.nodes[p] == Send(g, to, body)
    ensures At(cfg, c', p, r, tick) && Awaits(cfg, c', p, to, body) && c'.nodes[p].links == g.links
  {
    hide Reached, Letter, Up;
    SendSays(g, to, body);
    SaidAwaits(cfg, c', p, to, body);
  }

  // ---------- Straw polls ----------

  lemma PollGranted(cfg: Config, h: NodeState, from: NodeID, m: Payload)
    requires m.VoteReq? && m.preVote && m.term > h.raft.term && h.raft.leaderID == None
    requires UpToDate(h.raft.log, m.lastTerm, m.lastIndex)
    ensures HandleVoteReq(cfg, h, from, m, 0) == Send(h, from, VoteResp(h.raft.term, true, true))
  {
  }

  // A node that knows of no leader would vote for a recent enough log.
  lemma Polled(cfg: Config, c: Cluster, from: NodeID, p: NodeID, m: Payload, r: Raft, tick: nat)
    returns (c': Cluster)
    requires cfg.Valid() && At(cfg, c, p, r, tick) && Awaits(cfg, c, from, p, m)
    requires m.VoteReq? && m.preVote && m.term > r.term && r.leaderID == None
    requires UpToDate(r.log, m.lastTerm, m.lastIndex)
    ensures OnlyMoved(cfg, c, {p}, {from}, c') && At(cfg, c', p, r, tick)
    ensures Awaits(cfg, c', p, from, VoteResp(r.term, true, true))
  {
    hide Reached, Awaits, Posted, Up, Send, HandleVoteReq, UpToDate;
    var h;
    c', h := Reads(cfg, c, from, p, m);
    PollGranted(cfg, h, from, m);
    Answers(cfg, c', p, h, r, tick, from, VoteResp(r.term, true, true));
  }

  // A campaign by a node with this state.
  function Campaigning(cfg: Config, s: NodeState): NodeState {
    ResetTimer(cfg, s.(raft := Rafts.Campaign(s.raft, s.id),
                       stats := s.stats.(termBumps := s.stats.termBumps + 1)), 0)
  }

  function Ask(r: Raft, p: NodeID): Payload {
    VoteReq(r.term, p, |r.log|, LastTerm(r.log), false)
  }

  ghost predicate Everyone(cfg: Config, c: Cluster, p: NodeID, m: Payload) {
    forall q :: q in cfg.members && q != p ==> Awaits(cfg, c, p, q, m)
  }

  // A node that says the same to everyone else.
  lemma Announces(cfg: Config, c': Cluster, p: NodeID, g: NodeState, r: Raft, tick: nat, body: Payload)
    requires Posted(cfg, c', p) && Reached(cfg, c') && WellWired(cfg, p, g)
    requires Stands(cfg, g, r, tick, 0) && c'.nodes[p] == BroadcastSame(cfg, g, body, |cfg.members|)
    ensures At(cfg, c', p, r, tick) && Everyone(cfg, c', p, body)
  {
    hide Reached, Posted, Up, BroadcastSame, Awaits;
    SameOnlySends(cfg, g, body, |cfg.members|);
    assert cfg.members[..|cfg.members|] == cfg.members;
    forall q | q in cfg.members && q != p
      ensures Awaits(cfg, c', p, q, body)
    {
      assert q in ToSet(cfg.members) - {p};
      BroadcastSameSays(cfg, g, body, |cfg.members|, q);
      SaidAwaits(cfg, c', p, q, body);
    }
    assert p in c'.nodes by { PostedNode(cfg, c', p); }
  }

  lemma PostedNode(cfg: Config, c: Cluster, p: NodeID)
    requires Posted(cfg, c, p)
    ensures p in c.nodes
  {
    hide Letter;
  }

  // One more node would vote for p; with a majority p campaigns.
  lemma PollTallied(cfg: Config, c: Cluster, from: NodeID, p: NodeID, t: nat, r: Raft, tick: nat)
    returns (c': Cluster)
    requires cfg.Valid() && At(cfg, c, p, r, tick) && Awaits(cfg, c, from, p, VoteResp(t, true, true))
    requires r.role == PreCandidate
    ensures OnlyMoved(cfg, c, {p}, {from}, c')
    ensures var r1 := r.(preVotes := r.preVotes + {from});
      if |r1.preVotes| < cfg.Quorum() then At(cfg, c', p, r1, tick)
      else At(cfg, c', p, Campaign(r1, p), tick) && Everyone(cfg, c', p, Ask(Campaign(r1, p), p))
  {
    hide Reached, Awaits, Posted, Up, BroadcastSame, Everyone;
    var h;
    c', h := Reads(cfg, c, from, p, VoteResp(t, true, true));
    var r1 := r.(preVotes := r.preVotes + {from});
    var g := h.(raft := r1);
    if |r1.preVotes| < cfg.Quorum() {
      assert p in c'.nodes by { PostedNode(cfg, c', p); }
    } else {
      Announces(cfg, c', p, Campaigning(cfg, g), Campaign(r1, p), tick, Ask(Campaign(r1, p), p));
    }
  }

  // ---------- Votes ----------

  function AfterGrant(rule: Rule, r: Raft, m: Payload): Raft
    requires m.VoteReq?
  {
    var f := if m.term > r.term then StepDown(rule, r, m.term, None) else r;
    f.(votedFor := Some(m.candidate))
  }

  // A node reads a straw poll, and unless it would answer with a yes stays as it was.
  lemma Hears(cfg: Config, c: Cluster, from: NodeID, p: NodeID, m: Payload, r: Raft, tick: nat, elapsed: nat)
    returns (c': Cluster)
    requires cfg.Valid() && Reached(cfg, c) && p in cfg.members && p in c.nodes
    requires Stands(cfg, c.nodes[p], r, tick, elapsed)
    requires Awaits(cfg, c, from, p, m) && m.VoteReq? && m.preVote
    ensures OnlyMoved(cfg, c, {p}, {from}, c') && p in c'.nodes && Stands(cfg, c'.nodes[p], r, tick, elapsed)
    ensures c'.nodes[p].id == c.nodes[p].id && c'.nodes[p].clock == c.nodes[p].clock
    ensures c'.nodes[p].links.lastHeard == c.nodes[p].links.lastHeard[from := tick]
    ensures c'.nodes[p].links.heardFrom == c.nodes[p].links.heardFrom + {from}
    ensures r.leaderID.Some? && elapsed < cfg.timeout ==> Awaits(cfg, c', p, from, VoteResp(r.term, false, true))
  {
    hide Reached, Awaits, Letter, Up, Send;
    var h;
    c', h := Reads(cfg, c, from, p, m);
    var body := VoteResp(r.term, GrantsPreVote(h, m), true);
    SendSays(h, from, body);
    SaidAwaits(cfg, c', p, from, body);
    SendOnlySends(h, from, body);
  }

  // A no to a straw poll is heard and changes nothing.
  lemma Shrugs(cfg: Config, c: Cluster, from: NodeID, p: NodeID, t: nat, r: Raft, tick: nat) returns (c': Cluster)
    requires cfg.Valid() && At(cfg, c, p, r, tick) && Awaits(cfg, c, from, p, VoteResp(t, false, true))
    ensures OnlyMoved(cfg, c, {p}, {from}, c') && At(cfg, c', p, r, tick)
    ensures c'.nodes[p].links.lastHeard == c.nodes[p].links.lastHeard[from := tick]
  {
    hide Reached, Awaits, Posted, Up;
    var h;
    c', h := Reads(cfg, c, from, p, VoteResp(t, false, true));
    PostedNode(cfg, c', p);
  }

  // A node that is asked for a vote in a later term by a log behind its own follows
  // nobody into that term.
  lemma Refuses(cfg: Config, c: Cluster, from: NodeID, p: NodeID, m: Payload, r: Raft, tick: nat)
    returns (c': Cluster)
    requires cfg.Valid() && At(cfg, c, p, r, tick) && Awaits(cfg, c, from, p, m)
    requires m.VoteReq? && !m.preVote && m.term > r.term && !UpToDate(r.log, m.lastTerm, m.lastIndex)
    ensures OnlyMoved(cfg, c, {p}, {from}, c') && At(cfg, c', p, StepDown(cfg.rule, r, m.term, None), tick)
  {
    hide Reached, Awaits, Letter, Up, Send;
    var h;
    c', h := Reads(cfg, c, from, p, m);
    var r' := StepDown(cfg.rule, r, m.term, None);
    Answers(cfg, c', p, ResetTimer(cfg, h.(raft := r'), 0), r', tick, from, VoteResp(m.term, false, false));
  }

  lemma VoteGranted(cfg: Config, h: NodeState, from: NodeID, m: Payload)
    requires m.VoteReq? && !m.preVote
    requires m.term > h.raft.term || (m.term == h.raft.term && h.raft.votedFor == None)
    requires UpToDate(h.raft.log, m.lastTerm, m.lastIndex)
    ensures var g := ResetTimer(cfg, h.(raft := AfterGrant(cfg.rule, h.raft, m)), 0);
      HandleVoteReq(cfg, h, from, m, 0) == Send(g, from, VoteResp(m.term, true, false))
  {
  }

  // A node with a vote to give gives it to a recent enough log.
  lemma Votes(cfg: Config, c: Cluster, from: NodeID, p: NodeID, m: Payload, r: Raft, tick: nat)
    returns (c': Cluster)
    requires cfg.Valid() && At(cfg, c, p, r, tick) && Awaits(cfg, c, from, p, m)
    requires m.VoteReq? && !m.preVote
    requires m.term > r.term || (m.term == r.term && r.votedFor == None)
    requires UpToDate(r.log, m.lastTerm, m.lastIndex)
    ensures OnlyMoved(cfg, c, {p}, {from}, c') && At(cfg, c', p, AfterGrant(cfg.rule, r, m), tick)
    ensures Awaits(cfg, c', p, from, VoteResp(m.term, true, false))
  {
    hide Reached, Awaits, Posted, Up, Send, HandleVoteReq, UpToDate, AfterGrant;
    var h;
    c', h := Reads(cfg, c, from, p, m);
    VoteGranted(cfg, h, from, m);
    var r' := AfterGrant(cfg.rule, r, m);
    Answers(cfg, c', p, ResetTimer(cfg, h.(raft := r'), 0), r', tick, from, VoteResp(m.term, true, false));
  }

  function Crowned(cfg: Config, h: NodeState): NodeState {
    ClearHeard(h.(raft := Elected(h.raft, h.id, cfg.members), clock := h.clock.(heartbeatElapsed := 0)))
  }

  // A new leader's first request: nothing after the end of its log.
  function Hello(r: Raft, p: NodeID): Payload {
    AppendReq(r.term, p, |r.log|, LastTerm(r.log), [], r.commitIndex)
  }

  lemma HelloIsNext(cfg: Config, r: Raft, p: NodeID, q: NodeID)
    requires q in cfg.members && q != p
    ensures var l := Elected(r, p, cfg.members);
      AppendFor(l, p, q) == Hello(r, p) && Get(l.nextIndex, q) == |r.log| + 1 && Get(l.matchIndex, q) == 0
  {
    SetForOthersIsExact(r.nextIndex, cfg.members, p, |r.log| + 1);
    SetForOthersIsExact(r.matchIndex, cfg.members, p, 0);
  }

  // Nobody's next index is missing, so a broadcast sets none.
  ghost predicate Indexed(cfg: Config, r: Raft, p: NodeID) {
    forall q :: q in cfg.members && q != p ==> Get(r.nextIndex, q) != 0
  }

  lemma IndexedBroadcast(cfg: Config, s: NodeState, n: nat)
    requires n <= |cfg.members| && Indexed(cfg, s.raft, s.id)
    ensures var b := BroadcastAppend(cfg, s, n); b == s.(wire := b.wire)
  {
    hide AppendFor;
    if n > 0 {
      IndexedBroadcast(cfg, s, n - 1);
    }
  }

  ghost predicate EachAsked(cfg: Config, c: Cluster, p: NodeID, r: Raft) {
    forall q :: q in cfg.members && q != p ==> Awaits(cfg, c, p, q, AppendFor(r, p, q))
  }

  // A leader that sends everyone else what it takes them to lack.
  lemma BroadcastAsks(cfg: Config, c': Cluster, p: NodeID, g: NodeState, r: Raft, tick: nat)
    requires Posted(cfg, c', p) && Reached(cfg, c') && WellWired(cfg, p, g) && Indexed(cfg, r, p)
    requires Stands(cfg, g, r, tick, 0) && c'.nodes[p] == BroadcastAppend(cfg, g, |cfg.members|)
    ensures At(cfg, c', p, r, tick) && EachAsked(cfg, c', p, r)
  {
    hide Reached, Posted, Up, BroadcastAppend, Awaits, AppendFor, Indexed;
    IndexedBroadcast(cfg, g, |cfg.members|);
    assert cfg.members[..|cfg.members|] == cfg.members;
    forall q | q in cfg.members && q != p
      ensures Awaits(cfg, c', p, q, AppendFor(r, p, q))
    {
      BroadcastAppendSays(cfg, g, |cfg.members|, q);
      SaidAwaits(cfg, c', p, q, AppendFor(r, p, q));
    }
    assert p in c'.nodes by { PostedNode(cfg, c', p); }
  }

  // One more vote; with a majority p leads, and says hello.
  lemma VoteTallied(cfg: Config, c: Cluster, from: NodeID, p: NodeID, r: Raft, tick: nat)
    returns (c': Cluster)
    requires cfg.Valid() && At(cfg, c, p, r, tick) && Awaits(cfg, c, from, p, VoteResp(r.term, true, false))
    requires r.role == Candidate
    ensures OnlyMoved(cfg, c, {p}, {from}, c')
    ensures var r1 := r.(votes := r.votes + {from});
      if |r1.votes| < cfg.Quorum() then At(cfg, c', p, r1, tick)
      else At(cfg, c', p, Elected(r1, p, cfg.members), tick) && Everyone(cfg, c', p, Hello(r1, p))
  {
    hide Reached, Awaits, Posted, Up, BroadcastAppend, Elected, AppendFor;
    var h;
    c', h := Reads(cfg, c, from, p, VoteResp(r.term, true, false));
    var r1 := r.(votes := r.votes + {from});
    var g := h.(raft := r1);
    assert p in c'.nodes by { PostedNode(cfg, c', p); }
    if |r1.votes| >= cfg.Quorum() {
      var l := Elected(r1, p, cfg.members);
      forall q | q in cfg.members && q != p
        ensures AppendFor(l, p, q) == Hello(r1, p) && Get(l.nextIndex, q) != 0
      {
        HelloIsNext(cfg, r1, p, q);
      }
      BroadcastAsks(cfg, c', p, Crowned(cfg, g), l, tick);
    }
  }

  // ---------- Requests and replies ----------

  // A node that listens to the leader of term t.
  function Heeded(rule: Rule, r: Raft, from: NodeID, t: nat): Raft {
    (if t > r.term || r.role != Follower then StepDown(rule, r, t, Some(from)) else r).(leaderID := Some(from))
  }

  function Took(rule: Rule, r: Raft, from: NodeID, t: nat, entries: seq<Entry>): Raft {
    Heeded(rule, r, from, t).(log := Splice(r.log, 0, entries))
  }

  lemma RequestTaken(cfg: Config, h: NodeState, from: NodeID, m: Payload)
    requires m.AppendReq? && m.term >= h.raft.term && m.prevIndex == 0 && m.prevTerm == 0 && m.leaderCommit == 0
    ensures var r := Took(cfg.rule, h.raft, from, m.term, m.entries);
      HandleAppendReq(cfg, h, from, m, 0) == Send(ResetTimer(cfg, h.(raft := r), 0), from,
        AppendResp(m.term, true, AckIndex(cfg.ack, r.log, 0, m.entries), 0))
  {
    hide Splice, Send;
  }

  // A node takes a request from the start of the log and acknowledges it.
  lemma Takes(cfg: Config, c: Cluster, from: NodeID, p: NodeID, m: Payload, r: Raft, tick: nat)
    returns (c': Cluster)
    requires cfg.Valid() && At(cfg, c, p, r, tick) && Awaits(cfg, c, from, p, m)
    requires m.AppendReq? && m.term >= r.term && m.prevIndex == 0 && m.prevTerm == 0 && m.leaderCommit == 0
    ensures var r' := Took(cfg.rule, r, from, m.term, m.entries);
      && OnlyMoved(cfg, c, {p}, {from}, c') && At(cfg, c', p, r', tick)
      && c'.nodes[p].links.lastHeard == c.nodes[p].links.lastHeard[from := tick]
      && Awaits(cfg, c', p, from, AppendResp(m.term, true, AckIndex(cfg.ack, r'.log, 0, m.entries), 0))
  {
    hide Reached, Awaits, Posted, Up, Send, HandleAppendReq, Took;
    var h;
    c', h := Reads(cfg, c, from, p, m);
    RequestTaken(cfg, h, from, m);
    var r' := Took(cfg.rule, r, from, m.term, m.entries);
    Answers(cfg, c', p, ResetTimer(cfg, h.(raft := r'), 0), r', tick, from,
            AppendResp(m.term, true, AckIndex(cfg.ack, r'.log, 0, m.entries), 0));
  }

  // A leader learns what a node acknowledges, and commits what it then may.
  lemma Learns(cfg: Config, c: Cluster, from: NodeID, p: NodeID, k: nat, r: Raft) returns (c': Cluster)
    requires cfg.Valid() && Reached(cfg, c) && p in cfg.members && p in c.nodes && c.nodes[p].raft == r
    requires Awaits(cfg, c, from, p, AppendResp(r.term, true, k, 0)) && r.role == Leader
    ensures OnlyMoved(cfg, c, {p}, {from}, c') && p in c'.nodes
    ensures c'.nodes[p].raft == AdvanceCommit(NoteMatch(r, from, k), p, cfg.members)
  {
    hide Reached, Awaits, Posted, AdvanceCommit;
    var h;
    c', h := Reads(cfg, c, from, p, AppendResp(r.term, true, k, 0));
    PostedNode(cfg, c', p);
  }

  function WithEntry(r: Raft, cmd: string): Raft {
    r.(log := r.log + [Entry(r.term, cmd)])
  }

  // A leader takes a command; nothing leaves it yet.
  lemma Offers(cfg: Config, c: Cluster, p: NodeID, cmd: string, r: Raft, tick: nat) returns (c': Cluster)
    requires cfg.Valid() && At(cfg, c, p, r, tick) && r.role == Leader && Indexed(cfg, r, p)
    ensures OnlyMoved(cfg, c, {p}, {}, c') && At(cfg, c', p, WithEntry(r, cmd), tick)
    ensures c'.nodes[p].links == c.nodes[p].links
  {
    hide Reached, Up, BroadcastAppend, Indexed;
    ReachedWired(cfg, c, p);
    var s := c.nodes[p];
    var g := s.(raft := WithEntry(r, cmd));
    assert Indexed(cfg, g.raft, p) by { StillIndexed(cfg, r, g.raft, p); }
    IndexedBroadcast(cfg, g, |cfg.members|);
    BroadcastAppendSays(cfg, g, |cfg.members|, p);
    c' := StepPosts(cfg, c, ProposeAt(p, cmd));
    assert SameHearing(c, c', p, {});
  }

  lemma StillIndexed(cfg: Config, r: Raft, r': Raft, p: NodeID)
    requires Indexed(cfg, r, p) && r'.nextIndex == r.nextIndex
    ensures Indexed(cfg, r', p)
  {
  }

  // ---------- Time passes ----------

  lemma SweepKeepsUp(cfg: Config, s: NodeState)
    requires Up(cfg, s.id, s.links.view, s.links.lastHeard, s.clock.tick)
    ensures var d := DetectSilence(cfg, s, |cfg.members|);
      && d == s.(links := d.links) && d.links.lastHeard == s.links.lastHeard
      && d.links.heardFrom == s.links.heardFrom
      && Up(cfg, s.id, d.links.view, s.links.lastHeard, s.clock.tick)
  {
    SweepIsExact(cfg, s, |cfg.members|);
    assert cfg.members[..|cfg.members|] == cfg.members;
    hide DetectSilence, Matrix.CanSend;
  }

  // Gossip leaves the node where it stands and takes back nothing it has said.
  lemma GossipStands(cfg: Config, s: NodeState, r: Raft, tick: nat, elapsed: nat, q: NodeID, said: Payload)
    requires cfg.mode == CrossFault && Stands(cfg, s, r, tick, elapsed)
    ensures var g := Gossip(cfg, s);
      && Stands(cfg, g, r, tick, elapsed) && g.id == s.id && g.links.lastHeard == s.links.lastHeard
      && g.links.heardFrom == s.links.heardFrom && g.clock.heartbeatElapsed == s.clock.heartbeatElapsed
      && (Says(s.wire.outbox, q, said) ==> Says(g.wire.outbox, q, said))
  {
    hide Says, Up, BroadcastSame;
    var d := DetectSilence(cfg, s, |cfg.members|);
    SweepKeepsUp(cfg, s);
    hide DetectSilence;
    var z := d.(clock := d.clock.(probeElapsed := 0));
    var body := ProbeReq(z.raft.term, z.id, z.links.inboundUp);
    SameOnlySends(cfg, z, body, |cfg.members|);
    if Says(s.wire.outbox, q, said) {
      BroadcastKeepsSaid(cfg, z, body, |cfg.members|, q, said);
    }
  }

  // A tick more, and whoever was overdue still is.
  lemma TickKeepsUp(cfg: Config, p: NodeID, v: Matrix, lastHeard: map<NodeID, nat>, tick: nat)
    requires Up(cfg, p, v, lastHeard, tick)
    ensures Up(cfg, p, v, lastHeard, tick + 1)
  {
  }

  lemma TicksOnce(cfg: Config, c: Cluster, p: NodeID) returns (c': Cluster)
    requires cfg.Valid() && Reached(cfg, c) && p in cfg.members
    ensures p in c.nodes && WellWired(cfg, p, c.nodes[p])
    ensures OnlyMoved(cfg, c, {p}, {}, c') && Posted(cfg, c', p) && p in c'.nodes
    ensures c'.nodes[p] == Tick(cfg, c.nodes[p], 0)
  {
    hide Reached, Posted, Tick;
    ReachedWired(cfg, c, p);
    TickTraffic(cfg, p, c.nodes[p], 0);
    c' := StepPosts(cfg, c, TickAt(p, 0));
    assert SameHearing(c, c', p, {});
  }

  // The timer runs on.
  lemma Waits(cfg: Config, c: Cluster, p: NodeID, r: Raft, tick: nat, elapsed: nat) returns (c': Cluster)
    requires cfg.Valid() && Reached(cfg, c) && p in cfg.members && p in c.nodes
    requires Stands(cfg, c.nodes[p], r, tick, elapsed) && r.role != Leader && elapsed + 1 < cfg.timeout
    ensures OnlyMoved(cfg, c, {p}, {}, c') && Reached(cfg, c')
    ensures p in c'.nodes && Stands(cfg, c'.nodes[p], r, tick + 1, elapsed + 1)
    ensures cfg.mode == CrossFault && Current(cfg, c.nodes[p]) ==> Current(cfg, c'.nodes[p])
  {
    hide Reached, Posted, Up, Gossip;
    c' := TicksOnce(cfg, c, p);
    var t := StartTick(c.nodes[p]);
    if cfg.mode == CrossFault {
      TickKeepsUp(cfg, p, t.links.view, t.links.lastHeard, tick);
      GossipStands(cfg, t, r, tick + 1, elapsed + 1, p, Garbled([]));
      assert Company(cfg, c'.nodes[p]) == Company(cfg, c.nodes[p]);
    }
  }

  // What an expired timer makes of a node that may run.
  function Runner(cfg: Config, r: Raft, p: NodeID): Raft {
    if cfg.mode == Baseline then Campaign(r, p) else PreCampaign(r, p)
  }

  function NextAsk(cfg: Config, r: Raft, p: NodeID): Payload {
    VoteReq(r.term + 1, p, |r.log|, LastTerm(r.log), cfg.mode != Baseline)
  }

  lemma RunnerAsks(cfg: Config, s: NodeState, p: NodeID, r: Raft, tick: nat) returns (g: NodeState)
    requires cfg.Valid() && WellWired(cfg, p, s) && Stands(cfg, s, r, tick, cfg.timeout)
    requires cfg.mode == CrossFault ==> s.links.view.HasBidirectionalQuorum(p)
    ensures WellWired(cfg, p, g) && Stands(cfg, g, Runner(cfg, r, p), tick, 0)
    ensures BeginElection(cfg, s, 0) == BroadcastSame(cfg, g, NextAsk(cfg, r, p), |cfg.members|)
  {
    hide Up, BroadcastSame, Matrix.HasBidirectionalQuorum;
    var e := s.(stats := s.stats.(electionsStarted := s.stats.electionsStarted + 1));
    g := if cfg.mode == Baseline then Campaigning(cfg, e) else ResetTimer(cfg, e.(raft := PreCampaign(r, p)), 0);
  }

  // The last tick before an election.
  lemma LastTick(cfg: Config, c: Cluster, p: NodeID, r: Raft, tick: nat, elapsed: nat) returns (c': Cluster)
    requires cfg.Valid() && Reached(cfg, c) && p in cfg.members && p in c.nodes
    requires Stands(cfg, c.nodes[p], r, tick, elapsed) && r.role != Leader && elapsed + 1 == cfg.timeout
    requires cfg.mode == CrossFault ==> Current(cfg, c.nodes[p])
    ensures OnlyMoved(cfg, c, {p}, {}, c') && At(cfg, c', p, Runner(cfg, r, p), tick + 1)
    ensures Everyone(cfg, c', p, NextAsk(cfg, r, p))
  {
    hide Reached, Posted, Up, Gossip, BeginElection, BroadcastSame, Runner, Awaits, Current;
    c' := TicksOnce(cfg, c, p);
    var t := StartTick(c.nodes[p]);
    if cfg.mode == CrossFault {
      TickKeepsUp(cfg, p, t.links.view, t.links.lastHeard, tick);
      CurrentIsQuorum(cfg, c.nodes[p]);
    }
    hide Matrix.HasBidirectionalQuorum;
    var g := RunnerAsks(cfg, t, p, r, tick + 1);
    var body := NextAsk(cfg, r, p);
    var b := BroadcastSame(cfg, g, body, |cfg.members|);
    SameOnlySends(cfg, g, body, |cfg.members|);
    assert RoleTick(cfg, t, 0) == b;
    hide RoleTick;
    if cfg.mode == CrossFault {
      GossipStands(cfg, b, Runner(cfg, r, p), tick + 1, 0, p, body);
    }
    forall q | q in cfg.members && q != p
      ensures Awaits(cfg, c', p, q, body)
    {
      assert cfg.members[..|cfg.members|] == cfg.members && q in ToSet(cfg.members) - {p};
      BroadcastSameSays(cfg, g, body, |cfg.members|, q);
      if cfg.mode == CrossFault {
        GossipStands(cfg, b, Runner(cfg, r, p), tick + 1, 0, q, body);
      }
      SaidAwaits(cfg, c', p, q, body);
    }
  }

  lemma {:induction false} RunsOut(cfg: Config, c: Cluster, p: NodeID, r: Raft, tick: nat, elapsed: nat)
    returns (c': Cluster)
    requires cfg.Valid() && Reached(cfg, c) && p in cfg.members && p in c.nodes
    requires Stands(cfg, c.nodes[p], r, tick, elapsed) && r.role != Leader && elapsed < cfg.timeout
    requires cfg.mode == CrossFault ==> Current(cfg, c.nodes[p])
    ensures OnlyMoved(cfg, c, {p}, {}, c') && At(cfg, c', p, Runner(cfg, r, p), tick + cfg.timeout - elapsed)
    ensures Everyone(cfg, c', p, NextAsk(cfg, r, p))
    decreases cfg.timeout - elapsed
  {
    hide Reached, Runner, Stands, Everyone, Current;
    if elapsed + 1 == cfg.timeout {
      c' := LastTick(cfg, c, p, r, tick, elapsed);
    } else {
      var c1 := Waits(cfg, c, p, r, tick, elapsed);
      c' := RunsOut(cfg, c1, p, r, tick + 1, elapsed + 1);
      MovesCompose(cfg, c, {p}, {}, c1, {p}, {}, c');
    }
  }

  // A whole timeout passes without a word, and p stands for election.
  lemma Expires(cfg: Config, c: Cluster, p: NodeID, r: Raft, tick: nat) returns (c': Cluster)
    requires cfg.Valid() && At(cfg, c, p, r, tick) && r.role != Leader
    requires cfg.mode == CrossFault && tick > 0 ==> Current(cfg, c.nodes[p])
    ensures OnlyMoved(cfg, c, {p}, {}, c') && At(cfg, c', p, Runner(cfg, r, p), tick + cfg.timeout)
    ensures Everyone(cfg, c', p, NextAsk(cfg, r, p))
  {
    if tick == 0 {
      FreshIsCurrent(cfg, c.nodes[p]);
    }
    c' := RunsOut(cfg, c, p, r, tick, 0);
    hide Reached, Runner, Up, Everyone, OnlyMoved;
  }

  // p leads, its timer having run this long since it last checked for a majority.
  ghost predicate Reigns(cfg: Config, c: Cluster, p: NodeID, r: Raft, elapsed: nat) {
    && Reached(cfg, c) && p in cfg.members && p in c.nodes && r.role == Leader && Indexed(cfg, r, p)
    && Stands(cfg, c.nodes[p], r, c.nodes[p].clock.tick, elapsed)
  }

  lemma StillReigns(cfg: Config, c: Cluster, who: set<NodeID>, froms: set<NodeID>, c': Cluster,
                    p: NodeID, r: Raft, elapsed: nat)
    requires OnlyMoved(cfg, c, who, froms, c') && p !in who && Reigns(cfg, c, p, r, elapsed)
    ensures Reigns(cfg, c', p, r, elapsed) && c'.nodes[p] == c.nodes[p]
  {
    hide Reached, Stands, Indexed;
  }

  predicate Checks(cfg: Config, elapsed: nat) {
    cfg.mode != Baseline && elapsed + 1 >= cfg.timeout
  }

  lemma BeatSays(cfg: Config, s: NodeState, r: Raft, q: NodeID)
    requires s.raft == r && q in cfg.members && q != s.id && s.wire.sendTr.Keys == ToSet(cfg.members) - {s.id}
    ensures Says(BroadcastAppend(cfg, s, |cfg.members|).wire.outbox, q, AppendFor(r, s.id, q))
  {
    assert cfg.members[..|cfg.members|] == cfg.members;
    BroadcastAppendSays(cfg, s, |cfg.members|, q);
  }

  // What one tick makes of a leader that passes the check, if one is due.
  lemma ReignTicks(cfg: Config, t: NodeState, r: Raft, p: NodeID, elapsed: nat) returns (l: NodeState)
    requires cfg.Valid() && WellWired(cfg, p, t) && r.role == Leader && Indexed(cfg, r, p)
    requires Stands(cfg, t, r, t.clock.tick, elapsed + 1)
    requires Checks(cfg, elapsed) ==> HasHeardFromQuorum(cfg, t)
    ensures l == RoleTick(cfg, t, 0) && l.id == p
    ensures Stands(cfg, l, r, t.clock.tick, if Checks(cfg, elapsed) then 0 else elapsed + 1)
    ensures l.links.heardFrom == if Checks(cfg, elapsed) then {} else t.links.heardFrom
    ensures if t.clock.heartbeatElapsed + 1 >= cfg.heartbeat
            then forall q :: q in cfg.members && q != p ==> Says(l.wire.outbox, q, AppendFor(r, p, q))
            else l.clock.heartbeatElapsed == t.clock.heartbeatElapsed + 1
  {
    hide Up, BroadcastAppend, AppendFor, Indexed, Says;
    l := RoleTick(cfg, t, 0);
    if t.clock.heartbeatElapsed + 1 >= cfg.heartbeat {
      var z := t.(clock := t.clock.(heartbeatElapsed := 0));
      IndexedBroadcast(cfg, z, |cfg.members|);
      forall q | q in cfg.members && q != p
        ensures Says(l.wire.outbox, q, AppendFor(r, p, q))
      {
        BeatSays(cfg, z, r, q);
      }
    }
  }

  // A leader lets one tick pass; it beats if that is due.
  lemma ReignsOn(cfg: Config, c: Cluster, p: NodeID, r: Raft, elapsed: nat) returns (c': Cluster)
    requires cfg.Valid() && Reigns(cfg, c, p, r, elapsed)
    requires Checks(cfg, elapsed) ==> HasHeardFromQuorum(cfg, c.nodes[p])
    ensures OnlyMoved(cfg, c, {p}, {}, c')
    ensures Reigns(cfg, c', p, r, if Checks(cfg, elapsed) then 0 else elapsed + 1)
    ensures !Checks(cfg, elapsed) ==> c'.nodes[p].links.heardFrom == c.nodes[p].links.heardFrom
    ensures if c.nodes[p].clock.heartbeatElapsed + 1 >= cfg.heartbeat then EachAsked(cfg, c', p, r)
            else c'.nodes[p].clock.heartbeatElapsed == c.nodes[p].clock.heartbeatElapsed + 1
  {
    hide Reached, Posted, Up, Gossip, Awaits, AppendFor, Indexed;
    c' := TicksOnce(cfg, c, p);
    var t := StartTick(c.nodes[p]);
    var tick, e := t.clock.tick, if Checks(cfg, elapsed) then 0 else elapsed + 1;
    if cfg.mode == CrossFault {
      TickKeepsUp(cfg, p, t.links.view, t.links.lastHeard, tick - 1);
    }
    var l := ReignTicks(cfg, t, r, p, elapsed);
    hide RoleTick;
    if cfg.mode == CrossFault {
      GossipStands(cfg, l, r, tick, e, p, Garbled([]));
    }
    if c.nodes[p].clock.heartbeatElapsed + 1 >= cfg.heartbeat {
      forall q | q in cfg.members && q != p
        ensures Awaits(cfg, c', p, q, AppendFor(r, p, q))
      {
        if cfg.mode == CrossFault {
          GossipStands(cfg, l, r, tick, e, q, AppendFor(r, p, q));
        }
        SaidAwaits(cfg, c', p, q, AppendFor(r, p, q));
      }
    }
  }

  // ---------- The beginning ----------

  lemma NewNodeStands(cfg: Config, p: NodeID)
    requires cfg.Valid() && p in cfg.members
    ensures Stands(cfg, NewNode(cfg, p, cfg.ring[p], 0), FRESH_RAFT, 0, 0)
  {
  }

  lemma Beginning(cfg: Config) returns (c: Cluster)
    requires cfg.Valid()
    ensures Reached(cfg, c) && forall p :: p in cfg.members ==> At(cfg, c, p, FRESH_RAFT, 0)
  {
    hide NewNode, Stands;
    c := Cluster(map p | p in cfg.members :: NewNode(cfg, p, cfg.ring[p], 0), {});
    assert Init(cfg, c);
    var none: seq<Action> := [];
    assert Run(cfg, [c], none) && [c][|none|] == c;
    forall p | p in cfg.members
      ensures At(cfg, c, p, FRESH_RAFT, 0)
    {
      NewNodeStands(cfg, p);
    }
  }
}
