/** Two leaders of one term commit different commands. */
module Divergence {
  import opened Types
  import opened Logs
  import opened Rafts
  import opened Nodes
  import opened Clusters
  import opened Worlds
  import opened Stages
  import opened Crews
  import opened Witnesses
  import opened Safety

  // ---------- One leader of term 1 commits one command ----------

  // A leader of term 1 that has done nothing yet.
  ghost predicate Untried(cfg: Config, r: Raft, p: NodeID) {
    && r.role == Leader && r.term == 1 && r.log == [] && r.commitIndex == 0 && r.leaderID == Some(p)
    && forall q :: q in cfg.members && q != p ==> Get(r.nextIndex, q) == 1 && Get(r.matchIndex, q) == 0
  }

  // At most one entry, of term 1.
  predicate Short(log: Log) {
    log == [] || (|log| == 1 && log[0].term == 1)
  }

  // A node of term 1 that follows whoever speaks last, with this log.
  predicate Pliable(r: Raft, log: Log) {
    r.role != Leader && r.term == 1 && r.log == log
  }

  ghost predicate AllPliable(c: Cluster, vs: seq<NodeID>, log: Log) {
    forall v :: v in vs ==> v in c.nodes && Pliable(c.nodes[v].raft, log)
  }

  // Whatever entry of term 1 is there is taken for the one sent.
  function Filled(log: Log, cmd: string): Log {
    if log == [] then [Entry(1, cmd)] else log
  }

  lemma OrderIsNext(cfg: Config, r: Raft, p: NodeID, cmd: string)
    requires Untried(cfg, r, p)
    ensures Indexed(cfg, r, p) && Eager(cfg, WithEntry(r, cmd), p, cmd)
  {
  }

  lemma PliableTakes(cfg: Config, r: Raft, p: NodeID, cmd: string, log: Log)
    requires Pliable(r, log) && Short(log)
    ensures Takeable(cfg, r, Order(1, p, cmd))
    ensures Pliable(Took(cfg.rule, r, p, 1, [Entry(1, cmd)]), Filled(log, cmd)) && Short(Filled(log, cmd))
  {
    assert Splice([], 0, [Entry(1, cmd)]) == [Entry(1, cmd)];
    if log != [] {
      assert Splice(log, 0, [Entry(1, cmd)]) == log;
    }
  }

  ghost predicate Side(cfg: Config, p: NodeID, vs: seq<NodeID>) {
    && cfg.Valid() && cfg.mode != Baseline && p in cfg.members && Ascending(vs) && p !in vs
    && 1 <= |vs| == cfg.Quorum() - 1 && forall v :: v in vs ==> v in cfg.members
  }

  // p takes the command, and with the next heartbeat it is before everyone.
  lemma Orders(cfg: Config, c: Cluster, p: NodeID, vs: seq<NodeID>, r: Raft, tick: nat, cmd: string, log: Log)
    returns (c': Cluster)
    requires Side(cfg, p, vs) && At(cfg, c, p, r, tick) && Untried(cfg, r, p)
    requires Rallied(cfg, c, vs) && AllPolling(cfg, c, vs, p) && AllPliable(c, vs, log)
    ensures OnlyMoved(cfg, c, {p} + ToSet(vs), ToSet(vs) + {p}, c')
    ensures p in c'.nodes && c'.nodes[p].raft == WithEntry(r, cmd) && ToAll(cfg, c', p, vs, Order(1, p, cmd))
    ensures AllHere(cfg, c', vs) && AllPliable(c', vs, log) && AllPolledOut(cfg, c', vs)
  {
    OrderIsNext(cfg, r, p, cmd);
    var l := WithEntry(r, cmd);
    EagerFacts(cfg, l, p, cmd);
    assert l.term == 1 && p !in ToSet(vs);
    hide Reached, Stands, Awaits, OnlyMoved, Here, HasPolled, Ascending, Indexed, WithEntry, Pliable, Untried;
    hide Order, AppendFor, Eager, ToldBy;
    var c1 := Offers(cfg, c, p, cmd, r, tick);
    ReignsThen(cfg, c1, p, l, tick);
    RallyStays(cfg, c, {p}, {}, c1, vs, p);
    c' := Replicates(cfg, c1, p, vs, l);
    AskedOrders(cfg, c', p, l, cmd);
    MovesCompose(cfg, c, {p}, {}, c1, {p} + ToSet(vs), ToSet(vs) + {p}, c');
    assert {p} + ({p} + ToSet(vs)) == {p} + ToSet(vs) && {} + (ToSet(vs) + {p}) == ToSet(vs) + {p};
    PliableStay(c1, c', vs, log);
  }

  lemma PliableStay(c: Cluster, c': Cluster, vs: seq<NodeID>, log: Log)
    requires AllPliable(c, vs, log) && SameViews(c, c', vs)
    ensures AllPliable(c', vs, log)
  {
  }

  lemma RallyStays(cfg: Config, c: Cluster, who: set<NodeID>, froms: set<NodeID>, c': Cluster,
                   vs: seq<NodeID>, p: NodeID)
    requires OnlyMoved(cfg, c, who, froms, c') && Rallied(cfg, c, vs) && AllPolling(cfg, c, vs, p)
    requires (forall v :: v in vs ==> v !in who) && froms == {}
    ensures Rallied(cfg, c', vs) && AllPolling(cfg, c', vs, p)
  {
    hide OnlyMoved, Here, HasPolled;
    HereStay(cfg, c, who, froms, c', vs);
    PollsStay(cfg, c, who, froms, c', vs, p);
    forall u | u in vs
      ensures AllPolling(cfg, c', vs, u)
    {
      PollsStay(cfg, c, who, froms, c', vs, u);
    }
  }

  // vs take the command or have one in its place, and p commits it.
  lemma Commits(cfg: Config, c: Cluster, p: NodeID, vs: seq<NodeID>, r: Raft, tick: nat, cmd: string, log: Log)
    returns (c': Cluster, r': Raft)
    requires Side(cfg, p, vs) && At(cfg, c, p, r, tick) && Untried(cfg, r, p) && Short(log)
    requires Rallied(cfg, c, vs) && AllPolling(cfg, c, vs, p) && AllPliable(c, vs, log)
    ensures OnlyMoved(cfg, c, {p} + ToSet(vs), ToSet(vs) + {p}, c') && p in c'.nodes && c'.nodes[p].raft == r'
    ensures r'.log == [Entry(1, cmd)] && r'.commitIndex == 1 && r'.role == Leader && r'.term == 1
    ensures AllPliable(c', vs, Filled(log, cmd)) && AllHere(cfg, c', vs)
    ensures forall u :: u in cfg.members && u != p ==> AllPolling(cfg, c', vs, u)
  {
    OrderIsNext(cfg, r, p, cmd);
    var l, m := WithEntry(r, cmd), Order(1, p, cmd);
    EagerFacts(cfg, l, p, cmd);
    assert l.log == [Entry(1, cmd)] && l.term == 1 && l.commitIndex == 0 && p !in ToSet(vs);
    var c1 := Orders(cfg, c, p, vs, r, tick, cmd, log);
    hide Reached, At, Awaits, OnlyMoved, Here, HasPolled, Ascending, Indexed, WithEntry, Untried, ToldBy, Took;
    hide Takeable, Pliable;
    MovedReached(cfg, c, {p} + ToSet(vs), ToSet(vs) + {p}, c1);
    forall v | v in vs
      ensures v in c1.nodes && Takeable(cfg, c1.nodes[v].raft, m)
    {
      PliableTakes(cfg, c1.nodes[v].raft, p, cmd, log);
    }
    var c2 := AllTake(cfg, c1, p, vs, m);
    NotMoved(cfg, c1, ToSet(vs), {p}, c2, p);
    MovedReached(cfg, c1, ToSet(vs), {p}, c2);
    TookPliable(cfg, c1, c2, p, vs, cmd, log);
    c', r' := LearnsAll(cfg, c2, p, vs, l);
    LeadsToldBy(cfg, r', p, ToSet(vs));
    Settles(cfg, c, p, vs, c1, c2, c', Filled(log, cmd));
  }

  lemma TookPliable(cfg: Config, c: Cluster, c': Cluster, p: NodeID, vs: seq<NodeID>,
                    cmd: string, log: Log)
    requires AllPliable(c, vs, log) && AllTook(cfg, c, c', vs, p, Order(1, p, cmd)) && Short(log)
    ensures AllPliable(c', vs, Filled(log, cmd))
  {
    hide Pliable, Took;
    forall v | v in vs
      ensures v in c'.nodes && Pliable(c'.nodes[v].raft, Filled(log, cmd))
    {
      PliableTakes(cfg, c.nodes[v].raft, p, cmd, log);
    }
  }

  // What the three stages of a commit have left alone.
  lemma Settles(cfg: Config, c: Cluster, p: NodeID, vs: seq<NodeID>, c1: Cluster, c2: Cluster, c3: Cluster,
                log: Log)
    requires p !in vs && OnlyMoved(cfg, c, {p} + ToSet(vs), ToSet(vs) + {p}, c1)
    requires OnlyMoved(cfg, c1, ToSet(vs), {p}, c2) && OnlyMoved(cfg, c2, {p}, ToSet(vs), c3)
    requires AllHere(cfg, c2, vs) && AllPliable(c2, vs, log) && AllPolledOut(cfg, c1, vs)
    ensures OnlyMoved(cfg, c, {p} + ToSet(vs), ToSet(vs) + {p}, c3)
    ensures AllPliable(c3, vs, log) && AllHere(cfg, c3, vs)
    ensures forall u :: u in cfg.members && u != p ==> AllPolling(cfg, c3, vs, u)
  {
    hide OnlyMoved, Here, HasPolled, Pliable;
    var who, froms := {p} + ToSet(vs), ToSet(vs) + {p};
    HereStay(cfg, c2, {p}, ToSet(vs), c3, vs);
    PolledOutStay(cfg, c1, ToSet(vs), {p}, c2, vs);
    forall u | u in cfg.members && u != p
      ensures AllPolling(cfg, c3, vs, u)
    {
      forall v | v in vs && v != u
        ensures HasPolled(cfg, c2, v, u)
      {
        assert PolledOut(cfg, c2, v);
      }
      PollsStay(cfg, c2, {p}, ToSet(vs), c3, vs, u);
    }
    MovesCompose(cfg, c, who, froms, c1, ToSet(vs), {p}, c2);
    MovesCompose(cfg, c, who + ToSet(vs), froms + {p}, c2, {p}, ToSet(vs), c3);
    assert who + ToSet(vs) + {p} == who && froms + {p} + ToSet(vs) == froms;
  }

  // ---------- The run ----------

  lemma LeadingIsUntried(cfg: Config, p: NodeID, vs: seq<NodeID>)
    ensures Untried(cfg, Leading(cfg, p, vs), p)
  {
    forall q | q in cfg.members && q != p
      ensures Get(Leading(cfg, p, vs).nextIndex, q) == 1 && Get(Leading(cfg, p, vs).matchIndex, q) == 0
    {
      HelloIsNext(cfg, Running(p, vs).(votes := {p} + ToSet(vs)), p, q);
    }
  }

  lemma PliableRally(cfg: Config, c: Cluster, vs: seq<NodeID>, b: NodeID, log: Log)
    requires AllHere(cfg, c, vs) && AllPliable(c, vs, log) && b !in vs && forall v :: v in vs ==> v in cfg.members
    requires forall u :: u in cfg.members && u != b ==> AllPolling(cfg, c, vs, u)
    ensures Rallied(cfg, c, vs)
  {
    hide Here, AllPolling;
  }

  lemma ShortLogs(x: string, y: string)
    ensures Short([]) && Filled([], x) == [Entry(1, x)]
    ensures Short([Entry(1, x)]) && Filled([Entry(1, x)], y) == [Entry(1, x)]
  {
  }

  lemma FooledPliable(cfg: Config, c: Cluster, vs: seq<NodeID>, a: NodeID, b: NodeID)
    requires AllFooled(cfg, c, vs, a, b)
    ensures AllHere(cfg, c, vs) && AllPliable(c, vs, [])
  {
    hide Here;
  }

  // Both leaders of term 1 commit a command at index 1, the same followers vouching
  // for each: the terms agree, so they take the second for the first.
  lemma LeadersDiverge(cfg: Config, a: NodeID, b: NodeID, vs: seq<NodeID>, x: string, y: string)
    returns (c: Cluster, ra: Raft, rb: Raft)
    requires Cast(cfg, a, b, vs) && Loose(cfg)
    ensures Reached(cfg, c) && a in c.nodes && b in c.nodes && c.nodes[a].raft == ra && c.nodes[b].raft == rb
    ensures ra.log == [Entry(1, x)] && ra.commitIndex == 1 && rb.log == [Entry(1, y)] && rb.commitIndex == 1
    ensures rb.role == Leader && rb.term == 1 && AllPliable(c, vs, [Entry(1, x)])
  {
    hide *;
    BothSides(cfg, a, b, vs);
    LeadingIsUntried(cfg, a, vs);
    LeadingIsUntried(cfg, b, vs);
    var c0 := SecondLeader(cfg, a, b, vs);
    FooledPliable(cfg, c0, vs, a, b);
    PliableRally(cfg, c0, vs, b, []);
    ShortLogs(x, y);
    var c1, r1 := Commits(cfg, c0, a, vs, Leading(cfg, a, vs), cfg.timeout, x, []);
    ra := r1;
    StillAt(cfg, c0, {a} + ToSet(vs), ToSet(vs) + {a}, c1, b, Leading(cfg, b, vs), cfg.timeout);
    PliableRally(cfg, c1, vs, a, [Entry(1, x)]);
    c, rb := Commits(cfg, c1, b, vs, Leading(cfg, b, vs), cfg.timeout, y, [Entry(1, x)]);
    NotMoved(cfg, c1, {b} + ToSet(vs), ToSet(vs) + {b}, c, a);
    MovedReached(cfg, c1, {b} + ToSet(vs), ToSet(vs) + {b}, c);
  }

  lemma BothSides(cfg: Config, a: NodeID, b: NodeID, vs: seq<NodeID>)
    requires Cast(cfg, a, b, vs)
    ensures Side(cfg, a, vs) && Side(cfg, b, vs) && a != b && a !in vs && b !in vs
    ensures a in cfg.members && b in cfg.members && a !in ToSet(vs) && b !in ToSet(vs)
    ensures forall v :: v in vs ==> v in cfg.members
  {
  }
}
