/** What is committed and lost, in any cluster of three, of five, or of more, on the
    strength of acknowledgements that cover more than was checked. */
module Overcommit {
  import opened Types
  import opened Logs
  import opened Rafts
  import opened Nodes
  import opened Clusters
  import opened Stages
  import opened Crews
  import opened Safety

  // ---------- The cast ----------

  // The one that leads first and the one that deposes it; whoever led before both, if
  // anyone did; the voters of these terms; those of them that keep what the second
  // sends; and those that never hear of it.
  datatype Roles = Roles(first: NodeID, second: NodeID, strays: seq<NodeID>, voters: seq<NodeID>,
                         keepers: seq<NodeID>, rest: seq<NodeID>) {
    // Those that never lead.
    function Others(): seq<NodeID> {
      voters + rest
    }

    // Who will elect the first once more.
    function Jury(): seq<NodeID> {
      strays + rest
    }

    // Who acknowledges what the second sends.
    function Claque(): seq<NodeID> {
      [first] + strays + keepers
    }

    // The term of the second.
    function Era(): nat {
      |strays| + 2
    }
  }

  ghost predicate Plot(cfg: Config, k: Roles) {
    && cfg.Valid() && cfg.ack == WholeLog
    && k.first in cfg.members && k.second in cfg.members && k.first != k.second
    && |k.strays| <= 1 && (forall s :: s in k.strays ==> s in cfg.members && s != k.first && s != k.second)
    && (forall o :: o in k.Others() ==> o in cfg.members && o != k.first && o != k.second && o !in k.strays)
    && Ascending(k.voters) && 1 <= |k.voters| == cfg.Quorum() - 1
    && Ascending(k.Jury()) && |k.Jury()| == cfg.Quorum() - 1
    && Ascending(k.Claque()) && |k.Claque()| == cfg.Quorum() - 1
    && forall v :: v in k.keepers ==> v in k.voters && v !in k.rest
  }

  // Separate stretches of an ascending list share nothing and join in order.
  lemma Apart(ms: seq<NodeID>, i: nat, j: nat, k: nat, l: nat)
    requires Ascending(ms) && i <= j <= k <= l <= |ms|
    ensures Ascending(ms[i..j] + ms[k..l])
    ensures forall x, y :: x in ms[i..j] && y in ms[k..l] ==> x != y
  {
  }

  lemma Later(ms: seq<NodeID>, i: nat, j: nat)
    requires Ascending(ms) && 2 <= i <= j <= |ms|
    ensures Ascending(ms[i..j]) && forall x :: x in ms[i..j] ==> x in ms && x != ms[0] && x != ms[1]
  {
  }

  lemma Within(ms: seq<NodeID>, i: nat, j: nat, k: nat, l: nat)
    requires k <= i <= j <= l <= |ms|
    ensures forall x :: x in ms[i..j] ==> x in ms[k..l]
  {
    forall x | x in ms[i..j]
      ensures x in ms[k..l]
    {
      var n :| 0 <= n < j - i && ms[i..j][n] == x;
      assert ms[k..l][i + n - k] == x;
    }
  }

  // Of an even number one leads before the others do: then there is one acknowledgement
  // more that covers nothing.
  function Casting(ms: seq<NodeID>, q: nat, g: nat): Roles
    requires 2 + g <= q && q + g + 1 <= |ms|
  {
    Roles(ms[0], ms[1], ms[2..2 + g], ms[2 + g..q + g + 1], ms[2 + g..q], ms[q..])
  }

  lemma CastInOrder(ms: seq<NodeID>, q: nat, g: nat)
    requires Ascending(ms) && g <= 1 && 2 + g <= q && |ms| == 2 * q - 1 - g && q + g + 1 <= |ms|
    ensures var k := Casting(ms, q, g);
      && Ascending(k.voters) && |k.voters| == q - 1
      && Ascending(k.Jury()) && |k.Jury()| == q - 1
      && Ascending(k.Claque()) && |k.Claque()| == q - 1
  {
    var k := Casting(ms, q, g);
    assert k.Claque() == ms[0..1] + ms[2..q];
    Apart(ms, 0, 1, 2, q);
    Apart(ms, 2, 2 + g, q, |ms|);
    Later(ms, 2 + g, q + g + 1);
    hide Ascending;
  }

  lemma CastApart(ms: seq<NodeID>, q: nat, g: nat)
    requires Ascending(ms) && 2 + g <= q && q + g + 1 <= |ms|
    ensures var k := Casting(ms, q, g);
      && (forall s :: s in k.strays ==> s in ms && s != k.first && s != k.second)
      && (forall o :: o in k.Others() ==> o in ms && o != k.first && o != k.second && o !in k.strays)
      && forall v :: v in k.keepers ==> v in k.voters && v !in k.rest
  {
    var n := |ms|;
    Apart(ms, 2, 2 + g, 2 + g, n);
    Apart(ms, 2 + g, q, q, n);
    Later(ms, 2, 2 + g);
    Later(ms, 2 + g, n);
    Within(ms, 2 + g, q, 2 + g, q + g + 1);
    Within(ms, 2 + g, q + g + 1, 2 + g, n);
    Within(ms, q, n, 2 + g, n);
    hide Ascending;
  }

  lemma SomePlot(cfg: Config) returns (k: Roles)
    requires cfg.Valid() && cfg.ack == WholeLog && |cfg.members| >= 3 && |cfg.members| != 4
    ensures Plot(cfg, k)
  {
    var ms, q, g := cfg.members, cfg.Quorum(), if |cfg.members| % 2 == 0 then 1 else 0;
    assert ms[0] < ms[1];
    k := Casting(ms, q, g);
    CastInOrder(ms, q, g);
    CastApart(ms, q, g);
    hide Ascending, Roles.Others, Roles.Jury, Roles.Claque;
  }

  // ---------- Rising to lead ----------

  predicate Blank(r: Raft) {
    r.role != Leader && r.log == [] && r.leaderID == None && r.commitIndex == 0
  }

  // They follow nobody, and no term past t has reached them.
  ghost predicate Crowd(cfg: Config, c: Cluster, os: seq<NodeID>, t: nat) {
    && AllHere(cfg, c, os)
    && forall o :: o in os ==> o in c.nodes && Blank(c.nodes[o].raft) && c.nodes[o].raft.term <= t
  }

  ghost predicate Unticked(c: Cluster, os: seq<NodeID>) {
    forall o :: o in os ==> o in c.nodes && c.nodes[o].clock.tick == 0
  }

  ghost predicate Ready(cfg: Config, c: Cluster, p: NodeID, t: nat) {
    Here(cfg, c, p) && Blank(c.nodes[p].raft) && c.nodes[p].raft.term == t && c.nodes[p].clock.tick == 0
  }

  ghost predicate Leads(cfg: Config, c: Cluster, p: NodeID, t: nat, cmd: string) {
    Here(cfg, c, p) && Eager(cfg, c.nodes[p].raft, p, cmd) && c.nodes[p].raft.term == t
  }

  lemma ReadyStays(cfg: Config, c: Cluster, who: set<NodeID>, froms: set<NodeID>, c': Cluster, p: NodeID, t: nat)
    requires OnlyMoved(cfg, c, who, froms, c') && p !in who && Ready(cfg, c, p, t)
    ensures Ready(cfg, c', p, t)
  {
    hide OnlyMoved, At;
    StillHere(cfg, c, who, froms, c', p);
  }

  lemma LeadsStays(cfg: Config, c: Cluster, who: set<NodeID>, froms: set<NodeID>, c': Cluster,
                   p: NodeID, t: nat, cmd: string)
    requires OnlyMoved(cfg, c, who, froms, c') && p !in who && Leads(cfg, c, p, t, cmd)
    ensures Leads(cfg, c', p, t, cmd)
  {
    hide OnlyMoved, At, Eager;
    StillHere(cfg, c, who, froms, c', p);
  }

  lemma CrowdStays(cfg: Config, c: Cluster, who: set<NodeID>, froms: set<NodeID>, c': Cluster,
                   os: seq<NodeID>, t: nat)
    requires OnlyMoved(cfg, c, who, froms, c') && Crowd(cfg, c, os, t) && forall o :: o in os ==> o !in who
    ensures Crowd(cfg, c', os, t) && (Unticked(c, os) ==> Unticked(c', os))
  {
    hide OnlyMoved, Here, Blank;
    HereStay(cfg, c, who, froms, c', os);
  }

  lemma ReadyFacts(cfg: Config, c: Cluster, p: NodeID, t: nat)
    requires Ready(cfg, c, p, t)
    ensures p in c.nodes && p in cfg.members && Reached(cfg, c) && At(cfg, c, p, c.nodes[p].raft, 0)
    ensures var r := c.nodes[p].raft;
      && r.role != Leader && r.term == t && r.log == [] && r.commitIndex == 0 && Blank(r)
      && Candidacy(r, p) == Plea(t + 1, p)
      && AppendReq(r.term + 1, p, |r.log|, LastTerm(r.log), [], r.commitIndex) == Greeting(t + 1, p)
  {
    hide Stands;
  }

  // An empty log is as good as any other.
  lemma CrowdBacks(cfg: Config, c: Cluster, os: seq<NodeID>, vs: seq<NodeID>, t: nat, r: Raft)
    requires Crowd(cfg, c, os, t) && (forall v :: v in vs ==> v in os) && r.term == t
    ensures AllHere(cfg, c, vs) && AllBack(c, vs, r)
  {
    hide Here;
  }

  lemma RisenFacts(cfg: Config, r: Raft, p: NodeID, vs: seq<NodeID>, cmd: string)
    requires Blank(r)
    ensures var l := Victor(cfg, r, p, vs);
      && l.role == Leader && Indexed(cfg, l, p)
      && Eager(cfg, WithEntry(l, cmd), p, cmd) && WithEntry(l, cmd).term == r.term + 1
  {
    VictorFacts(cfg, r, p, vs);
    hide Victor, Indexed;
  }

  lemma CrowdVotes(cfg: Config, c: Cluster, p: NodeID, vs: seq<NodeID>, os: seq<NodeID>, t: nat, c1: Cluster)
    requires Crowd(cfg, c, os, t) && p !in os && (forall v :: v in vs ==> v in os)
    requires OnlyMoved(cfg, c, {p} + ToSet(vs), ToSet(vs) + {p}, c1)
    requires AllHere(cfg, c1, vs) && AllBacked(cfg, c, c1, vs, Plea(t + 1, p))
    ensures Crowd(cfg, c1, os, t + 1) && (Unticked(c, os) ==> Unticked(c1, os))
  {
    hide OnlyMoved, Here;
    forall o | o in os
      ensures Here(cfg, c1, o) && o in c.nodes && o in c1.nodes && Blank(c1.nodes[o].raft)
      ensures c1.nodes[o].raft.term <= t + 1 && c1.nodes[o].clock.tick == c.nodes[o].clock.tick
    {
      if o !in vs {
        StillHere(cfg, c, {p} + ToSet(vs), ToSet(vs) + {p}, c1, o);
        IsHere(cfg, c1, o);
      }
    }
  }

  // p is elected and takes a command, which does not leave it yet.
  lemma Rises(cfg: Config, c: Cluster, p: NodeID, vs: seq<NodeID>, os: seq<NodeID>, t: nat, cmd: string)
    returns (c': Cluster)
    requires cfg.Valid() && Ready(cfg, c, p, t) && Crowd(cfg, c, os, t) && p !in os && Ascending(vs)
    requires 1 <= |vs| == cfg.Quorum() - 1 && (forall v :: v in vs ==> v in os)
    requires forall o :: o in os ==> o in cfg.members
    ensures OnlyMoved(cfg, c, {p} + ToSet(vs), ToSet(vs) + {p}, c') && Leads(cfg, c', p, t + 1, cmd)
    ensures Crowd(cfg, c', os, t + 1) && (Unticked(c, os) ==> Unticked(c', os))
    ensures Everyone(cfg, c', p, Greeting(t + 1, p))
    ensures forall q :: q in cfg.members && q != p && q !in vs ==> Awaits(cfg, c', p, q, Plea(t + 1, p))
  {
    hide *;
    ReadyFacts(cfg, c, p, t);
    var r := c.nodes[p].raft;
    var l := Victor(cfg, r, p, vs);
    CrowdBacks(cfg, c, os, vs, t, r);
    RisenFacts(cfg, r, p, vs, cmd);
    var who, froms := {p} + ToSet(vs), ToSet(vs) + {p};
    var c1 := Elects(cfg, c, p, vs, r, 0);
    CrowdVotes(cfg, c, p, vs, os, t, c1);
    c' := Offers(cfg, c1, p, cmd, l, cfg.timeout);
    CrowdStays(cfg, c1, {p}, {}, c', os, t + 1);
    Stood(cfg, c', p, WithEntry(l, cmd), cfg.timeout);
    IsLeading(cfg, c', p, t + 1, cmd);
    EveryoneStays(cfg, c1, {p}, c', p, Greeting(t + 1, p));
    forall q | q in cfg.members && q != p && q !in vs
      ensures Awaits(cfg, c', p, q, Plea(t + 1, p))
    {
      StillAwaits(cfg, c1, {p}, {}, c', p, q, Plea(t + 1, p));
    }
    MovesCompose(cfg, c, who, froms, c1, {p}, {}, c');
    assert who + {p} == who && froms + {} == froms;
  }

  lemma IsLeading(cfg: Config, c: Cluster, p: NodeID, t: nat, cmd: string)
    requires Here(cfg, c, p) && p in c.nodes && Eager(cfg, c.nodes[p].raft, p, cmd) && c.nodes[p].raft.term == t
    ensures Leads(cfg, c, p, t, cmd)
  {
    hide Here, Eager;
  }

  lemma EveryoneStays(cfg: Config, c: Cluster, who: set<NodeID>, c': Cluster, p: NodeID, m: Payload)
    requires OnlyMoved(cfg, c, who, {}, c') && Everyone(cfg, c, p, m)
    ensures Everyone(cfg, c', p, m)
  {
    hide OnlyMoved, Awaits;
    forall q | q in cfg.members && q != p
      ensures Awaits(cfg, c', p, q, m)
    {
      StillAwaits(cfg, c, who, {}, c', p, q, m);
    }
  }

  // q votes for p and so comes into its term.
  lemma Joins(cfg: Config, c: Cluster, p: NodeID, q: NodeID, t: nat, t': nat) returns (c': Cluster)
    requires cfg.Valid() && Ready(cfg, c, q, t) && t < t' && Awaits(cfg, c, p, q, Plea(t', p))
    ensures OnlyMoved(cfg, c, {q}, {p}, c') && Ready(cfg, c', q, t')
  {
    ReadyFacts(cfg, c, q, t);
    var r := c.nodes[q].raft;
    hide Reached, At, Awaits, OnlyMoved;
    c' := Votes(cfg, c, p, q, Plea(t', p), r, 0);
    Stood(cfg, c', q, AfterGrant(cfg.rule, r, Plea(t', p)), 0);
  }

  // ---------- Three terms ----------

  // A deposed leader that follows nobody, its command still in its log.
  ghost predicate Swayed(cfg: Config, c: Cluster, s: NodeID, t: nat, x: string) {
    && Here(cfg, c, s) && c.nodes[s].raft.role != Leader && c.nodes[s].raft.leaderID == None
    && c.nodes[s].raft.term == t && c.nodes[s].raft.log == [Entry(1, x)]
  }

  ghost predicate AllSwayed(cfg: Config, c: Cluster, ss: seq<NodeID>, t: nat, x: string) {
    forall s :: s in ss ==> Swayed(cfg, c, s, t, x)
  }

  lemma SwayedStays(cfg: Config, c: Cluster, who: set<NodeID>, froms: set<NodeID>, c': Cluster,
                    ss: seq<NodeID>, t: nat, x: string)
    requires OnlyMoved(cfg, c, who, froms, c') && AllSwayed(cfg, c, ss, t, x) && forall s :: s in ss ==> s !in who
    ensures AllSwayed(cfg, c', ss, t, x)
  {
    hide OnlyMoved, At;
    forall s | s in ss
      ensures Swayed(cfg, c', s, t, x)
    {
      assert Swayed(cfg, c, s, t, x);
      StillHere(cfg, c, who, froms, c', s);
    }
  }

  // Asked by a node with an empty log to follow it into the next term, a leader follows
  // nobody there.
  lemma Disowns(cfg: Config, c: Cluster, p: NodeID, s: NodeID, x: string) returns (c': Cluster)
    requires cfg.Valid() && Leads(cfg, c, s, 1, x) && Awaits(cfg, c, p, s, Plea(2, p))
    ensures OnlyMoved(cfg, c, {s}, {p}, c') && Swayed(cfg, c', s, 2, x)
  {
    IsHere(cfg, c, s);
    hide Reached, Stands, Awaits, OnlyMoved;
    var r, tick := c.nodes[s].raft, c.nodes[s].clock.tick;
    c' := Refuses(cfg, c, p, s, Plea(2, p), r, tick);
    Stood(cfg, c', s, StepDown(cfg.rule, r, 2, None), tick);
  }

  lemma FreshReady(cfg: Config, c: Cluster, p: NodeID)
    requires At(cfg, c, p, FRESH_RAFT, 0)
    ensures Ready(cfg, c, p, 0)
  {
    Stood(cfg, c, p, FRESH_RAFT, 0);
    hide At;
  }

  lemma ReadyCrowd(cfg: Config, c: Cluster, os: seq<NodeID>, t: nat)
    requires forall o :: o in os ==> Ready(cfg, c, o, t)
    ensures Crowd(cfg, c, os, t) && Unticked(c, os)
  {
    hide At;
  }

  lemma PlotFacts(cfg: Config, k: Roles)
    requires Plot(cfg, k)
    ensures cfg.Valid() && cfg.ack == WholeLog && k.first in cfg.members && k.second in cfg.members
    ensures k.first != k.second && k.first !in k.Others() && k.second !in k.Others()
    ensures Ascending(k.voters) && 1 <= |k.voters| == cfg.Quorum() - 1
    ensures k.first !in ToSet(k.voters) && k.second !in ToSet(k.voters)
    ensures k.first !in k.voters && k.second !in k.voters
    ensures forall v :: v in k.voters ==> v in k.Others() && v in cfg.members
    ensures forall o :: o in k.Others() ==> o in cfg.members && (o in ToSet(k.voters) ==> o in k.voters)
    ensures (k.strays == [] && k.Era() == 2) || (k.strays == [k.strays[0]] && k.Era() == 3)
    ensures forall s :: s in k.strays ==>
      s in cfg.members && s != k.first && s != k.second && s !in k.Others() && s !in k.voters && s !in ToSet(k.voters)
  {
  }

  lemma AllFresh(cfg: Config, c: Cluster, k: Roles)
    requires Plot(cfg, k) && forall p :: p in cfg.members ==> At(cfg, c, p, FRESH_RAFT, 0)
    ensures Ready(cfg, c, k.first, 0) && Ready(cfg, c, k.second, 0) && forall s :: s in k.strays ==> Ready(cfg, c, s, 0)
    ensures Crowd(cfg, c, k.Others(), 0) && Unticked(c, k.Others())
  {
    hide At, Ready, Ascending;
    forall p | p in cfg.members
      ensures Ready(cfg, c, p, 0)
    {
      FreshReady(cfg, c, p);
    }
    ReadyCrowd(cfg, c, k.Others(), 0);
  }

  // Of an even number one leads term 1, and the first is in that term already.
  lemma Prologue(cfg: Config, k: Roles, x: string) returns (c: Cluster)
    requires Plot(cfg, k)
    ensures Ready(cfg, c, k.first, k.Era() - 2) && Ready(cfg, c, k.second, 0)
    ensures Crowd(cfg, c, k.Others(), k.Era() - 2) && Unticked(c, k.Others())
    ensures forall s :: s in k.strays ==> Leads(cfg, c, s, 1, x)
  {
    hide *;
    PlotFacts(cfg, k);
    var c0 := Beginning(cfg);
    AllFresh(cfg, c0, k);
    c := c0;
    if k.strays != [] {
      var s := k.strays[0];
      var who, froms := {s} + ToSet(k.voters), ToSet(k.voters) + {s};
      var c1 := Rises(cfg, c0, s, k.voters, k.Others(), 0, x);
      ReadyStays(cfg, c0, who, froms, c1, k.first, 0);
      ReadyStays(cfg, c0, who, froms, c1, k.second, 0);
      c := Joins(cfg, c1, s, k.first, 0, 1);
      ReadyStays(cfg, c1, {k.first}, {s}, c, k.second, 0);
      LeadsStays(cfg, c1, {k.first}, {s}, c, s, 1, x);
      CrowdStays(cfg, c1, {k.first}, {s}, c, k.Others(), 1);
    }
  }

  // Both lead, the second in the later term, and a command waits with each.
  ghost predicate Contested(cfg: Config, c: Cluster, k: Roles, x: string, y: string) {
    && Leads(cfg, c, k.first, k.Era() - 1, x) && Leads(cfg, c, k.second, k.Era(), y)
    && Crowd(cfg, c, k.Others(), k.Era()) && Unticked(c, k.Others())
    && AllSwayed(cfg, c, k.strays, k.Era() - 1, x)
    && Everyone(cfg, c, k.second, Greeting(k.Era(), k.second))
  }

  // The first rises, and whoever led before hears of it.
  lemma FirstRises(cfg: Config, k: Roles, x: string) returns (c: Cluster)
    requires Plot(cfg, k)
    ensures Leads(cfg, c, k.first, k.Era() - 1, x) && Ready(cfg, c, k.second, k.Era() - 1)
    ensures Crowd(cfg, c, k.Others(), k.Era() - 1) && Unticked(c, k.Others())
    ensures AllSwayed(cfg, c, k.strays, k.Era() - 1, x)
  {
    hide *;
    PlotFacts(cfg, k);
    var f, l, os, t := k.first, k.second, k.Others(), k.Era() - 1;
    var c0 := Prologue(cfg, k, x);
    var who, froms := {f} + ToSet(k.voters), ToSet(k.voters) + {f};
    var c1 := Rises(cfg, c0, f, k.voters, os, t - 1, x);
    ReadyStays(cfg, c0, who, froms, c1, l, 0);
    var c2 := Joins(cfg, c1, f, l, 0, t);
    LeadsStays(cfg, c1, {l}, {f}, c2, f, t, x);
    CrowdStays(cfg, c1, {l}, {f}, c2, os, t);
    c := c2;
    if k.strays == [] {
      NoneSwayed(cfg, c, k.strays, t, x);
    } else {
      var s := k.strays[0];
      LeadsStays(cfg, c0, who, froms, c1, s, 1, x);
      LeadsStays(cfg, c1, {l}, {f}, c2, s, 1, x);
      StillAwaits(cfg, c1, {l}, {f}, c2, f, s, Plea(2, f));
      c := Disowns(cfg, c2, f, s, x);
      LeadsStays(cfg, c2, {s}, {f}, c, f, t, x);
      ReadyStays(cfg, c2, {s}, {f}, c, l, t);
      CrowdStays(cfg, c2, {s}, {f}, c, os, t);
      OneSwayed(cfg, c, s, t, x);
    }
  }

  lemma NoneSwayed(cfg: Config, c: Cluster, ss: seq<NodeID>, t: nat, x: string)
    requires ss == []
    ensures AllSwayed(cfg, c, ss, t, x)
  {
  }

  lemma OneSwayed(cfg: Config, c: Cluster, s: NodeID, t: nat, x: string)
    requires Swayed(cfg, c, s, t, x)
    ensures AllSwayed(cfg, c, [s], t, x)
  {
    hide Swayed;
  }

  lemma Contests(cfg: Config, k: Roles, x: string, y: string) returns (c: Cluster)
    requires Plot(cfg, k)
    ensures Contested(cfg, c, k, x, y)
  {
    PlotFacts(cfg, k);
    hide Ready, Crowd, Unticked, OnlyMoved, Awaits, Leads, Plot, Ascending, AllSwayed, Everyone;
    hide Roles.Others, ToSet;
    var c0 := FirstRises(cfg, k, x);
    var who, froms := {k.second} + ToSet(k.voters), ToSet(k.voters) + {k.second};
    c := Rises(cfg, c0, k.second, k.voters, k.Others(), k.Era() - 1, y);
    LeadsStays(cfg, c0, who, froms, c, k.first, k.Era() - 1, x);
    SwayedStays(cfg, c0, who, froms, c, k.strays, k.Era() - 1, x);
  }

  // ---------- The second presses its command ----------

  ghost predicate Pressed(cfg: Config, c: Cluster, k: Roles, x: string, y: string, rl: Raft) {
    && Leads(cfg, c, k.first, k.Era() - 1, x) && AllSwayed(cfg, c, k.strays, k.Era() - 1, x)
    && k.second in c.nodes && c.nodes[k.second].raft == rl && Eager(cfg, rl, k.second, y) && rl.term == k.Era()
    && Crowd(cfg, c, k.Others(), k.Era()) && (cfg.mode != Baseline ==> AllPolledOut(cfg, c, k.voters))
    && Everyone(cfg, c, k.second, Order(k.Era(), k.second, y))
    && Awaits(cfg, c, k.second, k.first, Greeting(k.Era(), k.second))
    && ToAll(cfg, c, k.second, k.strays, Greeting(k.Era(), k.second))
  }

  lemma CrowdViews(cfg: Config, c: Cluster, who: set<NodeID>, froms: set<NodeID>, c': Cluster,
                   vs: seq<NodeID>, os: seq<NodeID>, t: nat)
    requires Crowd(cfg, c, os, t) && OnlyMoved(cfg, c, who, froms, c') && AllHere(cfg, c', vs) && SameViews(c, c', vs)
    requires forall o :: o in os && o in who ==> o in vs
    ensures Crowd(cfg, c', os, t)
  {
    hide OnlyMoved, Here;
    forall o | o in os
      ensures Here(cfg, c', o) && o in c'.nodes && Blank(c'.nodes[o].raft) && c'.nodes[o].raft.term <= t
    {
      if o !in vs {
        StillHere(cfg, c, who, froms, c', o);
        IsHere(cfg, c', o);
      }
    }
  }

  lemma CrowdReady(cfg: Config, c: Cluster, os: seq<NodeID>, vs: seq<NodeID>, t: nat)
    requires cfg.Valid() && Crowd(cfg, c, os, t) && forall v :: v in vs ==> v in os
    ensures AllHere(cfg, c, vs) && forall v :: v in vs ==> v in c.nodes && c.nodes[v].raft.role != Leader
    ensures Unticked(c, os) ==> AllCurrent(cfg, c, vs)
  {
    hide Here, Current;
    if Unticked(c, os) {
      forall v | v in vs
        ensures v in c.nodes && Current(cfg, c.nodes[v])
      {
        FreshIsCurrent(cfg, c.nodes[v]);
      }
    }
  }

  lemma LeadsFacts(cfg: Config, c: Cluster, p: NodeID, t: nat, cmd: string)
    requires Leads(cfg, c, p, t, cmd)
    ensures p in c.nodes && Reached(cfg, c) && Reigns(cfg, c, p, c.nodes[p].raft, 0)
    ensures c.nodes[p].raft.term == t && Eager(cfg, c.nodes[p].raft, p, cmd) && c.nodes[p].raft.leaderID.Some?
  {
    var r := c.nodes[p].raft;
    IsHere(cfg, c, p);
    EagerFacts(cfg, r, p, cmd);
    ReignsThen(cfg, c, p, r, c.nodes[p].clock.tick);
    hide Reached, Stands, Indexed;
  }

  // Where there are straw polls the voters hold one, so that the second has someone to
  // hear from until its next heartbeat.
  lemma Rallies(cfg: Config, c: Cluster, k: Roles, x: string, y: string) returns (c': Cluster)
    requires Plot(cfg, k) && Contested(cfg, c, k, x, y)
    ensures OnlyMoved(cfg, c, ToSet(k.voters), {}, c') && Crowd(cfg, c', k.Others(), k.Era())
    ensures cfg.mode != Baseline ==> Rallied(cfg, c', k.voters) && AllPolling(cfg, c', k.voters, k.second)
  {
    PlotFacts(cfg, k);
    hide OnlyMoved, Crowd, Unticked, Leads, Plot, Ascending, AllSwayed, Everyone, Rallied, AllPolling, AllPolledOut;
    hide Roles.Others, Reached;
    LeadsFacts(cfg, c, k.second, k.Era(), y);
    CrowdReady(cfg, c, k.Others(), k.voters, k.Era());
    if cfg.mode == Baseline {
      c' := c;
      NobodyMoved(cfg, c);
      VotersPut(cfg, c, k.voters);
      MovesWide(cfg, c, {}, c, ToSet(k.voters), {});
    } else {
      c' := AllPollAgain(cfg, c, k.voters);
      CrowdViews(cfg, c, ToSet(k.voters), {}, c', k.voters, k.Others(), k.Era());
      StillRallied(cfg, c, c', k.voters, k.second);
      hide AllHere;
      return;
    }
    CrowdStays(cfg, c, {}, {}, c', k.Others(), k.Era());
  }

  lemma VotersPut(cfg: Config, c: Cluster, vs: seq<NodeID>)
    requires AllHere(cfg, c, vs)
    ensures ToSet(vs) <= c.nodes.Keys
  {
    hide At;
  }

  lemma Presses(cfg: Config, c: Cluster, k: Roles, x: string, y: string) returns (c': Cluster, rl: Raft)
    requires Plot(cfg, k) && Contested(cfg, c, k, x, y)
    ensures Pressed(cfg, c', k, x, y, rl)
  {
    hide *;
    PlotFacts(cfg, k);
    ContestFacts(cfg, c, k, x, y);
    var f, l, vs, os, t := k.first, k.second, k.voters, k.Others(), k.Era();
    var c1 := Rallies(cfg, c, k, x, y);
    LeadsStays(cfg, c, ToSet(vs), {}, c1, l, t, y);
    LeadsFacts(cfg, c1, l, t, y);
    CrowdReady(cfg, c1, os, vs, t);
    rl := c1.nodes[l].raft;
    c' := Replicates(cfg, c1, l, vs, rl);
    var who, froms := {l} + ToSet(vs), ToSet(vs) + {l};
    CrowdViews(cfg, c1, who, froms, c', vs, os, t);
    AskedOrders(cfg, c', l, rl, y);
    MovesCompose(cfg, c, ToSet(vs), {}, c1, who, froms, c');
    assert ToSet(vs) + who == who && {} + froms == froms;
    LeadsStays(cfg, c, who, froms, c', f, t - 1, x);
    SwayedStays(cfg, c, who, froms, c', k.strays, t - 1, x);
    StillAwaits(cfg, c, who, froms, c', l, f, Greeting(t, l));
    ToAllStays(cfg, c, who, froms, c', l, k.strays, Greeting(t, l));
    IsPressed(cfg, c', k, x, y, rl);
  }

  lemma ContestFacts(cfg: Config, c: Cluster, k: Roles, x: string, y: string)
    requires Plot(cfg, k) && Contested(cfg, c, k, x, y)
    ensures Leads(cfg, c, k.first, k.Era() - 1, x) && Leads(cfg, c, k.second, k.Era(), y)
    ensures AllSwayed(cfg, c, k.strays, k.Era() - 1, x)
    ensures Awaits(cfg, c, k.second, k.first, Greeting(k.Era(), k.second))
    ensures ToAll(cfg, c, k.second, k.strays, Greeting(k.Era(), k.second))
  {
    hide Leads, AllSwayed, Awaits, Crowd, Unticked;
  }

  lemma IsPressed(cfg: Config, c: Cluster, k: Roles, x: string, y: string, rl: Raft)
    requires Leads(cfg, c, k.first, k.Era() - 1, x) && AllSwayed(cfg, c, k.strays, k.Era() - 1, x)
    requires k.second in c.nodes && c.nodes[k.second].raft == rl && Eager(cfg, rl, k.second, y) && rl.term == k.Era()
    requires Crowd(cfg, c, k.Others(), k.Era()) && (cfg.mode != Baseline ==> AllPolledOut(cfg, c, k.voters))
    requires Everyone(cfg, c, k.second, Order(k.Era(), k.second, y))
    requires Awaits(cfg, c, k.second, k.first, Greeting(k.Era(), k.second))
    requires ToAll(cfg, c, k.second, k.strays, Greeting(k.Era(), k.second))
    ensures Pressed(cfg, c, k, x, y, rl)
  {
    hide Leads, AllSwayed, Crowd, AllPolledOut, Everyone, Awaits, ToAll, Eager;
  }

  // ---------- The first turns against it ----------

  // What the first has become: a follower of the second, its own command in its log.
  predicate Deposed(r: Raft, t: nat, x: string) {
    t > 0 && r.role != Leader && r.term == t && r.log == [Entry(t - 1, x)] && r.commitIndex == 0
  }

  lemma GreetedFacts(cfg: Config, r: Raft, p: NodeID, t: nat, x: string, l: NodeID)
    requires cfg.ack == WholeLog && t > 1 && Eager(cfg, r, p, x) && r.term == t - 1
    ensures var rf := Took(cfg.rule, r, l, t, []);
      Deposed(rf, t, x) && AckIndex(cfg.ack, rf.log, 0, []) == 1
  {
    assert Splice(r.log, 0, []) == r.log;
  }

  // The first takes the second's empty request and acknowledges its own log; where
  // reachability counts it then hears the voters' polls; and in time it runs again.
  lemma Yields(cfg: Config, c: Cluster, k: Roles, x: string, y: string, rl: Raft)
    returns (c': Cluster, rf: Raft, tick: nat)
    requires Plot(cfg, k) && Pressed(cfg, c, k, x, y, rl)
    ensures OnlyMoved(cfg, c, {k.first}, ToSet(k.voters) + {k.second}, c')
    ensures Deposed(rf, k.Era(), x) && At(cfg, c', k.first, Runner(cfg, rf, k.first), tick)
    ensures Everyone(cfg, c', k.first, NextAsk(cfg, rf, k.first))
    ensures Awaits(cfg, c', k.first, k.second, AppendResp(k.Era(), true, 1, 0))
  {
    hide *;
    PlotFacts(cfg, k);
    PressedFacts(cfg, c, k, x, y, rl);
    var f, l, vs, t := k.first, k.second, k.voters, k.Era();
    var r, tick0 := c.nodes[f].raft, c.nodes[f].clock.tick;
    GreetedFacts(cfg, r, f, t, x, l);
    GreetingShape(t, l);
    rf := Took(cfg.rule, r, l, t, []);
    DeposedFacts(rf, t, x);
    var ack := AppendResp(t, true, 1, 0);
    var c1 := Takes(cfg, c, l, f, Greeting(t, l), r, tick0);
    var c2 := c1;
    if cfg.mode == Baseline {
      Wider(cfg, c, {f}, {l}, c1, ToSet(vs) + {l});
    } else {
      StillPolledOut(cfg, c, vs, f);
      PollsStay(cfg, c, {f}, {l}, c1, vs, f);
      c2 := HearsOut(cfg, c1, f, vs, rf, tick0);
      MovesCompose(cfg, c, {f}, {l}, c1, {f}, ToSet(vs), c2);
      StillAwaits(cfg, c1, {f}, ToSet(vs), c2, f, l, ack);
      assert {f} + {f} == {f} && {l} + ToSet(vs) == ToSet(vs) + {l};
    }
    c' := Expires(cfg, c2, f, rf, tick0);
    tick := tick0 + cfg.timeout;
    StillAwaits(cfg, c2, {f}, {}, c', f, l, ack);
    MovesCompose(cfg, c, {f}, ToSet(vs) + {l}, c2, {f}, {}, c');
    assert {f} + {f} == {f} && ToSet(vs) + {l} + {} == ToSet(vs) + {l};
  }

  lemma GreetingShape(t: nat, l: NodeID)
    ensures Greeting(t, l) == AppendReq(t, l, 0, 0, [], 0)
  {
  }

  lemma DeposedFacts(r: Raft, t: nat, x: string)
    requires Deposed(r, t, x)
    ensures t > 0 && r.role != Leader && r.term == t && r.log == [Entry(t - 1, x)] && r.commitIndex == 0
  {
  }

  lemma PressedFacts(cfg: Config, c: Cluster, k: Roles, x: string, y: string, rl: Raft)
    requires Pressed(cfg, c, k, x, y, rl)
    ensures var f, l, t := k.first, k.second, k.Era();
      && t > 1 && f in c.nodes && c.nodes[f].raft.term == t - 1 && Eager(cfg, c.nodes[f].raft, f, x)
      && At(cfg, c, f, c.nodes[f].raft, c.nodes[f].clock.tick) && Awaits(cfg, c, l, f, Greeting(t, l))
    ensures cfg.mode != Baseline ==> AllPolledOut(cfg, c, k.voters)
  {
    LeadsFacts(cfg, c, k.first, k.Era() - 1, x);
    IsHere(cfg, c, k.first);
    hide At, Awaits, Everyone, Crowd, AllPolledOut, AllSwayed, ToAll, Eager, Reigns;
  }

  lemma StillPolledOut(cfg: Config, c: Cluster, vs: seq<NodeID>, u: NodeID)
    requires AllPolledOut(cfg, c, vs) && u in cfg.members
    ensures AllPolling(cfg, c, vs, u)
  {
    hide HasPolled;
    forall v | v in vs && v != u
      ensures HasPolled(cfg, c, v, u)
    {
      assert PolledOut(cfg, c, v);
    }
  }

  // Having heard the polls of a majority's worth of voters u may run again.
  lemma HearsOut(cfg: Config, c: Cluster, u: NodeID, vs: seq<NodeID>, r: Raft, tick: nat) returns (c': Cluster)
    requires cfg.Valid() && At(cfg, c, u, r, tick) && Ascending(vs) && u !in vs && |vs| + 1 == cfg.Quorum()
    requires AllPolling(cfg, c, vs, u) && forall v :: v in vs ==> v in cfg.members
    ensures OnlyMoved(cfg, c, {u}, ToSet(vs), c') && At(cfg, c', u, r, tick) && Current(cfg, c'.nodes[u])
  {
    hide *;
    AtStands(cfg, c, u, r, tick);
    Stood(cfg, c, u, r, tick);
    c' := ReadsAll(cfg, c, u, vs, 0);
    MovedReached(cfg, c, {u}, ToSet(vs), c');
    AttentiveFacts(cfg, c, c', u, ToSet(vs) - {u}, 0);
    StandsAt(cfg, c', u, r, tick);
    WiredName(cfg, c', u);
    AmongMembers(cfg, vs, u);
    assert ToSet(vs) - {u} == ToSet(vs);
    HeardIsCurrent(cfg, c'.nodes[u], ToSet(vs));
  }

  // The first stands for election, and whoever would vote for it has been asked; the
  // second's letters still wait for those that will acknowledge them.
  ghost predicate Canvassed(cfg: Config, c: Cluster, k: Roles, y: string, rl: Raft, rf: Raft, tick: nat) {
    && At(cfg, c, k.first, Campaign(Surveyed(cfg, rf, k.first, k.Jury()), k.first), tick)
    && ToAll(cfg, c, k.first, k.Jury(), Candidacy(rf, k.first))
    && AllHere(cfg, c, k.Jury()) && AllBack(c, k.Jury(), rf)
    && AllHere(cfg, c, k.strays) && AllGreetable(cfg, c, k.strays, k.Era(), k.second)
    && Crowd(cfg, c, k.keepers, k.Era()) && Sought(cfg, c, k, y)
    && k.second in c.nodes && c.nodes[k.second].raft == rl
    && Awaits(cfg, c, k.first, k.second, AppendResp(k.Era(), true, 1, 0))
  }

  // What the second has sent to those that will acknowledge it.
  ghost predicate Sought(cfg: Config, c: Cluster, k: Roles, y: string) {
    && ToAll(cfg, c, k.second, k.strays, Greeting(k.Era(), k.second))
    && ToAll(cfg, c, k.second, k.keepers, Order(k.Era(), k.second, y))
  }

  // They will take the second's empty request and acknowledge the entry they have.
  ghost predicate AllGreetable(cfg: Config, c: Cluster, ss: seq<NodeID>, t: nat, l: NodeID) {
    forall s :: s in ss ==> s in c.nodes && Takeable(cfg, c.nodes[s].raft, Greeting(t, l))
  }

  lemma JuryFacts(cfg: Config, k: Roles)
    requires Plot(cfg, k)
    ensures Ascending(k.Jury()) && 1 <= |k.Jury()| == cfg.Quorum() - 1 && k.first !in k.Jury() && k.second !in k.Jury()
    ensures k.first !in ToSet(k.Jury()) && k.second !in ToSet(k.Jury())
    ensures forall s :: s in k.strays ==> s in k.Jury() && s != k.first && s in cfg.members
    ensures forall v :: v in k.keepers ==>
      v != k.first && v != k.second && v !in ToSet(k.Jury()) && v in k.Others() && v in cfg.members
    ensures forall j :: j in k.Jury() ==> j in cfg.members && (j in k.strays || j in k.Others())
    ensures Ascending(k.strays) && Ascending(k.keepers)
  {
    var m := |k.strays| + 1;
    assert k.keepers == k.Claque()[m..];
  }

  // An empty log, or one whose entry is of term 1, is no better than the first's.
  lemma JuryBacks(cfg: Config, c: Cluster, k: Roles, x: string, rf: Raft)
    requires Plot(cfg, k) && Deposed(rf, k.Era(), x)
    requires AllSwayed(cfg, c, k.strays, k.Era() - 1, x) && Crowd(cfg, c, k.Others(), k.Era())
    ensures AllHere(cfg, c, k.Jury()) && AllBack(c, k.Jury(), rf) && AllHere(cfg, c, k.strays)
    ensures AllGreetable(cfg, c, k.strays, k.Era(), k.second)
  {
    hide At, Ascending;
    forall s | s in k.strays
      ensures Here(cfg, c, s) && s in c.nodes && Takeable(cfg, c.nodes[s].raft, Greeting(k.Era(), k.second))
      ensures Backs(c.nodes[s].raft, rf)
    {
      assert Swayed(cfg, c, s, k.Era() - 1, x);
      assert Splice(c.nodes[s].raft.log, 0, []) == c.nodes[s].raft.log;
    }
  }

  lemma Challenges(cfg: Config, c: Cluster, k: Roles, x: string, y: string, rl: Raft)
    returns (c': Cluster, rf: Raft, tick: nat)
    requires Plot(cfg, k) && Pressed(cfg, c, k, x, y, rl)
    ensures Deposed(rf, k.Era(), x) && Canvassed(cfg, c', k, y, rl, rf, tick)
    ensures Eager(cfg, rl, k.second, y) && rl.term == k.Era()
  {
    hide *;
    PlotFacts(cfg, k);
    JuryFacts(cfg, k);
    PressedParts(cfg, c, k, x, y, rl);
    var f, l, js, t := k.first, k.second, k.Jury(), k.Era();
    var c1;
    c1, rf, tick := Yields(cfg, c, k, x, y, rl);
    var froms := ToSet(k.voters) + {l};
    SwayedStays(cfg, c, {f}, froms, c1, k.strays, t - 1, x);
    CrowdStays(cfg, c, {f}, froms, c1, k.Others(), t);
    JuryBacks(cfg, c1, k, x, rf);
    c' := Canvasses(cfg, c1, f, js, rf, tick);
    EveryoneToAll(cfg, c', f, Candidacy(rf, f), js);
    StillGreetable(cfg, c1, c', js, k.strays, t, l);
    SubCrowd(cfg, c1, k.Others(), k.keepers, t);
    CrowdStays(cfg, c1, {f} + ToSet(js), ToSet(js) + {f}, c', k.keepers, t);
    ToAllStays(cfg, c, {f}, froms, c1, l, k.strays, Greeting(t, l));
    ToAllStays(cfg, c1, {f} + ToSet(js), ToSet(js) + {f}, c', l, k.strays, Greeting(t, l));
    ToAllStays(cfg, c, {f}, froms, c1, l, k.keepers, Order(t, l, y));
    ToAllStays(cfg, c1, {f} + ToSet(js), ToSet(js) + {f}, c', l, k.keepers, Order(t, l, y));
    StillAwaits(cfg, c1, {f} + ToSet(js), ToSet(js) + {f}, c', f, l, AppendResp(t, true, 1, 0));
    NotMoved(cfg, c, {f}, froms, c1, l);
    NotMoved(cfg, c1, {f} + ToSet(js), ToSet(js) + {f}, c', l);
    IsCanvassed(cfg, c', k, y, rl, rf, tick);
  }

  lemma PressedParts(cfg: Config, c: Cluster, k: Roles, x: string, y: string, rl: Raft)
    requires Plot(cfg, k) && Pressed(cfg, c, k, x, y, rl)
    ensures AllSwayed(cfg, c, k.strays, k.Era() - 1, x) && Crowd(cfg, c, k.Others(), k.Era())
    ensures k.second in c.nodes && c.nodes[k.second].raft == rl && Eager(cfg, rl, k.second, y) && rl.term == k.Era()
    ensures ToAll(cfg, c, k.second, k.strays, Greeting(k.Era(), k.second))
    ensures ToAll(cfg, c, k.second, k.keepers, Order(k.Era(), k.second, y))
  {
    JuryFacts(cfg, k);
    hide AllSwayed, Awaits, Crowd, AllPolledOut, Leads, Plot, Ascending, Eager, Order;
  }

  lemma StillGreetable(cfg: Config, c: Cluster, c': Cluster, js: seq<NodeID>, ss: seq<NodeID>, t: nat, l: NodeID)
    requires Steady(c, c', js) && AllHere(cfg, c', js) && (forall s :: s in ss ==> s in js)
    requires AllGreetable(cfg, c, ss, t, l)
    ensures AllHere(cfg, c', ss) && AllGreetable(cfg, c', ss, t, l)
  {
    hide Here, Takeable;
  }

  lemma SubCrowd(cfg: Config, c: Cluster, os: seq<NodeID>, vs: seq<NodeID>, t: nat)
    requires Crowd(cfg, c, os, t) && forall v :: v in vs ==> v in os
    ensures Crowd(cfg, c, vs, t)
  {
    hide Here, Blank;
  }

  lemma IsCanvassed(cfg: Config, c: Cluster, k: Roles, y: string, rl: Raft, rf: Raft, tick: nat)
    requires At(cfg, c, k.first, Campaign(Surveyed(cfg, rf, k.first, k.Jury()), k.first), tick)
    requires ToAll(cfg, c, k.first, k.Jury(), Candidacy(rf, k.first))
    requires AllHere(cfg, c, k.Jury()) && AllBack(c, k.Jury(), rf)
    requires AllHere(cfg, c, k.strays) && AllGreetable(cfg, c, k.strays, k.Era(), k.second)
    requires Crowd(cfg, c, k.keepers, k.Era()) && k.second in c.nodes && c.nodes[k.second].raft == rl
    requires ToAll(cfg, c, k.second, k.strays, Greeting(k.Era(), k.second))
    requires ToAll(cfg, c, k.second, k.keepers, Order(k.Era(), k.second, y))
    requires Awaits(cfg, c, k.first, k.second, AppendResp(k.Era(), true, 1, 0))
    ensures Canvassed(cfg, c, k, y, rl, rf, tick)
  {
    hide At, ToAll, AllHere, AllBack, AllGreetable, Crowd, Awaits, Surveyed, Candidacy, Roles.Jury;
  }

  // ---------- The commit ----------

  // Whoever had led before takes the second's empty request too, and remains ready to
  // vote for the first.
  lemma StraysTake(cfg: Config, c: Cluster, k: Roles, x: string, y: string, rl: Raft, rf: Raft, tick: nat)
    returns (c': Cluster)
    requires Plot(cfg, k) && Deposed(rf, k.Era(), x) && Canvassed(cfg, c, k, y, rl, rf, tick)
    ensures OnlyMoved(cfg, c, ToSet(k.strays), {k.second}, c')
    ensures FromAll(cfg, c', k.strays, k.second, AppendResp(k.Era(), true, 1, 0))
    ensures AllHere(cfg, c', k.Jury()) && AllVotable(c', k.Jury(), Candidacy(rf, k.first))
  {
    PlotFacts(cfg, k);
    JuryFacts(cfg, k);
    var t, l, m := k.Era(), k.second, Greeting(k.Era(), k.second);
    assert Reached(cfg, c);
    hide Reached, At, Here, Awaits, OnlyMoved, Ascending, Plot, Took, Takeable, Crowd, ToSet, UpToDate;
    c' := AllTake(cfg, c, l, k.strays, m);
    StrayIn(k.strays);
    forall j | j in k.Jury()
      ensures Here(cfg, c', j) && j in c'.nodes && Votable(c'.nodes[j].raft, Candidacy(rf, k.first))
    {
      assert Backs(c.nodes[j].raft, rf);
      if j in k.strays {
        TookVotable(cfg, c.nodes[j].raft, l, t, rf, k.first, x);
        IsHere(cfg, c', j);
      } else {
        StillHere(cfg, c, ToSet(k.strays), {l}, c', j);
        IsHere(cfg, c', j);
      }
    }
  }

  lemma StrayIn(ss: seq<NodeID>)
    ensures forall s :: s in ss <==> s in ToSet(ss)
  {
  }

  lemma TookVotable(cfg: Config, r: Raft, l: NodeID, t: nat, rf: Raft, p: NodeID, x: string)
    requires Backs(r, rf) && Deposed(rf, t, x)
    ensures Votable(Took(cfg.rule, r, l, t, []), Candidacy(rf, p))
  {
    assert Splice(r.log, 0, []) == r.log;
  }

  // Nothing in the log: the whole request is taken, and one entry acknowledged.
  lemma CrowdTakes(cfg: Config, c: Cluster, vs: seq<NodeID>, t: nat, l: NodeID, y: string)
    requires Crowd(cfg, c, vs, t)
    ensures AllHere(cfg, c, vs)
    ensures forall v :: v in vs ==> v in c.nodes && Takeable(cfg, c.nodes[v].raft, Order(t, l, y))
  {
    hide Here;
    assert Splice([], 0, [Entry(t, y)]) == [Entry(t, y)];
  }

  lemma CanvassedFacts(cfg: Config, c: Cluster, k: Roles, y: string, rl: Raft, rf: Raft, tick: nat)
    requires Canvassed(cfg, c, k, y, rl, rf, tick)
    ensures At(cfg, c, k.first, Campaign(Surveyed(cfg, rf, k.first, k.Jury()), k.first), tick)
    ensures ToAll(cfg, c, k.first, k.Jury(), Candidacy(rf, k.first)) && Crowd(cfg, c, k.keepers, k.Era())
    ensures ToAll(cfg, c, k.second, k.keepers, Order(k.Era(), k.second, y))
    ensures k.second in c.nodes && c.nodes[k.second].raft == rl
    ensures Awaits(cfg, c, k.first, k.second, AppendResp(k.Era(), true, 1, 0)) && Candidacy(rf, k.first).VoteReq?
  {
    hide At, ToAll, Crowd, Awaits, Surveyed, AllHere, AllBack, AllGreetable, Roles.Jury;
  }

  lemma ClaqueFacts(cfg: Config, k: Roles)
    requires Plot(cfg, k)
    ensures Ascending(k.Claque()) && |k.Claque()| + 1 == cfg.Quorum() && k.second !in k.Claque()
    ensures forall a :: a in k.Claque() ==> a in cfg.members && (a == k.first || a in k.strays || a in k.keepers)
    ensures forall a :: a in ToSet(k.strays) ==> a in k.strays
    ensures forall a :: a in ToSet(k.keepers) ==> a in k.keepers
    ensures forall j :: j in k.Jury() ==> j !in k.keepers && j != k.second && j != k.first
    ensures k.first !in k.strays && k.first !in k.keepers && k.second !in k.strays && k.second !in k.keepers
  {
    assert forall o :: o in k.voters ==> o in k.Others();
    assert forall o :: o in k.rest ==> o in k.Others();
    hide Ascending;
  }

  lemma ClaqueSays(cfg: Config, c: Cluster, k: Roles, m: Payload)
    requires Plot(cfg, k) && Awaits(cfg, c, k.first, k.second, m)
    requires FromAll(cfg, c, k.strays, k.second, m) && FromAll(cfg, c, k.keepers, k.second, m)
    ensures FromAll(cfg, c, k.Claque(), k.second, m)
  {
    ClaqueFacts(cfg, k);
    hide Awaits, Plot, Roles.Claque;
  }

  lemma VotableStay(cfg: Config, c: Cluster, who: set<NodeID>, froms: set<NodeID>, c': Cluster,
                    js: seq<NodeID>, m: Payload)
    requires m.VoteReq? && OnlyMoved(cfg, c, who, froms, c') && AllVotable(c, js, m) && AllHere(cfg, c, js)
    requires forall j :: j in js ==> j !in who
    ensures AllVotable(c', js, m) && AllHere(cfg, c', js)
  {
    hide OnlyMoved, Here, Votable;
    HereStay(cfg, c, who, froms, c', js);
  }

  // The second hears its entry acknowledged by a majority's worth of nodes and commits
  // it, and the first can still be elected by those that do not have it.
  lemma Overcommits(cfg: Config, c: Cluster, k: Roles, x: string, y: string, rl: Raft, rf: Raft, tick: nat)
    returns (c': Cluster, r: Raft)
    requires Plot(cfg, k) && Deposed(rf, k.Era(), x) && Canvassed(cfg, c, k, y, rl, rf, tick)
    requires Eager(cfg, rl, k.second, y) && rl.term == k.Era()
    ensures k.second in c'.nodes && c'.nodes[k.second].raft == r && Reached(cfg, c')
    ensures r.term == k.Era() && r.log == [Entry(k.Era(), y)] && r.commitIndex == 1
    ensures At(cfg, c', k.first, Campaign(Surveyed(cfg, rf, k.first, k.Jury()), k.first), tick)
    ensures ToAll(cfg, c', k.first, k.Jury(), Candidacy(rf, k.first))
    ensures AllHere(cfg, c', k.Jury()) && AllVotable(c', k.Jury(), Candidacy(rf, k.first))
  {
    hide *;
    PlotFacts(cfg, k);
    JuryFacts(cfg, k);
    ClaqueFacts(cfg, k);
    CanvassedFacts(cfg, c, k, y, rl, rf, tick);
    EagerFacts(cfg, rl, k.second, y);
    EagerLog(cfg, rl, k.second, y);
    var f, l, js, t, ask := k.first, k.second, k.Jury(), k.Era(), Candidacy(rf, k.first);
    var cand, ack := Campaign(Surveyed(cfg, rf, f, js), f), AppendResp(t, true, 1, 0);
    var ss, ks := ToSet(k.strays), ToSet(k.keepers);
    var c1 := StraysTake(cfg, c, k, x, y, rl, rf, tick);
    MovedReached(cfg, c, ss, {l}, c1);
    StillAt(cfg, c, ss, {l}, c1, f, cand, tick);
    ToAllStays(cfg, c, ss, {l}, c1, f, js, ask);
    StillAwaits(cfg, c, ss, {l}, c1, f, l, ack);
    KeepersWait(cfg, c, k, y, c1);
    NotMoved(cfg, c, ss, {l}, c1, l);
    CrowdTakes(cfg, c1, k.keepers, t, l, y);
    var c2 := AllTake(cfg, c1, l, k.keepers, Order(t, l, y));
    MovedReached(cfg, c1, ks, {l}, c2);
    StillAt(cfg, c1, ks, {l}, c2, f, cand, tick);
    ToAllStays(cfg, c1, ks, {l}, c2, f, js, ask);
    StillAwaits(cfg, c1, ks, {l}, c2, f, l, ack);
    FromAllStays(cfg, c1, ks, {l}, c2, k.strays, l, ack);
    VotableStay(cfg, c1, ks, {l}, c2, js, ask);
    NotMoved(cfg, c1, ks, {l}, c2, l);
    ClaqueSays(cfg, c2, k, ack);
    c', r := LearnsAll(cfg, c2, l, k.Claque(), rl);
    var froms := ToSet(k.Claque());
    MovedReached(cfg, c2, {l}, froms, c');
    StillAt(cfg, c2, {l}, froms, c', f, cand, tick);
    ToAllStays(cfg, c2, {l}, froms, c', f, js, ask);
    VotableStay(cfg, c2, {l}, froms, c', js, ask);
  }

  lemma EagerLog(cfg: Config, r: Raft, p: NodeID, cmd: string)
    requires Eager(cfg, r, p, cmd)
    ensures r.log == [Entry(r.term, cmd)]
  {
  }

  lemma KeepersWait(cfg: Config, c: Cluster, k: Roles, y: string, c1: Cluster)
    requires Plot(cfg, k) && OnlyMoved(cfg, c, ToSet(k.strays), {k.second}, c1) && Crowd(cfg, c, k.keepers, k.Era())
    requires ToAll(cfg, c, k.second, k.keepers, Order(k.Era(), k.second, y))
    ensures Crowd(cfg, c1, k.keepers, k.Era()) && ToAll(cfg, c1, k.second, k.keepers, Order(k.Era(), k.second, y))
  {
    PlotFacts(cfg, k);
    hide OnlyMoved, Crowd, ToAll, Order;
    assert forall v :: v in k.keepers ==> v in k.Others() && v !in ToSet(k.strays);
    CrowdStays(cfg, c, ToSet(k.strays), {k.second}, c1, k.keepers, k.Era());
    ToAllStays(cfg, c, ToSet(k.strays), {k.second}, c1, k.second, k.keepers, Order(k.Era(), k.second, y));
  }

  // In any mode, with any timers and either vote rule, a cluster of three, of five or of
  // more that acknowledges whole logs can commit an entry and lose it: the first leads a
  // later term than the second committed in, and without what it committed.
  lemma CommitsCanBeLost(cfg: Config, x: string, y: string) returns (c: Cluster, p: NodeID, q: NodeID)
    requires cfg.Valid() && cfg.ack == WholeLog && |cfg.members| >= 3 && |cfg.members| != 4
    ensures Reached(cfg, c) && p in c.nodes && q in c.nodes && Overlooks(c.nodes[q].raft, c.nodes[p].raft)
  {
    hide *;
    var k := SomePlot(cfg);
    PlotFacts(cfg, k);
    JuryFacts(cfg, k);
    var c0 := Contests(cfg, k, x, y);
    var c1, rl := Presses(cfg, c0, k, x, y);
    var c2, rf, tick := Challenges(cfg, c1, k, x, y, rl);
    var c3, r := Overcommits(cfg, c2, k, x, y, rl, rf, tick);
    var f, js := k.first, k.Jury();
    c := Ballots(cfg, c3, f, js, rf, tick);
    p, q := k.second, f;
    NotMoved(cfg, c3, {f} + ToSet(js), ToSet(js) + {f}, c, p);
    DeposedFacts(rf, k.Era(), x);
    VictorFacts(cfg, rf, f, js);
    Lost(cfg, c, f, p, Victor(cfg, rf, f, js), tick, k.Era(), x, y);
  }

  lemma Lost(cfg: Config, c: Cluster, f: NodeID, l: NodeID, rf: Raft, tick: nat, t: nat, x: string, y: string)
    requires At(cfg, c, f, rf, tick) && rf.role == Leader && t > 0 && rf.term == t + 1 && rf.log == [Entry(t - 1, x)]
    requires l in c.nodes && c.nodes[l].raft.term == t && c.nodes[l].raft.log == [Entry(t, y)]
    requires c.nodes[l].raft.commitIndex == 1
    ensures Reached(cfg, c) && f in c.nodes && Overlooks(c.nodes[f].raft, c.nodes[l].raft)
  {
    hide Reached, Up;
    var rl := c.nodes[l].raft;
    assert rl.log[..1][0] == Entry(t, y) && rf.log[0] == Entry(t - 1, x);
    assert !(rl.log[..rl.commitIndex] <= rf.log);
  }
}
