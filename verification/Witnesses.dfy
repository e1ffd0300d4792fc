/** Two leaders in one term: the clusters in which they can meet, and how. */
module Witnesses {
  import opened Types
  import opened Logs
  import opened Rafts
  import opened Nodes
  import opened Clusters
  import opened Worlds
  import opened Stages
  import opened Crews
  import opened Safety

  ghost predicate TwoLeaders(c: Cluster) {
    exists p, q :: p in c.nodes && q in c.nodes && p != q
      && c.nodes[p].raft.role == Leader && c.nodes[q].raft.role == Leader
      && c.nodes[p].raft.term == c.nodes[q].raft.term
  }

  // ---------- The run ----------

  // Two rivals, and as many others as make a majority with either.
  ghost predicate Cast(cfg: Config, a: NodeID, b: NodeID, vs: seq<NodeID>) {
    && cfg.Valid() && cfg.mode != Baseline && a in cfg.members && b in cfg.members && a != b
    && Ascending(vs) && a !in vs && b !in vs && (forall v :: v in vs ==> v in cfg.members)
    && 1 <= |vs| == cfg.Quorum() - 1
  }

  // They all stand alike and have not ticked yet.
  ghost predicate Crew(cfg: Config, c: Cluster, vs: seq<NodeID>, r: Raft) {
    AllHere(cfg, c, vs) && forall v :: v in vs ==> v in c.nodes && c.nodes[v].raft == r && c.nodes[v].clock.tick == 0
  }

  lemma CrewStays(cfg: Config, c: Cluster, who: set<NodeID>, froms: set<NodeID>, c': Cluster,
                  vs: seq<NodeID>, r: Raft)
    requires OnlyMoved(cfg, c, who, froms, c') && Crew(cfg, c, vs, r) && forall v :: v in vs ==> v !in who
    ensures Crew(cfg, c', vs, r)
  {
    hide OnlyMoved, Here;
    HereStay(cfg, c, who, froms, c', vs);
  }

  function FirstPoll(p: NodeID): Payload {
    VoteReq(1, p, 0, 0, true)
  }

  function Running(p: NodeID, vs: seq<NodeID>): Raft {
    Campaign(PreCampaign(FRESH_RAFT, p).(preVotes := {p} + ToSet(vs)), p)
  }

  function Leading(cfg: Config, p: NodeID, vs: seq<NodeID>): Raft {
    Elected(Running(p, vs).(votes := {p} + ToSet(vs)), p, cfg.members)
  }

  lemma RunningIsSurveyed(cfg: Config, a: NodeID, vs: seq<NodeID>)
    requires cfg.mode != Baseline
    ensures Campaign(Surveyed(cfg, FRESH_RAFT, a, vs), a) == Running(a, vs)
    ensures Leading(cfg, a, vs) == Victor(cfg, FRESH_RAFT, a, vs)
    ensures AppendReq(FRESH_RAFT.term + 1, a, |FRESH_RAFT.log|, LastTerm(FRESH_RAFT.log), [], FRESH_RAFT.commitIndex)
         == Greeting(1, a)
  {
    hide Elected;
  }

  lemma CastFacts(cfg: Config, a: NodeID, b: NodeID, vs: seq<NodeID>)
    requires Cast(cfg, a, b, vs)
    ensures cfg.Valid() && cfg.mode != Baseline && Ascending(vs) && a !in vs && b !in vs && a != b
    ensures 1 <= |vs| == cfg.Quorum() - 1 && a !in ToSet(vs) && b !in ToSet(vs)
    ensures forall v :: v in vs ==> v in cfg.members
  {
  }

  lemma FreshFacts(cfg: Config, a: NodeID)
    requires cfg.mode != Baseline
    ensures FRESH_RAFT.role != Leader && NextAsk(cfg, FRESH_RAFT, a) == FirstPoll(a)
    ensures Runner(cfg, FRESH_RAFT, a) == PreCampaign(FRESH_RAFT, a) && Candidacy(FRESH_RAFT, a) == Plea(1, a)
  {
  }

  lemma CrewBacks(cfg: Config, c: Cluster, vs: seq<NodeID>)
    requires Crew(cfg, c, vs, FRESH_RAFT)
    ensures AllHere(cfg, c, vs) && AllBack(c, vs, FRESH_RAFT)
  {
    hide Here;
  }

  lemma CrewSteady(cfg: Config, c: Cluster, c': Cluster, vs: seq<NodeID>, r: Raft)
    requires Crew(cfg, c, vs, r) && AllHere(cfg, c', vs) && Steady(c, c', vs)
    ensures Crew(cfg, c', vs, r)
  {
    hide Here;
  }

  // One rival's timer runs out and the others say they would vote for it.
  lemma Asks(cfg: Config, c: Cluster, a: NodeID, b: NodeID, vs: seq<NodeID>) returns (c': Cluster)
    requires Cast(cfg, a, b, vs) && At(cfg, c, a, FRESH_RAFT, 0) && Crew(cfg, c, vs, FRESH_RAFT)
    ensures OnlyMoved(cfg, c, {a} + ToSet(vs), ToSet(vs) + {a}, c')
    ensures At(cfg, c', a, Running(a, vs), cfg.timeout) && ToAll(cfg, c', a, vs, Plea(1, a))
    ensures Crew(cfg, c', vs, FRESH_RAFT)
  {
    hide *;
    CastFacts(cfg, a, b, vs);
    FreshFacts(cfg, a);
    var c1 := Expires(cfg, c, a, FRESH_RAFT, 0);
    EveryoneToAll(cfg, c1, a, FirstPoll(a), vs);
    CrewStays(cfg, c, {a}, {}, c1, vs, FRESH_RAFT);
    CrewBacks(cfg, c1, vs);
    c' := Surveys(cfg, c1, a, vs, FRESH_RAFT, cfg.timeout);
    CrewSteady(cfg, c1, c', vs, FRESH_RAFT);
    RunningIsSurveyed(cfg, a, vs);
    EveryoneToAll(cfg, c', a, Plea(1, a), vs);
    var who, froms := {a} + ToSet(vs), ToSet(vs) + {a};
    MovesCompose(cfg, c, {a}, {}, c1, who, froms, c');
    assert {a} + who == who && {} + froms == froms;
  }

  function Supporter(rule: Rule, p: NodeID): Raft {
    AfterGrant(rule, FRESH_RAFT, Plea(1, p))
  }

  // A node that has voted for a, heard of its victory while polling, and voted for b.
  function Fooled(v: NodeID, a: NodeID, b: NodeID): Raft {
    FRESH_RAFT.(term := 1, votedFor := Some(b), leaderID := Some(a), preVotes := {v})
  }

  // Both rivals run in term 1, and the first wins.
  lemma FirstLeader(cfg: Config, a: NodeID, b: NodeID, vs: seq<NodeID>) returns (c: Cluster)
    requires Cast(cfg, a, b, vs)
    ensures At(cfg, c, a, Leading(cfg, a, vs), cfg.timeout) && ToAll(cfg, c, a, vs, Greeting(1, a))
    ensures At(cfg, c, b, Running(b, vs), cfg.timeout) && ToAll(cfg, c, b, vs, Plea(1, b))
    ensures Crew(cfg, c, vs, Supporter(cfg.rule, a))
  {
    var c0 := Beginning(cfg);
    forall v | v in vs
      ensures Here(cfg, c0, v) && c0.nodes[v].raft == FRESH_RAFT && c0.nodes[v].clock.tick == 0
    {
      Stood(cfg, c0, v, FRESH_RAFT, 0);
    }
    hide Reached, Stands, Awaits, OnlyMoved, Here;
    assert a !in ToSet(vs) && b !in ToSet(vs);
    var who, froms := {a} + ToSet(vs), ToSet(vs) + {a};
    var c1 := Asks(cfg, c0, a, b, vs);
    StillAt(cfg, c0, who, froms, c1, b, FRESH_RAFT, 0);
    var c2 := Asks(cfg, c1, b, a, vs);
    hide At, Crew, ToAll;
    StillAt(cfg, c1, {b} + ToSet(vs), ToSet(vs) + {b}, c2, a, Running(a, vs), cfg.timeout);
    ToAllStays(cfg, c1, {b} + ToSet(vs), ToSet(vs) + {b}, c2, a, vs, Plea(1, a));
    c := ElectFirst(cfg, c2, a, b, vs);
  }

  lemma ReadyToVote(cfg: Config, c: Cluster, a: NodeID, vs: seq<NodeID>)
    requires Crew(cfg, c, vs, FRESH_RAFT)
    ensures Candidacy(FRESH_RAFT, a) == Plea(1, a) && AllHere(cfg, c, vs)
    ensures AllVotable(c, vs, Plea(1, a))
  {
    hide Here;
  }

  lemma BackedCrew(cfg: Config, c: Cluster, c': Cluster, a: NodeID, vs: seq<NodeID>)
    requires Crew(cfg, c, vs, FRESH_RAFT) && AllHere(cfg, c', vs) && AllBacked(cfg, c, c', vs, Plea(1, a))
    ensures Crew(cfg, c', vs, Supporter(cfg.rule, a))
  {
    hide Here, AfterGrant;
  }

  lemma ElectFirst(cfg: Config, c: Cluster, a: NodeID, b: NodeID, vs: seq<NodeID>) returns (c': Cluster)
    requires Cast(cfg, a, b, vs) && Crew(cfg, c, vs, FRESH_RAFT)
    requires At(cfg, c, a, Running(a, vs), cfg.timeout) && ToAll(cfg, c, a, vs, Plea(1, a))
    requires At(cfg, c, b, Running(b, vs), cfg.timeout) && ToAll(cfg, c, b, vs, Plea(1, b))
    ensures At(cfg, c', a, Leading(cfg, a, vs), cfg.timeout) && ToAll(cfg, c', a, vs, Greeting(1, a))
    ensures At(cfg, c', b, Running(b, vs), cfg.timeout) && ToAll(cfg, c', b, vs, Plea(1, b))
    ensures Crew(cfg, c', vs, Supporter(cfg.rule, a))
  {
    hide *;
    CastFacts(cfg, a, b, vs);
    ReadyToVote(cfg, c, a, vs);
    RunningIsSurveyed(cfg, a, vs);
    var who, froms := {a} + ToSet(vs), ToSet(vs) + {a};
    c' := Ballots(cfg, c, a, vs, FRESH_RAFT, cfg.timeout);
    EveryoneToAll(cfg, c', a, Greeting(1, a), vs);
    StillAt(cfg, c, who, froms, c', b, Running(b, vs), cfg.timeout);
    ToAllStays(cfg, c, who, froms, c', b, vs, Plea(1, b));
    BackedCrew(cfg, c, c', a, vs);
  }

  lemma FooledFacts(cfg: Config, v: NodeID, a: NodeID, b: NodeID)
    requires Loose(cfg)
    ensures Supporter(cfg.rule, a).role != Leader
    ensures Greeting(1, a) == AppendReq(1, a, 0, 0, [], 0) && Plea(1, b) == VoteReq(1, b, 0, 0, false)
    ensures var r := Runner(cfg, Supporter(cfg.rule, a), v);
      var t := Took(cfg.rule, r, a, 1, []);
      && r.term == 1 && t.term == 1 && t.votedFor == None && UpToDate(t.log, 0, 0)
      && AfterGrant(cfg.rule, t, Plea(1, b)) == Fooled(v, a, b)
  {
  }

  lemma AskedOut(cfg: Config, c: Cluster, v: NodeID, r: Raft)
    requires Everyone(cfg, c, v, NextAsk(cfg, r, v)) && cfg.mode != Baseline
    ensures PolledOut(cfg, c, v)
  {
    hide Awaits;
  }

  lemma PollsOutStay(cfg: Config, c: Cluster, who: set<NodeID>, froms: set<NodeID>, c': Cluster, v: NodeID)
    requires OnlyMoved(cfg, c, who, froms, c') && PolledOut(cfg, c, v) && v !in froms
    ensures PolledOut(cfg, c', v)
  {
    hide OnlyMoved, HasPolled;
    forall q | q in cfg.members && q != v
      ensures HasPolled(cfg, c', v, q)
    {
      PollStays(cfg, c, who, froms, c', v, q);
    }
  }

  // A supporter of a whose timer has run out hears of a's victory, which clears its
  // vote, and gives it to b.
  lemma VotesTwice(cfg: Config, c: Cluster, v: NodeID, a: NodeID, b: NodeID) returns (c': Cluster)
    requires cfg.Valid() && Loose(cfg) && a != b && v != a && v != b && cfg.mode != Baseline
    requires At(cfg, c, v, Supporter(cfg.rule, a), 0)
    requires Awaits(cfg, c, a, v, Greeting(1, a)) && Awaits(cfg, c, b, v, Plea(1, b))
    ensures OnlyMoved(cfg, c, {v}, {a, b}, c') && At(cfg, c', v, Fooled(v, a, b), cfg.timeout)
    ensures Awaits(cfg, c', v, b, VoteResp(1, true, false)) && PolledOut(cfg, c', v)
  {
    hide *;
    var s := Supporter(cfg.rule, a);
    FooledFacts(cfg, v, a, b);
    var r := Runner(cfg, s, v);
    var t := Took(cfg.rule, r, a, 1, []);
    var c1 := Expires(cfg, c, v, s, 0);
    AskedOut(cfg, c1, v, s);
    StillAwaits(cfg, c, {v}, {}, c1, a, v, Greeting(1, a));
    StillAwaits(cfg, c, {v}, {}, c1, b, v, Plea(1, b));
    var c2 := Takes(cfg, c1, a, v, Greeting(1, a), r, cfg.timeout);
    StillAwaits(cfg, c1, {v}, {a}, c2, b, v, Plea(1, b));
    PollsOutStay(cfg, c1, {v}, {a}, c2, v);
    c' := Votes(cfg, c2, b, v, Plea(1, b), t, cfg.timeout);
    PollsOutStay(cfg, c2, {v}, {b}, c', v);
    MovesCompose(cfg, c, {v}, {}, c1, {v}, {a}, c2);
    MovesCompose(cfg, c, {v} + {v}, {} + {a}, c2, {v}, {b}, c');
    assert {v} + {v} + {v} == {v} && {} + {a} + {b} == {a, b};
  }

  ghost predicate AllFooled(cfg: Config, c: Cluster, vs: seq<NodeID>, a: NodeID, b: NodeID) {
    AllHere(cfg, c, vs) && forall v :: v in vs ==> v in c.nodes && c.nodes[v].raft == Fooled(v, a, b)
  }

  lemma {:induction false} AllVoteTwice(cfg: Config, c: Cluster, vs: seq<NodeID>, a: NodeID, b: NodeID)
    returns (c': Cluster)
    requires cfg.Valid() && Loose(cfg) && Reached(cfg, c) && Ascending(vs) && a != b && a !in vs && b !in vs
    requires Crew(cfg, c, vs, Supporter(cfg.rule, a))
    requires ToAll(cfg, c, a, vs, Greeting(1, a)) && ToAll(cfg, c, b, vs, Plea(1, b))
    ensures OnlyMoved(cfg, c, ToSet(vs), {a, b}, c') && AllFooled(cfg, c', vs, a, b)
    ensures FromAll(cfg, c', vs, b, VoteResp(1, true, false)) && AllPolledOut(cfg, c', vs)
  {
    hide Reached, At, Here, Awaits, OnlyMoved, Supporter, Fooled, PolledOut, Ascending, ToSet;
    if vs == [] {
      c' := c;
      NobodyYet(cfg, c, {a, b});
    } else {
      LastApart(vs);
      var n := |vs| - 1;
      var ws, v := vs[..n], vs[n];
      assert v in vs;
      var c1 := AllVoteTwice(cfg, c, ws, a, b);
      StillHere(cfg, c, ToSet(ws), {a, b}, c1, v);
      IsHere(cfg, c1, v);
      StillAwaits(cfg, c, ToSet(ws), {a, b}, c1, a, v, Greeting(1, a));
      StillAwaits(cfg, c, ToSet(ws), {a, b}, c1, b, v, Plea(1, b));
      c' := VotesTwice(cfg, c1, v, a, b);
      Stood(cfg, c', v, Fooled(v, a, b), cfg.timeout);
      HereStay(cfg, c1, {v}, {a, b}, c', ws);
      FromAllStays(cfg, c1, {v}, {a, b}, c', ws, b, VoteResp(1, true, false));
      PolledOutStay(cfg, c1, {v}, {a, b}, c', ws);
      MovesCompose(cfg, c, ToSet(ws), {a, b}, c1, {v}, {a, b}, c');
      assert {a, b} + {a, b} == {a, b};
    }
  }

  // The second rival wins the same term with the same voters; their polls are still
  // unread by everyone but it.
  lemma SecondLeader(cfg: Config, a: NodeID, b: NodeID, vs: seq<NodeID>) returns (c: Cluster)
    requires Cast(cfg, a, b, vs) && Loose(cfg)
    ensures At(cfg, c, a, Leading(cfg, a, vs), cfg.timeout) && At(cfg, c, b, Leading(cfg, b, vs), cfg.timeout)
    ensures AllFooled(cfg, c, vs, a, b)
    ensures forall u :: u in cfg.members && u != b ==> AllPolling(cfg, c, vs, u)
  {
    var c0 := FirstLeader(cfg, a, b, vs);
    assert Reached(cfg, c0);
    hide Reached, At, Awaits, OnlyMoved, Crew, ToAll, FromAll, AllFooled, Leading, PolledOut;
    assert a !in ToSet(vs) && b !in ToSet(vs);
    var c1 := AllVoteTwice(cfg, c0, vs, a, b);
    StillAt(cfg, c0, ToSet(vs), {a, b}, c1, a, Leading(cfg, a, vs), cfg.timeout);
    StillAt(cfg, c0, ToSet(vs), {a, b}, c1, b, Running(b, vs), cfg.timeout);
    c := ElectSecond(cfg, c1, a, b, vs);
  }

  lemma ElectSecond(cfg: Config, c: Cluster, a: NodeID, b: NodeID, vs: seq<NodeID>) returns (c': Cluster)
    requires Cast(cfg, a, b, vs) && AllFooled(cfg, c, vs, a, b) && AllPolledOut(cfg, c, vs)
    requires At(cfg, c, a, Leading(cfg, a, vs), cfg.timeout)
    requires At(cfg, c, b, Running(b, vs), cfg.timeout) && FromAll(cfg, c, vs, b, VoteResp(1, true, false))
    ensures At(cfg, c', a, Leading(cfg, a, vs), cfg.timeout) && At(cfg, c', b, Leading(cfg, b, vs), cfg.timeout)
    ensures AllFooled(cfg, c', vs, a, b)
    ensures forall u :: u in cfg.members && u != b ==> AllPolling(cfg, c', vs, u)
  {
    hide Reached, At, Here, Awaits, OnlyMoved, FromAll, Elected, HasPolled, Fooled;
    c' := CollectVotes(cfg, c, b, vs, Running(b, vs), cfg.timeout);
    StillAt(cfg, c, {b}, ToSet(vs), c', a, Leading(cfg, a, vs), cfg.timeout);
    HereStay(cfg, c, {b}, ToSet(vs), c', vs);
    forall u | u in cfg.members && u != b
      ensures AllPolling(cfg, c', vs, u)
    {
      forall v | v in vs && v != u
        ensures HasPolled(cfg, c, v, u)
      {
        assert PolledOut(cfg, c, v);
      }
      PollsStay(cfg, c, {b}, ToSet(vs), c', vs, u);
    }
  }

  // ---------- Exactly when elections are safe ----------

  lemma SomeCast(cfg: Config) returns (a: NodeID, b: NodeID, vs: seq<NodeID>)
    requires cfg.Valid() && cfg.mode != Baseline && |cfg.members| >= 3
    ensures Cast(cfg, a, b, vs)
  {
    a, b := cfg.members[0], cfg.members[1];
    vs := cfg.members[2..cfg.Quorum() + 1];
    forall v | v in vs
      ensures v in cfg.members && v != a && v != b
    {
      var i :| 0 <= i < |vs| && vs[i] == v;
      assert v == cfg.members[i + 2];
    }
  }

  lemma BothLead(cfg: Config, c: Cluster, a: NodeID, b: NodeID, vs: seq<NodeID>)
    requires a != b
    requires At(cfg, c, a, Leading(cfg, a, vs), cfg.timeout) && At(cfg, c, b, Leading(cfg, b, vs), cfg.timeout)
    ensures Reached(cfg, c) && TwoLeaders(c)
  {
    hide Reached;
  }

  ghost predicate ElectsOne(cfg: Config) {
    forall states, acts :: Run(cfg, states, acts) ==> OneLeaderPerTerm(states)
  }

  lemma TwoLeadersShow(cfg: Config, c: Cluster)
    requires Reached(cfg, c) && TwoLeaders(c)
    ensures !ElectsOne(cfg)
  {
    hide Run;
    var states, acts := RunTo(cfg, c);
    assert states[|acts|] == c;
    var p, q :| p in c.nodes && q in c.nodes && p != q
      && c.nodes[p].raft.role == Leader && c.nodes[q].raft.role == Leader
      && c.nodes[p].raft.term == c.nodes[q].raft.term;
    assert p in states[|acts|].nodes && q in states[|acts|].nodes;
    assert !OneLeaderPerTerm(states);
  }

  // In a configuration a term can have two leaders exactly if it clears votes within
  // a term, has the pre-vote role, and has at least three members.
  lemma ElectionSafetyIsExact(cfg: Config)
    requires cfg.Valid()
    ensures ElectsOne(cfg) <==> cfg.rule == KeepVote || cfg.mode == Baseline || |cfg.members| <= 2
  {
    hide Run, At, Elected;
    if Sound(cfg) {
      forall states, acts | Run(cfg, states, acts)
        ensures OneLeaderPerTerm(states)
      {
        ElectionsAreSafe(cfg, states, acts);
      }
    } else {
      var a, b, vs := SomeCast(cfg);
      var c := SecondLeader(cfg, a, b, vs);
      BothLead(cfg, c, a, b, vs);
      TwoLeadersShow(cfg, c);
    }
  }
}
