/** Several nodes doing the same in turn, and a leader whom they keep in office until
    its next heartbeat. */
module Crews {
  import opened Types
  import opened Logs
  import opened Rafts
  import opened Nodes
  import opened Clusters
  import opened Stages

  ghost predicate AllHere(cfg: Config, c: Cluster, vs: seq<NodeID>) {
    forall v :: v in vs ==> Here(cfg, c, v)
  }

  ghost predicate ToAll(cfg: Config, c: Cluster, from: NodeID, vs: seq<NodeID>, m: Payload) {
    forall v :: v in vs ==> Awaits(cfg, c, from, v, m)
  }

  ghost predicate FromAll(cfg: Config, c: Cluster, vs: seq<NodeID>, to: NodeID, m: Payload) {
    forall v :: v in vs ==> Awaits(cfg, c, v, to, m)
  }

  // v has said it would vote for p.
  ghost predicate Encourages(cfg: Config, c: Cluster, v: NodeID, p: NodeID) {
    exists t: nat :: Awaits(cfg, c, v, p, VoteResp(t, true, true))
  }

  ghost predicate AllEncourage(cfg: Config, c: Cluster, vs: seq<NodeID>, p: NodeID) {
    forall v :: v in vs ==> Encourages(cfg, c, v, p)
  }

  // They stand where they stood, and none has changed its mind.
  ghost predicate Steady(c: Cluster, c': Cluster, vs: seq<NodeID>) {
    forall v :: v in vs ==>
      v in c.nodes && v in c'.nodes && c'.nodes[v].raft == c.nodes[v].raft
      && c'.nodes[v].clock.tick == c.nodes[v].clock.tick
  }

  // ---------- What others leave alone ----------

  lemma HereStay(cfg: Config, c: Cluster, who: set<NodeID>, froms: set<NodeID>, c': Cluster, vs: seq<NodeID>)
    requires OnlyMoved(cfg, c, who, froms, c') && AllHere(cfg, c, vs) && forall v :: v in vs ==> v !in who
    ensures AllHere(cfg, c', vs) && Steady(c, c', vs)
  {
    hide OnlyMoved, Here;
    forall v | v in vs
      ensures Here(cfg, c', v) && v in c.nodes && v in c'.nodes && c'.nodes[v] == c.nodes[v]
    {
      StillHere(cfg, c, who, froms, c', v);
      IsHere(cfg, c, v);
      IsHere(cfg, c', v);
    }
  }

  lemma IsHere(cfg: Config, c: Cluster, v: NodeID)
    requires Here(cfg, c, v)
    ensures v in c.nodes && v in cfg.members && Reached(cfg, c)
    ensures At(cfg, c, v, c.nodes[v].raft, c.nodes[v].clock.tick)
  {
    hide Reached, Stands;
  }

  lemma ToAllStays(cfg: Config, c: Cluster, who: set<NodeID>, froms: set<NodeID>, c': Cluster,
                   from: NodeID, vs: seq<NodeID>, m: Payload)
    requires OnlyMoved(cfg, c, who, froms, c') && ToAll(cfg, c, from, vs, m)
    requires from !in froms || forall v :: v in vs ==> v !in who
    ensures ToAll(cfg, c', from, vs, m)
  {
    hide OnlyMoved, Awaits;
    forall v | v in vs
      ensures Awaits(cfg, c', from, v, m)
    {
      StillAwaits(cfg, c, who, froms, c', from, v, m);
    }
  }

  lemma FromAllStays(cfg: Config, c: Cluster, who: set<NodeID>, froms: set<NodeID>, c': Cluster,
                     vs: seq<NodeID>, to: NodeID, m: Payload)
    requires OnlyMoved(cfg, c, who, froms, c') && FromAll(cfg, c, vs, to, m)
    requires to !in who || forall v :: v in vs ==> v !in froms
    ensures FromAll(cfg, c', vs, to, m)
  {
    hide OnlyMoved, Awaits;
    forall v | v in vs
      ensures Awaits(cfg, c', v, to, m)
    {
      StillAwaits(cfg, c, who, froms, c', v, to, m);
    }
  }

  lemma EncourageStays(cfg: Config, c: Cluster, who: set<NodeID>, froms: set<NodeID>, c': Cluster,
                       vs: seq<NodeID>, p: NodeID)
    requires OnlyMoved(cfg, c, who, froms, c') && AllEncourage(cfg, c, vs, p)
    requires p !in who || forall v :: v in vs ==> v !in froms
    ensures AllEncourage(cfg, c', vs, p)
  {
    hide OnlyMoved, Awaits;
    forall v | v in vs
      ensures Encourages(cfg, c', v, p)
    {
      assert Encourages(cfg, c, v, p);
      var t: nat :| Awaits(cfg, c, v, p, VoteResp(t, true, true));
      StillAwaits(cfg, c, who, froms, c', v, p, VoteResp(t, true, true));
    }
  }

  lemma EveryoneToAll(cfg: Config, c: Cluster, p: NodeID, m: Payload, vs: seq<NodeID>)
    requires Everyone(cfg, c, p, m) && p !in vs && forall v :: v in vs ==> v in cfg.members
    ensures ToAll(cfg, c, p, vs, m)
  {
    hide Awaits;
  }

  // The last of an ascending list is not among the others.
  lemma LastApart(vs: seq<NodeID>)
    requires Ascending(vs) && vs != []
    ensures var n := |vs| - 1;
      && vs == vs[..n] + [vs[n]] && Ascending(vs[..n]) && vs[n] !in vs[..n] && vs[n] !in ToSet(vs[..n])
      && ToSet(vs) == ToSet(vs[..n]) + {vs[n]}
  {
    var n := |vs| - 1;
    assert vs == vs[..n] + [vs[n]];
  }

  lemma OneMore(p: NodeID, vs: seq<NodeID>)
    requires Ascending(vs) && p !in vs
    ensures |{p} + ToSet(vs)| == |vs| + 1
  {
    AscendingCardinality(vs);
    assert {p} !! ToSet(vs);
  }

  lemma OneVoter(vs: seq<NodeID>)
    requires |vs| == 1
    ensures ToSet(vs) == {vs[0]}
  {
  }

  // Where it begins, with nobody yet moved.
  lemma NobodyYet(cfg: Config, c: Cluster, froms: set<NodeID>)
    requires Reached(cfg, c)
    ensures OnlyMoved(cfg, c, ToSet<NodeID>([]), froms, c)
  {
    NobodyMoved(cfg, c);
    hide OnlyMoved;
    Wider(cfg, c, {}, {}, c, froms);
    assert ToSet<NodeID>([]) == {};
  }

  // ---------- Polls and votes ----------

  predicate Willing(r: Raft, m: Payload)
    requires m.VoteReq?
  {
    m.term > r.term && r.leaderID == None && UpToDate(r.log, m.lastTerm, m.lastIndex)
  }

  lemma {:induction false} AllPolled(cfg: Config, c: Cluster, a: NodeID, vs: seq<NodeID>, m: Payload)
    returns (c': Cluster)
    requires cfg.Valid() && Reached(cfg, c) && Ascending(vs) && a !in vs && m.VoteReq? && m.preVote
    requires AllHere(cfg, c, vs) && ToAll(cfg, c, a, vs, m)
    requires forall v :: v in vs ==> Willing(c.nodes[v].raft, m)
    ensures OnlyMoved(cfg, c, ToSet(vs), {a}, c')
    ensures AllHere(cfg, c', vs) && Steady(c, c', vs) && AllEncourage(cfg, c', vs, a)
  {
    hide Reached, At, Awaits, OnlyMoved, UpToDate, Here, Encourages, Ascending, ToSet;
    if vs == [] {
      c' := c;
      NobodyYet(cfg, c, {a});
    } else {
      LastApart(vs);
      var n := |vs| - 1;
      var ws, v := vs[..n], vs[n];
      assert v in vs;
      var c1 := AllPolled(cfg, c, a, ws, m);
      c' := PolledToo(cfg, c, c1, a, ws, v, m);
      MovesCompose(cfg, c, ToSet(ws), {a}, c1, {v}, {a}, c');
      assert {a} + {a} == {a};
      HereStay(cfg, c1, {v}, {a}, c', ws);
      EncourageStays(cfg, c1, {v}, {a}, c', ws, a);
    }
  }

  lemma PolledToo(cfg: Config, c: Cluster, c1: Cluster, a: NodeID, ws: seq<NodeID>, v: NodeID, m: Payload)
    returns (c': Cluster)
    requires cfg.Valid() && OnlyMoved(cfg, c, ToSet(ws), {a}, c1) && v !in ToSet(ws) && m.VoteReq? && m.preVote
    requires Here(cfg, c, v) && Awaits(cfg, c, a, v, m) && Willing(c.nodes[v].raft, m)
    ensures OnlyMoved(cfg, c1, {v}, {a}, c') && Here(cfg, c', v) && Encourages(cfg, c', v, a)
    ensures v in c.nodes && v in c'.nodes && c'.nodes[v].raft == c.nodes[v].raft
    ensures c'.nodes[v].clock.tick == c.nodes[v].clock.tick
  {
    hide Reached, Stands, Awaits, OnlyMoved, UpToDate;
    StillHere(cfg, c, ToSet(ws), {a}, c1, v);
    StillAwaits(cfg, c, ToSet(ws), {a}, c1, a, v, m);
    var r, tick := c.nodes[v].raft, c.nodes[v].clock.tick;
    c' := Polled(cfg, c1, a, v, m, r, tick);
    Stood(cfg, c', v, r, tick);
    assert Awaits(cfg, c', v, a, VoteResp(r.term, true, true));
  }

  lemma Stood(cfg: Config, c: Cluster, v: NodeID, r: Raft, tick: nat)
    requires At(cfg, c, v, r, tick)
    ensures Here(cfg, c, v) && v in c.nodes && c.nodes[v].raft == r && c.nodes[v].clock.tick == tick
  {
    hide Reached, Up;
  }

  // They stand where they stood and have voted for p.
  ghost predicate AllBacked(cfg: Config, c: Cluster, c': Cluster, vs: seq<NodeID>, m: Payload)
    requires m.VoteReq?
  {
    forall v :: v in vs ==>
      v in c.nodes && v in c'.nodes && c'.nodes[v].raft == AfterGrant(cfg.rule, c.nodes[v].raft, m)
      && c'.nodes[v].clock.tick == c.nodes[v].clock.tick
  }

  predicate Votable(r: Raft, m: Payload)
    requires m.VoteReq?
  {
    m.term > r.term && UpToDate(r.log, m.lastTerm, m.lastIndex)
  }

  ghost predicate AllVotable(c: Cluster, vs: seq<NodeID>, m: Payload)
    requires m.VoteReq?
  {
    forall v :: v in vs ==> v in c.nodes && Votable(c.nodes[v].raft, m)
  }

  lemma {:induction false} AllVote(cfg: Config, c: Cluster, a: NodeID, vs: seq<NodeID>, m: Payload)
    returns (c': Cluster)
    requires cfg.Valid() && Reached(cfg, c) && Ascending(vs) && a !in vs && m.VoteReq? && !m.preVote
    requires AllHere(cfg, c, vs) && ToAll(cfg, c, a, vs, m) && AllVotable(c, vs, m)
    ensures OnlyMoved(cfg, c, ToSet(vs), {a}, c') && AllHere(cfg, c', vs) && AllBacked(cfg, c, c', vs, m)
    ensures FromAll(cfg, c', vs, a, VoteResp(m.term, true, false))
  {
    hide Reached, At, Awaits, OnlyMoved, UpToDate, Here, AfterGrant, Ascending, ToSet;
    if vs == [] {
      c' := c;
      NobodyYet(cfg, c, {a});
    } else {
      LastApart(vs);
      var n := |vs| - 1;
      var ws, v := vs[..n], vs[n];
      assert v in vs;
      var c1 := AllVote(cfg, c, a, ws, m);
      c' := VotesToo(cfg, c, c1, a, ws, v, m);
      MovesCompose(cfg, c, ToSet(ws), {a}, c1, {v}, {a}, c');
      assert {a} + {a} == {a};
      HereStay(cfg, c1, {v}, {a}, c', ws);
      FromAllStays(cfg, c1, {v}, {a}, c', ws, a, VoteResp(m.term, true, false));
    }
  }

  lemma VotesToo(cfg: Config, c: Cluster, c1: Cluster, a: NodeID, ws: seq<NodeID>, v: NodeID, m: Payload)
    returns (c': Cluster)
    requires cfg.Valid() && OnlyMoved(cfg, c, ToSet(ws), {a}, c1) && v !in ToSet(ws) && m.VoteReq? && !m.preVote
    requires Here(cfg, c, v) && Awaits(cfg, c, a, v, m) && Votable(c.nodes[v].raft, m)
    ensures OnlyMoved(cfg, c1, {v}, {a}, c') && Here(cfg, c', v) && Awaits(cfg, c', v, a, VoteResp(m.term, true, false))
    ensures v in c.nodes && v in c'.nodes && c'.nodes[v].raft == AfterGrant(cfg.rule, c.nodes[v].raft, m)
    ensures c'.nodes[v].clock.tick == c.nodes[v].clock.tick
  {
    hide Reached, Stands, Awaits, OnlyMoved, UpToDate, AfterGrant;
    StillHere(cfg, c, ToSet(ws), {a}, c1, v);
    StillAwaits(cfg, c, ToSet(ws), {a}, c1, a, v, m);
    var r, tick := c.nodes[v].raft, c.nodes[v].clock.tick;
    c' := Votes(cfg, c1, a, v, m, r, tick);
    Stood(cfg, c', v, AfterGrant(cfg.rule, r, m), tick);
  }

  // ---------- Counting answers ----------

  // The yeses of vs come in; with the last of a majority p campaigns.
  lemma {:induction false} CollectPolls(cfg: Config, c: Cluster, p: NodeID, vs: seq<NodeID>, r: Raft, tick: nat)
    returns (c': Cluster)
    requires cfg.Valid() && At(cfg, c, p, r, tick) && Ascending(vs) && p !in vs && 1 <= |vs| < cfg.Quorum()
    requires AllEncourage(cfg, c, vs, p) && r.role == PreCandidate && r.preVotes == {p}
    ensures OnlyMoved(cfg, c, {p}, ToSet(vs), c')
    ensures var r1 := r.(preVotes := {p} + ToSet(vs));
      if |vs| + 1 < cfg.Quorum() then At(cfg, c', p, r1, tick)
      else At(cfg, c', p, Campaign(r1, p), tick) && Everyone(cfg, c', p, Ask(Campaign(r1, p), p))
  {
    hide Reached, At, Awaits, OnlyMoved, Everyone, Campaign, Ascending, ToSet;
    LastApart(vs);
    OneMore(p, vs);
    var n := |vs| - 1;
    var ws, v := vs[..n], vs[n];
    assert v in vs;
    assert Encourages(cfg, c, v, p);
    var t: nat :| Awaits(cfg, c, v, p, VoteResp(t, true, true));
    if ws == [] {
      c' := PollTallied(cfg, c, v, p, t, r, tick);
      assert ToSet(vs) == {v} by { OneVoter(vs); }
    } else {
      var c1 := CollectPolls(cfg, c, p, ws, r, tick);
      StillAwaits(cfg, c, {p}, ToSet(ws), c1, v, p, VoteResp(t, true, true));
      var r1 := r.(preVotes := {p} + ToSet(ws));
      c' := PollTallied(cfg, c1, v, p, t, r1, tick);
      assert r1.preVotes + {v} == {p} + ToSet(vs) && {p} + {p} == {p};
      MovesCompose(cfg, c, {p}, ToSet(ws), c1, {p}, {v}, c');
    }
  }

  // The votes of vs come in; with the last of a majority p leads.
  lemma {:induction false} CollectVotes(cfg: Config, c: Cluster, p: NodeID, vs: seq<NodeID>, r: Raft, tick: nat)
    returns (c': Cluster)
    requires cfg.Valid() && At(cfg, c, p, r, tick) && Ascending(vs) && p !in vs && 1 <= |vs| < cfg.Quorum()
    requires FromAll(cfg, c, vs, p, VoteResp(r.term, true, false))
    requires r.role == Candidate && r.votes == {p}
    ensures OnlyMoved(cfg, c, {p}, ToSet(vs), c')
    ensures var r1 := r.(votes := {p} + ToSet(vs));
      if |vs| + 1 < cfg.Quorum() then At(cfg, c', p, r1, tick)
      else At(cfg, c', p, Elected(r1, p, cfg.members), tick) && Everyone(cfg, c', p, Hello(r1, p))
  {
    hide Reached, At, Awaits, OnlyMoved, Everyone, Elected, Ascending, ToSet;
    LastApart(vs);
    OneMore(p, vs);
    var n := |vs| - 1;
    var ws, v := vs[..n], vs[n];
    assert v in vs;
    if ws == [] {
      c' := VoteTallied(cfg, c, v, p, r, tick);
      assert ToSet(vs) == {v} by { OneVoter(vs); }
    } else {
      var c1 := CollectVotes(cfg, c, p, ws, r, tick);
      StillAwaits(cfg, c, {p}, ToSet(ws), c1, v, p, VoteResp(r.term, true, false));
      var r1 := r.(votes := {p} + ToSet(ws));
      c' := VoteTallied(cfg, c1, v, p, r1, tick);
      assert r1.votes + {v} == {p} + ToSet(vs) && {p} + {p} == {p};
      MovesCompose(cfg, c, {p}, ToSet(ws), c1, {p}, {v}, c');
    }
  }

  // ---------- Everyone hears everyone's poll ----------

  // v has asked u in a straw poll, and u has yet to read it.
  ghost predicate HasPolled(cfg: Config, c: Cluster, v: NodeID, u: NodeID) {
    exists m: Payload :: m.VoteReq? && m.preVote && Awaits(cfg, c, v, u, m)
  }

  ghost predicate AllPolling(cfg: Config, c: Cluster, vs: seq<NodeID>, u: NodeID) {
    forall v :: v in vs && v != u ==> HasPolled(cfg, c, v, u)
  }

  lemma PollStays(cfg: Config, c: Cluster, who: set<NodeID>, froms: set<NodeID>, c': Cluster, v: NodeID, u: NodeID)
    requires OnlyMoved(cfg, c, who, froms, c') && HasPolled(cfg, c, v, u) && (u !in who || v !in froms)
    ensures HasPolled(cfg, c', v, u)
  {
    hide OnlyMoved, Awaits;
    var m: Payload :| m.VoteReq? && m.preVote && Awaits(cfg, c, v, u, m);
    StillAwaits(cfg, c, who, froms, c', v, u, m);
  }

  lemma PollsStay(cfg: Config, c: Cluster, who: set<NodeID>, froms: set<NodeID>, c': Cluster,
                  vs: seq<NodeID>, u: NodeID)
    requires OnlyMoved(cfg, c, who, froms, c') && AllPolling(cfg, c, vs, u)
    requires u !in who || forall v :: v in vs && v != u ==> v !in froms
    ensures AllPolling(cfg, c', vs, u)
  {
    hide OnlyMoved, HasPolled;
    forall v | v in vs && v != u
      ensures HasPolled(cfg, c', v, u)
    {
      PollStays(cfg, c, who, froms, c', v, u);
    }
  }

  // u stands as it stood and has now heard all of us besides.
  ghost predicate Attentive(cfg: Config, c: Cluster, c': Cluster, u: NodeID, us: set<NodeID>, elapsed: nat) {
    && u in c.nodes && u in c'.nodes && c'.nodes[u].raft == c.nodes[u].raft && c'.nodes[u].clock == c.nodes[u].clock
    && Stands(cfg, c'.nodes[u], c.nodes[u].raft, c.nodes[u].clock.tick, elapsed)
    && NowHeard(c'.nodes[u]) >= NowHeard(c.nodes[u]) + us
    && c'.nodes[u].links.heardFrom >= c.nodes[u].links.heardFrom + us
  }

  // Whom u would not encourage it tells so.
  ghost predicate Discouraged(cfg: Config, c: Cluster, u: NodeID, vs: seq<NodeID>, t: nat) {
    forall v :: v in vs && v != u ==> Awaits(cfg, c, u, v, VoteResp(t, false, true))
  }

  lemma ReadsOne(cfg: Config, c: Cluster, u: NodeID, v: NodeID, elapsed: nat) returns (c': Cluster)
    requires cfg.Valid() && Reached(cfg, c) && u in cfg.members && u in c.nodes && v != u
    requires Stands(cfg, c.nodes[u], c.nodes[u].raft, c.nodes[u].clock.tick, elapsed) && HasPolled(cfg, c, v, u)
    ensures OnlyMoved(cfg, c, {u}, {v}, c') && Attentive(cfg, c, c', u, {v}, elapsed)
    ensures c.nodes[u].raft.leaderID.Some? && elapsed < cfg.timeout ==>
      Awaits(cfg, c', u, v, VoteResp(c.nodes[u].raft.term, false, true))
  {
    hide Reached, Awaits, OnlyMoved, Up;
    var m: Payload :| m.VoteReq? && m.preVote && Awaits(cfg, c, v, u, m);
    c' := Hears(cfg, c, v, u, m, c.nodes[u].raft, c.nodes[u].clock.tick, elapsed);
  }

  lemma StillDiscouraged(cfg: Config, c: Cluster, u: NodeID, v: NodeID, c': Cluster, vs: seq<NodeID>, t: nat)
    requires OnlyMoved(cfg, c, {u}, {v}, c') && Discouraged(cfg, c, u, vs, t)
    ensures Discouraged(cfg, c', u, vs, t)
  {
    hide OnlyMoved, Awaits;
    forall w | w in vs && w != u
      ensures Awaits(cfg, c', u, w, VoteResp(t, false, true))
    {
      StillAwaits(cfg, c, {u}, {v}, c', u, w, VoteResp(t, false, true));
    }
  }

  lemma NoVoter(vs: seq<NodeID>)
    requires vs == []
    ensures ToSet(vs) == {}
  {
  }

  lemma {:induction false} ReadsAll(cfg: Config, c: Cluster, u: NodeID, vs: seq<NodeID>, elapsed: nat)
    returns (c': Cluster)
    requires cfg.Valid() && Reached(cfg, c) && u in cfg.members && u in c.nodes && Ascending(vs)
    requires Stands(cfg, c.nodes[u], c.nodes[u].raft, c.nodes[u].clock.tick, elapsed) && AllPolling(cfg, c, vs, u)
    ensures OnlyMoved(cfg, c, {u}, ToSet(vs), c') && Attentive(cfg, c, c', u, ToSet(vs) - {u}, elapsed)
    ensures c.nodes[u].raft.leaderID.Some? && elapsed < cfg.timeout ==>
      Discouraged(cfg, c', u, vs, c.nodes[u].raft.term)
  {
    hide Reached, Awaits, OnlyMoved, Stands, HasPolled, Ascending, ToSet, NowHeard;
    if vs == [] {
      c' := c;
      StaysPut(cfg, c, u, ToSet(vs));
      assert ToSet(vs) - {u} == {} by { NoVoter(vs); }
    } else {
      LastApart(vs);
      var n := |vs| - 1;
      var ws, v := vs[..n], vs[n];
      assert v in vs;
      var c1 := ReadsAll(cfg, c, u, ws, elapsed);
      if v == u {
        c' := c1;
        Wider(cfg, c, {u}, ToSet(ws), c', ToSet(vs));
        assert ToSet(vs) - {u} == ToSet(ws) - {u};
      } else {
        MovedReached(cfg, c, {u}, ToSet(ws), c1);
        PollStays(cfg, c, {u}, ToSet(ws), c1, v, u);
        c' := ReadsOne(cfg, c1, u, v, elapsed);
        MovesCompose(cfg, c, {u}, ToSet(ws), c1, {u}, {v}, c');
        assert {u} + {u} == {u};
        if c.nodes[u].raft.leaderID.Some? && elapsed < cfg.timeout {
          StillDiscouraged(cfg, c1, u, v, c', ws, c.nodes[u].raft.term);
        }
      }
    }
  }

  // ---------- A round of polls ----------

  ghost predicate AllCurrent(cfg: Config, c: Cluster, vs: seq<NodeID>) {
    forall v :: v in vs ==> v in c.nodes && Current(cfg, c.nodes[v])
  }

  lemma CurrentStay(cfg: Config, c: Cluster, who: set<NodeID>, froms: set<NodeID>, c': Cluster, vs: seq<NodeID>)
    requires OnlyMoved(cfg, c, who, froms, c') && AllCurrent(cfg, c, vs) && forall v :: v in vs ==> v !in who
    ensures AllCurrent(cfg, c', vs)
  {
    hide Current, Reached;
  }

  lemma PartyIsCurrent(cfg: Config, s: NodeState, u: NodeID, vs: seq<NodeID>, p: NodeID)
    requires s.id == u && u in vs && p !in vs && p in cfg.members && Ascending(vs) && |vs| + 1 >= cfg.Quorum()
    requires forall v :: v in vs ==> v in cfg.members
    requires NowHeard(s) >= ToSet(vs) - {u} + {p}
    ensures Current(cfg, s)
  {
    AscendingCardinality(vs);
    hide Current, NowHeard, Company, Ascending;
    assert |ToSet(vs) - {u} + {p}| == |vs|;
    HeardIsCurrent(cfg, s, ToSet(vs) - {u} + {p});
  }

  lemma AtStands(cfg: Config, c: Cluster, u: NodeID, r: Raft, tick: nat)
    requires At(cfg, c, u, r, tick)
    ensures Reached(cfg, c) && u in cfg.members && u in c.nodes && Stands(cfg, c.nodes[u], r, tick, 0)
  {
    hide Reached, Stands;
  }

  lemma StandsAt(cfg: Config, c: Cluster, u: NodeID, r: Raft, tick: nat)
    requires Reached(cfg, c) && u in cfg.members && u in c.nodes && Stands(cfg, c.nodes[u], r, tick, 0)
    ensures At(cfg, c, u, r, tick)
  {
    hide Reached, Stands;
  }

  lemma NotAmong(p: NodeID, vs: seq<NodeID>)
    requires p !in vs
    ensures p !in ToSet(vs)
  {
  }

  lemma AttentiveFacts(cfg: Config, c: Cluster, c': Cluster, u: NodeID, us: set<NodeID>, elapsed: nat)
    requires Attentive(cfg, c, c', u, us, elapsed)
    ensures u in c.nodes && u in c'.nodes && Stands(cfg, c'.nodes[u], c.nodes[u].raft, c.nodes[u].clock.tick, elapsed)
    ensures NowHeard(c'.nodes[u]) >= us
  {
    hide Stands, NowHeard;
  }

  lemma WiredName(cfg: Config, c: Cluster, p: NodeID)
    requires Reached(cfg, c) && p in cfg.members
    ensures p in c.nodes && c.nodes[p].id == p
  {
    ReachedWired(cfg, c, p);
    hide Reached;
  }

  // Reading the no of p leaves those just heard heard, and p too.
  lemma ShrugsToo(cfg: Config, c: Cluster, p: NodeID, u: NodeID, t: nat, r: Raft, tick: nat, us: set<NodeID>)
    returns (c': Cluster)
    requires cfg.Valid() && At(cfg, c, u, r, tick) && Awaits(cfg, c, p, u, VoteResp(t, false, true))
    requires NowHeard(c.nodes[u]) >= us
    ensures OnlyMoved(cfg, c, {u}, {p}, c') && At(cfg, c', u, r, tick) && NowHeard(c'.nodes[u]) >= us + {p}
  {
    hide Reached, Awaits, OnlyMoved, Up;
    c' := Shrugs(cfg, c, p, u, t, r, tick);
  }

  // u reads what the others of vs have asked, and p's no to what it asked itself.
  lemma CatchesUp(cfg: Config, c: Cluster, p: NodeID, vs: seq<NodeID>, u: NodeID, t: nat) returns (c': Cluster)
    requires cfg.Valid() && Here(cfg, c, u) && u in vs && p !in vs && p in cfg.members && Ascending(vs)
    requires |vs| + 1 >= cfg.Quorum() && forall v :: v in vs ==> v in cfg.members
    requires AllPolling(cfg, c, vs, u) && Awaits(cfg, c, p, u, VoteResp(t, false, true))
    ensures OnlyMoved(cfg, c, {u}, ToSet(vs) + {p}, c') && Here(cfg, c', u) && Current(cfg, c'.nodes[u])
    ensures u in c.nodes && u in c'.nodes && c'.nodes[u].raft == c.nodes[u].raft
    ensures c'.nodes[u].clock.tick == c.nodes[u].clock.tick
  {
    hide *;
    IsHere(cfg, c, u);
    var r, tick := c.nodes[u].raft, c.nodes[u].clock.tick;
    AtStands(cfg, c, u, r, tick);
    var c1 := ReadsAll(cfg, c, u, vs, 0);
    MovedReached(cfg, c, {u}, ToSet(vs), c1);
    NotAmong(p, vs);
    StillAwaits(cfg, c, {u}, ToSet(vs), c1, p, u, VoteResp(t, false, true));
    AttentiveFacts(cfg, c, c1, u, ToSet(vs) - {u}, 0);
    StandsAt(cfg, c1, u, r, tick);
    c' := ShrugsToo(cfg, c1, p, u, t, r, tick, ToSet(vs) - {u});
    MovesCompose(cfg, c, {u}, ToSet(vs), c1, {u}, {p}, c');
    assert {u} + {u} == {u};
    Stood(cfg, c', u, r, tick);
    AtStands(cfg, c', u, r, tick);
    WiredName(cfg, c', u);
    PartyIsCurrent(cfg, c'.nodes[u], u, vs, p);
  }

  lemma {:induction false} AllCatchUp(cfg: Config, c: Cluster, p: NodeID, vs: seq<NodeID>, us: seq<NodeID>, t: nat)
    returns (c': Cluster)
    requires cfg.Valid() && Reached(cfg, c) && p !in vs && p in cfg.members && Ascending(vs) && Ascending(us)
    requires |vs| + 1 >= cfg.Quorum() && (forall v :: v in vs ==> v in cfg.members) && forall u :: u in us ==> u in vs
    requires AllHere(cfg, c, us) && ToAll(cfg, c, p, us, VoteResp(t, false, true))
    requires forall u :: u in us ==> AllPolling(cfg, c, vs, u)
    ensures OnlyMoved(cfg, c, ToSet(us), ToSet(vs) + {p}, c')
    ensures AllHere(cfg, c', us) && Steady(c, c', us) && AllCurrent(cfg, c', us)
  {
    hide Reached, At, Awaits, OnlyMoved, Here, AllPolling, Current, Ascending, ToSet;
    if us == [] {
      c' := c;
      NobodyYet(cfg, c, ToSet(vs) + {p});
    } else {
      LastApart(us);
      var n := |us| - 1;
      var ws, u := us[..n], us[n];
      assert u in us;
      var c1 := AllCatchUp(cfg, c, p, vs, ws, t);
      var froms := ToSet(vs) + {p};
      StillHere(cfg, c, ToSet(ws), froms, c1, u);
      PollsStay(cfg, c, ToSet(ws), froms, c1, vs, u);
      StillAwaits(cfg, c, ToSet(ws), froms, c1, p, u, VoteResp(t, false, true));
      c' := CatchesUp(cfg, c1, p, vs, u, t);
      MovesCompose(cfg, c, ToSet(ws), froms, c1, {u}, froms, c');
      assert froms + froms == froms;
      HereStay(cfg, c1, {u}, froms, c', ws);
      CurrentStay(cfg, c1, {u}, froms, c', ws);
      IsHere(cfg, c, u);
    }
  }

  // vs have polled everyone, and none of them leads.
  ghost predicate Rallied(cfg: Config, c: Cluster, vs: seq<NodeID>) {
    && AllHere(cfg, c, vs) && (forall v :: v in vs ==> v in c.nodes && c.nodes[v].raft.role != Leader)
    && forall u :: u in vs ==> AllPolling(cfg, c, vs, u)
  }

  // The leader p and all of vs read the polls of vs: p has heard from a majority, and
  // each of vs from enough others to run again.
  lemma Confers(cfg: Config, c: Cluster, p: NodeID, vs: seq<NodeID>, r: Raft) returns (c': Cluster)
    requires cfg.Valid() && Reigns(cfg, c, p, r, 0) && r.leaderID.Some? && p !in vs && Ascending(vs)
    requires |vs| + 1 >= cfg.Quorum() && forall v :: v in vs ==> v in cfg.members
    requires Rallied(cfg, c, vs) && AllPolling(cfg, c, vs, p)
    ensures OnlyMoved(cfg, c, {p} + ToSet(vs), ToSet(vs) + {p}, c') && Reigns(cfg, c', p, r, 0)
    ensures HasHeardFromQuorum(cfg, c'.nodes[p])
    ensures c'.nodes[p].clock.heartbeatElapsed == c.nodes[p].clock.heartbeatElapsed
    ensures AllHere(cfg, c', vs) && Steady(c, c', vs) && AllCurrent(cfg, c', vs)
  {
    hide Reached, Awaits, OnlyMoved, Here, Current, HasPolled, Ascending, Up, Indexed, HasHeardFromQuorum;
    assert p !in ToSet(vs);
    var c1 := ReadsAll(cfg, c, p, vs, 0);
    HereStay(cfg, c, {p}, ToSet(vs), c1, vs);
    MovedReached(cfg, c, {p}, ToSet(vs), c1);
    forall u | u in vs
      ensures AllPolling(cfg, c1, vs, u)
    {
      PollsStay(cfg, c, {p}, ToSet(vs), c1, vs, u);
    }
    assert ToAll(cfg, c1, p, vs, VoteResp(r.term, false, true));
    c' := AllCatchUp(cfg, c1, p, vs, vs, r.term);
    MovesCompose(cfg, c, {p}, ToSet(vs), c1, ToSet(vs), ToSet(vs) + {p}, c');
    assert ToSet(vs) + (ToSet(vs) + {p}) == ToSet(vs) + {p};
    StillReigns(cfg, c1, ToSet(vs), ToSet(vs) + {p}, c', p, r, 0);
    HeardMajority(cfg, c'.nodes[p], p, vs);
  }

  lemma HeardMajority(cfg: Config, s: NodeState, p: NodeID, vs: seq<NodeID>)
    requires s.links.heardFrom >= ToSet(vs) - {p} && p !in vs && Ascending(vs) && |vs| + 1 >= cfg.Quorum()
    ensures HasHeardFromQuorum(cfg, s)
  {
    AscendingCardinality(vs);
    assert ToSet(vs) - {p} == ToSet(vs);
    SubsetCardinality(ToSet(vs), s.links.heardFrom);
  }

  // ---------- Until the next heartbeat ----------

  lemma MovesAgain(cfg: Config, c: Cluster, who1: set<NodeID>, c1: Cluster, who2: set<NodeID>, c2: Cluster)
    requires OnlyMoved(cfg, c, who1, {}, c1) && OnlyMoved(cfg, c1, who2, {}, c2)
    ensures OnlyMoved(cfg, c, who1 + who2, {}, c2)
  {
    MovesCompose(cfg, c, who1, {}, c1, who2, {}, c2);
    hide OnlyMoved;
    var none: set<NodeID> := {};
    assert none + none == none;
  }

  // A leader that has heard from a majority lasts to the end of the window, or beats.
  lemma {:induction false} Window(cfg: Config, c: Cluster, p: NodeID, r: Raft, elapsed: nat)
    returns (c': Cluster, beaten: bool)
    requires cfg.Valid() && cfg.mode != Baseline && Reigns(cfg, c, p, r, elapsed) && elapsed < cfg.timeout
    requires HasHeardFromQuorum(cfg, c.nodes[p])
    ensures OnlyMoved(cfg, c, {p}, {}, c') && p in c'.nodes && c'.nodes[p].raft == r
    ensures beaten ==> EachAsked(cfg, c', p, r)
    ensures !beaten ==> Reigns(cfg, c', p, r, 0)
    ensures !beaten ==> c.nodes[p].clock.heartbeatElapsed < c'.nodes[p].clock.heartbeatElapsed < cfg.heartbeat
    decreases cfg.timeout - elapsed
  {
    hide Reached, OnlyMoved, Stands, EachAsked, Indexed;
    c' := ReignsOn(cfg, c, p, r, elapsed);
    ReigningRaft(cfg, c', p, r, if Checks(cfg, elapsed) then 0 else elapsed + 1);
    beaten := c.nodes[p].clock.heartbeatElapsed + 1 >= cfg.heartbeat;
    if !beaten && elapsed + 1 < cfg.timeout {
      var c1 := c';
      c', beaten := Window(cfg, c1, p, r, elapsed + 1);
      MovesAgain(cfg, c, {p}, c1, {p}, c');
      assert {p} + {p} == {p};
    }
  }

  lemma ReigningRaft(cfg: Config, c: Cluster, p: NodeID, r: Raft, elapsed: nat)
    requires Reigns(cfg, c, p, r, elapsed)
    ensures p in c.nodes && p in cfg.members && c.nodes[p].raft == r && Reached(cfg, c)
  {
    hide Reached, Indexed, Up;
  }

  // Baseline leaders never check.
  lemma {:induction false} ReignsAlone(cfg: Config, c: Cluster, p: NodeID, r: Raft, elapsed: nat)
    returns (c': Cluster)
    requires cfg.Valid() && cfg.mode == Baseline && Reigns(cfg, c, p, r, elapsed)
    ensures OnlyMoved(cfg, c, {p}, {}, c') && p in c'.nodes && c'.nodes[p].raft == r && EachAsked(cfg, c', p, r)
    decreases cfg.heartbeat - c.nodes[p].clock.heartbeatElapsed
  {
    hide Reached, OnlyMoved, Stands, EachAsked, Indexed;
    c' := ReignsOn(cfg, c, p, r, elapsed);
    ReigningRaft(cfg, c', p, r, elapsed + 1);
    if c.nodes[p].clock.heartbeatElapsed + 1 < cfg.heartbeat {
      var c1 := c';
      c' := ReignsAlone(cfg, c1, p, r, elapsed + 1);
      MovesAgain(cfg, c, {p}, c1, {p}, c');
      assert {p} + {p} == {p};
    }
  }

  // v has not changed its mind about anything but when to run.
  ghost predicate SameView(a: Raft, b: Raft) {
    && b.term == a.term && b.log == a.log && b.leaderID == a.leaderID && b.commitIndex == a.commitIndex
    && b.role != Leader
  }

  ghost predicate SameViews(c: Cluster, c': Cluster, vs: seq<NodeID>) {
    forall v :: v in vs ==> v in c.nodes && v in c'.nodes && SameView(c.nodes[v].raft, c'.nodes[v].raft)
  }

  // Everyone else has v's poll before it.
  ghost predicate PolledOut(cfg: Config, c: Cluster, v: NodeID) {
    forall q :: q in cfg.members && q != v ==> HasPolled(cfg, c, v, q)
  }

  ghost predicate AllPolledOut(cfg: Config, c: Cluster, vs: seq<NodeID>) {
    forall v :: v in vs ==> PolledOut(cfg, c, v)
  }

  lemma PolledOutStay(cfg: Config, c: Cluster, who: set<NodeID>, froms: set<NodeID>, c': Cluster, vs: seq<NodeID>)
    requires OnlyMoved(cfg, c, who, froms, c') && AllPolledOut(cfg, c, vs) && forall v :: v in vs ==> v !in froms
    ensures AllPolledOut(cfg, c', vs)
  {
    hide OnlyMoved, HasPolled;
    forall v, q | v in vs && q in cfg.members && q != v
      ensures HasPolled(cfg, c', v, q)
    {
      assert PolledOut(cfg, c, v);
      PollStays(cfg, c, who, froms, c', v, q);
    }
  }

  // v's timer runs out, and it polls everyone.
  lemma PollsAgain(cfg: Config, c: Cluster, v: NodeID) returns (c': Cluster)
    requires cfg.Valid() && cfg.mode != Baseline && Here(cfg, c, v) && c.nodes[v].raft.role != Leader
    requires cfg.mode == CrossFault && c.nodes[v].clock.tick > 0 ==> Current(cfg, c.nodes[v])
    ensures OnlyMoved(cfg, c, {v}, {}, c') && Here(cfg, c', v) && PolledOut(cfg, c', v)
    ensures v in c.nodes && v in c'.nodes && SameView(c.nodes[v].raft, c'.nodes[v].raft)
  {
    IsHere(cfg, c, v);
    hide Reached, Stands, Awaits, OnlyMoved, Current;
    var r, tick := c.nodes[v].raft, c.nodes[v].clock.tick;
    c' := Expires(cfg, c, v, r, tick);
    Stood(cfg, c', v, PreCampaign(r, v), tick + cfg.timeout);
    forall q | q in cfg.members && q != v
      ensures HasPolled(cfg, c', v, q)
    {
      assert Awaits(cfg, c', v, q, NextAsk(cfg, r, v));
    }
  }

  lemma {:induction false} AllPollAgain(cfg: Config, c: Cluster, vs: seq<NodeID>) returns (c': Cluster)
    requires cfg.Valid() && cfg.mode != Baseline && Reached(cfg, c) && Ascending(vs) && AllHere(cfg, c, vs)
    requires forall v :: v in vs ==> v in c.nodes && c.nodes[v].raft.role != Leader
    requires cfg.mode == CrossFault ==> AllCurrent(cfg, c, vs)
    ensures OnlyMoved(cfg, c, ToSet(vs), {}, c') && AllHere(cfg, c', vs) && SameViews(c, c', vs)
    ensures AllPolledOut(cfg, c', vs)
  {
    hide Reached, At, OnlyMoved, Here, PolledOut, Current, Ascending, ToSet, SameView;
    if vs == [] {
      c' := c;
      NobodyYet(cfg, c, {});
    } else {
      LastApart(vs);
      var n := |vs| - 1;
      var ws, v := vs[..n], vs[n];
      assert v in vs;
      var c1 := AllPollAgain(cfg, c, ws);
      StillHere(cfg, c, ToSet(ws), {}, c1, v);
      c' := PollsAgain(cfg, c1, v);
      MovesAgain(cfg, c, ToSet(ws), c1, {v}, c');
      HereStay(cfg, c1, {v}, {}, c', ws);
      PolledOutStay(cfg, c1, {v}, {}, c', ws);
      IsHere(cfg, c, v);
    }
  }

  lemma ViewsChain(c: Cluster, c1: Cluster, c2: Cluster, vs: seq<NodeID>)
    requires Steady(c, c1, vs) && SameViews(c1, c2, vs)
    ensures SameViews(c, c2, vs)
  {
  }

  lemma ViewsCompose(c: Cluster, c1: Cluster, c2: Cluster, vs: seq<NodeID>)
    requires SameViews(c, c1, vs) && SameViews(c1, c2, vs)
    ensures SameViews(c, c2, vs)
  {
  }

  lemma StillRallied(cfg: Config, c: Cluster, c': Cluster, vs: seq<NodeID>, p: NodeID)
    requires AllHere(cfg, c', vs) && SameViews(c, c', vs) && AllPolledOut(cfg, c', vs)
    requires (forall v :: v in vs ==> v in cfg.members) && p in cfg.members
    ensures Rallied(cfg, c', vs) && AllPolling(cfg, c', vs, p)
  {
    hide HasPolled, Here;
    assert forall v :: v in vs ==> PolledOut(cfg, c', v);
  }

  // With pre-vote a leader checks for a majority; the polls of vs carry it from check
  // to check until it beats, and then vs have polled again.
  lemma {:induction false} ReignsAmong(cfg: Config, c: Cluster, p: NodeID, vs: seq<NodeID>, r: Raft)
    returns (c': Cluster)
    requires cfg.Valid() && cfg.mode != Baseline && Reigns(cfg, c, p, r, 0) && r.leaderID.Some?
    requires p !in vs && Ascending(vs) && |vs| + 1 >= cfg.Quorum() && forall v :: v in vs ==> v in cfg.members
    requires Rallied(cfg, c, vs) && AllPolling(cfg, c, vs, p)
    ensures OnlyMoved(cfg, c, {p} + ToSet(vs), ToSet(vs) + {p}, c') && p in c'.nodes && c'.nodes[p].raft == r
    ensures EachAsked(cfg, c', p, r)
    ensures AllHere(cfg, c', vs) && SameViews(c, c', vs) && AllPolledOut(cfg, c', vs)
    decreases cfg.heartbeat - c.nodes[p].clock.heartbeatElapsed
  {
    hide Reached, OnlyMoved, Stands, EachAsked, Indexed, Here, Current, PolledOut, HasPolled, SameView;
    hide HasHeardFromQuorum, Ascending, ToSet;
    ReigningRaft(cfg, c, p, r, 0);
    NotAmong(p, vs);
    var c1 := Confers(cfg, c, p, vs, r);
    var c2, beaten := Window(cfg, c1, p, r, 0);
    var c3 := Recover(cfg, c, c1, p, vs, c2);
    if beaten {
      c' := c3;
      AskedStays(cfg, c2, ToSet(vs), c3, p, r);
    } else {
      StillReigns(cfg, c2, ToSet(vs), {}, c3, p, r, 0);
      StillRallied(cfg, c, c3, vs, p);
      c' := ReignsAmong(cfg, c3, p, vs, r);
      ViewsCompose(c, c3, c', vs);
      var who := {p} + ToSet(vs);
      MovesCompose(cfg, c, who, ToSet(vs) + {p}, c3, who, ToSet(vs) + {p}, c');
      assert who + who == who && ToSet(vs) + {p} + (ToSet(vs) + {p}) == ToSet(vs) + {p};
    }
  }

  lemma AskedStays(cfg: Config, c: Cluster, who: set<NodeID>, c': Cluster, p: NodeID, r: Raft)
    requires OnlyMoved(cfg, c, who, {}, c') && EachAsked(cfg, c, p, r)
    ensures EachAsked(cfg, c', p, r)
  {
    hide OnlyMoved, Awaits, AppendFor;
    forall q | q in cfg.members && q != p
      ensures Awaits(cfg, c', p, q, AppendFor(r, p, q))
    {
      StillAwaits(cfg, c, who, {}, c', p, q, AppendFor(r, p, q));
    }
  }

  // After the leader's window each of vs polls again.
  lemma Recover(cfg: Config, c: Cluster, c1: Cluster, p: NodeID, vs: seq<NodeID>, c2: Cluster) returns (c': Cluster)
    requires cfg.Valid() && cfg.mode != Baseline && p !in vs && Ascending(vs) && Rallied(cfg, c, vs)
    requires OnlyMoved(cfg, c, {p} + ToSet(vs), ToSet(vs) + {p}, c1) && OnlyMoved(cfg, c1, {p}, {}, c2)
    requires AllHere(cfg, c1, vs) && Steady(c, c1, vs) && AllCurrent(cfg, c1, vs)
    ensures OnlyMoved(cfg, c2, ToSet(vs), {}, c')
    ensures OnlyMoved(cfg, c, {p} + ToSet(vs), ToSet(vs) + {p}, c')
    ensures AllHere(cfg, c', vs) && SameViews(c, c', vs) && AllPolledOut(cfg, c', vs)
    ensures p in c2.nodes ==> p in c'.nodes && c'.nodes[p] == c2.nodes[p]
  {
    hide Reached, OnlyMoved, Here, Current, PolledOut, HasPolled, SameView, Ascending;
    MovedReached(cfg, c1, {p}, {}, c2);
    HereStay(cfg, c1, {p}, {}, c2, vs);
    CurrentStay(cfg, c1, {p}, {}, c2, vs);
    c' := AllPollAgain(cfg, c2, vs);
    ViewsChain(c, c2, c', vs);
    var who, froms := {p} + ToSet(vs), ToSet(vs) + {p};
    MovesCompose(cfg, c, who, froms, c1, {p}, {}, c2);
    MovesCompose(cfg, c, who + {p}, froms + {}, c2, ToSet(vs), {}, c');
    assert who + {p} + ToSet(vs) == who && froms + {} + {} == froms;
    NotMoved(cfg, c2, ToSet(vs), {}, c', p);
  }

  lemma NotMoved(cfg: Config, c: Cluster, who: set<NodeID>, froms: set<NodeID>, c': Cluster, p: NodeID)
    requires OnlyMoved(cfg, c, who, froms, c') && p !in who
    ensures p in c.nodes <==> p in c'.nodes
    ensures p in c.nodes ==> c'.nodes[p] == c.nodes[p]
  {
    hide Reached;
  }

  // p reigns until everyone has been asked to take what it lacks.
  lemma Replicates(cfg: Config, c: Cluster, p: NodeID, vs: seq<NodeID>, r: Raft) returns (c': Cluster)
    requires cfg.Valid() && Reigns(cfg, c, p, r, 0) && r.leaderID.Some? && AllHere(cfg, c, vs)
    requires p !in vs && Ascending(vs) && |vs| + 1 >= cfg.Quorum() && forall v :: v in vs ==> v in cfg.members
    requires forall v :: v in vs ==> v in c.nodes && c.nodes[v].raft.role != Leader
    requires cfg.mode != Baseline ==> Rallied(cfg, c, vs) && AllPolling(cfg, c, vs, p)
    ensures OnlyMoved(cfg, c, {p} + ToSet(vs), ToSet(vs) + {p}, c') && p in c'.nodes && c'.nodes[p].raft == r
    ensures EachAsked(cfg, c', p, r) && AllHere(cfg, c', vs) && SameViews(c, c', vs)
    ensures cfg.mode != Baseline ==> AllPolledOut(cfg, c', vs)
  {
    if cfg.mode == Baseline {
      hide Reached, Stands, OnlyMoved, Here, Ascending;
      c' := ReignsAlone(cfg, c, p, r, 0);
      HereStay(cfg, c, {p}, {}, c', vs);
      MovesWide(cfg, c, {p}, c', {p} + ToSet(vs), ToSet(vs) + {p});
    } else {
      hide *;
      c' := ReignsAmong(cfg, c, p, vs, r);
    }
  }

  // Saying that more may have moved is always right.
  lemma MovesWide(cfg: Config, c: Cluster, who: set<NodeID>, c': Cluster, who': set<NodeID>, froms: set<NodeID>)
    requires OnlyMoved(cfg, c, who, {}, c') && who <= who' && who' <= c.nodes.Keys
    ensures OnlyMoved(cfg, c, who', froms, c')
  {
    hide Reached;
    forall p | p in who'
      ensures SameHearing(c, c', p, froms)
    {
      assert p in who ==> SameHearing(c, c', p, {});
    }
  }

  // ---------- Taking, acknowledging, learning ----------

  ghost predicate AllTook(cfg: Config, c: Cluster, c': Cluster, vs: seq<NodeID>, p: NodeID, m: Payload)
    requires m.AppendReq?
  {
    forall v :: v in vs ==>
      v in c.nodes && v in c'.nodes && c'.nodes[v].raft == Took(cfg.rule, c.nodes[v].raft, p, m.term, m.entries)
  }

  // r will take the request and acknowledge one entry.
  ghost predicate Takeable(cfg: Config, r: Raft, m: Payload)
    requires m.AppendReq?
  {
    && m.term >= r.term && m.prevIndex == 0 && m.prevTerm == 0 && m.leaderCommit == 0
    && AckIndex(cfg.ack, Splice(r.log, 0, m.entries), 0, m.entries) == 1
  }

  lemma TakesToo(cfg: Config, c: Cluster, p: NodeID, v: NodeID, m: Payload) returns (c': Cluster)
    requires cfg.Valid() && Here(cfg, c, v) && m.AppendReq? && Awaits(cfg, c, p, v, m)
    requires Takeable(cfg, c.nodes[v].raft, m)
    ensures OnlyMoved(cfg, c, {v}, {p}, c') && Here(cfg, c', v) && v in c.nodes && v in c'.nodes
    ensures c'.nodes[v].raft == Took(cfg.rule, c.nodes[v].raft, p, m.term, m.entries)
    ensures c'.nodes[v].clock.tick == c.nodes[v].clock.tick
    ensures Awaits(cfg, c', v, p, AppendResp(m.term, true, 1, 0))
  {
    IsHere(cfg, c, v);
    hide Reached, Stands, Awaits, OnlyMoved, Splice, Heeded;
    var r, tick := c.nodes[v].raft, c.nodes[v].clock.tick;
    c' := Takes(cfg, c, p, v, m, r, tick);
    Stood(cfg, c', v, Took(cfg.rule, r, p, m.term, m.entries), tick);
  }

  lemma {:induction false} AllTake(cfg: Config, c: Cluster, p: NodeID, vs: seq<NodeID>, m: Payload)
    returns (c': Cluster)
    requires cfg.Valid() && Reached(cfg, c) && Ascending(vs) && p !in vs && m.AppendReq?
    requires AllHere(cfg, c, vs) && ToAll(cfg, c, p, vs, m)
    requires forall v :: v in vs ==> v in c.nodes && Takeable(cfg, c.nodes[v].raft, m)
    ensures OnlyMoved(cfg, c, ToSet(vs), {p}, c') && AllHere(cfg, c', vs) && AllTook(cfg, c, c', vs, p, m)
    ensures FromAll(cfg, c', vs, p, AppendResp(m.term, true, 1, 0))
  {
    hide Reached, At, Awaits, OnlyMoved, Here, Took, Takeable, Ascending, ToSet;
    if vs == [] {
      c' := c;
      NobodyYet(cfg, c, {p});
    } else {
      LastApart(vs);
      var n := |vs| - 1;
      var ws, v := vs[..n], vs[n];
      assert v in vs;
      var c1 := AllTake(cfg, c, p, ws, m);
      StillHere(cfg, c, ToSet(ws), {p}, c1, v);
      StillAwaits(cfg, c, ToSet(ws), {p}, c1, p, v, m);
      c' := TakesToo(cfg, c1, p, v, m);
      MovesCompose(cfg, c, ToSet(ws), {p}, c1, {v}, {p}, c');
      assert {p} + {p} == {p};
      HereStay(cfg, c1, {v}, {p}, c', ws);
      FromAllStays(cfg, c1, {v}, {p}, c', ws, p, AppendResp(m.term, true, 1, 0));
    }
  }

  // r has been told by exactly those of s that they have its one entry.
  ghost predicate ToldBy(cfg: Config, r: Raft, p: NodeID, s: set<NodeID>) {
    && |r.log| == 1 && r.log[0].term == r.term && r.role == Leader
    && forall m :: m in cfg.members && m != p ==> Get(r.matchIndex, m) == if m in s then 1 else 0
  }

  lemma CommitsWhenTold(cfg: Config, r: Raft, p: NodeID, s: set<NodeID>)
    requires cfg.Valid() && p in cfg.members && s <= ToSet(cfg.members) && p !in s
    requires ToldBy(cfg, r, p, s) && r.commitIndex == 0
    ensures AdvanceCommit(r, p, cfg.members) == r.(commitIndex := if |s| + 1 >= cfg.Quorum() then 1 else 0)
  {
    CommitCandidateIsExact(r, p, cfg.members, 1);
    CommitCandidateIsExact(r, p, cfg.members, 2);
    assert Replicas(r, p, cfg.members, 1) == s + {p};
    assert |s + {p}| == |s| + 1;
    assert Replicas(r, p, cfg.members, 2) == {};
    hide CommitCandidate;
  }

  lemma ToldToo(cfg: Config, r: Raft, p: NodeID, s: set<NodeID>, v: NodeID)
    requires ToldBy(cfg, r, p, s) && v != p
    ensures ToldBy(cfg, NoteMatch(r, v, 1), p, s + {v})
  {
  }

  lemma AmongMembers(cfg: Config, vs: seq<NodeID>, p: NodeID)
    requires Ascending(vs) && p !in vs && forall v :: v in vs ==> v in cfg.members
    ensures |ToSet(vs)| == |vs| && p !in ToSet(vs) && ToSet(vs) <= ToSet(cfg.members)
  {
    AscendingCardinality(vs);
  }

  // The leader hears from each of vs that it has the entry, and with the last of a
  // majority commits it.
  lemma {:induction false} LearnsAll(cfg: Config, c: Cluster, p: NodeID, vs: seq<NodeID>, r: Raft)
    returns (c': Cluster, r': Raft)
    requires cfg.Valid() && Reached(cfg, c) && p in cfg.members && p in c.nodes && c.nodes[p].raft == r
    requires Ascending(vs) && p !in vs && |vs| < cfg.Quorum() && forall v :: v in vs ==> v in cfg.members
    requires ToldBy(cfg, r, p, {}) && r.commitIndex == 0 && cfg.Quorum() >= 2
    requires FromAll(cfg, c, vs, p, AppendResp(r.term, true, 1, 0))
    ensures OnlyMoved(cfg, c, {p}, ToSet(vs), c') && p in c'.nodes && c'.nodes[p].raft == r'
    ensures ToldBy(cfg, r', p, ToSet(vs)) && r'.log == r.log && r'.term == r.term
    ensures r'.commitIndex == if |vs| + 1 >= cfg.Quorum() then 1 else 0
  {
    hide Reached, Awaits, OnlyMoved, ToldBy, Ascending, ToSet, AdvanceCommit;
    if vs == [] {
      c', r' := c, r;
      StaysPut(cfg, c, p, ToSet(vs));
      NoVoter(vs);
    } else {
      LastApart(vs);
      var n := |vs| - 1;
      var ws, v := vs[..n], vs[n];
      assert v in vs;
      var c1, r1 := LearnsAll(cfg, c, p, ws, r);
      MovedReached(cfg, c, {p}, ToSet(ws), c1);
      StillAwaits(cfg, c, {p}, ToSet(ws), c1, v, p, AppendResp(r.term, true, 1, 0));
      LeadsToldBy(cfg, r1, p, ToSet(ws));
      c' := Learns(cfg, c1, v, p, 1, r1);
      ToldToo(cfg, r1, p, ToSet(ws), v);
      AmongMembers(cfg, vs, p);
      CommitsWhenTold(cfg, NoteMatch(r1, v, 1), p, ToSet(vs));
      r' := c'.nodes[p].raft;
      SameTold(cfg, NoteMatch(r1, v, 1), r', p, ToSet(vs));
      MovesCompose(cfg, c, {p}, ToSet(ws), c1, {p}, {v}, c');
      assert {p} + {p} == {p};
    }
  }

  lemma LeadsToldBy(cfg: Config, r: Raft, p: NodeID, s: set<NodeID>)
    requires ToldBy(cfg, r, p, s)
    ensures r.role == Leader
  {
  }

  lemma SameTold(cfg: Config, r: Raft, r': Raft, p: NodeID, s: set<NodeID>)
    requires ToldBy(cfg, r, p, s) && r' == r.(commitIndex := r'.commitIndex)
    ensures ToldBy(cfg, r', p, s)
  {
  }

  // ---------- An election ----------

  // p's state when it has won the next term with the votes of vs.
  function Victor(cfg: Config, r: Raft, p: NodeID, vs: seq<NodeID>): Raft {
    Elected(Campaign(Surveyed(cfg, r, p, vs), p).(votes := {p} + ToSet(vs)), p, cfg.members)
  }

  // p's state when it may campaign: where there is a straw poll, after it.
  function Surveyed(cfg: Config, r: Raft, p: NodeID, vs: seq<NodeID>): Raft {
    if cfg.mode == Baseline then r else PreCampaign(r, p).(preVotes := {p} + ToSet(vs))
  }

  function Candidacy(r: Raft, p: NodeID): Payload {
    VoteReq(r.term + 1, p, |r.log|, LastTerm(r.log), false)
  }

  lemma VictorFacts(cfg: Config, r: Raft, p: NodeID, vs: seq<NodeID>)
    ensures var l := Victor(cfg, r, p, vs);
      && l.role == Leader && l.term == r.term + 1 && l.log == r.log && l.commitIndex == r.commitIndex
      && l.leaderID == Some(p) && Indexed(cfg, l, p)
      && forall q :: q in cfg.members && q != p ==>
           Get(l.matchIndex, q) == 0 && Get(l.nextIndex, q) == |r.log| + 1
  {
    forall q | q in cfg.members && q != p
      ensures var l := Victor(cfg, r, p, vs);
        Get(l.matchIndex, q) == 0 && Get(l.nextIndex, q) == |r.log| + 1
    {
      HelloIsNext(cfg, Campaign(Surveyed(cfg, r, p, vs), p).(votes := {p} + ToSet(vs)), p, q);
    }
  }

  // v would follow a node with this state into the next term, and knows of no leader.
  predicate Backs(rv: Raft, rp: Raft) {
    rv.term < rp.term + 1 && rv.leaderID == None && UpToDate(rv.log, LastTerm(rp.log), |rp.log|)
  }

  ghost predicate AllBack(c: Cluster, vs: seq<NodeID>, rp: Raft) {
    forall v :: v in vs ==> v in c.nodes && Backs(c.nodes[v].raft, rp)
  }

  lemma CampaignFacts(cfg: Config, rp: Raft, p: NodeID, vs: seq<NodeID>)
    ensures var r := Campaign(Surveyed(cfg, rp, p, vs), p);
      && r.role == Candidate && r.votes == {p} && r.term == rp.term + 1
      && Candidacy(rp, p).VoteReq? && !Candidacy(rp, p).preVote && Candidacy(rp, p).term == r.term
      && Elected(r.(votes := {p} + ToSet(vs)), p, cfg.members) == Victor(cfg, rp, p, vs)
      && Hello(r.(votes := {p} + ToSet(vs)), p)
           == AppendReq(rp.term + 1, p, |rp.log|, LastTerm(rp.log), [], rp.commitIndex)
  {
    hide Elected;
  }

  lemma AtReached(cfg: Config, c: Cluster, p: NodeID, r: Raft, tick: nat)
    requires At(cfg, c, p, r, tick)
    ensures Reached(cfg, c)
  {
    hide Reached, Stands;
  }

  lemma BackedStays(cfg: Config, c: Cluster, c1: Cluster, c2: Cluster, vs: seq<NodeID>, m: Payload)
    requires m.VoteReq? && AllBacked(cfg, c, c1, vs, m) && Steady(c1, c2, vs)
    ensures AllBacked(cfg, c, c2, vs, m)
  {
    hide AfterGrant;
  }

  // A majority of votes elects.
  lemma Ballots(cfg: Config, c: Cluster, p: NodeID, vs: seq<NodeID>, rp: Raft, tp: nat) returns (c': Cluster)
    requires cfg.Valid() && Ascending(vs) && p !in vs && 1 <= |vs| == cfg.Quorum() - 1
    requires At(cfg, c, p, Campaign(Surveyed(cfg, rp, p, vs), p), tp) && ToAll(cfg, c, p, vs, Candidacy(rp, p))
    requires AllHere(cfg, c, vs) && AllVotable(c, vs, Candidacy(rp, p))
    ensures OnlyMoved(cfg, c, {p} + ToSet(vs), ToSet(vs) + {p}, c') && At(cfg, c', p, Victor(cfg, rp, p, vs), tp)
    ensures AllHere(cfg, c', vs) && AllBacked(cfg, c, c', vs, Candidacy(rp, p))
    ensures Everyone(cfg, c', p, AppendReq(rp.term + 1, p, |rp.log|, LastTerm(rp.log), [], rp.commitIndex))
  {
    hide *;
    var r, m := Campaign(Surveyed(cfg, rp, p, vs), p), Candidacy(rp, p);
    AtReached(cfg, c, p, r, tp);
    CampaignFacts(cfg, rp, p, vs);
    NotAmong(p, vs);
    var c1 := AllVote(cfg, c, p, vs, m);
    StillAt(cfg, c, ToSet(vs), {p}, c1, p, r, tp);
    c' := CollectVotes(cfg, c1, p, vs, r, tp);
    HereStay(cfg, c1, {p}, ToSet(vs), c', vs);
    BackedStays(cfg, c, c1, c', vs, m);
    MovesCompose(cfg, c, ToSet(vs), {p}, c1, {p}, ToSet(vs), c');
    assert ToSet(vs) + {p} == {p} + ToSet(vs);
  }

  lemma SurveyFacts(cfg: Config, rp: Raft, p: NodeID, vs: seq<NodeID>)
    requires cfg.mode != Baseline
    ensures var r := PreCampaign(rp, p); r.role == PreCandidate && r.preVotes == {p}
    ensures var r1 := PreCampaign(rp, p).(preVotes := {p} + ToSet(vs));
      r1 == Surveyed(cfg, rp, p, vs) && Ask(Campaign(r1, p), p) == Candidacy(rp, p)
    ensures NextAsk(cfg, rp, p).VoteReq? && NextAsk(cfg, rp, p).preVote
  {
  }

  lemma BackersAgree(cfg: Config, c: Cluster, vs: seq<NodeID>, rp: Raft, p: NodeID)
    requires AllBack(c, vs, rp)
    ensures NextAsk(cfg, rp, p).VoteReq? && Candidacy(rp, p).VoteReq?
    ensures forall v :: v in vs ==> v in c.nodes && Willing(c.nodes[v].raft, NextAsk(cfg, rp, p))
    ensures AllVotable(c, vs, Candidacy(rp, p))
  {
    hide UpToDate;
  }

  lemma StillBack(c: Cluster, c': Cluster, vs: seq<NodeID>, rp: Raft)
    requires AllBack(c, vs, rp) && Steady(c, c', vs)
    ensures AllBack(c', vs, rp)
  {
    hide Backs;
  }

  lemma SteadyChain(c: Cluster, c1: Cluster, c2: Cluster, vs: seq<NodeID>)
    requires Steady(c, c1, vs) && Steady(c1, c2, vs)
    ensures Steady(c, c2, vs)
  {
  }

  // The straw poll of a majority carries.
  lemma Surveys(cfg: Config, c: Cluster, p: NodeID, vs: seq<NodeID>, rp: Raft, tp: nat) returns (c': Cluster)
    requires cfg.Valid() && cfg.mode != Baseline && Ascending(vs) && p !in vs && 1 <= |vs| == cfg.Quorum() - 1
    requires At(cfg, c, p, PreCampaign(rp, p), tp) && ToAll(cfg, c, p, vs, NextAsk(cfg, rp, p))
    requires AllHere(cfg, c, vs) && AllBack(c, vs, rp)
    ensures OnlyMoved(cfg, c, {p} + ToSet(vs), ToSet(vs) + {p}, c') && AllHere(cfg, c', vs) && Steady(c, c', vs)
    ensures At(cfg, c', p, Campaign(Surveyed(cfg, rp, p, vs), p), tp) && Everyone(cfg, c', p, Candidacy(rp, p))
  {
    hide *;
    AtReached(cfg, c, p, PreCampaign(rp, p), tp);
    SurveyFacts(cfg, rp, p, vs);
    BackersAgree(cfg, c, vs, rp, p);
    NotAmong(p, vs);
    var c1 := AllPolled(cfg, c, p, vs, NextAsk(cfg, rp, p));
    StillAt(cfg, c, ToSet(vs), {p}, c1, p, PreCampaign(rp, p), tp);
    c' := CollectPolls(cfg, c1, p, vs, PreCampaign(rp, p), tp);
    HereStay(cfg, c1, {p}, ToSet(vs), c', vs);
    SteadyChain(c, c1, c', vs);
    MovesCompose(cfg, c, ToSet(vs), {p}, c1, {p}, ToSet(vs), c');
    assert ToSet(vs) + {p} == {p} + ToSet(vs);
  }

  lemma OneAsked(cfg: Config, c: Cluster, p: NodeID, m: Payload, q: NodeID)
    requires Everyone(cfg, c, p, m) && q in cfg.members && q != p
    ensures Awaits(cfg, c, p, q, m)
  {
    hide Awaits;
  }

  lemma RunnerFacts(cfg: Config, r: Raft, p: NodeID, vs: seq<NodeID>)
    ensures if cfg.mode == Baseline
            then Runner(cfg, r, p) == Campaign(Surveyed(cfg, r, p, vs), p) && NextAsk(cfg, r, p) == Candidacy(r, p)
            else Runner(cfg, r, p) == PreCampaign(r, p)
  {
  }

  lemma MembersHere(cfg: Config, c: Cluster, p: NodeID, vs: seq<NodeID>)
    requires p in c.nodes && AllHere(cfg, c, vs)
    ensures {p} + ToSet(vs) <= c.nodes.Keys
  {
    hide At;
  }

  // p's timer has run out, and those of vs say they would vote for it where they are
  // asked that first.
  lemma Canvasses(cfg: Config, c: Cluster, p: NodeID, vs: seq<NodeID>, rp: Raft, tp: nat) returns (c': Cluster)
    requires cfg.Valid() && Ascending(vs) && p !in vs && 1 <= |vs| == cfg.Quorum() - 1
    requires At(cfg, c, p, Runner(cfg, rp, p), tp) && Everyone(cfg, c, p, NextAsk(cfg, rp, p))
    requires AllHere(cfg, c, vs) && AllBack(c, vs, rp) && forall v :: v in vs ==> v in cfg.members
    ensures OnlyMoved(cfg, c, {p} + ToSet(vs), ToSet(vs) + {p}, c')
    ensures AllHere(cfg, c', vs) && Steady(c, c', vs) && AllBack(c', vs, rp)
    ensures At(cfg, c', p, Campaign(Surveyed(cfg, rp, p, vs), p), tp) && Everyone(cfg, c', p, Candidacy(rp, p))
  {
    hide *;
    RunnerFacts(cfg, rp, p, vs);
    if cfg.mode == Baseline {
      c' := c;
      AtReached(cfg, c, p, Runner(cfg, rp, p), tp);
      NobodyMoved(cfg, c);
      Stood(cfg, c, p, Runner(cfg, rp, p), tp);
      MembersHere(cfg, c, p, vs);
      MovesWide(cfg, c, {}, c, {p} + ToSet(vs), ToSet(vs) + {p});
      HereStay(cfg, c, {}, {}, c, vs);
    } else {
      EveryoneToAll(cfg, c, p, NextAsk(cfg, rp, p), vs);
      c' := Surveys(cfg, c, p, vs, rp, tp);
      StillBack(c, c', vs, rp);
    }
  }

  lemma SteadyBacked(cfg: Config, c: Cluster, c1: Cluster, c2: Cluster, vs: seq<NodeID>, m: Payload)
    requires m.VoteReq? && Steady(c, c1, vs) && AllBacked(cfg, c1, c2, vs, m)
    ensures AllBacked(cfg, c, c2, vs, m)
  {
    hide AfterGrant;
  }

  // p's timer runs out, and the votes of vs are enough, after a straw poll where there
  // is one; whoever else was asked has the question still before it.
  lemma Elects(cfg: Config, c: Cluster, p: NodeID, vs: seq<NodeID>, rp: Raft, tp: nat) returns (c': Cluster)
    requires cfg.Valid() && Ascending(vs) && p !in vs && 1 <= |vs| == cfg.Quorum() - 1
    requires (forall v :: v in vs ==> v in cfg.members) && At(cfg, c, p, rp, tp) && rp.role != Leader
    requires AllHere(cfg, c, vs) && AllBack(c, vs, rp)
    requires cfg.mode == CrossFault && tp > 0 ==> Current(cfg, c.nodes[p])
    ensures OnlyMoved(cfg, c, {p} + ToSet(vs), ToSet(vs) + {p}, c')
    ensures At(cfg, c', p, Victor(cfg, rp, p, vs), tp + cfg.timeout)
    ensures AllHere(cfg, c', vs) && AllBacked(cfg, c, c', vs, Candidacy(rp, p))
    ensures Everyone(cfg, c', p, AppendReq(rp.term + 1, p, |rp.log|, LastTerm(rp.log), [], rp.commitIndex))
    ensures forall q :: q in cfg.members && q != p && q !in vs ==> Awaits(cfg, c', p, q, Candidacy(rp, p))
  {
    hide *;
    var t, who, froms := tp + cfg.timeout, {p} + ToSet(vs), ToSet(vs) + {p};
    NotAmong(p, vs);
    var c1 := Expires(cfg, c, p, rp, tp);
    HereStay(cfg, c, {p}, {}, c1, vs);
    StillBack(c, c1, vs, rp);
    var c2 := Canvasses(cfg, c1, p, vs, rp, t);
    SteadyChain(c, c1, c2, vs);
    BackersAgree(cfg, c2, vs, rp, p);
    EveryoneToAll(cfg, c2, p, Candidacy(rp, p), vs);
    c' := Ballots(cfg, c2, p, vs, rp, t);
    SteadyBacked(cfg, c, c2, c', vs, Candidacy(rp, p));
    forall q | q in cfg.members && q != p && q !in vs
      ensures Awaits(cfg, c', p, q, Candidacy(rp, p))
    {
      NotAmong(q, vs);
      OneAsked(cfg, c2, p, Candidacy(rp, p), q);
      StillAwaits(cfg, c2, who, froms, c', p, q, Candidacy(rp, p));
    }
    MovesCompose(cfg, c, {p}, {}, c1, who, froms, c2);
    assert {p} + who == who && {} + froms == froms;
    MovesCompose(cfg, c, who, froms, c2, who, froms, c');
    assert who + who == who && froms + froms == froms;
  }

  // ---------- A leader with one entry ----------

  // The one entry in its log is its own, and nobody is known to have it.
  ghost predicate Eager(cfg: Config, r: Raft, p: NodeID, cmd: string) {
    && r.role == Leader && r.log == [Entry(r.term, cmd)] && r.commitIndex == 0 && r.leaderID == Some(p)
    && forall q :: q in cfg.members && q != p ==> Get(r.nextIndex, q) == 1 && Get(r.matchIndex, q) == 0
  }

  function Order(t: nat, p: NodeID, cmd: string): (m: Payload)
    ensures m.AppendReq? && m.term == t
  {
    AppendReq(t, p, 0, 0, [Entry(t, cmd)], 0)
  }

  lemma EagerFacts(cfg: Config, r: Raft, p: NodeID, cmd: string)
    requires Eager(cfg, r, p, cmd)
    ensures r.role == Leader && r.leaderID.Some? && r.commitIndex == 0
    ensures Indexed(cfg, r, p) && ToldBy(cfg, r, p, {})
    ensures forall q :: q in cfg.members && q != p ==> AppendFor(r, p, q) == Order(r.term, p, cmd)
  {
    assert Slice(r.log, 1) == r.log;
  }

  lemma ReignsThen(cfg: Config, c: Cluster, p: NodeID, r: Raft, tick: nat)
    requires At(cfg, c, p, r, tick) && r.role == Leader && Indexed(cfg, r, p)
    ensures Reigns(cfg, c, p, r, 0)
  {
    hide Reached, Up, Indexed;
  }

  lemma AskedOrders(cfg: Config, c: Cluster, p: NodeID, r: Raft, cmd: string)
    requires EachAsked(cfg, c, p, r) && Eager(cfg, r, p, cmd)
    ensures Everyone(cfg, c, p, Order(r.term, p, cmd))
  {
    EagerFacts(cfg, r, p, cmd);
    hide Awaits, AppendFor, Order, Eager;
  }

  // What a leader first says, and a candidate asks, when its log is empty.
  function Greeting(t: nat, p: NodeID): (m: Payload)
    ensures m.AppendReq?
  {
    AppendReq(t, p, 0, 0, [], 0)
  }

  function Plea(t: nat, p: NodeID): (m: Payload)
    ensures m.VoteReq?
  {
    VoteReq(t, p, 0, 0, false)
  }
}
