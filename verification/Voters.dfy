/** What the voters of a term can have in their logs while that term lasts: they
    never run ahead of the leader they elected. */
module Voters {
  import opened Types
  import opened Logs
  import opened Rafts
  import opened Nodes
  import opened Worlds
  import opened LogMatching
  import ElectionSafety

  ghost predicate StandsIn(r: Raft, t: nat) {
    r.role == Candidate && r.term == t
  }

  // A voter whose log continues the candidate's adds nothing to it.
  ghost predicate Behind(w: World, v: NodeID, c: NodeID, t: nat) {
    Granted(w.sent, v, c, t) && v in w.nodes && c in w.nodes ==>
      && w.nodes[v].term >= t && w.nodes[c].term >= t
      && (w.nodes[v].term == t && t !in w.elect && StandsIn(w.nodes[c], t)
          && StartsWith(w.nodes[v].log, w.nodes[c].log) ==>
            w.nodes[v].log == w.nodes[c].log)
  }

  // What the voter of a leader adds to the log it elected, that leader made.
  ghost predicate Trails(w: World, t: nat, v: NodeID) {
    t in w.elect && v in w.elect[t].voters && v in w.nodes ==>
      && w.nodes[v].term >= t
      && (w.nodes[v].term == t && StartsWith(w.nodes[v].log, w.elect[t].init) ==>
            AddedIn(w.nodes[v].log, |w.elect[t].init|, t))
  }

  // Everything from position n on is of term t.
  ghost predicate AddedIn(log: Log, n: nat, t: nat) {
    forall i :: n <= i < |log| ==> log[i].term == t
  }

  // A request that is not a probe past the end covers the log its leader began with.
  ghost predicate CoversInit(w: World, m: Payload)
    requires m.AppendReq?
  {
    || (m.prevTerm == 0 && m.prevIndex > 0 && m.entries == [])
    || (m.term in w.elect && |w.elect[m.term].init| <= m.prevIndex + |m.entries|)
  }

  ghost predicate VotersBehind(w: World) {
    forall v, c, t: nat :: Behind(w, v, c, t)
  }

  ghost predicate VotersTrail(w: World) {
    forall t: nat, v :: Trails(w, t, v)
  }

  ghost predicate RequestsCoverInit(w: World) {
    forall k :: k in w.sent && k.body.AppendReq? ==> CoversInit(w, k.body)
  }

  ghost predicate Inv(w: World) {
    VotersBehind(w) && VotersTrail(w) && RequestsCoverInit(w)
  }

  // ---------- Every move keeps it ----------

  // Of the first log's continuations only the log itself loses to it.
  lemma ComparedIsEqual(w: World, log: Log, c: Log)
    requires Histories(w) && Rooted(w.llog, log) && StartsWith(log, c) && UpToDate(log, LastTerm(c), |c|)
    ensures log == c
  {
    RootedNondecreasing(w, log);
    assert log != [] ==> log[|log| - 1].term in w.elect;
    assert c != [] ==> log[..|c|][|c| - 1] == log[|c| - 1];
    assert |c| <= |log| && LastTerm(c) <= LastTerm(log);
  }

  // p's log stays, its term does not fall, and it does not become a candidate.
  lemma SameLogKeeps(w: World, p: NodeID, r: Raft)
    requires Inv(w) && p in w.nodes && r.log == w.nodes[p].log && r.term >= w.nodes[p].term
    requires r.role == Candidate ==>
      (r.term == w.nodes[p].term && w.nodes[p].role == Candidate) || forall v :: !Granted(w.sent, v, p, r.term)
    ensures Inv(Put(w, p, r))
  {
    var w' := Put(w, p, r);
    forall v, c, t: nat
      ensures Behind(w', v, c, t)
    {
      assert Behind(w, v, c, t);
    }
    forall t: nat, v
      ensures Trails(w', t, v)
    {
      assert Trails(w, t, v);
    }
  }

  lemma ElectKeeps(cfg: Config, w: World, p: NodeID)
    requires Inv(w) && ElectionSafety.Shape(cfg, w) && ElectionSafety.Campaigners(w)
    requires p in w.nodes && w.nodes[p].role == Candidate && w.nodes[p].term !in w.elect
    ensures Inv(ElectAt(cfg, w, p))
  {
    var w', t0 := ElectAt(cfg, w, p), w.nodes[p].term;
    forall v, c, t: nat
      ensures Behind(w', v, c, t)
    {
      assert Behind(w, v, c, t);
    }
    forall t: nat, v
      ensures Trails(w', t, v)
    {
      assert Trails(w, t, v);
      if t == t0 && v in w'.elect[t].voters && v != p {
        assert Granted(w.sent, v, p, t0) && Behind(w, v, p, t0);
      }
    }
  }

  lemma ProposeKeeps(w: World, p: NodeID, cmd: string)
    requires Inv(w) && Histories(w) && NodeLogs(w) && ElectionSafety.LeadersRecorded(w)
    requires p in w.nodes && w.nodes[p].role == Leader
    ensures Inv(ProposeAt(w, p, cmd))
  {
    var w', t0 := ProposeAt(w, p, cmd), w.nodes[p].term;
    forall v, c, t: nat
      ensures Behind(w', v, c, t)
    {
      assert Behind(w, v, c, t);
    }
    var init, log := w.elect[t0].init, w.nodes[p].log;
    assert GrownFrom(init, log, t0);
    assert StartsWith(log, init);
    forall t: nat, v
      ensures Trails(w', t, v)
    {
      assert Trails(w, t, v);
    }
  }

  lemma TakeKeeps(w: World, p: NodeID, m: Payload)
    requires Inv(w) && Histories(w) && NodeLogs(w)
    requires p in w.nodes && m.AppendReq? && m.term == w.nodes[p].term && w.nodes[p].role == Follower
    requires m.term in w.llog && Served(w.llog[m.term], m) && CoversInit(w, m)
    requires Matches(w.nodes[p].log, m.prevIndex, m.prevTerm) && m.prevIndex <= |w.nodes[p].log|
    ensures Inv(TakeAt(w, p, m))
  {
    var w' := TakeAt(w, p, m);
    forall v, c, t: nat
      ensures Behind(w', v, c, t)
    {
      assert Behind(w, v, c, t);
    }
    TakenTrails(w, p, m);
    forall t: nat, v
      ensures Trails(w', t, v)
    {
      assert Trails(w, t, v);
    }
  }

  lemma MatchIsNoProbe(w: World, log: Log, m: Payload)
    requires Histories(w) && Rooted(w.llog, log) && m.AppendReq?
    requires Matches(log, m.prevIndex, m.prevTerm) && CoversInit(w, m)
    ensures m.term in w.elect && |w.elect[m.term].init| <= m.prevIndex + |m.entries|
  {
    if m.prevIndex > 0 {
      assert log[m.prevIndex - 1].term in w.elect;
    }
  }

  // After taking a request of its own leader a voter has only that leader's entries
  // past the log it voted for, so all it has is that leader's.
  lemma TakenTrails(w: World, p: NodeID, m: Payload)
    requires VotersTrail(w) && Histories(w) && NodeLogs(w)
    requires p in w.nodes && m.AppendReq? && m.term == w.nodes[p].term
    requires m.term in w.llog && Served(w.llog[m.term], m) && CoversInit(w, m)
    requires Matches(w.nodes[p].log, m.prevIndex, m.prevTerm) && m.prevIndex <= |w.nodes[p].log|
    ensures m.term in w.elect
    ensures p in w.elect[m.term].voters ==>
      var s := Splice(w.nodes[p].log, m.prevIndex, m.entries);
      && AddedIn(s, |w.elect[m.term].init|, m.term)
      && |s| <= |w.llog[m.term]| && s == w.llog[m.term][..|s|]
  {
    var log, lead, init := w.nodes[p].log, w.llog[m.term], w.elect[m.term].init;
    var n := m.prevIndex + |m.entries|;
    MatchIsNoProbe(w, log, m);
    TakeFollowsLeader(w, log, m);
    var s := Splice(log, m.prevIndex, m.entries);
    assert GrownFrom(init, lead, m.term) && Trails(w, m.term, p);
    if p in w.elect[m.term].voters && s == log && s != lead[..n] {
      assert log[..|init|] == log[..n][..|init|] == lead[..n][..|init|] == lead[..|init|];
      assert StartsWith(log, init);
      assert log[|log| - 1].term == m.term;
      assert log[..|log| - 1 + 1] == log;
    }
  }

  ghost predicate ReachesEnd(log: Log, m: Payload)
    requires m.AppendReq?
  {
    (m.prevTerm == 0 && m.prevIndex > 0 && m.entries == []) || m.prevIndex + |m.entries| == |log|
  }

  // A vote goes to a log the voter has compared with its own; a request carries
  // everything from its previous index on.
  ghost predicate Compared(w: World, k: Packet)
    requires k.from in w.nodes && k.to in w.nodes
  {
    var r := w.nodes[k.from];
    match k.body
    case AppendReq(_, _, _, _, _, _) => ReachesEnd(r.log, k.body)
    case VoteResp(t, granted, pre) =>
      granted && !pre && w.nodes[k.to].term == t && w.nodes[k.to].role == Candidate ==>
        UpToDate(r.log, LastTerm(w.nodes[k.to].log), |w.nodes[k.to].log|)
    case _ => true
  }

  lemma SendKeeps(cfg: Config, w: World, ps: set<Packet>)
    requires Inv(w) && Histories(w) && NodeLogs(w) && ElectionSafety.LeadersRecorded(w)
    requires forall k :: k in ps ==> MaySay(cfg, w, k) && Compared(w, k)
    ensures Inv(SendAll(w, ps))
  {
    var w' := SendAll(w, ps);
    forall v, c, t: nat
      ensures Behind(w', v, c, t)
    {
      var k := Packet(v, c, VoteResp(t, true, false));
      assert Behind(w, v, c, t);
      if k in ps {
        assert MaySay(cfg, w, k) && Compared(w, k);
        if w.nodes[c].role == Candidate && w.nodes[c].term == t && StartsWith(w.nodes[v].log, w.nodes[c].log) {
          ComparedIsEqual(w, w.nodes[v].log, w.nodes[c].log);
        }
      }
    }
    forall t: nat, v
      ensures Trails(w', t, v)
    {
      assert Trails(w, t, v);
    }
    forall k | k in w'.sent && k.body.AppendReq?
      ensures CoversInit(w', k.body)
    {
      if k in ps {
        assert MaySay(cfg, w, k) && Compared(w, k);
        var t := k.body.term;
        assert GrownFrom(w.elect[t].init, w.llog[t], t);
      } else {
        assert CoversInit(w, k.body);
      }
    }
  }
}
