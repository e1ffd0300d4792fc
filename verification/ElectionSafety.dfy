/** At most one node ever becomes leader in a term. */
module ElectionSafety {
  import opened Types
  import opened Logs
  import opened Rafts
  import opened Nodes
  import opened Worlds

  ghost predicate Shape(cfg: Config, w: World) {
    && w.nodes.Keys == ToSet(cfg.members)
    && (forall k :: k in w.sent ==> k.from in w.nodes && k.to in w.nodes && k.from != k.to)
    && (cfg.mode == Baseline ==> forall p :: p in w.nodes ==> w.nodes[p].role != PreCandidate)
  }

  // A candidate or leader has voted for itself and counts only granted votes.
  ghost predicate Campaigners(w: World) {
    forall p :: p in w.nodes && Standing(w.nodes[p]) ==>
      var r := w.nodes[p];
      && r.term >= 1 && r.votedFor == Some(p) && p in r.votes && r.votes <= w.nodes.Keys
      && forall v :: v in r.votes && v != p ==> Granted(w.sent, v, p, r.term)
  }

  // A granted vote locks the voter for the rest of that term: it keeps its vote,
  // or where votes can be lost it at least does not stand itself.
  ghost predicate VotersLocked(cfg: Config, w: World) {
    forall v, c, t :: Granted(w.sent, v, c, t) && v in w.nodes && c in w.nodes ==>
      && w.nodes[v].term >= t && w.nodes[c].term >= t
      && (w.nodes[v].term == t ==>
           && (!Loose(cfg) ==> w.nodes[v].votedFor == Some(c))
           && (cfg.rule == AsWritten ==> !Standing(w.nodes[v])))
  }

  ghost predicate OneGrantPerTerm(w: World) {
    forall v, c, d, t :: Granted(w.sent, v, c, t) && Granted(w.sent, v, d, t) ==> c == d
  }

  // A winner had a majority, has granted nobody else, and stays locked.
  ghost predicate ElectionsWon(cfg: Config, w: World) {
    forall t :: t in w.elect ==>
      var e := w.elect[t];
      && t >= 1 && e.leader in w.nodes && e.leader in e.voters
      && e.voters <= w.nodes.Keys && |e.voters| >= cfg.Quorum()
      && (forall v :: v in e.voters && v != e.leader ==> Granted(w.sent, v, e.leader, t))
      && (forall c :: !Granted(w.sent, e.leader, c, t))
      && w.nodes[e.leader].term >= t
      && (w.nodes[e.leader].term == t && !Loose(cfg) ==>
           w.nodes[e.leader].votedFor == Some(e.leader)
           && (cfg.rule == AsWritten ==> w.nodes[e.leader].role == Leader))
  }

  ghost predicate LeadersRecorded(w: World) {
    forall p :: p in w.nodes ==>
      var r := w.nodes[p];
      && (r.role == Leader ==> r.term in w.elect && w.elect[r.term].leader == p)
      && (r.role == Candidate && r.term in w.elect ==> w.elect[r.term].leader != p)
  }

  ghost predicate RequestsRecorded(w: World) {
    forall k :: k in w.sent && k.from in w.nodes ==>
      && (k.body.AppendReq? ==> k.body.term in w.elect && w.elect[k.body.term].leader == k.from)
      && (k.body.VoteReq? && !k.body.preVote ==>
            k.body.candidate == k.from && w.nodes[k.from].term >= k.body.term)
      && (k.body.AppendResp? && k.body.success ==> k.body.conflictIndex == 0)
  }

  // Whoever grants a vote has not stood in that term; whoever has stood keeps its
  // own vote until the term has a leader.
  ghost predicate BallotsOwed(cfg: Config, w: World) {
    Loose(cfg) ==>
      && (forall v, c, t: nat :: Granted(w.sent, v, c, t) ==> !Balloted(w.sent, v, t))
      && forall v :: v in w.nodes && Balloted(w.sent, v, w.nodes[v].term) ==>
           w.nodes[v].votedFor == Some(v) || w.nodes[v].term in w.elect
  }

  ghost predicate Inv(cfg: Config, w: World) {
    && Shape(cfg, w) && Campaigners(w) && VotersLocked(cfg, w) && OneGrantPerTerm(w)
    && ElectionsWon(cfg, w) && LeadersRecorded(w) && RequestsRecorded(w) && BallotsOwed(cfg, w)
  }

  // A candidate with a majority is the first winner of its term.
  lemma TermIsVacant(cfg: Config, w: World, p: NodeID)
    requires cfg.Valid() && Inv(cfg, w)
    requires p in w.nodes && w.nodes[p].role == Candidate && |w.nodes[p].votes| >= cfg.Quorum()
    ensures w.nodes[p].term !in w.elect
  {
    var r := w.nodes[p];
    if r.term in w.elect {
      var e := w.elect[r.term];
      AscendingCardinality(cfg.members);
      var v := MajoritiesMeet(e.voters, r.votes, w.nodes.Keys);
      assert false;
    }
  }

  lemma CandidateTermPositive(cfg: Config, w: World, p: NodeID)
    requires Inv(cfg, w) && p in w.nodes && w.nodes[p].role == Candidate
    ensures w.nodes[p].term >= 1
  {
  }

  // ---------- Changing one node ----------

  // What a move may do to the electoral part of one node's state.
  ghost predicate Lawful(cfg: Config, w: World, p: NodeID, r: Raft)
    requires p in w.nodes
  {
    var q := w.nodes[p];
    && r.term >= q.term
    && (cfg.mode == Baseline ==> r.role != PreCandidate)
    && (Standing(r) ==>
          && r.term >= 1 && r.votedFor == Some(p) && p in r.votes && r.votes <= w.nodes.Keys
          && forall v :: v in r.votes && v != p ==> Granted(w.sent, v, p, r.term))
    && (r.term == q.term ==>
          && (q.votedFor.Some? ==>
               || r.votedFor == q.votedFor
               || (cfg.rule == AsWritten && r.term in w.elect && (Loose(cfg) || q.role == Candidate)))
          && (cfg.rule == AsWritten && !Standing(q) ==> !Standing(r))
          && (cfg.rule == AsWritten && !Loose(cfg) && q.role == Leader ==> r.role == Leader))
    && (r.role == Leader ==> r.term in w.elect && w.elect[r.term].leader == p)
    && (r.role == Candidate && r.term in w.elect ==> w.elect[r.term].leader != p)
  }

  lemma PutKeepsCampaigners(cfg: Config, w: World, p: NodeID, r: Raft)
    requires Campaigners(w) && p in w.nodes && Lawful(cfg, w, p, r)
    ensures Campaigners(Put(w, p, r))
  {
  }

  lemma PutKeepsVotersLocked(cfg: Config, w: World, p: NodeID, r: Raft)
    requires VotersLocked(cfg, w) && p in w.nodes && Lawful(cfg, w, p, r)
    ensures VotersLocked(cfg, Put(w, p, r))
  {
  }

  lemma PutKeepsElectionsWon(cfg: Config, w: World, p: NodeID, r: Raft)
    requires ElectionsWon(cfg, w) && p in w.nodes && Lawful(cfg, w, p, r)
    ensures ElectionsWon(cfg, Put(w, p, r))
  {
  }

  lemma PutKeepsRequestsRecorded(cfg: Config, w: World, p: NodeID, r: Raft)
    requires RequestsRecorded(w) && p in w.nodes && Lawful(cfg, w, p, r)
    ensures RequestsRecorded(Put(w, p, r))
  {
  }

  lemma PutKeepsBallots(cfg: Config, w: World, p: NodeID, r: Raft)
    requires BallotsOwed(cfg, w) && RequestsRecorded(w) && p in w.nodes && Lawful(cfg, w, p, r)
    ensures BallotsOwed(cfg, Put(w, p, r))
  {
  }

  lemma PutKeeps(cfg: Config, w: World, p: NodeID, r: Raft)
    requires Inv(cfg, w) && p in w.nodes && Lawful(cfg, w, p, r)
    ensures Inv(cfg, Put(w, p, r))
  {
    PutKeepsCampaigners(cfg, w, p, r);
    PutKeepsVotersLocked(cfg, w, p, r);
    PutKeepsElectionsWon(cfg, w, p, r);
    PutKeepsRequestsRecorded(cfg, w, p, r);
    PutKeepsBallots(cfg, w, p, r);
  }

  // Log histories are irrelevant to elections.
  lemma LogsIrrelevant(cfg: Config, w: World, llog: map<nat, Log>)
    requires Inv(cfg, w)
    ensures Inv(cfg, w.(llog := llog))
  {
    var w' := w.(llog := llog);
    assert VotersLocked(cfg, w') && Campaigners(w') && ElectionsWon(cfg, w') && RequestsRecorded(w');
  }

  // ---------- Every move keeps the invariant ----------

  // Stepping down at an unchanged term loses no vote that matters.
  ghost predicate MayUnvote(cfg: Config, w: World, p: NodeID)
    requires p in w.nodes
  {
    cfg.rule == KeepVote || (w.nodes[p].term in w.elect && (Loose(cfg) || w.nodes[p].role == Candidate))
  }

  lemma StepDownKeeps(cfg: Config, w: World, p: NodeID, t: nat, leader: Option<NodeID>)
    requires Sound(cfg) && Inv(cfg, w) && p in w.nodes
    requires t > w.nodes[p].term
          || (t == w.nodes[p].term && MayUnvote(cfg, w, p))
    ensures Inv(cfg, StepDownAt(cfg, w, p, t, leader))
  {
    PutKeeps(cfg, w, p, StepDown(cfg.rule, w.nodes[p], t, leader));
  }

  lemma CampaignKeeps(cfg: Config, w: World, p: NodeID)
    requires Inv(cfg, w) && p in w.nodes
    ensures Inv(cfg, CampaignAt(w, p))
  {
    PutKeeps(cfg, w, p, Rafts.Campaign(w.nodes[p], p));
  }

  lemma PreCampaignKeeps(cfg: Config, w: World, p: NodeID)
    requires Sound(cfg) && Inv(cfg, w) && p in w.nodes && cfg.mode != Baseline
    ensures Inv(cfg, PreCampaignAt(w, p))
  {
    PutKeeps(cfg, w, p, Rafts.PreCampaign(w.nodes[p], p));
  }

  lemma VoteKeeps(cfg: Config, w: World, p: NodeID, c: NodeID)
    requires Inv(cfg, w) && p in w.nodes
    requires w.nodes[p].votedFor == None || w.nodes[p].votedFor == Some(c)
    ensures Inv(cfg, VoteAt(w, p, c))
  {
    PutKeeps(cfg, w, p, w.nodes[p].(votedFor := Some(c)));
  }

  lemma TallyKeeps(cfg: Config, w: World, p: NodeID, v: NodeID)
    requires Inv(cfg, w) && p in w.nodes && v in w.nodes
    requires w.nodes[p].role == Candidate && Granted(w.sent, v, p, w.nodes[p].term)
    ensures Inv(cfg, TallyAt(w, p, v))
  {
    PutKeeps(cfg, w, p, w.nodes[p].(votes := w.nodes[p].votes + {v}));
  }

  // Changes to logs, indexes and bookkeeping.
  lemma OtherKeeps(cfg: Config, w: World, p: NodeID, r: Raft)
    requires Inv(cfg, w) && p in w.nodes
    requires r.role == w.nodes[p].role && r.term == w.nodes[p].term
    requires r.votedFor == w.nodes[p].votedFor && r.votes == w.nodes[p].votes
    ensures Inv(cfg, Put(w, p, r))
  {
    PutKeeps(cfg, w, p, r);
  }

  lemma ElectKeepsElections(cfg: Config, w: World, p: NodeID)
    requires Inv(cfg, w)
    requires p in w.nodes && w.nodes[p].role == Candidate && |w.nodes[p].votes| >= cfg.Quorum()
    ensures ElectionsWon(cfg, ElectAt(cfg, w, p))
  {
    var t0 := w.nodes[p].term;
    assert forall c :: !Granted(w.sent, p, c, t0);
    var w' := ElectAt(cfg, w, p);
    forall t | t in w.elect && t != t0
      ensures w'.elect[t] == w.elect[t]
    {
    }
  }

  lemma ElectKeepsRecords(cfg: Config, w: World, p: NodeID)
    requires Inv(cfg, w)
    requires p in w.nodes && w.nodes[p].role == Candidate && w.nodes[p].term !in w.elect
    ensures LeadersRecorded(ElectAt(cfg, w, p)) && RequestsRecorded(ElectAt(cfg, w, p))
  {
  }

  lemma ElectKeepsVoters(cfg: Config, w: World, p: NodeID)
    requires Inv(cfg, w)
    requires p in w.nodes && w.nodes[p].role == Candidate
    ensures Campaigners(ElectAt(cfg, w, p)) && VotersLocked(cfg, ElectAt(cfg, w, p))
  {
    assert forall c :: !Granted(w.sent, p, c, w.nodes[p].term);
  }

  lemma ElectKeeps(cfg: Config, w: World, p: NodeID)
    requires cfg.Valid() && Inv(cfg, w)
    requires p in w.nodes && w.nodes[p].role == Candidate && |w.nodes[p].votes| >= cfg.Quorum()
    ensures Inv(cfg, ElectAt(cfg, w, p))
  {
    TermIsVacant(cfg, w, p);
    ElectKeepsElections(cfg, w, p);
    ElectKeepsRecords(cfg, w, p);
    ElectKeepsVoters(cfg, w, p);
  }

  // ---------- Clusters of two ----------

  lemma OneOther(cfg: Config, w: World, a: NodeID, b: NodeID, c: NodeID)
    requires cfg.Valid() && Few(cfg) && Shape(cfg, w)
    requires a in w.nodes && b in w.nodes && c in w.nodes && b != a && c != a
    ensures b == c
  {
    AscendingCardinality(cfg.members);
    if b != c {
      SubsetCardinality({a, b, c}, w.nodes.Keys);
      assert false;
    }
  }

  // Nobody is elected without everybody's vote.
  lemma AllVoted(cfg: Config, w: World, t: nat, v: NodeID)
    requires cfg.Valid() && Few(cfg) && Shape(cfg, w) && ElectionsWon(cfg, w) && t in w.elect && v in w.nodes
    ensures v in w.elect[t].voters
    ensures v == w.elect[t].leader || Granted(w.sent, v, w.elect[t].leader, t)
  {
    AscendingCardinality(cfg.members);
    if v !in w.elect[t].voters {
      SubsetCardinality(w.elect[t].voters + {v}, w.nodes.Keys);
      assert false;
    }
  }

  // Where votes can be lost, nobody who has stood in a term grants a vote in it.
  lemma GranterNeverStood(cfg: Config, w: World, v: NodeID, c: NodeID, t: nat)
    requires cfg.Valid() && Sound(cfg) && Loose(cfg) && Inv(cfg, w)
    requires MaySay(cfg, w, Packet(v, c, VoteResp(t, true, false)))
    ensures !Balloted(w.sent, v, t)
    ensures t in w.elect ==> w.elect[t].leader != v
  {
    if t in w.elect {
      var l := w.elect[t].leader;
      AllVoted(cfg, w, t, v);
      AllVoted(cfg, w, t, c);
      if l != v {
        OneOther(cfg, w, v, c, l);
      }
    }
  }

  lemma SendKeepsLocks(cfg: Config, w: World, ps: set<Packet>)
    requires cfg.Valid() && Sound(cfg) && Inv(cfg, w)
    requires forall k :: k in ps ==> MaySay(cfg, w, k)
    ensures var w' := SendAll(w, ps);
      VotersLocked(cfg, w') && OneGrantPerTerm(w')
  {
    var w' := SendAll(w, ps);
    forall v, c, t | Granted(w'.sent, v, c, t)
      ensures Granted(w.sent, v, c, t) || MaySay(cfg, w, Packet(v, c, VoteResp(t, true, false)))
    {
    }
    forall v, c, d, t | Granted(w'.sent, v, c, t) && Granted(w'.sent, v, d, t)
      ensures c == d
    {
      if Few(cfg) {
        OneOther(cfg, w, v, c, d);
      }
    }
  }

  lemma SendKeepsElections(cfg: Config, w: World, ps: set<Packet>)
    requires cfg.Valid() && Sound(cfg) && Inv(cfg, w)
    requires forall k :: k in ps ==> MaySay(cfg, w, k)
    ensures ElectionsWon(cfg, SendAll(w, ps))
  {
    var w' := SendAll(w, ps);
    forall t, c | t in w.elect
      ensures !Granted(w'.sent, w.elect[t].leader, c, t)
    {
      var l := w.elect[t].leader;
      assert !Granted(w.sent, l, c, t);
      if MaySay(cfg, w, Packet(l, c, VoteResp(t, true, false))) && Loose(cfg) {
        GranterNeverStood(cfg, w, l, c, t);
      }
    }
    forall t, v | t in w.elect && v in w.elect[t].voters && v != w.elect[t].leader
      ensures Granted(w'.sent, v, w.elect[t].leader, t)
    {
      assert Granted(w.sent, v, w.elect[t].leader, t);
    }
  }

  lemma SendKeepsBallots(cfg: Config, w: World, ps: set<Packet>)
    requires cfg.Valid() && Sound(cfg) && Inv(cfg, w)
    requires forall k :: k in ps ==> MaySay(cfg, w, k)
    ensures BallotsOwed(cfg, SendAll(w, ps))
  {
    var w' := SendAll(w, ps);
    if Loose(cfg) {
      forall v, t: nat | Balloted(w'.sent, v, t)
        ensures Balloted(w.sent, v, t) || (v in w.nodes && w.nodes[v].role == Candidate && w.nodes[v].term == t)
      {
      }
      forall v, c, t: nat | Granted(w'.sent, v, c, t)
        ensures !Balloted(w'.sent, v, t)
      {
        if !Granted(w.sent, v, c, t) {
          assert MaySay(cfg, w, Packet(v, c, VoteResp(t, true, false)));
          GranterNeverStood(cfg, w, v, c, t);
        }
      }
    }
  }

  lemma SendKeeps(cfg: Config, w: World, ps: set<Packet>)
    requires cfg.Valid() && Sound(cfg) && Inv(cfg, w)
    requires forall k :: k in ps ==> MaySay(cfg, w, k)
    ensures Inv(cfg, SendAll(w, ps))
  {
    var w' := SendAll(w, ps);
    SendKeepsLocks(cfg, w, ps);
    SendKeepsElections(cfg, w, ps);
    SendKeepsBallots(cfg, w, ps);
    assert RequestsRecorded(w');
    forall p, v | p in w.nodes && Granted(w.sent, v, p, w.nodes[p].term)
      ensures Granted(w'.sent, v, p, w.nodes[p].term)
    {
    }
    assert Campaigners(w');
  }
}
