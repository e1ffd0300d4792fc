/** Every move keeps the commitment invariant. */
module CommitMoves {
  import opened Types
  import opened Logs
  import opened Rafts
  import opened Nodes
  import opened Worlds
  import opened LogMatching
  import opened Commitment
  import ElectionSafety
  import Voters

  // ---------- What only grows ----------

  // More is said, more is won, histories get longer; nothing is taken back.
  ghost predicate Later(w: World, w': World) {
    && w.nodes.Keys == w'.nodes.Keys && w.sent <= w'.sent
    && (forall t :: t in w.elect ==> t in w'.elect && w'.elect[t] == w.elect[t])
    && Extends(w.llog, w'.llog)
  }

  lemma OverruledGrows(llog: map<nat, Log>, llog': map<nat, Log>, t: nat, n: nat, hi: int, hi': int)
    requires Extends(llog, llog') && t in llog && n <= |llog[t]| && hi <= hi'
    requires Overruled(llog, t, n, hi)
    ensures Overruled(llog', t, n, hi')
  {
    var u :| u in llog && t < u <= hi && Conflict(llog[u], Upto(llog, t, n));
    assert StartsWith(llog'[t], llog[t]) && StartsWith(llog'[u], llog[u]);
    assert Upto(llog', t, n) == Upto(llog, t, n);
    var i :| 0 <= i < |llog[u]| && i < n && llog[u][i] != Upto(llog, t, n)[i];
    assert llog'[u][i] == llog[u][i];
  }

  lemma CommittedGrows(cfg: Config, w: World, w': World, t: nat, n: nat)
    requires Later(w, w') && Committed(cfg, w, t, n)
    ensures Committed(cfg, w', t, n) && Upto(w'.llog, t, n) == Upto(w.llog, t, n)
  {
    assert StartsWith(w'.llog[t], w.llog[t]);
    var q :| HoldEnough(cfg, w, q, t, n);
    forall v | v in q
      ensures Holds(w'.sent, w'.elect, w'.llog, v, t, n)
    {
      if v != w.elect[t].leader {
        var m :| m >= n && AckSent(w.sent, v, w.elect[t].leader, t, m);
        assert AckSent(w'.sent, v, w'.elect[t].leader, t, m);
      }
    }
    assert HoldEnough(cfg, w', q, t, n);
  }

  lemma CoveredGrows(cfg: Config, w: World, w': World, log: Log, c: nat, hi: nat, log': Log, hi': nat)
    requires Later(w, w') && Covered(cfg, w, log, c, hi)
    requires c <= |log'| && log'[..c] == log[..c] && hi <= hi'
    ensures Covered(cfg, w', log', c, hi')
  {
    if c > 0 {
      var t: nat, n: nat :| Committed(cfg, w, t, n) && t <= hi && c <= n && log[..c] == Upto(w.llog, t, n)[..c];
      CommittedGrows(cfg, w, w', t, n);
    }
  }

  lemma CoverageGrows(cfg: Config, w: World, w': World)
    requires Later(w, w') && RequestsCovered(cfg, w) && RequestsServed(w)
    requires w'.sent == w.sent
    ensures RequestsCovered(cfg, w')
  {
    forall k | k in w'.sent && k.body.AppendReq? && k.body.term in w'.llog
      ensures Covered(cfg, w', w'.llog[k.body.term], k.body.leaderCommit, k.body.term)
    {
      var t := k.body.term;
      assert t in w.llog && StartsWith(w'.llog[t], w.llog[t]);
      CoveredGrows(cfg, w, w', w.llog[t], k.body.leaderCommit, t, w'.llog[t], t);
    }
  }

  // ---------- Moves that leave every log alone ----------

  // p's log, and its standing as leader or candidate, are not newly acquired.
  ghost predicate Quiet(w: World, p: NodeID, r: Raft)
    requires p in w.nodes
  {
    var q := w.nodes[p];
    && r.log == q.log && r.term >= q.term && r.commitIndex == q.commitIndex
    && (r.role == Leader || r.role == Candidate ==> r.role == q.role && r.term == q.term)
    && (r.role == Leader ==> r.matchIndex == q.matchIndex)
  }

  lemma QuietKeepsAcks(w: World, p: NodeID, r: Raft)
    requires p in w.nodes && AcksValid(w) && AcksKept(w)
    requires r.log == w.nodes[p].log && r.term >= w.nodes[p].term
    ensures AcksValid(Put(w, p, r)) && AcksKept(Put(w, p, r))
  {
    var w' := Put(w, p, r);
    forall v, t: nat, n: nat
      ensures AckKept(w', v, t, n)
    {
      assert AckKept(w, v, t, n);
      if v == p && Holds(w.sent, w.elect, w.llog, v, t, n) && Overruled(w.llog, t, n, w.nodes[p].term) {
        OverruledGrows(w.llog, w.llog, t, n, w.nodes[p].term, r.term);
      }
    }
  }

  lemma CoverKept(cfg: Config, w: World, p: NodeID, r: Raft)
    requires p in w.nodes && NodesCovered(cfg, w) && RequestsCovered(cfg, w)
    requires Covered(cfg, w, r.log, r.commitIndex, r.term)
    ensures NodesCovered(cfg, Put(w, p, r)) && RequestsCovered(cfg, Put(w, p, r))
  {
    var w' := Put(w, p, r);
    forall log: Log, c: nat, hi: nat | Covered(cfg, w, log, c, hi)
      ensures Covered(cfg, w', log, c, hi)
    {
      CoveredGrows(cfg, w, w', log, c, hi, log, hi);
    }
  }

  lemma QuietKeeps(cfg: Config, w: World, p: NodeID, r: Raft)
    requires Commitment.Inv(cfg, w) && p in w.nodes && Quiet(w, p, r)
    ensures Commitment.Inv(cfg, Put(w, p, r))
  {
    QuietKeepsAcks(w, p, r);
    CoveredGrows(cfg, w, w, r.log, r.commitIndex, w.nodes[p].term, r.log, r.term);
    CoverKept(cfg, w, p, r);
    QuietKeepsVotes(cfg, w, p, r);
    Voters.SameLogKeeps(w, p, r);
  }

  lemma QuietKeepsVotes(cfg: Config, w: World, p: NodeID, r: Raft)
    requires VotesInformed(w) && ElectionsInformed(w) && MatchesAcked(cfg, w) && BallotsCurrent(w)
    requires p in w.nodes && Quiet(w, p, r)
    ensures var w' := Put(w, p, r);
      VotesInformed(w') && ElectionsInformed(w') && MatchesAcked(cfg, w') && BallotsCurrent(w')
  {
    var w' := Put(w, p, r);
    forall v, c, t: nat, n: nat
      ensures VoteInformed(w', v, c, t, n)
    {
      assert VoteInformed(w, v, c, t, n);
    }
    forall u: nat, v, t: nat, n: nat
      ensures ElectionInformed(w', u, v, t, n)
    {
      assert ElectionInformed(w, u, v, t, n);
    }
  }

  // ---------- Campaigns ----------

  lemma CampaignKeepsVotes(cfg: Config, w: World, p: NodeID)
    requires Commitment.Inv(cfg, w) && p in w.nodes
    requires ElectionSafety.Shape(cfg, w) && ElectionSafety.VotersLocked(cfg, w) && ElectionSafety.RequestsRecorded(w)
    ensures var w' := CampaignAt(w, p);
      VotesInformed(w') && ElectionsInformed(w') && MatchesAcked(cfg, w') && BallotsCurrent(w')
  {
    // Nobody has voted for p, or been asked to, in a term it only now enters.
    var w' := CampaignAt(w, p);
    var t0 := w.nodes[p].term + 1;
    assert forall v :: !Granted(w.sent, v, p, t0);
    forall v, c, t: nat, n: nat
      ensures VoteInformed(w', v, c, t, n)
    {
      assert VoteInformed(w, v, c, t, n);
    }
    forall u: nat, v, t: nat, n: nat
      ensures ElectionInformed(w', u, v, t, n)
    {
      assert ElectionInformed(w, u, v, t, n);
    }
  }

  lemma CampaignKeeps(cfg: Config, w: World, p: NodeID)
    requires Commitment.Inv(cfg, w) && ElectionSafety.Inv(cfg, w) && p in w.nodes
    ensures Commitment.Inv(cfg, CampaignAt(w, p))
  {
    var r := Rafts.Campaign(w.nodes[p], p);
    QuietKeepsAcks(w, p, r);
    CoveredGrows(cfg, w, w, r.log, r.commitIndex, w.nodes[p].term, r.log, r.term);
    CoverKept(cfg, w, p, r);
    CampaignKeepsVotes(cfg, w, p);
    assert forall v :: !Granted(w.sent, v, p, r.term);
    Voters.SameLogKeeps(w, p, r);
  }

  // ---------- Elections ----------

  // A log that contains an own entry of t is at least that recent.
  lemma ContainingProtects(w: World, log: Log, t: nat, n: nat)
    requires Histories(w) && Rooted(w.llog, log)
    requires OwnEntry(w.llog, t, n) && StartsWith(log, Upto(w.llog, t, n))
    ensures Protects(log, t, n)
  {
    RootedNondecreasing(w, log);
    assert log[n - 1] == Upto(w.llog, t, n)[n - 1];
    assert log[n - 1].term <= log[|log| - 1].term;
  }

  // What the voters of a new leader tell it.
  lemma ElectIsInformed(cfg: Config, w: World, p: NodeID, v: NodeID, t: nat, n: nat)
    requires AcksKept(w) && VotesInformed(w) && Histories(w) && NodeLogs(w)
    requires p in w.nodes && w.nodes[p].role == Candidate && w.nodes[p].term !in w.elect
    requires v == p || Granted(w.sent, v, p, w.nodes[p].term)
    requires Holds(w.sent, w.elect, w.llog, v, t, n) && t < w.nodes[p].term && OwnEntry(w.llog, t, n)
    ensures Protects(w.nodes[p].log, t, n) || Overruled(w.llog, t, n, w.nodes[p].term - 1)
  {
    var r := w.nodes[p];
    assert AckKept(w, v, t, n) && VoteInformed(w, v, p, t, n);
    if v == p && StartsWith(r.log, Upto(w.llog, t, n)) {
      ContainingProtects(w, r.log, t, n);
    } else if !Protects(r.log, t, n) {
      assert Overruled(w.llog, t, n, r.term);
      var u :| u in w.llog && t < u <= r.term && Conflict(w.llog[u], Upto(w.llog, t, n));
      assert u != r.term;
    }
  }

  // Winning adds to who is known to hold what only the winner's own log.
  lemma ElectHolds(w: World, p: NodeID, v: NodeID, t: nat, n: nat)
    requires AcksValid(w) && p in w.nodes && w.nodes[p].term !in w.elect && w.llog.Keys == w.elect.Keys
    requires var r := w.nodes[p];
      Holds(w.sent, w.elect[r.term := Election(p, r.votes, r.log)], w.llog[r.term := r.log], v, t, n)
    ensures t == w.nodes[p].term ==> v == p && n <= |w.nodes[p].log|
    ensures t != w.nodes[p].term ==> Holds(w.sent, w.elect, w.llog, v, t, n)
  {
    var r := w.nodes[p];
    assert forall m: nat :: !AckSent(w.sent, v, p, r.term, m);
    if t != r.term && v != w.elect[t].leader {
      var m :| m >= n && AckSent(w.sent, v, w.elect[t].leader, t, m);
    }
  }

  lemma ElectKeepsAcks(cfg: Config, w: World, p: NodeID)
    requires AcksValid(w) && AcksKept(w) && Histories(w)
    requires p in w.nodes && w.nodes[p].term !in w.elect
    ensures AcksValid(ElectAt(cfg, w, p)) && AcksKept(ElectAt(cfg, w, p))
  {
    var w' := ElectAt(cfg, w, p);
    assert Extends(w.llog, w'.llog);
    forall v, t: nat, n: nat
      ensures AckKept(w', v, t, n)
    {
      if Holds(w'.sent, w'.elect, w'.llog, v, t, n) && v in w.nodes {
        ElectHolds(w, p, v, t, n);
        assert AckKept(w, v, t, n);
        if t != w.nodes[p].term && Overruled(w.llog, t, n, w.nodes[v].term) {
          OverruledGrows(w.llog, w'.llog, t, n, w.nodes[v].term, w.nodes[v].term);
        }
      }
    }
  }

  lemma VoterHasMovedOn(cfg: Config, w: World, u: nat, v: NodeID)
    requires ElectionSafety.Shape(cfg, w) && ElectionSafety.VotersLocked(cfg, w) && ElectionSafety.ElectionsWon(cfg, w)
    requires u in w.elect && v in w.elect[u].voters
    ensures v in w.nodes && w.nodes[v].term >= u
  {
    if v != w.elect[u].leader {
      assert Granted(w.sent, v, w.elect[u].leader, u);
    }
  }

  lemma ElectedVoter(cfg: Config, w: World, p: NodeID, v: NodeID)
    requires ElectionSafety.Shape(cfg, w) && ElectionSafety.Campaigners(w)
    requires p in w.nodes && w.nodes[p].role == Candidate && v in w.nodes[p].votes
    ensures v == p || Granted(w.sent, v, p, w.nodes[p].term)
  {
  }

  lemma ElectInforms(cfg: Config, w: World, p: NodeID, u: nat, v: NodeID, t: nat, n: nat)
    requires AcksValid(w) && AcksKept(w) && VotesInformed(w) && ElectionsInformed(w)
    requires Histories(w) && NodeLogs(w)
    requires ElectionSafety.Shape(cfg, w) && ElectionSafety.Campaigners(w)
    requires ElectionSafety.VotersLocked(cfg, w) && ElectionSafety.ElectionsWon(cfg, w)
    requires p in w.nodes && w.nodes[p].role == Candidate && w.nodes[p].term !in w.elect
    requires var w' := ElectAt(cfg, w, p);
      && u in w'.elect && v in w'.elect[u].voters
      && Holds(w'.sent, w'.elect, w'.llog, v, t, n) && t < u && OwnEntry(w'.llog, t, n)
    ensures var w' := ElectAt(cfg, w, p);
      Protects(w'.elect[u].init, t, n) || Overruled(w'.llog, t, n, u - 1)
  {
    hide AcksValid, AcksKept, VotesInformed, NodeLogs, ElectionSafety.Campaigners, ElectionSafety.VotersLocked,
          GrownFrom;
    hide Protects, Overruled, Conflict;
    var w', t0 := ElectAt(cfg, w, p), w.nodes[p].term;
    ElectHolds(w, p, v, t, n);
    if u != t0 {
      VoterHasMovedOn(cfg, w, u, v);
      assert t != t0;
      assert ElectionInformed(w, u, v, t, n);
    } else {
      ElectedVoter(cfg, w, p, v);
      ElectIsInformed(cfg, w, p, v, t, n);
    }
    if Overruled(w.llog, t, n, u - 1) {
      hide ElectionInformed, Holds, Histories, ElectionSafety.Shape;
      assert Extends(w.llog, w'.llog);
      OverruledGrows(w.llog, w'.llog, t, n, u - 1, u - 1);
    }
  }

  lemma ElectKeepsElections(cfg: Config, w: World, p: NodeID)
    requires AcksValid(w) && AcksKept(w) && VotesInformed(w) && ElectionsInformed(w)
    requires Histories(w) && NodeLogs(w)
    requires ElectionSafety.Shape(cfg, w) && ElectionSafety.Campaigners(w)
    requires ElectionSafety.VotersLocked(cfg, w) && ElectionSafety.ElectionsWon(cfg, w)
    requires p in w.nodes && w.nodes[p].role == Candidate && w.nodes[p].term !in w.elect
    ensures ElectionsInformed(ElectAt(cfg, w, p))
  {
    var w' := ElectAt(cfg, w, p);
    forall u: nat, v, t: nat, n: nat
      ensures ElectionInformed(w', u, v, t, n)
    {
      if u in w'.elect && v in w'.elect[u].voters
         && Holds(w'.sent, w'.elect, w'.llog, v, t, n) && t < u && OwnEntry(w'.llog, t, n) {
        ElectInforms(cfg, w, p, u, v, t, n);
      }
    }
  }

  lemma ElectKeepsVotes(cfg: Config, w: World, p: NodeID)
    requires AcksValid(w) && VotesInformed(w) && Histories(w)
    requires ElectionSafety.Shape(cfg, w) && ElectionSafety.VotersLocked(cfg, w)
    requires p in w.nodes && w.nodes[p].role == Candidate && w.nodes[p].term !in w.elect
    ensures VotesInformed(ElectAt(cfg, w, p))
  {
    var w' := ElectAt(cfg, w, p);
    assert Extends(w.llog, w'.llog);
    forall v, c, t: nat, n: nat
      ensures VoteInformed(w', v, c, t, n)
    {
      if c in w'.nodes && w'.nodes[c].role == Candidate && Granted(w'.sent, v, c, w'.nodes[c].term)
         && Holds(w'.sent, w'.elect, w'.llog, v, t, n) && t < w'.nodes[c].term && OwnEntry(w'.llog, t, n) {
        ElectHolds(w, p, v, t, n);
        assert VoteInformed(w, v, c, t, n) && t != w.nodes[p].term;
        if Overruled(w.llog, t, n, w.nodes[c].term) {
          OverruledGrows(w.llog, w'.llog, t, n, w.nodes[c].term, w.nodes[c].term);
        }
      }
    }
  }

  lemma ElectKeeps(cfg: Config, w: World, p: NodeID)
    requires Commitment.Inv(cfg, w) && LogMatching.Inv(w) && ElectionSafety.Inv(cfg, w)
    requires p in w.nodes && w.nodes[p].role == Candidate && w.nodes[p].term !in w.elect
    ensures Commitment.Inv(cfg, ElectAt(cfg, w, p))
  {
    var w' := ElectAt(cfg, w, p);
    ElectKeepsAcks(cfg, w, p);
    ElectKeepsVotes(cfg, w, p);
    ElectKeepsElections(cfg, w, p);
    ElectKeepsCover(cfg, w, p);
    ElectKeepsIndexes(cfg, w, p);
    Voters.ElectKeeps(cfg, w, p);
  }

  lemma ElectKeepsIndexes(cfg: Config, w: World, p: NodeID)
    requires MatchesAcked(cfg, w) && BallotsCurrent(w)
    requires ElectionSafety.Shape(cfg, w) && ElectionSafety.LeadersRecorded(w)
    requires p in w.nodes && w.nodes[p].role == Candidate && w.nodes[p].term !in w.elect
    ensures MatchesAcked(cfg, ElectAt(cfg, w, p)) && BallotsCurrent(ElectAt(cfg, w, p))
  {
    hide Covered, Committed, Served;
    var w' := ElectAt(cfg, w, p);
    SetForOthersIsExact(w.nodes[p].matchIndex, cfg.members, p, 0);
    assert forall v :: v in w.nodes.Keys ==> v in cfg.members;
    forall q, v | q in w.nodes && v in w.nodes && v != q
      ensures MatchAcked(cfg, w', q, w'.nodes[q], v)
    {
      assert MatchAcked(cfg, w, q, w.nodes[q], v);
    }
  }

  lemma NodeCoverageGrows(cfg: Config, w: World, w': World)
    requires Later(w, w') && NodesCovered(cfg, w)
    requires forall q :: q in w.nodes ==>
      && w'.nodes[q].commitIndex == w.nodes[q].commitIndex && w'.nodes[q].term >= w.nodes[q].term
      && StartsWith(w'.nodes[q].log, w.nodes[q].log)
    ensures NodesCovered(cfg, w')
  {
    forall q | q in w'.nodes
      ensures Covered(cfg, w', w'.nodes[q].log, w'.nodes[q].commitIndex, w'.nodes[q].term)
    {
      var a, b := w.nodes[q], w'.nodes[q];
      assert b.log[..a.commitIndex] == b.log[..|a.log|][..a.commitIndex];
      CoveredGrows(cfg, w, w', a.log, a.commitIndex, a.term, b.log, b.term);
    }
  }

  lemma ElectKeepsCover(cfg: Config, w: World, p: NodeID)
    requires NodesCovered(cfg, w) && RequestsCovered(cfg, w) && RequestsServed(w)
    requires p in w.nodes && w.nodes[p].term !in w.elect && w.llog.Keys == w.elect.Keys
    ensures NodesCovered(cfg, ElectAt(cfg, w, p)) && RequestsCovered(cfg, ElectAt(cfg, w, p))
  {
    var w' := ElectAt(cfg, w, p);
    assert Later(w, w');
    NodeCoverageGrows(cfg, w, w');
    CoverageGrows(cfg, w, w');
  }

  // ---------- Proposals ----------

  lemma ProposeHolds(w: World, p: NodeID, v: NodeID, t: nat, n: nat, llog: map<nat, Log>)
    requires AcksValid(w) && p in w.nodes && w.nodes[p].role == Leader
    requires ElectionSafety.LeadersRecorded(w) && w.llog.Keys == w.elect.Keys
    requires llog.Keys == w.llog.Keys && forall u :: u in llog && u != w.nodes[p].term ==> llog[u] == w.llog[u]
    requires Holds(w.sent, w.elect, llog, v, t, n)
    ensures Holds(w.sent, w.elect, w.llog, v, t, n) || (v == p && t == w.nodes[p].term)
  {
    if v != w.elect[t].leader {
      var m :| m >= n && AckSent(w.sent, v, w.elect[t].leader, t, m);
    }
  }

  lemma ProposeKeepsAcks(w: World, p: NodeID, cmd: string)
    requires AcksValid(w) && AcksKept(w) && Histories(w) && NodeLogs(w) && ElectionSafety.LeadersRecorded(w)
    requires p in w.nodes && w.nodes[p].role == Leader
    ensures AcksValid(ProposeAt(w, p, cmd)) && AcksKept(ProposeAt(w, p, cmd))
  {
    var w' := ProposeAt(w, p, cmd);
    var r, r' := w.nodes[p], w'.nodes[p];
    assert r'.log[..|r.log|] == r.log;
    assert Extends(w.llog, w'.llog);
    forall v, t: nat, n: nat
      ensures AckKept(w', v, t, n)
    {
      if Holds(w'.sent, w'.elect, w'.llog, v, t, n) && v in w.nodes && !(v == p && t == r.term) {
        ProposeHolds(w, p, v, t, n, w'.llog);
        assert AckKept(w, v, t, n);
        UptoGrows(w.llog, w'.llog, t, n);
        if Overruled(w.llog, t, n, w.nodes[v].term) {
          OverruledGrows(w.llog, w'.llog, t, n, w.nodes[v].term, w.nodes[v].term);
        } else if v == p {
          assert r'.log[..n] == r.log[..n];
        }
      }
    }
  }

  lemma UptoGrows(llog: map<nat, Log>, llog': map<nat, Log>, t: nat, n: nat)
    requires Extends(llog, llog') && t in llog && n <= |llog[t]|
    ensures Upto(llog', t, n) == Upto(llog, t, n)
    ensures OwnEntry(llog', t, n) <==> OwnEntry(llog, t, n)
  {
    assert StartsWith(llog'[t], llog[t]);
    assert llog'[t][..|llog[t]|][..n] == llog'[t][..n];
  }

  lemma ProposeInformed(cfg: Config, w: World, p: NodeID, w': World, u: nat, v: NodeID, t: nat, n: nat)
    requires AcksValid(w) && ElectionsInformed(w) && Histories(w)
    requires ElectionSafety.Shape(cfg, w) && ElectionSafety.LeadersRecorded(w)
    requires ElectionSafety.VotersLocked(cfg, w) && ElectionSafety.ElectionsWon(cfg, w)
    requires p in w.nodes && w.nodes[p].role == Leader && w'.elect == w.elect && w'.sent == w.sent
    requires Extends(w.llog, w'.llog) && w'.llog.Keys == w.llog.Keys
    requires forall x :: x in w'.llog && x != w.nodes[p].term ==> w'.llog[x] == w.llog[x]
    requires u in w.elect && v in w.elect[u].voters
    requires Holds(w.sent, w.elect, w'.llog, v, t, n) && t < u && OwnEntry(w'.llog, t, n)
    ensures Protects(w.elect[u].init, t, n) || Overruled(w'.llog, t, n, u - 1)
  {
    assert w.llog.Keys == w.elect.Keys;
    hide AcksValid, Histories, Protects, Overruled, Extends, ElectionSafety.Shape, ElectionSafety.VotersLocked;
    hide ElectionSafety.ElectionsWon, ElectionSafety.LeadersRecorded;
    ProposeHolds(w, p, v, t, n, w'.llog);
    VoterHasMovedOn(cfg, w, u, v);
    UptoGrows(w.llog, w'.llog, t, n);
    assert ElectionInformed(w, u, v, t, n);
    if Overruled(w.llog, t, n, u - 1) {
      OverruledGrows(w.llog, w'.llog, t, n, u - 1, u - 1);
    }
  }

  lemma ProposedWorld(w: World, p: NodeID, cmd: string)
    requires NodeLogs(w) && p in w.nodes && w.nodes[p].role == Leader
    ensures var w' := ProposeAt(w, p, cmd);
      && w'.elect == w.elect && w'.sent == w.sent && w'.llog.Keys == w.llog.Keys && Extends(w.llog, w'.llog)
      && forall x :: x in w'.llog && x != w.nodes[p].term ==> w'.llog[x] == w.llog[x]
  {
    var w' := ProposeAt(w, p, cmd);
    assert w'.nodes[p].log[..|w.nodes[p].log|] == w.nodes[p].log;
  }

  // A proposer has not voted in any later term, so nothing it newly holds is owed to anyone.
  lemma ProposeKeepsElections(cfg: Config, w: World, p: NodeID, cmd: string)
    requires AcksValid(w) && ElectionsInformed(w) && Histories(w) && NodeLogs(w)
    requires ElectionSafety.Shape(cfg, w) && ElectionSafety.LeadersRecorded(w)
    requires ElectionSafety.VotersLocked(cfg, w) && ElectionSafety.ElectionsWon(cfg, w)
    requires p in w.nodes && w.nodes[p].role == Leader
    ensures ElectionsInformed(ProposeAt(w, p, cmd))
  {
    hide AcksValid, Histories, NodeLogs, Holds, OwnEntry, Protects, Overruled, ProposeAt, Extends;
    hide ElectionSafety.Shape, ElectionSafety.LeadersRecorded, ElectionSafety.VotersLocked, ElectionSafety.ElectionsWon;
    var w' := ProposeAt(w, p, cmd);
    ProposedWorld(w, p, cmd);
    forall u: nat, v, t: nat, n: nat
      ensures ElectionInformed(w', u, v, t, n)
    {
      if u in w'.elect && v in w'.elect[u].voters
         && Holds(w'.sent, w'.elect, w'.llog, v, t, n) && t < u && OwnEntry(w'.llog, t, n) {
        ProposeInformed(cfg, w, p, w', u, v, t, n);
      }
    }
  }

  lemma ProposeKeepsVotes(cfg: Config, w: World, p: NodeID, cmd: string)
    requires AcksValid(w) && VotesInformed(w) && Histories(w) && NodeLogs(w)
    requires ElectionSafety.Shape(cfg, w) && ElectionSafety.LeadersRecorded(w) && ElectionSafety.VotersLocked(cfg, w)
    requires p in w.nodes && w.nodes[p].role == Leader
    ensures VotesInformed(ProposeAt(w, p, cmd))
  {
    var w' := ProposeAt(w, p, cmd);
    assert w'.nodes[p].log[..|w.nodes[p].log|] == w.nodes[p].log;
    assert Extends(w.llog, w'.llog);
    forall v, c, t: nat, n: nat
      ensures VoteInformed(w', v, c, t, n)
    {
      if c in w'.nodes && w'.nodes[c].role == Candidate && Granted(w'.sent, v, c, w'.nodes[c].term)
         && Holds(w'.sent, w'.elect, w'.llog, v, t, n) && t < w'.nodes[c].term && OwnEntry(w'.llog, t, n) {
        ProposeHolds(w, p, v, t, n, w'.llog);
        UptoGrows(w.llog, w'.llog, t, n);
        assert VoteInformed(w, v, c, t, n);
        if Overruled(w.llog, t, n, w.nodes[c].term) {
          OverruledGrows(w.llog, w'.llog, t, n, w.nodes[c].term, w.nodes[c].term);
        }
      }
    }
  }

  lemma ProposeKeeps(cfg: Config, w: World, p: NodeID, cmd: string)
    requires Commitment.Inv(cfg, w) && LogMatching.Inv(w) && ElectionSafety.Inv(cfg, w)
    requires p in w.nodes && w.nodes[p].role == Leader
    ensures Commitment.Inv(cfg, ProposeAt(w, p, cmd))
  {
    ProposeKeepsAcks(w, p, cmd);
    ProposeKeepsVotes(cfg, w, p, cmd);
    ProposeKeepsElections(cfg, w, p, cmd);
    ProposeKeepsCover(cfg, w, p, cmd);
    ProposeKeepsIndexes(cfg, w, p, cmd);
    Voters.ProposeKeeps(w, p, cmd);
  }

  lemma ProposeKeepsIndexes(cfg: Config, w: World, p: NodeID, cmd: string)
    requires MatchesAcked(cfg, w) && BallotsCurrent(w) && p in w.nodes && w.nodes[p].role == Leader
    ensures MatchesAcked(cfg, ProposeAt(w, p, cmd)) && BallotsCurrent(ProposeAt(w, p, cmd))
  {
  }

  lemma ProposeKeepsCover(cfg: Config, w: World, p: NodeID, cmd: string)
    requires NodesCovered(cfg, w) && RequestsCovered(cfg, w) && RequestsServed(w) && NodeLogs(w)
    requires p in w.nodes && w.nodes[p].role == Leader
    ensures NodesCovered(cfg, ProposeAt(w, p, cmd)) && RequestsCovered(cfg, ProposeAt(w, p, cmd))
  {
    var w' := ProposeAt(w, p, cmd);
    assert w'.nodes[p].log[..|w.nodes[p].log|] == w.nodes[p].log;
    assert Later(w, w');
    NodeCoverageGrows(cfg, w, w');
    CoverageGrows(cfg, w, w');
  }

  // ---------- A follower takes entries ----------

  // Any part of the log that survives no conflict with the leader is kept.
  lemma SpliceKeeps(log: Log, lead: Log, prev: nat, entries: seq<Entry>, n: nat)
    requires prev <= |log| && n <= |log| && prev + |entries| <= |lead|
    requires entries == lead[prev..prev + |entries|]
    requires forall i :: 0 <= i < n && i < |lead| ==> log[i] == lead[i]
    ensures StartsWith(Splice(log, prev, entries), log[..n])
  {
    var k := Agreeing(log, prev, entries);
    var s := Splice(log, prev, entries);
    if k < |entries| {
      assert entries[k] == lead[prev + k];
      assert prev + k >= n || prev + k == |log|;
      assert s[..n] == log[..n];
    }
  }

  lemma NoConflict(lead: Log, log: Log, n: nat)
    requires n <= |log| && !Conflict(lead, log[..n])
    ensures forall i :: 0 <= i < n && i < |lead| ==> log[i] == lead[i]
  {
    forall i | 0 <= i < n && i < |lead|
      ensures log[i] == lead[i]
    {
      assert log[..n][i] == log[i];
    }
  }

  lemma TakeKeepsPrefix(llog: map<nat, Log>, log: Log, m: Payload, t: nat, n: nat)
    requires t in llog && n <= |llog[t]| && StartsWith(log, Upto(llog, t, n))
    requires m.AppendReq? && m.term in llog && t <= m.term
    requires m.prevIndex <= |log| && m.prevIndex + |m.entries| <= |llog[m.term]|
    requires m.entries == llog[m.term][m.prevIndex..m.prevIndex + |m.entries|]
    ensures StartsWith(Splice(log, m.prevIndex, m.entries), Upto(llog, t, n)) || Overruled(llog, t, n, m.term)
  {
    var lead := llog[m.term];
    assert log[..n] == Upto(llog, t, n);
    if Conflict(lead, log[..n]) {
      assert t != m.term;
      assert m.term in llog && t < m.term <= m.term;
    } else {
      NoConflict(lead, log, n);
      SpliceKeeps(log, lead, m.prevIndex, m.entries, n);
    }
  }

  lemma TakeKeepsAcks(cfg: Config, w: World, p: NodeID, m: Payload)
    requires AcksValid(w) && AcksKept(w) && Histories(w) && NodeLogs(w)
    requires p in w.nodes && m.AppendReq? && m.term == w.nodes[p].term
    requires m.term in w.llog && Served(w.llog[m.term], m)
    requires Matches(w.nodes[p].log, m.prevIndex, m.prevTerm) && m.prevIndex <= |w.nodes[p].log|
    ensures AcksValid(TakeAt(w, p, m)) && AcksKept(TakeAt(w, p, m))
  {
    var w' := TakeAt(w, p, m);
    MatchingRequestIsSlice(w, w.nodes[p].log, m);
    forall v, t: nat, n: nat
      ensures AckKept(w', v, t, n)
    {
      assert AckKept(w, v, t, n);
      if v == p && Holds(w.sent, w.elect, w.llog, p, t, n) && StartsWith(w.nodes[p].log, Upto(w.llog, t, n)) {
        TakeKeepsPrefix(w.llog, w.nodes[p].log, m, t, n);
      }
    }
  }

  lemma CommittedIsKept(cfg: Config, w: World, t: nat, n: nat, u: nat)
    requires cfg.Valid() && w.nodes.Keys == ToSet(cfg.members)
    requires ElectionSafety.ElectionsWon(cfg, w) && Histories(w) && ElectionsInformed(w)
    requires Committed(cfg, w, t, n) && u in w.elect && u >= t
    ensures StartsWith(w.llog[u], Upto(w.llog, t, n))
  {
    assert OwnEntry(w.llog, t, n) && Histories(w);
    if u > t {
      CommittedIsInherited(cfg, w, t, n, u);
      assert GrownFrom(w.elect[u].init, w.llog[u], u);
      hide Histories, ElectionsInformed, ElectionSafety.ElectionsWon, Committed, Rooted;
      assert w.llog[u][..n] == w.elect[u].init[..n];
    }
  }

  lemma PrefixOfUpto(cfg: Config, w: World, t: nat, n: nat, u: nat, c: nat)
    requires Committed(cfg, w, t, n) && Histories(w) && u in w.llog && c <= n
    requires StartsWith(w.llog[u], Upto(w.llog, t, n))
    ensures StartsWith(w.llog[u], Upto(w.llog, t, n)[..c])
  {
    hide HoldEnough;
    assert w.llog[u][..n][..c] == w.llog[u][..c];
  }

  // What is committed agrees with every leader of this or a later term.
  lemma CoveredAgrees(cfg: Config, w: World, log: Log, c: nat, hi: nat, u: nat)
    requires cfg.Valid() && w.nodes.Keys == ToSet(cfg.members)
    requires ElectionSafety.ElectionsWon(cfg, w) && Histories(w) && ElectionsInformed(w)
    requires Covered(cfg, w, log, c, hi) && hi <= u && u in w.elect
    ensures StartsWith(w.llog[u], log[..c])
  {
    if c > 0 {
      var t: nat, n: nat :| Committed(cfg, w, t, n) && t <= hi && c <= n && log[..c] == Upto(w.llog, t, n)[..c];
      hide ElectionSafety.ElectionsWon, ElectionsInformed, Histories, Committed;
      CommittedIsKept(cfg, w, t, n, u);
      PrefixOfUpto(cfg, w, t, n, u, c);
    }
  }

  // What a follower had committed stays covered by the spliced log.
  lemma OldCommitIsCovered(cfg: Config, w: World, lead: Log, log: Log, c: nat, hi: nat, m: Payload)
    requires Covered(cfg, w, log, c, hi) && StartsWith(lead, log[..c])
    requires m.AppendReq? && m.prevIndex <= |log| && m.prevIndex + |m.entries| <= |lead|
    requires m.entries == lead[m.prevIndex..m.prevIndex + |m.entries|]
    ensures Covered(cfg, w, Splice(log, m.prevIndex, m.entries), c, hi)
  {
    forall i | 0 <= i < c && i < |lead|
      ensures log[i] == lead[i]
    {
      assert log[..c][i] == lead[..c][i];
    }
    SpliceKeeps(log, lead, m.prevIndex, m.entries, c);
    CoveredGrows(cfg, w, w, log, c, hi, Splice(log, m.prevIndex, m.entries), hi);
  }

  // No entry has term 0, so a probe past the end matches nothing.
  lemma MatchNeedsTerm(w: World, log: Log, m: Payload)
    requires Histories(w) && Rooted(w.llog, log) && m.AppendReq?
    requires Matches(log, m.prevIndex, m.prevTerm) && Reaches(m)
    ensures m.leaderCommit <= m.prevIndex + |m.entries|
  {
    if m.prevIndex > 0 {
      assert log[m.prevIndex - 1].term in w.elect;
    }
  }

  // A higher commit index is the leader's, and the request carried it that far.
  lemma NewCommitIsCovered(cfg: Config, w: World, log: Log, m: Payload)
    requires Histories(w) && Rooted(w.llog, log)
    requires m.AppendReq? && m.term in w.llog && Served(w.llog[m.term], m)
    requires Covered(cfg, w, w.llog[m.term], m.leaderCommit, m.term)
    requires Matches(log, m.prevIndex, m.prevTerm) && Reaches(m)
    ensures var s := Splice(log, m.prevIndex, m.entries);
      Covered(cfg, w, s, Min(m.leaderCommit, |s|), m.term)
  {
    var s, n := Splice(log, m.prevIndex, m.entries), m.prevIndex + |m.entries|;
    var lead := w.llog[m.term];
    TakeFollowsLeader(w, log, m);
    MatchNeedsTerm(w, log, m);
    hide Histories, Rooted, Covered, Served;
    var c := m.leaderCommit;
    assert s[..n][..c] == s[..c] && lead[..n][..c] == lead[..c];
    CoveredShrinks(cfg, w, lead, c, m.term, c, s);
  }

  lemma TakeIsCovered(cfg: Config, w: World, p: NodeID, m: Payload)
    requires cfg.Valid() && w.nodes.Keys == ToSet(cfg.members)
    requires ElectionSafety.ElectionsWon(cfg, w) && Histories(w) && NodeLogs(w) && ElectionsInformed(w)
    requires NodesCovered(cfg, w)
    requires p in w.nodes && m.AppendReq? && m.term == w.nodes[p].term
    requires m.term in w.llog && Served(w.llog[m.term], m)
    requires Covered(cfg, w, w.llog[m.term], m.leaderCommit, m.term)
    requires Matches(w.nodes[p].log, m.prevIndex, m.prevTerm) && Reaches(m)
    ensures var r := TakeEntries(w.nodes[p], m.prevIndex, m.entries, m.leaderCommit);
      Covered(cfg, w, r.log, r.commitIndex, r.term)
  {
    var q := w.nodes[p];
    if m.leaderCommit > q.commitIndex {
      NewCommitIsCovered(cfg, w, q.log, m);
    } else {
      MatchingRequestIsSlice(w, q.log, m);
      CoveredAgrees(cfg, w, q.log, q.commitIndex, q.term, q.term);
      OldCommitIsCovered(cfg, w, w.llog[m.term], q.log, q.commitIndex, q.term, m);
    }
  }

  // A smaller commit index over a log that starts the same way is covered too.
  lemma CoveredShrinks(cfg: Config, w: World, log: Log, c: nat, hi: nat, c': nat, log': Log)
    requires Covered(cfg, w, log, c, hi)
    requires c' <= c && c' <= |log'| && log'[..c'] == log[..c']
    ensures Covered(cfg, w, log', c', hi)
  {
    if c' > 0 {
      var t: nat, n: nat :| Committed(cfg, w, t, n) && t <= hi && c <= n && log[..c] == Upto(w.llog, t, n)[..c];
      assert log[..c][..c'] == log[..c'];
      assert Upto(w.llog, t, n)[..c][..c'] == Upto(w.llog, t, n)[..c'];
    }
  }

  lemma TakeKeeps(cfg: Config, w: World, p: NodeID, m: Payload)
    requires cfg.Valid() && Commitment.Inv(cfg, w) && LogMatching.Inv(w) && ElectionSafety.Inv(cfg, w)
    requires p in w.nodes && m.AppendReq? && m.term == w.nodes[p].term && w.nodes[p].role == Follower
    requires m.term in w.llog && Served(w.llog[m.term], m)
    requires Covered(cfg, w, w.llog[m.term], m.leaderCommit, m.term)
    requires Matches(w.nodes[p].log, m.prevIndex, m.prevTerm) && Reaches(m)
    requires Voters.CoversInit(w, m)
    ensures Commitment.Inv(cfg, TakeAt(w, p, m))
  {
    TakeKeepsAcks(cfg, w, p, m);
    TakeIsCovered(cfg, w, p, m);
    CoverKept(cfg, w, p, TakeEntries(w.nodes[p], m.prevIndex, m.entries, m.leaderCommit));
    TakeKeepsVotes(cfg, w, p, m);
    Voters.TakeKeeps(w, p, m);
  }

  lemma TakeKeepsVotes(cfg: Config, w: World, p: NodeID, m: Payload)
    requires VotesInformed(w) && ElectionsInformed(w) && MatchesAcked(cfg, w) && BallotsCurrent(w)
    requires p in w.nodes && m.AppendReq? && w.nodes[p].role == Follower && m.prevIndex <= |w.nodes[p].log|
    ensures var w' := TakeAt(w, p, m);
      VotesInformed(w') && ElectionsInformed(w') && MatchesAcked(cfg, w') && BallotsCurrent(w')
  {
    var w' := TakeAt(w, p, m);
    forall v, c, t: nat, n: nat
      ensures VoteInformed(w', v, c, t, n)
    {
      assert VoteInformed(w, v, c, t, n);
    }
    forall u: nat, v, t: nat, n: nat
      ensures ElectionInformed(w', u, v, t, n)
    {
      assert ElectionInformed(w, u, v, t, n);
    }
  }

  // ---------- The leader counts and commits ----------

  lemma IndexesKeep(cfg: Config, w: World, p: NodeID, r: Raft)
    requires Commitment.Inv(cfg, w) && p in w.nodes
    requires r == w.nodes[p].(nextIndex := r.nextIndex, matchIndex := r.matchIndex, commitIndex := r.commitIndex)
    requires forall v :: v in w.nodes && v != p ==> MatchAcked(cfg, w, p, r, v)
    requires Covered(cfg, w, r.log, r.commitIndex, r.term)
    ensures Commitment.Inv(cfg, Put(w, p, r))
  {
    QuietKeepsAcks(w, p, r);
    CoverKept(cfg, w, p, r);
    IndexesKeepVotes(cfg, w, p, r);
    Voters.SameLogKeeps(w, p, r);
  }

  lemma IndexesKeepVotes(cfg: Config, w: World, p: NodeID, r: Raft)
    requires VotesInformed(w) && ElectionsInformed(w) && MatchesAcked(cfg, w) && BallotsCurrent(w) && p in w.nodes
    requires r == w.nodes[p].(nextIndex := r.nextIndex, matchIndex := r.matchIndex, commitIndex := r.commitIndex)
    requires forall v :: v in w.nodes && v != p ==> MatchAcked(cfg, w, p, r, v)
    ensures var w' := Put(w, p, r);
      VotesInformed(w') && ElectionsInformed(w') && MatchesAcked(cfg, w') && BallotsCurrent(w')
  {
    var w' := Put(w, p, r);
    forall v, c, t: nat, n: nat
      ensures VoteInformed(w', v, c, t, n)
    {
      assert VoteInformed(w, v, c, t, n);
    }
    forall u: nat, v, t: nat, n: nat
      ensures ElectionInformed(w', u, v, t, n)
    {
      assert ElectionInformed(w, u, v, t, n);
    }
  }

  // Of any majority enough members are trusted to have one in every other.
  lemma EnoughTrusted(cfg: Config, w: World, p: NodeID, reps: set<NodeID>) returns (q: set<NodeID>)
    requires cfg.Valid() && w.nodes.Keys == ToSet(cfg.members) && ElectionSafety.ElectionsWon(cfg, w)
    requires p in w.nodes && w.nodes[p].term in w.elect && reps <= w.nodes.Keys && |reps| >= cfg.Quorum()
    ensures q <= reps && |q| + cfg.Quorum() > |cfg.members|
    ensures forall v :: v in q ==> Trusted(cfg, w.elect, v, w.nodes[p].term)
  {
    AscendingCardinality(cfg.members);
    if Tight(cfg) {
      var voters := w.elect[w.nodes[p].term].voters;
      q := reps * voters;
      SharedSize(reps, voters, w.nodes.Keys);
    } else {
      q := reps;
    }
  }

  // The index a leader commits is one a majority acknowledged in its own term.
  lemma AdvanceIsCovered(cfg: Config, w: World, p: NodeID)
    requires cfg.Valid() && w.nodes.Keys == ToSet(cfg.members)
    requires MatchesAcked(cfg, w) && NodesCovered(cfg, w) && NodeLogs(w) && Histories(w)
    requires ElectionSafety.LeadersRecorded(w) && ElectionSafety.ElectionsWon(cfg, w)
    requires p in w.nodes && w.nodes[p].role == Leader
    ensures var r := Rafts.AdvanceCommit(w.nodes[p], p, cfg.members);
      Covered(cfg, w, r.log, r.commitIndex, r.term)
  {
    var q := w.nodes[p];
    var n := CommitCandidate(q, p, cfg.members);
    if n > q.commitIndex && TermAt(q.log, n) == Some(q.term) {
      assert q.log[..n] == Upto(w.llog, q.term, n)[..n];
      CommitCandidateIsExact(q, p, cfg.members, n);
      var holders := EnoughTrusted(cfg, w, p, Replicas(q, p, cfg.members, n));
      forall v | v in holders
        ensures Holds(w.sent, w.elect, w.llog, v, q.term, n)
      {
        if v != p {
          assert v in w.nodes && Get(q.matchIndex, v) >= n && MatchAcked(cfg, w, p, q, v);
          assert AckSent(w.sent, v, p, q.term, Get(q.matchIndex, v));
        }
      }
      assert HoldEnough(cfg, w, holders, q.term, n);
      assert Committed(cfg, w, q.term, n);
    }
  }

  lemma NoteMatchKeeps(cfg: Config, w: World, p: NodeID, v: NodeID, m: nat)
    requires Commitment.Inv(cfg, w) && p in w.nodes && w.nodes[p].role == Leader
    requires Trusted(cfg, w.elect, v, w.nodes[p].term) ==> AckSent(w.sent, v, p, w.nodes[p].term, m)
    ensures Commitment.Inv(cfg, Put(w, p, NoteMatch(w.nodes[p], v, m)))
  {
    hide AcksKept, VotesInformed, ElectionsInformed, Covered, RequestsCovered;
    var q := w.nodes[p];
    var r := NoteMatch(q, v, m);
    forall x | x in w.nodes && x != p
      ensures MatchAcked(cfg, w, p, r, x)
    {
      assert MatchAcked(cfg, w, p, q, x);
      assert x != v ==> Get(r.matchIndex, x) == Get(q.matchIndex, x);
    }
    IndexesKeep(cfg, w, p, r);
  }

  lemma AdvanceKeeps(cfg: Config, w: World, p: NodeID)
    requires cfg.Valid()
    requires Commitment.Inv(cfg, w) && LogMatching.Inv(w) && ElectionSafety.Inv(cfg, w)
    requires p in w.nodes && w.nodes[p].role == Leader
    ensures Commitment.Inv(cfg, Put(w, p, Rafts.AdvanceCommit(w.nodes[p], p, cfg.members)))
  {
    hide AcksKept, VotesInformed, ElectionsInformed, Covered, RequestsCovered;
    AdvanceIsCovered(cfg, w, p);
    IndexesKeep(cfg, w, p, Rafts.AdvanceCommit(w.nodes[p], p, cfg.members));
  }

  // ---------- Sending ----------

  // What must be true of the sender, and of a candidate it votes for, beyond MaySay.
  ghost predicate MayVouch(w: World, k: Packet)
    requires k.from in w.nodes && k.to in w.nodes
  {
    var r := w.nodes[k.from];
    && Voters.Compared(w, k)
    && match k.body
       case AppendReq(_, _, _, _, _, _) => Reaches(k.body)
       case AppendResp(t, ok, n, _) => ok ==> t in w.llog && n <= |w.llog[t]| && StartsWith(r.log, w.llog[t][..n])
       case _ => true
  }

  ghost predicate AllMaySay(cfg: Config, w: World, ps: set<Packet>) {
    forall k :: k in ps ==> MaySay(cfg, w, k) && MayVouch(w, k)
  }

  lemma SendHolds(cfg: Config, w: World, ps: set<Packet>, v: NodeID, t: nat, n: nat)
    requires AllMaySay(cfg, w, ps)
    requires Holds(w.sent + ps, w.elect, w.llog, v, t, n)
    ensures Holds(w.sent, w.elect, w.llog, v, t, n)
         || (v in w.nodes && w.nodes[v].term == t && StartsWith(w.nodes[v].log, Upto(w.llog, t, n)))
  {
    if v != w.elect[t].leader {
      var m :| m >= n && AckSent(w.sent + ps, v, w.elect[t].leader, t, m);
      var k := Packet(v, w.elect[t].leader, AppendResp(t, true, m, 0));
      if k in ps {
        assert MaySay(cfg, w, k) && MayVouch(w, k);
        assert w.llog[t][..m][..n] == w.llog[t][..n];
        assert w.nodes[v].log[..m][..n] == w.nodes[v].log[..n];
      } else {
        assert AckSent(w.sent, v, w.elect[t].leader, t, m);
      }
    }
  }

  lemma SendKeepsAcks(cfg: Config, w: World, ps: set<Packet>)
    requires AcksValid(w) && AcksKept(w) && AllMaySay(cfg, w, ps)
    ensures AcksValid(SendAll(w, ps)) && AcksKept(SendAll(w, ps))
  {
    var w' := SendAll(w, ps);
    forall v, l, t: nat, m: nat | AckSent(w'.sent, v, l, t, m)
      ensures AckSent(w.sent, v, l, t, m) || Packet(v, l, AppendResp(t, true, m, 0)) in ps
    {
    }
    forall v, t: nat, n: nat
      ensures AckKept(w', v, t, n)
    {
      if Holds(w'.sent, w.elect, w.llog, v, t, n) {
        SendHolds(cfg, w, ps, v, t, n);
        assert AckKept(w, v, t, n);
      }
    }
  }

  lemma SendKeepsElections(cfg: Config, w: World, ps: set<Packet>)
    requires ElectionsInformed(w) && AllMaySay(cfg, w, ps)
    requires ElectionSafety.Shape(cfg, w) && ElectionSafety.VotersLocked(cfg, w) && ElectionSafety.ElectionsWon(cfg, w)
    ensures ElectionsInformed(SendAll(w, ps))
  {
    var w' := SendAll(w, ps);
    forall u: nat, v, t: nat, n: nat
      ensures ElectionInformed(w', u, v, t, n)
    {
      if u in w.elect && v in w.elect[u].voters && Holds(w'.sent, w.elect, w.llog, v, t, n) && t < u {
        SendHolds(cfg, w, ps, v, t, n);
        VoterHasMovedOn(cfg, w, u, v);
        assert ElectionInformed(w, u, v, t, n);
      }
    }
  }

  // A new vote is informed because the voter compared logs.
  lemma NewVoteIsInformed(cfg: Config, w: World, ps: set<Packet>, v: NodeID, c: NodeID, t: nat, n: nat)
    requires AcksKept(w) && Histories(w) && NodeLogs(w) && AllMaySay(cfg, w, ps)
    requires c in w.nodes && w.nodes[c].role == Candidate
    requires Packet(v, c, VoteResp(w.nodes[c].term, true, false)) in ps
    requires Holds(w.sent, w.elect, w.llog, v, t, n) && t < w.nodes[c].term && OwnEntry(w.llog, t, n)
    ensures Protects(w.nodes[c].log, t, n) || Overruled(w.llog, t, n, w.nodes[c].term)
  {
    var k := Packet(v, c, VoteResp(w.nodes[c].term, true, false));
    assert MaySay(cfg, w, k) && MayVouch(w, k) && AckKept(w, v, t, n);
    if StartsWith(w.nodes[v].log, Upto(w.llog, t, n)) {
      ContainingProtects(w, w.nodes[v].log, t, n);
    }
  }

  lemma SendKeepsVotes(cfg: Config, w: World, ps: set<Packet>)
    requires AcksKept(w) && VotesInformed(w) && Histories(w) && NodeLogs(w) && AllMaySay(cfg, w, ps)
    requires ElectionSafety.Shape(cfg, w) && ElectionSafety.VotersLocked(cfg, w)
    ensures VotesInformed(SendAll(w, ps))
  {
    var w' := SendAll(w, ps);
    forall v, c, t: nat, n: nat
      ensures VoteInformed(w', v, c, t, n)
    {
      if c in w.nodes && w.nodes[c].role == Candidate && Granted(w'.sent, v, c, w.nodes[c].term)
         && Holds(w'.sent, w.elect, w.llog, v, t, n) && t < w.nodes[c].term && OwnEntry(w.llog, t, n) {
        SendHolds(cfg, w, ps, v, t, n);
        var k := Packet(v, c, VoteResp(w.nodes[c].term, true, false));
        if k in ps {
          assert MaySay(cfg, w, k);
          NewVoteIsInformed(cfg, w, ps, v, c, t, n);
        } else {
          assert Granted(w.sent, v, c, w.nodes[c].term);
          assert VoteInformed(w, v, c, t, n);
        }
      }
    }
  }

  lemma SendKeepsCover(cfg: Config, w: World, ps: set<Packet>)
    requires NodesCovered(cfg, w) && RequestsCovered(cfg, w) && NodeLogs(w) && AllMaySay(cfg, w, ps)
    ensures NodesCovered(cfg, SendAll(w, ps)) && RequestsCovered(cfg, SendAll(w, ps))
  {
    var w' := SendAll(w, ps);
    assert Later(w, w');
    NodeCoverageGrows(cfg, w, w');
    forall k | k in w'.sent && k.body.AppendReq? && k.body.term in w'.llog
      ensures Covered(cfg, w', w'.llog[k.body.term], k.body.leaderCommit, k.body.term)
    {
      var t := k.body.term;
      if k in ps {
        assert MaySay(cfg, w, k);
      } else {
        CoveredGrows(cfg, w, w', w.llog[t], k.body.leaderCommit, t, w.llog[t], t);
      }
    }
  }

  lemma SendKeepsIndexes(cfg: Config, w: World, ps: set<Packet>)
    requires MatchesAcked(cfg, w) && BallotsCurrent(w) && AllMaySay(cfg, w, ps)
    ensures MatchesAcked(cfg, SendAll(w, ps)) && BallotsCurrent(SendAll(w, ps))
  {
    var w' := SendAll(w, ps);
    forall p, v | p in w.nodes && v in w.nodes && v != p
      ensures MatchAcked(cfg, w', p, w.nodes[p], v)
    {
      assert MatchAcked(cfg, w, p, w.nodes[p], v);
    }
  }

  lemma SendKeeps(cfg: Config, w: World, ps: set<Packet>)
    requires Commitment.Inv(cfg, w) && LogMatching.Inv(w) && ElectionSafety.Inv(cfg, w)
    requires AllMaySay(cfg, w, ps)
    ensures Commitment.Inv(cfg, SendAll(w, ps))
  {
    SendKeepsAcks(cfg, w, ps);
    SendKeepsVotes(cfg, w, ps);
    SendKeepsElections(cfg, w, ps);
    SendKeepsCover(cfg, w, ps);
    SendKeepsIndexes(cfg, w, ps);
    Voters.SendKeeps(cfg, w, ps);
  }
}
