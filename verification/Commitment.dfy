/** What a majority has acknowledged is never lost: leader completeness and
    state-machine safety, as long as every recorded acknowledgement is true. */
module Commitment {
  import opened Types
  import opened Logs
  import opened Rafts
  import opened Nodes
  import opened Worlds
  import opened LogMatching
  import ElectionSafety
  import Voters

  ghost predicate AckSent(sent: set<Packet>, v: NodeID, l: NodeID, t: nat, m: nat) {
    Packet(v, l, AppendResp(t, true, m, 0)) in sent
  }

  // v is known to have held the leader of t's log up to n: it acknowledged that
  // much, or it is that leader.
  ghost predicate Holds(sent: set<Packet>, elect: map<nat, Election>, llog: map<nat, Log>,
                        v: NodeID, t: nat, n: nat)
  {
    && t in elect && t in llog && n <= |llog[t]|
    && (v == elect[t].leader || exists m :: m >= n && AckSent(sent, v, elect[t].leader, t, m))
  }

  function Upto(llog: map<nat, Log>, t: nat, n: nat): Log {
    if t in llog && n <= |llog[t]| then llog[t][..n] else []
  }

  // Entry n of t's leader is one of t's own.
  ghost predicate OwnEntry(llog: map<nat, Log>, t: nat, n: nat) {
    t in llog && 1 <= n <= |llog[t]| && llog[t][n - 1].term == t
  }

  ghost predicate Conflict(a: Log, b: Log) {
    exists i :: 0 <= i < |a| && i < |b| && a[i] != b[i]
  }

  // A later leader, of a term up to hi, has a different history.
  ghost predicate Overruled(llog: map<nat, Log>, t: nat, n: nat, hi: int) {
    exists u :: u in llog && t < u <= hi && Conflict(llog[u], Upto(llog, t, n))
  }

  // A log whose last entry is this recent wins the vote of anyone who holds entry n of t.
  ghost predicate Protects(log: Log, t: nat, n: nat) {
    LastTerm(log) > t || (LastTerm(log) == t && |log| >= n)
  }

  // ---------- The invariant ----------

  ghost predicate AcksValid(w: World) {
    forall v, l, t: nat, m: nat :: AckSent(w.sent, v, l, t, m) ==>
      && v in w.nodes && w.nodes[v].term >= t
      && t in w.elect && w.elect[t].leader == l && t in w.llog && m <= |w.llog[t]|
  }

  // A holder still holds it, unless a later leader it has heard of disagreed.
  ghost predicate AckKept(w: World, v: NodeID, t: nat, n: nat) {
    Holds(w.sent, w.elect, w.llog, v, t, n) && v in w.nodes ==>
      && w.nodes[v].term >= t
      && (StartsWith(w.nodes[v].log, Upto(w.llog, t, n)) || Overruled(w.llog, t, n, w.nodes[v].term))
  }

  // A candidate whom a holder voted for is at least as recent as the holder was.
  ghost predicate VoteInformed(w: World, v: NodeID, c: NodeID, t: nat, n: nat) {
    c in w.nodes && w.nodes[c].role == Candidate && Granted(w.sent, v, c, w.nodes[c].term)
    && Holds(w.sent, w.elect, w.llog, v, t, n) && t < w.nodes[c].term && OwnEntry(w.llog, t, n) ==>
      Protects(w.nodes[c].log, t, n) || Overruled(w.llog, t, n, w.nodes[c].term)
  }

  // So is the log a holder helped to elect.
  ghost predicate ElectionInformed(w: World, u: nat, v: NodeID, t: nat, n: nat) {
    u in w.elect && v in w.elect[u].voters
    && Holds(w.sent, w.elect, w.llog, v, t, n) && t < u && OwnEntry(w.llog, t, n) ==>
      Protects(w.elect[u].init, t, n) || Overruled(w.llog, t, n, u - 1)
  }

  ghost predicate AcksKept(w: World) {
    forall v, t, n :: AckKept(w, v, t, n)
  }

  ghost predicate VotesInformed(w: World) {
    forall v, c, t, n :: VoteInformed(w, v, c, t, n)
  }

  ghost predicate ElectionsInformed(w: World) {
    forall u, v, t, n :: ElectionInformed(w, u, v, t, n)
  }

  // Whether v's acknowledgements in term t are on record with their index. Where it
  // is enough to trust those who voted for the leader, only theirs are.
  ghost predicate Trusted(cfg: Config, elect: map<nat, Election>, v: NodeID, t: nat) {
    Tight(cfg) ==> t in elect && v in elect[t].voters
  }

  ghost predicate MatchAcked(cfg: Config, w: World, p: NodeID, r: Raft, v: NodeID) {
    r.role == Leader && Trusted(cfg, w.elect, v, r.term) ==>
      Get(r.matchIndex, v) == 0 || AckSent(w.sent, v, p, r.term, Get(r.matchIndex, v))
  }

  ghost predicate MatchesAcked(cfg: Config, w: World) {
    forall p, v :: p in w.nodes && v in w.nodes && v != p ==> MatchAcked(cfg, w, p, w.nodes[p], v)
  }

  ghost predicate BallotsCurrent(w: World) {
    forall k :: k in w.sent && k.from in w.nodes && k.body.VoteReq? && !k.body.preVote ==>
      var r := w.nodes[k.from];
      r.term == k.body.term && r.role == Candidate ==>
        k.body.lastIndex == |r.log| && k.body.lastTerm == LastTerm(r.log)
  }

  // Enough members hold it to have one in every majority.
  ghost predicate HoldEnough(cfg: Config, w: World, q: set<NodeID>, t: nat, n: nat) {
    && q <= w.nodes.Keys && |q| + cfg.Quorum() > |cfg.members|
    && forall v :: v in q ==> Holds(w.sent, w.elect, w.llog, v, t, n)
  }

  // Entry n of the leader of t is safe: it is of that term and enough members held it.
  ghost predicate Committed(cfg: Config, w: World, t: nat, n: nat) {
    t in w.elect && OwnEntry(w.llog, t, n) && exists q :: HoldEnough(cfg, w, q, t, n)
  }

  // The first c entries of log are committed by a leader of a term up to hi.
  ghost predicate Covered(cfg: Config, w: World, log: Log, c: nat, hi: nat) {
    && c <= |log|
    && (c == 0 || exists t: nat, n: nat ::
          Committed(cfg, w, t, n) && t <= hi && c <= n && log[..c] == Upto(w.llog, t, n)[..c])
  }

  ghost predicate NodesCovered(cfg: Config, w: World) {
    forall p :: p in w.nodes ==> Covered(cfg, w, w.nodes[p].log, w.nodes[p].commitIndex, w.nodes[p].term)
  }

  // A request that is not a probe past the end reaches the leader's commit index.
  ghost predicate Reaches(m: Payload)
    requires m.AppendReq?
  {
    || (m.prevTerm == 0 && m.prevIndex > 0 && m.entries == [])
    || m.leaderCommit <= m.prevIndex + |m.entries|
  }

  ghost predicate RequestsCovered(cfg: Config, w: World) {
    forall k :: k in w.sent && k.body.AppendReq? && k.body.term in w.llog ==>
      && Covered(cfg, w, w.llog[k.body.term], k.body.leaderCommit, k.body.term)
      && Reaches(k.body)
  }

  ghost predicate Inv(cfg: Config, w: World) {
    && AcksValid(w) && AcksKept(w) && VotesInformed(w) && ElectionsInformed(w)
    && MatchesAcked(cfg, w) && BallotsCurrent(w) && NodesCovered(cfg, w) && RequestsCovered(cfg, w)
    && Voters.Inv(w)
  }

  lemma SentIsCovered(cfg: Config, w: World, k: Packet)
    requires Inv(cfg, w) && k in w.sent && k.body.AppendReq? && k.body.term in w.llog
    ensures Covered(cfg, w, w.llog[k.body.term], k.body.leaderCommit, k.body.term) && Reaches(k.body)
    ensures Voters.CoversInit(w, k.body)
  {
  }

  // ---------- Leader completeness ----------

  lemma OverruledMeansLost(w: World, t: nat, n: nat, hi: int)
    requires Histories(w)
    requires forall u :: u in w.elect && t < u <= hi ==> StartsWith(w.elect[u].init, Upto(w.llog, t, n))
    ensures !Overruled(w.llog, t, n, hi)
  {
    forall u | u in w.llog && t < u <= hi
      ensures !Conflict(w.llog[u], Upto(w.llog, t, n))
    {
      assert GrownFrom(w.elect[u].init, w.llog[u], u);
      assert StartsWith(w.elect[u].init, Upto(w.llog, t, n));
    }
  }

  // Some voter of a later leader held the entry.
  lemma HolderVotes(cfg: Config, w: World, t: nat, n: nat, u: nat) returns (v: NodeID)
    requires cfg.Valid() && w.nodes.Keys == ToSet(cfg.members) && ElectionSafety.ElectionsWon(cfg, w)
    requires Committed(cfg, w, t, n) && u in w.elect && w.llog.Keys == w.elect.Keys
    ensures v in w.elect[u].voters && Holds(w.sent, w.elect, w.llog, v, t, n)
  {
    AscendingCardinality(cfg.members);
    var q :| HoldEnough(cfg, w, q, t, n);
    v := EnoughMeet(q, w.elect[u].voters, w.nodes.Keys);
  }

  // A committed entry is in the log every later leader started from.
  lemma {:induction false} CommittedIsInherited(cfg: Config, w: World, t: nat, n: nat, u: nat)
    requires cfg.Valid() && w.nodes.Keys == ToSet(cfg.members)
    requires ElectionSafety.ElectionsWon(cfg, w) && Histories(w) && ElectionsInformed(w)
    requires Committed(cfg, w, t, n) && u in w.elect && u > t
    ensures StartsWith(w.elect[u].init, Upto(w.llog, t, n))
    decreases u
  {
    forall u' | u' in w.elect && t < u' <= u - 1
      ensures StartsWith(w.elect[u'].init, Upto(w.llog, t, n))
    {
      CommittedIsInherited(cfg, w, t, n, u');
    }
    OverruledMeansLost(w, t, n, u - 1);
    var v := HolderVotes(cfg, w, t, n, u);
    assert ElectionInformed(w, u, v, t, n);
    RecentLogContains(w, t, n, u);
  }

  // A log that protects an entry contains it, if the leaders in between inherited it.
  lemma RecentLogContains(w: World, t: nat, n: nat, u: nat)
    requires Histories(w) && u in w.elect && u > t && t in w.elect && OwnEntry(w.llog, t, n)
    requires Protects(w.elect[u].init, t, n)
    requires forall u' :: u' in w.elect && t < u' <= u - 1 ==> StartsWith(w.elect[u'].init, Upto(w.llog, t, n))
    ensures StartsWith(w.elect[u].init, Upto(w.llog, t, n))
  {
    var init := w.elect[u].init;
    var i := |init| - 1;
    var lt := LastTerm(init);
    assert GrownFrom(init, w.llog[u], u) && t >= 1;
    assert init == w.llog[u][..i + 1];
    assert lt == w.llog[u][i].term;
    assert init == w.llog[lt][..i + 1];
    if lt > t {
      var older := w.elect[lt].init;
      assert GrownFrom(older, w.llog[lt], lt);
      assert i >= |older|;
      assert StartsWith(older, Upto(w.llog, t, n));
      assert older == w.llog[lt][..|older|] == init[..|older|];
    }
  }
}
