/** Logs that agree on the term at an index are identical up to that index. */
module LogMatching {
  import opened Types
  import opened Logs
  import opened Rafts
  import opened Nodes
  import opened Worlds
  import ElectionSafety

  // Each entry was put there by the leader of its term, after the same history.
  ghost predicate Rooted(llog: map<nat, Log>, log: Log) {
    forall i :: 0 <= i < |log| ==>
      && log[i].term in llog
      && i < |llog[log[i].term]|
      && log[..i + 1] == llog[log[i].term][..i + 1]
  }

  ghost predicate TermsBelow(log: Log, t: nat) {
    forall i :: 0 <= i < |log| ==> log[i].term < t
  }

  // A leader starts from an older log and only appends entries of its own term.
  ghost predicate GrownFrom(init: Log, log: Log, t: nat) {
    && init <= log && TermsBelow(init, t)
    && forall i :: |init| <= i < |log| ==> log[i].term == t
  }

  ghost predicate Histories(w: World) {
    && w.llog.Keys == w.elect.Keys
    && forall t :: t in w.elect ==>
         && t >= 1 && GrownFrom(w.elect[t].init, w.llog[t], t) && Rooted(w.llog, w.llog[t])
  }

  ghost predicate NodeLogs(w: World) {
    forall p :: p in w.nodes ==>
      var r := w.nodes[p];
      && Rooted(w.llog, r.log) && TermsBelow(r.log, r.term + 1)
      && (r.role == Leader ==> r.term in w.llog && w.llog[r.term] == r.log)
      && (r.role == Candidate ==> TermsBelow(r.log, r.term))
  }

  ghost predicate RequestsServed(w: World) {
    forall k :: k in w.sent && k.body.AppendReq? ==>
      k.body.term in w.llog && Served(w.llog[k.body.term], k.body)
  }

  ghost predicate Inv(w: World) {
    Histories(w) && NodeLogs(w) && RequestsServed(w)
  }

  // ---------- Rooted logs ----------

  lemma SameTermSamePrefix(llog: map<nat, Log>, a: Log, b: Log, i: nat)
    requires Rooted(llog, a) && Rooted(llog, b)
    requires i < |a| && i < |b| && a[i].term == b[i].term
    ensures a[..i + 1] == b[..i + 1]
  {
  }

  lemma RootedPrefix(llog: map<nat, Log>, log: Log, n: nat)
    requires Rooted(llog, log) && n <= |log|
    ensures Rooted(llog, log[..n])
  {
    forall i | 0 <= i < n
      ensures log[..n][i] == log[i] && log[..n][..i + 1] == log[..i + 1]
    {
    }
  }

  ghost predicate StartsWith(b: Log, a: Log) {
    |a| <= |b| && b[..|a|] == a
  }

  ghost predicate Extends(llog: map<nat, Log>, llog': map<nat, Log>) {
    forall t :: t in llog ==> t in llog' && StartsWith(llog'[t], llog[t])
  }

  lemma RootedGrows(llog: map<nat, Log>, llog': map<nat, Log>, log: Log)
    requires Rooted(llog, log) && Extends(llog, llog')
    ensures Rooted(llog', log)
  {
    forall i | 0 <= i < |log|
      ensures log[i].term in llog' && i < |llog'[log[i].term]| && log[..i + 1] == llog'[log[i].term][..i + 1]
    {
      var t := log[i].term;
      assert llog'[t][..i + 1] == llog'[t][..|llog[t]|][..i + 1];
    }
  }

  lemma ServedGrows(a: Log, b: Log, m: Payload)
    requires m.AppendReq? && Served(a, m) && a <= b
    ensures Served(b, m)
  {
    if m.prevIndex + |m.entries| <= |a| {
      var lo, hi := m.prevIndex, m.prevIndex + |m.entries|;
      assert a == b[..|a|];
      assert a[lo..hi] == b[lo..hi];
    }
  }

  lemma RootedNondecreasing(w: World, log: Log)
    requires Histories(w) && Rooted(w.llog, log)
    ensures Nondecreasing(log)
  {
    forall i, j | 0 <= i < j < |log|
      ensures log[i].term <= log[j].term
    {
      var t := log[j].term;
      assert log[i] == log[..j + 1][i] == w.llog[t][i];
      assert i < |w.elect[t].init| ==> w.llog[t][i] == w.elect[t].init[i];
    }
  }

  // ---------- What a follower's splice does ----------

  // What the follower already has, it has exactly as the leader does.
  lemma AgreeingIsIdentical(llog: map<nat, Log>, lead: Log, log: Log, prev: nat, entries: seq<Entry>)
    requires Rooted(llog, log) && Rooted(llog, lead)
    requires prev <= |log| && prev + |entries| <= |lead|
    requires entries == lead[prev..prev + |entries|]
    requires prev > 0 ==> log[prev - 1].term == lead[prev - 1].term
    ensures var n := prev + Agreeing(log, prev, entries);
      log[..n] == lead[..n]
  {
    var k := Agreeing(log, prev, entries);
    if k > 0 {
      assert lead[prev + k - 1] == entries[k - 1];
      SameTermSamePrefix(llog, log, lead, prev + k - 1);
    } else if prev > 0 {
      SameTermSamePrefix(llog, log, lead, prev - 1);
    }
  }

  lemma SpliceOfSlice(lead: Log, log: Log, prev: nat, entries: seq<Entry>)
    requires prev <= |log| && prev + |entries| <= |lead|
    requires entries == lead[prev..prev + |entries|]
    requires var k := Agreeing(log, prev, entries); log[..prev + k] == lead[..prev + k]
    ensures var n := prev + |entries|;
      var s := Splice(log, prev, entries);
      n <= |s| && s[..n] == lead[..n] && (s == log || s == lead[..n])
  {
    var n := prev + |entries|;
    var k := Agreeing(log, prev, entries);
    if k < |entries| {
      assert entries[k..] == lead[prev + k..n];
      assert lead[..prev + k] + lead[prev + k..n] == lead[..n];
    }
  }

  // A request that matches is a slice of its leader's log, never a probe past
  // the end: no entry has term 0.
  lemma MatchingRequestIsSlice(w: World, log: Log, m: Payload)
    requires Histories(w) && Rooted(w.llog, log)
    requires m.AppendReq? && m.term in w.llog && Served(w.llog[m.term], m)
    requires Matches(log, m.prevIndex, m.prevTerm)
    ensures m.prevIndex <= |log| && m.prevIndex + |m.entries| <= |w.llog[m.term]|
    ensures m.entries == w.llog[m.term][m.prevIndex..m.prevIndex + |m.entries|]
    ensures m.prevIndex > 0 ==> log[m.prevIndex - 1].term == w.llog[m.term][m.prevIndex - 1].term
  {
    if m.prevIndex > 0 {
      assert log[m.prevIndex - 1].term in w.elect;
    }
  }

  // The follower ends up holding the leader's log through the request's last
  // entry; if anything changed, it holds exactly that much.
  lemma TakeFollowsLeader(w: World, log: Log, m: Payload)
    requires Histories(w) && Rooted(w.llog, log)
    requires m.AppendReq? && m.term in w.llog && Served(w.llog[m.term], m)
    requires Matches(log, m.prevIndex, m.prevTerm)
    ensures m.prevIndex <= |log|
    ensures var n := m.prevIndex + |m.entries|;
      var s := Splice(log, m.prevIndex, m.entries);
      && n <= |w.llog[m.term]| && n <= |s|
      && s[..n] == w.llog[m.term][..n]
      && (s == log || s == w.llog[m.term][..n])
  {
    hide Splice, Agreeing, GrownFrom;
    MatchingRequestIsSlice(w, log, m);
    assert Rooted(w.llog, w.llog[m.term]);
    hide Histories, Served, Rooted, Matches;
    AgreeingIsIdentical(w.llog, w.llog[m.term], log, m.prevIndex, m.entries);
    SpliceOfSlice(w.llog[m.term], log, m.prevIndex, m.entries);
  }

  // ---------- Readings of the invariant ----------

  lemma LedTerms(w: World)
    requires Inv(w)
    ensures w.llog.Keys == w.elect.Keys
  {
  }

  lemma SentIsServed(w: World, k: Packet)
    requires Inv(w) && k in w.sent && k.body.AppendReq?
    ensures k.body.term in w.llog && Served(w.llog[k.body.term], k.body)
  {
  }

  lemma NodeLogFacts(w: World, p: NodeID)
    requires Inv(w) && p in w.nodes
    ensures Rooted(w.llog, w.nodes[p].log) && TermsBelow(w.nodes[p].log, w.nodes[p].term + 1)
    ensures var r := w.nodes[p];
      r.role == Leader ==> r.term in w.llog && r.term in w.elect && w.llog[r.term] == r.log
                           && StartsWith(r.log, w.elect[r.term].init)
  {
    var r := w.nodes[p];
    hide Rooted, TermsBelow, RequestsServed;
    if r.role == Leader {
      assert GrownFrom(w.elect[r.term].init, w.llog[r.term], r.term);
    }
  }

  // ---------- Every move keeps the invariant ----------

  // A move that leaves the log alone and does not make a leader or candidate.
  lemma SameLogKeeps(w: World, p: NodeID, r: Raft)
    requires Inv(w) && p in w.nodes
    requires r.log == w.nodes[p].log && r.term >= w.nodes[p].term
    requires r.role == Leader ==> w.nodes[p].role == Leader && r.term == w.nodes[p].term
    requires r.role == Candidate ==>
      r.term > w.nodes[p].term || (w.nodes[p].role == Candidate && r.term == w.nodes[p].term)
    ensures Inv(Put(w, p, r))
  {
  }

  lemma LongerHistoriesKeep(w: World, elect: map<nat, Election>, llog: map<nat, Log>)
    requires Inv(w) && Extends(w.llog, llog)
    requires forall t :: t in w.elect ==> t in elect && elect[t] == w.elect[t]
    requires llog.Keys == elect.Keys
    requires forall p :: p in w.nodes && w.nodes[p].role == Leader ==> llog[w.nodes[p].term] == w.nodes[p].log
    requires forall t :: t in elect ==> t >= 1 && GrownFrom(elect[t].init, llog[t], t) && Rooted(llog, llog[t])
    ensures Inv(w.(elect := elect, llog := llog))
  {
    forall p | p in w.nodes
      ensures Rooted(llog, w.nodes[p].log)
    {
      RootedGrows(w.llog, llog, w.nodes[p].log);
    }
    forall k | k in w.sent && k.body.AppendReq?
      ensures Served(llog[k.body.term], k.body)
    {
      ServedGrows(w.llog[k.body.term], llog[k.body.term], k.body);
    }
  }

  lemma ElectHistories(w: World, p: NodeID)
    requires Inv(w)
    requires p in w.nodes && w.nodes[p].role == Candidate && w.nodes[p].term >= 1 && w.nodes[p].term !in w.elect
    ensures var r := w.nodes[p];
      var elect := w.elect[r.term := Election(p, r.votes, r.log)];
      var llog := w.llog[r.term := r.log];
      Extends(w.llog, llog) &&
      forall t :: t in elect ==> t >= 1 && GrownFrom(elect[t].init, llog[t], t) && Rooted(llog, llog[t])
  {
    var r := w.nodes[p];
    var elect := w.elect[r.term := Election(p, r.votes, r.log)];
    var llog := w.llog[r.term := r.log];
    forall t | t in elect
      ensures Rooted(llog, llog[t])
    {
      RootedGrows(w.llog, llog, if t == r.term then r.log else w.llog[t]);
    }
  }

  lemma ElectKeeps(cfg: Config, w: World, p: NodeID)
    requires Inv(w)
    requires p in w.nodes && w.nodes[p].role == Candidate && w.nodes[p].term >= 1 && w.nodes[p].term !in w.elect
    ensures Inv(ElectAt(cfg, w, p))
  {
    hide Rooted, GrownFrom, TermsBelow, Served;
    var r := w.nodes[p];
    ElectHistories(w, p);
    var x := w.(elect := w.elect[r.term := Election(p, r.votes, r.log)], llog := w.llog[r.term := r.log]);
    LongerHistoriesKeep(w, x.elect, x.llog);
    assert ElectAt(cfg, w, p) == Put(x, p, Rafts.Elected(r, p, cfg.members));
  }

  lemma TakenLog(w: World, log: Log, m: Payload)
    requires Histories(w) && Rooted(w.llog, log)
    requires m.AppendReq? && m.term in w.llog && Served(w.llog[m.term], m)
    requires Matches(log, m.prevIndex, m.prevTerm) && TermsBelow(log, m.term + 1)
    ensures m.prevIndex <= |log|
    ensures var s := Splice(log, m.prevIndex, m.entries);
      Rooted(w.llog, s) && TermsBelow(s, m.term + 1)
  {
    var lead := w.llog[m.term];
    TakeFollowsLeader(w, log, m);
    LeaderTerms(w, m.term);
    assert Rooted(w.llog, lead);
    hide Histories, Served;
    RootedPrefix(w.llog, lead, m.prevIndex + |m.entries|);
  }

  lemma TakeKeeps(w: World, p: NodeID, m: Payload)
    requires Inv(w) && p in w.nodes && m.AppendReq?
    requires w.nodes[p].role == Follower && m.term == w.nodes[p].term
    requires m.term in w.llog && Served(w.llog[m.term], m)
    requires Matches(w.nodes[p].log, m.prevIndex, m.prevTerm)
    ensures m.prevIndex <= |w.nodes[p].log|
    ensures Inv(TakeAt(w, p, m))
  {
    assert m.term in w.elect;
    TakenLog(w, w.nodes[p].log, m);
    hide Rooted, TermsBelow, Served;
    var r := TakeEntries(w.nodes[p], m.prevIndex, m.entries, m.leaderCommit);
    assert NodeLogs(Put(w, p, r));
  }

  lemma LeaderTerms(w: World, t: nat)
    requires Histories(w) && t in w.elect
    ensures TermsBelow(w.llog[t], t + 1)
  {
    var init := w.elect[t].init;
    forall i | 0 <= i < |w.llog[t]|
      ensures w.llog[t][i].term < t + 1
    {
      assert i < |init| ==> w.llog[t][i] == init[i];
    }
  }

  lemma ProposeHistories(w: World, p: NodeID, cmd: string)
    requires Inv(w) && p in w.nodes && w.nodes[p].role == Leader
    ensures var r := w.nodes[p];
      var log := r.log + [Entry(r.term, cmd)];
      var llog := w.llog[r.term := log];
      && Extends(w.llog, llog)
      && Rooted(llog, log)
      && forall t :: t in w.elect ==> GrownFrom(w.elect[t].init, llog[t], t) && Rooted(llog, llog[t])
  {
    var r := w.nodes[p];
    var log := r.log + [Entry(r.term, cmd)];
    var llog := w.llog[r.term := log];
    assert Extends(w.llog, llog);
    RootedGrows(w.llog, llog, r.log);
    forall i | 0 <= i < |log|
      ensures log[i].term in llog && i < |llog[log[i].term]| && log[..i + 1] == llog[log[i].term][..i + 1]
    {
      if i < |r.log| {
        assert log[..i + 1] == r.log[..i + 1];
      }
    }
    forall t | t in w.elect
      ensures Rooted(llog, llog[t])
    {
      if t != r.term {
        RootedGrows(w.llog, llog, w.llog[t]);
      }
    }
  }

  lemma ProposeKeeps(cfg: Config, w: World, p: NodeID, cmd: string)
    requires ElectionSafety.Inv(cfg, w) && Inv(w)
    requires p in w.nodes && w.nodes[p].role == Leader
    ensures Extends(w.llog, ProposeAt(w, p, cmd).llog)
    ensures Inv(ProposeAt(w, p, cmd))
  {
    hide Rooted, GrownFrom, ElectionSafety.Campaigners, ElectionSafety.VotersLocked, ElectionSafety.ElectionsWon;
    var r := w.nodes[p];
    var log := r.log + [Entry(r.term, cmd)];
    var llog := w.llog[r.term := log];
    ProposeHistories(w, p, cmd);
    // Every other leader leads another term.
    var x := Put(w, p, r.(role := Follower));
    SameLogKeeps(w, p, r.(role := Follower));
    LongerHistoriesKeep(x, w.elect, llog);
    assert ProposeAt(w, p, cmd) == Put(x.(llog := llog), p, r.(log := log));
  }

  lemma SendKeeps(cfg: Config, w: World, ps: set<Packet>)
    requires Inv(w)
    requires forall k :: k in ps ==> MaySay(cfg, w, k)
    ensures Inv(SendAll(w, ps))
  {
  }
}
