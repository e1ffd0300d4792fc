/** A leader and one follower trading requests and replies with nothing lost: the
    leader backs up until the follower accepts, and is then a prefix of it
    (internal/consensus/handlers.go). */
module Backups {
  import opened Types
  import opened Crypt
  import opened Transcripts
  import opened Logs
  import opened Rafts
  import opened NetMatrix
  import opened Nodes
  import opened Clusters
  import opened Traffic
  import opened Histories
  import opened LogHistories
  import opened Worlds
  import opened Simulation
  import opened Safety
  import LogMatching

  datatype Pair = Pair(leader: NodeState, follower: NodeState)

  // A leader and a node that will listen to it.
  ghost predicate Talking(cfg: Config, x: Pair) {
    var l, f := x.leader, x.follower;
    && cfg.Valid() && WellWired(cfg, l.id, l) && WellWired(cfg, f.id, f) && l.id != f.id
    && l.raft.role == Leader && f.raft.term <= l.raft.term
    && (f.raft.role == Leader ==> f.raft.term < l.raft.term)
  }

  function Request(x: Pair): (m: Payload)
    ensures m.AppendReq?
  {
    AppendFor(x.leader.raft, x.leader.id, x.follower.id)
  }

  ghost predicate Rejects(x: Pair) {
    !Matches(x.follower.raft.log, Request(x).prevIndex, Request(x).prevTerm)
  }

  function Answered(cfg: Config, x: Pair, draw: nat): NodeState
    requires cfg.Valid()
  {
    HandleAppendReq(cfg, x.follower, x.leader.id, Request(x), draw)
  }

  // One request and its reply, both delivered.
  function Round(cfg: Config, x: Pair, draw: nat): Pair
    requires cfg.Valid()
  {
    var f := Answered(cfg, x, draw);
    var out := f.wire.outbox;
    if out == [] || !out[|out| - 1].payload.AppendResp? then Pair(x.leader, f)
    else Pair(HandleAppendResp(cfg, x.leader, x.follower.id, out[|out| - 1].payload, draw), f)
  }

  function NextIndex(x: Pair): nat {
    NextFor(x.leader.raft, x.follower.id)
  }

  lemma SentLast(cfg: Config, id: NodeID, s: NodeState, to: NodeID, p: Payload)
    requires WellWired(cfg, id, s) && to in s.wire.sendTr
    ensures var s' := Send(s, to, p);
      && WellWired(cfg, id, s') && s'.raft == s.raft
      && s'.wire.outbox != [] && s'.wire.outbox[|s'.wire.outbox| - 1].payload == p
  {
  }

  lemma MatchInside(log: Log, prev: nat, term: nat)
    requires Matches(log, prev, term)
    ensures prev <= |log|
  {
  }

  // What the follower's handler leaves and says.
  lemma AnswerFacts(cfg: Config, x: Pair, draw: nat)
    requires Talking(cfg, x)
    ensures var f, m := Answered(cfg, x, draw), Request(x);
      && WellWired(cfg, x.follower.id, f) && f.raft.term == x.leader.raft.term && f.raft.role != Leader
      && f.wire.outbox != []
      && var reply := f.wire.outbox[|f.wire.outbox| - 1].payload;
        if Rejects(x)
        then f.raft.log == x.follower.raft.log && f.raft.commitIndex == x.follower.raft.commitIndex
             && reply == AppendResp(f.raft.term, false, 0, ConflictIndex(f.raft.log, m.prevIndex))
        else m.prevIndex <= |x.follower.raft.log|
             && f.raft.log == Splice(x.follower.raft.log, m.prevIndex, m.entries)
             && f.raft.commitIndex >= Min(x.leader.raft.commitIndex, |f.raft.log|)
             && reply == AppendResp(f.raft.term, true, AckIndex(cfg.ack, f.raft.log, m.prevIndex, m.entries), 0)
  {
    hide Splice, NextFor, Slice, Send, Matches;
    var id, m, to := x.follower.id, Request(x), x.leader.id;
    assert to in ToSet(cfg.members) - {id};
    var a := Adopt(cfg, x.follower, to, m.term, draw);
    if Rejects(x) {
      SentLast(cfg, id, a, to, AppendResp(a.raft.term, false, 0, ConflictIndex(a.raft.log, m.prevIndex)));
    } else {
      MatchInside(a.raft.log, m.prevIndex, m.prevTerm);
      var t := a.(raft := TakeEntries(a.raft, m.prevIndex, m.entries, m.leaderCommit));
      SentLast(cfg, id, t, to,
               AppendResp(t.raft.term, true, AckIndex(cfg.ack, t.raft.log, m.prevIndex, m.entries), 0));
    }
  }

  // What the leader makes of either reply.
  lemma ReplyFacts(cfg: Config, l: NodeState, from: NodeID, m: Payload, draw: nat)
    requires cfg.Valid() && l.raft.role == Leader && m.AppendResp? && m.term == l.raft.term
    ensures var l' := HandleAppendResp(cfg, l, from, m, draw);
      && l'.raft.role == Leader && l'.raft.term == l.raft.term && l'.raft.log == l.raft.log
      && l'.id == l.id && l'.key == l.key && l'.wire == l.wire
      && (!m.success ==> l'.raft.commitIndex == l.raft.commitIndex)
      && NextFor(l'.raft, from) == if m.success then m.matchIndex + 1 else Max(m.conflictIndex, 1)
  {
    hide CommitCandidate;
  }

  lemma RequestPoint(x: Pair)
    ensures Request(x).prevIndex == NextIndex(x) - 1
  {
  }

  lemma RoundFacts(cfg: Config, x: Pair, draw: nat)
    requires Talking(cfg, x)
    ensures var y := Round(cfg, x, draw);
      && Talking(cfg, y) && y.leader.raft.log == x.leader.raft.log
      && y.leader.id == x.leader.id && y.follower.id == x.follower.id
      && if Rejects(x)
         then y.follower.raft.log == x.follower.raft.log && y.leader.raft.commitIndex == x.leader.raft.commitIndex
              && NextIndex(y) == Max(Min(NextIndex(x) - 1, |x.follower.raft.log| + 1), 1)
         else var m := Request(x);
              && m.prevIndex <= |x.follower.raft.log|
              && y.follower.raft.log == Splice(x.follower.raft.log, m.prevIndex, m.entries)
              && y.follower.raft.commitIndex >= Min(x.leader.raft.commitIndex, |y.follower.raft.log|)
              && NextIndex(y) == AckIndex(cfg.ack, y.follower.raft.log, m.prevIndex, m.entries) + 1
  {
    hide Splice, Answered, Rejects, Matches, HandleAppendResp, AppendFor, NextFor;
    AnswerFacts(cfg, x, draw);
    RequestPoint(x);
    var f := Answered(cfg, x, draw);
    ReplyFacts(cfg, x.leader, x.follower.id, f.wire.outbox[|f.wire.outbox| - 1].payload, draw);
  }

  // Index 0 always matches, so a follower never rejects a request from the start.
  lemma RejectedNext(x: Pair)
    requires Rejects(x)
    ensures NextIndex(x) >= 2
  {
  }

  // ---------- Until it is accepted ----------

  function Rejections(cfg: Config, x: Pair, draw: nat): nat
    requires Talking(cfg, x)
    decreases NextIndex(x)
  {
    if Matches(x.follower.raft.log, Request(x).prevIndex, Request(x).prevTerm) then 0
    else
      RoundFacts(cfg, x, draw);
      RejectedNext(x);
      1 + Rejections(cfg, Round(cfg, x, draw), draw)
  }

  function Repaired(cfg: Config, x: Pair, draw: nat): Pair
    requires Talking(cfg, x)
    decreases NextIndex(x)
  {
    RoundFacts(cfg, x, draw);
    if Matches(x.follower.raft.log, Request(x).prevIndex, Request(x).prevTerm) then Round(cfg, x, draw)
    else
      RejectedNext(x);
      Repaired(cfg, Round(cfg, x, draw), draw)
  }

  // Each rejection strictly lowers the next index, which stays at least 1.
  lemma RejectionLowersNext(cfg: Config, x: Pair, draw: nat)
    requires Talking(cfg, x) && Rejects(x)
    ensures 1 <= NextIndex(Round(cfg, x, draw)) < NextIndex(x)
    ensures NextIndex(Round(cfg, x, draw)) <= |x.follower.raft.log| + 1
  {
    hide Round, Rejects;
    RoundFacts(cfg, x, draw);
    RejectedNext(x);
  }

  lemma {:induction false} FewRejections(cfg: Config, x: Pair, draw: nat)
    requires Talking(cfg, x)
    ensures Rejections(cfg, x, draw) <= Min(NextIndex(x) - 1, |x.follower.raft.log| + 1)
    decreases NextIndex(x)
  {
    hide Round, WellWired;
    if Rejects(x) {
      var y := Round(cfg, x, draw);
      RoundFacts(cfg, x, draw);
      RejectionLowersNext(cfg, x, draw);
      FewRejections(cfg, y, draw);
    }
  }

  // ---------- What acceptance means ----------

  // Equal terms at an index mean equal histories up to it.
  ghost predicate Agree(a: Log, b: Log) {
    forall i :: 0 <= i < |a| && i < |b| && a[i].term == b[i].term ==> a[..i + 1] == b[..i + 1]
  }

  // Terms start at 1, so a made-up previous term of 0 never matches.
  ghost predicate Positive(log: Log) {
    forall i :: 0 <= i < |log| ==> log[i].term >= 1
  }

  lemma AcceptedSplice(l: Log, f: Log, prev: nat)
    requires Agree(l, f) && prev <= |l| && prev <= |f| && l[..prev] == f[..prev]
    ensures l <= Splice(f, prev, l[prev..])
  {
    hide Agreeing;
    var entries := l[prev..];
    var k := Agreeing(f, prev, entries);
    assert l[..prev + k] == f[..prev + k] by {
      if k > 0 {
        var i := prev + k - 1;
        assert f[prev + (k - 1)].term == entries[k - 1].term == l[i].term;
        assert l[..i + 1] == f[..i + 1];
      }
    }
    if k == |entries| {
      assert l == f[..|l|];
    } else {
      assert entries[k..] == l[prev + k..];
      assert l == l[..prev + k] + l[prev + k..];
    }
  }

  lemma AcceptedRequest(x: Pair)
    requires !Rejects(x) && Agree(x.leader.raft.log, x.follower.raft.log) && Positive(x.follower.raft.log)
    ensures var l, f, m := x.leader.raft.log, x.follower.raft.log, Request(x);
      && m.prevIndex <= |l| && m.prevIndex <= |f| && l[..m.prevIndex] == f[..m.prevIndex]
      && m.entries == l[m.prevIndex..]
  {
    var l, f, m := x.leader.raft.log, x.follower.raft.log, Request(x);
    var prev := m.prevIndex;
    if prev > 0 {
      assert f[prev - 1].term == m.prevTerm >= 1;
      assert l[prev - 1].term == f[prev - 1].term;
      assert l[..prev - 1 + 1] == f[..prev - 1 + 1];
    }
  }

  // When the follower accepts, everything in the leader's log is in the follower's, and
  // what the leader has committed of it the follower has.
  lemma {:induction false} AcceptanceRepairs(cfg: Config, x: Pair, draw: nat)
    requires Talking(cfg, x)
    requires Agree(x.leader.raft.log, x.follower.raft.log) && Positive(x.follower.raft.log)
    ensures x.leader.raft.log <= Repaired(cfg, x, draw).follower.raft.log
    ensures Repaired(cfg, x, draw).leader.raft.log == x.leader.raft.log
    ensures Repaired(cfg, x, draw).follower.raft.commitIndex >= Min(x.leader.raft.commitIndex, |x.leader.raft.log|)
    decreases NextIndex(x)
  {
    hide Round, WellWired, Agree, Positive;
    RoundFacts(cfg, x, draw);
    if Rejects(x) {
      RejectionLowersNext(cfg, x, draw);
      AcceptanceRepairs(cfg, Round(cfg, x, draw), draw);
    } else {
      AcceptedRequest(x);
      AcceptedSplice(x.leader.raft.log, x.follower.raft.log, Request(x).prevIndex);
    }
  }

  // ---------- In every reachable state ----------

  // One entry of the same term on either side is taken for the same entry, whatever the
  // leader thinks the other has.
  lemma {:induction false} TwinsStay(cfg: Config, x: Pair, draw: nat)
    requires Talking(cfg, x) && |x.leader.raft.log| == 1 && |x.follower.raft.log| == 1
    requires x.leader.raft.log[0].term == x.follower.raft.log[0].term
    ensures Repaired(cfg, x, draw).follower.raft.log == x.follower.raft.log
    decreases NextIndex(x)
  {
    RoundFacts(cfg, x, draw);
    if Rejects(x) {
      hide Round, WellWired;
      RejectionLowersNext(cfg, x, draw);
      TwinsStay(cfg, Round(cfg, x, draw), draw);
    } else {
      RequestPoint(x);
      hide Round, WellWired;
    }
  }

  lemma ReachableTalk(cfg: Config, states: seq<Cluster>, acts: seq<Action>, n: nat, p: NodeID, q: NodeID)
    requires Run(cfg, states, acts) && n <= |acts| && p != q
    requires p in states[n].nodes && q in states[n].nodes && states[n].nodes[p].raft.role == Leader
    requires var a, b := states[n].nodes[p].raft, states[n].nodes[q].raft;
      b.term <= a.term && (b.role == Leader ==> b.term < a.term)
    ensures Talking(cfg, Pair(states[n].nodes[p], states[n].nodes[q]))
  {
    hide Init;
    RunIsWired(cfg, states, acts, n);
    assert WiredAt(cfg, p, states[n].nodes[p]) && WiredAt(cfg, q, states[n].nodes[q]);
  }

  // In every reachable state of every configuration, a leader and any node of no higher
  // term that does not lead the same one are done after at most min(next - 1, length + 1)
  // rejections.
  lemma FollowersSoonAccept(cfg: Config, states: seq<Cluster>, acts: seq<Action>, n: nat, p: NodeID, q: NodeID,
        draw: nat)
    requires Run(cfg, states, acts) && n <= |acts| && p != q
    requires p in states[n].nodes && q in states[n].nodes && states[n].nodes[p].raft.role == Leader
    requires var a, b := states[n].nodes[p].raft, states[n].nodes[q].raft;
      b.term <= a.term && (b.role == Leader ==> b.term < a.term)
    ensures var x := Pair(states[n].nodes[p], states[n].nodes[q]);
      Talking(cfg, x) && Rejections(cfg, x, draw) <= Min(NextIndex(x) - 1, |x.follower.raft.log| + 1)
  {
    ReachableTalk(cfg, states, acts, n, p, q);
    hide *;
    FewRejections(cfg, Pair(states[n].nodes[p], states[n].nodes[q]), draw);
  }

  lemma ReachableLogs(cfg: Config, states: seq<Cluster>, acts: seq<Action>, n: nat, p: NodeID, q: NodeID)
    requires Sound(cfg) && Run(cfg, states, acts) && n <= |acts|
    requires p in states[n].nodes && q in states[n].nodes
    ensures Agree(states[n].nodes[p].raft.log, states[n].nodes[q].raft.log)
    ensures Positive(states[n].nodes[q].raft.log)
  {
    hide Run, Sound, Matches, Witnessed;
    RunShape(cfg, states, acts);
    var a, b := states[n].nodes[p].raft.log, states[n].nodes[q].raft.log;
    forall i | 0 <= i < |a| && i < |b| && a[i].term == b[i].term
      ensures a[..i + 1] == b[..i + 1]
    {
      LogsAlwaysMatch(cfg, states, acts, n, p, n, q, i + 1);
    }
    LogTermsAreOrdered(cfg, states, acts, n, q);
  }

  // Where elections are safe, any leader in any reachable state repairs any node of no
  // higher term: once its requests are accepted its log is a prefix of the node's, and
  // the node has committed at least what it had.
  lemma LeadersRepairFollowers(cfg: Config, states: seq<Cluster>, acts: seq<Action>, n: nat, p: NodeID, q: NodeID,
        draw: nat)
    requires Sound(cfg) && Run(cfg, states, acts) && n <= |acts| && p != q
    requires p in states[n].nodes && q in states[n].nodes
    requires states[n].nodes[p].raft.role == Leader
    requires states[n].nodes[q].raft.term <= states[n].nodes[p].raft.term
    ensures var x := Pair(states[n].nodes[p], states[n].nodes[q]);
      && Talking(cfg, x) && x.leader.raft.log <= Repaired(cfg, x, draw).follower.raft.log
      && Repaired(cfg, x, draw).follower.raft.commitIndex >= Min(x.leader.raft.commitIndex, |x.leader.raft.log|)
  {
    OneLeads(cfg, states, acts, n, p, q);
    ReachableTalk(cfg, states, acts, n, p, q);
    hide *;
    ReachableLogs(cfg, states, acts, n, p, q);
    AcceptanceRepairs(cfg, Pair(states[n].nodes[p], states[n].nodes[q]), draw);
  }

  lemma OneLeads(cfg: Config, states: seq<Cluster>, acts: seq<Action>, n: nat, p: NodeID, q: NodeID)
    requires Sound(cfg) && Run(cfg, states, acts) && n <= |acts| && p != q
    requires p in states[n].nodes && q in states[n].nodes && states[n].nodes[p].raft.role == Leader
    ensures states[n].nodes[q].raft.role == Leader ==> states[n].nodes[q].raft.term != states[n].nodes[p].raft.term
  {
    hide Init, Next, Sound;
    ElectionsAreSafe(cfg, states, acts);
  }
}
