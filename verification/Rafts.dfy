/** The consensus part of a node's state and the primitive moves the handlers are
    built from (internal/consensus/node.go, handlers.go). */
module Rafts {
  import opened Types
  import opened Logs

  // What becomeFollower does with the vote when the term does not rise:
  // AsWritten always clears it, KeepVote clears it only for a higher term.
  datatype Rule = AsWritten | KeepVote

  // What a follower acknowledges when it takes a request: the length of its whole
  // log, as the code does, or the last index the request vouched for.
  datatype AckRule = WholeLog | Vouched

  datatype Raft = Raft(role: Role, term: nat, votedFor: Option<NodeID>, leaderID: Option<NodeID>,
                       commitIndex: nat, log: Log,
                       nextIndex: map<NodeID, nat>, matchIndex: map<NodeID, nat>,
                       votes: set<NodeID>, preVotes: set<NodeID>)

  const FRESH_RAFT := Raft(Follower, 0, None, None, 0, [], map[], map[], {}, {})

  function StepDown(rule: Rule, r: Raft, term: nat, leader: Option<NodeID>): Raft {
    r.(role := Follower,
       term := term,
       votedFor := if rule.KeepVote? && term == r.term then r.votedFor else None,
       leaderID := leader)
  }

  function Campaign(r: Raft, id: NodeID): Raft {
    r.(role := Candidate, term := r.term + 1, votedFor := Some(id), votes := {id})
  }

  function PreCampaign(r: Raft, id: NodeID): Raft {
    r.(role := PreCandidate, preVotes := {id})
  }

  // The indexes m with the same number n set for every member but id.
  function SetForOthers(m: map<NodeID, nat>, members: seq<NodeID>, id: NodeID, n: nat): map<NodeID, nat> {
    if members == [] then m
    else
      var last := |members| - 1;
      var rest := SetForOthers(m, members[..last], id, n);
      if members[last] == id then rest else rest[members[last] := n]
  }

  lemma SetForOthersIsExact(m: map<NodeID, nat>, members: seq<NodeID>, id: NodeID, n: nat)
    ensures forall p :: Get(SetForOthers(m, members, id, n), p) == if p in members && p != id then n else Get(m, p)
  {
    if members != [] {
      var last := |members| - 1;
      SetForOthersIsExact(m, members[..last], id, n);
      assert members == members[..last] + [members[last]];
    }
  }

  function Elected(r: Raft, id: NodeID, members: seq<NodeID>): Raft {
    r.(role := Leader,
       leaderID := Some(id),
       nextIndex := SetForOthers(r.nextIndex, members, id, |r.log| + 1),
       matchIndex := SetForOthers(r.matchIndex, members, id, 0))
  }

  // ---------- Replication ----------

  function NextFor(r: Raft, m: NodeID): (next: nat)
    ensures next >= 1
  {
    if Get(r.nextIndex, m) == 0 then |r.log| + 1 else r.nextIndex[m]
  }

  // A request past the end of the log carries previous term 0 and no entries.
  function AppendFor(r: Raft, id: NodeID, m: NodeID): Payload {
    var next := NextFor(r, m);
    var prevTerm := match TermAt(r.log, next - 1) case Some(t) => t case None => 0;
    AppendReq(r.term, id, next - 1, prevTerm, Slice(r.log, next), r.commitIndex)
  }

  function RememberNext(r: Raft, m: NodeID): Raft {
    if Get(r.nextIndex, m) == 0 then r.(nextIndex := r.nextIndex[m := NextFor(r, m)]) else r
  }

  function ConflictIndex(log: Log, prevIndex: nat): nat {
    Min(prevIndex, |log| + 1)
  }

  // A follower takes a request that matches: splice, then follow the commit index.
  function TakeEntries(r: Raft, prevIndex: nat, entries: seq<Entry>, leaderCommit: nat): Raft
    requires prevIndex <= |r.log|
  {
    var log := Splice(r.log, prevIndex, entries);
    r.(log := log,
       commitIndex := if leaderCommit > r.commitIndex then Min(leaderCommit, |log|) else r.commitIndex)
  }

  // The index acknowledged by a follower whose log is now as given.
  function AckIndex(ack: AckRule, log: Log, prevIndex: nat, entries: seq<Entry>): nat {
    if ack == WholeLog then |log| else prevIndex + |entries|
  }

  function NoteMatch(r: Raft, from: NodeID, matchIndex: nat): Raft {
    r.(matchIndex := r.matchIndex[from := matchIndex], nextIndex := r.nextIndex[from := matchIndex + 1])
  }

  function BackUp(r: Raft, from: NodeID, conflictIndex: nat): Raft {
    r.(nextIndex := r.nextIndex[from := Max(conflictIndex, 1)])
  }

  // ---------- The commit rule ----------

  function Insert(x: nat, s: seq<nat>): seq<nat> {
    if s == [] || x >= s[0] then [x] + s else [s[0]] + Insert(x, s[1..])
  }

  function SortDesc(s: seq<nat>): (r: seq<nat>)
    ensures |r| == |s|
  {
    if s == [] then [] else InsertLength(s[0], SortDesc(s[1..])); Insert(s[0], SortDesc(s[1..]))
  }

  lemma InsertLength(x: nat, s: seq<nat>)
    ensures |Insert(x, s)| == |s| + 1
  {
  }

  // The leader's own last index followed by what the first n members acknowledged.
  function MatchList(r: Raft, id: NodeID, members: seq<NodeID>, n: nat): (ms: seq<nat>)
    requires Ascending(members) && n <= |members|
    ensures |ms| == n + if id in members[..n] then 0 else 1
  {
    if n == 0 then [|r.log|]
    else
      assert members[..n] == members[..n - 1] + [members[n - 1]];
      MatchList(r, id, members, n - 1) +
      if members[n - 1] == id then [] else [Get(r.matchIndex, members[n - 1])]
  }

  function CommitCandidate(r: Raft, id: NodeID, members: seq<NodeID>): nat
    requires Ascending(members) && members != []
  {
    SortDesc(MatchList(r, id, members, |members|))[|members| / 2]
  }

  function AdvanceCommit(r: Raft, id: NodeID, members: seq<NodeID>): Raft
    requires Ascending(members) && members != []
  {
    var candidate := CommitCandidate(r, id, members);
    if candidate <= r.commitIndex then r
    else if TermAt(r.log, candidate) != Some(r.term) then r
    else r.(commitIndex := candidate)
  }

  // ---------- What the order statistic means ----------

  function Acked(r: Raft, id: NodeID, m: NodeID): nat {
    if m == id then |r.log| else Get(r.matchIndex, m)
  }

  // The members known to hold the leader's log up to index n.
  function Replicas(r: Raft, id: NodeID, members: seq<NodeID>, n: nat): set<NodeID> {
    set m | m in members && Acked(r, id, m) >= n
  }

  function CountGE(s: seq<nat>, n: nat): nat {
    if s == [] then 0 else (if s[0] >= n then 1 else 0) + CountGE(s[1..], n)
  }

  lemma CountAppend(a: seq<nat>, b: seq<nat>, n: nat)
    ensures CountGE(a + b, n) == CountGE(a, n) + CountGE(b, n)
  {
    if a == [] {
      assert a + b == b;
    } else {
      assert (a + b)[1..] == a[1..] + b;
    }
  }

  lemma CountInsert(x: nat, s: seq<nat>, n: nat)
    ensures CountGE(Insert(x, s), n) == CountGE([x], n) + CountGE(s, n)
  {
    if s == [] || x >= s[0] {
      CountAppend([x], s, n);
    } else {
      CountInsert(x, s[1..], n);
      assert ([s[0]] + Insert(x, s[1..]))[1..] == Insert(x, s[1..]);
    }
  }

  lemma CountSort(s: seq<nat>, n: nat)
    ensures CountGE(SortDesc(s), n) == CountGE(s, n)
  {
    if s != [] {
      CountSort(s[1..], n);
      CountInsert(s[0], SortDesc(s[1..]), n);
    }
  }

  ghost predicate Descending(s: seq<nat>) {
    forall i, j :: 0 <= i < j < |s| ==> s[i] >= s[j]
  }

  lemma InsertDescending(x: nat, s: seq<nat>)
    requires Descending(s)
    ensures Descending(Insert(x, s))
    ensures forall y :: y in Insert(x, s) ==> y == x || y in s
  {
    if s != [] && x < s[0] {
      var t := Insert(x, s[1..]);
      InsertDescending(x, s[1..]);
      forall j | 0 <= j < |t|
        ensures t[j] <= s[0]
      {
        assert t[j] in t;
      }
    }
  }

  lemma SortDescending(s: seq<nat>)
    ensures Descending(SortDesc(s))
  {
    if s != [] {
      SortDescending(s[1..]);
      InsertDescending(s[0], SortDesc(s[1..]));
    }
  }

  // In a descending list, position k reaches n exactly when more than k elements do.
  lemma DescendingCount(s: seq<nat>, k: nat, n: nat)
    requires Descending(s) && k < |s|
    ensures s[k] >= n <==> CountGE(s, n) > k
  {
    if k > 0 {
      DescendingCount(s[1..], k - 1, n);
    } else if s[0] < n {
      NoneReach(s, n);
    }
  }

  lemma NoneReach(s: seq<nat>, n: nat)
    requires forall i :: 0 <= i < |s| ==> s[i] < n
    ensures CountGE(s, n) == 0
  {
  }

  lemma ReplicasSnoc(r: Raft, id: NodeID, members: seq<NodeID>, m: NodeID, n: nat)
    requires m !in members
    ensures |Replicas(r, id, members + [m], n)| ==
      |Replicas(r, id, members, n)| + if Acked(r, id, m) >= n then 1 else 0
  {
    var before := Replicas(r, id, members, n);
    assert m !in before;
    assert Replicas(r, id, members + [m], n) == if Acked(r, id, m) >= n then before + {m} else before;
  }

  lemma CountMatches(r: Raft, id: NodeID, members: seq<NodeID>, n: nat, k: nat)
    requires Ascending(members) && k <= |members|
    ensures CountGE(MatchList(r, id, members, k), n)
         == |Replicas(r, id, members[..k], n)|
            + (if id !in members[..k] && |r.log| >= n then 1 else 0)
  {
    if k == 0 {
      assert Replicas(r, id, members[..0], n) == {};
    } else {
      var m := members[k - 1];
      CountMatches(r, id, members, n, k - 1);
      assert members[..k] == members[..k - 1] + [m];
      assert m !in members[..k - 1];
      ReplicasSnoc(r, id, members[..k - 1], m, n);
      hide Replicas;
      if m == id {
        assert MatchList(r, id, members, k) == MatchList(r, id, members, k - 1);
      } else {
        CountAppend(MatchList(r, id, members, k - 1), [Get(r.matchIndex, m)], n);
      }
    }
  }

  // The candidate is exactly the largest index that a majority is known to hold.
  lemma CommitCandidateIsExact(r: Raft, id: NodeID, members: seq<NodeID>, n: nat)
    requires Ascending(members) && id in members
    ensures CommitCandidate(r, id, members) >= n
       <==> |Replicas(r, id, members, n)| >= |members| / 2 + 1
  {
    var ms := MatchList(r, id, members, |members|);
    assert members[..|members|] == members;
    CountMatches(r, id, members, n, |members|);
    CountSort(ms, n);
    SortDescending(ms);
    DescendingCount(SortDesc(ms), |members| / 2, n);
  }

  // The commit index never moves back or onto an entry of an older term, and it
  // is at least every index of the current term that a majority holds.
  lemma AdvanceCommitIsExact(r: Raft, id: NodeID, members: seq<NodeID>, n: nat)
    requires Ascending(members) && id in members
    requires Nondecreasing(r.log) && LastTerm(r.log) <= r.term
    requires forall m :: m in members ==> Acked(r, id, m) <= |r.log|
    ensures var after := AdvanceCommit(r, id, members).commitIndex;
      && after >= r.commitIndex
      && (after > r.commitIndex ==>
           && TermAt(r.log, after) == Some(r.term)
           && |Replicas(r, id, members, after)| >= |members| / 2 + 1)
      && (n >= 1 && TermAt(r.log, n) == Some(r.term)
          && |Replicas(r, id, members, n)| >= |members| / 2 + 1
          ==> after >= n)
  {
    var candidate := CommitCandidate(r, id, members);
    CommitCandidateIsExact(r, id, members, candidate);
    CommitCandidateIsExact(r, id, members, n);
    if n >= 1 && TermAt(r.log, n) == Some(r.term) && n <= candidate {
      var q := Replicas(r, id, members, candidate);
      assert q != {};
      var m :| m in q;
      assert candidate <= |r.log|;
      assert r.log[n - 1].term <= r.log[candidate - 1].term <= LastTerm(r.log);
    }
  }
}
