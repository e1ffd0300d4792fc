/** Names, modes and wire payloads shared by every layer. */
module Types {
  // A replica's name. Names are only compared and ordered, so a number stands
  // for the string; the source's empty-string sentinel is None.
  type NodeID = nat

  datatype Option<+T> = None | Some(value: T)

  datatype Mode = Baseline | PreVote | CrossFault

  datatype Role = Follower | PreCandidate | Candidate | Leader

  // The replicated part of a log entry. Its index and hashes are functions of
  // its position and its predecessors (see module Logs).
  datatype Entry = Entry(term: nat, cmd: string)

  // The decoded payloads. Garbled is a byte string that decodes to none of them.
  datatype Payload =
    | AppendReq(term: nat, leader: NodeID, prevIndex: nat, prevTerm: nat,
                entries: seq<Entry>, leaderCommit: nat)
    | AppendResp(term: nat, success: bool, matchIndex: nat, conflictIndex: nat)
    | VoteReq(term: nat, candidate: NodeID, lastIndex: nat, lastTerm: nat, preVote: bool)
    | VoteResp(term: nat, granted: bool, preVote: bool)
    | ProbeReq(term: nat, sender: NodeID, inboundUp: set<NodeID>)
    | ProbeResp(term: nat, sender: NodeID, inboundUp: set<NodeID>)
    | Garbled(bytes: seq<nat>)

  // Member lists are kept sorted and free of duplicates.
  ghost predicate Ascending(s: seq<NodeID>) {
    forall i, j :: 0 <= i < j < |s| ==> s[i] < s[j]
  }

  function ToSet<T>(s: seq<T>): set<T> {
    set x | x in s
  }

  function Get(m: map<NodeID, nat>, k: NodeID): nat {
    if k in m then m[k] else 0
  }

  function Min(a: nat, b: nat): nat {
    if a < b then a else b
  }

  function Max(a: nat, b: nat): nat {
    if a < b then b else a
  }

  lemma AscendingSnoc(s: seq<NodeID>, x: NodeID)
    requires Ascending(s) && forall y :: y in s ==> y < x
    ensures Ascending(s + [x])
  {
    var t := s + [x];
    forall i, j | 0 <= i < j < |t|
      ensures t[i] < t[j]
    {
      assert t[i] == s[i] && s[i] in s;
    }
  }

  // ---------- Majorities ----------

  lemma AscendingCardinality(s: seq<NodeID>)
    requires Ascending(s)
    ensures |ToSet(s)| == |s|
  {
    if s != [] {
      var n := |s| - 1;
      AscendingCardinality(s[..n]);
      assert s == s[..n] + [s[n]];
      assert s[n] !in s[..n];
      assert ToSet(s) == ToSet(s[..n]) + {s[n]};
    }
  }

  lemma SubsetCardinality<T>(a: set<T>, b: set<T>)
    requires a <= b
    ensures |a| <= |b|
  {
    if a != {} {
      var x :| x in a;
      SubsetCardinality(a - {x}, b - {x});
    }
  }

  // Two parts of a roster that together outnumber it share a member.
  lemma EnoughMeet<T>(a: set<T>, b: set<T>, all: set<T>) returns (v: T)
    requires a <= all && b <= all && |a| + |b| > |all|
    ensures v in a && v in b
  {
    if a * b == {} {
      assert |a + b| == |a| + |b|;
      SubsetCardinality(a + b, all);
      assert false;
    }
    v :| v in a * b;
  }

  // Two majorities of one roster share a member.
  lemma MajoritiesMeet<T>(a: set<T>, b: set<T>, all: set<T>) returns (v: T)
    requires a <= all && b <= all
    requires |a| >= |all| / 2 + 1 && |b| >= |all| / 2 + 1
    ensures v in a && v in b
  {
    v := EnoughMeet(a, b, all);
  }

  // How much two parts share at least.
  lemma SharedSize<T>(a: set<T>, b: set<T>, all: set<T>)
    requires a <= all && b <= all
    ensures |a * b| >= |a| + |b| - |all|
  {
    assert |a + b| == |a| + |b| - |a * b|;
    SubsetCardinality(a + b, all);
  }
}
