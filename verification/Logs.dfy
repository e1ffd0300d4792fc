/** The replicated log (internal/consensus/log.go): the queries Raft makes of it,
    the splice a follower performs, and the hash chain over it. */
module Logs {
  import opened Types

  type Log = seq<Entry>

  // ---------- Queries ----------

  function LastTerm(log: Log): nat {
    if log == [] then 0 else log[|log| - 1].term
  }

  // Indexes are 1-based; index 0 is the empty prefix and has term 0.
  function TermAt(log: Log, index: nat): Option<nat> {
    if index == 0 then Some(0)
    else if index > |log| then None
    else Some(log[index - 1].term)
  }

  predicate Matches(log: Log, prevIndex: nat, prevTerm: nat) {
    TermAt(log, prevIndex) == Some(prevTerm)
  }

  predicate UpToDate(log: Log, candidateTerm: nat, candidateIndex: nat) {
    if candidateTerm != LastTerm(log) then candidateTerm > LastTerm(log)
    else candidateIndex >= |log|
  }

  function Slice(log: Log, from: nat): Log {
    var start := if from == 0 then 1 else from;
    if start > |log| then [] else log[start - 1..]
  }

  ghost predicate Nondecreasing(log: Log) {
    forall i, j :: 0 <= i < j < |log| ==> log[i].term <= log[j].term
  }

  // ---------- The follower's splice ----------

  // How many leading entries are already present after prev with the same term.
  function Agreeing(log: Log, prev: nat, entries: seq<Entry>): (k: nat)
    requires prev <= |log|
    ensures k <= |entries| && prev + k <= |log|
    ensures forall i :: 0 <= i < k ==> log[prev + i].term == entries[i].term
    ensures k < |entries| && prev + k < |log| ==> log[prev + k].term != entries[k].term
    decreases |entries|
  {
    if entries == [] || prev == |log| || log[prev].term != entries[0].term then 0
    else 1 + Agreeing(log, prev + 1, entries[1..])
  }

  // Keep the log up to the first entry that is missing or differs in term, and
  // take the leader's entries from there; change nothing if there is none.
  function Splice(log: Log, prev: nat, entries: seq<Entry>): Log
    requires prev <= |log|
  {
    var k := Agreeing(log, prev, entries);
    if k == |entries| then log else log[..prev + k] + entries[k..]
  }

  // The first mismatch is a property of the two sequences, not of the scan.
  lemma AgreeingIsUnique(log: Log, prev: nat, entries: seq<Entry>, k: nat)
    requires prev <= |log|
    requires k <= |entries| && prev + k <= |log|
    requires forall i :: 0 <= i < k ==> log[prev + i].term == entries[i].term
    requires k < |entries| && prev + k < |log| ==> log[prev + k].term != entries[k].term
    ensures Agreeing(log, prev, entries) == k
  {
    var a := Agreeing(log, prev, entries);
    if a < k {
      assert false;
    }
  }

  // One turn of the source's loop.
  function SpliceOne(log: Log, pos: nat, e: Entry): Log
    requires pos <= |log|
  {
    if pos < |log| && log[pos].term == e.term then log
    else log[..pos] + [e]
  }

  lemma SpliceAt(log: Log, prev: nat, entries: seq<Entry>, k: nat)
    requires prev <= |log|
    requires k <= |entries| && prev + k <= |log|
    requires forall i :: 0 <= i < k ==> log[prev + i].term == entries[i].term
    requires k < |entries| && prev + k < |log| ==> log[prev + k].term != entries[k].term
    ensures Splice(log, prev, entries) == if k == |entries| then log else log[..prev + k] + entries[k..]
  {
    AgreeingIsUnique(log, prev, entries, k);
  }

  lemma CutSnoc(kept: Log, entries: seq<Entry>, k: nat, e: Entry)
    requires k <= |entries|
    ensures kept + (entries + [e])[k..] == (kept + entries[k..]) + [e]
    ensures (kept + entries[k..])[..|kept| + |entries| - k] == kept + entries[k..]
  {
    assert (entries + [e])[k..] == entries[k..] + [e];
  }

  // Processing entries one at a time, as the source does, is the splice.
  lemma SpliceSnoc(log: Log, prev: nat, entries: seq<Entry>, e: Entry)
    requires prev <= |log|
    ensures prev + |entries| <= |Splice(log, prev, entries)|
    ensures Splice(log, prev, entries + [e])
         == SpliceOne(Splice(log, prev, entries), prev + |entries|, e)
  {
    hide Agreeing, Splice;
    var n, k, more := |entries|, Agreeing(log, prev, entries), entries + [e];
    SpliceAt(log, prev, entries, k);
    if k < n {
      SpliceAt(log, prev, more, k);
      CutSnoc(log[..prev + k], entries, k, e);
    } else if prev + n < |log| && log[prev + n].term == e.term {
      SpliceAt(log, prev, more, n + 1);
    } else {
      SpliceAt(log, prev, more, n);
      assert more[n..] == [e];
    }
  }

  // Some incoming entry contradicts the log, so its tail is cut.
  predicate Cuts(log: Log, prev: nat, entries: seq<Entry>)
    requires prev <= |log|
  {
    var k := Agreeing(log, prev, entries);
    k < |entries| && prev + k < |log|
  }

  lemma CutsSnoc(log: Log, prev: nat, entries: seq<Entry>, e: Entry)
    requires prev <= |log|
    ensures var s := Splice(log, prev, entries);
      Cuts(log, prev, entries + [e]) <==>
        || Cuts(log, prev, entries)
        || (prev + |entries| < |s| && s[prev + |entries|].term != e.term)
  {
    var n := |entries|;
    var k := Agreeing(log, prev, entries);
    var more := entries + [e];
    if k < n {
      AgreeingIsUnique(log, prev, more, k);
    } else if prev + n < |log| && log[prev + n].term == e.term {
      AgreeingIsUnique(log, prev, more, n + 1);
    } else {
      AgreeingIsUnique(log, prev, more, n);
    }
  }

  // What turn i of the loop does to the spliced log and to the conflict flag.
  lemma SpliceTurn(log: Log, prev: nat, all: seq<Entry>, i: nat)
    requires prev <= |log| && i < |all|
    ensures var s := Splice(log, prev, all[..i]);
      && prev + i <= |s|
      && Splice(log, prev, all[..i + 1]) == SpliceOne(s, prev + i, all[i])
      && (Cuts(log, prev, all[..i + 1]) <==>
           Cuts(log, prev, all[..i]) || (prev + i < |s| && s[prev + i].term != all[i].term))
  {
    assert all[..i + 1] == all[..i] + [all[i]];
    SpliceSnoc(log, prev, all[..i], all[i]);
    CutsSnoc(log, prev, all[..i], all[i]);
  }

  // Afterwards the leader's entries are there, term for term, and everything
  // before prev is untouched; receiving the same request again changes nothing.
  lemma SpliceInstalls(log: Log, prev: nat, entries: seq<Entry>)
    requires prev <= |log|
    ensures var s := Splice(log, prev, entries);
      && prev + |entries| <= |s|
      && s[..prev] == log[..prev]
      && (forall i :: 0 <= i < |entries| ==> s[prev + i].term == entries[i].term)
      && Splice(s, prev, entries) == s
  {
    var s := Splice(log, prev, entries);
    var k := Agreeing(log, prev, entries);
    forall i | 0 <= i < |entries|
      ensures s[prev + i].term == entries[i].term
    {
      if i >= k && k < |entries| {
        assert s[prev + i] == entries[k..][i - k];
      }
    }
    AgreeingIsUnique(s, prev, entries, |entries|);
  }

  // The new log ends at prev + |entries| exactly when the old one reached no
  // further, or an entry conflicted and the tail was cut.
  lemma SpliceLength(log: Log, prev: nat, entries: seq<Entry>)
    requires prev <= |log|
    ensures |Splice(log, prev, entries)| == prev + |entries|
       <==> |log| <= prev + |entries| || Cuts(log, prev, entries)
  {
  }

  lemma NothingSpliced(log: Log, prev: nat)
    requires prev <= |log|
    ensures Splice(log, prev, []) == log && !Cuts(log, prev, [])
  {
  }

  // ---------- The hash chain ----------

  datatype Hash = ZeroHash | EntryHash(term: nat, index: nat, cmd: string, prev: Hash)

  // What the log stores: an entry with its position and its place in the chain.
  datatype Record = Record(term: nat, index: nat, cmd: string, prevHash: Hash, hash: Hash)

  function Content(r: Record): Entry {
    Entry(r.term, r.cmd)
  }

  function Contents(rs: seq<Record>): (log: Log)
    ensures |log| == |rs|
    ensures forall i :: 0 <= i < |rs| ==> log[i] == Content(rs[i])
  {
    seq(|rs|, i requires 0 <= i < |rs| => Content(rs[i]))
  }

  lemma ContentsPrefix(rs: seq<Record>, n: nat)
    requires n <= |rs|
    ensures Contents(rs[..n]) == Contents(rs)[..n]
  {
  }

  lemma ContentsSnoc(rs: seq<Record>, r: Record)
    ensures Contents(rs + [r]) == Contents(rs) + [Content(r)]
  {
  }

  function Head(rs: seq<Record>): Hash {
    if rs == [] then ZeroHash else rs[|rs| - 1].hash
  }

  ghost predicate WellChained(rs: seq<Record>) {
    forall i :: 0 <= i < |rs| ==>
      && rs[i].index == i + 1
      && rs[i].prevHash == Head(rs[..i])
      && rs[i].hash == EntryHash(rs[i].term, rs[i].index, rs[i].cmd, rs[i].prevHash)
  }

  lemma ChainPrefix(rs: seq<Record>, n: nat)
    requires WellChained(rs) && n <= |rs|
    ensures WellChained(rs[..n])
  {
    forall i | 0 <= i < n
      ensures rs[..n][..i] == rs[..i]
    {
    }
  }

  lemma ChainSnoc(rs: seq<Record>, r: Record)
    requires WellChained(rs)
    requires r.index == |rs| + 1 && r.prevHash == Head(rs)
    requires r.hash == EntryHash(r.term, r.index, r.cmd, r.prevHash)
    ensures WellChained(rs + [r])
  {
    var more := rs + [r];
    forall i | 0 <= i < |more|
      ensures more[..i] == if i < |rs| then rs[..i] else rs
    {
    }
  }

  // Equal hashes anywhere in two logs mean equal positions and equal histories.
  lemma {:induction false} EqualHashesEqualPrefixes(a: seq<Record>, i: nat, b: seq<Record>, j: nat)
    requires WellChained(a) && i < |a|
    requires WellChained(b) && j < |b|
    requires a[i].hash == b[j].hash
    ensures i == j && a[..i + 1] == b[..j + 1]
  {
    assert a[i].index == b[j].index;
    if i > 0 {
      assert a[i - 1].hash == Head(a[..i]) == Head(b[..j]) == b[j - 1].hash;
      EqualHashesEqualPrefixes(a, i - 1, b, j - 1);
      assert a[i] == b[j];
      assert a[..i + 1] == a[..i] + [a[i]];
      assert b[..i + 1] == b[..i] + [b[i]];
    }
  }

  lemma SameLastRecord(a: seq<Record>, b: seq<Record>, n: nat)
    requires WellChained(a) && WellChained(b) && n < |a| && n < |b|
    requires a[..n] == b[..n] && Content(a[n]) == Content(b[n])
    ensures a[n] == b[n]
  {
  }

  // Conversely the hashes are functions of the contents.
  lemma {:induction false} EqualContentsEqualChains(a: seq<Record>, b: seq<Record>)
    requires WellChained(a) && WellChained(b)
    requires Contents(a) == Contents(b)
    ensures a == b
  {
    hide WellChained, Contents;
    assert |a| == |Contents(a)| == |Contents(b)| == |b|;
    if a != [] {
      var n := |a| - 1;
      ChainPrefix(a, n);
      ChainPrefix(b, n);
      ContentsPrefix(a, n);
      ContentsPrefix(b, n);
      EqualContentsEqualChains(a[..n], b[..n]);
      assert Content(a[n]) == Contents(a)[n] == Contents(b)[n] == Content(b[n]);
      SameLastRecord(a, b, n);
      assert a == a[..n] + [a[n]] && b == b[..n] + [b[n]];
    }
  }

  // ---------- The object ----------

  class LogStore {
    var entries: seq<Record>

    ghost predicate Valid()
      reads this
    {
      WellChained(entries)
    }

    function Value(): Log
      reads this
    {
      Contents(entries)
    }

    constructor ()
      ensures Valid() && Value() == []
    {
      entries := [];
    }

    method Append(term: nat, cmd: string) returns (r: Record)
      requires Valid()
      modifies this
      ensures Valid()
      ensures Value() == old(Value()) + [Entry(term, cmd)]
      ensures entries == old(entries) + [r]
    {
      var index := |entries| + 1;
      var prev := Head(entries);
      r := Record(term, index, cmd, prev, EntryHash(term, index, cmd, prev));
      ChainSnoc(entries, r);
      ContentsSnoc(entries, r);
      entries := entries + [r];
    }

    method TruncateFrom(index: nat)
      requires Valid()
      modifies this
      ensures Valid()
      ensures index == 0 || index > |old(Value())| ==> entries == old(entries)
      ensures 1 <= index <= |old(Value())| ==> entries == old(entries)[..index - 1]
      ensures 1 <= index <= |old(Value())| ==> Value() == old(Value())[..index - 1]
    {
      if index == 0 || index > |entries| {
        return;
      }
      ChainPrefix(entries, index - 1);
      ContentsPrefix(entries, index - 1);
      entries := entries[..index - 1];
    }

    // The incoming indexes and hashes are the sender's claims and are ignored.
    method AppendFromLeader(prevIndex: nat, incoming: seq<Record>) returns (conflict: bool)
      requires Valid() && prevIndex <= |Value()|
      modifies this
      ensures Valid()
      ensures Value() == Splice(old(Value()), prevIndex, Contents(incoming))
      ensures conflict <==> Cuts(old(Value()), prevIndex, Contents(incoming))
    {
      hide Splice, Cuts, Agreeing, WellChained;
      conflict := false;
      ghost var before, all := Value(), Contents(incoming);
      NothingSpliced(before, prevIndex);
      for i := 0 to |incoming|
        invariant Valid()
        invariant prevIndex + i <= |entries|
        invariant Value() == Splice(before, prevIndex, all[..i])
        invariant conflict <==> Cuts(before, prevIndex, all[..i])
      {
        var pos := prevIndex + i;
        ghost var now := Value();
        SpliceTurn(before, prevIndex, all, i);
        var present := pos < |entries| && entries[pos].term == incoming[i].term;
        if !present {
          if pos < |entries| {
            TruncateFrom(pos + 1);
            conflict := true;
          }
          assert Value() == now[..pos];
          var _ := Append(incoming[i].term, incoming[i].cmd);
        }
      }
      assert all[..|incoming|] == all;
    }

    method SliceFrom(from: nat) returns (out: seq<Record>)
      ensures Contents(out) == Slice(Value(), from)
    {
      var start := if from == 0 then 1 else from;
      if start > |entries| {
        return [];
      }
      out := entries[start - 1..];
    }
  }
}
