/** One node's belief about directed reachability (internal/netmatrix/matrix.go). */
module NetMatrix {
  import opened Types

  type Rows = map<NodeID, map<NodeID, bool>>

  // The value of one View object. A missing edge reads as down.
  datatype Matrix = Matrix(owner: NodeID, members: seq<NodeID>, edges: Rows) {
    predicate Known(from: NodeID, to: NodeID) {
      from in edges && to in edges[from]
    }

    predicate CanSend(from: NodeID, to: NodeID) {
      from == to || (Known(from, to) && edges[from][to])
    }

    predicate Bidirectional(a: NodeID, b: NodeID) {
      CanSend(a, b) && CanSend(b, a)
    }

    function Quorum(): nat {
      |members| / 2 + 1
    }

    // The members with a working two-way link to id, itself included.
    function Peers(id: NodeID): set<NodeID> {
      set m | m in members && (m == id || Bidirectional(id, m))
    }

    predicate HasBidirectionalQuorum(id: NodeID) {
      |Peers(id)| >= Quorum()
    }

    // A member other than the endpoints that bridges a broken edge.
    predicate Bridges(from: NodeID, via: NodeID, to: NodeID) {
      via in members && via != from && via != to && CanSend(from, via) && CanSend(via, to)
    }

    // r is the answer the relay search owes: the target itself when the direct
    // edge is up, else the first bridging member, else nothing.
    ghost predicate IsRelay(from: NodeID, to: NodeID, r: Option<NodeID>) {
      if CanSend(from, to) then r == Some(to)
      else match r
        case None => forall v :: !Bridges(from, v, to)
        case Some(via) => Bridges(from, via, to) && forall v :: Bridges(from, v, to) ==> via <= v
    }

    function SetEdge(from: NodeID, to: NodeID, up: bool): Matrix {
      var row := if from in edges then edges[from] else map[];
      this.(edges := edges[from := row[to := up]])
    }

    function ObserveInbound(from: NodeID): Matrix {
      SetEdge(from, owner, true)
    }

    function ObserveSilence(from: NodeID): Matrix {
      SetEdge(from, owner, false)
    }
  }

  function FullMatrix(owner: NodeID, members: seq<NodeID>): Matrix {
    Matrix(owner, members, map a | a in members :: map b | b in members :: true)
  }

  // The relay the search returns, as a function: scan the members in order.
  function FirstBridge(m: Matrix, from: NodeID, to: NodeID, n: nat): Option<NodeID>
    requires n <= |m.members|
    decreases |m.members| - n
  {
    if n == |m.members| then None
    else if m.Bridges(from, m.members[n], to) then Some(m.members[n])
    else FirstBridge(m, from, to, n + 1)
  }

  function Relay(m: Matrix, from: NodeID, to: NodeID): Option<NodeID> {
    if m.CanSend(from, to) then Some(to) else FirstBridge(m, from, to, 0)
  }

  lemma FirstBridgeIsLeast(m: Matrix, from: NodeID, to: NodeID, n: nat)
    requires Ascending(m.members) && n <= |m.members|
    ensures match FirstBridge(m, from, to, n)
      case None => forall i :: n <= i < |m.members| ==> !m.Bridges(from, m.members[i], to)
      case Some(via) =>
        && m.Bridges(from, via, to)
        && forall i :: n <= i < |m.members| && m.Bridges(from, m.members[i], to) ==> via <= m.members[i]
    decreases |m.members| - n
  {
    if n < |m.members| {
      FirstBridgeIsLeast(m, from, to, n + 1);
    }
  }

  // The search returns the direct target, or the first working intermediary in
  // member order, or nothing when no path of at most two hops exists.
  lemma RelayIsExact(m: Matrix, from: NodeID, to: NodeID)
    requires Ascending(m.members)
    ensures m.IsRelay(from, to, Relay(m, from, to))
    ensures Relay(m, from, to).Some? <==>
      m.CanSend(from, to) || exists via :: via in m.members && m.CanSend(from, via) && m.CanSend(via, to)
  {
    FirstBridgeIsLeast(m, from, to, 0);
    if via :| via in m.members && m.CanSend(from, via) && m.CanSend(via, to) {
      assert m.CanSend(from, to) || m.Bridges(from, via, to);
    }
  }

  // Two nodes that each have a bidirectional quorum can always be connected.
  lemma QuorumImpliesRelay(m: Matrix, from: NodeID, to: NodeID)
    requires Ascending(m.members)
    requires m.HasBidirectionalQuorum(from) && m.HasBidirectionalQuorum(to)
    ensures Relay(m, from, to).Some? && Relay(m, to, from).Some?
  {
    AscendingCardinality(m.members);
    var via := MajoritiesMeet(m.Peers(from), m.Peers(to), ToSet(m.members));
    RelayIsExact(m, from, to);
    RelayIsExact(m, to, from);
  }

  // ---------- The object ----------

  class View {
    const owner: NodeID
    const members: seq<NodeID>
    var edges: Rows

    function Value(): Matrix
      reads this
    {
      Matrix(owner, members, edges)
    }

    constructor (owner: NodeID, members: seq<NodeID>)
      ensures this.owner == owner && this.members == members
      ensures Value() == FullMatrix(owner, members)
    {
      this.owner := owner;
      this.members := members;
      edges := map a | a in members :: map b | b in members :: true;
    }

    method SetEdge(from: NodeID, to: NodeID, up: bool)
      modifies this
      ensures Value() == old(Value()).SetEdge(from, to, up)
    {
      var row := if from in edges then edges[from] else map[];
      edges := edges[from := row[to := up]];
    }

    method ObserveInbound(from: NodeID)
      modifies this
      ensures Value() == old(Value()).ObserveInbound(from)
    {
      SetEdge(from, owner, true);
    }

    method ObserveSilence(from: NodeID)
      modifies this
      ensures Value() == old(Value()).ObserveSilence(from)
    {
      SetEdge(from, owner, false);
    }

    predicate CanSend(from: NodeID, to: NodeID)
      reads this
      ensures CanSend(from, to) <==> Value().CanSend(from, to)
    {
      from == to || (from in edges && to in edges[from] && edges[from][to])
    }

    method BidirectionalPeers(id: NodeID) returns (out: seq<NodeID>)
      requires Ascending(members)
      ensures Ascending(out) && ToSet(out) == Value().Peers(id)
    {
      out := [];
      for i := 0 to |members|
        invariant Ascending(out) && (i < |members| ==> forall x :: x in out ==> x < members[i])
        invariant forall x :: x in out <==> x in members[..i] && (x == id || Value().Bidirectional(id, x))
      {
        var m := members[i];
        assert members[..i + 1] == members[..i] + [m];
        if m == id || (CanSend(id, m) && CanSend(m, id)) {
          AscendingSnoc(out, m);
          out := out + [m];
        }
      }
      assert members[..|members|] == members;
    }

    method HasBidirectionalQuorum(id: NodeID) returns (ok: bool)
      requires Ascending(members)
      ensures ok <==> Value().HasBidirectionalQuorum(id)
    {
      var out := BidirectionalPeers(id);
      AscendingCardinality(out);
      ok := |out| >= |members| / 2 + 1;
    }

    method FindRelay(from: NodeID, to: NodeID) returns (r: Option<NodeID>)
      requires Ascending(members)
      ensures r == Relay(Value(), from, to)
    {
      if CanSend(from, to) {
        return Some(to);
      }
      for i := 0 to |members|
        invariant FirstBridge(Value(), from, to, 0) == FirstBridge(Value(), from, to, i)
      {
        var via := members[i];
        if via != from && via != to && CanSend(from, via) && CanSend(via, to) {
          return Some(via);
        }
      }
      r := None;
    }

    // Fold in a peer's first-hand inbound edges and nothing else it believes.
    method Merge(peer: View)
      requires peer != this
      modifies this
      ensures forall a, b :: Value().CanSend(a, b) <==>
        if a in members && b == peer.owner && peer.Value().Known(a, b)
        then peer.Value().CanSend(a, b)
        else old(Value()).CanSend(a, b)
    {
      ghost var before := Value();
      for i := 0 to |members|
        invariant forall a, b :: Value().CanSend(a, b) <==>
          if a in members[..i] && b == peer.owner && peer.Value().Known(a, b)
          then peer.Value().CanSend(a, b)
          else before.CanSend(a, b)
      {
        var from := members[i];
        assert members[..i + 1] == members[..i] + [from];
        if from in peer.edges && peer.owner in peer.edges[from] {
          SetEdge(from, peer.owner, peer.edges[from][peer.owner]);
        }
      }
      assert members[..|members|] == members;
    }
  }
}
