/** One replica as a value: what Tick, Deliver and Propose do to it
    (internal/consensus/node.go, handlers.go). Class Replica in module Replicas
    performs the same steps in place. */
module Nodes {
  import opened Types
  import opened Crypt
  import opened Transcripts
  import opened Logs
  import opened Rafts
  import opened NetMatrix

  datatype Config = Config(mode: Mode, rule: Rule, ack: AckRule, members: seq<NodeID>, ring: Keyring,
                           timeout: nat, heartbeat: nat, probe: nat)
  {
    ghost predicate Valid() {
      && Ascending(members) && members != []
      && timeout >= 1 && heartbeat >= 1 && probe >= 1
      && forall m :: m in members ==> m in ring
    }

    // The two rules the code follows.
    predicate AsCoded() {
      rule == AsWritten && ack == WholeLog
    }

    function Quorum(): nat {
      |members| / 2 + 1
    }
  }

  datatype Clock = Clock(tick: nat, electionElapsed: nat, electionTimeout: nat,
                         heartbeatElapsed: nat, probeElapsed: nat)

  // First-hand evidence about links into this node, and the believed matrix.
  datatype Links = Links(heardFrom: set<NodeID>, inboundUp: set<NodeID>,
                         lastHeard: map<NodeID, nat>, view: Matrix)

  datatype Wire = Wire(sendTr: map<NodeID, Chain>, recvTr: map<NodeID, Chain>, outbox: seq<Envelope>)

  datatype Stats = Stats(termBumps: nat, electionsStarted: nat, declined: nat,
                         badSig: nat, replays: nat, chainGaps: nat)

  datatype NodeState = NodeState(id: NodeID, key: Key, raft: Raft, clock: Clock,
                                 links: Links, wire: Wire, stats: Stats)

  function NewNode(cfg: Config, id: NodeID, key: Key, draw: nat): NodeState {
    var others := set m | m in cfg.members && m != id;
    NodeState(id, key, FRESH_RAFT, Clock(0, 0, cfg.timeout + draw, 0, 0),
              Links({}, others, map[], FullMatrix(id, cfg.members)),
              Wire(map m | m in others :: FRESH_CHAIN, map m | m in others :: FRESH_CHAIN, []),
              Stats(0, 0, 0, 0, 0, 0))
  }

  // What the constructor sets up for good: a node's name, its key, and a chain
  // in each direction to every other member.
  ghost predicate WellWired(cfg: Config, p: NodeID, s: NodeState) {
    && s.id == p && p in cfg.members && p in cfg.ring && s.key == cfg.ring[p]
    && s.wire.sendTr.Keys == ToSet(cfg.members) - {p}
    && s.wire.recvTr.Keys == ToSet(cfg.members) - {p}
  }

  // ---------- Shared moves ----------

  // Every random draw d stands for a timeout of timeout + d ticks.
  function ResetTimer(cfg: Config, s: NodeState, draw: nat): NodeState {
    s.(clock := s.clock.(electionElapsed := 0, electionTimeout := cfg.timeout + draw))
  }

  // Seal a payload for one peer and queue it; a node has no chain to itself.
  function Send(s: NodeState, to: NodeID, p: Payload): NodeState {
    if to !in s.wire.sendTr then s
    else
      var tr := s.wire.sendTr[to];
      var env := Envelope(s.id, to, KindOf(p), s.raft.term, 0, Genesis, p, Noise([]));
      s.(wire := s.wire.(sendTr := s.wire.sendTr[to := Stamped(tr, env, s.id, s.key)],
                         outbox := s.wire.outbox + [Stamp(tr, env, s.id, s.key)]))
  }

  function BecomeFollower(cfg: Config, s: NodeState, term: nat, leader: Option<NodeID>, draw: nat): NodeState {
    ResetTimer(cfg, s.(raft := StepDown(cfg.rule, s.raft, term, leader)), draw)
  }

  function ClearHeard(s: NodeState): NodeState {
    s.(links := s.links.(heardFrom := {}))
  }

  predicate HasHeardFromQuorum(cfg: Config, s: NodeState) {
    1 + |s.links.heardFrom| >= cfg.Quorum()
  }

  predicate BelievesLeaderIsLive(s: NodeState) {
    s.raft.leaderID.Some? && s.clock.electionElapsed < s.clock.electionTimeout
  }

  // ---------- Broadcasts: the first n members in order, skipping this node ----------

  function SendAppend(s: NodeState, m: NodeID): NodeState {
    var p := AppendFor(s.raft, s.id, m);
    Send(s.(raft := RememberNext(s.raft, m)), m, p)
  }

  function BroadcastAppend(cfg: Config, s: NodeState, n: nat): NodeState
    requires n <= |cfg.members|
  {
    if n == 0 then s
    else
      var b := BroadcastAppend(cfg, s, n - 1);
      if cfg.members[n - 1] == s.id then b else SendAppend(b, cfg.members[n - 1])
  }

  // The same payload to everyone else.
  function BroadcastSame(cfg: Config, s: NodeState, p: Payload, n: nat): NodeState
    requires n <= |cfg.members|
  {
    if n == 0 then s
    else
      var b := BroadcastSame(cfg, s, p, n - 1);
      if cfg.members[n - 1] == s.id then b else Send(b, cfg.members[n - 1], p)
  }

  // A straw poll asks about the next term, a campaign about the current one.
  function Ballot(s: NodeState, pre: bool): Payload {
    VoteReq(if pre then s.raft.term + 1 else s.raft.term, s.id, |s.raft.log|, LastTerm(s.raft.log), pre)
  }

  function BroadcastVoteReq(cfg: Config, s: NodeState, pre: bool): NodeState {
    BroadcastSame(cfg, s, Ballot(s, pre), |cfg.members|)
  }

  function BroadcastProbe(cfg: Config, s: NodeState): NodeState {
    BroadcastSame(cfg, s, ProbeReq(s.raft.term, s.id, s.links.inboundUp), |cfg.members|)
  }

  // ---------- Elections ----------

  function StartCampaign(cfg: Config, s: NodeState, draw: nat): NodeState {
    var c := s.(raft := Rafts.Campaign(s.raft, s.id), stats := s.stats.(termBumps := s.stats.termBumps + 1));
    BroadcastVoteReq(cfg, ResetTimer(cfg, c, draw), false)
  }

  function BeginElection(cfg: Config, s: NodeState, draw: nat): NodeState {
    if cfg.mode == CrossFault && !s.links.view.HasBidirectionalQuorum(s.id) then
      ResetTimer(cfg, s.(stats := s.stats.(declined := s.stats.declined + 1)), draw)
    else
      var e := s.(stats := s.stats.(electionsStarted := s.stats.electionsStarted + 1));
      if cfg.mode == Baseline then StartCampaign(cfg, e, draw)
      else BroadcastVoteReq(cfg, ResetTimer(cfg, e.(raft := Rafts.PreCampaign(e.raft, e.id)), draw), true)
  }

  function BecomeLeader(cfg: Config, s: NodeState): NodeState {
    var l := ClearHeard(s.(raft := Rafts.Elected(s.raft, s.id, cfg.members),
                           clock := s.clock.(heartbeatElapsed := 0)));
    BroadcastAppend(cfg, l, |cfg.members|)
  }

  // ---------- Tick ----------

  function LeaderTick(cfg: Config, s: NodeState, draw: nat): NodeState {
    var beat := s.clock.heartbeatElapsed + 1;
    var b := if beat >= cfg.heartbeat
             then BroadcastAppend(cfg, s.(clock := s.clock.(heartbeatElapsed := 0)), |cfg.members|)
             else s.(clock := s.clock.(heartbeatElapsed := beat));
    if cfg.mode != Baseline && b.clock.electionElapsed >= b.clock.electionTimeout then
      var q := b.(clock := b.clock.(electionElapsed := 0));
      ClearHeard(if HasHeardFromQuorum(cfg, q) then q else BecomeFollower(cfg, q, q.raft.term, None, draw))
    else b
  }

  predicate Overdue(cfg: Config, lastHeard: map<NodeID, nat>, tick: nat, m: NodeID) {
    if m in lastHeard then tick - lastHeard[m] > cfg.timeout else tick > cfg.timeout
  }

  predicate Silent(cfg: Config, s: NodeState, m: NodeID) {
    Overdue(cfg, s.links.lastHeard, s.clock.tick, m)
  }

  function MarkDown(s: NodeState, m: NodeID): NodeState {
    s.(links := s.links.(inboundUp := s.links.inboundUp - {m}, view := s.links.view.ObserveSilence(m)))
  }

  function DetectSilence(cfg: Config, s: NodeState, n: nat): NodeState
    requires n <= |cfg.members|
  {
    if n == 0 then s
    else
      var d := DetectSilence(cfg, s, n - 1);
      var m := cfg.members[n - 1];
      if m != s.id && Silent(cfg, s, m) then MarkDown(d, m) else d
  }

  function Gossip(cfg: Config, s: NodeState): NodeState {
    var d := DetectSilence(cfg, s, |cfg.members|);
    var elapsed := d.clock.probeElapsed + 1;
    if elapsed >= cfg.probe
    then BroadcastProbe(cfg, d.(clock := d.clock.(probeElapsed := 0)))
    else d.(clock := d.clock.(probeElapsed := elapsed))
  }

  function RoleTick(cfg: Config, s: NodeState, draw: nat): NodeState {
    if s.raft.role == Leader then LeaderTick(cfg, s, draw)
    else if s.clock.electionElapsed >= s.clock.electionTimeout then BeginElection(cfg, s, draw)
    else s
  }

  // The clocks move on and the last step's outbox is dropped.
  function StartTick(s: NodeState): NodeState {
    s.(clock := s.clock.(tick := s.clock.tick + 1, electionElapsed := s.clock.electionElapsed + 1),
       wire := s.wire.(outbox := []))
  }

  function Tick(cfg: Config, s: NodeState, draw: nat): NodeState {
    var t := RoleTick(cfg, StartTick(s), draw);
    if cfg.mode == CrossFault then Gossip(cfg, t) else t
  }

  // ---------- Handlers ----------

  function Adopt(cfg: Config, s: NodeState, from: NodeID, term: nat, draw: nat): NodeState {
    var f := if term > s.raft.term || s.raft.role != Follower
             then BecomeFollower(cfg, s, term, Some(from), draw) else s;
    ResetTimer(cfg, f.(raft := f.raft.(leaderID := Some(from))), draw)
  }

  function HandleAppendReq(cfg: Config, s: NodeState, from: NodeID, m: Payload, draw: nat): NodeState
    requires m.AppendReq?
  {
    if m.term < s.raft.term then Send(s, from, AppendResp(s.raft.term, false, 0, 0))
    else
      var a := Adopt(cfg, s, from, m.term, draw);
      if !Matches(a.raft.log, m.prevIndex, m.prevTerm) then
        Send(a, from, AppendResp(a.raft.term, false, 0, ConflictIndex(a.raft.log, m.prevIndex)))
      else
        var t := a.(raft := TakeEntries(a.raft, m.prevIndex, m.entries, m.leaderCommit));
        Send(t, from, AppendResp(t.raft.term, true, AckIndex(cfg.ack, t.raft.log, m.prevIndex, m.entries), 0))
  }

  function HandleAppendResp(cfg: Config, s: NodeState, from: NodeID, m: Payload, draw: nat): NodeState
    requires m.AppendResp? && cfg.Valid()
  {
    if m.term > s.raft.term then BecomeFollower(cfg, s, m.term, None, draw)
    else if s.raft.role != Leader || m.term < s.raft.term then s
    else if m.success then
      s.(raft := Rafts.AdvanceCommit(NoteMatch(s.raft, from, m.matchIndex), s.id, cfg.members))
    else s.(raft := BackUp(s.raft, from, m.conflictIndex))
  }

  predicate GrantsPreVote(s: NodeState, m: Payload)
    requires m.VoteReq?
  {
    m.term > s.raft.term && UpToDate(s.raft.log, m.lastTerm, m.lastIndex) && !BelievesLeaderIsLive(s)
  }

  predicate GrantsVote(r: Raft, m: Payload)
    requires m.VoteReq?
  {
    && m.term == r.term
    && (r.votedFor == None || r.votedFor == Some(m.candidate))
    && UpToDate(r.log, m.lastTerm, m.lastIndex)
  }

  function HandleVoteReq(cfg: Config, s: NodeState, from: NodeID, m: Payload, draw: nat): NodeState
    requires m.VoteReq?
  {
    if m.preVote then Send(s, from, VoteResp(s.raft.term, GrantsPreVote(s, m), true))
    else
      var f := if m.term > s.raft.term then BecomeFollower(cfg, s, m.term, None, draw) else s;
      if GrantsVote(f.raft, m) then
        var g := ResetTimer(cfg, f.(raft := f.raft.(votedFor := Some(m.candidate))), draw);
        Send(g, from, VoteResp(g.raft.term, true, false))
      else Send(f, from, VoteResp(f.raft.term, false, false))
  }

  function HandleVoteResp(cfg: Config, s: NodeState, from: NodeID, m: Payload, draw: nat): NodeState
    requires m.VoteResp?
  {
    if m.preVote then
      if s.raft.role != PreCandidate || !m.granted then s
      else
        var p := s.(raft := s.raft.(preVotes := s.raft.preVotes + {from}));
        if |p.raft.preVotes| >= cfg.Quorum() then StartCampaign(cfg, p, draw) else p
    else if m.term > s.raft.term then BecomeFollower(cfg, s, m.term, None, draw)
    else if s.raft.role != Candidate || m.term != s.raft.term || !m.granted then s
    else
      var v := s.(raft := s.raft.(votes := s.raft.votes + {from}));
      if |v.raft.votes| >= cfg.Quorum() then BecomeLeader(cfg, v) else v
  }

  // peer says whom it hears; that settles the edges into peer and no others.
  function MergeInbound(members: seq<NodeID>, v: Matrix, peer: NodeID, up: set<NodeID>, n: nat): Matrix
    requires n <= |members|
  {
    if n == 0 then v
    else
      var b := MergeInbound(members, v, peer, up, n - 1);
      var m := members[n - 1];
      if m == peer then b else b.SetEdge(m, peer, m in up)
  }

  function Merge(cfg: Config, s: NodeState, peer: NodeID, up: set<NodeID>): NodeState {
    s.(links := s.links.(view := MergeInbound(cfg.members, s.links.view, peer, up, |cfg.members|)))
  }

  function HandleProbeReq(cfg: Config, s: NodeState, from: NodeID, m: Payload): NodeState
    requires m.ProbeReq?
  {
    var g := Merge(cfg, s, from, m.inboundUp);
    Send(g, from, ProbeResp(g.raft.term, g.id, g.links.inboundUp))
  }

  // A payload that does not decode as its message type is ignored.
  function Dispatch(cfg: Config, s: NodeState, from: NodeID, kind: Kind, m: Payload, draw: nat): NodeState
    requires cfg.Valid()
  {
    match kind
    case KindAppendEntries => if m.AppendReq? then HandleAppendReq(cfg, s, from, m, draw) else s
    case KindAppendResp => if m.AppendResp? then HandleAppendResp(cfg, s, from, m, draw) else s
    case KindRequestVote => if m.VoteReq? then HandleVoteReq(cfg, s, from, m, draw) else s
    case KindPreVote => if m.VoteReq? then HandleVoteReq(cfg, s, from, m, draw) else s
    case KindVoteResp => if m.VoteResp? then HandleVoteResp(cfg, s, from, m, draw) else s
    case KindPreVoteResp => if m.VoteResp? then HandleVoteResp(cfg, s, from, m, draw) else s
    case KindProbe => if m.ProbeReq? then HandleProbeReq(cfg, s, from, m) else s
    case KindProbeResp => if m.ProbeResp? then Merge(cfg, s, from, m.inboundUp) else s
  }

  // ---------- Deliver and Propose ----------

  // Only a verified message is evidence of anything.
  function Heard(s: NodeState, env: Envelope, ring: Keyring): NodeState
    requires env.from in s.wire.recvTr
  {
    var from := env.from;
    var tr := Received(s.wire.recvTr[from], env, ring);
    s.(links := s.links.(heardFrom := s.links.heardFrom + {from},
                         inboundUp := s.links.inboundUp + {from},
                         lastHeard := s.links.lastHeard[from := s.clock.tick],
                         view := s.links.view.ObserveInbound(from)),
       wire := s.wire.(recvTr := s.wire.recvTr[from := tr]),
       stats := s.stats.(chainGaps := Max(s.stats.chainGaps, tr.gaps)))
  }

  predicate Accepts(cfg: Config, s: NodeState, env: Envelope) {
    env.from in s.wire.recvTr && Judge(s.wire.recvTr[env.from], env, cfg.ring) == Accepted
  }

  // The node takes the request's entries and acknowledges them.
  predicate TakesRequest(cfg: Config, s: NodeState, env: Envelope) {
    && Accepts(cfg, s, env) && env.kind == KindAppendEntries && env.payload.AppendReq?
    && env.payload.term >= s.raft.term
    && Matches(s.raft.log, env.payload.prevIndex, env.payload.prevTerm)
  }

  function Deliver(cfg: Config, s: NodeState, env: Envelope, draw: nat): NodeState
    requires cfg.Valid()
  {
    var d := s.(wire := s.wire.(outbox := []));
    if env.from !in s.wire.recvTr then d
    else
      match Judge(s.wire.recvTr[env.from], env, cfg.ring)
      case Rejected(_) => d.(stats := d.stats.(badSig := d.stats.badSig + 1))
      case Replayed => d.(stats := d.stats.(replays := d.stats.replays + 1))
      case Accepted => Dispatch(cfg, Heard(d, env, cfg.ring), env.from, env.kind, env.payload, draw)
  }

  // A leader appends and broadcasts; anyone else refuses and is unchanged.
  function Propose(cfg: Config, s: NodeState, cmd: string): NodeState {
    if s.raft.role != Leader then s
    else BroadcastAppend(cfg, s.(raft := s.raft.(log := s.raft.log + [Entry(s.raft.term, cmd)])), |cfg.members|)
  }
}
