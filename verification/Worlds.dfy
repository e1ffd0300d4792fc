/** The cluster with what it has ever said and who has ever led, and the small
    moves every node step is made of. Timers, links and chains play no part. */
module Worlds {
  import opened Types
  import opened Logs
  import opened Rafts
  import opened Nodes

  datatype Packet = Packet(from: NodeID, to: NodeID, body: Payload)

  // A won election: the winner, who had voted for it, and its log at that moment.
  datatype Election = Election(leader: NodeID, voters: set<NodeID>, init: Log)

  // sent holds every packet ever sent; elect and llog record, for each term that
  // has had a leader, the election and the leader's log as it last stood.
  datatype World = World(nodes: map<NodeID, Raft>, sent: set<Packet>,
                         elect: map<nat, Election>, llog: map<nat, Log>)

  ghost predicate Granted(sent: set<Packet>, v: NodeID, c: NodeID, t: nat) {
    Packet(v, c, VoteResp(t, true, false)) in sent
  }

  // A node that is not standing for election can step down, or wait in the
  // pre-vote role, and lose its vote within a term.
  ghost predicate Loose(cfg: Config) {
    cfg.rule == AsWritten && cfg.mode != Baseline
  }

  // Every majority is the whole roster.
  predicate Few(cfg: Config) {
    |cfg.members| <= 2
  }

  // The voters of a term and any majority meet in enough members to meet every
  // majority: clusters of one, two and four.
  predicate Tight(cfg: Config) {
    3 * cfg.Quorum() > 2 * |cfg.members|
  }

  lemma TightIsExact(cfg: Config)
    requires cfg.members != []
    ensures Tight(cfg) <==> |cfg.members| <= 2 || |cfg.members| == 4
  {
  }

  // The configurations whose elections are safe.
  ghost predicate Sound(cfg: Config) {
    !Loose(cfg) || Few(cfg)
  }

  ghost predicate Standing(r: Raft) {
    r.role == Candidate || r.role == Leader
  }

  // c has asked for votes in term t.
  ghost predicate Balloted(sent: set<Packet>, c: NodeID, t: nat) {
    exists k :: k in sent && k.from == c && k.body.VoteReq? && !k.body.preVote && k.body.term == t
  }

  function Put(w: World, p: NodeID, r: Raft): World {
    w.(nodes := w.nodes[p := r])
  }

  // ---------- Moves ----------

  function StepDownAt(cfg: Config, w: World, p: NodeID, t: nat, leader: Option<NodeID>): World
    requires p in w.nodes
  {
    Put(w, p, StepDown(cfg.rule, w.nodes[p], t, leader))
  }

  function CampaignAt(w: World, p: NodeID): World
    requires p in w.nodes
  {
    Put(w, p, Rafts.Campaign(w.nodes[p], p))
  }

  function PreCampaignAt(w: World, p: NodeID): World
    requires p in w.nodes
  {
    Put(w, p, Rafts.PreCampaign(w.nodes[p], p))
  }

  function VoteAt(w: World, p: NodeID, c: NodeID): World
    requires p in w.nodes
  {
    Put(w, p, w.nodes[p].(votedFor := Some(c)))
  }

  function TallyAt(w: World, p: NodeID, v: NodeID): World
    requires p in w.nodes
  {
    Put(w, p, w.nodes[p].(votes := w.nodes[p].votes + {v}))
  }

  function ElectAt(cfg: Config, w: World, p: NodeID): World
    requires p in w.nodes
  {
    var r := w.nodes[p];
    Put(w, p, Rafts.Elected(r, p, cfg.members))
      .(elect := w.elect[r.term := Election(p, r.votes, r.log)], llog := w.llog[r.term := r.log])
  }

  function TakeAt(w: World, p: NodeID, m: Payload): World
    requires p in w.nodes && m.AppendReq? && m.prevIndex <= |w.nodes[p].log|
  {
    Put(w, p, TakeEntries(w.nodes[p], m.prevIndex, m.entries, m.leaderCommit))
  }

  function ProposeAt(w: World, p: NodeID, cmd: string): World
    requires p in w.nodes
  {
    var r := w.nodes[p];
    var log := r.log + [Entry(r.term, cmd)];
    Put(w, p, r.(log := log)).(llog := w.llog[r.term := log])
  }

  function SendAll(w: World, ps: set<Packet>): World {
    w.(sent := w.sent + ps)
  }

  // r differs from q only in bookkeeping that no safety argument reads.
  ghost predicate Bookkeeping(q: Raft, r: Raft) {
    r == q.(leaderID := r.leaderID, nextIndex := r.nextIndex, preVotes := r.preVotes)
  }

  // ---------- What a node may say ----------

  // A request is served from a log: a slice of it, or a probe past its end.
  ghost predicate Served(log: Log, m: Payload)
    requires m.AppendReq?
  {
    || (m.prevTerm == 0 && m.prevIndex > 0 && m.entries == [])
    || (&& m.prevIndex + |m.entries| <= |log|
        && m.entries == log[m.prevIndex..m.prevIndex + |m.entries|]
        && TermAt(log, m.prevIndex) == Some(m.prevTerm))
  }

  ghost predicate MaySay(cfg: Config, w: World, k: Packet) {
    && k.from in w.nodes && k.to in w.nodes && k.from != k.to
    && var r := w.nodes[k.from];
      match k.body
      case AppendReq(t, _, _, _, _, commit) =>
        r.role == Leader && t == r.term && commit == r.commitIndex && Served(r.log, k.body)
      case VoteReq(t, c, li, lt, pre) =>
        !pre ==> r.role == Candidate && t == r.term && c == k.from && li == |r.log| && lt == LastTerm(r.log)
      case VoteResp(t, granted, pre) =>
        granted && !pre ==>
          && t == r.term && r.votedFor == Some(k.to) && w.nodes[k.to].term >= t
          && Balloted(w.sent, k.to, t) && (cfg.rule == AsWritten ==> !Standing(r))
      case AppendResp(t, ok, _, conflict) =>
        ok ==> t == r.term && t in w.elect && w.elect[t].leader == k.to && conflict == 0
      case _ => true
  }
}
