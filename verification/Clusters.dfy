/** The whole cluster: replicas, everything they have put on the wire, and an
    adversary who may drop, delay, reorder, repeat and rewrite messages. */
module Clusters {
  import opened Types
  import opened Crypt
  import opened Transcripts
  import opened Logs
  import opened Rafts
  import opened Nodes

  // net holds every envelope ever emitted; a dropped one is simply never delivered.
  datatype Cluster = Cluster(nodes: map<NodeID, NodeState>, net: set<Envelope>)

  datatype Action =
    | TickAt(p: NodeID, draw: nat)
    | DeliverTo(env: Envelope, draw: nat)
    | ProposeAt(p: NodeID, cmd: string)

  function Emitted(s: NodeState): set<Envelope> {
    set e | e in s.wire.outbox
  }

  // p starts out new, with some first timeout.
  ghost predicate BeginsAt(cfg: Config, c: Cluster, p: NodeID) {
    p in c.nodes && p in cfg.ring && exists d: nat :: d < cfg.timeout && c.nodes[p] == NewNode(cfg, p, cfg.ring[p], d)
  }

  ghost predicate Init(cfg: Config, c: Cluster) {
    && c.nodes.Keys == ToSet(cfg.members) && c.net == {}
    && forall p {:trigger BeginsAt(cfg, c, p)} :: p in c.nodes ==> BeginsAt(cfg, c, p)
  }

  // Whatever an attacker without keys can build may arrive at its addressee.
  ghost predicate Enabled(cfg: Config, c: Cluster, a: Action) {
    match a
    case TickAt(p, d) => p in c.nodes && d < cfg.timeout
    case DeliverTo(env, d) => env.to in c.nodes && d < cfg.timeout && Forgeable(c.net, env)
    case ProposeAt(p, _) => p in c.nodes
  }

  ghost function Apply(cfg: Config, c: Cluster, a: Action): Cluster
    requires cfg.Valid() && Enabled(cfg, c, a)
  {
    match a
    case TickAt(p, d) => Install(c, p, Tick(cfg, c.nodes[p], d))
    case DeliverTo(env, d) => Install(c, env.to, Deliver(cfg, c.nodes[env.to], env, d))
    // What a proposal queues is discarded by the next call and never sent.
    case ProposeAt(p, cmd) => c.(nodes := c.nodes[p := Propose(cfg, c.nodes[p], cmd)])
  }

  function Install(c: Cluster, p: NodeID, s: NodeState): Cluster {
    Cluster(c.nodes[p := s], c.net + Emitted(s))
  }

  ghost predicate Next(cfg: Config, c: Cluster, a: Action, c': Cluster) {
    cfg.Valid() && Enabled(cfg, c, a) && c' == Apply(cfg, c, a)
  }

  // Step i of a run.
  ghost predicate Taken(cfg: Config, states: seq<Cluster>, acts: seq<Action>, i: nat) {
    i < |acts| && i + 1 < |states| && Next(cfg, states[i], acts[i], states[i + 1])
  }

  ghost predicate Run(cfg: Config, states: seq<Cluster>, acts: seq<Action>) {
    && cfg.Valid() && |states| == |acts| + 1 && Init(cfg, states[0])
    && forall i: nat :: i < |acts| ==> Taken(cfg, states, acts, i)
  }

  // ---------- Acknowledgements ----------

  // The acknowledged index is the last one the request vouched for.
  ghost predicate HonestStep(cfg: Config, c: Cluster, a: Action) {
    cfg.ack == WholeLog && a.DeliverTo? && a.env.to in c.nodes && TakesRequest(cfg, c.nodes[a.env.to], a.env) ==>
      var m, log := a.env.payload, c.nodes[a.env.to].raft.log;
      |log| <= m.prevIndex + |m.entries| || Cuts(log, m.prevIndex, m.entries)
  }

  ghost predicate HonestAt(cfg: Config, states: seq<Cluster>, acts: seq<Action>, i: nat) {
    i < |acts| && i < |states| ==> HonestStep(cfg, states[i], acts[i])
  }

  ghost predicate HonestRun(cfg: Config, states: seq<Cluster>, acts: seq<Action>) {
    Run(cfg, states, acts) && forall i: nat :: HonestAt(cfg, states, acts, i)
  }
}
