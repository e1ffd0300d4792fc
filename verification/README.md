# CrossFault: a verified model

CrossFault is a Raft implementation for networks that break in one direction. One
implementation runs in three modes: *baseline* (published Raft), *prevote* (pre-vote
and CheckQuorum) and *crossfault* (also a directed reachability matrix that keeps a
one-way node from campaigning). Every message is signed and hash-chained per peer, so
that tampering on the wire is meant to amount to dropping a message. A simulator runs a
cluster on a network whose links can be cut, one direction at a time, or made hostile.

This project models the replica, its log, its transcripts, its view of the network, the
cluster and the simulator, and proves what the design promises of them. `dafny verify
dfyconfig.toml` checks all of it.

## How the model is built

**Two layers.** The parts the source keeps as objects are classes with the same fields
(`LogStore`, `Transcript`, `View`, `Replica`, `Network`). Every method of theirs is proved
to take the object's value exactly where a function on values takes it, and the theorems
are about those functions. What those functions do to every message and on every tick is
itself stated in terms of the state before and after, without naming them (`Conduct`,
`Duties`), and so is what the simulator does with every message (`Routes`, `SimRuns`).

| layer | modules |
|---|---|
| names, payloads, envelopes, hashed bytes | `Types`, `Crypt`, `Encoding` |
| transcripts | `Transcripts`, `TranscriptLaw` |
| log | `Logs`, `Backups` |
| reachability | `NetMatrix`, `Evidence` |
| replica | `Rafts`, `Nodes` (values), `Replicas` (the object), `Conduct`, `Duties` (what it owes to every message and every tick) |
| cluster of replicas and an attacker on the wire | `Clusters`, `Traffic`, `Histories`, `Timing`, `Tampering` |
| consensus safety | `Worlds`, `ElectionSafety`, `LogMatching`, `Voters`, `Commitment`, `CommitMoves`, `Simulation`, `Safety`, `Requests`, `LogHistories` |
| runs that break safety, and exactly where none exist | `Stages`, `Crews`, `Witnesses`, `Overcommit`, `Divergence`, `Verdicts` |
| simulator | `Networks` (values), `Simulator` (the object), `NetworkLaws`, `EdgeOrder`, `Routes`, `SimRuns` |

**The cluster.** `Clusters.Run` is a list of steps of any number of replicas: a replica
ticks, a replica takes a client's command, or an envelope arrives. The wire keeps every
envelope ever emitted; dropping, delaying, reordering and repeating are choices of what
arrives when. An attacker without keys may also deliver any envelope whose signature it
copied or made up (`Crypt.Forgeable`). Election timeouts are any value in [T, 2T).

**The safety proof.** Commitment and election arguments read neither clocks, links nor
chains, so they are made about a smaller state (`Worlds.World`): the consensus part of
every node, what has been said, and, for each term, who was elected by whom and that
leader's log. Module `Simulation` shows that every step of a replica is a sequence of
moves of that smaller state, and module `Safety` draws the conclusions for runs of the
whole cluster.

**Cryptography.** A hash is the tuple of fields it covers and a signature is the pair of
key and hash (SHA-256 and Ed25519, RFC 8032, as ideal functions). Module `Encoding` adds
that the byte strings really hashed determine those fields.

**The simulator's history.** `Networks.Sim` carries a list of what became of each message
(`history`, a ghost field of class `Network`) so that conservation and order can be stated
about all messages of a run.

## Where the code does something other than Raft

- *The vote is cleared at an unchanged term.* `becomeFollower` clears `votedFor` whether or
  not the term rises. `Config.rule` selects that (`AsWritten`) or the rule that clears
  it only for a higher term (`KeepVote`). `Witnesses.ElectionSafetyIsExact` says, for every
  single configuration, that no term ever has two leaders if and only if votes are kept, or
  the mode is baseline, or there are at most two members; `Witnesses.SecondLeader` builds
  the run with two leaders for every other one. A comment in `internal/sim/network.go`
  (lines 330-332) calls two leaders in one term a safety violation. `Verdicts.LogMatchingIsExact`
  and `Verdicts.RepairIsExact` draw the same line for log matching and for the repair of
  followers; the order of terms in a log and the append-only leader need no such condition
  (module `LogHistories`). Class `Replica` follows the code.
- *A success reply acknowledges the follower's whole log*, not the part the request vouched
  for. `Config.ack` selects that (`WholeLog`) or the rule that acknowledges the previous index
  plus the entries sent (`Vouched`); `Logs.SpliceLength` says exactly when the two coincide.
  `Verdicts.CommitSafetyIsExact` says, for every single configuration, of any size and with
  any timers, that nothing committed is ever lost or contradicted if and only if there are at
  most two members, or elections are safe and either acknowledgements are vouched for or there
  are exactly four members. Four are safe because a voter of the leader's term never claims
  more than it has (module `Voters`), and of any three that acknowledge two voted for that
  leader, so every later majority has one of them. In every other number from three on
  whole-log acknowledgements lose commits: `Overcommit.CommitsCanBeLost` builds the run, for every mode,
  vote rule and timers. Where elections are unsafe `Divergence.LeadersDiverge` builds one for
  either acknowledgement rule. Runs whose acknowledgements happen to be honest
  (`Clusters.HonestRun`) keep what they commit wherever elections are safe.
- *What a proposal sends is thrown away.* `Propose` leaves its messages in the outbox,
  which the next `Tick` or `Deliver` empties. They are never delivered in the model either,
  but they use up sequence numbers, so they appear as gaps.

## Model

| member | source | states |
|---|---|---|
| Safety.ElectionsAreSafe | internal/consensus/handlers.go:217-279 | over every run, under any drops, delays, repeats and forgeries, no two nodes are ever leader in the same term, at the same time or not; with the code's vote clearing in baseline mode and in clusters of at most two, everywhere if votes are kept |
| Witnesses.ElectionSafetyIsExact | internal/consensus/node.go:375-381 | for each valid configuration, of any size and with any timers, every run has at most one leader per term if and only if votes are kept at an unchanged term, or the mode is baseline, or there are at most two members |
| Witnesses.SecondLeader | internal/consensus/handlers.go:115-117 | as written, in any cluster of three or more with pre-vote, straw-polling followers lose their vote to a heartbeat of its own term and give it again: a reachable state with two leaders in term 1 |
| Safety.LogsAlwaysMatch | internal/consensus/log.go:118-162 | where elections are safe, two logs, read anywhere and at any two moments of a run, that agree on the term at an index are identical up to it |
| Verdicts.LogMatchingIsExact | internal/consensus/log.go:140-162 | for each valid configuration, of any size and with any timers: in every run all logs match in that way if and only if votes are kept, or the mode is baseline, or there are at most two members |
| LogHistories.LogTermsAreOrdered | internal/consensus/log.go:104-162 | in every reachable state of every configuration, whether or not elections are safe, terms never fall along a log, start at 1 and never pass the node's own term |
| LogHistories.LeadersOnlyAppend | internal/consensus/handlers.go:109-144 | in every run of every configuration a leader's earlier log is a prefix of its later one in the same term |
| Requests.RequestsAreSlices | internal/consensus/handlers.go:85-107 | for every append request on the wire, however old, there is a moment no later at which its sender led the request's term with that commit index and the request was all of its log from the previous index on with the term found there, or, if the previous index lies past that log's end, had no entries and term 0 |
| LogHistories.RequestsStayInTheLog | internal/consensus/handlers.go:85-107 | from the sending on, whenever the sender leads the request's term, what the request quotes is in its log at that place; and where elections are safe nobody else ever leads that term |
| Safety.LeadersAreComplete | internal/consensus/handlers.go:169-192 | what any node has committed at any moment is in the log of every leader of a later term at any moment; where elections are safe and acknowledgements are vouched for, or there are one, two or four members, or the run's acknowledgements are honest |
| Safety.CommitsAgree | internal/consensus/handlers.go:133-136 | under the same conditions no two nodes ever have different entries at an index both have committed |
| Verdicts.CommitSafetyIsExact | internal/consensus/handlers.go:131-143 | for each valid configuration, of any size and with any timers: no run loses or contradicts anything committed if and only if either there are at most two members, or both (votes are kept or the mode is baseline) and (acknowledgements are vouched for or there are exactly four members) |
| Overcommit.CommitsCanBeLost | internal/consensus/handlers.go:141-143 | in any mode, with any timers and either vote rule, every cluster of three, of five or of more that acknowledges whole logs reaches a state in which a committed entry is missing from the log of the leader of a later term |
| Divergence.LeadersDiverge | internal/consensus/log.go:140-162 | where elections are unsafe, in any cluster of three or more, with any timers and under either acknowledgement rule, two leaders of one term commit different commands at the same index, because followers take the second command for the first and keep that |
| Rafts.CommitCandidateIsExact | internal/consensus/handlers.go:173-182 | the order statistic is at least n exactly when a majority of the roster is known to hold the log up to n |
| Rafts.AdvanceCommitIsExact | internal/consensus/handlers.go:169-192 | the commit index never moves back or onto an entry of an older term, only onto what a majority holds, and reaches every current-term index a majority holds |
| Rafts.SetForOthersIsExact | internal/consensus/node.go:364-370 | a new leader's indexes are set for every other member and no one else |
| Logs.SpliceInstalls | internal/consensus/log.go:134-162 | after a request's entries are taken they are there term for term, everything up to the previous index is untouched, and taking them again changes nothing |
| Logs.SpliceTurn | internal/consensus/log.go:141-160 | handling the entries one at a time, truncating at the first conflict, builds the splice turn by turn |
| Logs.SpliceLength | internal/consensus/log.go:140-162 | the new log ends at previous index plus entries sent if and only if the old one reached no further or an entry conflicted; only then does acknowledging the whole log claim no more than was sent |
| Logs.EqualHashesEqualPrefixes | internal/consensus/log.go:9-28 | equal hashes anywhere in two hash-chained logs mean the same position and the same history |
| Logs.EqualContentsEqualChains | internal/consensus/log.go:26-49 | equal commands and terms give equal hash chains: the hash is recomputed, never taken from the wire |
| Logs.LogStore.constructor | internal/consensus/log.go:58 | a new log is empty and well chained |
| Logs.LogStore.Append | internal/consensus/log.go:104-116 | the log grows by one entry at the end and stays a well-formed hash chain |
| Logs.LogStore.TruncateFrom | internal/consensus/log.go:127-132 | everything from the index on is dropped and the rest kept, an index outside the log changes nothing |
| Logs.LogStore.AppendFromLeader | internal/consensus/log.go:140-162 | the in-place loop equals the pure splice, reports a conflict exactly when it cut the tail, and keeps the chain well formed |
| Logs.LogStore.SliceFrom | internal/consensus/log.go:166-176 | the suffix from a 1-based index, with 0 read as 1 and nothing past the end |
| Backups.RejectionLowersNext | internal/consensus/handlers.go:121-166 | each rejection strictly lowers the leader's next index, which stays at least 1 and at most one past the follower's log |
| Backups.FewRejections | internal/consensus/handlers.go:121-166 | a leader and a follower that lose nothing reject at most min(next - 1, follower length + 1) times |
| Backups.AcceptanceRepairs | internal/consensus/handlers.go:109-144 | when the follower accepts, the leader's whole log is a prefix of the follower's, which has committed at least what the leader had of it |
| Backups.FollowersSoonAccept | internal/consensus/handlers.go:121-166 | the bound on rejections holds in every reachable state of every configuration, between any leader and any node of no higher term that does not lead the same term |
| Backups.LeadersRepairFollowers | internal/consensus/handlers.go:85-166 | where elections are safe, in every reachable state any leader's log ends up a prefix of that of any node of no higher term, and that node has then committed at least what the leader had of it |
| Verdicts.RepairIsExact | internal/consensus/handlers.go:85-166 | for each valid configuration, of any size and with any timers: in every reachable state every leader repairs whoever listens to it if and only if votes are kept, or the mode is baseline, or there are at most two members |
| Transcripts.Transcript.constructor | internal/crypt/chain.go:42-44 | both directions start at the genesis link with nothing received |
| Transcripts.Transcript.Next | internal/crypt/chain.go:49-55 | the envelope leaves numbered, linked and sealed, and the send side moves past it |
| Transcripts.Transcript.Accept | internal/crypt/chain.go:82-102 | the verdict, and the receive side after it: untouched unless accepted, gaps recorded and resynced |
| TranscriptLaw.NextExtendsStream | internal/crypt/chain.go:49-55 | stamping keeps a sender's stream numbered from 1, linked and sealed, for any envelope |
| TranscriptLaw.TranscriptsTellTheTruth | internal/crypt/chain.go:57-102 | for any schedule of one sender's messages with drops, repeats, reordering and forgeries: accepted numbers strictly increase, the gap counter is the number of non-consecutive accepted pairs, the last of which is remembered, accepted + gaps is at most the received number, and the received head is the sender's head as of that message |
| Crypt.OnlySentMessagesOpen | internal/crypt/envelope.go:138-152 | an envelope an attacker without keys can build opens if and only if it is a sent message, unchanged |
| Crypt.TamperedFailsToOpen | internal/crypt/envelope.go:154-162 | rewriting the payload of a sealed envelope breaks its signature exactly when the payload changes |
| Tampering.TamperingIsOmission | internal/consensus/handlers.go:12-48 | for every run under a rewriting attacker the run without exactly the forged deliveries reaches the same terms, votes, roles, logs, commit indexes, transcripts and views at every node, differing only in rejection counts and scratch outboxes, and itself rejects nothing as forged |
| Tampering.RewritesAreForgeries | internal/sim/network.go:270-283 | rewriting the payload of any message on the wire makes such a forged delivery |
| Encoding.MessageBytesDetermine | internal/crypt/envelope.go:89-112 | for fields that fit their widths, equal pre-images of the envelope digest mean equal fields |
| Encoding.RecordBytesDetermine | internal/consensus/log.go:30-49 | the same for the log entry's pre-image |
| Encoding.DomainsNeverCollide | internal/crypt/envelope.go:92-94 | no envelope pre-image is ever a log-entry pre-image |
| Encoding.LenPrefixedSplits | internal/crypt/envelope.go:122-129 | a length prefix lets no byte move between two adjacent strings |
| Encoding.WriteLenPrefixed | internal/crypt/envelope.go:124-129 | appends exactly the length-prefixed form of the bytes |
| Encoding.DigestInput | internal/crypt/envelope.go:89-112 | the fields written one by one are the pre-image the injectivity result is about |
| Encoding.EntryInput | internal/consensus/log.go:30-43 | the same for a log entry |
| NetMatrix.RelayIsExact | internal/netmatrix/matrix.go:166-188 | the relay search returns the direct target, or the first working intermediary in member order, and succeeds exactly when a path of at most two hops exists |
| NetMatrix.QuorumImpliesRelay | internal/netmatrix/matrix.go:155-188 | in a view of any size two nodes with a bidirectional quorum can each reach the other directly or through one relay |
| NetMatrix.View.constructor | internal/netmatrix/matrix.go:52-72 | a new view believes every edge is up |
| NetMatrix.View.SetEdge | internal/netmatrix/matrix.go:229-234 | one directed edge changes and no other |
| NetMatrix.View.ObserveInbound | internal/netmatrix/matrix.go:80-85 | hearing from a node marks its edge into the owner as up |
| NetMatrix.View.ObserveSilence | internal/netmatrix/matrix.go:87-92 | silence marks that edge as down |
| NetMatrix.View.Merge | internal/netmatrix/matrix.go:94-110 | exactly the peer's first-hand inbound edges are taken over, no opinion about edges between others |
| NetMatrix.View.BidirectionalPeers | internal/netmatrix/matrix.go:140-150 | the members, in order, with a working link both ways, the node itself included |
| NetMatrix.View.HasBidirectionalQuorum | internal/netmatrix/matrix.go:155-164 | true exactly when those members are a majority |
| NetMatrix.View.FindRelay | internal/netmatrix/matrix.go:173-188 | the scan in member order computes the relay the exactness result is about |
| Evidence.SilenceIsASlidingWindow | internal/consensus/node.go:268-305 | in every reachable crossfault state the edge from m into p is believed up exactly when p counts m as heard, and exactly when p accepted something from m within its last T ticks, or never has and at most T ticks have passed |
| Evidence.ColumnStays | internal/consensus/handlers.go:322-342 | no step but accepted gossip from p changes what others believe about links into p |
| Evidence.GossipIsFresh | internal/consensus/handlers.go:283-342 | in every reachable state a node's belief about links into p is what p's own record said when p sent the last gossip the node accepted, or the initial optimism if it has accepted none |
| Histories.AcceptedWasSent | internal/consensus/handlers.go:24-37 | whatever a node accepts was sent, unchanged and earlier, by the node it names |
| Histories.AcceptedInSendingOrder | internal/crypt/chain.go:82-102 | between any two nodes accepted numbers strictly increase and acceptance follows the order of sending, so the moments gossip speaks of only move forward |
| Histories.SentTells | internal/consensus/node.go:402-411 | everything a step emits is sealed, numbered past all sent before, and a probe tells whom its sender hears at that moment |
| Traffic.SweepIsExact | internal/consensus/node.go:278-305 | the sweep takes down exactly the silent members and leaves every other belief alone |
| Traffic.MergeIsExact | internal/consensus/handlers.go:322-342 | a peer's report settles the edges into that peer, both up and down, and no others |
| Timing.OneWayNodeArithmetic | internal/consensus/node.go:217-345 | a node that is not leader and accepts nothing for k ticks, e ticks into its timer, times out between floor((k+e)/(2T-1)) and floor((k+e)/T) times; its term rises by that number in baseline mode and by nothing in the others |
| Timing.OneWayNodeDeclines | internal/consensus/node.go:309-320 | once more than T deaf ticks have passed a crossfault node with peers never starts an election while it stays deaf |
| Timing.DeafLeaderStepsDown | internal/consensus/node.go:232-248 | outside baseline mode a leader with peers that accepts nothing for 2(2T-1) ticks is no longer leader |
| Timing.CheckQuorumIsExact | internal/consensus/node.go:238-248 | when the check is due a leader survives exactly if it and the peers it accepted something from since the list was last cleared make a quorum |
| Timing.HeardFromIsHistory | internal/consensus/node.go:385-397 | the list of peers heard is exactly those accepted from since it was last cleared, by winning or by a check |
| Conduct.OthersAreIgnored | internal/consensus/handlers.go:17-40 | a message that is forged, from a stranger, or not newer than the last taken from its sender changes nothing but the counter of its kind, and is not answered |
| Conduct.RequestsAreTakenUp | internal/consensus/handlers.go:109-144 | an accepted append request of an older term is refused; any other makes its sender the leader, restarts the timer, and is either taken (entries installed from the first missing one, the commit index followed as far as the log goes, the taking acknowledged) or answered with where to try again |
| Conduct.FollowersCommit | internal/consensus/handlers.go:133-139 | a node that takes a request has then committed at least what the leader had, as far as its own log goes, and exactly what it had if the leader had no more |
| Conduct.RepliesAreNoted | internal/consensus/handlers.go:146-192 | an accepted reply of a later term makes anyone a follower of nobody in it; one of the leader's term notes the sender's progress and moves the commit index to where a majority holds the log, if the entry there is of its term, or sets where to try next; others are ignored |
| Conduct.PollsAreAnswered | internal/consensus/handlers.go:217-230 | a straw poll changes nothing and the one answer is yes exactly if the term would be new, the candidate's log is no older, and no leader is known or the timer has run out |
| Conduct.VotesAreAnswered | internal/consensus/handlers.go:232-248 | asked for a vote, a node comes into a later term, and votes and restarts its timer exactly if the term is then its own, its vote is free or this candidate's, and the candidate's log is no older |
| Conduct.AnswersAreCounted | internal/consensus/handlers.go:256-279 | a granted poll or vote counts while that election is on; with a majority the node campaigns, asking every other member once, or leads, with every index reset and every other member asked once; a later term makes it a follower |
| Conduct.GossipIsAnswered | internal/consensus/handlers.go:302-342 | gossip settles exactly the links into its sender, and a probe is answered to its sender with whom this node hears |
| Conduct.MislabelledIsIgnored | internal/consensus/handlers.go:42-81 | a payload under another kind's label is heard and comes to nothing |
| Conduct.TermsNeverLag | internal/consensus/handlers.go:109-279 | after accepting anything but a straw poll or gossip a node's term is the larger of both; coming into a later one it follows, its vote free or just given, with log and commit index untouched unless by its new leader |
| Conduct.ProposalsAreAppended | internal/consensus/handlers.go:350-358 | a command ends a leader's log and every other member is asked once to take what it lacks; anyone else is unchanged |
| Duties.TicksAreDutiful | internal/consensus/node.go:225-345 | for every mode and role: when a leader beats, checks for a majority and is ousted, when others run, in which way, or decline, which links go down, and that exactly one heartbeat, ballot or probe goes to each other member when it is due and none otherwise |
| Duties.NobodyForgetsToProbe | internal/consensus/node.go:256-263 | in any crossfault run no member ticks as often as the probe interval says without telling every other member, at one of these ticks, whom it then hears |
| Duties.LeadersKeepBeating | internal/consensus/node.go:233-237 | in any run no node that leads throughout ticks as often as the heartbeat interval says without asking every other member, at one of these ticks, to take what it may lack |
| Duties.ReplicasStartFresh | internal/consensus/node.go:155-200 | a new replica follows nobody, has an empty log and a drawn timeout, takes every link to be up and is at the start of every transcript |
| Replicas.Replica.constructor | internal/consensus/node.go:155-200 | a new replica, with a fresh log, view and transcripts nobody shares |
| Replicas.Replica.ResetElectionTimer | internal/consensus/node.go:217-220 | the object goes where Nodes.ResetTimer says |
| Replicas.Replica.Send | internal/consensus/node.go:402-411 | where Nodes.Send says: only the addressee's transcript and the outbox move, a stranger is ignored |
| Replicas.Replica.BecomeFollower | internal/consensus/node.go:375-381 | where Nodes.BecomeFollower says under the AsWritten rule |
| Replicas.Replica.BecomeLeader | internal/consensus/node.go:359-373 | where Nodes.BecomeLeader says, first heartbeat included |
| Replicas.Replica.PromoteToCandidate | internal/consensus/node.go:348-357 | where Nodes.StartCampaign says |
| Replicas.Replica.BeginElection | internal/consensus/node.go:309-345 | where Nodes.BeginElection says, in all three modes |
| Replicas.Replica.HasHeardFromQuorum | internal/consensus/node.go:385-393 | whether it and the peers heard make a quorum |
| Replicas.Replica.ClearHeard | internal/consensus/node.go:395-397 | nobody counts as heard and nothing else changes |
| Replicas.Replica.DetectSilence | internal/consensus/node.go:285-305 | the loop over members equals the sweep Traffic.SweepIsExact characterises |
| Replicas.Replica.Tick | internal/consensus/node.go:225-266 | where Nodes.Tick says, and returns what was queued |
| Replicas.Replica.BroadcastAppend | internal/consensus/handlers.go:85-107 | where Nodes.BroadcastAppend says, default next indexes included |
| Replicas.Replica.BroadcastVoteReq | internal/consensus/handlers.go:196-215 | where Nodes.BroadcastVoteReq says, straw poll or campaign |
| Replicas.Replica.BroadcastProbe | internal/consensus/handlers.go:283-300 | where Nodes.BroadcastProbe says |
| Replicas.Replica.HandleAppendReq | internal/consensus/handlers.go:109-144 | where Nodes.HandleAppendReq says: refuse, report a conflict, or splice and acknowledge |
| Replicas.Replica.HandleAppendResp | internal/consensus/handlers.go:146-167 | where Nodes.HandleAppendResp says |
| Replicas.Replica.AdvanceCommit | internal/consensus/handlers.go:173-192 | the loop and sort equal the commit rule Rafts.AdvanceCommitIsExact characterises |
| Replicas.Replica.HandleVoteReq | internal/consensus/handlers.go:217-248 | where Nodes.HandleVoteReq says: a straw poll changes nothing, a vote may |
| Replicas.Replica.HandleVoteResp | internal/consensus/handlers.go:256-279 | where Nodes.HandleVoteResp says |
| Replicas.Replica.HandleProbeReq | internal/consensus/handlers.go:302-316 | where Nodes.HandleProbeReq says |
| Replicas.Replica.MergeInbound | internal/consensus/handlers.go:327-342 | the loop equals the merge Traffic.MergeIsExact characterises |
| Replicas.Replica.Deliver | internal/consensus/handlers.go:17-81 | where Nodes.Deliver says, through the transcript first, and returns what was queued |
| Replicas.Replica.Propose | internal/consensus/handlers.go:350-358 | accepted exactly by a leader, and then where Nodes.Propose says |
| Networks.SoleLeaderIsExact | internal/sim/network.go:330-343 | the search reports p exactly when p is leader and nobody else is |
| NetworkLaws.MessagesAreConserved | internal/sim/network.go:203-289 | in every reachable state messages offered equal dropped + delivered + in flight, and what was queued is what was handed over plus what is in flight, each once |
| EdgeOrder.EverythingArrivesWhenDue | internal/sim/network.go:203-223 | with all delays at least 1, everything handed over was handed over on its due tick and nothing in flight is late, with relays too |
| EdgeOrder.EdgesKeepOrder | internal/sim/network.go:206-223 | with relaying off, everything in flight on an edge is newer than all its receiver accepted and numbered in the order it is due, and no replica has ever counted a replay |
| EdgeOrder.HandedInSequence | internal/sim/network.go:203-242 | with relaying off each directed edge hands its messages over in sequence order for the whole life of the simulation, although replies interleave with retained messages |
| SimRuns.EveryMessageIsRouted | internal/sim/network.go:244-309 | in each step of every simulation every message the replicas say, in order: on an edge that is up it goes that way and arrives after that edge's delay, rewritten exactly if the edge is hostile; on one that is down it goes, unchanged, through the first third node its sender believes in if relaying is on and both hops are up; otherwise it is lost; nothing else is queued or lost, and the counters agree |
| SimRuns.CutLinksCarryNothing | internal/sim/network.go:160-172 | from when a directed edge is cut until it is healed nothing sets out on it |
| SimRuns.OpenLinksLoseNothing | internal/sim/network.go:244-267 | while a directed edge is up, whatever else is cut, no message for it is lost |
| Routes.EveryoneTicks | internal/sim/network.go:224-229 | a step of the simulator raises every replica's own tick by exactly one, and no other move does |
| Routes.CommandsReachTheLeader | internal/sim/network.go:345-352 | an offered command ends the log of the sole leader, under its term, and changes no other replica; without a sole leader it changes nothing |
| SimRuns.SimulationsAreRuns | internal/sim/network.go:201-289 | every state the simulator reaches, by steps, faults and proposals, is a state of a run of the cluster |
| SimRuns.SimulatorElectsOnePerTerm | internal/sim/network.go:330-343 | so in the simulator no term has two leaders wherever elections are safe |
| Simulator.Network.constructor | internal/sim/network.go:88-141 | one fresh replica for each member, none sharing an object, and an intact empty network |
| Simulator.Network.CutLink | internal/sim/network.go:160-166 | one directed edge breaks, its reverse does not |
| Simulator.Network.HealLink | internal/sim/network.go:168-172 | that edge works again |
| Simulator.Network.PartitionBoth | internal/sim/network.go:174-179 | both directions break |
| Simulator.Network.CorruptLink | internal/sim/network.go:181-186 | a hostile hop sits on one directed edge |
| Simulator.Network.CleanLink | internal/sim/network.go:188-191 | the hop is gone |
| Simulator.Network.FindRelay | internal/sim/network.go:291-309 | a relay from the sender's own view, used only if it works in fact |
| Simulator.Network.Enqueue | internal/sim/network.go:244-289 | where Networks.Enqueue says: dropped, relayed, tampered with or queued |
| Simulator.Network.Deliver | internal/sim/network.go:232-242 | where Networks.Hand says: the addressee moves, every other replica stays, replies are queued |
| Simulator.Network.Step | internal/sim/network.go:201-230 | where Networks.Step says, with the queue set aside before it is drained |
| Simulator.Network.Leader | internal/sim/network.go:330-343 | the scan computes the search Networks.SoleLeaderIsExact characterises |
| Simulator.Network.Propose | internal/sim/network.go:345-352 | a command reaches the sole leader or nothing changes, and the result says which |

## Left out

- LeadersAreComplete: the code's own acknowledgement rule is covered in clusters of one, two and four and in runs with honest acknowledgements, since in clusters of every other size it loses commits.
- CommitsAgree: the same conditions as LeadersAreComplete.
- LogsAlwaysMatch: stated where elections are safe, since LogMatchingIsExact shows that it fails everywhere else.
- LeadersRepairFollowers: stated where elections are safe, since RepairIsExact shows that it fails everywhere else.
- ElectionsAreSafe: in the two pre-vote modes with three members or more stated for the rule that keeps votes at an unchanged term, since the rule as written is unsafe there.
- TamperingIsOmission: an envelope arrives only at the node it names, as the simulator delivers it; a network that misroutes is not modelled, and Deliver does not compare the addressee with its own name.
- Ed25519, SHA-256, key generation, fingerprints and the keyring's API: ideal functions and a fixed map.
- The JSON form of payloads: a datatype with the same fields, and one constructor for bytes that decode to nothing. A payload under another kind's label, which no replica sends, is ignored, where the decoder would read missing fields as zero.
- An entry's index and hashes on the wire: receivers recompute both, so requests carry terms and commands only.
- Seal and Tamper as in-place updates of a shared envelope: envelopes are values, so aliasing between an outbox and the queue is not captured.
- 64-bit overflow of terms, indexes, sequence numbers and ticks: counters are natural numbers; the widths appear only in module Encoding.
- Several random draws within one step: one draw per step, since only the last timer reset of a step can be observed; randomness is a range, not a distribution, so nothing is said about a leader eventually emerging.
- The edge ages and the view's own Tick: nothing reads them.
- Asymmetries and both Snapshot functions, event logs, the network's text log, the Cloud label beyond its effect on delay, and the nodes' RelayedMessages and Committed display counters.
- ErrChainBreak and the accountability layer: on no code path.
- View.Merge: modelled on the class only; the replica merges through mergeInbound instead.
- Rosters with repeated or unsorted names, and configurations whose non-positive intervals the constructor replaces by defaults: the model starts from the values after that.
- SetLatency in mid-run: delays are fixed for a run.
- Which byte a hostile hop flips: what it writes is an arbitrary function of the payload and of how often it has struck.
- cmd, web and the WebAssembly bridge.
