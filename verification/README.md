# Verification of the Lachesis poset and gossip core

This project models the consensus engine of go-lachesis (`src/poset`), the gossip
and pool logic above it (`src/node/core.go`) and the bounded stores below it, and
proves what they promise.

A node keeps a graph of signed events. Each event names a self-parent and, usually,
an other-parent. The node gives every event a Lamport timestamp and a round, lets the
witnesses of later rounds vote on which witnesses are famous, receives each event in
the first decided round whose famous witnesses all see it, sorts the events received
in a round into a frame, and turns frames into blocks. A node can also restart from
a frame. Nodes exchange events by comparing, for each participant, the index of the
last event they know.

## How it is laid out

- `Dags`, `Quorum`, `Rounds`, `Fame`, `Sorting`: the graph and the pure notions on it.
  Ancestry is reachability along parent links, a round and a vote are recursive
  functions of the graph. These are the reference definitions everything else is
  proved against.
- `Consensus`, `ConsensusInsert`, `ConsensusDivide`, `ConsensusDecide`,
  `ConsensusCommit`, `ConsensusPasses`, `ConsensusRuns`, `CommitOrder`, `LateWitnesses`,
  `ConsensusRoots`, `Agreement`, `Causality`:
  the state of one node as a value, what each pass does to it, the invariant `Sound`
  that every pass keeps, and the theorems about whole runs and about two nodes.
- `Caches`, `Queries`, `PosetFacts`, `Poset`: the `Poset` object itself, with its
  queues, tables and memo caches. Its methods loop, recurse, look things up and
  update fields as the Go methods do; each is proved to compute the reference
  definition or to take the step of the state machine.
- `Frames`, `FrameBuild`, `FrameReset`: the roots a frame carries, and restarting from it.
- `Gossip`, `Network`, `Wire`, `Syncing`, `CoreFacts`, `Core`: one exchange of events,
  a network of nodes as a step system, the wire form of events, and the `Core` object.
- `Replicas`: the same network with the whole consensus state in every node.
- `RollingIndex`, `Store`: the bounded window and the two-level store.
- `Examples`, `LateExample`: concrete inputs on which a plausible claim fails; the exact condition is proved beside each.

## Conventions

- Hashing is abstract. A hash is empty, a participant's root, or a digest. An event's
  digest names its body (`CoreFacts.NamesBodies`): signature, flag table and witness proof
  are not hashed (`src/poset/event.go:108-114`, `271-280`), so that two nodes hold the same
  ones for a shared event is part of the hypothesis `Agree`. A frame's hash covers the frame
  and the topological index of each of its events (`src/poset/frame.go:22-28`,
  `src/poset/event.proto:30-46`), which is the node's own. Signing and verification are a
  flag on the signature; the number `r` of a signature is what frames break ties with.
- A public key and a numeric ID are the same participant, and marshalling is the identity.
- `Based(d)` says that a graph has grown from the base roots, `WellFormed(d)` that it
  has grown from any roots. Rounds, fame and the queues are modelled from base roots;
  timestamps, frames and restarts from any.
- `Fresh(d, h, e)` is what honest creators and hashing guarantee of an incoming event:
  its hash is new and its index is the one after its self-parent's. The insertion checks
  (`src/poset/poset.go:617-663`) do not look at the index, but the store does when it files
  the event (`src/poset/inmem_store.go:113-133`): it refuses a jump ahead and an index that
  has rolled out of the cached end of the log. A first event may have any index, and one
  with the index of a cached event takes its place; `Dags.InsertKeepsIff` says what follows.
- Flag tables and witness proofs are fields of the event and do not change. A flag
  table is the set of its keys.
- `OneWitnessPerCreator`, `ProofsDistinct`, `StrongQuorums`, `Quiet` and `KeysTellApart`
  are hypotheses the code does not enforce; every theorem that needs one says so.
  `OneWitnessIff` gives the exact condition for the first.
  `StrongQuorums` is needed because rounds advance on `see` while votes are collected
  through `stronglySee`. `Quiet` is the claim in the comment at
  `src/poset/poset.go:934-938`. Nothing enforces it: `LateExample.RunsIntoLateWitness` is a
  run in which it fails, `LateWitnesses.LateWitnessBlocks` says what follows, and
  `Causality.RunCausalIff` and `Causality.RunsAgreeIff` are the exact conditions for the
  commit order without it. The comment at `src/poset/event.go:405` calls the frame order
  total; it is when `KeysTellApart` holds.
- LRU caches may lose any entry at any time (`Caches.Evict`).

## Model

| member | source | states |
|---|---|---|
| Dags.InsertKeeps | src/poset/poset.go:845-897 | an accepted event with the next index leaves every event in its creator's log right after its self-parent, its parents older than it, and everything stored before untouched |
| Dags.InsertKeepsIff | src/poset/poset.go:845-897 | of the new events that are accepted, exactly those that carry the next index leave the store well formed |
| Dags.OtherIndexReplaces | src/common/rolling_index.go:60-92 | an accepted event with another index, once the log has got to index 0, takes the place of the event that has it |
| RollingIndices.LoggedAsSet | src/poset/inmem_store.go:113-133 | an insertion files an event in its creator's log exactly as the bounded window does, jump, roll-out and overwriting included, or fails with the same error |
| Examples.FirstAtFive | src/common/rolling_index.go:68-76 | a participant's first event with index 5 is accepted, and the store is no longer well formed |
| Examples.TakesThePlace | src/common/rolling_index.go:78-92 | an event that stands on the last one and repeats its index is accepted and replaces it in the log |
| Examples.JumpRefused | src/common/rolling_index.go:62-66 | an event that skips indexes is refused |
| Dags.ForkRefused | src/poset/poset.go:617-641 | a second event on the self-parent of a stored event is refused, and so is the stored event when it comes again |
| Dags.NoFork | src/poset/poset.go:617-641 | no two stored events of one participant share an index |
| Dags.ReachRank | src/poset/poset.go:874-875 | parent links go strictly back in topological order: there are no cycles |
| Dags.SameCreatorIff | src/poset/poset.go:162-181 | for two hashes of one participant, ancestry is exactly comparison of indexes |
| Dags.ReachLamport | src/poset/poset.go:531-585 | an ancestor has a strictly smaller timestamp |
| Dags.LamportAgree | src/poset/poset.go:519-585 | two graphs that share an event give it the same timestamp, whatever else they hold |
| Dags.ReachAgree | src/poset/poset.go:121-192 | two graphs that share an event give it the same ancestors |
| Quorum.QuorumsOverlap | src/poset/poset.go:65-66 | for every n, two sets of 2n/3+1 out of n share at least ceil(n/3) members, and in either the shared part outnumbers the rest |
| Quorum.QuorumOutvotes | src/poset/poset.go:65-66 | a quorum for one value leaves every other quorum a majority for that value |
| Rounds.RoundStep | src/poset/poset.go:342-485 | a round is the larger of the parents' rounds, or one more, and never negative |
| Rounds.RoundMonotone | src/poset/poset.go:342-485 | rounds never fall along parent links |
| Rounds.OwnWitness | src/poset/poset.go:489-507 | every event has among its self-ancestors or itself its creator's witness for its round |
| Rounds.NoGaps | src/poset/poset.go:342-507 | below every event there is a witness of every round from 0 to its own |
| CommitOrder.RunRounds | src/poset/poset.go:903-1018 | in every reachable state the round table has a row for each round from 0 to LastRound and for no other, and each row has at least one witness and lists exactly the witnesses of its round among the events that have a round |
| Rounds.OneWitnessIff | src/poset/poset.go:489-507 | no creator has two witnesses in a round if and only if no event without an other-parent repeats the round of its self-parent |
| Rounds.NamedParentsSuffice | src/poset/poset.go:489-507 | it is enough that only events on a root lack an other-parent |
| Examples.TwoWitnesses | src/poset/poset.go:489-507 | a graph of two events in which one participant has two witnesses of round 0 |
| Rounds.RoundQuorum | src/poset/poset.go:379-485 | every event of round r+1 has at least superMajority distinct witnesses of round r among its ancestors |
| Rounds.RoundOverlap | src/poset/poset.go:65-66 | any two events of round r+1 have at least trustCount of those witnesses in common |
| Rounds.RoundAgree | src/poset/poset.go:330-507 | the round and witness flag of an event are the same in any two graphs that share it |
| Fame.StronglySeesInherited | src/poset/poset.go:258-328 | whatever an event strongly sees, every descendant strongly sees |
| Fame.StronglySeesReaches | src/poset/poset.go:258-328 | what is strongly seen is an ancestor |
| Fame.VerdictDeterminism | src/poset/poset.go:1041-1102 | two witnesses of one round that both reach superMajority about a witness reach it for the same value |
| Fame.SameRoundAgree | src/poset/poset.go:1041-1102 | two witnesses of one round never decide differently |
| Fame.Unseen | src/poset/poset.go:1041-1102 | a witness two rounds up that does not see x and strongly sees superMajority voters decides that x is not famous |
| Fame.UnanimityLasts | src/poset/poset.go:1041-1102 | a round that votes alike is followed by rounds that vote alike, coin rounds included |
| Fame.FameIsFinal | src/poset/poset.go:1021-1117 | once a witness decides v, every witness of that and all later rounds votes v and none decides otherwise |
| Fame.FameAgreement | src/poset/poset.go:1021-1117 | two nodes that hold different ancestor-closed parts of one graph never decide a witness differently |
| Sorting.StableSortSorted | src/poset/event.go:403-420 | the sorted list is in key order |
| Sorting.StableSort | src/poset/event.go:403-420 | the sorted list is a permutation |
| Sorting.StableSortStable | src/poset/poset.go:1313-1321 | events with equal keys keep the order they were given in |
| Sorting.SortedUnique | src/poset/event.go:403-420 | when keys differ there is one sorted order, whatever order a map was enumerated in |
| ConsensusInsert.InsertSound | src/poset/poset.go:845-897 | an insertion keeps the whole node state sound |
| ConsensusDivide.DivideSound | src/poset/poset.go:903-1018 | giving the oldest event without a round its round keeps the state sound; a new round is queued once |
| ConsensusDecide.FameSound | src/poset/poset.go:1021-1117 | settling fame keeps the state sound |
| ConsensusDecide.FirstVerdictUnique | src/poset/poset.go:1041-1102 | the verdict of the first round that decides does not depend on which of its witnesses is taken first |
| ConsensusDecide.FameDetermined | src/poset/poset.go:1021-1117 | so what DecideFame does is determined, although witnesses are enumerated from maps |
| ConsensusDecide.ReceivedOnce | src/poset/poset.go:1121-1206 | an event can be received in one round only |
| ConsensusDecide.ReceiveKeepsFame | src/poset/roundInfo.go:33-40 | marking a consensus event moves no witness and no fame |
| ConsensusDecide.ReceiveSound | src/poset/poset.go:1121-1206 | receiving an event keeps the state sound |
| ConsensusCommit.CommitSound | src/poset/poset.go:1211-1295 | committing the round at the head of the queue keeps the state sound |
| ConsensusPasses.UndeterminedExactly | src/poset/poset.go:1130-1203 | the undetermined events are exactly those not received, oldest first |
| ConsensusPasses.PassesSound | src/node/core.go:480-528 | a whole RunConsensus keeps the state sound, and after its first pass every event has a round |
| CommitOrder.RunSound | src/node/core.go:480-528 | every state of every run of insertions and consensus passes is sound |
| CommitOrder.AncestorReceived | src/poset/poset.go:1121-1206 | an ancestor of an event received in a committed round is received no later |
| CommitOrder.RunCausal | src/poset/poset.go:1121-1321 | over every run whose decided rounds gain no witness, the commit order is a linear extension of the graph |
| LateWitnesses.LateWitnessBlocks | src/poset/poset.go:1121-1206 | over every run: once a committed round has an undecided witness it has one for ever, since the round has left the queue, and no event of an earlier round that was not received by then is ever committed |
| LateExample.RunsIntoLateWitness | src/poset/poset.go:903-1206 | a run of four participants, fifteen insertions and two consensus passes, after which committed round 1 has an undecided witness and the slow participant's first event is held back |
| Causality.RunStanding | src/poset/poset.go:1121-1295 | in every state of every run, however late witnesses come: every reception is the one that the whole graph determines, the famous witnesses of committed rounds are final, and what is received at or below the last committed round is in its frame |
| Causality.RunCausalIff | src/poset/poset.go:1121-1321 | in every state of every run the commit order is a linear extension of the graph if and only if no ancestor of a committed event is held back by a committed round with an undecided witness |
| CommitOrder.CommittedOnce | src/poset/poset.go:1253-1280 | no event is committed twice |
| CommitOrder.EventConservation | src/poset/poset.go:1130-1203 | every event is undetermined or a consensus event of exactly one round, never both |
| CommitOrder.RunAppends | src/poset/poset.go:1211-1295 | over every run, consensus events and blocks only grow at the end and stored frames never change |
| CommitOrder.RunPipeline | src/poset/poset.go:1211-1295 | in every reachable state the queue is exactly the rounds after the last committed one, each committed round has one frame, blocks are numbered from 0 with strictly increasing rounds, the block transactions end to end are those of the consensus events, and both counters are right |
| ConsensusRoots.RunRooted | src/poset/poset.go:1298-1409 | in every reachable state each stored frame has the roots that follow from its events and from the last event of each participant committed before it |
| Agreement.SameVerdict | src/poset/poset.go:1021-1117 | two nodes that hold different parts of one graph never store opposite fame for a witness |
| Agreement.LateIsNotFamous | src/poset/poset.go:1021-1117 | a witness that a node did not have when it decided the round is stored as not famous by every node that settles it |
| Agreement.SameFamous | src/poset/poset.go:1138-1175 | so two nodes that have decided a round have the same famous witnesses in it |
| Agreement.SameReception | src/poset/poset.go:1121-1206 | two nodes that hold parts of one graph and have both committed a round receive the same events in it, although either may hold witnesses of that round the other never saw |
| Agreement.FrameAgreement | src/poset/poset.go:1298-1321 | so they list the same events in the same order in the frame of that round |
| Agreement.SameFrame | src/poset/poset.go:1298-1409 | and build the same frame, roots included |
| Agreement.CommitAgreement | src/poset/poset.go:1211-1295 | of two nodes, the one that is behind has committed a prefix of the other's consensus events, holds equal frames, and its blocks are the other's first ones up to the topological indexes in the frame hash |
| Agreement.SameHashIff | src/poset/frame.go:22-28 | two nodes hash one frame alike if and only if they took its events in at the same topological indexes |
| Agreement.BlocksEqualIff | src/poset/block.go:67-90 | so the blocks of two nodes are equal, frame hash included, if and only if they took the events of its frame in at the same indexes |
| Examples.SameFrameOtherHash | src/poset/frame.go:22-28 | two nodes with the same two events, taken in in different orders, hash one frame differently |
| Agreement.RunsAgreeOnFame | src/poset/poset.go:1021-1117 | whatever two nodes have done, in no two states of their runs do they store opposite fame for a witness |
| Agreement.RunsAgree | src/node/core.go:480-528 | in any two states of two runs whose decided rounds gain no witness, one node has committed a prefix of what the other has, in equal frames and like blocks |
| Causality.FrameShared | src/poset/poset.go:1298-1321 | what one node has in the frame of a round, so has every other that has committed the round, unless it is held back there |
| Causality.RunsAgreeIff | src/node/core.go:480-528 | of two nodes in any states of any runs, the one that is behind has committed a prefix of what the other has, in equal frames and like blocks, if and only if neither holds back an event of the frames both have built |
| Caches.AncestorsStayIff | src/poset/poset.go:121-135 | the remembered ancestry answers survive an insertion if and only if no ancestor of the new event was denied to it while it was still unknown |
| Caches.StaleAnswer | src/poset/poset.go:121-135 | an event asked about before it arrives leaves a wrong answer in the cache |
| Examples.DeniedTooEarly | src/poset/poset.go:121-135 | a graph of one event whose ancestry cache is wrong after its insertion |
| Examples.AskTooEarly | src/poset/poset.go:121-135 | a poset that is asked about that event first denies its root, and is wrong afterwards if the cache keeps the denial |
| Examples.StronglyDeniedTooEarly | src/poset/poset.go:258-285 | with one participant, an event whose strong view of its root was denied before it came leaves that cache wrong |
| Caches.AskedStays | src/poset/poset.go:121-135 | as long as only known hashes are asked about, no insertion comes too late |
| Caches.StronglyStayIff | src/poset/poset.go:258-285 | the remembered strongly-see answers survive an insertion if and only if the new event was not asked, while unknown, about an event to which its creator and the sentinels of its parents now make up superMajority |
| Caches.StronglyStay | src/poset/poset.go:258-274 | they survive the insertion of an event not asked about |
| Caches.RoundsStay | src/poset/poset.go:330-340 | the remembered rounds survive every insertion |
| Caches.TimestampsStay | src/poset/poset.go:519-529 | the remembered timestamps survive every insertion |
| Posets.Poset.constructor | src/poset/poset.go:57-110 | a new poset is sound, with empty caches and queues |
| Posets.Poset.LamportTimestamp | src/poset/poset.go:519-529 | returns the timestamp the graph determines for every known hash, from base roots and after a restart, through a cache that may lose entries and learns only what the graph says; an unknown hash is an error if and only if the cache does not remember it |
| Examples.StillAnswered | src/poset/poset.go:519-529 | after a restart that drops an event, its timestamp is still given as long as the cache keeps it |
| Posets.Poset.LamportTimestamp2 | src/poset/poset.go:531-585 | the recursive part returns the timestamp the graph determines, from base roots and from frame roots, or an error exactly for an unknown hash |
| Posets.Poset.Ancestor | src/poset/poset.go:121-135 | true exactly when y can be reached from x by parent links; an error only if x is an event and y is unknown |
| Posets.Poset.Ancestor2 | src/poset/poset.go:138-192 | the timestamp cut-off and the same-creator index shortcut do not change the answer |
| Posets.Poset.MapSentinels | src/poset/poset.go:287-328 | adds exactly the creators that have an event between y and x |
| Posets.Poset.StronglySee | src/poset/poset.go:258-285 | true exactly when at least superMajority creators lie between y and x |
| Posets.Poset.RoundOf | src/poset/poset.go:330-340 | returns the round the graph alone determines, although it reads the round table |
| Posets.Poset.RoundOf2 | src/poset/poset.go:342-485 | the same of the recursive part with its counting loops |
| Posets.Poset.RaisedRound | src/poset/poset.go:422-485 | the round goes up exactly when the witness proof or the flag table holds superMajority seen witnesses of the parent round |
| Posets.Poset.IsWitness | src/poset/poset.go:489-507 | returns the witness flag the graph determines |
| Posets.Poset.TakeIn | src/poset/poset.go:845-897 | the event goes in, or what is wrong with it is named and graph and queues stay as they are; the topological counter moves exactly if the checks are passed, also when the store then refuses the index |
| Posets.Poset.InsertEvent | src/poset/poset.go:845-897 | takes the event in or names the check it fails or the store's refusal; if its hash is new and its index the next one, the state stays sound, stored frames stay right, and so do the caches unless the event was asked about too early |
| Posets.Poset.DivideRounds | src/poset/poset.go:903-1018 | every undetermined event without a round gets the round, witness flag and timestamp the graph determines, in insertion order |
| Posets.Poset.CastVote | src/poset/poset.go:1051-1098 | the vote and the decision of one witness are those of the recursive voting rule, coin rounds included |
| Posets.Poset.DecideWitness | src/poset/poset.go:1039-1105 | a verdict is found exactly if some witness of the table decides one, and it is that of the first round that decides |
| Posets.Poset.UpdatePendingRounds | src/poset/poset.go:820-826 | exactly the listed rounds of the queue are marked decided |
| Posets.Poset.DecideFame | src/poset/poset.go:1021-1117 | in every round of the queue exactly the witnesses some witness decides are settled, as the first to decide do, and the rounds so completed are marked decided |
| Posets.Poset.Reception | src/poset/poset.go:1130-1185 | finds the first round after the event's own that is decided and whose famous witnesses all see it, all rounds between being decided, or that there is none yet |
| Posets.Poset.DecideRoundReceived | src/poset/poset.go:1121-1206 | receives every undetermined event that can be; the rest stay undetermined in order |
| Posets.Poset.CreateRoot | src/poset/poset.go:665-761 | the root records the parents' places, timestamps and rounds |
| Posets.Poset.SortedEvents | src/poset/poset.go:1313-1321 | lists the consensus events of a round, each once, in frame order |
| Posets.Poset.GetFrame | src/poset/poset.go:1298-1409 | returns the stored frame, or builds and stores the frame of the round with for every participant the root of its first event in it, or else of its last committed event, or fails if there is no such round |
| Posets.Poset.NewBlock | src/poset/block.go:67-90 | the block carries the hash of the frame and the transactions of its events in frame order |
| Posets.Poset.ProcessDecidedRounds | src/poset/poset.go:1211-1295 | commits decided rounds from the head of the queue up to the first that is not decided, and trims the queue |
| Posets.Poset.RunConsensus | src/node/core.go:480-528 | takes the four passes in order; state, caches and stored frames stay right |
| Posets.Poset.Reset | src/poset/poset.go:1505-1566 | the graph is that of the frame's events on its roots, or the first refused event is named; a timestamp cache that is right of any graph the roots and events are true of is right of every hash known afterwards |
| FrameReset.FrameRootsTrue | src/poset/poset.go:665-761 | the places, timestamps and rounds that the roots of a frame record of events outside it are those of the graph |
| FrameReset.FrameIsClosed | src/poset/poset.go:1298-1321 | in every committed frame of a run whose decided rounds gain no witness, a creator's events are consecutive and in order, and parents in the frame come first |
| FrameReset.FrameRestarts | src/poset/poset.go:1505-1566 | an empty node accepts every event of the frame on its roots, in frame order, and gives each known hash the timestamp it had |
| FrameReset.StoredFrameRestarts | src/poset/poset.go:1505-1566 | the same of a frame as it was stored |
| FrameReset.SameTimestamps | src/poset/poset.go:531-585 | whatever else is taken in on those roots later keeps its timestamp too |
| FrameReset.RegrownGrows | src/poset/poset.go:1558-1563 | taking in more of the original events leaves that so |
| FrameReset.CachesOutliveRestart | src/poset/poset.go:1505-1566 | a timestamp cache that is right of a graph is right of every hash known after a restart on roots that are true of it |
| FrameReset.CachesOutliveRestarts | src/poset/poset.go:1505-1566 | and stays so over any number of restarts, from any nodes' frames, with whatever is looked up in between |
| FrameReset.RightElsewhere | src/poset/poset.go:519-529 | what a node that never restarted remembers is right of every graph that agrees with its own |
| FrameReset.RestartFromPeer | src/node/core.go:355-388 | a node that restarts from any committed frame of a peer takes in every event of it, and its kept timestamp cache is right, whatever it held before and however often it has restarted |
| Gossip.TakeNewer | src/node/core.go:306-335 | leaving out what the receiver knows makes no difference to it |
| Gossip.SyncAccepts | src/node/core.go:269-335 | however old the request, every new event of the answer is accepted, and the receiver ends with the events of both and the pointwise maximum of the known maps |
| Networks.RunSafe | src/node/core.go:269-353 | every reachable state of the network is safe, with requests and answers delayed, repeated or lost |
| Networks.GossipSafety | src/poset/poset.go:617-663 | in every reachable state each node's log of each participant is a prefix of that participant's own, and each node's events are closed under parents |
| Networks.GossipAccepts | src/node/core.go:306-353 | delivering any answer at any later time raises the receiver's known map to the pointwise maximum |
| Networks.NodesAgree | src/poset/poset.go:903-1018 | in every reachable state two nodes give a shared event the same round, witness flag and timestamp |
| Networks.NodesAgreeOnFame | src/poset/poset.go:1021-1117 | two nodes never decide a witness differently while votes converge on what they hold between them |
| Replicas.HistorySane | src/node/core.go:269-528 | with consensus passes taken by any node at any time, every reachable state of the network is safe and every node is in a state of a run of its own |
| Replicas.NodesCommitAlike | src/node/core.go:480-528 | in every reachable state of the network, of any two nodes the one that is behind has committed a prefix of what the other has if and only if neither holds back an event of the frames both have built, while votes converge on what they hold between them |
| Wire.WireInfoIs | src/poset/poset.go:773-818 | the recorded places of the parents are where the parents are |
| Wire.ReadWireInfo | src/poset/poset.go:1611-1704 | rebuilds the event, or fails for an unknown participant, a missing parent or an empty flag table, in that order |
| Wire.WireRoundTrip | src/poset/poset.go:1611-1704 | a receiver that holds the parents rebuilds the event if and only if its flag table is not empty and every block signature is its creator's |
| Wire.SentAndRead | src/poset/event.go:324-345 | the same from the sender's numbering of the parents to the receiver's hashes |
| Syncing.SyncOfAnswer | src/node/core.go:306-335 | receiving another node's answer from the wire takes in exactly what that node held, without error, and remembers its head, if what it holds survives the wire |
| Cores.AnswerOverTheWire | src/node/core.go:269-335 | which it does between any two cores: whatever one answers, however old the request, the other takes in whole and without error |
| Cores.Core.constructor | src/node/core.go:40-77 | a new node has an empty poset and empty pools |
| Cores.Core.SetHeadAndSeq | src/node/core.go:120-156 | head and counter are those of the node's last event, or of its root, after a start and after a Reset |
| Cores.Core.InsertEvent | src/node/core.go:204-229 | takes an event in as the poset does; only the node's own events move its head; everything the node holds goes on surviving the wire |
| Cores.Core.EventDiff | src/node/core.go:269-304 | returns exactly the events the known map does not cover, parents first, and fails exactly for a known index below -1 |
| Cores.Core.OverSyncLimit | src/node/core.go:250-262 | the index arithmetic says that EventDiff has more than syncLimit events, a missing participant counting as known up to index 0 |
| Cores.Core.Sync | src/node/core.go:306-353 | takes events in up to the first that cannot be, then, exactly if something is pending, makes an event whose self-parent is the node's last event, whose index is the next one and whose other-parent is the sender's head; head, counter and pools move with it or not at all |
| Cores.Core.AddSelfEventBlock | src/node/core.go:397-458 | the pool loses exactly the transactions of the new event, and nothing if the event is refused |
| Cores.Core.AddTransactions | src/node/core.go:530-532 | with the above: the node's own transactions in chain order followed by the pool are always what was submitted, and no event carries more than the limit |
| Cores.Core.AddInternalTransactions | src/node/core.go:534-536 | appends to the pool of internal transactions, which the next own event empties |
| Cores.Core.RunConsensus | src/node/core.go:480-528 | consensus leaves head, names and pools as they are |
| CoreFacts.SortedIsDiff | src/node/core.go:269-304 | collecting by participant and sorting by topological index gives the difference in insertion order |
| CoreFacts.PoolDrained | src/node/core.go:428-456 | moving a batch from the pool into an event loses, repeats and reorders nothing |
| CoreFacts.SelfFresh | src/node/core.go:433-438 | an event a node makes on its own head has the next index and a new hash, the hash being that of the body |
| CoreFacts.SelfEventSendable | src/node/core.go:397-438 | the event a node makes on its head survives the wire, provided the head does and its pooled block signatures are its own, which `Core` maintains |
| RollingIndices.SetShows | src/common/rolling_index.go:60-92 | an accepted Set keeps the window on the end of the log; it is refused exactly for a jump ahead or an index that has rolled out |
| RollingIndices.SetAlignedIff | src/common/rolling_index.go:60-76 | an accepted Set files every item under its index if and only if it starts the window, or the last index is not negative, or the index is the next one |
| Examples.JumpFromBelowZero | src/common/rolling_index.go:60-76 | a window, reached from a new one by one Set, that files an item under the wrong index |
| RollingIndices.RunShows | src/common/rolling_index.go:60-98 | after any run of Sets that starts at or above 0 the window is a contiguous suffix of the log, at most 2*size long and with the last min(total, size) entries |
| RollingIndices.ReadsShow | src/common/rolling_index.go:27-58 | reads return the log's values, or TooLate and KeyNotFound exactly outside the window |
| RollingIndices.RollingIndex.Get | src/common/rolling_index.go:27-45 | returns the entries after an index, of any log the window shows |
| RollingIndices.RollingIndex.GetItem | src/common/rolling_index.go:47-58 | returns the entry at an index of any log the window shows, TooLate exactly if it has rolled out and KeyNotFound exactly if it is not there yet |
| RollingIndices.RollingIndex.Set | src/common/rolling_index.go:60-92 | sets as the window does, and goes on showing the log |
| Stores.BadgerStore.GetEvent | src/poset/badger_store.go:169-177 | returns the last value written, whatever the cache has lost and whatever was written |
| Stores.BadgerStore.LoseFromCache | src/poset/inmem_store.go:104-111 | an eviction between any two calls leaves database, windows and logs in step |
| Stores.BadgerStore.SetEvent | src/poset/badger_store.go:179-186 | writes through or changes nothing, for any event; refused exactly when the cache does not hold the event and the window refuses it; an event that fits its creator's log leaves window and database showing one log, one entry longer |
| Stores.BadgerStore.DbParticipantEvents | src/poset/badger_store.go:451-476 | the scan lists the participant's log after an index |
| Stores.BadgerStore.ParticipantEvents | src/poset/badger_store.go:188-194 | gives the same list from the window or from the database |

## Left out

- ECDSA, SHA-256, hex and protobuf encoding, and the logger.
- The signature pool, anchor blocks, block signatures and `CheckBlock`.
- The rewriting of the head's own flag table and witness proof inside `DivideRounds` (`src/poset/poset.go:964-991`): it depends on the local store, so those fields are fixed here.
- Rounds, fame, queues and new frames after a restart; the branches of `round2` and of `createOtherParentRootEvent` that read a root's Others, and the skipping of the last consensus round in `ProcessDecidedRounds`, are reached only then.
- Posets.Poset.Reset: the rounds that arrive inside the frame's events are not kept; only re-insertion and timestamps are modelled after a restart. Two roots with the same self-parent hash are excluded; no frame has them.
- Dags.InsertKeeps: is about events with the next index; a store that took in another one is not followed further.
- Posets.Poset.TakeIn: an event's topological index is its place in insertion order; after a refusal by the store the source's counter runs ahead of that, which changes no order but enters later frame hashes.
- Posets.Poset.InsertEvent: says nothing of soundness and caches after an event whose index is not the next one.
- Cores.Core.InsertEvent: says nothing of the later state of the node after an event whose index is not the next one, or that could not be sent on.
- Cores.Core.EventDiff: the TooLate of an index that has rolled out of a bounded log is not modelled, since nothing rolls out of the logs here; it is in RollingIndices and Stores.
- Cores.Core.AddBlockSignature: takes the node's own signatures only, which are all that `src/node/node.go:630-640` adds.
- Cores.Core.Sync: that incoming events which the store accepts carry the next index is a hypothesis; `inDegrees` is not modelled.
- Networks.GossipSafety: all participants are honest creators; a participant that signs two events with one index is not modelled.
- Stores.BadgerStore.SetEvent: says nothing of listings after an event with a negative index or on an index another event has; honest creators make neither.
- `RoundInfo` is a value that methods of `Poset` replace in the table; that two copies of one in Go share their map of events is not captured.
- `RollingIndexMap` and `ParticipantEventsCache` are maps from participants to windows inside `BadgerStore`, and whole logs in `Dags`, of which only the refusal of rolled-out indexes follows the bounded window; `Known`, `Import` and the in-memory store's loss of events and rounds are not modelled.
- `Bootstrap` from disk, the topological scan of the database, and the storing of rounds, roots, blocks and frames in it.
- Adding peers while running, `selfAncestor`, `FastForward`'s checks of block and frame hashes.
- Node goroutines, timers, peer selection, transport, proxies, HTTP service and command line.
