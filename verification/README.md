# Verified model of the UAV communication framework

This project models the distributed algorithms of the framework and the runtime they run on, and proves
what they guarantee over every run.

- **Raft.** `RaftNode` gives each handler as a function from a node to the next node and its messages;
  `RaftAlgorithm` is the object itself, each of whose methods is proved to compute that function.
  `RaftHandlers` says case by case what each of them does, of fields and messages alone, and `RaftReplies`
  what their answers mean in runs.
  `RaftCluster` puts nodes on a network that loses, delays and reorders messages. On it stand election
  safety (`RaftElection`, with its exact limit in `RaftSplitVote`), log matching (`RaftLogs`), leader
  completeness (`RaftCompleteness`), and state-machine safety: under two run conditions (`RaftSafety`),
  neither of which can be dropped (`RaftDivergence`, `RaftWitness`), and without them exactly in clusters of
  up to two (`RaftPair`, `RaftDivergence`). Matching, completeness and safety ask for a membership in which
  the vote threshold is a majority; `RaftSplitLogs` shows that none of them holds in any other.
  `RaftReplication` is about one leader and one follower, `RaftNodeRuns` about one node alone, and
  `RaftCommitFall` is a run in which a commit index falls. `RaftScenes` and `RaftCrowds` hold the parts
  these runs are put together from. `RaftOverRouter` replaces the assumption that a message is handled at
  most once by the runtime's deduplication window, and `RaftDelivered` shows its executions to be runs of
  `Delivery`.
- **Runtime.** `Dedup` and `Router` are the inbound path, `SendQueue` and `RuntimeNode` the outbound one,
  `Delivery` joins stamping and deduplication end to end, and `Endpoints` shows that the router and node
  objects take its steps. `QueueModel` is what the heap of
  `SendQueue` is proved to implement.
- **Replicated state.** `Merge` holds the laws of last-writer-wins merging, `Owners` what the
  one-writer-per-key discipline keeps, `Journeys` how states spread under it, `Gossip` and `WeakNet` the two
  algorithms, and `GossipCluster` and `WeakNetCluster` their runs. Any node may write any key; a theorem that
  needs one writer per key says so. `GossipReach` and `WeakNetReach` show what a message brings about, and that
  convergence is within reach of every run.
- **Wire format.** `Bytes`, `Codec` and `Framing`.

A run is a sequence of states and the events between them; an event is what a handler does under one hold
of its lock. That is the whole handler, except that Gossip's OnMessage lets go between marking a message
seen and merging it, and WeakNet's handlePushPull between merging and replying: these are two events each.
Networks are sets of messages that may arrive in any order or never.
Clocks, timers, expiry and random choices are arbitrary: nothing proved depends on them.

What the proofs found about the code:

- The vote threshold `len(Peers())/2 + 1` is a majority exactly for odd memberships and for two members.
  With four, one term can have two leaders (`RaftSplitVote.ElectionsSafeIff`), and followers then take the
  entry of one for that of the other, so that log matching, leader completeness and safety fail too
  (`RaftSplitLogs`).
- A follower reports its whole log length as match index, and a leader counts replies to messages of its
  earlier leaderships. Each of these alone lets two nodes apply different commands at one index
  (`RaftDivergence.TruthfulNeeded`, `RaftWitness.CurrentNeeded`). Without either, safety holds. Nodes of a
  cluster can come to differ in this way exactly if it has three members or more (`RaftDivergence.SafeIff`).
- An AppendEntries can lower a commit index. `RaftNodeRuns.CommitFallsIff` says when, from the follower's
  state and the message, and `RaftCommitFall.CommitCanFall` is a run of five nodes in which it happens.
- The doc comment of `SendQueue.Push` says drop-tail. When all queued messages have one priority, and only
  then, the queue drops the one it would have served next (`QueueModel.EvictsHeadAmongEquals`); otherwise it
  drops the first of the least urgent in heap layout, which is no order of age: it depends on whether an
  urgent message was pushed before them or after (`SendQueue.LayoutDecides`).
- Once the uint32 sequence wraps, a receiver refuses the stream until numbers come within 256 of 2^32
  again (`Dedup.WrapSilences`).
- WeakNet's known versions never leave zero, so its deltas are always whole states, whoever writes what
  (`WeakNetCluster.DeltaIsWholeState`).
- A message's expiry is decided by an int64 difference that wraps: a timestamp 2^63 ms or more in the past
  never expires (`Messages.ExpiryWraps`).
- The message package's comment speaks of a 24-byte header; it is 33 bytes, as the fields it lists add up to
  (`Codec.Layout`). The codec's comment says larger payloads than 256 bytes are compressed; those of 256 bytes
  are too (`Codec.CompressedWhen`).
- The doc comment of Raft's `New` says commands are applied on the leader; followers apply them too.

## Model

| member | source | states |
|---|---|---|
| RaftElection.ElectionSafety | node/algorithm/raft/raft.go:384-428 | in every run of an odd or two-member cluster, two nodes that ever lead the same term are the same node |
| RaftElection.ElectionInRuns | node/algorithm/raft/raft.go:305-428 | every reachable state keeps the vote invariants: each counted vote is one voter's first ballot of the term, and each winner was counted by a majority |
| RaftElection.WinsLast | node/algorithm/raft/raft.go:413-428 | who won a term is never revised |
| RaftSplitVote.TwoLeaders | node/algorithm/raft/raft.go:422-426 | for every even membership of four or more, a run in which two nodes lead term 1 at the same time |
| RaftSplitVote.ElectionsSafeIff | node/algorithm/raft/raft.go:422-426 | for every nonempty membership: it is odd or two if and only if no run elects two leaders in one term |
| RaftLogs.LogMatching | node/algorithm/raft/raft.go:451-476 | in every reachable state, two logs with the same term at an index are identical up to it |
| RaftLogs.LogTerms | node/algorithm/raft/raft.go:165-174 | in every run of every membership, terms along a log start at 1, never decrease and never exceed the holder's current term |
| RaftLogs.TermsInRuns | node/algorithm/raft/raft.go:352-476 | in every run of every membership, logs and AppendEntries carry such terms, and only followers are in term 0 |
| RaftLogs.Accepted | node/algorithm/raft/raft.go:451-476 | an accepted message leaves a log that agrees with the sender's as far as the message reaches, and is otherwise untouched or exactly that much of the sender's log |
| RaftLogs.SharedSurvives | node/algorithm/raft/raft.go:464-476 | a prefix shared by follower and sender survives the message |
| RaftLogs.LogsInRuns | node/algorithm/raft/raft.go:352-476 | every log held, voted with, led with or sent is backed by the logs of its terms' leaders, in every reachable state |
| RaftCompleteness.LeaderCompleteness | node/algorithm/raft/raft.go:384-428 | entries of the leader's own term that a majority each held at some moment in that term begin the log of every later leader |
| RaftCompleteness.KeepsInRuns | node/algorithm/raft/raft.go:384-476 | what voters held when they voted is kept by every candidate that could win with their vote |
| RaftSafety.StateMachineSafety | node/algorithm/raft/raft.go:478-546 | on runs with truthful and current replies, whatever two nodes apply at one index, whenever they do, is the same command |
| RaftSafety.CommitsStand | node/algorithm/raft/raft.go:464-485 | on such runs a commit index never falls and no committed entry is cut or replaced |
| RaftSafety.TruthfulWhen | node/algorithm/raft/raft.go:464-488 | in every run, a follower that answers success misreports if and only if it already held every entry of the message and its log was no prefix of the leader's |
| RaftSafety.PrefixWhen | node/algorithm/raft/raft.go:464-476 | the same for one log and one message cut from a matching log |
| RaftSafety.SafeInRuns | node/algorithm/raft/raft.go:496-546 | in every reachable state of such runs each node's committed prefix is replicated on a majority in some term, and each match index a leader counts is backed by what that follower held |
| RaftDivergence.TruthfulNeeded | node/algorithm/raft/raft.go:478-488 | for every membership of three or more, a run with only current replies in which two nodes apply different commands at index 1 |
| RaftDivergence.SafeIff | node/algorithm/raft/raft.go:430-546 | for every membership: it has at most two members if and only if no run has nodes apply different commands at one index |
| RaftPair.PairSafety | node/algorithm/raft/raft.go:430-546 | in every run of one or two nodes, whatever is applied at one index, by whom and whenever, is the same command |
| RaftPair.LogsOnlyGrow | node/algorithm/raft/raft.go:464-476 | in such runs no entry of any log is ever cut or replaced |
| RaftPair.PairInRuns | node/algorithm/raft/raft.go:384-476 | in every reachable state of such runs one log is a prefix of the other, and nobody has more than a node it voted for that still stands or leads |
| RaftWitness.CurrentNeeded | node/algorithm/raft/raft.go:501-507 | a three-node run with only truthful replies in which two nodes apply different commands at index 2 |
| RaftWitness.BothMet | node/algorithm/raft/raft.go:496-546 | a three-node run with truthful and current replies in which two nodes apply the same command |
| RaftSplitLogs.SplitDiverges | node/algorithm/raft/raft.go:464-476 | for every even membership of four or more, a run with truthful and current replies in which two logs differ below equal terms and two nodes apply different commands at index 1 |
| RaftSplitLogs.MatchingIff | node/algorithm/raft/raft.go:451-476 | for every nonempty membership: it is odd or two if and only if log matching holds in all runs |
| RaftSplitLogs.HonestSafeIff | node/algorithm/raft/raft.go:496-546 | for every nonempty membership: it is odd or two if and only if state-machine safety holds in all runs with truthful and current replies |
| RaftSplitLogs.CompletenessIff | node/algorithm/raft/raft.go:384-428 | for every nonempty membership: it is odd or two if and only if leader completeness holds in all runs |
| RaftReplication.OverwriteContract | node/algorithm/raft/raft.go:464-476 | the loop leaves the log alone when all entries are present, else yields the log up to the first missing or conflicting entry followed by the rest of the message; no third case |
| RaftReplication.OverwriteTwice | node/algorithm/raft/raft.go:464-476 | repeating a message changes nothing further |
| RaftReplication.AgreementNeverShrinks | node/algorithm/raft/raft.go:451-476 | over messages cut from one leader's log, in any order and repetition, the prefix shared with that log never shrinks |
| RaftReplication.BackoffRepairs | node/algorithm/raft/raft.go:504-514 | the back-off exchange ends after at most nextIndex-1 rejections with the follower's log beginning with the whole leader log, wherever nextIndex started |
| RaftReplication.Rejected | node/algorithm/raft/raft.go:508-514 | a rejected probe changes no log, lowers nextIndex by one and is followed by the next probe |
| RaftNodeRuns.NodesAge | node/algorithm/raft/raft.go:305-401 | over every sequence of handler calls terms never fall, a vote stands for its term and applied commands are never taken back |
| RaftNodeRuns.NodesApplyInOrder | node/algorithm/raft/raft.go:538-546 | the apply callback sees 1, 2, 3, ... without gap or repeat |
| RaftNodeRuns.AppliesInRange | node/algorithm/raft/raft.go:538-546 | every entry applied is in range of the log at that moment, even after a truncation below the commit index |
| RaftNodeRuns.CommitFallsIff | node/algorithm/raft/raft.go:478-484 | an AppendEntries lowers the commit index if and only if it is accepted, carries a higher leader commit, and what the follower held before, if it held every entry, or else the end of the message's entries, falls short of the commit index |
| RaftHandlers.VoteAnswer | node/algorithm/raft/raft.go:384-411 | a vote is granted if and only if the request's term is not past, the candidate's log is no older, and the voter is new to the term, has not voted or voted for this candidate; every request is answered in the later of the terms, and a vote changes only on a grant or with the term |
| RaftHandlers.VoteAgain | node/algorithm/raft/raft.go:384-401 | a repeated request is granted again, and no other candidate is in that term |
| RaftHandlers.Stands | node/algorithm/raft/raft.go:313-329 | the next term, its own vote, and one request with the log's length and last term to each peer |
| RaftHandlers.VoteCounted | node/algorithm/raft/raft.go:413-428 | which replies are ignored, which counted, and which makes a leader; a new leader sends to each peer from the end of its log |
| RaftHandlers.Proposed | node/algorithm/raft/raft.go:165-174 | a leader appends the command under its term and sends to each peer from its nextIndex; nobody else does anything |
| RaftHandlers.Beats | node/algorithm/raft/raft.go:287-292 | a leader sends to each peer from its nextIndex and changes nothing; nobody else does anything |
| RaftHandlers.AppendCarries | node/algorithm/raft/raft.go:352-382 | the message holds the log from nextIndex on, the term of the entry before it, and nothing where nextIndex lies beyond the log |
| RaftHandlers.StaleAppend | node/algorithm/raft/raft.go:430-440 | a message of an earlier term changes nothing and is answered with the receiver's term |
| RaftHandlers.RefusedAppend | node/algorithm/raft/raft.go:442-462 | where the receiver lacks the entry a message goes on from, it only becomes a follower of that term and leader, and refuses |
| RaftHandlers.AcceptedAppend | node/algorithm/raft/raft.go:464-494 | otherwise the log is left alone or cut and filled at the first problem, the commit index follows the leader's as far as the log reaches, what is newly committed is applied, and the answer gives the log's length |
| RaftHandlers.Commits | node/algorithm/raft/raft.go:517-546 | a leader commits the highest index there is to commit and applies all up to it, or changes nothing if there is none |
| RaftHandlers.ReplyCommits | node/algorithm/raft/raft.go:496-503 | after an acknowledgement no index is left to commit: every index a majority reaches, under entries of the current term to the end of the log, is committed and applied |
| RaftHandlers.ReplyApplies | node/algorithm/raft/raft.go:538-546 | an index committed this way is applied with the command the leader has at it |
| RaftHandlers.ReplyBacksOff | node/algorithm/raft/raft.go:504-514 | a refusal makes a leader send again from one entry earlier; others ignore replies |
| RaftHandlers.TermTaken | node/algorithm/raft/raft.go:305-311 | a node ends every delivery in the later of its term and the message's, as a follower if that is the message's |
| RaftHandlers.ReplyDeposes | node/algorithm/raft/raft.go:497-500 | a reply of a later term makes its receiver a follower of that term without a vote, and does nothing else |
| RaftHandlers.RequestsAnswered | node/algorithm/raft/raft.go:384-494 | every vote request and AppendEntries is answered by one reply to its sender |
| RaftReplies.DeposedLearns | node/algorithm/raft/raft.go:433-440 | in every run, a leader whose message met a later term and that has been handed the answer leads no earlier term, and if still in its old term it follows the later one |
| RaftReplies.GrantedWhen | node/algorithm/raft/raft.go:384-411 | in every run of every membership, a request is granted if and only if its term is not past, the candidate's log is no older, and the voter never gave that term's vote to someone else |
| RaftReplies.CommitsInRuns | node/algorithm/raft/raft.go:496-546 | in every run, a leader that has handled an acknowledgement has committed and applied all there was to commit |
| RaftCommitFall.CommitCanFall | node/algorithm/raft/raft.go:464-488 | a run of five nodes, no leader's election timer firing, in which a follower's commit index goes from 3 to 2 |
| RaftOverRouter.RunRefines | node/runtime/router.go:208-238 | every execution over a network that drops, duplicates and reorders, filtered by the deduplication window, is a run of the cluster, honest if its handled steps are |
| RaftOverRouter.StepRefines | node/runtime/router.go:208-238 | each step of such an execution is one step of the cluster or leaves it alone |
| RaftOverRouter.PassesOnce | node/runtime/router.go:147-179 | a packet that passes the window has not been handled before |
| RaftOverRouter.ElectionSafety | node/algorithm/raft/raft.go:413-428 | election safety over that network |
| RaftOverRouter.StateMachineSafety | node/algorithm/raft/raft.go:517-546 | state-machine safety over that network, on honest executions |
| RaftDelivered.OnDelivery | node/runtime/router.go:208-238 | every such execution is matched by a run of Delivery on stream 0, arrival for arrival, and what reaches Raft's handlers is exactly what is handed on there |
| RaftDelivered.StepLinked | node/runtime/node.go:213-241 | each step is an arrival, if it is one, and then the stamping of what it sends |
| RaftDelivered.PassesIsHandled | node/runtime/router.go:208-227 | a packet passes Raft's window if and only if Delivery hands it on |
| RaftCluster.Next | node/algorithm/raft/raft.go:237-294 | one event keeps the membership, the identity of every packet and every leader's ability to send |
| RaftCluster.PeersSize | node/algorithm/raft/raft.go:423 | Peers has one member less than the cluster |
| RaftAlgorithm.Algorithm.constructor | node/algorithm/raft/raft.go:139-149 | a new node is a follower of term 0 with an empty log |
| RaftAlgorithm.Algorithm.Propose | node/algorithm/raft/raft.go:165-174 | appends and broadcasts on the leader, and reports failure elsewhere without a change |
| RaftAlgorithm.Algorithm.OnHeartbeatTick | node/algorithm/raft/raft.go:287-292 | a leader, and only a leader, broadcasts |
| RaftAlgorithm.Algorithm.StepDown | node/algorithm/raft/raft.go:305-311 | takes the new term as a follower without a vote |
| RaftAlgorithm.Algorithm.StartElection | node/algorithm/raft/raft.go:313-329 | the method computes the election step and its requests |
| RaftAlgorithm.Algorithm.BecomeLeader | node/algorithm/raft/raft.go:331-344 | every peer's nextIndex is one past the log and its match index 0, and each is sent to |
| RaftAlgorithm.Algorithm.TrackPeers | node/algorithm/raft/raft.go:337-341 | the loop sets exactly the listed peers |
| RaftAlgorithm.Algorithm.BroadcastAppendEntries | node/algorithm/raft/raft.go:346-350 | one message per peer, in the order listed |
| RaftAlgorithm.Algorithm.SendAppendEntries | node/algorithm/raft/raft.go:352-382 | the message carries the log from nextIndex on, or nothing when nextIndex is beyond it |
| RaftAlgorithm.Algorithm.LastLogInfo | node/algorithm/raft/raft.go:548-554 | length and last term of the log, 0 and 0 when empty |
| RaftAlgorithm.Algorithm.HandleRequestVote | node/algorithm/raft/raft.go:384-411 | the method computes the vote step and its reply |
| RaftAlgorithm.Algorithm.HandleVoteReply | node/algorithm/raft/raft.go:413-428 | the method computes the counting step, becoming leader at the source's threshold |
| RaftAlgorithm.Algorithm.AppendLoop | node/algorithm/raft/raft.go:464-476 | the in-place loop computes the log described by OverwriteContract |
| RaftAlgorithm.Algorithm.HandleAppendEntries | node/algorithm/raft/raft.go:430-494 | the method computes the follower's step, replying with the term read before stepping down |
| RaftAlgorithm.Algorithm.HandleAppendReply | node/algorithm/raft/raft.go:496-515 | the method computes the leader's step on a reply |
| RaftAlgorithm.Algorithm.CountMatches | node/algorithm/raft/raft.go:523-528 | the count is one plus the number of peers whose match index reaches n, in whatever order the map is walked |
| RaftAlgorithm.Algorithm.MaybeCommit | node/algorithm/raft/raft.go:517-536 | the downward scan commits the highest index a majority matches in an unbroken run of current-term entries |
| RaftAlgorithm.Algorithm.ApplyCommitted | node/algorithm/raft/raft.go:538-546 | applies each index up to the commit index once, in order |
| Dedup.WindowRefinesHistory | node/runtime/router.go:147-179 | after any calls, a number is called a duplicate if and only if unbounded history would not call it fresh: never presented, and first, above the highest, or less than 256 below it |
| Dedup.WindowBounded | node/runtime/router.go:147-179 | a window holds at most 256 numbers, none more than 255 below the highest |
| Dedup.CutoffExact | node/runtime/router.go:158-161 | the cutoff is exact whenever the guard lets it be used, and underflows exactly below 255 |
| Dedup.NeverTwice | node/runtime/router.go:147-179 | a number once presented is refused ever after |
| Dedup.WrapSilences | node/runtime/router.go:170-173 | once number 2^32-1 was presented, a number is refused if and only if it was presented or is 256 or more below it |
| Dedup.PeerDedup.IsDuplicate | node/runtime/router.go:147-179 | the method on arrays answers and updates one stream as specified and leaves the others alone |
| Dedup.PeerDedup.Sweep | node/runtime/router.go:162-166 | the sweep removes exactly the numbers below the cutoff, in whatever order the map is walked |
| Dedup.PeerDedup.constructor | node/runtime/router.go:137-143 | 256 fresh streams |
| Router.Router.constructor | node/runtime/router.go:198-205 | no sender has been heard |
| Router.Router.AddPeer | node/runtime/router.go:232-235 | fresh windows for a sender not heard before |
| Router.Router.FindPeer | node/runtime/router.go:229-237 | a sender's windows are created on first contact and no other sender's change |
| Router.Router.IsDuplicate | node/runtime/router.go:229-238 | one stream of one sender is checked and updated, all others keep their windows |
| Messages.ExpiredWhen | pkg/message/message.go:93-100 | with times less than 2^63 ms apart, a message has expired if and only if its TTL is not 0 and has passed since its timestamp |
| Messages.ExpiryWraps | pkg/message/message.go:93-100 | further apart the int64 difference wraps: what is too old never expires, what is too far ahead has, but for the last moments |
| Router.Router.Dispatch | node/runtime/router.go:208-227 | the handler is reached if and only if the message has not expired and the numbers presented so far on its stream do not make it a duplicate; an expired one is not presented |
| Delivery.AtMostOnce | node/runtime/router.go:208-238 | over a network that drops, duplicates and reorders, no message of one sender and stream is handed to a receiver's handler twice, even if the sequence wraps |
| Delivery.HandledWhen | node/runtime/router.go:147-179 | until the sequence wraps, an unexpired message is handled if and only if it was not presented before and no number presented is 256 or more above it |
| Delivery.CountedInRuns | node/runtime/node.go:213-241 | every number in flight or presented was stamped, and each count was stamped on one message |
| Endpoints.Arrival | node/runtime/router.go:208-238 | a dispatching router takes an arrival step of Delivery, and hands on exactly what Delivery says is handled |
| Endpoints.Unicast | node/runtime/node.go:213-225 | Send takes one stamping step of Delivery, or none for an unknown peer, and queues the copy as it goes on the wire |
| Endpoints.Multicast | node/runtime/node.go:228-241 | Broadcast takes one stamping step per peer and queues those copies |
| RuntimeNode.Host.constructor | node/runtime/node.go:65-89 | an empty queue and counters at 0 |
| RuntimeNode.Host.NextSeq | node/runtime/node.go:186-188 | the next number of one stream, which is its unbounded count modulo 2^32 |
| RuntimeNode.Host.Send | node/runtime/node.go:213-225 | pushes one message stamped with the next number, or fails for an unknown peer without using a number |
| RuntimeNode.Host.Broadcast | node/runtime/node.go:228-241 | pushes one stamped copy per peer, numbered consecutively |
| RuntimeNode.Host.Drain | node/runtime/node.go:162-180 | empties the queue and hands on exactly the queued messages that have a known peer, each once, in stable priority order |
| RuntimeNode.ServedOne | node/runtime/node.go:162-180 | popping the least item and handing its message on, or not, keeps what was handed on complete and in order |
| RuntimeNode.PushedContent | node/runtime/node.go:213-241 | what is pushed keeps payload, type, priority, stream, TTL and data time, and its timestamp unless that is 0; each peer in turn gets the next number, modulo 2^32 |
| SendQueue.SendQueue.constructor | node/runtime/router.go:64-73 | an empty queue of the given capacity |
| SendQueue.SendQueue.Push | node/runtime/router.go:77-101 | keeps heap order and positions, takes a Push step of the abstract queue, gives up exactly the item the scan ends at, and below capacity leaves the slice with the new item sifted up |
| SendQueue.SendQueue.Pop | node/runtime/router.go:105-113 | keeps heap order and positions, and takes a Pop step of the abstract queue, or returns the zero message from an empty one |
| SendQueue.SendQueue.Evict | node/runtime/router.go:79-91 | the scan finds the first item in slice order of the largest Priority value, the oldest if all are equal, and removes it |
| SendQueue.SendQueue.Remove | node/runtime/router.go:87 | removes the item at a position and restores heap order |
| SendQueue.SendQueue.HeapPush | node/runtime/router.go:38-42 | adds an item at the end, sifts it up and restores heap order |
| SendQueue.SendQueue.HeapPop | node/runtime/router.go:43-50 | removes the root and restores heap order |
| SendQueue.SendQueue.Up | node/runtime/router.go:26-37 | sifting up restores heap order when only one item may be too small, and rearranges nothing else |
| SendQueue.SendQueue.Down | node/runtime/router.go:26-37 | sifting down restores heap order if it moved, and otherwise leaves at most a too-small item |
| SendQueue.SendQueue.Swap | node/runtime/router.go:33-37 | exchanges two items and keeps every index field equal to its position |
| SendQueue.RootIsNext | node/runtime/router.go:27-32 | the root of an ordered heap is the least item by priority and insertion order |
| SendQueue.LayoutDecides | node/runtime/router.go:81-86 | an urgent item pushed before or after two others leaves the same items in two ordered heaps, which give up different ones, the older and the newer of the two |
| SendQueue.ScanIsWorst | node/runtime/router.go:81-86 | what the scan ends with has the largest Priority value |
| QueueModel.Conserved | node/runtime/router.go:77-113 | over every run, pushed messages are exactly the popped, the evicted and the queued, each in one place |
| QueueModel.Bounded | node/runtime/router.go:79-88 | over every run the queue stays within capacity |
| QueueModel.FifoWithinPriority | node/runtime/router.go:26-32 | two popped messages of equal priority come out in push order, over whole runs |
| QueueModel.PopsInOrder | node/runtime/node.go:163-167 | draining the queue serves it in stable priority order |
| QueueModel.UrgentEvictedLast | node/runtime/router.go:80-86 | an evicted message is of priority at most p if and only if all queued ones are; so priority 0 is evicted exactly when only priority 0 is queued |
| QueueModel.EvictsHeadAmongEquals | node/runtime/router.go:75-91 | the evicted message is the one that would be served next if and only if all queued ones have one priority |
| QueueModel.DropsHead | node/runtime/router.go:75-91 | a full queue of capacity two, filled by a run, that drops the message pushed first |
| Merge.MergeIsJoin | node/algorithm/gossip/gossip.go:169-177 | merging computes the join of two states if and only if equal versions carry equal values |
| Merge.MergeCommutes | node/algorithm/gossip/gossip.go:169-177 | merging is commutative if and only if equal versions carry equal values |
| Merge.MergeAssociates | node/algorithm/gossip/gossip.go:169-177 | merging is associative on all states |
| Merge.MergeIdempotent | node/algorithm/gossip/gossip.go:169-177 | merging again changes nothing |
| Merge.MergeKeeps | node/algorithm/weaknet/weaknet.go:337-348 | merging drops no key and lowers no version |
| Merge.FoldOrderFree | node/algorithm/weaknet/weaknet.go:337-348 | merging many compatible states depends only on which they are |
| Merge.WrittenIs | node/algorithm/gossip/gossip.go:69-77 | a write changes only its key: the value written, at the next version, 1 for a new key |
| Merge.JoinUnique | node/algorithm/gossip/gossip.go:169-177 | a set of states has at most one join |
| Owners.WroteKeeps | cmd/gossip_bench/main.go:83-92 | a write by the key's owner keeps owners ahead and equal versions equal |
| Owners.MixedKeeps | node/algorithm/gossip/gossip.go:169-177 | so does merging a sound state into a node |
| Gossip.Algorithm.constructor | node/algorithm/gossip/gossip.go:50-66 | an empty node; a fanout of 0 or less means 3 |
| Gossip.Algorithm.Set | node/algorithm/gossip/gossip.go:69-77 | the next version of the key, from 1 |
| Gossip.Algorithm.Merge | node/algorithm/gossip/gossip.go:169-177 | the loop computes the merge in whatever order the map is walked |
| Gossip.TakenOnce | node/algorithm/gossip/gossip.go:111-131 | a state message not seen before is taken and marked, and absorbing it merges its state; it is not taken a second time, and other kinds never are |
| Gossip.Algorithm.Mark | node/algorithm/gossip/gossip.go:111-124 | a state message is marked, and is new exactly if it was not marked before; other kinds change nothing |
| Gossip.Algorithm.OnMessage | node/algorithm/gossip/gossip.go:111-131 | a state message is marked and, if it was not marked before and its payload decodes, merged, when nothing comes between the two; GossipCluster has them as two steps |
| Gossip.Algorithm.EvictSeen | node/algorithm/gossip/gossip.go:180-189 | forgets exactly the expired |
| Gossip.Algorithm.SampleN | node/algorithm/gossip/gossip.go:197-207 | different peers, as many as asked for or all |
| Gossip.Algorithm.GossipRound | node/algorithm/gossip/gossip.go:143-166 | pushes the whole state to that many different peers |
| GossipCluster.OwnersLead | node/algorithm/gossip/gossip.go:69-77 | with one writer per key, in every reachable state, pushes in flight included, no version exceeds its owner's and equal versions carry equal values |
| Journeys.AllJoin | node/algorithm/gossip/gossip.go:169-177 | however states travel: once writing stops and chains of transfers have led from every node to every other, all nodes hold the join of all states |
| Journeys.ChainCarries | node/algorithm/gossip/gossip.go:169-177 | a chain of transfers, each begun after the one before ended, carries the state of its start to its end |
| Journeys.OwnerStands | node/algorithm/gossip/gossip.go:169-177 | while nothing is written, an owner's entry for its key does not change |
| GossipCluster.Convergence | node/algorithm/gossip/gossip.go:111-177 | with one writer per key, once writing stops and fresh pushes, each taken and later merged, have led from every node to every other, all nodes hold the join of all states |
| GossipCluster.HopCarries | node/algorithm/gossip/gossip.go:111-131 | a push that was taken as new and merged leaves its receiver with all its sender had |
| GossipCluster.RoundPushes | node/algorithm/gossip/gossip.go:156-165 | what GossipRound pushes is what a round puts on the network |
| GossipReach.ArriveTakes | node/algorithm/gossip/gossip.go:111-124 | a push that arrives unseen is marked, taken and may then be absorbed; one that was seen changes nothing |
| GossipReach.AbsorbMerges | node/algorithm/gossip/gossip.go:126-131 | absorbing merges the state pushed into the receiver's and changes nothing else |
| GossipReach.Converges | node/algorithm/gossip/gossip.go:111-177 | from every state a one-writer run reaches, the run can go on without a write until all nodes hold the join of the states they held there |
| GossipReach.VersionsCount | node/algorithm/gossip/gossip.go:69-77 | in every one-writer run, the owner's version of a key is the number of times it was written |
| WeakNetReach.Sends | node/algorithm/weaknet/weaknet.go:270-295 | the payload holds exactly what is above the version the peer is believed to know, the sender's name, and whether it is a reply; nothing but the peer's entry changes |
| WeakNetReach.DeltaSuffices | node/algorithm/weaknet/weaknet.go:325-348 | merging a delta is merging the whole state, for a peer that has what the delta leaves out or something newer |
| WeakNetReach.Handles | node/algorithm/weaknet/weaknet.go:298-308 | merges the delta and, of the sender alone, takes down the time and the higher of the two known versions |
| WeakNetReach.HeardSurvives | node/algorithm/weaknet/weaknet.go:378-387 | a peer heard from at a moment survives a purge if and only if the cutoff is no later |
| WeakNetReach.Purges | node/algorithm/weaknet/weaknet.go:378-387 | a peer is kept if and only if it has not been heard from or was last heard from no earlier than the cutoff |
| WeakNetReach.Leaves | node/algorithm/weaknet/weaknet.go:270-295 | what a request or reply puts on the network says which of the two it is, and who sent it |
| WeakNetReach.Arrives | node/algorithm/weaknet/weaknet.go:318-321 | a request that arrives may be answered; a reply that arrives adds nothing to answer |
| WeakNetReach.Answers | node/algorithm/weaknet/weaknet.go:318-321 | each answer takes one request off, so a request is answered at most once |
| WeakNetReach.Converges | node/algorithm/weaknet/weaknet.go:270-348 | from every state a one-writer run reaches, the run can go on without a write until all nodes hold the join of the states they held there |
| WeakNet.Algorithm.constructor | node/algorithm/weaknet/weaknet.go:119-128 | an empty node |
| WeakNet.Algorithm.Set | node/algorithm/weaknet/weaknet.go:133-141 | the next version of the key, from 1 |
| WeakNet.Algorithm.GetPeerStats | node/algorithm/weaknet/weaknet.go:352-359 | existing statistics, or new ones with known version 0 |
| WeakNet.Algorithm.Delta | node/algorithm/weaknet/weaknet.go:325-333 | exactly the entries above the given version |
| WeakNet.Algorithm.MergeState | node/algorithm/weaknet/weaknet.go:337-348 | computes the merge, and the highest remote version |
| WeakNet.Algorithm.SendPushPull | node/algorithm/weaknet/weaknet.go:270-295 | the payload carries the delta above the version the peer is believed to know |
| WeakNet.Algorithm.HandlePushPull | node/algorithm/weaknet/weaknet.go:298-322 | merges, raises the known version, and answers requests but not replies |
| WeakNet.Algorithm.PurgeStalePeers | node/algorithm/weaknet/weaknet.go:378-387 | forgets exactly the peers heard from before the cutoff; never those not yet heard |
| WeakNetCluster.KnownVersionsStayZero | node/algorithm/weaknet/weaknet.go:298-308 | in every run, any node writing any key, known versions are 0 at all nodes and in all messages |
| WeakNetCluster.DeltaIsWholeState | node/algorithm/weaknet/weaknet.go:270-333 | in every run, any node writing any key, what a node sends is its complete state |
| WeakNetCluster.VersionsStartAtOne | node/algorithm/weaknet/weaknet.go:133-141 | in every run each version held or on its way is at least 1 |
| WeakNetCluster.Convergence | node/algorithm/weaknet/weaknet.go:270-348 | with one writer per key, once writing stops and requests and replies have led from every node to every other, all nodes hold the join of all states |
| WeakNetCluster.HopCarries | node/algorithm/weaknet/weaknet.go:298-348 | a request or reply that was merged leaves its receiver with all its sender had |
| WeakNetCluster.ExchangeJoins | node/algorithm/weaknet/weaknet.go:270-322 | with one writer per key, an undisturbed request and reply leaves both nodes with the join of their two states |
| WeakNetCluster.OwnersLead | node/algorithm/weaknet/weaknet.go:133-141 | with one writer per key, no version exceeds its owner's and equal versions carry equal values, deltas in flight included |
| Bytes.GetOfPut | node/transport/codec/codec.go:79-98 | reading back fixed-width little-endian fields yields the numbers written, whatever follows |
| Bytes.PutOfGet | node/transport/codec/codec.go:111-131 | writing the numbers read reproduces the bytes |
| Bytes.LeByte | node/transport/codec/codec.go:79-98 | byte k of a little-endian number is its digit k to the base 256 |
| Bytes.PutUint | node/transport/codec/codec.go:79-98 | writes a number little-endian in place and nothing before it |
| Bytes.Uint | node/transport/codec/codec.go:111-131 | reads the number at an offset |
| Bytes.CopyInto | node/transport/codec/codec.go:99 | copies as much as there is room for |
| Codec.ParseOfRaw | node/transport/codec/codec.go:74-144 | decoding a raw message yields it with its payload cut where the uint32 length wraps, whatever bytes follow |
| Codec.RawRoundTrip | node/transport/codec/codec.go:74-144 | the raw form is lossless if and only if the payload is shorter than 2^32 bytes |
| Codec.RawReprints | node/transport/codec/codec.go:104-144 | re-encoding what was decoded reproduces the first 33+PayloadLen bytes |
| Codec.Accepts | node/transport/codec/codec.go:105-136 | input is accepted if and only if it begins with the raw form of some message, that is, holds a header and the declared payload |
| Codec.RoundTrip | node/transport/codec/codec.go:31-71 | decoding an encoded message, compressed or not, gives it back if and only if the payload is shorter than 2^32 bytes |
| Codec.EncodingsDiffer | node/transport/codec/codec.go:31-51 | different messages are encoded differently |
| Codec.EncodedSize | node/transport/codec/codec.go:31-51 | an encoding is nonempty and at most 34 bytes longer than the payload |
| Codec.LooseForms | node/transport/codec/codec.go:59-70 | any flag byte but 1 is read as uncompressed, and bytes behind the payload are ignored |
| Codec.Layout | node/transport/codec/codec.go:74-101 | the offset and width of each field, least significant byte first, times in two's complement, and the payload behind byte 33 |
| Codec.CompressedWhen | node/transport/codec/codec.go:31-51 | the compressed form goes under flag 1, exactly for payloads of 256 bytes or more for which it is shorter; everything else goes as it is, under flag 0 |
| Codec.DecodedErrors | node/transport/codec/codec.go:54-136 | each way of failing and its error: nothing at all, what does not decompress, less than 33 bytes, less payload than declared |
| Codec.EncodeRaw | node/transport/codec/codec.go:74-101 | the cursor code fills the buffer with the specified bytes |
| Codec.DecodeRaw | node/transport/codec/codec.go:104-144 | the cursor code reads the specified message or error |
| Codec.Encode | node/transport/codec/codec.go:31-51 | compresses exactly payloads of 256 bytes or more for which that is shorter |
| Codec.Decode | node/transport/codec/codec.go:54-71 | the method decodes as specified, with each error case |
| Framing.StreamRoundTrip | node/transport/tcp/tcp.go:91-118 | reading the concatenated frames yields exactly the messages sent and uses up every byte |
| Framing.UniquelyDecodable | node/transport/tcp/tcp.go:194-216 | two different lists of messages make different streams |
| Framing.CutStream | node/transport/tcp/tcp.go:202-216 | a stream cut anywhere yields the first of the messages, whole, and then end of file |
| Framing.FrameRead | node/transport/tcp/tcp.go:202-216 | a frame is accepted if and only if its data is 1 to 65536 bytes long |
| Framing.FrameBytes | node/transport/tcp/tcp.go:194-199 | four bytes of length, least significant first, and then the data |
| Framing.MakeFrame | node/transport/tcp/tcp.go:194-199 | the buffer holds the length and the data |
| Framing.Conn.ReadFull | node/transport/tcp/tcp.go:203-213 | exactly n bytes, or an error with the stream used up |
| Framing.Conn.ReadFrame | node/transport/tcp/tcp.go:202-216 | the method reads one frame as specified, leaving the rest of the stream |

## Left out

- uint32 terms, log lengths and indices of Raft and uint64 versions and queue counters are unbounded numbers here; nothing is shown about their wrap-around.
- Raft's node identifiers are unbounded numbers; RaftDelivered, where they meet the wire, asks for the source's 16 bits.
- Timers, tickers and clocks: an election timeout or a heartbeat may happen at any moment, and what the clock reads is a parameter.
- JSON encoding of algorithm payloads: payloads are typed values; a payload that does not decode is a case of its own in Gossip.
- zlib: compression and decompression are parameters, of which only that the second undoes the first is assumed.
- container/heap is not part of the repository; its sift loops are written out over the queue's own Less, Swap, Push and Pop.
- A push to a send queue of capacity 0 indexes an empty heap in the source; Push asks for a capacity of at least 1.
- The order in which a Go map yields its keys is arbitrary in every loop, and Peers() may list peers in a different order at each call.
- Random choices (sampling, election timeouts) are arbitrary parameters.
- Sockets, connection pools, accept loops, goroutines, channels and the receive buffer that drops its oldest message: the network may lose anything.
- Stamping and queueing one message is one step here; in the source another goroutine may stamp in between.
- Peers added after start, crash recovery and membership changes, which the source declares out of scope.
- RaftCluster.Next: Raft's own priority queue, expiry and eviction are not modelled step by step there; a message they drop is one that is never delivered.
- Liveness of Raft: nothing says that a leader is ever elected, only what holds if one is.
- WeakNet's critical-message retransmission and choice of active peers: nothing in the source sends an acknowledgement.
- RaftSafety.StateMachineSafety: stated for runs with truthful and current replies only, because it is false of the code without either (RaftDivergence, RaftWitness); in clusters of up to two it needs neither (RaftPair).
- Metrics, configuration, command-line programs and formatting.
