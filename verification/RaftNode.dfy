/**
 One Raft node as a value, and each handler of node/algorithm/raft/raft.go as a function from a
 node state to the next node state and the messages it sends.

 Every handler of the source runs under the node's lock, so each function here is one atomic step.
 `peers` is what `node.Peers()` returned during that step: the source builds it by iterating over
 a map, so its order may differ from call to call.
 */
module RaftNode {

  // Node identifiers are at least 1; 0 means "none".
  type Id = nat

  type Command = seq<nat>

  datatype Entry = Entry(term: nat, command: Command)

  datatype Role = Follower | Candidate | Leader

  // One call of the apply callback.
  datatype Applied = Applied(index: nat, command: Command)

  datatype Node = Node(
    id: Id,
    currentTerm: nat,
    votedFor: Id,
    log: seq<Entry>,
    role: Role,
    commitIndex: nat,
    lastApplied: nat,
    leaderId: Id,
    nextIndex: map<Id, nat>,
    matchIndex: map<Id, nat>,
    votesReceived: nat,
    applied: seq<Applied>)

  datatype Body =
    | RequestVote(term: nat, candidateId: Id, lastLogIndex: nat, lastLogTerm: nat)
    | VoteReply(term: nat, granted: bool)
    | AppendEntries(term: nat, leaderId: Id, prevLogIndex: nat, prevLogTerm: nat,
                    entries: seq<Entry>, leaderCommit: nat)
    | AppendReply(term: nat, success: bool, matchIndex: nat)

  datatype Send = Send(to: Id, body: Body)

  datatype Effect = Effect(node: Node, out: seq<Send>)

  function New(id: Id): Node {
    Node(id, 0, 0, [], Follower, 0, 0, 0, map[], map[], 0, [])
  }

  // A Go map lookup: a missing key reads as zero.
  function Lookup(m: map<Id, nat>, k: Id): nat {
    if k in m then m[k] else 0
  }

  function LastIndex(log: seq<Entry>): nat {
    |log|
  }

  function LastTerm(log: seq<Entry>): nat {
    if |log| == 0 then 0 else log[|log| - 1].term
  }

  /** Sending to `p` slices the log at nextIndex[p]-1, which the source can only do when it is at least 1. */
  predicate CanSendTo(n: Node, p: Id) {
    1 <= Lookup(n.nextIndex, p)
  }

  predicate CanSend(n: Node, peers: seq<Id>) {
    forall p <- peers :: CanSendTo(n, p)
  }

  // ---------- Term changes and elections ----------

  function StepDown(n: Node, term: nat): Node {
    n.(currentTerm := term, role := Follower, votedFor := 0)
  }

  function StartElection(n: Node, peers: seq<Id>): Effect {
    var n' := n.(role := Candidate, currentTerm := n.currentTerm + 1, votedFor := n.id, votesReceived := 1);
    Effect(n', seq(|peers|, k requires 0 <= k < |peers| =>
      Send(peers[k], RequestVote(n'.currentTerm, n'.id, LastIndex(n'.log), LastTerm(n'.log)))))
  }

  predicate UpToDate(lastTerm: nat, lastIndex: nat, log: seq<Entry>) {
    lastTerm > LastTerm(log) || (lastTerm == LastTerm(log) && lastIndex >= LastIndex(log))
  }

  function HandleRequestVote(n: Node, from: Id, rv: Body): Effect
    requires rv.RequestVote?
  {
    var n1 := if rv.term > n.currentTerm then StepDown(n, rv.term) else n;
    if rv.term == n1.currentTerm && UpToDate(rv.lastLogTerm, rv.lastLogIndex, n1.log)
       && (n1.votedFor == 0 || n1.votedFor == rv.candidateId)
    then Effect(n1.(votedFor := rv.candidateId), [Send(from, VoteReply(n1.currentTerm, true))])
    else Effect(n1, [Send(from, VoteReply(n1.currentTerm, false))])
  }

  /** The vote threshold of the source: `len(Peers())/2 + 1`, where Peers leaves out the node itself. */
  function ElectionMajority(peers: seq<Id>): nat {
    |peers| / 2 + 1
  }

  function SetAll(m: map<Id, nat>, keys: seq<Id>, v: nat): (r: map<Id, nat>)
    ensures forall p :: p in keys ==> p in r && r[p] == v
    ensures forall p :: p in r && p !in keys ==> p in m && r[p] == m[p]
    ensures forall p :: p in m ==> p in r
  {
    m + (map p | p in keys :: v)
  }

  lemma SetAllNext(m: map<Id, nat>, keys: seq<Id>, k: nat, v: nat)
    requires k < |keys|
    ensures SetAll(m, keys[..k + 1], v) == SetAll(m, keys[..k], v)[keys[k] := v]
  {
    assert keys[..k + 1] == keys[..k] + [keys[k]];
  }

  lemma SetAllNone(m: map<Id, nat>, v: nat)
    ensures SetAll(m, [], v) == m
  {
  }

  function BecomeLeader(n: Node, peers: seq<Id>): (e: Effect)
    ensures CanSend(e.node, peers)
  {
    var n' := n.(role := Leader, leaderId := n.id,
      nextIndex := SetAll(n.nextIndex, peers, |n.log| + 1),
      matchIndex := SetAll(n.matchIndex, peers, 0));
    Effect(n', Broadcast(n', peers))
  }

  function HandleVoteReply(n: Node, rvr: Body, peers: seq<Id>): Effect
    requires rvr.VoteReply?
  {
    if rvr.term > n.currentTerm then Effect(StepDown(n, rvr.term), [])
    else if n.role != Candidate || rvr.term != n.currentTerm || !rvr.granted then Effect(n, [])
    else
      var n1 := n.(votesReceived := n.votesReceived + 1);
      if n1.votesReceived >= ElectionMajority(peers) then BecomeLeader(n1, peers) else Effect(n1, [])
  }

  // ---------- Replication ----------

  function PrevTerm(log: seq<Entry>, prev: nat): nat {
    if 1 <= prev <= |log| then log[prev - 1].term else 0
  }

  function Append(n: Node, p: Id): Send
    requires CanSendTo(n, p)
  {
    var next := Lookup(n.nextIndex, p);
    Send(p, AppendEntries(n.currentTerm, n.id, next - 1, PrevTerm(n.log, next - 1),
      if next - 1 < |n.log| then n.log[next - 1..] else [], n.commitIndex))
  }

  function Broadcast(n: Node, peers: seq<Id>): seq<Send>
    requires CanSend(n, peers)
  {
    seq(|peers|, k requires 0 <= k < |peers| => Append(n, peers[k]))
  }

  function Propose(n: Node, cmd: Command, peers: seq<Id>): Effect
    requires n.role == Leader ==> CanSend(n, peers)
  {
    if n.role != Leader then Effect(n, [])
    else
      var n' := n.(log := n.log + [Entry(n.currentTerm, cmd)]);
      Effect(n', Broadcast(n', peers))
  }

  function Heartbeat(n: Node, peers: seq<Id>): Effect
    requires n.role == Leader ==> CanSend(n, peers)
  {
    if n.role == Leader then Effect(n, Broadcast(n, peers)) else Effect(n, [])
  }

  predicate Consistent(log: seq<Entry>, prev: nat, prevTerm: nat) {
    prev == 0 || (prev <= |log| && log[prev - 1].term == prevTerm)
  }

  /** The first index from `i` on, below prev+|entries|, that `log` lacks or holds with another term. */
  function FirstGap(log: seq<Entry>, prev: nat, entries: seq<Entry>, i: nat): (c: nat)
    requires prev <= i <= prev + |entries|
    requires i <= |log|
    ensures i <= c <= prev + |entries| && c <= |log|
    ensures forall k :: i <= k < c ==> log[k].term == entries[k - prev].term
    ensures c == prev + |entries| || c == |log| || log[c].term != entries[c - prev].term
    decreases prev + |entries| - i
  {
    if i < prev + |entries| && i < |log| && log[i].term == entries[i - prev].term
    then FirstGap(log, prev, entries, i + 1)
    else i
  }

  /** The log after an accepted AppendEntries: cut at the first gap and filled from the message. */
  function Overwrite(log: seq<Entry>, prev: nat, entries: seq<Entry>): seq<Entry>
    requires prev <= |log|
  {
    var c := FirstGap(log, prev, entries, prev);
    if c == prev + |entries| then log else log[..c] + entries[c - prev..]
  }

  // ---------- Commit and apply ----------

  function ApplyCommitted(n: Node): (r: Node)
    requires n.lastApplied < n.commitIndex ==> n.commitIndex <= |n.log|
    ensures r == n.(lastApplied := r.lastApplied, applied := r.applied)
    ensures r.commitIndex <= r.lastApplied
  {
    if n.lastApplied < n.commitIndex then
      n.(lastApplied := n.commitIndex,
         applied := n.applied + seq(n.commitIndex - n.lastApplied,
           j requires 0 <= j < n.commitIndex - n.lastApplied =>
             Applied(n.lastApplied + j + 1, n.log[n.lastApplied + j].command)))
    else n
  }

  function Min(a: nat, b: nat): nat {
    if a < b then a else b
  }

  function FollowCommit(n: Node, leaderCommit: nat): (r: Node)
    ensures r == n.(commitIndex := r.commitIndex, lastApplied := r.lastApplied, applied := r.applied)
  {
    if leaderCommit > n.commitIndex
    then ApplyCommitted(n.(commitIndex := Min(leaderCommit, |n.log|)))
    else n
  }

  function ContactFrom(n: Node, ae: Body): Node
    requires ae.AppendEntries?
  {
    (if ae.term > n.currentTerm then StepDown(n, ae.term) else n.(role := Follower)).(leaderId := ae.leaderId)
  }

  predicate Accepts(n: Node, ae: Body)
    requires ae.AppendEntries?
  {
    n.currentTerm <= ae.term && Consistent(n.log, ae.prevLogIndex, ae.prevLogTerm)
  }

  // The reply carries the term read before any step-down.
  function HandleAppendEntries(n: Node, from: Id, ae: Body): Effect
    requires ae.AppendEntries?
  {
    if ae.term < n.currentTerm then Effect(n, [Send(from, AppendReply(n.currentTerm, false, 0))])
    else if !Consistent(n.log, ae.prevLogIndex, ae.prevLogTerm) then
      Effect(ContactFrom(n, ae), [Send(from, AppendReply(n.currentTerm, false, 0))])
    else
      var log' := Overwrite(n.log, ae.prevLogIndex, ae.entries);
      Effect(FollowCommit(ContactFrom(n, ae).(log := log'), ae.leaderCommit),
             [Send(from, AppendReply(n.currentTerm, true, |log'|))])
  }

  function Matching(m: map<Id, nat>, k: nat): set<Id> {
    set p | p in m && m[p] >= k
  }

  predicate Replicates(n: Node, peers: seq<Id>, k: nat) {
    1 + |Matching(n.matchIndex, k)| > (|peers| + 1) / 2
  }

  /** The scan of maybeCommit, from index `k` down: where the commit index ends up. */
  function CommitScan(n: Node, peers: seq<Id>, k: nat): nat
    requires k <= |n.log|
    decreases k
  {
    if k <= n.commitIndex || n.log[k - 1].term != n.currentTerm then n.commitIndex
    else if Replicates(n, peers, k) then k
    else CommitScan(n, peers, k - 1)
  }

  function MaybeCommit(n: Node, peers: seq<Id>): (r: Node)
    ensures r == n.(commitIndex := r.commitIndex, lastApplied := r.lastApplied, applied := r.applied)
  {
    var c := CommitScan(n, peers, |n.log|);
    if c > n.commitIndex then
      CommitScanBounds(n, peers, |n.log|);
      ApplyCommitted(n.(commitIndex := c))
    else n
  }

  lemma CommitScanBounds(n: Node, peers: seq<Id>, k: nat)
    requires k <= |n.log|
    ensures CommitScan(n, peers, k) == n.commitIndex || n.commitIndex < CommitScan(n, peers, k) <= k
    decreases k
  {
  }

  /** A refusal makes a leader send again, which the source can only do to a peer it tracks. */
  predicate CanAnswer(n: Node, from: Id, ar: Body)
    requires ar.AppendReply?
  {
    n.role == Leader && ar.term <= n.currentTerm && !ar.success ==> CanSendTo(n, from)
  }

  function HandleAppendReply(n: Node, from: Id, ar: Body, peers: seq<Id>): Effect
    requires ar.AppendReply? && CanAnswer(n, from, ar)
  {
    if ar.term > n.currentTerm then Effect(StepDown(n, ar.term), [])
    else if n.role != Leader then Effect(n, [])
    else if ar.success then
      Effect(MaybeCommit(n.(matchIndex := n.matchIndex[from := ar.matchIndex],
                            nextIndex := n.nextIndex[from := ar.matchIndex + 1]), peers), [])
    else
      var next := Lookup(n.nextIndex, from);
      var n' := if next > 1 then n.(nextIndex := n.nextIndex[from := next - 1]) else n;
      Effect(n', [Append(n', from)])
  }
}
