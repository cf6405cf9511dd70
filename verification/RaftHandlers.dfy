/**
 What each handler of node/algorithm/raft/raft.go does, case by case, said of the fields and messages alone;
 and what that means where a handler's step meets others in a run.
 */
module RaftHandlers {
  import opened RaftNode
  import opened RaftCluster
  import opened RaftElection
  import opened RaftReplication
  import opened RaftSafety

  // ---------- Elections ----------

  /** The candidate's log, by its length and last term, is no older than `log`. */
  predicate AsUpToDate(lastIndex: nat, lastTerm: nat, log: seq<Entry>) {
    log == [] || lastTerm > log[|log| - 1].term || (lastTerm == log[|log| - 1].term && lastIndex >= |log|)
  }

  /** A request is granted in the term it names or, if that is later, takes the voter to it; by a voter that has
      no other candidate in that term and no newer log. Every request is answered, in the later of the terms. */
  lemma VoteAnswer(n: Node, from: Id, rv: Body)
    requires rv.RequestVote?
    ensures var f, newer := HandleRequestVote(n, from, rv), rv.term > n.currentTerm;
            var grants := rv.term >= n.currentTerm && AsUpToDate(rv.lastLogIndex, rv.lastLogTerm, n.log)
                          && (newer || n.votedFor == 0 || n.votedFor == rv.candidateId);
            && f.out == [Send(from, VoteReply(if newer then rv.term else n.currentTerm, grants))]
            && f.node == n.(currentTerm := if newer then rv.term else n.currentTerm,
                            role := if newer then Follower else n.role,
                            votedFor := if grants then rv.candidateId else if newer then 0 else n.votedFor)
  {
  }

  /** A candidate that was granted a vote is granted it again when it repeats the request; nobody else is. */
  lemma VoteAgain(n: Node, from: Id, rv: Body, from': Id, rv': Body)
    requires rv.RequestVote? && rv'.RequestVote? && rv'.term == rv.term && rv.candidateId != 0
    requires HandleRequestVote(n, from, rv).out == [Send(from, VoteReply(rv.term, true))]
    ensures var n' := HandleRequestVote(n, from, rv).node;
            && (rv' == rv ==> HandleRequestVote(n', from', rv') == Effect(n', [Send(from', VoteReply(rv.term, true))]))
            && (rv'.candidateId != rv.candidateId ==>
                  HandleRequestVote(n', from', rv') == Effect(n', [Send(from', VoteReply(rv.term, false))]))
  {
    hide HandleRequestVote, AsUpToDate;
    VoteAnswer(n, from, rv);
    VoteAnswer(HandleRequestVote(n, from, rv).node, from', rv');
  }

  /** A candidate's timer takes it to the next term, with its own vote and a request to each peer. */
  lemma Stands(n: Node, peers: seq<Id>)
    ensures var f, t := StartElection(n, peers), n.currentTerm + 1;
            var ask := RequestVote(t, n.id, |n.log|, if n.log == [] then 0 else n.log[|n.log| - 1].term);
            && f.node == n.(currentTerm := t, role := Candidate, votedFor := n.id, votesReceived := 1)
            && |f.out| == |peers| && forall k :: 0 <= k < |peers| ==> f.out[k] == Send(peers[k], ask)
  {
    assert LastIndex(n.log) == |n.log| && LastTerm(n.log) == if n.log == [] then 0 else n.log[|n.log| - 1].term;
  }

  /** `s` carries to `p` what leader `n` has from its nextIndex on, behind the entry before it. */
  ghost predicate Carries(n: Node, p: Id, s: Send) {
    && s.to == p && s.body.AppendEntries? && s.body.term == n.currentTerm && s.body.leaderId == n.id
    && s.body.leaderCommit == n.commitIndex && p in n.nextIndex && s.body.prevLogIndex + 1 == n.nextIndex[p]
    && CarriesFrom(n.log, s.body.prevLogIndex, s.body.prevLogTerm, s.body.entries)
  }

  /** Where `prev` lies beyond the log, its term reads 0 and there is nothing to carry. */
  ghost predicate CarriesFrom(log: seq<Entry>, prev: nat, prevTerm: nat, entries: seq<Entry>) {
    && (1 <= prev <= |log| ==> prevTerm == log[prev - 1].term)
    && (prev == 0 || prev > |log| ==> prevTerm == 0)
    && (if prev <= |log| then log == log[..prev] + entries else entries == [])
  }

  ghost predicate CarriesToAll(n: Node, peers: seq<Id>, out: seq<Send>) {
    |out| == |peers| && forall k :: 0 <= k < |peers| ==> Carries(n, peers[k], out[k])
  }

  lemma AppendCarries(n: Node, p: Id)
    requires CanSendTo(n, p)
    ensures Carries(n, p, Append(n, p))
  {
    var prev := n.nextIndex[p] - 1;
    if prev <= |n.log| {
      assert n.log == n.log[..prev] + n.log[prev..];
      assert prev == |n.log| ==> n.log[prev..] == [];
    }
  }

  lemma BroadcastCarries(n: Node, peers: seq<Id>)
    requires CanSend(n, peers)
    ensures CarriesToAll(n, peers, Broadcast(n, peers))
  {
    hide Append, Carries;
    forall k | 0 <= k < |peers| ensures Carries(n, peers[k], Broadcast(n, peers)[k]) {
      assert CanSendTo(n, peers[k]);
      AppendCarries(n, peers[k]);
    }
  }

  /** A granted vote of its term is counted by a candidate, and the one that makes len(peers)/2 + 1 makes it a
      leader, which then sends to each peer from the end of its log; other votes of no later term change nothing. */
  lemma VoteCounted(n: Node, reply: Body, peers: seq<Id>)
    requires reply.VoteReply? && reply.term <= n.currentTerm
    ensures var f := HandleVoteReply(n, reply, peers);
            if n.role != Candidate || reply.term < n.currentTerm || !reply.granted then f == Effect(n, [])
            else if n.votesReceived + 1 < |peers| / 2 + 1 then
              f == Effect(n.(votesReceived := n.votesReceived + 1), [])
            else
              && f.node == n.(votesReceived := n.votesReceived + 1, role := Leader, leaderId := n.id,
                              nextIndex := f.node.nextIndex, matchIndex := f.node.matchIndex)
              && Tracks(n.nextIndex, f.node.nextIndex, peers, |n.log| + 1)
              && Tracks(n.matchIndex, f.node.matchIndex, peers, 0)
              && CarriesToAll(f.node, peers, f.out)
  {
    hide Broadcast, CarriesToAll, SetAll, Tracks;
    SetTracks(n.nextIndex, peers, |n.log| + 1);
    SetTracks(n.matchIndex, peers, 0);
    var f := HandleVoteReply(n, reply, peers);
    if f.node.role == Leader && n.role == Candidate {
      BroadcastCarries(f.node, peers);
    }
  }

  ghost predicate Tracks(m: map<Id, nat>, m': map<Id, nat>, peers: seq<Id>, v: nat) {
    && (forall p :: p in m' <==> p in m || p in peers)
    && forall p :: p in m' ==> m'[p] == if p in peers then v else m[p]
  }

  lemma SetTracks(m: map<Id, nat>, peers: seq<Id>, v: nat)
    ensures Tracks(m, SetAll(m, peers, v), peers, v)
  {
  }

  // ---------- Proposals and heartbeats ----------

  lemma Proposed(n: Node, cmd: Command, peers: seq<Id>)
    requires n.role == Leader ==> CanSend(n, peers)
    ensures var f := Propose(n, cmd, peers);
            if n.role == Leader then
              f.node == n.(log := n.log + [Entry(n.currentTerm, cmd)]) && CarriesToAll(f.node, peers, f.out)
            else f == Effect(n, [])
  {
    hide Broadcast, CarriesToAll;
    if n.role == Leader {
      BroadcastCarries(n.(log := n.log + [Entry(n.currentTerm, cmd)]), peers);
    }
  }

  lemma Beats(n: Node, peers: seq<Id>)
    requires n.role == Leader ==> CanSend(n, peers)
    ensures var f := Heartbeat(n, peers);
            f.node == n && if n.role == Leader then CarriesToAll(n, peers, f.out) else f.out == []
  {
    hide Broadcast, CarriesToAll;
    if n.role == Leader {
      BroadcastCarries(n, peers);
    }
  }

  // ---------- AppendEntries ----------

  /** A message of an earlier term changes nothing, and is answered with the term its sender has missed. */
  lemma StaleAppend(n: Node, from: Id, ae: Body)
    requires ae.AppendEntries? && ae.term < n.currentTerm
    ensures HandleAppendEntries(n, from, ae) == Effect(n, [Send(from, AppendReply(n.currentTerm, false, 0))])
  {
  }

  /** The receiver lacks the entry the message goes on from. */
  predicate Missing(log: seq<Entry>, prev: nat, prevTerm: nat) {
    prev > 0 && (prev > |log| || log[prev - 1].term != prevTerm)
  }

  /** Any other makes the receiver a follower of its term and its leader. Where the receiver lacks the entry it
      goes on from, that is all, and the answer is a refusal; both carry the term the receiver was in. */
  lemma RefusedAppend(n: Node, from: Id, ae: Body)
    requires ae.AppendEntries? && ae.term >= n.currentTerm && Missing(n.log, ae.prevLogIndex, ae.prevLogTerm)
    ensures HandleAppendEntries(n, from, ae) == Effect(
              n.(currentTerm := ae.term, role := Follower, leaderId := ae.leaderId,
                 votedFor := if ae.term > n.currentTerm then 0 else n.votedFor),
              [Send(from, AppendReply(n.currentTerm, false, 0))])
  {
    hide Overwrite, FollowCommit;
  }

  /** What the entry loop leaves of `log`. */
  ghost predicate Replaced(log: seq<Entry>, prev: nat, entries: seq<Entry>, log': seq<Entry>) {
    if AllPresent(log, prev, entries) then log' == log
    else exists c: nat :: FirstProblem(log, prev, entries, c) && log' == log[..c] + entries[c - prev..]
  }

  lemma LoopReplaces(log: seq<Entry>, prev: nat, entries: seq<Entry>)
    requires prev <= |log|
    ensures Replaced(log, prev, entries, Overwrite(log, prev, entries))
  {
    hide Overwrite, AllPresent, FirstProblem;
    OverwriteContract(log, prev, entries);
  }

  /** From `n` to `n'` a follower's commit index follows the leader's as far as the log reaches, and never goes
      on its own account; what is newly committed is applied. */
  ghost predicate Learns(n: Node, leaderCommit: nat, n': Node) {
    && AppliesMore(n, n')
    && if leaderCommit <= n.commitIndex then n'.commitIndex == n.commitIndex && n'.lastApplied == n.lastApplied
       else
         && n'.commitIndex == (if leaderCommit < |n'.log| then leaderCommit else |n'.log|)
         && n'.lastApplied == if n.lastApplied < n'.commitIndex then n'.commitIndex else n.lastApplied
  }

  lemma FollowLearns(n: Node, leaderCommit: nat)
    ensures Learns(n, leaderCommit, FollowCommit(n, leaderCommit))
  {
    FollowCommitSound(n, leaderCommit);
    hide AppliesMore;
  }

  lemma LearnsToo(n: Node, m: Node, leaderCommit: nat, n': Node)
    requires Learns(m, leaderCommit, n') && m.lastApplied == n.lastApplied && m.applied == n.applied
    requires m.commitIndex == n.commitIndex
    ensures Learns(n, leaderCommit, n')
  {
  }

  /** A message of no earlier term that goes on from an entry the receiver has is taken, and the answer says how
      long the log now is. */
  lemma AcceptedAppend(n: Node, from: Id, ae: Body)
    requires ae.AppendEntries? && ae.term >= n.currentTerm && !Missing(n.log, ae.prevLogIndex, ae.prevLogTerm)
    ensures var f := HandleAppendEntries(n, from, ae);
            var n' := f.node;
            && n' == n.(currentTerm := ae.term, role := Follower, leaderId := ae.leaderId,
                        votedFor := if ae.term > n.currentTerm then 0 else n.votedFor, log := n'.log,
                        commitIndex := n'.commitIndex, lastApplied := n'.lastApplied, applied := n'.applied)
            && Replaced(n.log, ae.prevLogIndex, ae.entries, n'.log) && Learns(n, ae.leaderCommit, n')
            && f.out == [Send(from, AppendReply(n.currentTerm, true, |n'.log|))]
  {
    hide Overwrite, Replaced, Learns, FollowCommit;
    LoopReplaces(n.log, ae.prevLogIndex, ae.entries);
    var m := ContactFrom(n, ae).(log := Overwrite(n.log, ae.prevLogIndex, ae.entries));
    FollowLearns(m, ae.leaderCommit);
    LearnsToo(n, m, ae.leaderCommit, FollowCommit(m, ae.leaderCommit));
  }

  // ---------- Replies to AppendEntries ----------

  /** Index `k` is replicated on a majority, under entries of the current term up to the end of the log. */
  ghost predicate Committable(n: Node, peers: seq<Id>, k: nat) {
    && n.commitIndex < k <= |n.log| && (forall j :: k - 1 <= j < |n.log| ==> n.log[j].term == n.currentTerm)
    && 1 + |set p | p in n.matchIndex && n.matchIndex[p] >= k| > (|peers| + 1) / 2
  }

  lemma {:induction false} ScanReaches(n: Node, peers: seq<Id>, k: nat, m: nat)
    requires Committable(n, peers, k) && k <= m <= |n.log|
    ensures CommitScan(n, peers, m) >= k
    decreases m
  {
    assert n.log[m - 1].term == n.currentTerm;
    if m > k {
      ScanReaches(n, peers, k, m - 1);
    } else {
      assert Matching(n.matchIndex, k) == set p | p in n.matchIndex && n.matchIndex[p] >= k;
    }
  }

  lemma {:induction false} ScanStops(n: Node, peers: seq<Id>, m: nat)
    requires m <= |n.log| && (forall j :: m <= j < |n.log| ==> n.log[j].term == n.currentTerm)
    ensures CommitScan(n, peers, m) == n.commitIndex || Committable(n, peers, CommitScan(n, peers, m))
    decreases m
  {
    if m > n.commitIndex && n.log[m - 1].term == n.currentTerm {
      assert Matching(n.matchIndex, m) == set p | p in n.matchIndex && n.matchIndex[p] >= m;
      if !Replicates(n, peers, m) {
        ScanStops(n, peers, m - 1);
      }
    }
  }

  /** The index a leader commits: the highest there is to commit, all up to it then applied. */
  lemma Commits(n: Node, peers: seq<Id>)
    ensures var n' := MaybeCommit(n, peers);
            && n' == n.(commitIndex := n'.commitIndex, lastApplied := n'.lastApplied, applied := n'.applied)
            && n.commitIndex <= n'.commitIndex
            && (if n'.commitIndex == n.commitIndex then n' == n else Committable(n, peers, n'.commitIndex))
            && (forall k: nat :: Committable(n, peers, k) ==> k <= n'.commitIndex <= n'.lastApplied)
            && AppliesMore(n, n')
  {
    hide CommitScan, Committable, ApplyCommitted;
    MaybeCommitSound(n, peers);
    ScanStops(n, peers, |n.log|);
    CommitScanBounds(n, peers, |n.log|);
    forall k: nat | Committable(n, peers, k) ensures k <= CommitScan(n, peers, |n.log|) && n.commitIndex < k {
      InRange(n, peers, k);
      ScanReaches(n, peers, k, |n.log|);
    }
  }

  lemma InRange(n: Node, peers: seq<Id>, k: nat)
    requires Committable(n, peers, k)
    ensures n.commitIndex < k <= |n.log|
  {
  }

  /** A leader takes a success reply down and commits the highest index there then is to commit: none is left. */
  lemma ReplyCommits(n: Node, from: Id, reply: Body, peers: seq<Id>)
    requires reply.AppendReply? && reply.success && reply.term <= n.currentTerm && n.role == Leader
    ensures var f := HandleAppendReply(n, from, reply, peers);
            var was, n' := n.(matchIndex := n.matchIndex[from := reply.matchIndex]), f.node;
            && f.out == []
            && n' == was.(nextIndex := n.nextIndex[from := reply.matchIndex + 1], commitIndex := n'.commitIndex,
                          lastApplied := n'.lastApplied, applied := n'.applied)
            && (forall k: nat :: Committable(was, peers, k) ==> k <= n'.commitIndex <= n'.lastApplied)
            && (n'.commitIndex == n.commitIndex || Committable(was, peers, n'.commitIndex))
            && (n'.commitIndex == n.commitIndex ==> n'.lastApplied == n.lastApplied)
            && AppliesMore(n, n') && forall k: nat :: !Committable(n', peers, k)
  {
    hide MaybeCommit, Committable;
    var f := HandleAppendReply(n, from, reply, peers);
    var was := n.(matchIndex := n.matchIndex[from := reply.matchIndex]);
    var noted := was.(nextIndex := n.nextIndex[from := reply.matchIndex + 1]);
    Commits(noted, peers);
    forall k: nat ensures Committable(was, peers, k) == Committable(noted, peers, k) {
      SameCommittable(was, noted, peers, k);
    }
    forall k: nat ensures !Committable(f.node, peers, k) {
      HigherCommittable(noted, f.node, peers, k);
    }
  }

  lemma SameCommittable(n: Node, n': Node, peers: seq<Id>, k: nat)
    requires n'.log == n.log && n'.currentTerm == n.currentTerm && n'.matchIndex == n.matchIndex
    requires n'.commitIndex == n.commitIndex
    ensures Committable(n, peers, k) == Committable(n', peers, k)
  {
  }

  lemma HigherCommittable(n: Node, n': Node, peers: seq<Id>, k: nat)
    requires n'.log == n.log && n'.currentTerm == n.currentTerm && n'.matchIndex == n.matchIndex
    requires n'.commitIndex >= n.commitIndex
    ensures Committable(n', peers, k) ==> Committable(n, peers, k) && k > n'.commitIndex
  {
  }

  /** An index committed this way is applied, with the command the leader has at it. */
  lemma ReplyApplies(n: Node, from: Id, reply: Body, peers: seq<Id>, k: nat)
    requires reply.AppendReply? && reply.success && reply.term <= n.currentTerm && n.role == Leader
    requires Committable(n.(matchIndex := n.matchIndex[from := reply.matchIndex]), peers, k)
    requires |n.applied| == n.lastApplied < k
    ensures var n' := HandleAppendReply(n, from, reply, peers).node;
            k <= |n'.applied| && n'.applied[k - 1] == Applied(k, n.log[k - 1].command)
  {
    hide HandleAppendReply;
    ReplyCommits(n, from, reply, peers);
    var n' := HandleAppendReply(n, from, reply, peers).node;
    assert n'.applied[|n.applied| + (k - 1 - n.lastApplied)] == Applied(k - 1 + 1, n'.log[k - 1].command);
  }

  /** A refusal makes a leader try again one entry earlier, if there is one; who does not lead ignores replies. */
  lemma ReplyBacksOff(n: Node, from: Id, reply: Body, peers: seq<Id>)
    requires reply.AppendReply? && reply.term <= n.currentTerm && (n.role == Leader ==> !reply.success)
    requires CanAnswer(n, from, reply)
    ensures var f := HandleAppendReply(n, from, reply, peers);
            if n.role == Leader then
              && from in n.nextIndex && |f.out| == 1 && Carries(f.node, from, f.out[0])
              && var next := n.nextIndex[from];
                 f.node == n.(nextIndex := n.nextIndex[from := if next > 1 then next - 1 else next])
            else f == Effect(n, [])
  {
    hide Append, Carries;
    if n.role == Leader {
      AppendCarries(HandleAppendReply(n, from, reply, peers).node, from);
    }
  }

  // ---------- Terms ----------

  /** Whatever the message: its receiver ends in the later of the two terms, and one of a later term leaves it a
      follower. */
  lemma TermTaken(n: Node, p: Packet, peers: seq<Id>)
    requires p.body.AppendReply? ==> CanAnswer(n, p.from, p.body)
    ensures var n' := Receive(n, p, peers).node;
            && n'.currentTerm == (if p.body.term > n.currentTerm then p.body.term else n.currentTerm)
            && (p.body.term > n.currentTerm ==> n'.role == Follower)
            && n'.id == n.id
  {
    hide MaybeCommit, FollowCommit, Overwrite, Append, Broadcast, SetAll, UpToDate;
  }

  /** A reply of a later term does nothing else: it takes back the receiver's vote of its old term. */
  lemma ReplyDeposes(n: Node, p: Packet, peers: seq<Id>)
    requires p.body.VoteReply? || p.body.AppendReply?
    requires p.body.term > n.currentTerm
    ensures Receive(n, p, peers) == Effect(n.(currentTerm := p.body.term, role := Follower, votedFor := 0), [])
  {
  }

  /** Both kinds of request are answered, by one reply to their sender. */
  lemma RequestsAnswered(n: Node, p: Packet, peers: seq<Id>)
    requires p.body.RequestVote? || p.body.AppendEntries?
    ensures var f := Receive(n, p, peers);
            |f.out| == 1 && f.out[0].to == p.from && f.out[0].body.term >= n.currentTerm
            && if p.body.RequestVote? then f.out[0].body.VoteReply? else f.out[0].body.AppendReply?
  {
    hide FollowCommit, Overwrite, UpToDate;
  }
}
