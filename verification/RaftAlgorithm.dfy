/**
 The Algorithm object of node/algorithm/raft/raft.go. Each method follows the handler of the same
 name, updating the fields in place, and is proved to leave the object in the state, and to send
 the messages, that the function of module RaftNode gives.
 */
module RaftAlgorithm {
  import opened RaftNode

  class Algorithm {
    const id: Id
    var currentTerm: nat
    var votedFor: Id
    var log: seq<Entry>
    var role: Role
    var commitIndex: nat
    var lastApplied: nat
    var leaderId: Id
    var nextIndex: map<Id, nat>
    var matchIndex: map<Id, nat>
    var votesReceived: nat
    var applied: seq<Applied>   // the calls made to the apply callback

    ghost function State(): Node
      reads this
    {
      Node(id, currentTerm, votedFor, log, role, commitIndex, lastApplied, leaderId,
           nextIndex, matchIndex, votesReceived, applied)
    }

    constructor (id: Id)
      ensures State() == New(id) && this.id == id && role == Follower && log == [] && applied == []
      ensures currentTerm == 0 == votedFor && commitIndex == 0 == lastApplied && leaderId == 0 == votesReceived
      ensures nextIndex == map[] == matchIndex
    {
      this.id := id;
      currentTerm, votedFor, log, role := 0, 0, [], Follower;
      commitIndex, lastApplied, leaderId := 0, 0, 0;
      nextIndex, matchIndex, votesReceived, applied := map[], map[], 0, [];
    }

    method Propose(cmd: Command, peers: seq<Id>) returns (ok: bool, out: seq<Send>)
      requires role == Leader ==> CanSend(State(), peers)
      modifies this
      ensures Effect(State(), out) == RaftNode.Propose(old(State()), cmd, peers)
      ensures ok <==> old(role) == Leader
    {
      if role != Leader {
        return false, [];
      }
      log := log + [Entry(currentTerm, cmd)];
      out := BroadcastAppendEntries(peers);
      ok := true;
    }

    method OnHeartbeatTick(peers: seq<Id>) returns (out: seq<Send>)
      requires role == Leader ==> CanSend(State(), peers)
      ensures Effect(State(), out) == Heartbeat(State(), peers)
    {
      out := [];
      if role == Leader {
        out := BroadcastAppendEntries(peers);
      }
    }

    method StepDown(term: nat)
      modifies this
      ensures State() == RaftNode.StepDown(old(State()), term)
    {
      currentTerm := term;
      role := Follower;
      votedFor := 0;
    }

    method StartElection(peers: seq<Id>) returns (out: seq<Send>)
      modifies this
      ensures Effect(State(), out) == RaftNode.StartElection(old(State()), peers)
    {
      role := Candidate;
      currentTerm := currentTerm + 1;
      votedFor := id;
      votesReceived := 1;
      var lastIdx, lastTerm := LastLogInfo();
      var request := RequestVote(currentTerm, id, lastIdx, lastTerm);
      out := [];
      for k := 0 to |peers|
        invariant |out| == k && forall j :: 0 <= j < k ==> out[j] == Send(peers[j], request)
      {
        out := out + [Send(peers[k], request)];
      }
    }

    method BecomeLeader(peers: seq<Id>) returns (out: seq<Send>)
      modifies this
      ensures Effect(State(), out) == RaftNode.BecomeLeader(old(State()), peers)
    {
      hide SetAll, Broadcast;
      role := Leader;
      leaderId := id;
      TrackPeers(peers, |log| + 1);
      out := BroadcastAppendEntries(peers);
    }

    /** The loop of becomeLeader that starts tracking every peer. */
    method TrackPeers(peers: seq<Id>, nextIdx: nat)
      modifies this`nextIndex, this`matchIndex
      ensures nextIndex == SetAll(old(nextIndex), peers, nextIdx)
      ensures matchIndex == SetAll(old(matchIndex), peers, 0)
    {
      hide SetAll;
      SetAllNone(nextIndex, nextIdx);
      SetAllNone(matchIndex, 0);
      for k := 0 to |peers|
        invariant nextIndex == SetAll(old(nextIndex), peers[..k], nextIdx)
        invariant matchIndex == SetAll(old(matchIndex), peers[..k], 0)
      {
        SetAllNext(old(nextIndex), peers, k, nextIdx);
        SetAllNext(old(matchIndex), peers, k, 0);
        nextIndex := nextIndex[peers[k] := nextIdx];
        matchIndex := matchIndex[peers[k] := 0];
      }
      assert peers[..|peers|] == peers;
    }

    method BroadcastAppendEntries(peers: seq<Id>) returns (out: seq<Send>)
      requires CanSend(State(), peers)
      ensures out == Broadcast(State(), peers)
    {
      hide Append;
      out := [];
      for k := 0 to |peers|
        invariant |out| == k && forall j :: 0 <= j < k ==> out[j] == Append(State(), peers[j])
      {
        var s := SendAppendEntries(peers[k]);
        out := out + [s];
      }
    }

    method SendAppendEntries(peer: Id) returns (s: Send)
      requires CanSendTo(State(), peer)
      ensures s == Append(State(), peer)
    {
      var nextIdx := nextIndex[peer];
      var prevIdx, prevTerm := 0, 0;
      if nextIdx > 1 {
        prevIdx := nextIdx - 1;
        if prevIdx <= |log| {
          prevTerm := log[prevIdx - 1].term;
        }
      }
      var entries: seq<Entry> := [];
      if nextIdx - 1 < |log| {
        entries := log[nextIdx - 1..];
      }
      s := Send(peer, AppendEntries(currentTerm, id, prevIdx, prevTerm, entries, commitIndex));
    }

    method LastLogInfo() returns (index: nat, term: nat)
      ensures index == LastIndex(log) && term == LastTerm(log)
    {
      if |log| == 0 {
        return 0, 0;
      }
      return |log|, log[|log| - 1].term;
    }

    method HandleRequestVote(from: Id, rv: Body) returns (out: seq<Send>)
      requires rv.RequestVote?
      modifies this
      ensures Effect(State(), out) == RaftNode.HandleRequestVote(old(State()), from, rv)
    {
      if rv.term > currentTerm {
        StepDown(rv.term);
      }
      var granted := false;
      var lastIdx, lastTerm := LastLogInfo();
      var logOk := rv.lastLogTerm > lastTerm || (rv.lastLogTerm == lastTerm && rv.lastLogIndex >= lastIdx);
      if rv.term == currentTerm && logOk && (votedFor == 0 || votedFor == rv.candidateId) {
        votedFor := rv.candidateId;
        granted := true;
      }
      out := [Send(from, VoteReply(currentTerm, granted))];
    }

    method HandleVoteReply(rvr: Body, peers: seq<Id>) returns (out: seq<Send>)
      requires rvr.VoteReply?
      modifies this
      ensures Effect(State(), out) == RaftNode.HandleVoteReply(old(State()), rvr, peers)
    {
      out := [];
      if rvr.term > currentTerm {
        StepDown(rvr.term);
        return;
      }
      if role != Candidate || rvr.term != currentTerm {
        return;
      }
      if rvr.granted {
        votesReceived := votesReceived + 1;
        var majority := |peers| / 2 + 1;
        if votesReceived >= majority {
          out := BecomeLeader(peers);
        }
      }
    }

    /** The entry loop of handleAppendEntries, truncating and appending in place. */
    method AppendLoop(prev: nat, entries: seq<Entry>)
      requires prev <= |log|
      modifies this`log
      ensures log == Overwrite(old(log), prev, entries)
    {
      ghost var before := log;
      ghost var gap := FirstGap(before, prev, entries, prev);
      for k := 0 to |entries|
        modifies this`log
        invariant prev + k <= |log|
        invariant prev + k <= gap ==> log == before
        invariant prev + k > gap ==> log == before[..gap] + entries[gap - prev..k]
      {
        var entry, idx := entries[k], prev + k;
        if |log| > idx {
          if log[idx].term != entry.term {
            log := log[..idx];
          } else {
            continue;
          }
        }
        log := log + [entry];
      }
    }

    method HandleAppendEntries(from: Id, ae: Body) returns (out: seq<Send>)
      requires ae.AppendEntries?
      modifies this
      ensures Effect(State(), out) == RaftNode.HandleAppendEntries(old(State()), from, ae)
    {
      hide Overwrite, RaftNode.ApplyCommitted;
      var replyTerm := currentTerm;
      out := [Send(from, AppendReply(replyTerm, false, 0))];
      if ae.term < currentTerm {
        return;
      }
      if ae.term > currentTerm {
        StepDown(ae.term);
      } else {
        role := Follower;
      }
      leaderId := ae.leaderId;
      if ae.prevLogIndex > 0 {
        if |log| < ae.prevLogIndex || log[ae.prevLogIndex - 1].term != ae.prevLogTerm {
          return;
        }
      }
      AppendLoop(ae.prevLogIndex, ae.entries);
      if ae.leaderCommit > commitIndex {
        if ae.leaderCommit < |log| {
          commitIndex := ae.leaderCommit;
        } else {
          commitIndex := |log|;
        }
        ApplyCommitted();
      }
      out := [Send(from, AppendReply(replyTerm, true, |log|))];
    }

    method HandleAppendReply(from: Id, ar: Body, peers: seq<Id>) returns (out: seq<Send>)
      requires ar.AppendReply?
      requires CanAnswer(State(), from, ar)
      modifies this
      ensures Effect(State(), out) == RaftNode.HandleAppendReply(old(State()), from, ar, peers)
    {
      out := [];
      if ar.term > currentTerm {
        StepDown(ar.term);
        return;
      }
      if role != Leader {
        return;
      }
      if ar.success {
        matchIndex := matchIndex[from := ar.matchIndex];
        nextIndex := nextIndex[from := ar.matchIndex + 1];
        MaybeCommit(peers);
      } else {
        if nextIndex[from] > 1 {
          nextIndex := nextIndex[from := nextIndex[from] - 1];
        }
        var s := SendAppendEntries(from);
        out := [s];
      }
    }

    /** Counts the match indices that reach `n`, visiting the map's keys in any order. */
    method CountMatches(n: nat) returns (count: nat)
      ensures count == 1 + |Matching(matchIndex, n)|
    {
      count := 1;
      var rest := matchIndex.Keys;
      assert Matching(matchIndex, n) - rest == {};
      while rest != {}
        invariant rest <= matchIndex.Keys
        invariant count == 1 + |Matching(matchIndex, n) - rest|
        decreases |rest|
      {
        var p :| p in rest;
        ghost var counted := Matching(matchIndex, n) - rest;
        rest := rest - {p};
        if matchIndex[p] >= n {
          count := count + 1;
          assert Matching(matchIndex, n) - rest == counted + {p};
        } else {
          assert Matching(matchIndex, n) - rest == counted;
        }
      }
      assert Matching(matchIndex, n) - rest == Matching(matchIndex, n);
    }

    method MaybeCommit(peers: seq<Id>)
      modifies this
      ensures State() == RaftNode.MaybeCommit(old(State()), peers)
    {
      var n := |log|;
      while n > commitIndex
        invariant 0 <= n <= |log| && State() == old(State())
        invariant CommitScan(State(), peers, |log|) == CommitScan(State(), peers, n)
      {
        if log[n - 1].term != currentTerm {
          break;
        }
        var count := CountMatches(n);
        if count > (|peers| + 1) / 2 {
          commitIndex := n;
          ApplyCommitted();
          return;
        }
        n := n - 1;
      }
    }

    method ApplyCommitted()
      requires lastApplied < commitIndex ==> commitIndex <= |log|
      modifies this
      ensures State() == RaftNode.ApplyCommitted(old(State()))
    {
      ghost var first, calls := lastApplied, applied;
      while lastApplied < commitIndex
        invariant first <= lastApplied && (first < commitIndex ==> lastApplied <= commitIndex <= |log|)
        invariant lastApplied > first ==> lastApplied <= commitIndex
        invariant State() == old(State()).(lastApplied := lastApplied, applied := applied)
        invariant |applied| == |calls| + (lastApplied - first) && calls <= applied
        invariant forall j :: first <= j < lastApplied ==>
          applied[|calls| + (j - first)] == Applied(j + 1, log[j].command)
      {
        lastApplied := lastApplied + 1;
        applied := applied + [Applied(lastApplied, log[lastApplied - 1].command)];
      }
      assert State() == RaftNode.ApplyCommitted(old(State())) by {
        var n := RaftNode.ApplyCommitted(old(State()));
        assert n.applied == applied;
      }
    }
  }
}
