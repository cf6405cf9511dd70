/**
 Replication seen from one follower and one leader: the contract of the AppendEntries loop, and the
 back-off exchange that repairs a follower.
 */
module RaftReplication {
  import opened RaftNode
  import opened RaftLogs

  // ---------- The loop contract ----------

  /** The index of the first entry of the message that `log` lacks or contradicts, if there is one. */
  ghost predicate FirstProblem(log: seq<Entry>, prev: nat, entries: seq<Entry>, c: nat) {
    && prev <= c < prev + |entries| && c <= |log|
    && (c < |log| ==> log[c].term != entries[c - prev].term)
    && forall k :: prev <= k < c ==> k < |log| && log[k].term == entries[k - prev].term
  }

  predicate AllPresent(log: seq<Entry>, prev: nat, entries: seq<Entry>) {
    prev + |entries| <= |log| && forall k :: 0 <= k < |entries| ==> log[prev + k].term == entries[k].term
  }

  /** An accepted message leaves the log alone when it holds all its entries, and otherwise cuts it at
      the first problem and fills in the rest of the message: these are the only two cases. */
  lemma OverwriteContract(log: seq<Entry>, prev: nat, entries: seq<Entry>)
    requires prev <= |log|
    ensures AllPresent(log, prev, entries) ==> Overwrite(log, prev, entries) == log
    ensures forall c: nat :: FirstProblem(log, prev, entries, c) ==>
      Overwrite(log, prev, entries) == log[..c] + entries[c - prev..]
    ensures AllPresent(log, prev, entries) || exists c: nat :: FirstProblem(log, prev, entries, c)
    ensures AllPresent(Overwrite(log, prev, entries), prev, entries)
  {
    var g := FirstGap(log, prev, entries, prev);
    if g < prev + |entries| {
      assert FirstProblem(log, prev, entries, g);
      forall c: nat | FirstProblem(log, prev, entries, c) ensures c == g {
      }
    } else {
      forall k | 0 <= k < |entries| ensures log[prev + k].term == entries[k].term {
        assert log[prev + k].term == entries[prev + k - prev].term;
      }
    }
  }

  /** Repeating an accepted message changes nothing. */
  lemma OverwriteTwice(log: seq<Entry>, prev: nat, entries: seq<Entry>)
    requires prev <= |log|
    ensures prev <= |Overwrite(log, prev, entries)|
    ensures Overwrite(Overwrite(log, prev, entries), prev, entries) == Overwrite(log, prev, entries)
  {
    OverwriteContract(log, prev, entries);
    var r := Overwrite(log, prev, entries);
    hide Overwrite;
    OverwriteContract(r, prev, entries);
  }

  /** A follower's log after one message: unchanged if it rejects it. */
  function ReceiveOne(log: seq<Entry>, ae: Body): seq<Entry>
    requires ae.AppendEntries?
  {
    if Consistent(log, ae.prevLogIndex, ae.prevLogTerm) then Overwrite(log, ae.prevLogIndex, ae.entries) else log
  }

  function ReceiveAll(log: seq<Entry>, msgs: seq<Body>): seq<Entry>
    requires forall m :: m in msgs ==> m.AppendEntries?
    decreases |msgs|
  {
    if msgs == [] then log else ReceiveAll(ReceiveOne(log, msgs[0]), msgs[1..])
  }

  lemma OneReceived(log: seq<Entry>, ae: Body, leader: seq<Entry>, p: seq<Entry>)
    requires ae.AppendEntries? && (CutFrom(ae, leader) || Dud(ae))
    requires LogsMatch(log, leader) && Positive(log) && Positive(leader)
    requires p <= log && p <= leader
    ensures var r := ReceiveOne(log, ae); p <= r && LogsMatch(r, leader) && Positive(r)
  {
    hide LogsMatch, Positive, CutFrom, Consistent, Overwrite;
    if Consistent(log, ae.prevLogIndex, ae.prevLogTerm) {
      SharedSurvives(p, log, ae, leader);
      Accepted(log, ae, leader);
      MatchesItself(leader, ae.prevLogIndex + |ae.entries|);
    }
  }

  /** Over messages cut from one leader's log, in any order and any number of times, whatever the
      follower shares with that log it keeps sharing, and the two logs go on matching. */
  lemma {:induction false} AgreementNeverShrinks(log: seq<Entry>, msgs: seq<Body>, leader: seq<Entry>, p: seq<Entry>)
    requires forall m :: m in msgs ==> m.AppendEntries? && (CutFrom(m, leader) || Dud(m))
    requires LogsMatch(log, leader) && Positive(log) && Positive(leader)
    requires p <= log && p <= leader
    ensures p <= ReceiveAll(log, msgs) && LogsMatch(ReceiveAll(log, msgs), leader)
    decreases |msgs|
  {
    hide LogsMatch, Positive, CutFrom, ReceiveOne;
    if msgs != [] {
      OneReceived(log, msgs[0], leader, p);
      AgreementNeverShrinks(ReceiveOne(log, msgs[0]), msgs[1..], leader, p);
    }
  }

  lemma MatchesItself(log: seq<Entry>, m: nat)
    requires m <= |log| && Positive(log)
    ensures LogsMatch(log[..m], log) && Positive(log[..m])
  {
    forall k | 0 <= k < m && log[..m][k].term == log[k].term ensures log[..m][..k + 1] == log[..k + 1] {
    }
  }

  // ---------- Back-off ----------

  datatype Repair = Repair(rejections: nat, leader: Node, follower: Node, matchIndex: nat)

  /** The shape of a reply, and what a refusal means. */
  lemma ReplyIs(n: Node, from: Id, ae: Body)
    requires ae.AppendEntries? && n.currentTerm <= ae.term
    ensures var got := HandleAppendEntries(n, from, ae);
            && |got.out| == 1 && got.out[0].body.AppendReply? && got.out[0].body.term == n.currentTerm
            && got.node.currentTerm == ae.term && got.node.id == n.id
            && (!got.out[0].body.success ==>
                  !Consistent(n.log, ae.prevLogIndex, ae.prevLogTerm) && got.node.log == n.log)
  {
    hide Overwrite, FollowCommit, Consistent;
  }

  lemma RefusalAnswered(leader: Node, from: Id, reply: Body, peers: seq<Id>)
    requires leader.role == Leader && Lookup(leader.nextIndex, from) > 1
    requires reply.AppendReply? && !reply.success && reply.term <= leader.currentTerm
    ensures var back := HandleAppendReply(leader, from, reply, peers);
            && back.node == leader.(nextIndex := leader.nextIndex[from := Lookup(leader.nextIndex, from) - 1])
            && CanSendTo(back.node, from) && back.out == [Append(back.node, from)]
  {
    hide MaybeCommit, Append;
  }

  /** A rejected probe makes the leader step nextIndex down by one and probe again. */
  lemma Rejected(leader: Node, follower: Node, peers: seq<Id>)
    requires leader.role == Leader && CanSendTo(leader, follower.id) && follower.currentTerm <= leader.currentTerm
    ensures var sent := Append(leader, follower.id);
            var got := HandleAppendEntries(follower, leader.id, sent.body);
            && |got.out| == 1 && got.out[0].body.AppendReply? && got.out[0].body.term == follower.currentTerm
            && got.node.currentTerm == leader.currentTerm && got.node.id == follower.id
            && (!got.out[0].body.success ==>
                  && Lookup(leader.nextIndex, follower.id) > 1
                  && got.node.log == follower.log
                  && var back := HandleAppendReply(leader, follower.id, got.out[0].body, peers);
                     && back.node == leader.(nextIndex :=
                          leader.nextIndex[follower.id := Lookup(leader.nextIndex, follower.id) - 1])
                     && CanSendTo(back.node, follower.id) && back.out == [Append(back.node, follower.id)])
  {
    hide HandleAppendEntries, HandleAppendReply, PrevTerm;
    var sent := Append(leader, follower.id).body;
    ReplyIs(follower, leader.id, sent);
    var reply := HandleAppendEntries(follower, leader.id, sent).out[0].body;
    if !reply.success {
      RefusalAnswered(leader, follower.id, reply, peers);
    }
  }

  /** The exchange on a lossless link: probe, and on rejection the leader's answer to the reply is the next probe. */
  function Exchange(leader: Node, follower: Node, peers: seq<Id>): Repair
    requires leader.role == Leader && CanSendTo(leader, follower.id) && follower.currentTerm <= leader.currentTerm
    decreases Lookup(leader.nextIndex, follower.id)
  {
    Rejected(leader, follower, peers);
    var got := HandleAppendEntries(follower, leader.id, Append(leader, follower.id).body);
    var reply := got.out[0].body;
    if reply.success then
      Repair(0, HandleAppendReply(leader, follower.id, reply, peers).node, got.node, reply.matchIndex)
    else
      var rest := Exchange(HandleAppendReply(leader, follower.id, reply, peers).node, got.node, peers);
      rest.(rejections := rest.rejections + 1)
  }

  lemma AppendIsCut(n: Node, p: Id)
    requires CanSendTo(n, p)
    ensures var ae := Append(n, p).body;
            && (CutFrom(ae, n.log) || Dud(ae))
            && ae.prevLogIndex == Lookup(n.nextIndex, p) - 1
            && (ae.prevLogIndex <= |n.log| ==> ae.prevLogIndex + |ae.entries| == |n.log|)
  {
  }

  lemma AcceptedAck(leader: Node, from: Id, ar: Body, peers: seq<Id>)
    requires leader.role == Leader && ar.AppendReply? && ar.success && ar.term <= leader.currentTerm
    ensures var n := HandleAppendReply(leader, from, ar, peers).node;
            n.log == leader.log && n.role == Leader && n.currentTerm == leader.currentTerm
            && n.matchIndex == leader.matchIndex[from := ar.matchIndex]
            && n.nextIndex == leader.nextIndex[from := ar.matchIndex + 1]
  {
  }

  /** One accepted probe repairs everything: the message reaches to the end of the leader's log. */
  lemma SuccessRepairs(leader: Node, follower: Node)
    requires CanSendTo(leader, follower.id) && LogsMatch(follower.log, leader.log) && Positive(follower.log)
    requires follower.currentTerm <= leader.currentTerm
    ensures var got := HandleAppendEntries(follower, leader.id, Append(leader, follower.id).body);
            |got.out| == 1 && got.out[0].body.AppendReply?
            && (got.out[0].body.success ==> leader.log <= got.node.log && got.out[0].body.matchIndex == |got.node.log|)
  {
    var ae := Append(leader, follower.id).body;
    AppendIsCut(leader, follower.id);
    hide Overwrite, FollowCommit, LogsMatch, Positive, CutFrom, Consistent, Append;
    if Accepts(follower, ae) {
      PrevReached(follower, ae);
      Accepted(follower.log, ae, leader.log);
      CutInRange(ae, leader.log);
    }
  }

  lemma PrevReached(n: Node, ae: Body)
    requires ae.AppendEntries? && Accepts(n, ae)
    ensures ae.prevLogIndex <= |n.log| && Consistent(n.log, ae.prevLogIndex, ae.prevLogTerm)
  {
  }

  /** Back-off ends: after fewer rejections than nextIndex, wherever nextIndex starts, the follower's
      log begins with the whole leader log, and the leader has recorded what the follower reported. */
  lemma {:induction false} BackoffRepairs(leader: Node, follower: Node, peers: seq<Id>)
    requires leader.role == Leader && CanSendTo(leader, follower.id) && follower.currentTerm <= leader.currentTerm
    requires LogsMatch(follower.log, leader.log) && Positive(follower.log)
    ensures var r := Exchange(leader, follower, peers);
            && r.rejections <= Lookup(leader.nextIndex, follower.id) - 1
            && leader.log <= r.follower.log && r.matchIndex == |r.follower.log|
            && r.leader.log == leader.log && r.leader.role == Leader && r.leader.currentTerm == leader.currentTerm
            && Lookup(r.leader.matchIndex, follower.id) == r.matchIndex
            && Lookup(r.leader.nextIndex, follower.id) == r.matchIndex + 1
    decreases Lookup(leader.nextIndex, follower.id)
  {
    hide LogsMatch, Positive, HandleAppendEntries, HandleAppendReply;
    Rejected(leader, follower, peers);
    SuccessRepairs(leader, follower);
    var got := HandleAppendEntries(follower, leader.id, Append(leader, follower.id).body);
    var reply := got.out[0].body;
    if reply.success {
      AcceptedAck(leader, follower.id, reply, peers);
    } else {
      BackoffRepairs(HandleAppendReply(leader, follower.id, reply, peers).node, got.node, peers);
    }
  }
}
