/**
 The handlers' answers in runs, whatever the membership: what a voter answers, how a deposed leader learns of
 it, and what a leader has done once it has handled an acknowledgement.
 */
module RaftReplies {
  import opened RaftNode
  import opened RaftCluster
  import opened RaftElection
  import opened RaftSafety
  import opened RaftHandlers
  import opened RaftNodeRuns

  /** Between `s` and `s'`, one message was sent: `body`, by `from` to `to`. */
  ghost predicate SentOne(s: Cluster, s': Cluster, from: Id, to: Id, body: Body) {
    exists p :: p !in s.sent && s'.sent == s.sent + {p} && p.from == from && p.to == to && p.body == body
  }

  lemma OneStamped(s: Cluster, s': Cluster, i: Id, send: Send, tag: nat)
    requires WF(s) && i in s.stamp && s'.sent == s.sent + Stamped(i, s.stamp[i], [send], tag)
    ensures SentOne(s, s', i, send.to, send.body)
  {
    hide Ready, Routed;
    var p := Packet(i, send.to, s.stamp[i] + 1, send.body, tag);
    assert p == Packet(i, [send][0].to, s.stamp[i] + 1 + 0, [send][0].body, tag);
    assert Stamped(i, s.stamp[i], [send], tag) == {p};
    assert p !in s.sent;
  }

  lemma NothingStamped(i: Id, base: nat, tag: nat)
    ensures Stamped(i, base, [], tag) == {}
  {
  }

  lemma DeliverySteps(s: Cluster, e: Event, s': Cluster) returns (f: Effect)
    requires Steps(s, e, s') && e.Deliver?
    ensures WF(s) && Actor(e) == e.p.to && e.p.to in s.nodes && e.p.from in s.nodes && e.p.to in s.stamp
    ensures s.nodes[e.p.to].id == e.p.to && e.p in s.sent && Ready(s.nodes[e.p.to], s.ids)
    ensures e.p.body.AppendReply? ==> CanAnswer(s.nodes[e.p.to], e.p.from, e.p.body)
    ensures f == Receive(s.nodes[e.p.to], e.p, e.peers) && s'.nodes == s.nodes[e.p.to := f.node]
    ensures s'.sent == s.sent + Stamped(e.p.to, s.stamp[e.p.to], f.out, Tag(e))
  {
    hide Receive, Ready, Observe, Stamped, CanAnswer;
    var n := s.nodes[e.p.to];
    ActStaysReady(n, e, s.ids);
    f := Act(n, e);
  }

  /** A delivery is its receiver's handler call; what that sends is on its way. */
  lemma Delivered(s: Cluster, e: Event, s': Cluster) returns (f: Effect)
    requires Steps(s, e, s') && e.Deliver?
    ensures e.p.to in s.nodes && s.nodes[e.p.to].id == e.p.to && e.p.from in s.nodes && e.p in s.sent
    ensures e.p.body.AppendReply? ==> CanAnswer(s.nodes[e.p.to], e.p.from, e.p.body)
    ensures f == Receive(s.nodes[e.p.to], e.p, e.peers) && s'.nodes == s.nodes[e.p.to := f.node]
    ensures |f.out| == 1 ==> SentOne(s, s', e.p.to, f.out[0].to, f.out[0].body)
    ensures |f.out| == 0 ==> s'.sent == s.sent
  {
    hide *;
    f := DeliverySteps(s, e, s');
    if |f.out| == 1 {
      assert f.out == [f.out[0]];
      OneStamped(s, s', e.p.to, f.out[0], Tag(e));
    } else if |f.out| == 0 {
      assert f.out == [];
      NothingStamped(e.p.to, s.stamp[e.p.to], Tag(e));
    }
  }

  // ---------- Deposed leaders ----------

  /** A message of an earlier term than its receiver's changes no node; its sender is sent the later term. */
  lemma StaleAnswered(s: Cluster, e: Event, s': Cluster)
    requires Steps(s, e, s') && e.Deliver? && e.p.body.AppendEntries?
    requires e.p.to in s.nodes && e.p.body.term < s.nodes[e.p.to].currentTerm
    ensures s'.nodes == s.nodes
    ensures SentOne(s, s', e.p.to, e.p.from, AppendReply(s.nodes[e.p.to].currentTerm, false, 0))
  {
    hide Steps, SentOne, HandleAppendEntries;
    var f := Delivered(s, e, s');
    StaleAppend(s.nodes[e.p.to], e.p.from, e.p.body);
  }

  /** A reply of a later term makes its receiver a follower of that term, whatever it was. */
  lemma LearnsTerm(s: Cluster, e: Event, s': Cluster)
    requires Steps(s, e, s') && e.Deliver? && (e.p.body.VoteReply? || e.p.body.AppendReply?)
    requires e.p.to in s.nodes && s.nodes[e.p.to].currentTerm < e.p.body.term
    ensures var n := s.nodes[e.p.to];
            s'.nodes == s.nodes[e.p.to := n.(currentTerm := e.p.body.term, role := Follower, votedFor := 0)]
    ensures s'.sent == s.sent
  {
    hide Steps, SentOne, Receive;
    var f := Delivered(s, e, s');
    ReplyDeposes(s.nodes[e.p.to], e.p, e.peers);
  }

  /** Over runs: once a leader's message has met a node of a later term and the leader has been handed the
      answer, it leads no earlier term; if it still was in its old term, it follows that later one now. */
  lemma DeposedLearns(states: seq<Cluster>, events: seq<Event>, k: nat, m: nat)
    requires Run(states, events) && k < m < |events| && events[k].Deliver? && events[k].p.body.AppendEntries?
    requires var p := events[k].p; p.to in states[k].nodes && p.body.term < states[k].nodes[p.to].currentTerm
    requires events[m].Deliver? && events[m].p in states[k + 1].sent && events[m].p !in states[k].sent
    ensures var p, t := events[k].p, states[k].nodes[events[k].p.to].currentTerm;
            && events[m].p.to == p.from && p.from in states[m].nodes && p.from in states[m + 1].nodes
            && var n, n' := states[m].nodes[p.from], states[m + 1].nodes[p.from];
               if n.currentTerm < t then n' == n.(currentTerm := t, role := Follower, votedFor := 0)
               else n'.currentTerm == n.currentTerm
  {
    hide Steps, Init, Receive;
    StaleAnswered(states[k], events[k], states[k + 1]);
    var f := Delivered(states[m], events[m], states[m + 1]);
    var n, answer := states[m].nodes[events[m].p.to], events[m].p;
    TermTaken(n, answer, events[m].peers);
    if n.currentTerm < answer.body.term {
      LearnsTerm(states[m], events[m], states[m + 1]);
    }
  }

  // ---------- Votes ----------

  lemma {:induction false} VotesInRuns(states: seq<Cluster>, events: seq<Event>, k: nat)
    requires Run(states, events) && k < |states|
    ensures VotesInv(states[k]) && states[k].nodes.Keys == states[k].ids && 0 !in states[k].ids
  {
    hide Steps, VotesInv, Init;
    if k == 0 {
      InitVotes(states[0].ids);
    } else {
      VotesInRuns(states, events, k - 1);
      VotesStep(states[k - 1], events[k - 1], states[k]);
    }
  }

  lemma InitVotes(ids: set<Id>)
    requires 0 !in ids
    ensures VotesInv(Init(ids)) && Init(ids).nodes.Keys == Init(ids).ids
  {
  }

  lemma VotesStep(s: Cluster, e: Event, s': Cluster)
    requires Steps(s, e, s') && VotesInv(s) && 0 !in s.ids
    ensures VotesInv(s') && s'.nodes.Keys == s'.ids && s'.ids == s.ids
  {
    StepIsVoteStep(s, e);
    var f := Act(s.nodes[Actor(e)], e);
    StepKeepsMembers(s, e, s');
    hide Next, VoteStep, PacketStep, Act, CandidacySound, BallotsSound, PollsSound;
    VotesParts(s);
    CandidacyStep(s, e, f.node, s');
    BallotsStep(s, e, f.node, s');
    PollsStep(s, e, f, s');
  }

  lemma StepKeepsMembers(s: Cluster, e: Event, s': Cluster)
    requires Steps(s, e, s')
    ensures s'.nodes.Keys == s'.ids == s.ids
  {
    hide PacketsWF, Ready, Assemble, Act;
  }

  lemma VotesParts(s: Cluster)
    requires VotesInv(s)
    ensures CandidacySound(s)
  {
    hide CandidacySound, BallotsSound, PollsSound;
  }

  /** `v` gave its vote of `term` to someone else than `c`. */
  predicate GaveAway(s: Cluster, v: Id, term: nat, c: Id) {
    (term, v) in s.h.ballots && s.h.ballots[(term, v)].candidate != c
  }

  lemma VotedFor(s: Cluster, p: Packet)
    requires VotesInv(s) && 0 !in s.ids && s.nodes.Keys == s.ids && p in s.sent && p.to in s.nodes
    requires p.body.RequestVote? && p.body.term >= s.nodes[p.to].currentTerm
    ensures var n := s.nodes[p.to];
            p.body.candidateId == p.from != 0
            && (GaveAway(s, p.to, p.body.term, p.from) <==>
                  !(p.body.term > n.currentTerm || n.votedFor == 0 || n.votedFor == p.body.candidateId))
  {
    assert PollSound(s, p);
    assert (p.body.term, p.from) in s.h.candLog;
    if (p.body.term, p.to) in s.h.ballots {
      assert BallotSound(s, (p.body.term, p.to));
    }
  }

  /** In every run, a request is granted if and only if its term is not past, the candidate's log is no older and
      the voter has not given that term's vote to someone else, ever since the run began. */
  lemma GrantedWhen(states: seq<Cluster>, events: seq<Event>, k: nat)
    requires Run(states, events) && k < |events| && events[k].Deliver? && events[k].p.body.RequestVote?
    ensures var s, p := states[k], events[k].p;
            p.to in s.nodes
            && var n := s.nodes[p.to];
               var granted := p.body.term >= n.currentTerm
                              && AsUpToDate(p.body.lastLogIndex, p.body.lastLogTerm, n.log)
                              && !GaveAway(s, p.to, p.body.term, p.from);
               SentOne(s, states[k + 1], p.to, p.from,
                 VoteReply(if p.body.term > n.currentTerm then p.body.term else n.currentTerm, granted))
  {
    hide Steps, Init, HandleRequestVote, SentOne, VotesInv, AsUpToDate, GaveAway;
    var s, p := states[k], events[k].p;
    VotesInRuns(states, events, k);
    var f := Delivered(s, events[k], states[k + 1]);
    VoteAnswer(s.nodes[p.to], p.from, p.body);
    if p.body.term >= s.nodes[p.to].currentTerm {
      VotedFor(s, p);
    }
  }

  // ---------- Commitment ----------

  lemma {:induction false} InOrderInRuns(states: seq<Cluster>, events: seq<Event>, k: nat, i: Id)
    requires Run(states, events) && k < |states| && i in states[k].nodes
    ensures AppliedInOrder(states[k].nodes[i])
  {
    hide Steps, AppliedInOrder;
    if k > 0 {
      var s, s' := states[k - 1], states[k];
      StepNodes(s, events[k - 1], s');
      InOrderInRuns(states, events, k - 1, i);
      if s'.nodes[i] != s.nodes[i] {
        StepInOrder(s.nodes[i], s'.nodes[i]);
      }
    } else {
      NewInOrder(i);
    }
  }

  lemma StepNodes(s: Cluster, e: Event, s': Cluster)
    requires Steps(s, e, s')
    ensures Actor(e) in s.nodes && s'.nodes.Keys == s.nodes.Keys
    ensures forall i :: i in s.nodes && i != Actor(e) ==> s'.nodes[i] == s.nodes[i]
    ensures AppliesMore(s.nodes[Actor(e)], s'.nodes[Actor(e)])
  {
    StepEnabled(s, e, s');
    ActCommits(s.nodes[Actor(e)], e);
    hide Act, AppliesMore, PacketsWF, Ready, Observe, Stamped, ListsPeers, OutAcks;
  }

  /** In every run, a leader that has handled an acknowledgement of its term or an earlier one has committed and
      applied all there was to commit; what it commits then and had not applied, it applies as its log has it. */
  lemma CommitsInRuns(states: seq<Cluster>, events: seq<Event>, m: nat, k: nat)
    requires Run(states, events) && m < |events| && events[m].Deliver?
    requires var p := events[m].p;
             && p.to in states[m].nodes && states[m].nodes[p.to].role == Leader
             && p.body.AppendReply? && p.body.success && p.body.term <= states[m].nodes[p.to].currentTerm
    ensures var p := events[m].p;
            && p.to in states[m + 1].nodes
            && var n, n' := states[m].nodes[p.to], states[m + 1].nodes[p.to];
               && !Committable(n', events[m].peers, k)
               && (Committable(n.(matchIndex := n.matchIndex[p.from := p.body.matchIndex]), events[m].peers, k) ==>
                     k <= n'.commitIndex && k <= |n'.applied|
                     && (n.lastApplied < k ==> n'.applied[k - 1] == Applied(k, n.log[k - 1].command)))
  {
    hide Steps, Init, HandleAppendReply, Committable;
    var p := events[m].p;
    var f := Delivered(states[m], events[m], states[m + 1]);
    var n := states[m].nodes[p.to];
    InOrderInRuns(states, events, m, p.to);
    InOrderInRuns(states, events, m + 1, p.to);
    ReplyCommits(n, p.from, p.body, events[m].peers);
    var was := n.(matchIndex := n.matchIndex[p.from := p.body.matchIndex]);
    if Committable(was, events[m].peers, k) {
      InRange(was, events[m].peers, k);
      if n.lastApplied < k {
        ReplyApplies(n, p.from, p.body, events[m].peers, k);
      }
    }
  }
}
