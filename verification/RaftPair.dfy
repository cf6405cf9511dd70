/**
 Clusters of one or two nodes, where every leader has every node's vote. There one log is always a prefix
 of the other and no entry is ever cut, so state-machine safety needs no further hypothesis.
 */
module RaftPair {
  import opened RaftNode
  import opened RaftCluster
  import opened RaftElection
  import opened RaftLogs
  import opened RaftSafety

  predicate Comparable(a: seq<Entry>, b: seq<Entry>) {
    a <= b || b <= a
  }

  /** `j` voted for `i` in the term `i` is now in, and `i` stands or leads. */
  predicate Backs(s: Cluster, j: Id, i: Id) {
    && i in s.nodes && s.nodes[i].role != Follower
    && (s.nodes[i].currentTerm, j) in s.h.ballots && s.h.ballots[(s.nodes[i].currentTerm, j)].candidate == i
  }

  ghost predicate Compared(s: Cluster) {
    forall i, j :: i in s.nodes && j in s.nodes ==> Comparable(s.nodes[i].log, s.nodes[j].log)
  }

  /** Nobody who backs a node has more than it. */
  ghost predicate BackersBehind(s: Cluster) {
    forall i, j :: i in s.nodes && j in s.nodes && Backs(s, j, i) ==> s.nodes[j].log <= s.nodes[i].log
  }

  /** What was led with is still held by who led with it. */
  ghost predicate LeadersKeep(s: Cluster) {
    forall t :: t in s.h.leaderLog && t in s.h.won && s.h.won[t] in s.nodes ==>
      s.h.leaderLog[t] <= s.nodes[s.h.won[t]].log
  }

  ghost predicate AppliedFromLog(n: Node) {
    && |n.applied| == n.lastApplied <= |n.log|
    && forall k :: 0 <= k < n.lastApplied ==> n.applied[k] == Applied(k + 1, n.log[k].command)
  }

  ghost predicate AllFromLog(s: Cluster) {
    forall i :: i in s.nodes ==> AppliedFromLog(s.nodes[i])
  }

  ghost predicate PairInv(s: Cluster) {
    Compared(s) && BackersBehind(s) && LeadersKeep(s) && AllFromLog(s)
  }

  predicate Small(ids: set<Id>) {
    1 <= |ids| <= 2
  }

  lemma SmallWins(ids: set<Id>)
    requires Small(ids)
    ensures MajorityWins(ids)
  {
  }

  lemma OneOther(ids: set<Id>, a: Id, i: Id, j: Id)
    requires Small(ids) && a in ids && i in ids && j in ids && i != a && j != a
    ensures i == j
  {
    if i != j {
      SubsetSize({a, i, j}, ids);
    }
  }

  /** More than half of at most two is all. */
  lemma AllOfThem(ids: set<Id>, q: set<Id>)
    requires Small(ids) && q <= ids && 2 * |q| > |ids|
    ensures q == ids
  {
    var rest := ids - q;
    assert ids == q + rest;
    assert |ids| == |q| + |rest|;
    assert rest == {};
  }

  /** A leader is backed by all. */
  lemma LeaderBacked(s: Cluster, i: Id, j: Id)
    requires WinsSound(s) && Small(s.ids) && i in s.nodes && j in s.ids && s.nodes[i].role == Leader
    ensures Backs(s, j, i)
  {
    var t := s.nodes[i].currentTerm;
    assert WonSound(s, t);
    AllOfThem(s.ids, s.h.quorum[t]);
  }

  // ---------- Logs only grow ----------

  lemma Between(a: seq<Entry>, p: seq<Entry>, b: seq<Entry>)
    requires Comparable(a, b) && p <= b && !(p <= a)
    ensures a <= p
  {
  }

  /** An accepted message gives the follower more of what the sender has. */
  lemma AcceptGrows(log: seq<Entry>, ae: Body, sender: seq<Entry>, senderNow: seq<Entry>)
    requires ae.AppendEntries? && (CutFrom(ae, sender) || Dud(ae)) && LogsMatch(log, sender) && Positive(log)
    requires Consistent(log, ae.prevLogIndex, ae.prevLogTerm)
    requires sender <= senderNow && Comparable(log, senderNow)
    ensures ae.prevLogIndex <= |log|
    ensures var r := Overwrite(log, ae.prevLogIndex, ae.entries);
            log <= r && (r == log || r <= senderNow)
  {
    hide CutFrom, Dud, LogsMatch, Positive, Overwrite;
    Accepted(log, ae, sender);
    var m := ae.prevLogIndex + |ae.entries|;
    if Overwrite(log, ae.prevLogIndex, ae.entries) != log {
      Between(log, sender[..m], senderNow);
    }
  }

  /** How the actor's log moves: it stays, or follows the other node's, or is that of a leader appending to it. */
  ghost predicate Moves(s: Cluster, a: Id, n': Node)
    requires a in s.nodes
  {
    && s.nodes[a].log <= n'.log
    && (n'.log == s.nodes[a].log || s.nodes[a].role == Leader
        || forall j :: j in s.nodes && j != a ==> n'.log <= s.nodes[j].log)
  }

  lemma AppendFrom(s: Cluster, p: Packet)
    requires ElectionInv(s) && LogInv(s) && LeadersKeep(s) && p in s.sent && p.body.AppendEntries?
    ensures p.from in s.nodes && p.body.term in s.h.leaderLog
    ensures s.h.leaderLog[p.body.term] <= s.nodes[p.from].log
  {
    assert AppendSound(s, p);
    assert WonSound(s, p.body.term);
  }

  lemma ActorMoves(s: Cluster, e: Event, f: Effect, s': Cluster)
    requires LogStep(s, e, f, s') && ElectionInv(s) && LogInv(s) && Small(s.ids) && Compared(s) && LeadersKeep(s)
    ensures Moves(s, Actor(e), f.node)
  {
    hide ElectionInv, LogInv, Backed, TermsUpTo, CutFrom, Overwrite, LogsMatch, Positive, OutLogs, Observe, NodeVotes,
      Comparable;
    var a, n := Actor(e), s.nodes[Actor(e)];
    if f.node.log != n.log && !e.Submit? {
      var p := e.p;
      AppendFrom(s, p);
      SenderSound(s, p);
      SnapOfNode(s, a);
      var sender := s.h.leaderLog[p.body.term];
      BackedMatch(n.log, sender, s.h.leaderLog);
      TermsPositive(n.log, n.currentTerm);
      AcceptGrows(n.log, p.body, sender, s.nodes[p.from].log);
      forall j | j in s.nodes && j != a ensures f.node.log <= s.nodes[j].log {
        OneOther(s.ids, a, p.from, j);
      }
    }
  }

  // ---------- Preservation ----------

  lemma StillCompared(s: Cluster, a: Id, n': Node, j: Id)
    requires Compared(s) && BackersBehind(s) && WinsSound(s) && Small(s.ids) && s.nodes.Keys == s.ids
    requires a in s.nodes && Moves(s, a, n') && j in s.nodes && j != a
    ensures Comparable(n'.log, s.nodes[j].log)
  {
    hide WinsSound, Backs;
    assert Comparable(s.nodes[a].log, s.nodes[j].log);
    if n'.log != s.nodes[a].log && s.nodes[a].role == Leader {
      LeaderBacked(s, a, j);
    }
  }

  lemma ComparedStep(s: Cluster, e: Event, f: Effect, s': Cluster)
    requires LogStep(s, e, f, s') && Compared(s) && BackersBehind(s) && WinsSound(s) && Small(s.ids)
    requires Actor(e) in s.nodes && Moves(s, Actor(e), f.node)
    ensures Compared(s')
  {
    StepVotes(s, e, f, s');
    hide LogStep, NodeVotes, WinsSound, BackersBehind, Moves, Small, Comparable;
    forall j | j in s.nodes && j != Actor(e)
      ensures Comparable(f.node.log, s.nodes[j].log) && Comparable(s.nodes[j].log, f.node.log)
    {
      StillCompared(s, Actor(e), f.node, j);
      EitherWay(f.node.log, s.nodes[j].log);
    }
    EitherWay(f.node.log, f.node.log);
  }

  lemma EitherWay(a: seq<Entry>, b: seq<Entry>)
    ensures Comparable(a, b) ==> Comparable(b, a)
    ensures Comparable(a, a)
  {
  }

  lemma StillStands(n: Node, e: Event, n': Node)
    requires NodeVotes(n, e, n') && n'.role != Follower
    ensures e.Timeout? ==> n'.currentTerm == n.currentTerm + 1
    ensures !e.Timeout? ==> n.role != Follower && n'.currentTerm == n.currentTerm
  {
  }

  lemma StepVotes(s: Cluster, e: Event, f: Effect, s': Cluster)
    requires LogStep(s, e, f, s')
    ensures Actor(e) in s.nodes && NodeVotes(s.nodes[Actor(e)], e, f.node) && f.node.id == Actor(e)
    ensures s'.nodes == s.nodes[Actor(e) := f.node] && s.nodes.Keys == s.ids && s'.ids == s.ids
    ensures forall k :: k in s'.h.ballots && k !in s.h.ballots ==> k == (f.node.currentTerm, Actor(e))
    ensures forall k :: k in s.h.ballots ==> k in s'.h.ballots && s'.h.ballots[k] == s.h.ballots[k]
  {
    hide NodeLogs, OutLogs, NodeVotes, Counts, Stamped;
  }

  /** The actor, standing or leading, was so before, if it has backers. */
  lemma ActorStood(s: Cluster, e: Event, f: Effect, s': Cluster, j: Id)
    requires LogStep(s, e, f, s') && VotesInv(s) && j != Actor(e) && Backs(s', j, Actor(e))
    ensures Backs(s, j, Actor(e))
  {
    StepVotes(s, e, f, s');
    hide LogStep, PollsSound, NodeVotes, UpToDate;
    var a, t := Actor(e), f.node.currentTerm;
    StillStands(s.nodes[a], e, f.node);
    assert (t, j) in s.h.ballots && s.h.ballots[(t, j)].candidate == a;
    assert BallotSound(s, (t, j));
  }

  lemma BallotsOf(s: Cluster, e: Event, f: Effect, s': Cluster, k: (nat, Id))
    requires LogStep(s, e, f, s') && k in s'.h.ballots && k !in s.h.ballots
    ensures f.node.votedFor != 0 && k == (f.node.currentTerm, Actor(e))
    ensures s'.h.ballots[k] == Ballot(f.node.votedFor, s.nodes[Actor(e)].log)
  {
    hide NodeLogs, OutLogs, NodeVotes;
  }

  /** A voter's log is no longer than that of the candidate it finds up to date. */
  lemma UpToDateHasMore(log: seq<Entry>, bound: nat, cand: seq<Entry>, bound': nat)
    requires UpToDate(LastTerm(cand), LastIndex(cand), log) && Comparable(log, cand)
    requires TermsUpTo(log, bound) && TermsUpTo(cand, bound')
    ensures log <= cand
  {
    if cand <= log && cand != [] {
      assert log[|cand| - 1] == cand[|cand| - 1];
      assert log[|cand| - 1].term <= log[|log| - 1].term;
    }
  }

  /** The actor gave its first vote of the term, to `i`. */
  lemma VoteFor(s: Cluster, e: Event, f: Effect, s': Cluster, i: Id)
    requires LogStep(s, e, f, s') && BallotsSound(s) && f.node.votedFor == i && i != Actor(e)
    requires (f.node.currentTerm, Actor(e)) !in s.h.ballots && i != 0
    ensures e.Deliver? && e.p.body.RequestVote? && e.p.body.term == f.node.currentTerm && e.p.body.candidateId == i
    ensures UpToDate(e.p.body.lastLogTerm, e.p.body.lastLogIndex, s.nodes[Actor(e)].log)
    ensures f.node.log == s.nodes[Actor(e)].log && e.p in s.sent
  {
    hide OutLogs, UpToDate, Observe, Counts, BallotSound;
  }

  lemma NewBacker(s: Cluster, e: Event, f: Effect, s': Cluster, i: Id)
    requires LogStep(s, e, f, s') && ElectionInv(s) && LogInv(s) && Small(s.ids) && Compared(s)
    requires i in s.nodes && i != Actor(e) && i != 0 && s.nodes[i].role != Follower
    requires f.node.votedFor == i && f.node.currentTerm == s.nodes[i].currentTerm
    requires (f.node.currentTerm, Actor(e)) !in s.h.ballots
    ensures f.node.log <= s.nodes[i].log
  {
    var a, n, m := Actor(e), s.nodes[Actor(e)], s.nodes[i];
    VoteFor(s, e, f, s', i);
    if m.role == Leader {
      LeaderBacked(s, i, a);
      assert false;
    }
    assert PollSound(s, e.p);
    assert s.h.candLog[(m.currentTerm, i)] == m.log;
    SnapOfNode(s, a);
    SnapOfNode(s, i);
    assert Comparable(n.log, m.log);
    hide ElectionInv, LogInv, LogStep, Backed, TermsUpTo, UpToDate;
    UpToDateHasMore(n.log, n.currentTerm, m.log, m.currentTerm);
  }

  /** Who backs another leads no term. */
  lemma NoRivalLeads(s: Cluster, a: Id, i: Id)
    requires VotesInv(s) && WinsSound(s) && Small(s.ids) && s.nodes.Keys == s.ids
    requires a in s.nodes && i in s.nodes && a != i && Backs(s, a, i)
    ensures s.nodes[a].role != Leader
  {
    var t, t' := s.nodes[i].currentTerm, s.nodes[a].currentTerm;
    assert BallotSound(s, (t, a));
    if s.nodes[a].role == Leader {
      LeaderBacked(s, a, i);
      assert BallotSound(s, (t', i));
      LeaderBacked(s, a, a);
    }
  }

  /** The other node still has all that the actor has, if the actor backs it. */
  lemma OtherBacked(s: Cluster, e: Event, f: Effect, s': Cluster, i: Id)
    requires LogStep(s, e, f, s') && ElectionInv(s) && LogInv(s) && Small(s.ids) && Compared(s) && BackersBehind(s)
    requires Actor(e) in s.nodes && Moves(s, Actor(e), f.node) && i in s.nodes && i != Actor(e)
    requires Backs(s', Actor(e), i)
    ensures f.node.log <= s.nodes[i].log
  {
    var a := Actor(e);
    StepVotes(s, e, f, s');
    ElectionParts(s);
    hide LogStep, ElectionInv, LogInv, VotesInv, WinsSound, NodeVotes;
    if Backs(s, a, i) {
      NoRivalLeads(s, a, i);
    } else {
      BallotsOf(s, e, f, s', (s.nodes[i].currentTerm, a));
      NewBacker(s, e, f, s', i);
    }
  }

  lemma ElectionParts(s: Cluster)
    requires ElectionInv(s)
    ensures VotesInv(s) && WinsSound(s) && 0 !in s.ids && s.nodes.Keys == s.ids
  {
    hide VotesInv, WinsSound, TokensOnce, TalliesSound;
  }

  lemma BackerHas(s: Cluster, i: Id, j: Id, n': Node)
    requires BackersBehind(s) && i in s.nodes && j in s.nodes && Backs(s, j, i) && Moves(s, i, n')
    ensures s.nodes[j].log <= n'.log
  {
    hide Backs;
  }

  lemma BackerStep(s: Cluster, e: Event, f: Effect, s': Cluster, i: Id, j: Id)
    requires LogStep(s, e, f, s') && ElectionInv(s) && LogInv(s) && Small(s.ids) && Compared(s) && BackersBehind(s)
    requires Actor(e) in s.nodes && Moves(s, Actor(e), f.node) && i in s.nodes && j in s.nodes && Backs(s', j, i)
    ensures i in s'.nodes && j in s'.nodes && s'.nodes[j].log <= s'.nodes[i].log
  {
    hide *;
    StepVotes(s, e, f, s');
    ElectionParts(s);
    var a := Actor(e);
    if i == j {
    } else if i == a {
      ActorStood(s, e, f, s', j);
      BackerHas(s, a, j, f.node);
    } else {
      OneOther(s.ids, i, a, j);
      OtherBacked(s, e, f, s', i);
    }
  }

  lemma LeadersKeepStep(s: Cluster, e: Event, f: Effect, s': Cluster)
    requires LogStep(s, e, f, s') && LeadersHold(s) && LeadersKeep(s) && WinsSound(s')
    requires Actor(e) in s.nodes && Moves(s, Actor(e), f.node)
    ensures LeadersKeep(s')
  {
    hide LogStep, WonSound, Grows, NodeVotes;
    LeaderLogStep(s, e, f, s');
    StepVotes(s, e, f, s');
    forall t | t in s'.h.leaderLog && t in s'.h.won && s'.h.won[t] in s'.nodes
      ensures s'.h.leaderLog[t] <= s'.nodes[s'.h.won[t]].log
    {
      if f.node.role == Leader && t == f.node.currentTerm {
        assert s'.nodes[Actor(e)].role == Leader;
      } else {
        assert t in s.h.leaderLog && t in s.h.won && s'.h.won[t] == s.h.won[t];
        assert s.h.leaderLog[t] <= s.nodes[s.h.won[t]].log;
      }
    }
  }

  lemma FromLogStep(n: Node, e: Event, n': Node)
    requires AppliedFromLog(n) && NodeCommits(n, e, n') && n.log <= n'.log
    ensures AppliedFromLog(n')
  {
  }

  lemma FromLogsStep(s: Cluster, e: Event, f: Effect, s': Cluster)
    requires LogStep(s, e, f, s') && AllFromLog(s) && NodeCommits(s.nodes[Actor(e)], e, f.node)
    requires s.nodes[Actor(e)].log <= f.node.log
    ensures AllFromLog(s')
  {
    StepVotes(s, e, f, s');
    hide LogStep, NodeVotes, NodeCommits, AppliedFromLog;
    FromLogStep(s.nodes[Actor(e)], e, f.node);
  }

  lemma BackersStep(s: Cluster, e: Event, f: Effect, s': Cluster)
    requires LogStep(s, e, f, s') && ElectionInv(s) && LogInv(s) && Small(s.ids) && Compared(s) && BackersBehind(s)
    requires Actor(e) in s.nodes && Moves(s, Actor(e), f.node) && s'.nodes.Keys == s.nodes.Keys
    ensures BackersBehind(s')
  {
    hide LogStep, ElectionInv, LogInv, Compared, Moves, Backs;
    forall i, j | i in s'.nodes && j in s'.nodes && Backs(s', j, i) ensures s'.nodes[j].log <= s'.nodes[i].log {
      BackerStep(s, e, f, s', i, j);
    }
  }

  lemma PairStep(s: Cluster, e: Event, s': Cluster)
    requires Steps(s, e, s') && ElectionInv(s) && LogInv(s) && PairInv(s) && Small(s.ids)
    ensures PairInv(s') && s'.nodes.Keys == s.nodes.Keys
    ensures forall i :: i in s.nodes ==> s.nodes[i].log <= s'.nodes[i].log
  {
    hide Steps, ElectionInv, LogInv, Act, CanAct, LogStep, NodeVotes, NodeCommits, WinsSound, Compared, BackersBehind,
      LeadersKeep, AllFromLog, ListsPeers, VotesInv;
    SmallWins(s.ids);
    StepEnabled(s, e, s');
    ActCommits(s.nodes[Actor(e)], e);
    var f := StepIsLogStep(s, e, s');
    StepVotes(s, e, f, s');
    ActorMoves(s, e, f, s');
    ElectionParts(s);
    ComparedStep(s, e, f, s');
    BackersStep(s, e, f, s');
    LogsHold(s);
    ElectionStep(s, e, s');
    ElectionParts(s');
    LeadersKeepStep(s, e, f, s');
    FromLogsStep(s, e, f, s');
  }

  lemma LogsHold(s: Cluster)
    requires LogInv(s)
    ensures LeadersHold(s)
  {
    hide LeadersHold, Snapped, SnapsSound, AppendsSound, LeadersStood;
  }

  // ---------- Runs ----------

  lemma InitPair(ids: set<Id>)
    requires 0 !in ids
    ensures PairInv(Init(ids)) && Init(ids).nodes.Keys == ids
  {
  }

  lemma {:induction false} PairInRuns(states: seq<Cluster>, events: seq<Event>, k: nat)
    requires Run(states, events) && Small(states[0].ids) && k < |states|
    ensures PairInv(states[k]) && states[k].nodes.Keys == states[0].ids
  {
    hide Steps, PairInv, ElectionInv, LogInv, Init;
    if k == 0 {
      InitPair(states[0].ids);
    } else {
      SmallWins(states[0].ids);
      PairInRuns(states, events, k - 1);
      ElectionInRuns(states, events, k - 1);
      LogsInRuns(states, events, k - 1);
      PairStep(states[k - 1], events[k - 1], states[k]);
    }
  }

  /** No entry of any log is ever cut or replaced. */
  lemma {:induction false} LogsOnlyGrow(states: seq<Cluster>, events: seq<Event>, j: nat, k: nat, i: Id)
    requires Run(states, events) && Small(states[0].ids) && j <= k < |states| && i in states[0].ids
    ensures i in states[j].nodes && i in states[k].nodes && states[j].nodes[i].log <= states[k].nodes[i].log
    decreases k
  {
    hide Steps, PairInv, ElectionInv, LogInv, Init;
    PairInRuns(states, events, j);
    if j < k {
      SmallWins(states[0].ids);
      LogsOnlyGrow(states, events, j, k - 1, i);
      PairInRuns(states, events, k - 1);
      ElectionInRuns(states, events, k - 1);
      LogsInRuns(states, events, k - 1);
      PairStep(states[k - 1], events[k - 1], states[k]);
    }
  }

  /** State-machine safety of a cluster of one or two, in every run. */
  lemma PairSafety(states: seq<Cluster>, events: seq<Event>, j: nat, a: Id, k: nat, b: Id, x: nat)
    requires Run(states, events) && Small(states[0].ids)
    requires j < |states| && a in states[j].nodes && x < |states[j].nodes[a].applied|
    requires k < |states| && b in states[k].nodes && x < |states[k].nodes[b].applied|
    ensures states[j].nodes[a].applied[x] == states[k].nodes[b].applied[x]
    decreases if k < j then 1 else 0
  {
    hide PairInv;
    if k < j {
      PairSafety(states, events, k, b, j, a, x);
    } else {
      PairInRuns(states, events, j);
      PairInRuns(states, events, k);
      LogsOnlyGrow(states, events, j, k, a);
      hide Run, Small;
      FromLogs(states[j], a, x);
      FromLogs(states[k], b, x);
      OneLog(states[k], a, b);
    }
  }

  lemma FromLogs(s: Cluster, a: Id, x: nat)
    requires PairInv(s) && a in s.nodes && x < |s.nodes[a].applied|
    ensures x < |s.nodes[a].log| && s.nodes[a].applied[x] == Applied(x + 1, s.nodes[a].log[x].command)
  {
    hide Compared, BackersBehind, LeadersKeep;
    assert AppliedFromLog(s.nodes[a]);
  }

  lemma OneLog(s: Cluster, a: Id, b: Id)
    requires PairInv(s) && a in s.nodes && b in s.nodes
    ensures Comparable(s.nodes[a].log, s.nodes[b].log)
  {
    hide AllFromLog, BackersBehind, LeadersKeep;
  }
}
