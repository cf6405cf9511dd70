/**
 Log matching: every log in the cluster is, up to each of its entries, the log of the leader of
 that entry's term. Two logs that agree on the term at an index therefore agree on everything up
 to it.
 */
module RaftLogs {
  import opened RaftNode
  import opened RaftCluster
  import opened RaftElection

  type Logs = map<nat, seq<Entry>>

  /** Each entry of `log` sits in its term's leader log, below the same entries. */
  ghost predicate Backed(log: seq<Entry>, leaders: Logs) {
    forall k :: 0 <= k < |log| ==> BackedAt(log, k, leaders)
  }

  ghost predicate BackedAt(log: seq<Entry>, k: nat, leaders: Logs)
    requires k < |log|
  {
    var t := log[k].term;
    t in leaders && k < |leaders[t]| && log[..k + 1] == leaders[t][..k + 1]
  }

  /** Terms start at 1, never decrease along the log and never exceed `bound`. */
  ghost predicate TermsUpTo(log: seq<Entry>, bound: nat) {
    && (forall k :: 0 <= k < |log| ==> 1 <= log[k].term <= bound)
    && (forall j, k :: 0 <= j < k < |log| ==> log[j].term <= log[k].term)
  }

  ghost predicate Grows(a: Logs, b: Logs) {
    forall t :: t in a ==> t in b && a[t] <= b[t]
  }

  lemma BackedGrows(log: seq<Entry>, a: Logs, b: Logs)
    requires Backed(log, a) && Grows(a, b)
    ensures Backed(log, b)
  {
    forall k | 0 <= k < |log| ensures BackedAt(log, k, b) {
      assert BackedAt(log, k, a);
    }
  }

  /** The heart of log matching. */
  lemma Match(a: seq<Entry>, b: seq<Entry>, k: nat, leaders: Logs)
    requires Backed(a, leaders) && Backed(b, leaders)
    requires k < |a| && k < |b| && a[k].term == b[k].term
    ensures a[..k + 1] == b[..k + 1]
  {
    assert BackedAt(a, k, leaders) && BackedAt(b, k, leaders);
  }

  lemma BackedPrefix(log: seq<Entry>, m: nat, leaders: Logs)
    requires Backed(log, leaders) && m <= |log|
    ensures Backed(log[..m], leaders)
  {
    forall k | 0 <= k < m ensures BackedAt(log[..m], k, leaders) {
      assert BackedAt(log, k, leaders);
      assert log[..m][..k + 1] == log[..k + 1];
    }
  }

  // ---------- Messages ----------

  /** An AppendEntries body cut from `log`. */
  ghost predicate CutFrom(ae: Body, log: seq<Entry>)
    requires ae.AppendEntries?
  {
    && ae.prevLogIndex + |ae.entries| <= |log|
    && ae.entries == log[ae.prevLogIndex..ae.prevLogIndex + |ae.entries|]
    && ae.prevLogTerm == PrevTerm(log, ae.prevLogIndex)
  }

  /** What the leader sends a peer whose nextIndex lies beyond the leader's log; nobody accepts it. */
  predicate Dud(ae: Body)
    requires ae.AppendEntries?
  {
    ae.prevLogIndex > 0 && ae.prevLogTerm == 0 && ae.entries == []
  }

  lemma CutGrows(ae: Body, a: seq<Entry>, b: seq<Entry>)
    requires ae.AppendEntries? && CutFrom(ae, a) && a <= b
    ensures CutFrom(ae, b)
  {
  }

  ghost predicate LogsMatch(a: seq<Entry>, b: seq<Entry>) {
    forall k :: 0 <= k < |a| && k < |b| && a[k].term == b[k].term ==> a[..k + 1] == b[..k + 1]
  }

  ghost predicate Positive(log: seq<Entry>) {
    forall k :: 0 <= k < |log| ==> 1 <= log[k].term
  }

  lemma BackedMatch(a: seq<Entry>, b: seq<Entry>, leaders: Logs)
    requires Backed(a, leaders) && Backed(b, leaders)
    ensures LogsMatch(a, b)
  {
    forall k | 0 <= k < |a| && k < |b| && a[k].term == b[k].term ensures a[..k + 1] == b[..k + 1] {
      Match(a, b, k, leaders);
    }
  }

  /** A message the log is consistent with is no dud, and was cut where the two logs agree. */
  lemma CutAgrees(log: seq<Entry>, ae: Body, sender: seq<Entry>)
    requires ae.AppendEntries? && (CutFrom(ae, sender) || Dud(ae))
    requires LogsMatch(log, sender) && Positive(log)
    requires Consistent(log, ae.prevLogIndex, ae.prevLogTerm)
    ensures CutFrom(ae, sender)
    ensures ae.prevLogIndex <= |log| && ae.prevLogIndex <= |sender|
    ensures log[..ae.prevLogIndex] == sender[..ae.prevLogIndex]
  {
    var prev := ae.prevLogIndex;
    if prev > 0 {
      assert log[..prev - 1 + 1] == sender[..prev - 1 + 1];
    }
  }

  lemma AgreesUpTo(log: seq<Entry>, sender: seq<Entry>, prev: nat, c: nat)
    requires LogsMatch(log, sender) && prev <= c <= |log| && c <= |sender| && log[..prev] == sender[..prev]
    requires c > prev ==> log[c - 1].term == sender[c - 1].term
    ensures log[..c] == sender[..c]
  {
    hide LogsMatch;
    if c > prev {
      MatchUpTo(log, sender, c - 1);
    }
  }

  lemma MatchUpTo(a: seq<Entry>, b: seq<Entry>, k: nat)
    requires LogsMatch(a, b) && k < |a| && k < |b| && a[k].term == b[k].term
    ensures a[..k + 1] == b[..k + 1]
  {
  }

  /** Where the log is cut, if it is: it has the sender's terms up to there. */
  lemma GapOf(log: seq<Entry>, ae: Body, sender: seq<Entry>) returns (c: nat)
    requires ae.AppendEntries? && CutFrom(ae, sender) && ae.prevLogIndex <= |log|
    ensures ae.prevLogIndex <= c <= ae.prevLogIndex + |ae.entries| && c <= |log| && c <= |sender|
    ensures c > ae.prevLogIndex ==> log[c - 1].term == sender[c - 1].term
    ensures var r := Overwrite(log, ae.prevLogIndex, ae.entries);
            if c == ae.prevLogIndex + |ae.entries| then r == log
            else r == log[..c] + ae.entries[c - ae.prevLogIndex..]
                 && (c == |log| || log[c].term != ae.entries[c - ae.prevLogIndex].term)
  {
    hide FirstGap, PrevTerm;
    c := FirstGap(log, ae.prevLogIndex, ae.entries, ae.prevLogIndex);
    if c > ae.prevLogIndex {
      assert ae.entries[c - 1 - ae.prevLogIndex] == sender[c - 1];
    }
  }

  /** Cut at `c` and filled from the message, the log is the sender's as far as the message reaches. */
  lemma FilledFrom(log: seq<Entry>, ae: Body, sender: seq<Entry>, c: nat)
    requires ae.AppendEntries? && CutFrom(ae, sender) && ae.prevLogIndex <= c < ae.prevLogIndex + |ae.entries|
    requires c <= |log| && c <= |sender| && log[..c] == sender[..c]
    requires c == |log| || log[c].term != ae.entries[c - ae.prevLogIndex].term
    ensures var m := ae.prevLogIndex + |ae.entries|;
            && m <= |sender| && log[..c] + ae.entries[c - ae.prevLogIndex..] == sender[..m] && !(sender[..m] <= log)
  {
    hide PrevTerm;
    var prev := ae.prevLogIndex;
    var m := prev + |ae.entries|;
    assert ae.entries[c - prev] == sender[c];
    assert ae.entries[c - prev..] == sender[c..m];
    assert sender[..m] == sender[..c] + sender[c..m];
    assert c == |log| || log[c] != sender[..m][c];
  }

  lemma CutInRange(ae: Body, sender: seq<Entry>)
    requires ae.AppendEntries? && CutFrom(ae, sender)
    ensures ae.prevLogIndex + |ae.entries| <= |sender|
  {
    hide PrevTerm;
  }

  /** What an accepted message does to a log: it agrees with the sender's log as far as the message
      reached, and is otherwise either untouched or exactly that much of the sender's log. */
  lemma Accepted(log: seq<Entry>, ae: Body, sender: seq<Entry>)
    requires ae.AppendEntries? && (CutFrom(ae, sender) || Dud(ae))
    requires LogsMatch(log, sender) && Positive(log)
    requires Consistent(log, ae.prevLogIndex, ae.prevLogTerm)
    ensures var m := ae.prevLogIndex + |ae.entries|;
            var r := Overwrite(log, ae.prevLogIndex, ae.entries);
            && CutFrom(ae, sender)
            && m <= |sender| && m <= |r| && r[..m] == sender[..m]
            && (r == log || (r == sender[..m] && !(sender[..m] <= log)))
  {
    hide LogsMatch, Positive, Consistent, Overwrite, CutFrom, Dud;
    CutAgrees(log, ae, sender);
    CutInRange(ae, sender);
    var c := GapOf(log, ae, sender);
    AgreesUpTo(log, sender, ae.prevLogIndex, c);
    if c < ae.prevLogIndex + |ae.entries| {
      FilledFrom(log, ae, sender, c);
    }
  }

  lemma CommonPrefix<T>(p: seq<T>, a: seq<T>, b: seq<T>, m: nat)
    requires p <= a && p <= b && m <= |p|
    ensures a[..m] <= b
  {
    assert a[..m] == p[..m] == b[..m];
  }

  lemma PrefixOfTake<T>(p: seq<T>, a: seq<T>, m: nat)
    requires p <= a && |p| <= m <= |a|
    ensures p <= a[..m]
  {
  }

  /** A prefix that receiver and sender share survives an AppendEntries. */
  lemma SharedSurvives(p: seq<Entry>, log: seq<Entry>, ae: Body, sender: seq<Entry>)
    requires ae.AppendEntries? && (CutFrom(ae, sender) || Dud(ae))
    requires LogsMatch(log, sender) && Positive(log)
    requires Consistent(log, ae.prevLogIndex, ae.prevLogTerm)
    requires p <= log && p <= sender
    ensures p <= Overwrite(log, ae.prevLogIndex, ae.entries)
  {
    hide CutFrom, LogsMatch, Positive, Overwrite, Consistent;
    Accepted(log, ae, sender);
    var m := ae.prevLogIndex + |ae.entries|;
    if m <= |p| {
      CommonPrefix(p, sender, log, m);
    } else {
      PrefixOfTake(p, sender, m);
    }
  }

  // ---------- What one handler call does to the log ----------

  ghost predicate NodeLogs(n: Node, e: Event, n': Node) {
    || n'.log == n.log
    || (e.Submit? && n.role == Leader && n'.role == Leader && n'.log == n.log + [Entry(n.currentTerm, e.command)])
    || (e.Deliver? && e.p.body.AppendEntries? && Accepts(n, e.p.body)
        && n'.log == Overwrite(n.log, e.p.body.prevLogIndex, e.p.body.entries)
        && n'.currentTerm == e.p.body.term && n'.role == Follower)
  }

  ghost predicate OutLogs(n': Node, out: seq<Send>) {
    forall k :: 0 <= k < |out| && out[k].body.AppendEntries? ==>
      var ae := out[k].body;
      n'.role == Leader && ae.term == n'.currentTerm && ae.leaderId == n'.id && ae.leaderCommit == n'.commitIndex
      && (CutFrom(ae, n'.log) || Dud(ae))
  }

  lemma BroadcastCuts(n: Node, peers: seq<Id>)
    requires CanSend(n, peers) && n.role == Leader
    ensures OutLogs(n, Broadcast(n, peers))
  {
  }

  lemma ActLogs(n: Node, e: Event)
    requires CanAct(n, e)
    ensures NodeLogs(n, e, Act(n, e).node)
    ensures OutLogs(Act(n, e).node, Act(n, e).out)
  {
    hide MaybeCommit, FollowCommit, UpToDate;
    match e
    case Timeout(_, _) =>
    case Tick(_, peers) =>
      if n.role == Leader {
        BroadcastCuts(n, peers);
      }
    case Submit(_, _, peers) =>
      if n.role == Leader {
        BroadcastCuts(Act(n, e).node, peers);
      }
    case Deliver(p, peers) =>
      match p.body {
        case RequestVote(_, _, _, _) =>
        case VoteReply(_, _) =>
          if Act(n, e).out != [] {
            BroadcastCuts(Act(n, e).node, peers);
          }
        case AppendEntries(_, _, _, _, _, _) =>
        case AppendReply(_, _, _) =>
      }
  }

  // ---------- The invariant ----------

  ghost predicate LeadersHold(s: Cluster) {
    && s.h.leaderLog.Keys == s.h.won.Keys
    && (forall i :: i in s.nodes && s.nodes[i].role == Leader ==>
          s.nodes[i].currentTerm in s.h.leaderLog && s.h.leaderLog[s.nodes[i].currentTerm] == s.nodes[i].log)
  }

  /** Every log that matters was, at some moment, held by a node. */
  ghost predicate Snapped(s: Cluster) {
    && (forall i :: i in s.nodes ==> Snap(i, s.nodes[i].currentTerm, s.nodes[i].log) in s.h.snaps)
    && (forall k :: k in s.h.candLog ==> Snap(k.1, k.0, s.h.candLog[k]) in s.h.snaps)
    && (forall k :: k in s.h.ballots ==> Snap(k.1, k.0, s.h.ballots[k].log) in s.h.snaps)
    && (forall t :: t in s.h.leaderLog && t in s.h.won ==> Snap(s.h.won[t], t, s.h.leaderLog[t]) in s.h.snaps)
  }

  ghost predicate SnapSound(sn: Snap, s: Cluster) {
    && sn.id in s.nodes && sn.term <= s.nodes[sn.id].currentTerm
    && Backed(sn.log, s.h.leaderLog) && TermsUpTo(sn.log, sn.term)
  }

  ghost predicate SnapsSound(s: Cluster) {
    forall sn :: sn in s.h.snaps ==> SnapSound(sn, s)
  }

  ghost predicate AppendSound(s: Cluster, p: Packet) {
    p.body.AppendEntries? ==>
      var t := p.body.term;
      && t in s.h.leaderLog && t in s.h.won && s.h.won[t] == p.from == p.body.leaderId
      && (CutFrom(p.body, s.h.leaderLog[t]) || Dud(p.body))
  }

  ghost predicate AppendsSound(s: Cluster) {
    forall p :: p in s.sent ==> AppendSound(s, p)
  }

  /** A leader's log starts with the log its candidacy was judged by. */
  ghost predicate LeadersStood(s: Cluster) {
    forall t :: t in s.h.won && t in s.h.leaderLog ==>
      (t, s.h.won[t]) in s.h.candLog && s.h.candLog[(t, s.h.won[t])] <= s.h.leaderLog[t]
  }

  ghost predicate LogInv(s: Cluster) {
    LeadersHold(s) && Snapped(s) && SnapsSound(s) && AppendsSound(s) && LeadersStood(s)
  }

  // ---------- Preservation ----------

  ghost predicate LogStep(s: Cluster, e: Event, f: Effect, s': Cluster) {
    var i := Actor(e);
    && VoteStep(s, e, f.node, s') && i in s.stamp
    && NodeLogs(s.nodes[i], e, f.node) && OutLogs(f.node, f.out) && f.node.id == i
    && s'.sent == s.sent + Stamped(i, s.stamp[i], f.out, Tag(e))
    && (s.nodes[i].role != Leader && f.node.role == Leader ==> f.node.currentTerm !in s.h.won)
  }

  lemma StepIsLogStep(s: Cluster, e: Event, s': Cluster) returns (f: Effect)
    requires Steps(s, e, s') && ElectionInv(s) && MajorityWins(s.ids)
    ensures LogStep(s, e, f, s') && f == Act(s.nodes[Actor(e)], e)
  {
    StepIsVoteStep(s, e);
    ActLogs(s.nodes[Actor(e)], e);
    ActStaysReady(s.nodes[Actor(e)], e, s.ids);
    f := Act(s.nodes[Actor(e)], e);
    hide Act, NodeLogs, OutLogs, VoteStep;
    if s.nodes[Actor(e)].role != Leader && f.node.role == Leader {
      WinnerIsNew(s, e, f.node, s');
    }
  }

  lemma LeaderLogStep(s: Cluster, e: Event, f: Effect, s': Cluster)
    requires LogStep(s, e, f, s') && LeadersHold(s)
    ensures f.node.role != Leader ==> s'.h.leaderLog == s.h.leaderLog && s'.h.won == s.h.won
    ensures f.node.role == Leader ==>
      && s'.h.leaderLog == s.h.leaderLog[f.node.currentTerm := f.node.log]
      && s'.h.won == (if s.nodes[Actor(e)].role == Leader then s.h.won else s.h.won[f.node.currentTerm := Actor(e)])
      && (f.node.currentTerm in s.h.leaderLog ==>
            s.nodes[Actor(e)].role == Leader && f.node.currentTerm == s.nodes[Actor(e)].currentTerm
            && s.h.leaderLog[f.node.currentTerm] == s.nodes[Actor(e)].log <= f.node.log)
    ensures Grows(s.h.leaderLog, s'.h.leaderLog)
    ensures forall t :: t in s.h.won ==> t in s'.h.won && s'.h.won[t] == s.h.won[t]
    ensures forall t :: t in s.h.won && t in s.h.quorum ==> t in s'.h.quorum && s'.h.quorum[t] == s.h.quorum[t]
  {
    hide Counts, OutLogs;
  }

  lemma LeaderHolds(s: Cluster, e: Event, f: Effect, s': Cluster, i: Id)
    requires LogStep(s, e, f, s') && LeadersHold(s)
    requires i in s'.nodes && s'.nodes[i].role == Leader
    requires forall j :: j in {i, Actor(e)} && s.nodes[j].role == Leader ==>
      s.nodes[j].currentTerm in s.h.won && s.h.won[s.nodes[j].currentTerm] == j
    ensures s'.nodes[i].currentTerm in s'.h.leaderLog && s'.h.leaderLog[s'.nodes[i].currentTerm] == s'.nodes[i].log
  {
    LeaderLogStep(s, e, f, s');
    hide Observe, NodeVotes, NodeLogs, OutLogs, Grows, Stamped;
  }

  lemma LeadersStep(s: Cluster, e: Event, f: Effect, s': Cluster)
    requires LogStep(s, e, f, s') && LeadersHold(s) && WinsSound(s)
    ensures LeadersHold(s')
  {
    LeaderLogStep(s, e, f, s');
    hide LogStep, WonSound, Grows;
    forall i | i in s'.nodes && s'.nodes[i].role == Leader
      ensures s'.nodes[i].currentTerm in s'.h.leaderLog && s'.h.leaderLog[s'.nodes[i].currentTerm] == s'.nodes[i].log
    {
      SameMembers(s, e, f, s');
      LeaderHolds(s, e, f, s', i);
    }
  }

  lemma SameMembers(s: Cluster, e: Event, f: Effect, s': Cluster)
    requires LogStep(s, e, f, s')
    ensures s'.nodes.Keys == s.nodes.Keys && Actor(e) in s.nodes && s'.nodes[Actor(e)] == f.node
    ensures forall i :: i in s.nodes ==> s.nodes[i].currentTerm <= s'.nodes[i].currentTerm
    ensures forall i :: i in s.nodes && i != Actor(e) ==> s'.nodes[i] == s.nodes[i]
  {
  }

  lemma SnappedStep(s: Cluster, e: Event, f: Effect, s': Cluster)
    requires LogStep(s, e, f, s') && LeadersHold(s) && Snapped(s) && WinsSound(s)
    ensures Snapped(s')
  {
    LeaderLogStep(s, e, f, s');
    SnappedVotes(s, e, f, s');
    hide Observe, NodeVotes, NodeLogs, OutLogs, WonSound, LeadersHold, Grows, Stamped;
  }

  lemma SnappedVotes(s: Cluster, e: Event, f: Effect, s': Cluster)
    requires LogStep(s, e, f, s') && Snapped(s)
    ensures s'.h.snaps == s.h.snaps + {Snap(Actor(e), f.node.currentTerm, f.node.log)}
    ensures forall k :: k in s'.h.candLog ==> Snap(k.1, k.0, s'.h.candLog[k]) in s'.h.snaps
    ensures forall k :: k in s'.h.ballots ==> Snap(k.1, k.0, s'.h.ballots[k].log) in s'.h.snaps
  {
    hide Counts, OutLogs, Stamped;
  }

  lemma TermsPrefix(log: seq<Entry>, m: nat, bound: nat)
    requires TermsUpTo(log, bound) && m <= |log|
    ensures TermsUpTo(log[..m], bound)
  {
  }

  lemma ExtendedSound(log: seq<Entry>, entry: Entry, leaders: Logs)
    requires Backed(log, leaders) && TermsUpTo(log, entry.term) && 1 <= entry.term
    requires entry.term in leaders && leaders[entry.term] == log + [entry]
    ensures Backed(log + [entry], leaders) && TermsUpTo(log + [entry], entry.term)
  {
    var r := log + [entry];
    forall k | 0 <= k < |r| ensures BackedAt(r, k, leaders) {
      if k < |log| {
        assert BackedAt(log, k, leaders);
        assert r[..k + 1] == log[..k + 1];
      }
    }
  }

  lemma AcceptedSound(log: seq<Entry>, bound: nat, ae: Body, sender: seq<Entry>, leaders: Logs)
    requires ae.AppendEntries? && (CutFrom(ae, sender) || Dud(ae)) && bound <= ae.term
    requires Backed(log, leaders) && Backed(sender, leaders)
    requires TermsUpTo(log, bound) && TermsUpTo(sender, ae.term)
    requires Consistent(log, ae.prevLogIndex, ae.prevLogTerm)
    ensures ae.prevLogIndex <= |log|
    ensures var r := Overwrite(log, ae.prevLogIndex, ae.entries);
            Backed(r, leaders) && TermsUpTo(r, ae.term)
  {
    hide CutFrom, Dud, Overwrite, Backed, Consistent, TermsUpTo, LogsMatch, Positive;
    ConsistentInRange(log, ae.prevLogIndex, ae.prevLogTerm);
    BackedMatch(log, sender, leaders);
    TermsPositive(log, bound);
    Accepted(log, ae, sender);
    var m := ae.prevLogIndex + |ae.entries|;
    BackedPrefix(sender, m, leaders);
    TermsPrefix(sender, m, ae.term);
    TermsWeaken(log, bound, ae.term);
  }

  lemma ConsistentInRange(log: seq<Entry>, prev: nat, prevTerm: nat)
    requires Consistent(log, prev, prevTerm)
    ensures prev <= |log|
  {
  }

  lemma TermsWeaken(log: seq<Entry>, bound: nat, bound': nat)
    requires TermsUpTo(log, bound) && bound <= bound'
    ensures TermsUpTo(log, bound')
  {
  }

  lemma TermsPositive(log: seq<Entry>, bound: nat)
    requires TermsUpTo(log, bound)
    ensures Positive(log)
  {
  }

  /** The sender of an AppendEntries in transit, as the receiver may rely on it. */
  lemma SenderSound(s: Cluster, p: Packet)
    requires LogInv(s) && p in s.sent && p.body.AppendEntries?
    ensures p.body.term in s.h.leaderLog && (CutFrom(p.body, s.h.leaderLog[p.body.term]) || Dud(p.body))
    ensures Backed(s.h.leaderLog[p.body.term], s.h.leaderLog) && TermsUpTo(s.h.leaderLog[p.body.term], p.body.term)
  {
    assert AppendSound(s, p);
    assert SnapSound(Snap(p.from, p.body.term, s.h.leaderLog[p.body.term]), s);
  }

  /** The actor's new log is again backed, with terms up to its new term. */
  lemma NewLogSound(s: Cluster, e: Event, f: Effect, s': Cluster)
    requires LogStep(s, e, f, s') && LogInv(s) && CandidacySound(s) && WinsSound(s)
    ensures Backed(f.node.log, s'.h.leaderLog) && TermsUpTo(f.node.log, f.node.currentTerm)
  {
    var n, n' := s.nodes[Actor(e)], f.node;
    LeaderLogStep(s, e, f, s');
    assert SnapSound(Snap(Actor(e), n.currentTerm, n.log), s);
    BackedGrows(n.log, s.h.leaderLog, s'.h.leaderLog);
    if n'.log == n.log {
    } else if e.Submit? {
      assert WonSound(s, n.currentTerm);
      ExtendedSound(n.log, Entry(n.currentTerm, e.command), s'.h.leaderLog);
    } else {
      var ae := e.p.body;
      SenderSound(s, e.p);
      hide LogInv, Observe, Backed, TermsUpTo, WinsSound, CandidacySound, Overwrite, CutFrom, OutLogs;
      AcceptedSound(n.log, n.currentTerm, ae, s.h.leaderLog[ae.term], s.h.leaderLog);
      BackedGrows(n'.log, s.h.leaderLog, s'.h.leaderLog);
    }
  }

  lemma OldSnap(s: Cluster, s': Cluster, sn: Snap)
    requires SnapSound(sn, s) && Grows(s.h.leaderLog, s'.h.leaderLog)
    requires s'.nodes.Keys == s.nodes.Keys
    requires forall i :: i in s.nodes ==> s.nodes[i].currentTerm <= s'.nodes[i].currentTerm
    ensures SnapSound(sn, s')
  {
    hide Backed, TermsUpTo, Grows;
    BackedGrows(sn.log, s.h.leaderLog, s'.h.leaderLog);
  }

  lemma SnapsStep(s: Cluster, e: Event, f: Effect, s': Cluster)
    requires LogStep(s, e, f, s') && LogInv(s) && CandidacySound(s) && WinsSound(s)
    ensures SnapsSound(s')
  {
    hide LogStep, LeadersHold, Snapped, AppendsSound, LeadersStood, Backed, TermsUpTo, Grows, CandidacySound, WinsSound;
    LeaderLogStep(s, e, f, s');
    NewLogSound(s, e, f, s');
    SnappedVotes(s, e, f, s');
    SameMembers(s, e, f, s');
    forall sn | sn in s'.h.snaps ensures SnapSound(sn, s') {
      if sn in s.h.snaps {
        OldSnap(s, s', sn);
      }
    }
  }

  lemma NewAppend(s: Cluster, e: Event, f: Effect, s': Cluster, p: Packet)
    requires LogStep(s, e, f, s') && LeadersHold(s') && WinsSound(s')
    requires p in s'.sent && p !in s.sent
    ensures AppendSound(s', p)
  {
    hide Observe, NodeLogs, NodeVotes, WonSound;
    var j :| 0 <= j < |f.out| && p == Packet(Actor(e), f.out[j].to, s.stamp[Actor(e)] + 1 + j, f.out[j].body, Tag(e));
    if p.body.AppendEntries? {
      assert s'.nodes[Actor(e)] == f.node;
      assert s'.h.leaderLog[f.node.currentTerm] == f.node.log;
    }
  }

  lemma AppendsStep(s: Cluster, e: Event, f: Effect, s': Cluster)
    requires LogStep(s, e, f, s') && LeadersHold(s) && AppendsSound(s) && LeadersHold(s') && WinsSound(s')
    ensures AppendsSound(s')
  {
    LeaderLogStep(s, e, f, s');
    hide Observe, NodeLogs, NodeVotes, OutLogs, WinsSound, CutFrom;
    forall p | p in s'.sent ensures AppendSound(s', p) {
      if p in s.sent {
        assert AppendSound(s, p);
        if p.body.AppendEntries? && !Dud(p.body) {
          CutGrows(p.body, s.h.leaderLog[p.body.term], s'.h.leaderLog[p.body.term]);
        }
      } else {
        NewAppend(s, e, f, s', p);
      }
    }
  }

  lemma NewLeaderWas(s: Cluster, e: Event, f: Effect, s': Cluster)
    requires LogStep(s, e, f, s') && CandidacySound(s)
    ensures Actor(e) in s.nodes
    ensures f.node.role == Leader && s.nodes[Actor(e)].role != Leader ==>
              (f.node.currentTerm, Actor(e)) in s.h.candLog && s.h.candLog[(f.node.currentTerm, Actor(e))] == f.node.log
    ensures f.node.role == Leader && s.nodes[Actor(e)].role == Leader ==>
              f.node.currentTerm == s.nodes[Actor(e)].currentTerm
  {
    hide OutLogs, Stamped, UpToDate, Observe;
  }

  lemma LeadersStoodStep(s: Cluster, e: Event, f: Effect, s': Cluster)
    requires LogStep(s, e, f, s') && LeadersHold(s) && LeadersStood(s) && CandidacySound(s)
    ensures LeadersStood(s')
  {
    LeaderLogStep(s, e, f, s');
    CandidacyKept(s, e, f, s');
    NewLeaderWas(s, e, f, s');
    SameTerms(s, e, f);
    hide LogStep, CandidacySound, Grows;
    forall t | t in s'.h.won && t in s'.h.leaderLog
      ensures (t, s'.h.won[t]) in s'.h.candLog && s'.h.candLog[(t, s'.h.won[t])] <= s'.h.leaderLog[t]
    {
      if f.node.role == Leader && t == f.node.currentTerm && s.nodes[Actor(e)].role == Leader {
        assert t in s.h.leaderLog && t in s.h.won;
      }
    }
  }

  lemma SameTerms(s: Cluster, e: Event, f: Effect)
    requires LeadersHold(s) && Actor(e) in s.nodes
    ensures s.nodes[Actor(e)].role == Leader ==>
              s.nodes[Actor(e)].currentTerm in s.h.leaderLog && s.nodes[Actor(e)].currentTerm in s.h.won
    ensures s.h.leaderLog.Keys == s.h.won.Keys
  {
  }

  lemma CandidacyKept(s: Cluster, e: Event, f: Effect, s': Cluster)
    requires LogStep(s, e, f, s') && CandidacySound(s)
    ensures forall k :: k in s.h.candLog ==> k in s'.h.candLog && s'.h.candLog[k] == s.h.candLog[k]
  {
    hide NodeLogs, OutLogs, Stamped, VoteStep;
    CandidacyStep(s, e, f.node, s');
  }

  lemma LogInvStep(s: Cluster, e: Event, s': Cluster)
    requires Steps(s, e, s') && ElectionInv(s) && LogInv(s) && MajorityWins(s.ids)
    ensures LogInv(s')
    ensures Grows(s.h.leaderLog, s'.h.leaderLog)
  {
    var f := StepIsLogStep(s, e, s');
    ElectionStep(s, e, s');
    hide Steps, LogStep, Act, VotesInv, TokensOnce, TalliesSound, WinsSound, LeadersHold, Snapped, SnapsSound,
      AppendsSound, LeadersStood, CandidacySound;
    assert CandidacySound(s) by { ElectionHasCandidates(s); }
    LeaderLogStep(s, e, f, s');
    LeadersStep(s, e, f, s');
    SnappedStep(s, e, f, s');
    SnapsStep(s, e, f, s');
    AppendsStep(s, e, f, s');
    LeadersStoodStep(s, e, f, s');
  }

  lemma ElectionHasCandidates(s: Cluster)
    requires ElectionInv(s)
    ensures CandidacySound(s)
  {
  }

  // ---------- Runs ----------

  lemma InitLogs(ids: set<Id>)
    requires 0 !in ids
    ensures LogInv(Init(ids))
  {
  }

  lemma {:induction false} LogsInRuns(states: seq<Cluster>, events: seq<Event>, k: nat)
    requires Run(states, events) && MajorityWins(states[0].ids) && k < |states|
    ensures LogInv(states[k])
  {
    hide Steps, ElectionInv, LogInv, Init;
    if k == 0 {
      InitLogs(states[0].ids);
    } else {
      LogsInRuns(states, events, k - 1);
      ElectionInRuns(states, events, k - 1);
      LogInvStep(states[k - 1], events[k - 1], states[k]);
    }
  }

  /** Log matching: in every reachable state, logs that agree on the term at an index are identical up to it. */
  lemma LogMatching(states: seq<Cluster>, events: seq<Event>, k: nat, a: Id, b: Id, index: nat)
    requires Run(states, events) && MajorityWins(states[0].ids) && k < |states|
    requires a in states[k].nodes && b in states[k].nodes
    requires index < |states[k].nodes[a].log| && index < |states[k].nodes[b].log|
    requires states[k].nodes[a].log[index].term == states[k].nodes[b].log[index].term
    ensures states[k].nodes[a].log[..index + 1] == states[k].nodes[b].log[..index + 1]
  {
    var s := states[k];
    LogsInRuns(states, events, k);
    hide Run, LeadersHold, AppendsSound, LeadersStood;
    assert SnapSound(Snap(a, s.nodes[a].currentTerm, s.nodes[a].log), s);
    assert SnapSound(Snap(b, s.nodes[b].currentTerm, s.nodes[b].log), s);
    Match(s.nodes[a].log, s.nodes[b].log, index, s.h.leaderLog);
  }

  // ---------- Terms along a log, in any membership ----------

  ghost predicate NodeTerms(n: Node) {
    TermsUpTo(n.log, n.currentTerm) && (n.role != Follower ==> 1 <= n.currentTerm)
  }

  ghost predicate AppendTerms(ae: Body) {
    ae.AppendEntries? ==>
      TermsUpTo(ae.entries, ae.term) && forall k :: 0 <= k < |ae.entries| ==> ae.prevLogTerm <= ae.entries[k].term
  }

  ghost predicate TermInv(s: Cluster) {
    && (forall i :: i in s.nodes ==> NodeTerms(s.nodes[i]))
    && (forall p :: p in s.sent ==> AppendTerms(p.body))
  }

  lemma CutTerms(ae: Body, log: seq<Entry>)
    requires ae.AppendEntries? && (CutFrom(ae, log) || Dud(ae)) && TermsUpTo(log, ae.term)
    ensures AppendTerms(ae)
  {
    if CutFrom(ae, log) {
      forall k | 0 <= k < |ae.entries| ensures ae.entries[k] == log[ae.prevLogIndex + k] {
      }
    }
  }

  lemma AppendedTerms(log: seq<Entry>, bound: nat, more: seq<Entry>, bound': nat)
    requires TermsUpTo(log, bound) && bound <= bound' && TermsUpTo(more, bound')
    requires log != [] && more != [] ==> log[|log| - 1].term <= more[0].term
    ensures TermsUpTo(log + more, bound')
  {
    var r := log + more;
    forall j, k | 0 <= j < k < |r| ensures r[j].term <= r[k].term {
      if j < |log| <= k {
        assert log[j].term <= log[|log| - 1].term <= more[0].term <= more[k - |log|].term;
      }
    }
  }

  lemma OverwrittenTerms(log: seq<Entry>, bound: nat, ae: Body)
    requires ae.AppendEntries? && TermsUpTo(log, bound) && bound <= ae.term && AppendTerms(ae)
    requires Consistent(log, ae.prevLogIndex, ae.prevLogTerm)
    ensures ae.prevLogIndex <= |log| && TermsUpTo(Overwrite(log, ae.prevLogIndex, ae.entries), ae.term)
  {
    var prev, entries := ae.prevLogIndex, ae.entries;
    var c := FirstGap(log, prev, entries, prev);
    TermsWeaken(log, bound, ae.term);
    if c < prev + |entries| {
      var more := entries[c - prev..];
      TermsPrefix(log, c, ae.term);
      TermsSuffix(entries, c - prev, ae.term);
      assert c > prev ==> log[c - 1].term == entries[c - 1 - prev].term <= entries[c - prev].term;
      assert c > 0 ==> log[..c][c - 1].term <= more[0].term;
      hide TermsUpTo, FirstGap;
      AppendedTerms(log[..c], ae.term, more, ae.term);
    }
  }

  lemma TermsSuffix(log: seq<Entry>, m: nat, bound: nat)
    requires TermsUpTo(log, bound) && m <= |log|
    ensures TermsUpTo(log[m..], bound)
  {
  }

  lemma NewTerms(n: Node, e: Event, n': Node)
    requires NodeTerms(n) && NodeVotes(n, e, n') && NodeLogs(n, e, n')
    requires e.Deliver? ==> AppendTerms(e.p.body)
    ensures NodeTerms(n')
  {
    if n'.log == n.log {
      TermsWeaken(n.log, n.currentTerm, n'.currentTerm);
    } else if e.Submit? {
      AppendedTerms(n.log, n.currentTerm, [Entry(n.currentTerm, e.command)], n.currentTerm);
    } else {
      hide TermsUpTo, AppendTerms, Overwrite, NodeVotes, Consistent;
      OverwrittenTerms(n.log, n.currentTerm, e.p.body);
    }
  }

  lemma NewAppendTerms(s: Cluster, i: Id, f: Effect, tag: nat, p: Packet)
    requires i in s.stamp && OutLogs(f.node, f.out) && NodeTerms(f.node)
    requires p in Stamped(i, s.stamp[i], f.out, tag)
    ensures AppendTerms(p.body)
  {
    hide NodeTerms, CutFrom, Dud, AppendTerms;
    var j :| 0 <= j < |f.out| && p == Packet(i, f.out[j].to, s.stamp[i] + 1 + j, f.out[j].body, tag);
    if p.body.AppendEntries? {
      LogTermsOf(f.node);
      CutTerms(p.body, f.node.log);
    } else {
      OtherTerms(p.body);
    }
  }

  lemma LogTermsOf(n: Node)
    requires NodeTerms(n)
    ensures TermsUpTo(n.log, n.currentTerm)
  {
  }

  lemma OtherTerms(body: Body)
    requires !body.AppendEntries?
    ensures AppendTerms(body)
  {
  }

  lemma StepLeaves(s: Cluster, e: Event, s': Cluster) returns (f: Effect)
    requires Steps(s, e, s')
    ensures Actor(e) in s.nodes && Actor(e) in s.stamp && (e.Deliver? ==> e.p in s.sent)
    ensures var n := s.nodes[Actor(e)]; NodeVotes(n, e, f.node) && NodeLogs(n, e, f.node) && OutLogs(f.node, f.out)
    ensures s'.nodes == s.nodes[Actor(e) := f.node]
    ensures s'.sent == s.sent + Stamped(Actor(e), s.stamp[Actor(e)], f.out, Tag(e))
  {
    var n := s.nodes[Actor(e)];
    ActStaysReady(n, e, s.ids);
    f := Act(n, e);
    ActVotes(n, e);
    ActLogs(n, e);
    hide Act, NodeLogs, NodeVotes, OutLogs, Stamped, Observe, ListsPeers, Routed;
  }

  lemma TermInvStep(s: Cluster, e: Event, s': Cluster)
    requires Steps(s, e, s') && TermInv(s)
    ensures TermInv(s')
  {
    hide Steps, NodeLogs, NodeVotes, OutLogs, AppendTerms, NodeTerms, Stamped;
    var f := StepLeaves(s, e, s');
    NewTerms(s.nodes[Actor(e)], e, f.node);
    forall p | p in s'.sent ensures AppendTerms(p.body) {
      if p !in s.sent {
        NewAppendTerms(s, Actor(e), f, Tag(e), p);
      }
    }
  }

  lemma {:induction false} TermsInRuns(states: seq<Cluster>, events: seq<Event>, k: nat)
    requires Run(states, events) && k < |states|
    ensures TermInv(states[k])
  {
    hide Steps, NodeTerms;
    if k == 0 {
      assert forall i :: i in states[0].nodes ==> states[0].nodes[i] == New(i) && NodeTerms(New(i)) by {
        forall i: Id ensures NodeTerms(New(i)) {
          NewNodeTerms(i);
        }
      }
    } else {
      hide TermInv, Init;
      TermsInRuns(states, events, k - 1);
      TermInvStep(states[k - 1], events[k - 1], states[k]);
    }
  }

  lemma NewNodeTerms(i: Id)
    ensures NodeTerms(New(i))
  {
  }

  /** Terms along a log never decrease, start at 1 and never exceed the holder's current term; this holds
      even where one term can have two leaders. */
  lemma LogTerms(states: seq<Cluster>, events: seq<Event>, k: nat, a: Id)
    requires Run(states, events) && k < |states| && a in states[k].nodes
    ensures TermsUpTo(states[k].nodes[a].log, states[k].nodes[a].currentTerm)
  {
    hide Run, TermsUpTo;
    TermsInRuns(states, events, k);
    assert NodeTerms(states[k].nodes[a]);
  }
}
