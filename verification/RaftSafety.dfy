/**
 State-machine safety, on the runs where it holds.

 The source lets a follower report its whole log length as the match index, and lets a leader take
 a success reply from any earlier leadership at face value. Both can overstate what a majority
 holds (RaftDivergence and RaftWitness give the runs). On runs where neither happens,
   - `Truthful`: a follower that answers success holds a prefix of that term's leader log, and
   - `Current`: a leader acts only on success replies to messages of its current term,
 nodes never apply different commands at one index, commit indices never fall and committed
 entries are never cut.
 */
module RaftSafety {
  import opened RaftNode
  import opened RaftCluster
  import opened RaftElection
  import opened RaftLogs
  import opened RaftCompleteness
  import opened RaftReplication

  // ---------- The two hypotheses ----------

  predicate AcceptsNow(n: Node, e: Event) {
    e.Deliver? && e.p.body.AppendEntries? && Accepts(n, e.p.body)
  }

  predicate Acks(n: Node, e: Event) {
    e.Deliver? && e.p.body.AppendReply? && e.p.body.success && n.role == Leader && e.p.body.term <= n.currentTerm
  }

  ghost predicate Truthful(s: Cluster, e: Event, s': Cluster) {
    var i := Actor(e);
    i in s.nodes && i in s'.nodes && AcceptsNow(s.nodes[i], e) ==>
      e.p.body.term in s.h.leaderLog && s'.nodes[i].log <= s.h.leaderLog[e.p.body.term]
  }

  ghost predicate Current(s: Cluster, e: Event) {
    Actor(e) in s.nodes && Acks(s.nodes[Actor(e)], e) ==> e.p.answers == s.nodes[Actor(e)].currentTerm
  }

  ghost predicate HonestRun(states: seq<Cluster>, events: seq<Event>) {
    && Run(states, events)
    && forall k :: 0 <= k < |events| ==> Truthful(states[k], events[k], states[k + 1]) && Current(states[k], events[k])
  }

  // ---------- What one handler call does to commits ----------

  /** The callbacks fired between `n` and `n'`: one per newly applied index, with the command now at it. */
  ghost predicate AppliesMore(n: Node, n': Node) {
    && n.lastApplied <= n'.lastApplied
    && (n'.lastApplied > n.lastApplied ==> n'.lastApplied == n'.commitIndex <= |n'.log|)
    && |n'.applied| == |n.applied| + (n'.lastApplied - n.lastApplied)
    && n.applied <= n'.applied
    && forall j :: n.lastApplied <= j < n'.lastApplied ==>
         n'.applied[|n.applied| + (j - n.lastApplied)] == Applied(j + 1, n'.log[j].command)
  }

  ghost predicate NodeCommits(n: Node, e: Event, n': Node) {
    && AppliesMore(n, n')
    && (AcceptsNow(n, e) ==>
          && n'.currentTerm == e.p.body.term
          && n'.commitIndex == (if e.p.body.leaderCommit > n.commitIndex then Min(e.p.body.leaderCommit,
              |n'.log|) else n.commitIndex)
          && (e.p.body.leaderCommit <= n.commitIndex ==> n'.lastApplied == n.lastApplied)
          && n'.matchIndex == n.matchIndex)
    && (Acks(n, e) ==>
          && n'.matchIndex == n.matchIndex[e.p.from := e.p.body.matchIndex] && n'.log == n.log
          && n'.role == Leader && n'.currentTerm == n.currentTerm
          && (n'.commitIndex != n.commitIndex ==>
                n.commitIndex < n'.commitIndex <= |n.log| && n.log[n'.commitIndex - 1].term == n.currentTerm
                && Replicates(n', e.peers, n'.commitIndex)))
    && (!AcceptsNow(n, e) && !Acks(n, e) ==>
          && n'.commitIndex == n.commitIndex && n'.lastApplied == n.lastApplied && n'.applied == n.applied
          && (if n'.role == Leader && n.role != Leader
              then n'.matchIndex.Keys == n.matchIndex.Keys + Elements(e.peers)
                   && forall p :: p in e.peers ==> n'.matchIndex[p] == 0
              else n'.matchIndex == n.matchIndex))
  }

  ghost predicate OutAcks(n: Node, e: Event, n': Node, out: seq<Send>) {
    forall k :: 0 <= k < |out| && out[k].body.AppendReply? && out[k].body.success ==>
      AcceptsNow(n, e) && out[k].body.matchIndex == |n'.log|
  }

  lemma CommitScanSound(n: Node, peers: seq<Id>, k: nat)
    requires k <= |n.log|
    ensures var c := CommitScan(n, peers, k);
            c == n.commitIndex
            || (n.commitIndex < c <= k && n.log[c - 1].term == n.currentTerm && Replicates(n, peers, c))
    decreases k
  {
  }

  lemma ApplySound(n: Node)
    requires n.commitIndex <= |n.log|
    ensures AppliesMore(n, ApplyCommitted(n))
  {
  }

  lemma MaybeCommitSound(n: Node, peers: seq<Id>)
    ensures var n' := MaybeCommit(n, peers);
            && AppliesMore(n, n')
            && (n'.commitIndex != n.commitIndex ==>
                  n.commitIndex < n'.commitIndex <= |n.log| && n.log[n'.commitIndex - 1].term == n.currentTerm
                  && Replicates(n, peers, n'.commitIndex))
  {
    hide CommitScan, ApplyCommitted;
    CommitScanSound(n, peers, |n.log|);
    var c := CommitScan(n, peers, |n.log|);
    if c != n.commitIndex {
      ApplySound(n.(commitIndex := c));
    }
  }

  lemma AppendReplyCommits(n: Node, e: Event)
    requires e.Deliver? && e.p.body.AppendReply? && CanAnswer(n, e.p.from, e.p.body)
    ensures var f := HandleAppendReply(n, e.p.from, e.p.body, e.peers);
            NodeCommits(n, e, f.node) && OutAcks(n, e, f.node, f.out)
  {
    hide MaybeCommit;
    if Acks(n, e) {
      MaybeCommitSound(n.(matchIndex := n.matchIndex[e.p.from := e.p.body.matchIndex],
                          nextIndex := n.nextIndex[e.p.from := e.p.body.matchIndex + 1]), e.peers);
    }
  }

  lemma FollowCommitSound(n: Node, leaderCommit: nat)
    ensures var n' := FollowCommit(n, leaderCommit);
            && AppliesMore(n, n')
            && n'.commitIndex == (if leaderCommit > n.commitIndex then Min(leaderCommit, |n.log|) else n.commitIndex)
            && (leaderCommit <= n.commitIndex ==> n'.lastApplied == n.lastApplied)
  {
  }

  lemma AppendEntriesCommits(n: Node, e: Event)
    requires e.Deliver? && e.p.body.AppendEntries?
    ensures var f := HandleAppendEntries(n, e.p.from, e.p.body);
            NodeCommits(n, e, f.node) && OutAcks(n, e, f.node, f.out)
  {
    hide Overwrite, FollowCommit;
    if Accepts(n, e.p.body) {
      FollowCommitSound(ContactFrom(n, e.p.body).(log := Overwrite(n.log, e.p.body.prevLogIndex, e.p.body.entries)),
          e.p.body.leaderCommit);
    }
  }

  lemma TimeoutCommits(n: Node, e: Event)
    requires e.Timeout?
    ensures var f := StartElection(n, e.peers); NodeCommits(n, e, f.node) && OutAcks(n, e, f.node, f.out)
  {
  }

  lemma BroadcastCommits(n: Node, e: Event)
    requires (e.Tick? || e.Submit?) && CanAct(n, e)
    ensures NodeCommits(n, e, Act(n, e).node) && OutAcks(n, e, Act(n, e).node, Act(n, e).out)
  {
  }

  lemma VoteCommits(n: Node, e: Event)
    requires e.Deliver? && e.p.body.RequestVote?
    ensures var f := HandleRequestVote(n, e.p.from, e.p.body); NodeCommits(n, e, f.node) && OutAcks(n, e, f.node, f.out)
  {
    hide UpToDate;
  }

  lemma VoteReplyCommits(n: Node, e: Event)
    requires e.Deliver? && e.p.body.VoteReply?
    ensures var f := HandleVoteReply(n, e.p.body, e.peers); NodeCommits(n, e, f.node) && OutAcks(n, e, f.node, f.out)
  {
  }

  lemma OtherCommits(n: Node, e: Event)
    requires CanAct(n, e) && (e.Deliver? ==> e.p.body.RequestVote? || e.p.body.VoteReply?)
    ensures NodeCommits(n, e, Act(n, e).node) && OutAcks(n, e, Act(n, e).node, Act(n, e).out)
  {
    hide NodeCommits, OutAcks, StartElection, HandleRequestVote, HandleVoteReply, Heartbeat, Propose;
    match e
    case Timeout(_, _) => TimeoutCommits(n, e);
    case Tick(_, _) => BroadcastCommits(n, e);
    case Submit(_, _, _) => BroadcastCommits(n, e);
    case Deliver(p, _) =>
      if p.body.RequestVote? {
        VoteCommits(n, e);
      } else {
        VoteReplyCommits(n, e);
      }
  }

  lemma ActCommits(n: Node, e: Event)
    requires CanAct(n, e)
    ensures NodeCommits(n, e, Act(n, e).node)
    ensures OutAcks(n, e, Act(n, e).node, Act(n, e).out)
  {
    hide NodeCommits, OutAcks, HandleAppendEntries, HandleAppendReply;
    if e.Deliver? && e.p.body.AppendEntries? {
      AppendEntriesCommits(n, e);
    } else if e.Deliver? && e.p.body.AppendReply? {
      AppendReplyCommits(n, e);
    } else {
      OtherCommits(n, e);
    }
  }

  // ---------- The invariant ----------

  /** `p` is empty, or was held by a majority under an entry of some term up to `term`. */
  ghost predicate Committed(s: Cluster, term: nat, p: seq<Entry>) {
    p == [] || exists t: nat, k: nat, q: set<Id> :: t <= term && CommittedBy(s, t, k, q, p)
  }

  ghost predicate CommittedBy(s: Cluster, t: nat, k: nat, q: set<Id>, p: seq<Entry>) {
    Replicated(s, t, k, q) && p <= s.h.leaderLog[t][..k]
  }

  ghost predicate NodeSafe(s: Cluster, i: Id)
    requires i in s.nodes
  {
    var n := s.nodes[i];
    && n.lastApplied <= n.commitIndex <= |n.log|
    && Committed(s, n.currentTerm, n.log[..n.commitIndex])
    && |n.applied| == n.lastApplied
    && (forall j :: 0 <= j < n.lastApplied ==> n.applied[j] == Applied(j + 1, n.log[j].command))
    && n.matchIndex.Keys <= s.ids - {i}
  }

  ghost predicate NodesSafe(s: Cluster) {
    forall i :: i in s.nodes ==> NodeSafe(s, i)
  }

  /** A positive match index of a leader is a prefix of its log that the peer held in this term. */
  ghost predicate Tracks(s: Cluster, i: Id, j: Id)
    requires i in s.nodes && j in s.nodes[i].matchIndex
  {
    var n := s.nodes[i];
    n.role == Leader && n.matchIndex[j] > 0 ==>
      n.matchIndex[j] <= |n.log| && Held(s, j, n.currentTerm, n.log[..n.matchIndex[j]])
  }

  ghost predicate LeadersTrack(s: Cluster) {
    forall i, j :: i in s.nodes && j in s.nodes[i].matchIndex ==> Tracks(s, i, j)
  }

  ghost predicate PacketSafe(s: Cluster, p: Packet) {
    && (p.body.AppendEntries? ==>
          && p.body.term in s.h.leaderLog
          && p.body.leaderCommit <= |s.h.leaderLog[p.body.term]|
          && Committed(s, p.body.term, s.h.leaderLog[p.body.term][..p.body.leaderCommit]))
    && (p.body.AppendReply? && p.body.success ==>
          && p.answers in s.h.leaderLog
          && p.body.matchIndex <= |s.h.leaderLog[p.answers]|
          && Held(s, p.from, p.answers, s.h.leaderLog[p.answers][..p.body.matchIndex]))
  }

  ghost predicate PacketsSafe(s: Cluster) {
    forall p :: p in s.sent ==> PacketSafe(s, p)
  }

  ghost predicate SafeInv(s: Cluster) {
    NodesSafe(s) && LeadersTrack(s) && PacketsSafe(s)
  }

  // ---------- What lasts ----------

  ghost predicate Extends(s: Cluster, s': Cluster) {
    s'.ids == s.ids && s.h.snaps <= s'.h.snaps && Grows(s.h.leaderLog, s'.h.leaderLog)
  }

  lemma HeldLasts(s: Cluster, s': Cluster, i: Id, term: nat, p: seq<Entry>)
    requires Extends(s, s') && Held(s, i, term, p)
    ensures Held(s', i, term, p)
  {
    hide Grows;
  }

  lemma ReplicatedLasts(s: Cluster, s': Cluster, t: nat, k: nat, q: set<Id>)
    requires Extends(s, s') && Replicated(s, t, k, q)
    ensures Replicated(s', t, k, q) && s'.h.leaderLog[t][..k] == s.h.leaderLog[t][..k]
  {
    hide Held;
    var p := s.h.leaderLog[t][..k];
    assert s'.h.leaderLog[t][..k] == p;
    forall i | i in q ensures Held(s', i, t, p) {
      HeldLasts(s, s', i, t, p);
    }
  }

  lemma CommittedLasts(s: Cluster, s': Cluster, term: nat, term': nat, p: seq<Entry>)
    requires Extends(s, s') && Committed(s, term, p) && term <= term'
    ensures Committed(s', term', p)
  {
    hide Extends, Replicated;
    if p != [] {
      var t: nat, k: nat, q: set<Id> :| t <= term && CommittedBy(s, t, k, q, p);
      ReplicatedLasts(s, s', t, k, q);
      assert CommittedBy(s', t, k, q, p);
    }
  }

  lemma ShorterCommitted(s: Cluster, term: nat, p: seq<Entry>, r: seq<Entry>)
    requires Committed(s, term, p) && r <= p
    ensures Committed(s, term, r)
  {
    hide Replicated;
    if r != [] {
      var t: nat, k: nat, q: set<Id> :| t <= term && CommittedBy(s, t, k, q, p);
      assert CommittedBy(s, t, k, q, r);
    }
  }

  /** Later leaders have everything committed, so committed prefixes never disagree. */
  lemma LeadersHaveCommitted(s: Cluster, term: nat, p: seq<Entry>)
    requires ElectionInv(s) && LogInv(s) && KeepInv(s)
    requires Committed(s, term, p) && term in s.h.leaderLog
    ensures p <= s.h.leaderLog[term]
  {
    hide ElectionInv, LogInv, KeepInv, Replicated;
    if p != [] {
      var t: nat, k: nat, q: set<Id> :| t <= term && CommittedBy(s, t, k, q, p);
      LaterLeadersHave(s, t, k, q, term);
    }
  }

  lemma CommittedAgree(s: Cluster, term: nat, p: seq<Entry>, term': nat, r: seq<Entry>)
    requires ElectionInv(s) && LogInv(s) && KeepInv(s)
    requires Committed(s, term, p) && Committed(s, term', r)
    ensures p <= r || r <= p
  {
    hide ElectionInv, LogInv, KeepInv, Replicated;
    if p != [] && r != [] {
      var t: nat, k: nat, q: set<Id> :| t <= term && CommittedBy(s, t, k, q, p);
      var t': nat, k': nat, q': set<Id> :| t' <= term' && CommittedBy(s, t', k', q', r);
      if t <= t' {
        Unfold(s, t', k', q');
        LaterLeadersHave(s, t, k, q, t');
      } else {
        Unfold(s, t, k, q);
        LaterLeadersHave(s, t', k', q', t);
      }
    }
  }

  // ---------- Preservation ----------

  ghost predicate Known(s: Cluster) {
    ElectionInv(s) && LogInv(s) && KeepInv(s)
  }

  ghost predicate SafeStep(s: Cluster, e: Event, f: Effect, s': Cluster) {
    && LogStep(s, e, f, s') && Extends(s, s')
    && NodeCommits(s.nodes[Actor(e)], e, f.node) && OutAcks(s.nodes[Actor(e)], e, f.node, f.out)
    && ListsPeers(e.peers, s.ids, Actor(e))
    && Truthful(s, e, s') && Current(s, e)
  }

  lemma StepIsSafeStep(s: Cluster, e: Event, s': Cluster) returns (f: Effect)
    requires Steps(s, e, s') && ElectionInv(s) && LogInv(s) && MajorityWins(s.ids)
    requires Truthful(s, e, s') && Current(s, e)
    ensures SafeStep(s, e, f, s')
  {
    hide *;
    StepEnabled(s, e, s');
    f := StepIsLogStep(s, e, s');
    HistoryGrows(s, e, s');
    SafeFromParts(s, e, f, s');
  }

  lemma StepEnabled(s: Cluster, e: Event, s': Cluster)
    requires Steps(s, e, s')
    ensures Actor(e) in s.nodes && CanAct(s.nodes[Actor(e)], e) && ListsPeers(e.peers, s.ids, Actor(e))
    ensures s'.ids == s.ids
  {
    hide ListsPeers;
    ActStaysReady(s.nodes[Actor(e)], e, s.ids);
  }

  lemma SafeFromParts(s: Cluster, e: Event, f: Effect, s': Cluster)
    requires Actor(e) in s.nodes && CanAct(s.nodes[Actor(e)], e) && ListsPeers(e.peers, s.ids, Actor(e))
    requires LogStep(s, e, f, s') && f == Act(s.nodes[Actor(e)], e) && s'.ids == s.ids
    requires s.h.snaps <= s'.h.snaps && Grows(s.h.leaderLog, s'.h.leaderLog)
    requires Truthful(s, e, s') && Current(s, e)
    ensures SafeStep(s, e, f, s')
  {
    hide LogStep, Act, CanAct, NodeCommits, OutAcks, Truthful, Current, Grows, ListsPeers;
    ActCommits(s.nodes[Actor(e)], e);
  }

  lemma AcceptedKeepsCommitted(s: Cluster, i: Id, p: seq<Entry>, packet: Packet)
    requires Known(s) && i in s.nodes && p <= s.nodes[i].log && Committed(s, s.nodes[i].currentTerm, p)
    requires packet in s.sent && packet.body.AppendEntries? && Accepts(s.nodes[i], packet.body)
    ensures packet.body.prevLogIndex <= |s.nodes[i].log|
    ensures p <= Overwrite(s.nodes[i].log, packet.body.prevLogIndex, packet.body.entries)
  {
    hide Known, Committed, Overwrite, Backed, TermsUpTo, CutFrom, LogsMatch, Positive;
    KnownParts(s);
    hide ElectionInv, LogInv, KeepInv;
    var n, ae := s.nodes[i], packet.body;
    SenderSound(s, packet);
    SnapOfNode(s, i);
    ItselfExtends(s);
    CommittedLasts(s, s, n.currentTerm, ae.term, p);
    LeadersHaveCommitted(s, ae.term, p);
    BackedMatch(n.log, s.h.leaderLog[ae.term], s.h.leaderLog);
    TermsPositive(n.log, n.currentTerm);
    SharedSurvives(p, n.log, ae, s.h.leaderLog[ae.term]);
  }

  lemma KnownParts(s: Cluster)
    requires Known(s)
    ensures ElectionInv(s) && LogInv(s) && KeepInv(s)
  {
    hide ElectionInv, LogInv, KeepInv;
  }

  lemma SafeStepParts(s: Cluster, e: Event, f: Effect, s': Cluster)
    requires SafeStep(s, e, f, s')
    ensures LogStep(s, e, f, s') && Extends(s, s') && Truthful(s, e, s') && Current(s, e)
    ensures Actor(e) in s.nodes && Actor(e) in s.ids && Actor(e) in s'.nodes && s'.nodes[Actor(e)] == f.node
        && s'.ids == s.ids
    ensures NodeCommits(s.nodes[Actor(e)], e, f.node) && OutAcks(s.nodes[Actor(e)], e, f.node, f.out)
    ensures NodeLogs(s.nodes[Actor(e)], e, f.node) && NodeVotes(s.nodes[Actor(e)], e, f.node)
    ensures ListsPeers(e.peers, s.ids, Actor(e))
    ensures e.Deliver? ==> e.p in s.sent && e.p.from in s.ids && e.p.from != Actor(e)
  {
    hide NodeCommits, OutAcks, NodeLogs, NodeVotes, OutLogs, ListsPeers, Truthful, Current, Observe, Stamped, Grows;
  }

  /** What the actor had committed survives in its log. */
  lemma CommittedSurvives(s: Cluster, e: Event, f: Effect, s': Cluster)
    requires SafeStep(s, e, f, s') && Known(s) && Actor(e) in s.nodes && NodeSafe(s, Actor(e))
    ensures s.nodes[Actor(e)].log[..s.nodes[Actor(e)].commitIndex] <= f.node.log
  {
    hide *;
    SafeStepParts(s, e, f, s');
    NodeSafeParts(s, Actor(e));
    var n := s.nodes[Actor(e)];
    var p := n.log[..n.commitIndex];
    if AcceptsNow(n, e) {
      AcceptsNowParts(n, e);
      AcceptedKeepsCommitted(s, Actor(e), p, e.p);
    }
    LogAfter(n, e, f.node);
  }

  lemma AcceptsNowParts(n: Node, e: Event)
    requires AcceptsNow(n, e)
    ensures e.Deliver? && e.p.body.AppendEntries? && Accepts(n, e.p.body) && Actor(e) == e.p.to
  {
  }

  lemma LogAfter(n: Node, e: Event, n': Node)
    requires NodeLogs(n, e, n')
    ensures !AcceptsNow(n, e) ==> n.log <= n'.log
    ensures AcceptsNow(n, e) ==> e.p.body.prevLogIndex <= |n.log|
    ensures AcceptsNow(n, e) ==> n'.log == n.log || n'.log == Overwrite(n.log, e.p.body.prevLogIndex, e.p.body.entries)
  {
    hide Overwrite;
  }

  lemma NodeSafeParts(s: Cluster, i: Id)
    requires i in s.nodes && NodeSafe(s, i)
    ensures s.nodes[i].lastApplied <= s.nodes[i].commitIndex <= |s.nodes[i].log|
    ensures Committed(s, s.nodes[i].currentTerm, s.nodes[i].log[..s.nodes[i].commitIndex])
    ensures s.nodes[i].matchIndex.Keys <= s.ids - {i}
  {
    hide Committed;
  }

  lemma ItselfExtends(s: Cluster)
    ensures Extends(s, s)
  {
  }

  lemma SnapOfNode(s: Cluster, i: Id)
    requires LogInv(s) && i in s.nodes
    ensures Backed(s.nodes[i].log, s.h.leaderLog) && TermsUpTo(s.nodes[i].log, s.nodes[i].currentTerm)
    ensures s.nodes[i].role == Leader ==>
      s.nodes[i].currentTerm in s.h.leaderLog && s.h.leaderLog[s.nodes[i].currentTerm] == s.nodes[i].log
    ensures Held(s, i, s.nodes[i].currentTerm, s.nodes[i].log)
  {
    hide AppendsSound, LeadersStood;
    assert SnapSound(Snap(i, s.nodes[i].currentTerm, s.nodes[i].log), s);
  }

  lemma HeldShorter(s: Cluster, i: Id, term: nat, p: seq<Entry>, r: seq<Entry>)
    requires Held(s, i, term, p) && r <= p
    ensures Held(s, i, term, r)
  {
  }

  /** The match index just reported: on truthful and current runs, the peer really held it in this term. */
  lemma AckTracks(s: Cluster, e: Event, n': Node)
    requires Actor(e) in s.nodes && Acks(s.nodes[Actor(e)], e) && Current(s, e) && NodeCommits(s.nodes[Actor(e)], e, n')
    requires LogInv(s) && PacketSafe(s, e.p)
    ensures e.p.from in n'.matchIndex && n'.matchIndex[e.p.from] <= |n'.log|
    ensures Held(s, e.p.from, n'.currentTerm, n'.log[..n'.matchIndex[e.p.from]])
  {
    hide LogInv, Held, Committed, AppliesMore;
    SnapOfNode(s, Actor(e));
  }

  lemma ActorTracks(s: Cluster, e: Event, f: Effect, s': Cluster, j: Id)
    requires SafeStep(s, e, f, s') && LogInv(s) && LeadersTrack(s) && PacketsSafe(s)
    requires j in f.node.matchIndex && Actor(e) in s.nodes && NodeSafe(s, Actor(e))
    ensures Actor(e) in s'.nodes && s'.nodes[Actor(e)] == f.node && Tracks(s', Actor(e), j)
  {
    hide SafeStep, LogStep, LogInv, PacketSafe, Committed, Extends, Held, Truthful, Current, NodeLogs, OutAcks,
        AppliesMore;
    SafeStepParts(s, e, f, s');
    var n, n' := s.nodes[Actor(e)], f.node;
    LogAfter(n, e, n');
    if n'.role == Leader && n'.matchIndex[j] > 0 {
      if Acks(n, e) && j == e.p.from {
        AckTracks(s, e, n');
        HeldLasts(s, s', j, n.currentTerm, n'.log[..n'.matchIndex[j]]);
      } else if n.role == Leader {
        StillLeads(n, e, n');
        assert Tracks(s, Actor(e), j);
        assert n'.log[..n'.matchIndex[j]] == n.log[..n.matchIndex[j]];
        HeldLasts(s, s', j, n.currentTerm, n.log[..n.matchIndex[j]]);
      } else {
        FreshLeader(s, e, n', j);
      }
    }
  }

  lemma StillLeads(n: Node, e: Event, n': Node)
    requires NodeLogs(n, e, n') && NodeVotes(n, e, n') && NodeCommits(n, e, n')
    requires n.role == Leader && n'.role == Leader
    ensures n'.currentTerm == n.currentTerm && n.log <= n'.log
    ensures !Acks(n, e) ==> n'.matchIndex == n.matchIndex
  {
    hide AppliesMore;
  }

  lemma FreshLeader(s: Cluster, e: Event, n': Node, j: Id)
    requires Actor(e) in s.nodes && NodeSafe(s, Actor(e)) && ListsPeers(e.peers, s.ids, Actor(e))
    requires NodeCommits(s.nodes[Actor(e)], e, n') && NodeVotes(s.nodes[Actor(e)], e, n')
    requires n'.role == Leader && s.nodes[Actor(e)].role != Leader && j in n'.matchIndex
    ensures n'.matchIndex[j] == 0
  {
    hide AppliesMore, Committed;
    assert j in e.peers;
  }

  lemma LeadersTrackStep(s: Cluster, e: Event, f: Effect, s': Cluster)
    requires SafeStep(s, e, f, s') && LogInv(s) && SafeInv(s)
    ensures LeadersTrack(s')
  {
    hide LogInv, NodeCommits, OutAcks, Truthful, Current, ListsPeers, Extends, LogStep, NodeSafe, PacketSafe, Tracks;
    SameMembers(s, e, f, s');
    forall i, j | i in s'.nodes && j in s'.nodes[i].matchIndex ensures Tracks(s', i, j) {
      if i == Actor(e) {
        ActorTracks(s, e, f, s', j);
      } else {
        assert Tracks(s, i, j);
        TracksLasts(s, s', i, j);
      }
    }
  }

  lemma TracksLasts(s: Cluster, s': Cluster, i: Id, j: Id)
    requires i in s.nodes && i in s'.nodes && s'.nodes[i] == s.nodes[i] && j in s.nodes[i].matchIndex
    requires Extends(s, s') && Tracks(s, i, j)
    ensures Tracks(s', i, j)
  {
    hide Extends, Held;
    var n := s.nodes[i];
    if n.role == Leader && n.matchIndex[j] > 0 {
      HeldLasts(s, s', j, n.currentTerm, n.log[..n.matchIndex[j]]);
    }
  }

  // Each new commit index is backed by a majority.

  lemma NewQuorum(s: Cluster, e: Event, f: Effect, s': Cluster)
    requires SafeStep(s, e, f, s') && LogInv(s') && LeadersTrack(s') && Actor(e) in s.nodes
    requires Acks(s.nodes[Actor(e)], e) && f.node.commitIndex != s.nodes[Actor(e)].commitIndex
    requires f.node.matchIndex.Keys <= s.ids - {Actor(e)}
    ensures f.node.commitIndex <= |f.node.log| && Committed(s', f.node.currentTerm, f.node.log[..f.node.commitIndex])
  {
    hide SafeStep, LogInv, Held, LogStep, Extends, AppliesMore;
    SafeStepParts(s, e, f, s');
    var i, n, n' := Actor(e), s.nodes[Actor(e)], f.node;
    var c := n'.commitIndex;
    var p := n'.log[..c];
    var q := {i} + Matching(n'.matchIndex, c);
    SnapOfNode(s', i);
    PeersSize(e.peers, s.ids, i);
    QuorumSize(s.ids, i, Matching(n'.matchIndex, c));
    forall j | j in q ensures Held(s', j, n'.currentTerm, p) {
      if j == i {
        HeldShorter(s', i, n'.currentTerm, n'.log, p);
      } else {
        assert Tracks(s', i, j);
        HeldShorter(s', j, n'.currentTerm, n'.log[..n'.matchIndex[j]], p);
      }
    }
    assert s'.h.leaderLog[n'.currentTerm][..c] == p;
    assert Replicated(s', n'.currentTerm, c, q);
    assert CommittedBy(s', n'.currentTerm, c, q, p);
  }

  lemma QuorumSize(ids: set<Id>, i: Id, m: set<Id>)
    requires i in ids && m <= ids - {i} && 1 + |m| > |ids| / 2
    ensures IsQuorum({i} + m, ids)
  {
    assert i !in m;
    assert |{i} + m| == 1 + |m|;
  }

  /** A follower's new commit index: a truthful reply makes its log a prefix of the leader's. */
  lemma FollowedCommit(s: Cluster, e: Event, f: Effect, s': Cluster)
    requires SafeStep(s, e, f, s') && Actor(e) in s.nodes && AcceptsNow(s.nodes[Actor(e)], e) && PacketSafe(s, e.p)
    requires f.node.commitIndex != s.nodes[Actor(e)].commitIndex
    ensures f.node.commitIndex <= |f.node.log| && Committed(s', f.node.currentTerm, f.node.log[..f.node.commitIndex])
  {
    hide SafeStep, LogStep, Extends, AppliesMore, Committed, Held;
    SafeStepParts(s, e, f, s');
    var n, n', ae := s.nodes[Actor(e)], f.node, e.p.body;
    var leader := s.h.leaderLog[ae.term];
    assert n'.log[..n'.commitIndex] <= leader[..ae.leaderCommit];
    ShorterCommitted(s, ae.term, leader[..ae.leaderCommit], n'.log[..n'.commitIndex]);
    CommittedLasts(s, s', ae.term, n'.currentTerm, n'.log[..n'.commitIndex]);
  }

  lemma CommitGrows(s: Cluster, e: Event, f: Effect, s': Cluster)
    requires SafeStep(s, e, f, s') && Known(s) && SafeInv(s) && LogInv(s') && LeadersTrack(s')
    ensures Actor(e) in s.nodes
    ensures f.node.matchIndex.Keys <= s.ids - {Actor(e)}
    ensures s.nodes[Actor(e)].commitIndex <= f.node.commitIndex <= |f.node.log|
    ensures Committed(s', f.node.currentTerm, f.node.log[..f.node.commitIndex])
  {
    hide SafeStep, LogInv, LeadersTrack, Known, Committed, Extends, LogStep, AppliesMore, Replicates, PacketSafe;
    SafeStepParts(s, e, f, s');
    var n, n' := s.nodes[Actor(e)], f.node;
    NodeSafeParts(s, Actor(e));
    CommittedSurvives(s, e, f, s');
    var p := n.log[..n.commitIndex];
    MatchKeys(s, e, n');
    if n'.commitIndex == n.commitIndex {
      assert n'.log[..n'.commitIndex] == p;
      CommittedLasts(s, s', n.currentTerm, n'.currentTerm, p);
    } else if AcceptsNow(n, e) {
      FollowedCommit(s, e, f, s');
    } else {
      NewQuorum(s, e, f, s');
    }
  }

  lemma MatchKeys(s: Cluster, e: Event, n': Node)
    requires Actor(e) in s.nodes && s.nodes[Actor(e)].matchIndex.Keys <= s.ids - {Actor(e)}
    requires ListsPeers(e.peers, s.ids, Actor(e)) && NodeCommits(s.nodes[Actor(e)], e, n')
    requires e.Deliver? ==> e.p.from in s.ids && e.p.from != Actor(e)
    ensures n'.matchIndex.Keys <= s.ids - {Actor(e)}
  {
    hide AppliesMore, Replicates;
  }

  /** The record of applied commands stays the committed prefix, index by index. */
  lemma AppliedStays(s: Cluster, e: Event, f: Effect, s': Cluster)
    requires SafeStep(s, e, f, s') && Known(s) && Actor(e) in s.nodes && NodeSafe(s, Actor(e))
    requires s.nodes[Actor(e)].commitIndex <= f.node.commitIndex
    ensures f.node.lastApplied <= f.node.commitIndex && |f.node.applied| == f.node.lastApplied
    ensures forall j :: 0 <= j < f.node.lastApplied ==>
              j < |f.node.log| && f.node.applied[j] == Applied(j + 1, f.node.log[j].command)
  {
    hide SafeStep, Known, NodeSafe, AppliesMore, NodeCommits, OutAcks, LogStep, Extends, NodeLogs, NodeVotes,
      ListsPeers, Truthful, Current, Committed, Actor;
    SafeStepParts(s, e, f, s');
    CommittedSurvives(s, e, f, s');
    NodeSafeParts(s, Actor(e));
    NodeApplied(s, Actor(e));
    CommitsApply(s.nodes[Actor(e)], e, f.node);
    AppliedOnTop(s.nodes[Actor(e)], f.node);
  }

  lemma NodeApplied(s: Cluster, i: Id)
    requires i in s.nodes && NodeSafe(s, i)
    ensures |s.nodes[i].applied| == s.nodes[i].lastApplied
    ensures forall j :: 0 <= j < s.nodes[i].lastApplied ==>
              s.nodes[i].applied[j] == Applied(j + 1, s.nodes[i].log[j].command)
  {
    hide Committed;
  }

  lemma CommitsApply(n: Node, e: Event, n': Node)
    requires NodeCommits(n, e, n')
    ensures AppliesMore(n, n')
  {
    hide AppliesMore, Replicates;
  }

  lemma AppliedOnTop(n: Node, n': Node)
    requires AppliesMore(n, n') && n.lastApplied <= n.commitIndex <= |n.log| && n.commitIndex <= n'.commitIndex
    requires n.log[..n.commitIndex] <= n'.log && |n.applied| == n.lastApplied
    requires forall j :: 0 <= j < n.lastApplied ==> n.applied[j] == Applied(j + 1, n.log[j].command)
    ensures n'.lastApplied <= n'.commitIndex && |n'.applied| == n'.lastApplied <= |n'.log|
    ensures forall j :: 0 <= j < n'.lastApplied ==> n'.applied[j] == Applied(j + 1, n'.log[j].command)
  {
    forall j | 0 <= j < n'.lastApplied ensures j < |n'.log| && n'.applied[j] == Applied(j + 1, n'.log[j].command) {
      if j < n.lastApplied {
        assert n.log[..n.commitIndex][j] == n.log[j] && n'.applied[j] == n.applied[j];
      } else {
        assert n'.applied[|n.applied| + (j - n.lastApplied)] == Applied(j + 1, n'.log[j].command);
      }
    }
  }

  lemma NodesSafeStep(s: Cluster, e: Event, f: Effect, s': Cluster)
    requires SafeStep(s, e, f, s') && Known(s) && SafeInv(s) && LogInv(s') && LeadersTrack(s')
    ensures NodesSafe(s')
  {
    hide SafeStep, LogInv, LeadersTrack, PacketsSafe, Known, Committed, LogStep, Extends;
    SafeStepParts(s, e, f, s');
    SameMembers(s, e, f, s');
    CommitGrows(s, e, f, s');
    AppliedStays(s, e, f, s');
    forall i | i in s'.nodes ensures NodeSafe(s', i) {
      if i != Actor(e) {
        assert NodeSafe(s, i);
        CommittedLasts(s, s', s.nodes[i].currentTerm, s.nodes[i].currentTerm, s.nodes[i].log[..s.nodes[i].commitIndex]);
      }
    }
  }

  // ---------- Packets ----------

  lemma OldPacketSafe(s: Cluster, s': Cluster, p: Packet)
    requires Extends(s, s') && PacketSafe(s, p)
    ensures PacketSafe(s', p)
  {
    hide Committed, Held;
    if p.body.AppendEntries? {
      var t, c := p.body.term, p.body.leaderCommit;
      assert s'.h.leaderLog[t][..c] == s.h.leaderLog[t][..c];
      CommittedLasts(s, s', t, t, s.h.leaderLog[t][..c]);
    } else if p.body.AppendReply? && p.body.success {
      var t, m := p.answers, p.body.matchIndex;
      assert s'.h.leaderLog[t][..m] == s.h.leaderLog[t][..m];
      HeldLasts(s, s', p.from, t, s.h.leaderLog[t][..m]);
    }
  }

  lemma NewPacketSafe(s: Cluster, e: Event, f: Effect, s': Cluster, p: Packet)
    requires SafeStep(s, e, f, s') && LogInv(s') && NodesSafe(s')
    requires p in s'.sent && p !in s.sent
    ensures PacketSafe(s', p)
  {
    hide LogInv, Committed, Held, NodeCommits, NodeLogs, NodeVotes, Observe, ListsPeers, Extends, Current;
    var i := Actor(e);
    assert NodeSafe(s', i);
    SnapOfNode(s', i);
    var j :| 0 <= j < |f.out| && p == Packet(i, f.out[j].to, s.stamp[i] + 1 + j, f.out[j].body, Tag(e));
    if p.body.AppendReply? && p.body.success {
      AckIsTruthful(s, e, f, s');
    }
  }

  lemma AckIsTruthful(s: Cluster, e: Event, f: Effect, s': Cluster)
    requires SafeStep(s, e, f, s') && LogInv(s') && Actor(e) in s.nodes && AcceptsNow(s.nodes[Actor(e)], e)
    ensures Tag(e) in s'.h.leaderLog && |f.node.log| <= |s'.h.leaderLog[Tag(e)]|
    ensures Held(s', Actor(e), Tag(e), s'.h.leaderLog[Tag(e)][..|f.node.log|])
  {
    hide SafeStep, LogInv, Held, AppliesMore, NodeVotes, LogStep;
    SafeStepParts(s, e, f, s');
    SnapOfNode(s', Actor(e));
    assert s'.h.leaderLog[Tag(e)][..|f.node.log|] == f.node.log;
  }

  lemma PacketsSafeStep(s: Cluster, e: Event, f: Effect, s': Cluster)
    requires SafeStep(s, e, f, s') && LogInv(s') && NodesSafe(s') && PacketsSafe(s)
    ensures PacketsSafe(s')
  {
    hide SafeStep, LogInv, NodesSafe, PacketSafe, LogStep, Extends;
    SafeStepParts(s, e, f, s');
    forall p | p in s'.sent ensures PacketSafe(s', p) {
      if p in s.sent {
        OldPacketSafe(s, s', p);
      } else {
        NewPacketSafe(s, e, f, s', p);
      }
    }
  }

  lemma SafeInvStep(s: Cluster, e: Event, s': Cluster)
    requires Steps(s, e, s') && Known(s) && SafeInv(s) && MajorityWins(s.ids)
    requires Truthful(s, e, s') && Current(s, e)
    ensures SafeInv(s') && Known(s')
    ensures forall i :: i in s.nodes ==> i in s'.nodes && Upheld(s.nodes[i], s'.nodes[i])
  {
    hide Steps, SafeStep, ElectionInv, LogInv, KeepInv, NodesSafe, LeadersTrack, PacketsSafe, Truthful, Current,
        LogStep;
    ElectionStep(s, e, s');
    LogInvStep(s, e, s');
    KeepStep(s, e, s');
    var f := StepIsSafeStep(s, e, s');
    LeadersTrackStep(s, e, f, s');
    NodesSafeStep(s, e, f, s');
    PacketsSafeStep(s, e, f, s');
    CommitsUpheld(s, e, f, s');
  }

  // ---------- Consequences ----------

  /** Nothing committed or applied is taken back. */
  ghost predicate Upheld(n: Node, n': Node) {
    && n.commitIndex <= n'.commitIndex
    && n.commitIndex <= |n.log| && n.log[..n.commitIndex] <= n'.log
    && n.applied <= n'.applied
  }

  lemma CommitsUpheld(s: Cluster, e: Event, f: Effect, s': Cluster)
    requires SafeStep(s, e, f, s') && Known(s) && SafeInv(s) && LogInv(s') && LeadersTrack(s')
    ensures forall i :: i in s.nodes ==> i in s'.nodes && Upheld(s.nodes[i], s'.nodes[i])
  {
    hide SafeStep, LogStep, LogInv, LeadersTrack, PacketsSafe, Known, Committed, Extends;
    SafeStepParts(s, e, f, s');
    SameMembers(s, e, f, s');
    CommitGrows(s, e, f, s');
    CommittedSurvives(s, e, f, s');
    forall i | i in s.nodes ensures Upheld(s.nodes[i], s'.nodes[i]) {
      assert NodeSafe(s, i);
    }
  }

  lemma InitSafe(ids: set<Id>)
    requires 0 !in ids
    ensures SafeInv(Init(ids))
  {
  }

  lemma {:induction false} SafeInRuns(states: seq<Cluster>, events: seq<Event>, k: nat)
    requires HonestRun(states, events) && k < |states| && MajorityWins(states[0].ids)
    ensures states[k].ids == states[0].ids && Known(states[k]) && SafeInv(states[k])
  {
    hide Steps, ElectionInv, LogInv, KeepInv, SafeInv, Truthful, Current, Init;
    KeepsInRuns(states, events, k);
    if k == 0 {
      InitSafe(states[0].ids);
    } else {
      SafeInRuns(states, events, k - 1);
      SafeInvStep(states[k - 1], events[k - 1], states[k]);
    }
  }

  /** On honest runs a node's commit index never falls, and the entries below it are never cut or replaced. */
  lemma {:induction false} CommitsStand(states: seq<Cluster>, events: seq<Event>, j: nat, k: nat, i: Id)
    requires HonestRun(states, events) && MajorityWins(states[0].ids)
    requires j <= k < |states| && i in states[j].nodes
    ensures i in states[k].nodes && Upheld(states[j].nodes[i], states[k].nodes[i])
    decreases k
  {
    hide Steps, Known, SafeInv, Truthful, Current, Init;
    SafeInRuns(states, events, j);
    if j == k {
      CommitInRange(states[j], i);
    } else {
      CommitsStand(states, events, j, k - 1, i);
      SafeInRuns(states, events, k - 1);
      SafeInvStep(states[k - 1], events[k - 1], states[k]);
      UpheldTrans(states[j].nodes[i], states[k - 1].nodes[i], states[k].nodes[i]);
    }
  }

  lemma CommitInRange(s: Cluster, i: Id)
    requires SafeInv(s) && i in s.nodes
    ensures s.nodes[i].commitIndex <= |s.nodes[i].log|
  {
    hide LeadersTrack, PacketsSafe, Committed;
    assert NodeSafe(s, i);
  }

  lemma UpheldTrans(a: Node, b: Node, c: Node)
    requires Upheld(a, b) && Upheld(b, c)
    ensures Upheld(a, c)
  {
    assert a.log[..a.commitIndex] <= b.log[..b.commitIndex];
  }

  lemma AppliedAgree(s: Cluster, a: Id, b: Id, x: nat)
    requires Known(s) && SafeInv(s) && a in s.nodes && b in s.nodes
    requires x < |s.nodes[a].applied| && x < |s.nodes[b].applied|
    ensures s.nodes[a].applied[x] == s.nodes[b].applied[x]
  {
    hide LeadersTrack, PacketsSafe, Committed, ElectionInv, LogInv, KeepInv;
    var n, m := s.nodes[a], s.nodes[b];
    assert NodeSafe(s, a) && NodeSafe(s, b);
    var p, r := n.log[..n.commitIndex], m.log[..m.commitIndex];
    CommittedAgree(s, n.currentTerm, p, m.currentTerm, r);
    assert p[x] == n.log[x] && r[x] == m.log[x];
  }

  /** State-machine safety: whatever two nodes apply at one index, whenever they do, is the same command. */
  lemma StateMachineSafety(states: seq<Cluster>, events: seq<Event>, j: nat, a: Id, k: nat, b: Id, x: nat)
    requires HonestRun(states, events) && MajorityWins(states[0].ids)
    requires j < |states| && a in states[j].nodes && x < |states[j].nodes[a].applied|
    requires k < |states| && b in states[k].nodes && x < |states[k].nodes[b].applied|
    ensures states[j].nodes[a].applied[x] == states[k].nodes[b].applied[x]
  {
    hide HonestRun, Known, SafeInv;
    var end := |states| - 1;
    CommitsStand(states, events, j, end, a);
    CommitsStand(states, events, k, end, b);
    SafeInRuns(states, events, end);
    AppliedAgree(states[end], a, b, x);
  }

  // ---------- When a success reply is truthful ----------

  /** The log an accepted message leaves fails to be a prefix of the sender's exactly when the follower
      had every entry of the message already and something else besides. */
  lemma PrefixWhen(log: seq<Entry>, ae: Body, sender: seq<Entry>)
    requires ae.AppendEntries? && (CutFrom(ae, sender) || Dud(ae))
    requires LogsMatch(log, sender) && Positive(log)
    requires Consistent(log, ae.prevLogIndex, ae.prevLogTerm)
    ensures Overwrite(log, ae.prevLogIndex, ae.entries) <= sender
            <==> !AllPresent(log, ae.prevLogIndex, ae.entries) || log <= sender
  {
    hide Overwrite, CutFrom, LogsMatch, Positive, Consistent, AllPresent;
    ConsistentInRange(log, ae.prevLogIndex, ae.prevLogTerm);
    Accepted(log, ae, sender);
    OverwriteContract(log, ae.prevLogIndex, ae.entries);
  }

  /** In every run, a follower that answers success does so truthfully exactly when it lacked some entry
      of the message, or held no more than a prefix of the leader's log to begin with. */
  lemma TruthfulWhen(states: seq<Cluster>, events: seq<Event>, k: nat)
    requires Run(states, events) && MajorityWins(states[0].ids) && k < |events|
    requires Actor(events[k]) in states[k].nodes && AcceptsNow(states[k].nodes[Actor(events[k])], events[k])
    ensures var log, ae := states[k].nodes[Actor(events[k])].log, events[k].p.body;
            && ae.term in states[k].h.leaderLog
            && (Truthful(states[k], events[k], states[k + 1])
                <==> !AllPresent(log, ae.prevLogIndex, ae.entries) || log <= states[k].h.leaderLog[ae.term])
  {
    assert Steps(states[k], events[k], states[k + 1]);
    LogsInRuns(states, events, k);
    hide Run, Steps, LogInv, AllPresent, Truthful;
    AcceptedOnStep(states[k], events[k], states[k + 1]);
  }

  lemma AcceptedOnStep(s: Cluster, e: Event, s': Cluster)
    requires Steps(s, e, s') && LogInv(s) && Actor(e) in s.nodes && AcceptsNow(s.nodes[Actor(e)], e)
    ensures var log, ae := s.nodes[Actor(e)].log, e.p.body;
            && ae.term in s.h.leaderLog
            && (Truthful(s, e, s')
                <==> !AllPresent(log, ae.prevLogIndex, ae.entries) || log <= s.h.leaderLog[ae.term])
  {
    hide *;
    AcceptsNowParts(s.nodes[Actor(e)], e);
    var n, ae := s.nodes[Actor(e)], e.p.body;
    AcceptedParts(s, e, s');
    SenderSound(s, e.p);
    NodeBacked(s, Actor(e));
    var sender := s.h.leaderLog[ae.term];
    BackedMatch(n.log, sender, s.h.leaderLog);
    TermsPositive(n.log, n.currentTerm);
    PrefixWhen(n.log, ae, sender);
  }

  lemma AcceptedParts(s: Cluster, e: Event, s': Cluster)
    requires Steps(s, e, s') && Actor(e) in s.nodes && AcceptsNow(s.nodes[Actor(e)], e)
    ensures var n, ae := s.nodes[Actor(e)], e.p.body;
            && e.p in s.sent && Consistent(n.log, ae.prevLogIndex, ae.prevLogTerm) && ae.prevLogIndex <= |n.log|
            && (ae.term in s.h.leaderLog ==>
                  (Truthful(s, e, s') <==> Overwrite(n.log, ae.prevLogIndex, ae.entries) <= s.h.leaderLog[ae.term]))
  {
    hide WF, Observe, Stamped, Overwrite, FollowCommit;
  }

  lemma NodeBacked(s: Cluster, i: Id)
    requires LogInv(s) && i in s.nodes
    ensures Backed(s.nodes[i].log, s.h.leaderLog) && TermsUpTo(s.nodes[i].log, s.nodes[i].currentTerm)
  {
    hide LeadersHold, AppendsSound, LeadersStood;
    assert SnapSound(Snap(i, s.nodes[i].currentTerm, s.nodes[i].log), s);
  }
}
