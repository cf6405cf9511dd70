/**
 Election safety: a term never has two leaders when the source's vote threshold is a majority.

 The vote counter of the source is a bare number, so the argument is one of conservation: for
 each (term, candidate, voter) there is at most one request or granted reply in flight, and none
 once that voter has been counted.
 */
module RaftElection {
  import opened RaftNode
  import opened RaftCluster

  // ---------- Ballots ----------

  ghost predicate CandidacySound(s: Cluster) {
    && (forall k :: k in s.h.candLog ==> k.1 in s.nodes && 1 <= k.0 <= s.nodes[k.1].currentTerm)
    && (forall i :: i in s.nodes && s.nodes[i].role == Candidate ==>
          (s.nodes[i].currentTerm, i) in s.h.candLog && s.h.candLog[(s.nodes[i].currentTerm, i)] == s.nodes[i].log)
  }

  ghost predicate BallotSound(s: Cluster, k: (nat, Id))
    requires k in s.h.ballots
  {
    var b := s.h.ballots[k];
    && k.1 in s.nodes && k.0 <= s.nodes[k.1].currentTerm
    && (k.0 == s.nodes[k.1].currentTerm ==> s.nodes[k.1].votedFor == b.candidate)
    && (k.0, b.candidate) in s.h.candLog
    && UpToDate(LastTerm(s.h.candLog[(k.0, b.candidate)]), LastIndex(s.h.candLog[(k.0, b.candidate)]), b.log)
  }

  ghost predicate BallotsSound(s: Cluster) {
    && (forall k :: k in s.h.ballots ==> BallotSound(s, k))
    && (forall i :: i in s.nodes && s.nodes[i].votedFor != 0 ==>
          (s.nodes[i].currentTerm, i) in s.h.ballots
          && s.h.ballots[(s.nodes[i].currentTerm, i)].candidate == s.nodes[i].votedFor)
  }

  ghost predicate PollSound(s: Cluster, p: Packet) {
    && (p.body.RequestVote? ==>
          && p.body.candidateId == p.from && (p.body.term, p.from) in s.h.candLog
          && p.body.lastLogIndex == LastIndex(s.h.candLog[(p.body.term, p.from)])
          && p.body.lastLogTerm == LastTerm(s.h.candLog[(p.body.term, p.from)]))
    && (p.body.VoteReply? && p.body.granted ==>
          (p.body.term, p.from) in s.h.ballots && s.h.ballots[(p.body.term, p.from)].candidate == p.to)
  }

  ghost predicate PollsSound(s: Cluster) {
    forall p :: p in s.sent ==> PollSound(s, p)
  }

  ghost predicate VotesInv(s: Cluster) {
    CandidacySound(s) && BallotsSound(s) && PollsSound(s)
  }

  // ---------- Counting ----------

  predicate IsToken(p: Packet) {
    p.body.RequestVote? || (p.body.VoteReply? && p.body.granted)
  }

  function CandidateOf(p: Packet): Id {
    if p.body.RequestVote? then p.from else p.to
  }

  function Voter(p: Packet): Id {
    if p.body.RequestVote? then p.to else p.from
  }

  predicate SameBallot(p: Packet, q: Packet) {
    p.body.term == q.body.term && CandidateOf(p) == CandidateOf(q) && Voter(p) == Voter(q)
  }

  ghost predicate InFlight(s: Cluster, p: Packet) {
    p in s.sent && p !in s.delivered && IsToken(p)
  }

  ghost predicate TokensOnce(s: Cluster) {
    && (forall p, q :: InFlight(s, p) && InFlight(s, q) && SameBallot(p, q) ==> p == q)
    && (forall p :: InFlight(s, p) ==> Voter(p) !in TallyOf(s.h, p.body.term, CandidateOf(p)))
  }

  ghost predicate TallySound(s: Cluster, k: (nat, Id))
    requires k in s.h.tally
  {
    && k in s.h.candLog
    && s.h.tally[k] <= s.ids
    && forall v :: v in s.h.tally[k] ==> (k.0, v) in s.h.ballots && s.h.ballots[(k.0, v)].candidate == k.1
  }

  ghost predicate TalliesSound(s: Cluster) {
    && (forall k :: k in s.h.tally ==> TallySound(s, k))
    && (forall i :: i in s.nodes && s.nodes[i].role == Candidate ==>
          (s.nodes[i].currentTerm, i) in s.h.tally
          && |s.h.tally[(s.nodes[i].currentTerm, i)]| == s.nodes[i].votesReceived >= 1)
  }

  // ---------- Winners ----------

  ghost predicate WonSound(s: Cluster, t: nat)
    requires t in s.h.won
  {
    var c := s.h.won[t];
    && c in s.nodes && t <= s.nodes[c].currentTerm
    && (t == s.nodes[c].currentTerm ==> s.nodes[c].role != Candidate)
    && t in s.h.quorum && s.h.quorum[t] <= s.ids && 2 * |s.h.quorum[t]| > |s.ids|
    && forall v :: v in s.h.quorum[t] ==> (t, v) in s.h.ballots && s.h.ballots[(t, v)].candidate == c
  }

  ghost predicate WinsSound(s: Cluster) {
    && (forall t :: t in s.h.won ==> WonSound(s, t))
    && (forall i :: i in s.nodes && s.nodes[i].role == Leader ==>
          s.nodes[i].currentTerm in s.h.won && s.h.won[s.nodes[i].currentTerm] == i)
  }

  ghost predicate ElectionInv(s: Cluster) {
    WF(s) && VotesInv(s) && TokensOnce(s) && TalliesSound(s) && WinsSound(s)
  }

  // ---------- What one handler call does to votes ----------

  ghost predicate NodeVotes(n: Node, e: Event, n': Node) {
    && n'.currentTerm >= n.currentTerm
    && (n'.currentTerm == n.currentTerm && n.votedFor != 0 ==> n'.votedFor == n.votedFor)
    && (e.Timeout? ==>
          n'.currentTerm == n.currentTerm + 1 && n'.votedFor == n.id && n'.role == Candidate
          && n'.log == n.log && n'.votesReceived == 1)
    && (!e.Timeout? && n'.votedFor != 0 && (n'.currentTerm != n.currentTerm || n.votedFor == 0) ==>
          && e.Deliver? && e.p.body.RequestVote? && e.p.body.term == n'.currentTerm
          && n'.votedFor == e.p.body.candidateId
          && UpToDate(e.p.body.lastLogTerm, e.p.body.lastLogIndex, n.log))
    && (!e.Timeout? && n'.role == Candidate ==>
          n.role == Candidate && n'.currentTerm == n.currentTerm && n'.log == n.log
          && n'.votesReceived == n.votesReceived + if Counts(n, e) then 1 else 0)
    && (n'.role == Leader && n.role != Leader ==>
          Counts(n, e) && n'.currentTerm == n.currentTerm && n'.log == n.log
          && n.votesReceived + 1 >= ElectionMajority(e.peers))
    && (n'.role == Leader && n.role == Leader ==> n'.currentTerm == n.currentTerm)
  }

  ghost predicate OutVotes(n: Node, e: Event, n': Node, out: seq<Send>) {
    && (forall k :: 0 <= k < |out| && out[k].body.RequestVote? ==>
          e.Timeout? && out[k].body == RequestVote(n'.currentTerm, n.id, LastIndex(n.log), LastTerm(n.log)))
    && (e.Timeout? ==> |out| == |e.peers| && forall k :: 0 <= k < |out| ==>
      out[k].body.RequestVote? && out[k].to == e.peers[k])
    && (forall k :: 0 <= k < |out| && out[k].body.VoteReply? && out[k].body.granted ==>
          && e.Deliver? && e.p.body.RequestVote? && |out| == 1 && out[k].to == e.p.from
          && out[k].body.term == n'.currentTerm == e.p.body.term && n'.votedFor == e.p.body.candidateId)
  }

  lemma RequestVoteVotes(n: Node, e: Event)
    requires e.Deliver? && e.p.body.RequestVote?
    ensures var f := HandleRequestVote(n, e.p.from, e.p.body);
            NodeVotes(n, e, f.node) && OutVotes(n, e, f.node, f.out)
  {
  }

  lemma VoteReplyVotes(n: Node, e: Event)
    requires e.Deliver? && e.p.body.VoteReply?
    ensures var f := HandleVoteReply(n, e.p.body, e.peers);
            NodeVotes(n, e, f.node) && OutVotes(n, e, f.node, f.out)
  {
  }

  lemma AppendEntriesVotes(n: Node, e: Event)
    requires e.Deliver? && e.p.body.AppendEntries?
    ensures var f := HandleAppendEntries(n, e.p.from, e.p.body);
            NodeVotes(n, e, f.node) && OutVotes(n, e, f.node, f.out)
  {
    hide FollowCommit, Overwrite;
  }

  lemma AppendReplyVotes(n: Node, e: Event)
    requires e.Deliver? && e.p.body.AppendReply? && CanAnswer(n, e.p.from, e.p.body)
    ensures var f := HandleAppendReply(n, e.p.from, e.p.body, e.peers);
            NodeVotes(n, e, f.node) && OutVotes(n, e, f.node, f.out)
  {
    hide MaybeCommit;
  }

  lemma ActVotes(n: Node, e: Event)
    requires CanAct(n, e)
    ensures NodeVotes(n, e, Act(n, e).node)
    ensures OutVotes(n, e, Act(n, e).node, Act(n, e).out)
  {
    match e
    case Timeout(_, _) =>
    case Tick(_, _) =>
    case Submit(_, _, _) =>
    case Deliver(p, peers) =>
      match p.body {
        case RequestVote(_, _, _, _) => RequestVoteVotes(n, e);
        case VoteReply(_, _) => VoteReplyVotes(n, e);
        case AppendEntries(_, _, _, _, _, _) => AppendEntriesVotes(n, e);
        case AppendReply(_, _, _) => AppendReplyVotes(n, e);
      }
  }

  /** One step of the cluster, seen through its effect on votes and their history. */
  ghost predicate VoteStep(s: Cluster, e: Event, n': Node, s': Cluster) {
    var i := Actor(e);
    && i in s.nodes && i == s.nodes[i].id && s.nodes.Keys == s.ids && 0 !in s.ids
    && (e.Deliver? ==> e.p in s.sent && e.p !in s.delivered && e.p.from != i && e.p.from in s.ids)
    && NodeVotes(s.nodes[i], e, n')
    && s'.ids == s.ids && s'.nodes == s.nodes[i := n']
    && s'.h == Observe(s.h, i, s.nodes[i], n', e)
  }

  /** The same step, seen through the packets it adds and consumes. */
  ghost predicate PacketStep(s: Cluster, e: Event, f: Effect, s': Cluster) {
    var i := Actor(e);
    && i in s.stamp && i in s.nodes
    && ListsPeers(e.peers, s.ids, i)
    && OutVotes(s.nodes[i], e, f.node, f.out)
    && s'.sent == s.sent + Stamped(i, s.stamp[i], f.out, Tag(e))
    && s'.delivered == (if e.Deliver? then s.delivered + {e.p} else s.delivered)
    && s.delivered <= s.sent
  }

  lemma StepIsVoteStep(s: Cluster, e: Event)
    requires WF(s) && Enabled(s, e)
    ensures VoteStep(s, e, Act(s.nodes[Actor(e)], e).node, Next(s, e))
    ensures PacketStep(s, e, Act(s.nodes[Actor(e)], e), Next(s, e))
  {
    ActVotes(s.nodes[Actor(e)], e);
  }

  // ---------- Preservation ----------

  lemma CandidacyStep(s: Cluster, e: Event, n': Node, s': Cluster)
    requires VoteStep(s, e, n', s') && CandidacySound(s)
    ensures CandidacySound(s')
    ensures forall k :: k in s.h.candLog ==> k in s'.h.candLog && s'.h.candLog[k] == s.h.candLog[k]
  {
  }

  lemma BallotKept(s: Cluster, e: Event, n': Node, s': Cluster)
    requires VoteStep(s, e, n', s')
    ensures forall k :: k in s.h.ballots ==> k in s'.h.ballots && s'.h.ballots[k] == s.h.ballots[k]
  {
  }

  lemma OldBallotSound(s: Cluster, e: Event, n': Node, s': Cluster, k: (nat, Id))
    requires VoteStep(s, e, n', s') && CandidacySound(s) && k in s.h.ballots && BallotSound(s, k)
    requires forall c :: c in s.h.candLog ==> c in s'.h.candLog && s'.h.candLog[c] == s.h.candLog[c]
    ensures k in s'.h.ballots && BallotSound(s', k)
  {
    hide UpToDate, LastTerm, LastIndex, Counts, TallyOf;
  }

  lemma NewBallotSound(s: Cluster, e: Event, n': Node, s': Cluster, k: (nat, Id))
    requires VoteStep(s, e, n', s') && PollsSound(s) && k !in s.h.ballots && k in s'.h.ballots
    requires forall c :: c in s.h.candLog ==> c in s'.h.candLog && s'.h.candLog[c] == s.h.candLog[c]
    requires forall i :: i in s.nodes && s.nodes[i].votedFor != 0 ==> (s.nodes[i].currentTerm, i) in s.h.ballots
    ensures BallotSound(s', k)
  {
    hide TallyOf;
    if e.Deliver? {
      assert PollSound(s, e.p);
    }
  }

  lemma VotersHaveBallots(s: Cluster, e: Event, n': Node, s': Cluster, i: Id)
    requires VoteStep(s, e, n', s') && CandidacySound(s) && BallotsSound(s)
    requires i in s'.nodes && s'.nodes[i].votedFor != 0
    ensures var k := (s'.nodes[i].currentTerm, i);
            k in s'.h.ballots && s'.h.ballots[k].candidate == s'.nodes[i].votedFor
  {
    hide UpToDate, Counts, TallyOf;
    if (s'.nodes[i].currentTerm, i) in s.h.ballots {
      assert BallotSound(s, (s'.nodes[i].currentTerm, i));
    }
  }

  lemma BallotsStep(s: Cluster, e: Event, n': Node, s': Cluster)
    requires VoteStep(s, e, n', s') && VotesInv(s)
    ensures BallotsSound(s')
  {
    CandidacyStep(s, e, n', s');
    hide VoteStep, BallotSound, PollsSound, CandidacySound;
    forall k | k in s'.h.ballots ensures BallotSound(s', k) {
      if k in s.h.ballots {
        OldBallotSound(s, e, n', s', k);
      } else {
        NewBallotSound(s, e, n', s', k);
      }
    }
    forall i | i in s'.nodes && s'.nodes[i].votedFor != 0
      ensures var k := (s'.nodes[i].currentTerm, i);
              k in s'.h.ballots && s'.h.ballots[k].candidate == s'.nodes[i].votedFor
    {
      VotersHaveBallots(s, e, n', s', i);
    }
  }

  lemma PollsStep(s: Cluster, e: Event, f: Effect, s': Cluster)
    requires VoteStep(s, e, f.node, s') && PacketStep(s, e, f, s') && VotesInv(s)
    ensures PollsSound(s')
  {
    CandidacyStep(s, e, f.node, s');
    BallotKept(s, e, f.node, s');
    BallotsStep(s, e, f.node, s');
    forall p | p in s'.sent ensures PollSound(s', p) {
      if p in s.sent {
        assert PollSound(s, p);
      }
    }
  }

  /** A token that stays in flight, against the ballots that the step creates or counts. */
  lemma OldToken(s: Cluster, e: Event, f: Effect, s': Cluster, p: Packet)
    requires VoteStep(s, e, f.node, s') && PacketStep(s, e, f, s') && VotesInv(s) && TokensOnce(s)
    requires InFlight(s, p) && InFlight(s', p)
    ensures e.Timeout? ==> !(p.body.term == f.node.currentTerm && CandidateOf(p) == Actor(e))
    ensures e.Deliver? && IsToken(e.p) ==> !SameBallot(p, e.p)
  {
    assert PollSound(s, p);
    if e.Deliver? && IsToken(e.p) {
      assert InFlight(s, e.p);
    }
    if p.body.VoteReply? {
      assert BallotSound(s, (p.body.term, p.from));
    }
  }

  /** A token that the step puts in flight: one of a new candidate's requests, or the answer to a request. */
  lemma NewToken(s: Cluster, e: Event, f: Effect, s': Cluster, p: Packet) returns (j: nat)
    requires VoteStep(s, e, f.node, s') && PacketStep(s, e, f, s') && PollsSound(s)
    requires !InFlight(s, p) && InFlight(s', p)
    ensures j < |f.out|
    ensures p == Packet(Actor(e), f.out[j].to, s.stamp[Actor(e)] + 1 + j, f.out[j].body, Tag(e))
    ensures e.Timeout? ==>
      p.body.term == f.node.currentTerm && CandidateOf(p) == Actor(e) && j < |e.peers|
          && Voter(p) == e.peers[j] != Actor(e)
    ensures !e.Timeout? ==>
      e.Deliver? && e.p.body.RequestVote? && InFlight(s, e.p) && SameBallot(p, e.p) && |f.out| == 1
  {
    assert p !in s.sent;
    j :| 0 <= j < |f.out| && p == Packet(Actor(e), f.out[j].to, s.stamp[Actor(e)] + 1 + j, f.out[j].body, Tag(e));
    if e.Deliver? {
      assert PollSound(s, e.p);
    }
  }

  lemma TokenPairs(s: Cluster, e: Event, f: Effect, s': Cluster, p: Packet, q: Packet)
    requires VoteStep(s, e, f.node, s') && PacketStep(s, e, f, s') && VotesInv(s) && TokensOnce(s)
    requires InFlight(s', p) && InFlight(s', q) && SameBallot(p, q)
    ensures p == q
  {
    if InFlight(s, p) {
      OldToken(s, e, f, s', p);
    } else {
      var j := NewToken(s, e, f, s', p);
    }
    if InFlight(s, q) {
      OldToken(s, e, f, s', q);
    } else {
      var k := NewToken(s, e, f, s', q);
    }
  }

  lemma TokenUncounted(s: Cluster, e: Event, f: Effect, s': Cluster, p: Packet)
    requires VoteStep(s, e, f.node, s') && PacketStep(s, e, f, s') && VotesInv(s) && TokensOnce(s)
    requires InFlight(s', p)
    ensures Voter(p) !in TallyOf(s'.h, p.body.term, CandidateOf(p))
  {
    if InFlight(s, p) {
      OldToken(s, e, f, s', p);
    } else {
      var j := NewToken(s, e, f, s', p);
    }
  }

  lemma TokensOnceStep(s: Cluster, e: Event, f: Effect, s': Cluster)
    requires VoteStep(s, e, f.node, s') && PacketStep(s, e, f, s') && VotesInv(s) && TokensOnce(s)
    ensures TokensOnce(s')
  {
    hide VoteStep, PacketStep, VotesInv;
    forall p, q | InFlight(s', p) && InFlight(s', q) && SameBallot(p, q) ensures p == q {
      TokenPairs(s, e, f, s', p, q);
    }
    forall p | InFlight(s', p) ensures Voter(p) !in TallyOf(s'.h, p.body.term, CandidateOf(p)) {
      TokenUncounted(s, e, f, s', p);
    }
  }

  lemma TallyGrows(s: Cluster, e: Event, n': Node, s': Cluster, k: (nat, Id))
    requires VoteStep(s, e, n', s') && k in s'.h.tally
    ensures s'.h.tally[k] == (if e.Timeout? && k == (n'.currentTerm, Actor(e)) then {Actor(e)}
                              else if Counts(s.nodes[Actor(e)], e) && k == (s.nodes[Actor(e)].currentTerm, Actor(e))
                              then TallyOf(s.h, k.0, k.1) + {e.p.from} else TallyOf(s.h, k.0, k.1))
    ensures e.Timeout? && k == (n'.currentTerm, Actor(e)) ==> k in s'.h.candLog && n'.votedFor == Actor(e)
    ensures k in s.h.tally || (e.Timeout? && k == (n'.currentTerm, Actor(e))) || Counts(s.nodes[Actor(e)], e)
  {
  }

  /** The voters already counted stay voters of that candidate. */
  lemma OldTally(s: Cluster, e: Event, n': Node, s': Cluster, k: (nat, Id))
    requires VoteStep(s, e, n', s') && CandidacySound(s)
    requires k in s.h.tally && TallySound(s, k) && !(e.Timeout? && k == (n'.currentTerm, Actor(e)))
    requires Counts(s.nodes[Actor(e)], e) && k == (s.nodes[Actor(e)].currentTerm, Actor(e)) ==> PollSound(s, e.p)
    ensures TallySound(s', k)
  {
    BallotKept(s, e, n', s');
    CandidacyStep(s, e, n', s');
    TallyGrows(s, e, n', s', k);
    hide Observe, NodeVotes, CandidacySound;
  }

  lemma FirstTally(s: Cluster, e: Event, n': Node, s': Cluster)
    requires VoteStep(s, e, n', s') && BallotsSound(s') && e.Timeout?
    requires (n'.currentTerm, Actor(e)) in s'.h.tally
    ensures TallySound(s', (n'.currentTerm, Actor(e)))
  {
    TallyGrows(s, e, n', s', (n'.currentTerm, Actor(e)));
    hide Observe, NodeVotes, BallotSound;
  }

  lemma TallyStep(s: Cluster, e: Event, n': Node, s': Cluster, k: (nat, Id))
    requires VoteStep(s, e, n', s') && VotesInv(s) && TalliesSound(s) && k in s'.h.tally
    ensures TallySound(s', k)
  {
    if e.Timeout? && k == (n'.currentTerm, Actor(e)) {
      BallotsStep(s, e, n', s');
      FirstTally(s, e, n', s');
    } else {
      TallyGrows(s, e, n', s', k);
      assert k in s.h.tally && TallySound(s, k);
      OldTally(s, e, n', s', k);
    }
  }

  lemma CandidatesCount(s: Cluster, e: Event, n': Node, s': Cluster)
    requires VoteStep(s, e, n', s') && TalliesSound(s) && TokensOnce(s)
    requires n'.role == Candidate || Counts(s.nodes[Actor(e)], e)
    ensures var n := s.nodes[Actor(e)];
            var k := (if e.Timeout? then n'.currentTerm else n.currentTerm, Actor(e));
            k in s'.h.tally
            && |s'.h.tally[k]| == (if Counts(n, e) then n.votesReceived + 1 else n'.votesReceived) >= 1
  {
    if Counts(s.nodes[Actor(e)], e) {
      assert InFlight(s, e.p);
      assert e.p.from !in TallyOf(s.h, e.p.body.term, Actor(e));
    }
  }

  lemma TalliesStep(s: Cluster, e: Event, n': Node, s': Cluster)
    requires VoteStep(s, e, n', s') && VotesInv(s) && TalliesSound(s) && TokensOnce(s)
    ensures TalliesSound(s')
  {
    hide VotesInv, TokensOnce;
    forall k | k in s'.h.tally ensures TallySound(s', k) {
      TallyStep(s, e, n', s', k);
    }
    forall i | i in s'.nodes && s'.nodes[i].role == Candidate
      ensures (s'.nodes[i].currentTerm, i) in s'.h.tally
              && |s'.h.tally[(s'.nodes[i].currentTerm, i)]| == s'.nodes[i].votesReceived >= 1
    {
      if i == Actor(e) {
        CandidatesCount(s, e, n', s');
      }
    }
  }

  lemma QuorumsMeet(ids: set<Id>, a: set<Id>, b: set<Id>) returns (v: Id)
    requires a <= ids && b <= ids && |a| + |b| > |ids|
    ensures v in a && v in b
  {
    if a * b == {} {
      assert |a + b| == |a| + |b|;
      SubsetSize(a + b, ids);
    }
    v :| v in a * b;
  }

  lemma {:induction false} SubsetSize(a: set<Id>, b: set<Id>)
    requires a <= b
    ensures |a| <= |b|
  {
    if a != {} {
      var x :| x in a;
      SubsetSize(a - {x}, b - {x});
    }
  }

  /** A candidate that reaches the threshold has a majority behind it. */
  lemma WinnerHasMajority(s: Cluster, e: Event, n': Node, s': Cluster)
    requires VoteStep(s, e, n', s') && VotesInv(s) && TalliesSound(s) && TokensOnce(s)
    requires ListsPeers(e.peers, s.ids, Actor(e)) && MajorityWins(s.ids)
    requires s.nodes[Actor(e)].role != Leader && n'.role == Leader
    ensures var k := (n'.currentTerm, Actor(e));
            k in s'.h.tally && TallySound(s', k) && 2 * |s'.h.tally[k]| > |s.ids|
  {
    hide VotesInv, TokensOnce, TallySound;
    PeersSize(e.peers, s.ids, Actor(e));
    CandidatesCount(s, e, n', s');
    TallyStep(s, e, n', s', (n'.currentTerm, Actor(e)));
  }

  /** ... and its term had no winner yet. */
  lemma WinnerIsNew(s: Cluster, e: Event, n': Node, s': Cluster)
    requires VoteStep(s, e, n', s') && VotesInv(s) && TalliesSound(s) && TokensOnce(s) && WinsSound(s)
    requires ListsPeers(e.peers, s.ids, Actor(e)) && MajorityWins(s.ids)
    requires s.nodes[Actor(e)].role != Leader && n'.role == Leader
    ensures n'.currentTerm !in s.h.won
  {
    var t := n'.currentTerm;
    if t in s.h.won {
      WinnerHasMajority(s, e, n', s');
      BallotKept(s, e, n', s');
      assert WonSound(s, t);
      var v := QuorumsMeet(s.ids, s.h.quorum[t], s'.h.tally[(t, Actor(e))]);
    }
  }

  lemma OldWin(s: Cluster, e: Event, n': Node, s': Cluster, t: nat)
    requires VoteStep(s, e, n', s')
    requires t in s.h.won && WonSound(s, t)
    requires s.nodes[Actor(e)].role != Leader && n'.role == Leader ==> t != n'.currentTerm
    ensures t in s'.h.won && s'.h.won[t] == s.h.won[t] && WonSound(s', t)
  {
    BallotKept(s, e, n', s');
  }

  lemma NewWin(s: Cluster, e: Event, n': Node, s': Cluster)
    requires VoteStep(s, e, n', s')
    requires s.nodes[Actor(e)].role != Leader && n'.role == Leader
    requires var k := (n'.currentTerm, Actor(e));
             k in s'.h.tally && TallySound(s', k) && 2 * |s'.h.tally[k]| > |s.ids|
    ensures n'.currentTerm in s'.h.won && s'.h.won[n'.currentTerm] == Actor(e) && WonSound(s', n'.currentTerm)
    ensures s'.h.won == s.h.won[n'.currentTerm := Actor(e)]
  {
  }

  lemma NoWin(s: Cluster, e: Event, n': Node, s': Cluster)
    requires VoteStep(s, e, n', s')
    requires !(s.nodes[Actor(e)].role != Leader && n'.role == Leader)
    ensures s'.h.won == s.h.won
    ensures s'.nodes[Actor(e)].role == Leader ==>
      s.nodes[Actor(e)].role == Leader && n'.currentTerm == s.nodes[Actor(e)].currentTerm
  {
  }

  lemma WinsStep(s: Cluster, e: Event, n': Node, s': Cluster)
    requires VoteStep(s, e, n', s') && VotesInv(s) && TalliesSound(s) && TokensOnce(s) && WinsSound(s)
    requires ListsPeers(e.peers, s.ids, Actor(e)) && MajorityWins(s.ids)
    ensures WinsSound(s')
    ensures forall t :: t in s.h.won ==> t in s'.h.won && s'.h.won[t] == s.h.won[t]
  {
    hide VotesInv, TokensOnce, TalliesSound, ListsPeers, WonSound, TallySound, Observe, NodeVotes;
    if s.nodes[Actor(e)].role != Leader && n'.role == Leader {
      WinnerHasMajority(s, e, n', s');
      WinnerIsNew(s, e, n', s');
      NewWin(s, e, n', s');
    } else {
      NoWin(s, e, n', s');
    }
    forall t | t in s.h.won ensures t in s'.h.won && s'.h.won[t] == s.h.won[t] && WonSound(s', t) {
      OldWin(s, e, n', s', t);
    }
  }

  lemma ElectionStep(s: Cluster, e: Event, s': Cluster)
    requires Steps(s, e, s') && ElectionInv(s) && MajorityWins(s.ids)
    ensures s'.ids == s.ids && ElectionInv(s')
    ensures forall t :: t in s.h.won ==> t in s'.h.won && s'.h.won[t] == s.h.won[t]
  {
    var f := Act(s.nodes[Actor(e)], e);
    StepIsVoteStep(s, e);
    hide Next, VoteStep, PacketStep, Act, TokensOnce, TalliesSound, WinsSound, CandidacySound, BallotsSound, PollsSound;
    CandidacyStep(s, e, f.node, s');
    BallotsStep(s, e, f.node, s');
    PollsStep(s, e, f, s');
    TokensOnceStep(s, e, f, s');
    TalliesStep(s, e, f.node, s');
    WinsStep(s, e, f.node, s');
  }

  // ---------- Runs ----------

  lemma InitElection(ids: set<Id>)
    requires 0 !in ids
    ensures ElectionInv(Init(ids))
  {
  }

  lemma {:induction false} ElectionInRuns(states: seq<Cluster>, events: seq<Event>, k: nat)
    requires Run(states, events) && MajorityWins(states[0].ids) && k < |states|
    ensures states[k].ids == states[0].ids && ElectionInv(states[k])
  {
    hide Steps, ElectionInv, Init;
    if k == 0 {
      InitElection(states[0].ids);
    } else {
      ElectionInRuns(states, events, k - 1);
      ElectionStep(states[k - 1], events[k - 1], states[k]);
    }
  }

  lemma {:induction false} WinsLast(states: seq<Cluster>, events: seq<Event>, j: nat, k: nat, t: nat)
    requires Run(states, events) && MajorityWins(states[0].ids) && j <= k < |states|
    requires t in states[j].h.won
    ensures t in states[k].h.won && states[k].h.won[t] == states[j].h.won[t]
    decreases k
  {
    hide Steps, ElectionInv, Init;
    if j < k {
      WinsLast(states, events, j, k - 1, t);
      ElectionInRuns(states, events, k - 1);
      ElectionStep(states[k - 1], events[k - 1], states[k]);
    }
  }

  ghost predicate Leads(s: Cluster, i: Id, t: nat) {
    i in s.nodes && s.nodes[i].role == Leader && s.nodes[i].currentTerm == t
  }

  /** Election safety: whenever and wherever two nodes lead the same term, they are the same node. */
  lemma ElectionSafety(states: seq<Cluster>, events: seq<Event>, j: nat, k: nat, a: Id, b: Id, t: nat)
    requires Run(states, events) && MajorityWins(states[0].ids)
    requires j < |states| && k < |states| && Leads(states[j], a, t) && Leads(states[k], b, t)
    ensures a == b
  {
    var last := |states| - 1;
    ElectionInRuns(states, events, j);
    ElectionInRuns(states, events, k);
    WinsLast(states, events, j, last, t);
    WinsLast(states, events, k, last, t);
  }
}
