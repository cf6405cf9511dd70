/**
 Leader completeness: an entry of a term that a majority really held while in that term is in the
 log of every later leader.

 "Really held" is about the nodes' logs, not about the match indices the leader was told: those can
 overstate (see RaftSafety and RaftDivergence).
 */
module RaftCompleteness {
  import opened RaftNode
  import opened RaftCluster
  import opened RaftElection
  import opened RaftLogs

  /** Some leader of a term in [from, to) did not have `p`. */
  ghost predicate Overruled(leaders: Logs, from: nat, to: nat, p: seq<Entry>) {
    exists t :: t in leaders && from <= t < to && !(p <= leaders[t])
  }

  ghost predicate Fate(p: seq<Entry>, log: seq<Entry>, leaders: Logs, from: nat, last: nat) {
    p <= log || Overruled(leaders, from, last + 1, p)
  }

  ghost predicate FateBefore(p: seq<Entry>, log: seq<Entry>, leaders: Logs, from: nat, term: nat) {
    p <= log || Overruled(leaders, from, term, p)
  }

  /** What a node once held it still holds, unless a leader it has since followed did not have it. */
  ghost predicate Retains(s: Cluster, sn: Snap)
    requires sn.id in s.nodes
  {
    forall p :: p <= sn.log ==>
      Fate(p, s.nodes[sn.id].log, s.h.leaderLog, sn.term, s.nodes[sn.id].currentTerm)
  }

  ghost predicate AllRetain(s: Cluster) {
    forall sn :: sn in s.h.snaps && sn.id in s.nodes ==> Retains(s, sn)
  }

  /** A vote that helped elect a leader, or still may. */
  ghost predicate Matters(h: History, k: (nat, Id)) {
    k in h.ballots && (k.0 !in h.won || (k.0 in h.quorum && k.1 in h.quorum[k.0]))
  }

  ghost predicate VoteRetains(s: Cluster, k: (nat, Id), sn: Snap)
    requires k in s.h.ballots
  {
    sn.id == k.1 && sn.term < k.0 ==>
      forall p :: p <= sn.log ==> FateBefore(p, s.h.ballots[k].log, s.h.leaderLog, sn.term, k.0)
  }

  ghost predicate VotesRetain(s: Cluster) {
    forall k, sn :: Matters(s.h, k) && sn in s.h.snaps ==> VoteRetains(s, k, sn)
  }

  /** A candidate's log predates its candidacy. */
  ghost predicate CandidatesPredate(s: Cluster) {
    forall k :: k in s.h.candLog ==> 1 <= k.0 && TermsUpTo(s.h.candLog[k], k.0 - 1)
  }

  ghost predicate KeepInv(s: Cluster) {
    AllRetain(s) && VotesRetain(s) && CandidatesPredate(s)
  }

  // ---------- Preservation ----------

  /** Leader logs grow, but never into something a node already held. */
  lemma StillLacks(p: seq<Entry>, log: seq<Entry>, t: nat, a: Logs, b: Logs)
    requires Backed(log, a) && p <= log && t in a && t in b && a[t] <= b[t]
    requires forall k :: |a[t]| <= k < |b[t]| ==> b[t][k].term == t
    requires !(p <= a[t])
    ensures !(p <= b[t])
  {
    var k := |a[t]|;
    if k < |p| {
      assert BackedAt(log, k, a);
      assert log[k].term != t;
      assert p[k] == log[k];
    }
  }

  ghost predicate OwnEntries(a: Logs, b: Logs) {
    forall t :: t in a && t in b ==> forall k :: |a[t]| <= k < |b[t]| ==> b[t][k].term == t
  }

  lemma OverruledStays(p: seq<Entry>, log: seq<Entry>, from: nat, to: nat, to': nat, a: Logs, b: Logs)
    requires Backed(log, a) && p <= log && Grows(a, b) && OwnEntries(a, b) && to <= to'
    requires Overruled(a, from, to, p)
    ensures Overruled(b, from, to', p)
  {
    var t :| t in a && from <= t < to && !(p <= a[t]);
    StillLacks(p, log, t, a, b);
  }

  lemma OwnEntriesStep(s: Cluster, e: Event, f: Effect, s': Cluster)
    requires LogStep(s, e, f, s') && LeadersHold(s)
    ensures OwnEntries(s.h.leaderLog, s'.h.leaderLog)
  {
    LeaderLogStep(s, e, f, s');
    hide Observe, OutLogs, Stamped;
  }

  /** The actor still holds what it held, unless its new leader lacks it. */
  lemma ActorRetains(s: Cluster, e: Event, f: Effect, s': Cluster, p: seq<Entry>)
    requires LogStep(s, e, f, s') && LogInv(s)
    requires p <= s.nodes[Actor(e)].log
    ensures p <= f.node.log || Overruled(s.h.leaderLog, s.nodes[Actor(e)].currentTerm, f.node.currentTerm + 1, p)
  {
    var n := s.nodes[Actor(e)];
    assert SnapSound(Snap(Actor(e), n.currentTerm, n.log), s);
    if e.Deliver? && e.p.body.AppendEntries? && f.node.log != n.log {
      SenderSound(s, e.p);
      var sender := s.h.leaderLog[e.p.body.term];
      BackedMatch(n.log, sender, s.h.leaderLog);
      hide LogInv, Observe, Backed, Overwrite, CutFrom, OutLogs, LogsMatch;
      if p <= sender {
        SharedSurvives(p, n.log, e.p.body, sender);
      }
    }
  }

  lemma FateStep(s: Cluster, e: Event, f: Effect, s': Cluster, sn: Snap, p: seq<Entry>)
    requires LogStep(s, e, f, s') && LogInv(s)
    requires Grows(s.h.leaderLog, s'.h.leaderLog) && OwnEntries(s.h.leaderLog, s'.h.leaderLog)
    requires sn.id in s.nodes && SnapSound(sn, s) && p <= sn.log
    requires Fate(p, s.nodes[sn.id].log, s.h.leaderLog, sn.term, s.nodes[sn.id].currentTerm)
    ensures sn.id in s'.nodes
    ensures Fate(p, s'.nodes[sn.id].log, s'.h.leaderLog, sn.term, s'.nodes[sn.id].currentTerm)
  {
    hide LogStep, LogInv, Backed, OwnEntries, Grows, TermsUpTo;
    SameMembers(s, e, f, s');
    var a, b := s.h.leaderLog, s'.h.leaderLog;
    var to := s'.nodes[sn.id].currentTerm + 1;
    if p <= s.nodes[sn.id].log && sn.id == Actor(e) {
      ActorRetains(s, e, f, s', p);
    }
    if !(p <= s'.nodes[sn.id].log) {
      assert Overruled(a, sn.term, to, p);
      OverruledStays(p, sn.log, sn.term, to, to, a, b);
    }
  }

  lemma RetainsStep(s: Cluster, e: Event, f: Effect, s': Cluster, sn: Snap)
    requires LogStep(s, e, f, s') && LogInv(s)
    requires sn in s.h.snaps && sn.id in s.nodes && Retains(s, sn)
    ensures sn.id in s'.nodes && Retains(s', sn)
  {
    hide LogStep, SnapSound, OwnEntries, Grows, Fate, LeadersHold, Snapped, AppendsSound, LeadersStood;
    LeaderLogStep(s, e, f, s');
    OwnEntriesStep(s, e, f, s');
    SameMembers(s, e, f, s');
    forall p | p <= sn.log
      ensures Fate(p, s'.nodes[sn.id].log, s'.h.leaderLog, sn.term, s'.nodes[sn.id].currentTerm)
    {
      FateStep(s, e, f, s', sn, p);
    }
  }

  lemma JustHeld(s: Cluster, sn: Snap)
    requires sn.id in s.nodes && sn.log == s.nodes[sn.id].log
    ensures Retains(s, sn)
  {
  }

  lemma AllRetainStep(s: Cluster, e: Event, f: Effect, s': Cluster)
    requires LogStep(s, e, f, s') && LogInv(s) && AllRetain(s)
    ensures AllRetain(s')
  {
    hide LogStep, Retains, LeadersHold, SnapsSound, AppendsSound, LeadersStood, Snapped;
    SnappedVotes(s, e, f, s');
    SameMembers(s, e, f, s');
    forall sn | sn in s'.h.snaps && sn.id in s'.nodes ensures Retains(s', sn) {
      if sn in s.h.snaps {
        RetainsStep(s, e, f, s', sn);
      } else {
        JustHeld(s', sn);
      }
    }
  }

  lemma OldBallot(s: Cluster, e: Event, f: Effect, s': Cluster, k: (nat, Id))
    requires LogStep(s, e, f, s') && k in s.h.ballots
    ensures k in s'.h.ballots && s'.h.ballots[k] == s.h.ballots[k]
    ensures Matters(s'.h, k) ==> Matters(s.h, k)
  {
    hide NodeLogs, OutLogs, Stamped;
  }

  lemma NewBallot(s: Cluster, e: Event, f: Effect, s': Cluster, k: (nat, Id))
    requires LogStep(s, e, f, s') && BallotsSound(s) && LeadersHold(s) && WinsSound(s)
    requires k !in s.h.ballots && Matters(s'.h, k)
    ensures k == (f.node.currentTerm, Actor(e)) && s'.h.ballots[k].log == s.nodes[Actor(e)].log
    ensures k.0 !in s.h.leaderLog
  {
    hide NodeLogs, OutLogs, Stamped, BallotSound;
    assert k.0 in s.h.won ==> WonSound(s, k.0);
  }

  lemma OldVoteRetains(s: Cluster, e: Event, f: Effect, s': Cluster, k: (nat, Id), sn: Snap)
    requires Grows(s.h.leaderLog, s'.h.leaderLog) && OwnEntries(s.h.leaderLog, s'.h.leaderLog)
    requires k in s.h.ballots && k in s'.h.ballots && s'.h.ballots[k] == s.h.ballots[k]
    requires SnapSound(sn, s) && VoteRetains(s, k, sn)
    ensures VoteRetains(s', k, sn)
  {
    hide Grows, OwnEntries, Backed, TermsUpTo;
    if sn.id == k.1 && sn.term < k.0 {
      forall p | p <= sn.log ensures FateBefore(p, s'.h.ballots[k].log, s'.h.leaderLog, sn.term, k.0) {
        assert FateBefore(p, s.h.ballots[k].log, s.h.leaderLog, sn.term, k.0);
        if !(p <= s.h.ballots[k].log) {
          OverruledStays(p, sn.log, sn.term, k.0, k.0, s.h.leaderLog, s'.h.leaderLog);
        }
      }
    }
  }

  /** A fresh vote: the voter's log still has what it held, or a leader of an earlier term did not. */
  lemma NewVoteRetains(s: Cluster, s': Cluster, k: (nat, Id), sn: Snap)
    requires Grows(s.h.leaderLog, s'.h.leaderLog) && OwnEntries(s.h.leaderLog, s'.h.leaderLog)
    requires k.1 in s.nodes && k in s'.h.ballots && s'.h.ballots[k].log == s.nodes[k.1].log
    requires s.nodes[k.1].currentTerm <= k.0 && k.0 !in s.h.leaderLog
    requires SnapSound(sn, s) && Retains(s, sn)
    ensures VoteRetains(s', k, sn)
  {
    hide Grows, OwnEntries, Backed, TermsUpTo;
    if sn.id == k.1 && sn.term < k.0 {
      forall p | p <= sn.log ensures FateBefore(p, s'.h.ballots[k].log, s'.h.leaderLog, sn.term, k.0) {
        assert Fate(p, s.nodes[k.1].log, s.h.leaderLog, sn.term, s.nodes[k.1].currentTerm);
        if !(p <= s.nodes[k.1].log) {
          assert Overruled(s.h.leaderLog, sn.term, k.0, p);
          OverruledStays(p, sn.log, sn.term, k.0, k.0, s.h.leaderLog, s'.h.leaderLog);
        }
      }
    }
  }

  lemma VoteRetainsStep(s: Cluster, e: Event, f: Effect, s': Cluster, k: (nat, Id), sn: Snap)
    requires LogStep(s, e, f, s') && LogInv(s) && BallotsSound(s) && WinsSound(s)
    requires AllRetain(s) && VotesRetain(s)
    requires Matters(s'.h, k) && sn in s'.h.snaps
    ensures VoteRetains(s', k, sn)
  {
    hide LogStep, LeadersHold, Snapped, AppendsSound, LeadersStood, Matters, WonSound;
    LeaderLogStep(s, e, f, s');
    OwnEntriesStep(s, e, f, s');
    SameMembers(s, e, f, s');
    SnappedVotes(s, e, f, s');
    hide Retains, VoteRetains, SnapSound, Grows, OwnEntries;
    if k in s.h.ballots {
      OldBallot(s, e, f, s', k);
      if sn in s.h.snaps {
        OldVoteRetains(s, e, f, s', k, sn);
      } else {
        LateSnap(s, s', k, sn);
      }
    } else {
      NewBallot(s, e, f, s', k);
      BallotHeld(s'.h, k);
      if sn in s.h.snaps {
        SnapHasNode(s, sn);
        NewVoteRetains(s, s', k, sn);
      } else {
        SameTermSnap(s', k, sn);
      }
    }
  }

  lemma BallotHeld(h: History, k: (nat, Id))
    requires Matters(h, k)
    ensures k in h.ballots
  {
  }

  lemma SnapHasNode(s: Cluster, sn: Snap)
    requires SnapSound(sn, s)
    ensures sn.id in s.nodes
  {
  }

  lemma SameTermSnap(s: Cluster, k: (nat, Id), sn: Snap)
    requires k in s.h.ballots && !(sn.id == k.1 && sn.term < k.0)
    ensures VoteRetains(s, k, sn)
  {
  }

  /** A node that has voted in a term is past every earlier term. */
  lemma LateSnap(s: Cluster, s': Cluster, k: (nat, Id), sn: Snap)
    requires k in s.h.ballots && BallotSound(s, k) && k in s'.h.ballots
    requires sn.id in s.nodes && sn.id in s'.nodes && s.nodes[sn.id].currentTerm <= sn.term
    ensures VoteRetains(s', k, sn)
  {
  }

  lemma VotesRetainStep(s: Cluster, e: Event, f: Effect, s': Cluster)
    requires LogStep(s, e, f, s') && LogInv(s) && BallotsSound(s) && WinsSound(s)
    requires AllRetain(s) && VotesRetain(s)
    ensures VotesRetain(s')
  {
    hide LogStep, LogInv, BallotsSound, WinsSound, AllRetain, VoteRetains;
    forall k, sn | Matters(s'.h, k) && sn in s'.h.snaps ensures VoteRetains(s', k, sn) {
      VoteRetainsStep(s, e, f, s', k, sn);
    }
  }

  lemma CandLogIs(s: Cluster, e: Event, f: Effect, s': Cluster)
    requires LogStep(s, e, f, s')
    ensures Actor(e) in s.nodes && (e.Timeout? ==> f.node.currentTerm == s.nodes[Actor(e)].currentTerm + 1)
    ensures s'.h.candLog == if e.Timeout? then s.h.candLog[(f.node.currentTerm, Actor(e)) := s.nodes[Actor(e)].log]
                            else s.h.candLog
  {
    hide NodeLogs, OutLogs, Stamped, UpToDate, Counts, TallyOf;
  }

  lemma ActorTerms(s: Cluster, i: Id)
    requires LogInv(s) && i in s.nodes
    ensures TermsUpTo(s.nodes[i].log, s.nodes[i].currentTerm)
  {
    hide LeadersHold, AppendsSound, LeadersStood, Backed, TermsUpTo;
    assert SnapSound(Snap(i, s.nodes[i].currentTerm, s.nodes[i].log), s);
  }

  lemma CandidatesPredateStep(s: Cluster, e: Event, f: Effect, s': Cluster)
    requires LogStep(s, e, f, s') && LogInv(s) && CandidatesPredate(s)
    ensures CandidatesPredate(s')
  {
    hide LogStep, LogInv, TermsUpTo;
    CandLogIs(s, e, f, s');
    ActorTerms(s, Actor(e));
  }

  lemma KeepStep(s: Cluster, e: Event, s': Cluster)
    requires Steps(s, e, s') && ElectionInv(s) && LogInv(s) && KeepInv(s) && MajorityWins(s.ids)
    ensures KeepInv(s')
  {
    hide Steps, LogInv, LogStep, Act, TokensOnce, TalliesSound, WinsSound, BallotsSound, CandidacySound, PollsSound,
      AllRetain, VotesRetain, CandidatesPredate;
    var f := StepIsLogStep(s, e, s');
    AllRetainStep(s, e, f, s');
    VotesRetainStep(s, e, f, s');
    CandidatesPredateStep(s, e, f, s');
  }

  // ---------- The theorem, in one state ----------

  ghost predicate Held(s: Cluster, i: Id, term: nat, p: seq<Entry>) {
    exists sn :: sn in s.h.snaps && sn.id == i && sn.term == term && p <= sn.log
  }

  ghost predicate HeldByAll(s: Cluster, q: set<Id>, term: nat, p: seq<Entry>) {
    forall i :: i in q ==> Held(s, i, term, p)
  }

  ghost predicate IsQuorum(q: set<Id>, ids: set<Id>) {
    q <= ids && 2 * |q| > |ids|
  }

  /** An entry of the leader's own term, and all before it, that a majority held while in that term. */
  ghost predicate Replicated(s: Cluster, term: nat, k: nat, q: set<Id>) {
    && term in s.h.leaderLog && 1 <= k <= |s.h.leaderLog[term]| && s.h.leaderLog[term][k - 1].term == term
    && IsQuorum(q, s.ids) && HeldByAll(s, q, term, s.h.leaderLog[term][..k])
  }

  lemma LastEntry(log: seq<Entry>, leaders: Logs)
    requires Backed(log, leaders) && |log| > 0
    ensures LastTerm(log) in leaders && log <= leaders[LastTerm(log)]
  {
    assert BackedAt(log, |log| - 1, leaders);
    assert log[..|log|] == log;
  }

  lemma LastTermAtLeast(p: seq<Entry>, log: seq<Entry>, term: nat, bound: nat)
    requires TermsUpTo(log, bound) && p <= log && |p| > 0 && p[|p| - 1].term == term
    ensures |log| > 0 && LastTerm(log) >= term && 1 <= term
    ensures forall j :: 0 <= j < |p| ==> p[j].term <= term
  {
    assert p[|p| - 1] == log[|p| - 1];
    forall j | 0 <= j < |p| ensures p[j].term <= term {
      assert p[j] == log[j];
    }
  }

  lemma LongerPrefix(p: seq<Entry>, cand: seq<Entry>, log: seq<Entry>, term: nat)
    requires p <= log && cand <= log && |cand| > 0 && LastTerm(cand) > term
    requires forall j :: 0 <= j < |p| ==> p[j].term <= term
    ensures p <= cand
  {
    var last := |cand| - 1;
    assert log[last] == cand[last];
    assert forall j :: 0 <= j < |p| ==> log[j].term <= term;
  }

  /** A candidate that passed the up-to-date check of a voter holding `p` has `p` too, if the leader of
      its last term did. */
  lemma CandidateHas(p: seq<Entry>, vote: seq<Entry>, cand: seq<Entry>, term: nat, bound: nat, leaders: Logs)
    requires Backed(vote, leaders) && Backed(cand, leaders) && TermsUpTo(vote, bound) && TermsUpTo(cand, bound)
    requires |p| > 0 && p <= vote && p[|p| - 1].term == term
    requires UpToDate(LastTerm(cand), LastIndex(cand), vote)
    requires LastTerm(cand) in leaders && term <= LastTerm(cand) ==> p <= leaders[LastTerm(cand)]
    ensures p <= cand
  {
    LastTermAtLeast(p, vote, term, bound);
    LastEntry(vote, leaders);
    LastEntry(cand, leaders);
    hide Backed, TermsUpTo;
    if LastTerm(cand) > LastTerm(vote) {
      LongerPrefix(p, cand, leaders[LastTerm(cand)], term);
    }
  }

  /** A voter that held `p` in `term` still had it when it helped elect `later`, if the leaders in between had it. */
  lemma VoterHas(s: Cluster, term: nat, later: nat, v: Id, p: seq<Entry>)
    requires VotesRetain(s) && SnapsSound(s) && term < later
    requires Held(s, v, term, p) && Matters(s.h, (later, v))
    requires forall t :: t in s.h.leaderLog && term <= t < later ==> p <= s.h.leaderLog[t]
    ensures p <= s.h.ballots[(later, v)].log
  {
    var sn :| sn in s.h.snaps && sn.id == v && sn.term == term && p <= sn.log;
    assert VoteRetains(s, (later, v), sn);
    assert FateBefore(p, s.h.ballots[(later, v)].log, s.h.leaderLog, term, later);
  }

  /** Where the votes that elected `later` meet the majority that held `p`. */
  lemma SharedVoter(s: Cluster, term: nat, later: nat, q: set<Id>, p: seq<Entry>) returns (v: Id)
    requires ElectionInv(s) && later in s.h.won
    requires IsQuorum(q, s.ids) && HeldByAll(s, q, term, p)
    ensures Held(s, v, term, p) && Matters(s.h, (later, v))
    ensures s.h.ballots[(later, v)].candidate == s.h.won[later] && BallotSound(s, (later, v))
  {
    hide Held, VotesInv, TokensOnce, TalliesSound, WF, BallotSound;
    assert WonSound(s, later);
    v := QuorumsMeet(s.ids, s.h.quorum[later], q);
    BallotFacts(s, (later, v));
  }

  lemma BallotFacts(s: Cluster, k: (nat, Id))
    requires ElectionInv(s) && k in s.h.ballots
    ensures BallotSound(s, k)
  {
    hide BallotSound, WF, TokensOnce, TalliesSound, WinsSound, PollsSound, CandidacySound;
  }

  lemma SnapFacts(s: Cluster, sn: Snap)
    requires LogInv(s) && sn in s.h.snaps
    ensures SnapSound(sn, s)
  {
  }

  /** Leader completeness: what a majority held in term `term`, up to an entry of that term, every later
      leader stood with. */
  lemma {:induction false} LaterLeadersStoodWith(s: Cluster, term: nat, k: nat, q: set<Id>, later: nat)
    requires ElectionInv(s) && LogInv(s) && KeepInv(s)
    requires Replicated(s, term, k, q) && term < later && later in s.h.won
    ensures (later, s.h.won[later]) in s.h.candLog
    ensures s.h.leaderLog[term][..k] <= s.h.candLog[(later, s.h.won[later])]
    decreases later
  {
    hide *;
    Unfold(s, term, k, q);
    var p := s.h.leaderLog[term][..k];
    forall t | t in s.h.leaderLog && term <= t < later ensures p <= s.h.leaderLog[t] {
      if term < t {
        LeaderIsWinner(s, t);
        LaterLeadersStoodWith(s, term, k, q, t);
        LeaderHasWhatItStoodWith(s, t, p);
      }
    }
    var v := SharedVoter(s, term, later, q, p);
    VoterHasInState(s, term, later, v, p);
    VoterAndCandidate(s, later, v);
    var vote, cand := s.h.ballots[(later, v)].log, s.h.candLog[(later, s.h.won[later])];
    CandidateHas(p, vote, cand, term, later, s.h.leaderLog);
  }

  lemma Unfold(s: Cluster, term: nat, k: nat, q: set<Id>)
    requires Replicated(s, term, k, q)
    ensures term in s.h.leaderLog && 1 <= k <= |s.h.leaderLog[term]| && s.h.leaderLog[term][k - 1].term == term
    ensures IsQuorum(q, s.ids) && HeldByAll(s, q, term, s.h.leaderLog[term][..k])
  {
  }

  lemma LeaderIsWinner(s: Cluster, t: nat)
    requires LogInv(s)
    ensures t in s.h.leaderLog <==> t in s.h.won
  {
  }

  lemma LeaderHasWhatItStoodWith(s: Cluster, t: nat, p: seq<Entry>)
    requires LogInv(s) && t in s.h.leaderLog && t in s.h.won
    requires (t, s.h.won[t]) in s.h.candLog && p <= s.h.candLog[(t, s.h.won[t])]
    ensures p <= s.h.leaderLog[t]
  {
  }

  lemma VoterHasInState(s: Cluster, term: nat, later: nat, v: Id, p: seq<Entry>)
    requires KeepInv(s) && LogInv(s) && term < later
    requires Held(s, v, term, p) && Matters(s.h, (later, v))
    requires forall t :: t in s.h.leaderLog && term <= t < later ==> p <= s.h.leaderLog[t]
    ensures (later, v) in s.h.ballots && p <= s.h.ballots[(later, v)].log
  {
    hide AllRetain, CandidatesPredate, LeadersHold, Snapped, AppendsSound, LeadersStood, Held, VotesRetain;
    VoterHas(s, term, later, v, p);
  }

  lemma VoterAndCandidate(s: Cluster, term: nat, v: Id)
    requires LogInv(s) && KeepInv(s) && (term, v) in s.h.ballots && BallotSound(s, (term, v))
    ensures (term, s.h.ballots[(term, v)].candidate) in s.h.candLog
    ensures var vote, cand := s.h.ballots[(term, v)].log, s.h.candLog[(term, s.h.ballots[(term, v)].candidate)];
            && Backed(vote, s.h.leaderLog) && TermsUpTo(vote, term)
            && Backed(cand, s.h.leaderLog) && TermsUpTo(cand, term)
            && LastTerm(cand) < term
            && UpToDate(LastTerm(cand), LastIndex(cand), vote)
  {
    hide LeadersHold, AppendsSound, LeadersStood, Backed;
    var c := s.h.ballots[(term, v)].candidate;
    SnapFacts(s, Snap(v, term, s.h.ballots[(term, v)].log));
    SnapFacts(s, Snap(c, term, s.h.candLog[(term, c)]));
  }

  /** Two majorities' worth of held entries never disagree: the earlier is part of the later leader's log. */
  lemma LaterLeadersHave(s: Cluster, term: nat, k: nat, q: set<Id>, later: nat)
    requires ElectionInv(s) && LogInv(s) && KeepInv(s)
    requires Replicated(s, term, k, q) && term <= later && later in s.h.leaderLog
    ensures s.h.leaderLog[term][..k] <= s.h.leaderLog[later]
  {
    hide *;
    Unfold(s, term, k, q);
    if term < later {
      LeaderIsWinner(s, later);
      LaterLeadersStoodWith(s, term, k, q, later);
      LeaderHasWhatItStoodWith(s, later, s.h.leaderLog[term][..k]);
    }
  }

  // ---------- Runs ----------

  lemma InitKeeps(ids: set<Id>)
    requires 0 !in ids
    ensures KeepInv(Init(ids))
  {
    var s := Init(ids);
    forall sn | sn in s.h.snaps && sn.id in s.nodes ensures Retains(s, sn) {
      JustHeld(s, sn);
    }
  }

  lemma {:induction false} KeepsInRuns(states: seq<Cluster>, events: seq<Event>, k: nat)
    requires Run(states, events) && MajorityWins(states[0].ids) && k < |states|
    ensures states[k].ids == states[0].ids && ElectionInv(states[k]) && LogInv(states[k]) && KeepInv(states[k])
  {
    hide Steps, ElectionInv, LogInv, KeepInv, Init;
    ElectionInRuns(states, events, k);
    LogsInRuns(states, events, k);
    if k == 0 {
      InitKeeps(states[0].ids);
    } else {
      KeepsInRuns(states, events, k - 1);
      KeepStep(states[k - 1], events[k - 1], states[k]);
    }
  }

  lemma HistoryGrows(s: Cluster, e: Event, s': Cluster)
    requires Steps(s, e, s') && ElectionInv(s) && LogInv(s) && MajorityWins(s.ids)
    ensures s.h.snaps <= s'.h.snaps && Grows(s.h.leaderLog, s'.h.leaderLog)
  {
    hide ElectionInv, LogStep, LeadersHold, SnapsSound, AppendsSound, LeadersStood, Act, Grows;
    var f := StepIsLogStep(s, e, s');
    LeaderLogStep(s, e, f, s');
    SnappedVotes(s, e, f, s');
  }

  lemma {:induction false} HistoryLasts(states: seq<Cluster>, events: seq<Event>, j: nat, k: nat)
    requires Run(states, events) && MajorityWins(states[0].ids) && j <= k < |states|
    ensures states[j].h.snaps <= states[k].h.snaps && Grows(states[j].h.leaderLog, states[k].h.leaderLog)
    decreases k
  {
    hide Steps, ElectionInv, LogInv, KeepInv, Init;
    if j < k {
      HistoryLasts(states, events, j, k - 1);
      KeepsInRuns(states, events, k - 1);
      HistoryGrows(states[k - 1], events[k - 1], states[k]);
    }
  }

  /** At some moment of the run, node `i` was in `term` and its log started with `p`. */
  ghost predicate HeldDuring(states: seq<Cluster>, i: Id, term: nat, p: seq<Entry>) {
    exists m :: 0 <= m < |states| && i in states[m].nodes
                && states[m].nodes[i].currentTerm == term && p <= states[m].nodes[i].log
  }

  lemma HeldInTheEnd(states: seq<Cluster>, events: seq<Event>, i: Id, term: nat, p: seq<Entry>)
    requires Run(states, events) && MajorityWins(states[0].ids) && HeldDuring(states, i, term, p)
    ensures Held(states[|states| - 1], i, term, p)
  {
    var m :| 0 <= m < |states| && i in states[m].nodes && states[m].nodes[i].currentTerm == term
        && p <= states[m].nodes[i].log;
    hide Run, ElectionInv, KeepInv, LeadersHold, SnapsSound, AppendsSound, LeadersStood;
    KeepsInRuns(states, events, m);
    HistoryLasts(states, events, m, |states| - 1);
    assert Snap(i, term, states[m].nodes[i].log) in states[|states| - 1].h.snaps;
  }

  /** What the invariants say of a node that leads. */
  lemma Leading(s: Cluster, a: Id, term: nat)
    requires ElectionInv(s) && LogInv(s) && Leads(s, a, term)
    ensures a in s.nodes && term in s.h.won && s.h.won[term] == a
    ensures term in s.h.leaderLog && s.h.leaderLog[term] == s.nodes[a].log
    ensures (term, a) in s.h.candLog && s.h.candLog[(term, a)] <= s.nodes[a].log
  {
    hide VotesInv, TokensOnce, TalliesSound, WF, WonSound, Snapped, SnapsSound, AppendsSound;
  }

  lemma LeadersLogLasts(states: seq<Cluster>, events: seq<Event>, j: nat, a: Id, term: nat)
    requires Run(states, events) && MajorityWins(states[0].ids) && j < |states| && Leads(states[j], a, term)
    ensures a in states[j].nodes
    ensures term in states[|states| - 1].h.leaderLog && states[j].nodes[a].log <= states[|states| - 1].h.leaderLog[term]
  {
    hide Run, ElectionInv, LogInv, KeepInv, Leads;
    KeepsInRuns(states, events, j);
    Leading(states[j], a, term);
    HistoryLasts(states, events, j, |states| - 1);
  }

  /** Leader completeness over runs. If, whenever it was, node `a` led `term` with an entry of that
      term at index k-1, and each node of a majority held its first k entries at some moment while in
      `term`, then whoever leads a later term, whenever it does, starts with those k entries. */
  lemma LeaderCompleteness(states: seq<Cluster>, events: seq<Event>, j: nat, a: Id, term: nat, k: nat, q: set<Id>,
                           j': nat, b: Id, later: nat)
    requires Run(states, events) && MajorityWins(states[0].ids)
    requires j < |states| && Leads(states[j], a, term)
    requires 1 <= k <= |states[j].nodes[a].log| && states[j].nodes[a].log[k - 1].term == term
    requires IsQuorum(q, states[0].ids)
    requires forall i :: i in q ==> HeldDuring(states, i, term, states[j].nodes[a].log[..k])
    requires j' < |states| && Leads(states[j'], b, later) && term < later
    ensures states[j].nodes[a].log[..k] <= states[j'].nodes[b].log
  {
    hide *;
    var end := |states| - 1;
    var last := states[end];
    RunHasStates(states, events);
    KeepsInRuns(states, events, end);
    LeadersLogLasts(states, events, j, a, term);
    LeadersLogLasts(states, events, j', b, later);
    var p := states[j].nodes[a].log[..k];
    forall i | i in q ensures Held(last, i, term, p) {
      HeldInTheEnd(states, events, i, term, p);
    }
    Fold(last, term, k, q, p);
    StoodThroughout(states, events, j', b, later);
    LeaderIsWinner(last, later);
    LaterLeadersStoodWith(last, term, k, q, later);
  }

  lemma RunHasStates(states: seq<Cluster>, events: seq<Event>)
    requires Run(states, events)
    ensures |states| > 0
  {
    hide Steps;
  }

  lemma Fold(s: Cluster, term: nat, k: nat, q: set<Id>, p: seq<Entry>)
    requires term in s.h.leaderLog && p <= s.h.leaderLog[term] && |p| == k >= 1 && p[k - 1].term == term
    requires IsQuorum(q, s.ids) && forall i :: i in q ==> Held(s, i, term, p)
    ensures Replicated(s, term, k, q) && s.h.leaderLog[term][..k] == p
  {
    hide Held, IsQuorum;
    assert s.h.leaderLog[term][..k] == p;
  }

  /** While a node leads, its log starts with the log it stood with. */
  lemma StoodThroughout(states: seq<Cluster>, events: seq<Event>, j: nat, b: Id, term: nat)
    requires Run(states, events) && MajorityWins(states[0].ids) && j < |states| && Leads(states[j], b, term)
    ensures |states| > 0 && b in states[j].nodes
    ensures var last := states[|states| - 1];
            term in last.h.won && (term, last.h.won[term]) in last.h.candLog
            && last.h.candLog[(term, last.h.won[term])] <= states[j].nodes[b].log
  {
    hide *;
    RunHasStates(states, events);
    KeepsInRuns(states, events, j);
    Leading(states[j], b, term);
    WinsLast(states, events, j, |states| - 1, term);
    CandidacyLasts(states, events, j, |states| - 1, (term, b));
  }

  lemma {:induction false} CandidacyLasts(states: seq<Cluster>, events: seq<Event>, j: nat, k: nat, key: (nat, Id))
    requires Run(states, events) && MajorityWins(states[0].ids) && j <= k < |states|
    requires key in states[j].h.candLog
    ensures key in states[k].h.candLog && states[k].h.candLog[key] == states[j].h.candLog[key]
    decreases k
  {
    hide Steps, ElectionInv, Init;
    if j < k {
      CandidacyLasts(states, events, j, k - 1, key);
      ElectionInRuns(states, events, k - 1);
      CandidacyGrows(states[k - 1], events[k - 1], states[k]);
    }
  }

  lemma StepVotes(s: Cluster, e: Event, s': Cluster) returns (n': Node)
    requires Steps(s, e, s')
    ensures VoteStep(s, e, n', s')
  {
    hide VoteStep, PacketStep, Act;
    StepIsVoteStep(s, e);
    ActStaysReadyHere(s, e);
    n' := Act(s.nodes[Actor(e)], e).node;
  }

  lemma ActStaysReadyHere(s: Cluster, e: Event)
    requires WF(s) && Enabled(s, e)
    ensures Actor(e) in s.nodes && CanAct(s.nodes[Actor(e)], e)
  {
    hide ListsPeers;
    ActStaysReady(s.nodes[Actor(e)], e, s.ids);
  }

  lemma CandidacyGrows(s: Cluster, e: Event, s': Cluster)
    requires Steps(s, e, s') && ElectionInv(s)
    ensures forall k :: k in s.h.candLog ==> k in s'.h.candLog && s'.h.candLog[k] == s.h.candLog[k]
  {
    hide *;
    ElectionHasCandidates(s);
    var n' := StepVotes(s, e, s');
    CandidacyStep(s, e, n', s');
  }
}
