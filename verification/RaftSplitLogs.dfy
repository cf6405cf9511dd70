/**
 What two leaders of one term do, in a cluster with an even number of members, four or more: followers take
 the entry of one for that of the other, because both carry the same term. So log matching fails there, and
 so does state-machine safety, even on runs with truthful and current replies. (Where a term has two
 leaders, a reply is truthful by the log of the one that acted last.)
 */
module RaftSplitLogs {
  import opened RaftNode
  import opened RaftCluster
  import opened RaftRuns
  import RaftElection
  import opened RaftLogs
  import RaftCompleteness
  import opened RaftSafety
  import opened RaftScenes
  import opened RaftCrowds
  import opened RaftWitness
  import RaftDivergence
  import RaftSplitVote

  const P1 := Entry(1, [1])
  const P2 := Entry(1, [2])

  ghost predicate Halves(ids: set<Id>, a: Id, va: set<Id>, b: Id, vb: set<Id>) {
    && 0 !in ids && a in ids && b in ids && a != b && |ids| >= 4
    && va <= ids - {a, b} && vb <= ids - {a, b} && va !! vb && va != {} && vb != {}
    && |va| == |vb| == (|ids| - 1) / 2 && 1 + |va + vb| > |ids| / 2
  }

  lemma Halve(ids: set<Id>) returns (a: Id, va: set<Id>, b: Id, vb: set<Id>)
    requires 0 !in ids && |ids| >= 4 && |ids| % 2 == 0
    ensures Halves(ids, a, va, b, vb)
  {
    a, va, b, vb := RaftSplitVote.Halves(ids);
  }

  /** Nodes `a` and `b` both lead term 1, elected by one half of the others each. */
  lemma BothLead(ids: set<Id>, a: Id, va: set<Id>, b: Id, vb: set<Id>) returns (r: Tape)
    requires Halves(ids, a, va, b, vb)
    ensures Good(r) && Honest(r) && Punctual(r) && r.end.ids == ids
    ensures Leading(r.end, a, Bare(1, [])) && Leading(r.end, b, Bare(1, []))
    ensures forall p :: p in va + vb ==> NextIs(r.end, a, p, 1) && NextIs(r.end, b, p, 1)
    ensures AllHold(r.end, va + vb, Bare(1, []))
  {
    hide Good, Honest, Punctual, Frame, Pending, Holds, Behind, Leading, NextIs, Elected, Posts, Since, AllHold, Spared;
    var r0 := Begin(ids);
    BehindHold(r0.end, va, Bare(0, []));
    BehindHold(r0.end, vb, Bare(0, []));
    var r1 := WinAll(r0, a, Bare(0, []), va, Bare(0, []));
    SinceGood(r0.end, r1, va + {a});
    StillHold(r0.end, r1.end, va + {a}, vb, Bare(0, []));
    StillHold(r0.end, r1.end, va + {a}, {b}, Bare(0, []));
    JustOne(r1.end, b, Bare(0, []));
    LeadsAll(r0.end, r1.end, a, Bare(1, []), va + vb);
    r := WinAll(r1, b, Bare(0, []), vb, Bare(0, []));
    SinceGood(r1.end, r, vb + {b});
    LeadsAll(r1.end, r.end, b, Bare(1, []), va + vb);
    BehindHold(r1.end, va, Bare(1, []));
    StillHold(r1.end, r.end, vb + {b}, va, Bare(1, []));
    BehindHold(r.end, vb, Bare(1, []));
    Both(r.end, va, vb, Bare(1, []));
    SameNode(r1.end, r.end, vb + {b}, a);
    StillLeads(r1.end, r.end, a, Bare(1, []), va + vb, 1);
  }

  lemma SameNode(s: Cluster, s': Cluster, touched: set<Id>, i: Id)
    requires Spared(s, s', touched) && i !in touched
    ensures i in s.nodes ==> i in s'.nodes && s'.nodes[i] == s.nodes[i]
    ensures i in s'.nodes ==> i in s.nodes
  {
  }

  lemma StillLeads(s: Cluster, s': Cluster, i: Id, v: View, who: set<Id>, next: nat)
    requires i in s.nodes ==> i in s'.nodes && s'.nodes[i] == s.nodes[i]
    requires Leading(s, i, v) && forall p :: p in who ==> NextIs(s, i, p, next)
    ensures Leading(s', i, v) && forall p :: p in who ==> NextIs(s', i, p, next)
  {
    hide Is;
  }

  /** What is sent to all of `who`, told from `s2`, is still on its way. */
  ghost predicate Given(s2: Cluster, s: Cluster, i: Id, v: View, who: set<Id>) {
    Leading(s, i, v) && AllSent(s2, s, i, AppendBody(v, i, 1), who)
  }

  lemma StillGiven(s2: Cluster, s: Cluster, s': Cluster, touched: set<Id>, i: Id, v: View, who: set<Id>)
    requires Given(s2, s, i, v, who) && Frame(s, s', touched, {})
    requires i in s.nodes ==> i in s'.nodes && s'.nodes[i] == s.nodes[i]
    ensures Given(s2, s', i, v, who)
  {
    hide Pending, Is, AppendBody, Frame, AllSent;
    StillSent(s2, s, s', touched, {}, i, AppendBody(v, i, 1), who);
  }

  /** Both have an entry of their own, and have told everyone; `a` was the last to do so. */
  lemma BothGive(ids: set<Id>, a: Id, va: set<Id>, b: Id, vb: set<Id>) returns (s2: Cluster, s3: Cluster, r: Tape)
    requires Halves(ids, a, va, b, vb)
    ensures Honest(r) && Punctual(r) && s2.ids == ids && s3.ids == ids
    ensures Since(s3, r, ids) && Frame(s2, s3, ids, {}) && OnRecord(r.end, 1, [P1])
    ensures Given(s3, r.end, a, Bare(1, [P1]), va + vb) && Given(s2, s3, b, Bare(1, [P2]), va + vb)
    ensures b in r.end.nodes && b in s3.nodes && r.end.nodes[b] == s3.nodes[b]
    ensures AllHold(r.end, va + vb, Bare(1, []))
  {
    hide Good, Honest, Punctual, Frame, Pending, Holds, Leading, NextIs, Posts, AllHold, Spared, AppendBody,
      SameBooks, OnRecord;
    var who := va + vb;
    var r0 := BothLead(ids, a, va, b, vb);
    var r1 := GiveAll(r0, b, Bare(1, []), [2], who, 1);
    assert [] + [P2] == [P2] && [] + [P1] == [P1];
    Over(r0, r1, {b}, {}, {b});
    Over(r0, r1, {b}, {}, ids);
    SameNode(r0.end, r1.end, {b}, a);
    LeaderThere(r0.end, a, Bare(1, []));
    StillLeads(r0.end, r1.end, a, Bare(1, []), who, 1);
    StillHold(r0.end, r1.end, {b}, who, Bare(1, []));
    r := GiveAll(r1, a, Bare(1, []), [1], who, 1);
    Over(r1, r, {a}, {}, {a});
    Over(r1, r, {a}, {}, ids);
    LeaderThere(r1.end, b, Bare(1, [P2]));
    SameNode(r1.end, r.end, {a}, b);
    StillHold(r1.end, r.end, {a}, who, Bare(1, []));
    s2, s3 := r0.end, r1.end;
    SinceGood(s2, r1, ids);
  }

  lemma LeaderThere(s: Cluster, i: Id, v: View)
    requires Leading(s, i, v)
    ensures i in s.nodes
  {
  }

  /** `a` commits its entry; the followers hold it. */
  lemma FirstCommits(ids: set<Id>, a: Id, va: set<Id>, b: Id, vb: set<Id>) returns (s2: Cluster, r: Tape)
    requires Halves(ids, a, va, b, vb)
    ensures Honest(r) && Punctual(r) && s2.ids == ids && Since(s2, r, ids) && OnRecord(r.end, 1, [P1])
    ensures Done(r.end, a, Bare(1, [P1])) && Given(s2, r.end, b, Bare(1, [P2]), va + vb)
    ensures AllHold(r.end, va + vb, Bare(1, [P1]))
  {
    hide Good, Honest, Punctual, Frame, Pending, Holds, Leading, NextIs, Posts, AllHold, AllBehind, Spared, AppendBody,
      OnRecord, Done, Taken, Overwrite, Recorded, Acked;
    var who, v := va + vb, Bare(1, [P1]);
    var s3, r0;
    s2, s3, r0 := BothGive(ids, a, va, b, vb);
    WholeLog([P1]);
    FromTheStart(v, a, Bare(1, []), [P1]);
    var r1 := AcceptAll(r0, s3, ids, a, v, 1, who, Bare(1, []), v, v, {});
    SameNode(r0.end, r1.end, who, b);
    NoneRecorded(r1.end, a, v);
    assert {} + who == who;
    r := CountAll(r1, s3, ids, a, v, who, {});
    SameNode(r1.end, r.end, {a}, b);
    BehindHold(r1.end, who, v);
    StillHold(r1.end, r.end, {a}, who, v);
    SinceGood(s3, r, ids);
    StillGiven(s2, s3, r.end, ids, b, Bare(1, [P2]), who);
    SinceTrans(s2, s3, r, ids);
  }

  lemma SinceTrans(s2: Cluster, s3: Cluster, r: Tape, touched: set<Id>)
    requires Frame(s2, s3, touched, {}) && Since(s3, r, touched) && s3.ids == s2.ids
    ensures Since(s2, r, touched)
  {
    hide Good, Frame;
    FrameTrans(s2, s3, r.end, touched, {}, touched, {}, touched, {});
  }

  /** Equal terms at one index do not mean equal entries. */
  ghost predicate Mismatched(s: Cluster, a: Id, b: Id, index: nat) {
    && a in s.nodes && b in s.nodes && index < |s.nodes[a].log| && index < |s.nodes[b].log|
    && s.nodes[a].log[index].term == s.nodes[b].log[index].term
    && s.nodes[a].log[..index + 1] != s.nodes[b].log[..index + 1]
  }

  lemma Mistaken(p: Entry, q: Entry)
    requires p.term == q.term
    ensures Overwrite([p], 0, [q]) == [p]
  {
  }

  /** Then `b` takes the followers' acknowledgements for its own entry, and commits that. */
  lemma BothCommit(ids: set<Id>, a: Id, va: set<Id>, b: Id, vb: set<Id>) returns (r: Tape)
    requires Halves(ids, a, va, b, vb)
    ensures Good(r) && Honest(r) && Punctual(r) && r.end.ids == ids
    ensures Done(r.end, a, Bare(1, [P1])) && Done(r.end, b, Bare(1, [P2]))
    ensures AllBehind(r.end, va + vb, Bare(1, [P1]))
  {
    hide Good, Honest, Punctual, Frame, Pending, Holds, Leading, NextIs, Posts, AllHold, AllBehind, Spared, AppendBody,
      OnRecord, Done, Taken, Overwrite, Recorded, Acked;
    var who, v := va + vb, Bare(1, [P2]);
    var s2, r0 := FirstCommits(ids, a, va, b, vb);
    Mistaken(P1, P2);
    FromTheStart(v, b, Bare(1, [P1]), [P1]);
    var r1 := AcceptAll(r0, s2, ids, b, v, 1, who, Bare(1, [P1]), Bare(1, [P1]), v, {});
    NoneRecorded(r1.end, b, v);
    assert {} + who == who;
    r := CountAll(r1, s2, ids, b, v, who, {});
    StillHold(r1.end, r.end, {b}, who, Bare(1, [P1]));
    SparedTrans(r0.end, r1.end, r.end, who, {b}, who + {b});
    SameNode(r0.end, r.end, who + {b}, a);
    StillDone(r0.end, r.end, a, Bare(1, [P1]));
    SinceGood(s2, r, ids);
  }

  lemma StillDone(s: Cluster, s': Cluster, i: Id, v: View)
    requires Done(s, i, v) && (i in s.nodes ==> i in s'.nodes && s'.nodes[i] == s.nodes[i])
    ensures Done(s', i, v)
  {
    hide Is;
  }

  lemma DoneLogs(s: Cluster, a: Id, b: Id)
    requires Done(s, a, Bare(1, [P1])) && Done(s, b, Bare(1, [P2]))
    ensures Mismatched(s, a, b, 0) && Diverged(s)
  {
    Diverges(s, a, [P1], b, [P2], 0);
    hide Diverged;
    assert [P1][..1][0] != [P2][..1][0];
  }

  /** In every even membership of four or more: a run with truthful and current replies at whose end two logs
      differ below equal terms, and two nodes have applied different commands at index 1. */
  lemma SplitDiverges(ids: set<Id>) returns (r: Tape, a: Id, b: Id)
    requires 0 !in ids && |ids| >= 4 && |ids| % 2 == 0
    ensures |r.states| > 0 && RealRun(r.states, r.events) && HonestRun(r.states, r.events) && r.states[0].ids == ids
    ensures Mismatched(r.end, a, b, 0) && Diverged(r.end) && r.end == r.states[|r.states| - 1]
  {
    hide Good, Honest, Punctual, Done, Mismatched, Diverged, RealRun, HonestRun, AllTruthful, AllCurrent;
    var va, vb;
    a, va, b, vb := Halve(ids);
    r := BothCommit(ids, a, va, b, vb);
    DoneLogs(r.end, a, b);
    Finish(r);
    FinishHonest(r.states, r.events);
  }

  // ---------- The limits ----------

  ghost predicate Unmatched(ids: set<Id>, states: seq<Cluster>, events: seq<Event>, k: nat, a: Id, b: Id,
                            index: nat) {
    Run(states, events) && states[0].ids == ids && k < |states| && Mismatched(states[k], a, b, index)
  }

  ghost predicate CanMismatch(ids: set<Id>) {
    exists states: seq<Cluster>, events: seq<Event>, k: nat, a: Id, b: Id, index: nat ::
      Unmatched(ids, states, events, k, a, b, index)
  }

  lemma Even(ids: set<Id>)
    requires ids != {} && !MajorityWins(ids)
    ensures |ids| >= 4 && |ids| % 2 == 0
  {
    assert |ids| != 0;
  }

  lemma RealIsRun(states: seq<Cluster>, events: seq<Event>)
    requires RealRun(states, events)
    ensures Run(states, events)
  {
    hide Run, LeadersDoNotStand;
  }

  /** Log matching holds in all runs exactly where the vote threshold is a majority. */
  lemma MatchingIff(ids: set<Id>)
    requires 0 !in ids && ids != {}
    ensures MajorityWins(ids) <==> !CanMismatch(ids)
  {
    hide Run, RealRun, HonestRun, Diverged;
    if MajorityWins(ids) {
      forall states: seq<Cluster>, events: seq<Event>, k: nat, a: Id, b: Id, index: nat
        ensures !Unmatched(ids, states, events, k, a, b, index)
      {
        if Unmatched(ids, states, events, k, a, b, index) {
          LogMatching(states, events, k, a, b, index);
        }
      }
    } else {
      Even(ids);
      var r, a, b := SplitDiverges(ids);
      RealIsRun(r.states, r.events);
      assert Unmatched(ids, r.states, r.events, |r.states| - 1, a, b, 0);
    }
  }

  ghost predicate CanDisagreeHonestly(ids: set<Id>) {
    exists states: seq<Cluster>, events: seq<Event>, j: nat, a: Id, k: nat, b: Id, x: nat ::
      HonestRun(states, events) && RaftDivergence.Disagree(ids, states, events, j, a, k, b, x)
  }

  /** With truthful and current replies, state-machine safety holds exactly where the vote threshold is a majority. */
  lemma HonestSafeIff(ids: set<Id>)
    requires 0 !in ids && ids != {}
    ensures MajorityWins(ids) <==> !CanDisagreeHonestly(ids)
  {
    hide Run, RealRun, HonestRun, Mismatched, Diverged;
    if MajorityWins(ids) {
      forall states: seq<Cluster>, events: seq<Event>, j: nat, a: Id, k: nat, b: Id, x: nat
        ensures !(HonestRun(states, events) && RaftDivergence.Disagree(ids, states, events, j, a, k, b, x))
      {
        if HonestRun(states, events) && RaftDivergence.Disagree(ids, states, events, j, a, k, b, x) {
          StateMachineSafety(states, events, j, a, k, b, x);
        }
      }
    } else {
      Even(ids);
      var r, _, _ := SplitDiverges(ids);
      var j, a, k, b, x := RaftDivergence.DivergedDisagree(ids, r.states, r.events);
      assert HonestRun(r.states, r.events);
    }
  }

  // ---------- Leader completeness ----------

  /** At this moment `a` leads term 1 with its entry, and all of `who` hold it. */
  ghost predicate AllGot(s: Cluster, a: Id, who: set<Id>) {
    Done(s, a, Bare(1, [P1])) && AllBehind(s, who, Bare(1, [P1]))
  }

  lemma MemberBehind(s: Cluster, who: set<Id>, i: Id, v: View)
    requires AllBehind(s, who, v) && i in who
    ensures Behind(s, i, v)
  {
    hide Is;
  }

  lemma SomeBehind(s: Cluster, who: set<Id>, some: set<Id>, v: View)
    requires AllBehind(s, who, v) && some <= who
    ensures AllBehind(s, some, v)
  {
    hide Is;
  }

  lemma DoneLeads(s: Cluster, i: Id, v: View)
    requires Done(s, i, v)
    ensures Leading(s, i, v.(commit := |v.log|)) && Holds(s, i, v.(commit := |v.log|))
  {
    hide Is, HasApplied;
  }

  /** Afterwards `b`, which never had that entry, is elected for term 3 by nodes that do. */
  lemma LeadsWithout(ids: set<Id>, a: Id, va: set<Id>, b: Id, vb: set<Id>) returns (r: Tape, r': Tape)
    requires Halves(ids, a, va, b, vb)
    ensures Good(r) && AllGot(r.end, a, va + vb) && r.end.ids == ids
    ensures Good(r') && r.states <= r'.states && r'.end.ids == ids && Leading(r'.end, b, View(3, [P2], 1))
  {
    hide Good, Honest, Punctual, Frame, Pending, Holds, Behind, Leading, Posts, PostsToAll, AllHold, AllBehind, Spared,
      Done, Elected, NextIs, Standing;
    r := BothCommit(ids, a, va, b, vb);
    var c :| c in va;
    MemberBehind(r.end, va + vb, c, Bare(1, [P1]));
    SomeBehind(r.end, va + vb, vb, Bare(1, [P1]));
    DoneLeads(r.end, b, Bare(1, [P2]));
    var r1 := Stand(r, c, Bare(1, [P1]));
    var q := LetterTo(r.end, r1.end, c, b, Ask(c, Bare(2, [P1])));
    Over(r, r1, {c}, {}, {c});
    StillHold(r.end, r1.end, {c}, vb, Bare(1, [P1]));
    StillLeading(r.end, r1.end, {c}, {}, b, View(1, [P2], 1));
    LeadingHolds(r1.end, b, View(1, [P2], 1));
    var r2 := Hear(r1, b, View(1, [P2], 1), q);
    Over(r1, r2, {b}, {q}, {b});
    StillHold(r1.end, r2.end, {b}, vb, Bare(1, [P1]));
    BehindHold(r2.end, vb, Bare(1, [P1]));
    r' := WinAll(r2, b, View(2, [P2], 1), vb, Bare(1, [P1]));
    SinceGood(r2.end, r', vb + {b});
    LeadsAll(r2.end, r'.end, b, View(3, [P2], 1), {});
  }

  lemma LeadingHolds(s: Cluster, i: Id, v: View)
    requires Leading(s, i, v)
    ensures Holds(s, i, v)
  {
    hide Is;
  }

  /** Entries of its own term that a majority held while a leader led are missing from a later leader's log. */
  ghost predicate Incomplete(ids: set<Id>, states: seq<Cluster>, events: seq<Event>, j: nat, a: Id, term: nat, k: nat,
                             q: set<Id>, j': nat, b: Id, later: nat) {
    && Run(states, events) && states[0].ids == ids && RaftCompleteness.IsQuorum(q, ids)
    && j < |states| && RaftElection.Leads(states[j], a, term)
    && 1 <= k <= |states[j].nodes[a].log| && states[j].nodes[a].log[k - 1].term == term
    && (forall i :: i in q ==> RaftCompleteness.HeldDuring(states, i, term, states[j].nodes[a].log[..k]))
    && j' < |states| && RaftElection.Leads(states[j'], b, later) && term < later
    && !(states[j].nodes[a].log[..k] <= states[j'].nodes[b].log)
  }

  ghost predicate CanBeIncomplete(ids: set<Id>) {
    exists states: seq<Cluster>, events: seq<Event>, j: nat, a: Id, term: nat, k: nat, q: set<Id>, j': nat, b: Id,
      later: nat :: Incomplete(ids, states, events, j, a, term, k, q, j', b, later)
  }

  lemma HeldThen(s: Cluster, a: Id, who: set<Id>, i: Id)
    requires AllGot(s, a, who) && i in who + {a}
    ensures i in s.nodes && s.nodes[i].currentTerm == 1 && s.nodes[i].log == [P1]
  {
  }

  lemma QuorumOf(ids: set<Id>, a: Id, va: set<Id>, b: Id, vb: set<Id>)
    requires Halves(ids, a, va, b, vb)
    ensures RaftCompleteness.IsQuorum(va + vb + {a}, ids)
  {
  }

  lemma LedThen(s: Cluster, i: Id, v: View)
    requires Leading(s, i, v)
    ensures RaftElection.Leads(s, i, v.term) && s.nodes[i].log == v.log
  {
  }

  lemma GotThen(states: seq<Cluster>, j: nat, a: Id, who: set<Id>, i: Id)
    requires j < |states| && AllGot(states[j], a, who) && i in who + {a}
    ensures RaftCompleteness.HeldDuring(states, i, 1, [P1])
  {
    HeldThen(states[j], a, who, i);
    hide AllGot;
  }

  lemma NotComplete(ids: set<Id>) returns (states: seq<Cluster>, events: seq<Event>, j: nat, a: Id, q: set<Id>, b: Id)
    requires 0 !in ids && |ids| >= 4 && |ids| % 2 == 0
    ensures |states| > 0 && Incomplete(ids, states, events, j, a, 1, 1, q, |states| - 1, b, 3)
  {
    hide Good, AllGot, Halves, Run, RealRun, RaftCompleteness.IsQuorum, RaftCompleteness.HeldDuring, Leading,
      RaftElection.Leads, Done;
    var va, vb;
    a, va, b, vb := Halve(ids);
    var r, r' := LeadsWithout(ids, a, va, b, vb);
    Finish(r);
    Finish(r');
    RealIsRun(r'.states, r'.events);
    states, events, j, q := r'.states, r'.events, |r.states| - 1, va + vb + {a};
    QuorumOf(ids, a, va, b, vb);
    assert states[j] == r.end;
    AllGotLeads(r.end, a, va + vb);
    LedThen(r.end, a, View(1, [P1], 1));
    LedThen(r'.end, b, View(3, [P2], 1));
    forall i | i in q ensures RaftCompleteness.HeldDuring(states, i, 1, [P1]) {
      GotThen(states, j, a, va + vb, i);
    }
    assert [P1][..1] == [P1] && [P1][0] != [P2][0];
  }

  lemma AllGotLeads(s: Cluster, a: Id, who: set<Id>)
    requires AllGot(s, a, who)
    ensures Leading(s, a, View(1, [P1], 1))
  {
    hide Leading, AllBehind, HasApplied;
  }

  /** Leader completeness holds in all runs exactly where the vote threshold is a majority. */
  lemma CompletenessIff(ids: set<Id>)
    requires 0 !in ids && ids != {}
    ensures MajorityWins(ids) <==> !CanBeIncomplete(ids)
  {
    hide Run, RaftCompleteness.IsQuorum, RaftCompleteness.HeldDuring, RaftElection.Leads;
    if MajorityWins(ids) {
      forall states: seq<Cluster>, events: seq<Event>, j: nat, a: Id, term: nat, k: nat, q: set<Id>, j': nat, b: Id,
        later: nat
        ensures !Incomplete(ids, states, events, j, a, term, k, q, j', b, later)
      {
        if Incomplete(ids, states, events, j, a, term, k, q, j', b, later) {
          RaftCompleteness.LeaderCompleteness(states, events, j, a, term, k, q, j', b, later);
        }
      }
    } else {
      Even(ids);
      var states, events, j, a, q, b := NotComplete(ids);
      assert Incomplete(ids, states, events, j, a, 1, 1, q, |states| - 1, b, 3);
    }
  }
}
