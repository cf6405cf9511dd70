/**
 How many members it takes for state-machine safety to fail: with up to two it never does, with three or
 more there is always a run in which two nodes apply different commands at index 1. In that run every
 leader acts only on replies of its current term.

 Node `a` leads term 1 and shares its entry with too few to commit it. Node `b`, elected by nodes without
 that entry, takes the reports of those who have it for reports of its own, and applies an entry only it
 holds. Then `a` leads again and commits what it had.
 */
module RaftDivergence {
  import opened RaftNode
  import opened RaftCluster
  import opened RaftRuns
  import opened RaftScenes
  import opened RaftCrowds
  import opened RaftPair
  import opened RaftWitness
  import RaftSplitVote

  const Y := Entry(2, [2])
  const Z := Entry(3, [3])

  /** The members: `a`, `b`, those who get `a`'s first entry, and just enough others to elect either. */
  ghost predicate Parts(ids: set<Id>, a: Id, b: Id, sharers: set<Id>, voters: set<Id>) {
    && 0 !in ids && a in ids && b in ids && a != b
    && sharers <= ids - {a, b} && voters == ids - {a, b} - sharers
    && |sharers| == |ids| / 2 - 1 && |voters| == (|ids| - 1) / 2 && voters != {}
  }

  lemma Part(ids: set<Id>) returns (a: Id, b: Id, sharers: set<Id>, voters: set<Id>)
    requires 0 !in ids && |ids| >= 3
    ensures Parts(ids, a, b, sharers, voters)
  {
    a :| a in ids;
    assert |ids - {a}| >= 2;
    b :| b in ids - {a};
    var others := ids - {a, b};
    assert others == ids - {a} - {b};
    sharers := RaftSplitVote.Split(others, |ids| / 2 - 1);
    voters := others - sharers;
    assert others == sharers + voters;
  }

  lemma AtFirst(ids: set<Id>, a: Id, b: Id, sharers: set<Id>, voters: set<Id>) returns (r: Tape)
    requires Parts(ids, a, b, sharers, voters)
    ensures Good(r) && Punctual(r) && r.end.ids == ids && Behind(r.end, a, Bare(0, []))
    ensures AllBehind(r.end, sharers, Bare(0, [])) && AllBehind(r.end, voters, Bare(0, []))
    ensures AllBehind(r.end, {b}, Bare(0, []))
  {
    hide Good, Honest, Punctual, Behind;
    r := Begin(ids);
  }

  /** Node `a` leads term 1; its sharers hold its entry. */
  lemma Shared(ids: set<Id>, a: Id, b: Id, sharers: set<Id>, voters: set<Id>) returns (r: Tape)
    requires Parts(ids, a, b, sharers, voters)
    ensures Good(r) && Punctual(r) && r.end.ids == ids && Leading(r.end, a, Bare(1, [X]))
    ensures AllHold(r.end, sharers, Bare(1, [X])) && AllHold(r.end, voters, Bare(1, []))
    ensures Behind(r.end, b, Bare(0, []))
  {
    hide Good, Honest, Punctual, Frame, Pending, Holds, Behind, Leading, NextIs, Elected, Taken, Overwrite, Posts,
      Since, AllHold, AllBehind, Spared, AppendBody;
    var v := Bare(1, [X]);
    var r0 := AtFirst(ids, a, b, sharers, voters);
    BehindHold(r0.end, voters, Bare(0, []));
    var r1 := WinAll(r0, a, Bare(0, []), voters, Bare(0, []));
    SinceGood(r0.end, r1, voters + {a});
    StillHold(r0.end, r1.end, voters + {a}, sharers, Bare(0, []));
    StillHold(r0.end, r1.end, voters + {a}, {b}, Bare(0, []));
    LeadsAll(r0.end, r1.end, a, Bare(1, []), sharers);
    var r2 := GiveAll(r1, a, Bare(1, []), [1], sharers, 1);
    assert [] + [X] == [X];
    Over(r1, r2, {a}, {}, sharers + {a});
    BehindHold(r1.end, sharers, Bare(0, []));
    StillHold(r1.end, r2.end, sharers + {a}, {b}, Bare(0, []));
    Over(r1, r2, {a}, {}, {a});
    StillHold(r1.end, r2.end, {a}, sharers, Bare(0, []));
    StillHold(r1.end, r2.end, {a}, voters, Bare(1, []));
    WholeLog([X]);
    FromTheStart(v, a, Bare(0, []), [X]);
    r := AcceptAll(r2, r1.end, sharers + {a}, a, v, 1, sharers, Bare(0, []), v, v, {});
    BehindHold(r.end, sharers, v);
    StillHold(r2.end, r.end, sharers, voters, Bare(1, []));
    BehindHold(r.end, voters, Bare(1, []));
    StillHold(r2.end, r.end, sharers, {b}, Bare(0, []));
    JustOne(r.end, b, Bare(0, []));
  }

  /** Node `b` stands twice, and leads term 2 with nothing in its log. */
  lemma Overtaken(ids: set<Id>, a: Id, b: Id, sharers: set<Id>, voters: set<Id>) returns (s0: Cluster, r: Tape)
    requires Parts(ids, a, b, sharers, voters)
    ensures Since(s0, r, ids) && Punctual(r) && r.end.ids == ids && Leading(r.end, b, Bare(2, []))
    ensures AllHold(r.end, sharers + {a}, Bare(1, [X])) && AllBehind(r.end, voters, Bare(2, []))
    ensures AllSent(s0, r.end, b, AppendBody(Bare(2, []), b, 1), sharers + {a})
  {
    hide Good, Honest, Punctual, Frame, Pending, Holds, Behind, Leading, NextIs, Elected, Posts, AllHold, AllBehind,
      Spared, AppendBody, Standing;
    var r0 := Shared(ids, a, b, sharers, voters);
    LeaderHolds(r0.end, a, Bare(1, [X]));
    Both(r0.end, sharers, {a}, Bare(1, [X]));
    var r1 := Stand(r0, b, Bare(0, []));
    StandingBehind(r1.end, b, Bare(1, []), 1);
    Over(r0, r1, {b}, {}, {b});
    StillHold(r0.end, r1.end, {b}, sharers + {a}, Bare(1, [X]));
    StillHold(r0.end, r1.end, {b}, voters, Bare(1, []));
    r := WinAll(r1, b, Bare(1, []), voters, Bare(1, []));
    s0 := r1.end;
    SinceGood(s0, r, voters + {b});
    StillHold(s0, r.end, voters + {b}, sharers + {a}, Bare(1, [X]));
    LeadsAll(s0, r.end, b, Bare(2, []), {});
    FirstWords(s0, r.end, b, Bare(2, []), sharers + {a});
    Nothing(r1, ids);
    Later(s0, r1, ids, r, voters + {b}, {});
  }

  lemma LeaderHolds(s: Cluster, i: Id, v: View)
    requires Leading(s, i, v)
    ensures AllHold(s, {i}, v)
  {
    hide Is;
  }

  lemma StandingBehind(s: Cluster, i: Id, v: View, votes: nat)
    requires Standing(s, i, v, votes)
    ensures Behind(s, i, v)
  {
    hide Is;
  }

  lemma FirstWords(s: Cluster, s': Cluster, c: Id, v: View, who: set<Id>)
    requires Elected(s, s', c, v) && who <= s.ids - {c}
    ensures AllSent(s, s', c, AppendBody(v, c, |v.log| + 1), who)
  {
    hide Leading, NextIs, PostsToAll, AppendBody, AllSent;
    ToAll(s, s', c, AppendBody(v, c, |v.log| + 1), who);
  }

  /** Node `b` takes the entry of term 1 for its own, and applies an entry only it holds. */
  lemma Overcounted(ids: set<Id>, a: Id, b: Id, sharers: set<Id>, voters: set<Id>) returns (r: Tape)
    requires Parts(ids, a, b, sharers, voters)
    ensures Good(r) && Punctual(r) && r.end.ids == ids && Behind(r.end, a, Bare(2, [X]))
    ensures AllHold(r.end, sharers, Bare(2, [X])) && AllHold(r.end, voters, Bare(2, [])) && HasApplied(r.end, b, [Y])
  {
    hide Good, Honest, Punctual, Frame, Pending, Holds, Behind, Leading, NextIs, Elected, Taken, Overwrite, Posts,
      AllBehind, Spared, AppendBody, Recorded, HasApplied, Acked;
    var who := sharers + {a};
    var s0, r0 := Overtaken(ids, a, b, sharers, voters);
    WholeLog([X]);
    FromTheStart(Bare(2, []), b, Bare(1, [X]), [X]);
    var r1 := AcceptAll(r0, s0, ids, b, Bare(2, []), 1, who, Bare(1, [X]), Bare(2, [X]), Bare(2, [Y]), {});
    StillHold(r0.end, r1.end, who, voters, Bare(2, []));
    SinceGood(s0, r1, ids);
    var r2 := GiveAll(r1, b, Bare(2, []), [2], {}, 1);
    assert [] + [Y] == [Y];
    Over(r1, r2, {b}, {}, {b});
    StillHold(r1.end, r2.end, {b}, who, Bare(2, [X]));
    StillHold(r1.end, r2.end, {b}, voters, Bare(2, []));
    Later(s0, r1, ids, r2, {b}, {});
    StillAcked(s0, r1.end, r2.end, {b}, {}, b, Bare(2, [Y]), who);
    NoneRecorded(r2.end, b, Bare(2, [Y]));
    assert {} + who == who;
    r := CountAll(r2, s0, ids, b, Bare(2, [Y]), who, {});
    SinceGood(s0, r, ids);
    StillHold(r2.end, r.end, {b}, who, Bare(2, [X]));
    StillHold(r2.end, r.end, {b}, voters, Bare(2, []));
    AllOf(r.end, sharers, a, Bare(2, [X]));
    BehindHold(r.end, voters, Bare(2, []));
  }

  lemma AllOf(s: Cluster, who: set<Id>, i: Id, v: View)
    requires AllBehind(s, who + {i}, v)
    ensures AllHold(s, who, v) && Behind(s, i, v)
  {
    hide Is;
    assert i in who + {i};
  }

  /** Node `a` leads again, in term 3, and gives a further entry to all; its sharers can take it as it is. */
  lemma LeadsAgain(ids: set<Id>, a: Id, b: Id, sharers: set<Id>, voters: set<Id>, c: Id)
    returns (s0: Cluster, r: Tape, hb: Packet)
    requires Parts(ids, a, b, sharers, voters) && c in voters
    ensures Since(s0, r, ids - {b}) && Punctual(r) && HasApplied(s0, b, [Y]) && s0.ids == ids
    ensures Leading(r.end, a, Bare(3, [X, Z])) && NextIs(r.end, a, c, 2)
    ensures AllHold(r.end, sharers, Bare(2, [X])) && Holds(r.end, c, Bare(3, []))
    ensures AllSent(s0, r.end, a, AppendBody(Bare(3, [X, Z]), a, 2), sharers)
    ensures Pending(r.end, hb) && hb !in s0.sent && hb.from == a && hb.to == c
    ensures hb.body == AppendBody(Bare(3, [X]), a, 2)
  {
    hide Good, Honest, Punctual, Frame, Pending, Holds, Behind, Leading, NextIs, Elected, Posts, AllHold, AllBehind,
      Spared, AppendBody, HasApplied;
    var v, touched := Bare(3, [X]), ids - {b};
    var r0 := Overcounted(ids, a, b, sharers, voters);
    s0 := r0.end;
    var r1 := WinAll(r0, a, Bare(2, [X]), voters, Bare(2, []));
    SinceGood(s0, r1, voters + {a});
    StillHold(s0, r1.end, voters + {a}, sharers, Bare(2, [X]));
    LeadsAll(s0, r1.end, a, v, sharers + {c});
    hb := FirstWord(s0, r1.end, a, v, c);
    r := GiveAll(r1, a, v, [3], sharers, 2);
    assert [X] + [Z] == [X, Z];
    Over(r1, r, {a}, {}, {a});
    StillHold(r1.end, r.end, {a}, sharers, Bare(2, [X]));
    StillHold(r1.end, r.end, {a}, voters, Bare(3, []));
    BehindHold(r.end, voters, Bare(3, []));
    OneOf(r.end, voters, c, Bare(3, []));
    StillPending(r1.end, r.end, {a}, {}, hb);
    SameNext(r1.end, r.end, a, c, 2);
    SentSince(s0, r1.end, r.end, voters + {a}, {}, a, AppendBody(Bare(3, [X, Z]), a, 2), sharers);
    Nothing(r0, touched);
    Later(s0, r0, touched, r1, voters + {a}, {});
    Later(s0, r1, touched, r, {a}, {});
  }

  lemma OneOf(s: Cluster, who: set<Id>, i: Id, v: View)
    requires AllHold(s, who, v) && i in who
    ensures Holds(s, i, v)
  {
    hide Is;
  }

  lemma SameNext(s: Cluster, s': Cluster, c: Id, p: Id, next: nat)
    requires SameBooks(s, s', c) && NextIs(s, c, p, next)
    ensures NextIs(s', c, p, next)
  {
  }

  /** One of the voters takes both entries too, at the second try. */
  lemma SecondTry(ids: set<Id>, a: Id, b: Id, sharers: set<Id>, voters: set<Id>, c: Id)
    returns (s0: Cluster, r: Tape)
    requires Parts(ids, a, b, sharers, voters) && c in voters
    ensures Since(s0, r, ids - {b}) && Punctual(r) && HasApplied(s0, b, [Y]) && s0.ids == ids
    ensures Leading(r.end, a, Bare(3, [X, Z])) && AllHold(r.end, sharers, Bare(2, [X]))
    ensures AllSent(s0, r.end, a, AppendBody(Bare(3, [X, Z]), a, 2), sharers)
    ensures AllAcked(s0, r.end, a, Bare(3, [X, Z]), {c})
  {
    hide Good, Honest, Punctual, Frame, Pending, Holds, Behind, Leading, NextIs, Posts, AllHold,
      Spared, HasApplied, Acked, Taken, Overwrite, AllSent, AppendBody;
    var v, touched := Bare(3, [X, Z]), ids - {b};
    var r0, hb;
    s0, r0, hb := LeadsAgain(ids, a, b, sharers, voters, c);
    SinceGood(s0, r0, touched);
    var r1, ae := Retry(r0, a, v, c, Bare(3, []), 2, hb);
    Over(r0, r1, {a, c}, {hb}, {a, c});
    Later(s0, r0, touched, r1, {a, c}, {hb});
    StillHold(r0.end, r1.end, {a, c}, sharers, Bare(2, [X]));
    StillSent(s0, r0.end, r1.end, {a, c}, {hb}, a, AppendBody(v, a, 2), sharers);
    WholeLog([X, Z]);
    FromTheStart(v, a, Bare(3, []), [X, Z]);
    BehindIs(r1.end, c, Bare(3, []));
    var yes;
    r, yes := Accept(r1, a, v, c, Bare(3, []), ae);
    NotSent(s0, r0.end, ae, touched, {});
    Over(r1, r, {c}, {ae}, {c});
    Later(s0, r1, touched, r, {c}, {ae});
    StillHold(r1.end, r.end, {c}, sharers, Bare(2, [X]));
    StillSent(s0, r1.end, r.end, {c}, {ae}, a, AppendBody(v, a, 2), sharers);
    StillLeading(r1.end, r.end, {c}, {ae}, a, v);
    SinceGood(s0, r1, touched);
    AckedNow(s0, r1.end, r.end, touched, yes, a, v, c);
  }

  lemma BehindIs(s: Cluster, i: Id, v: View)
    requires Behind(s, i, v)
    ensures Holds(s, i, v)
  {
    hide Is;
  }

  /** Without truthful replies safety fails in every membership of three or more: every leader acts only on
      replies of its current term, and yet two nodes apply different commands at index 1. */
  lemma TruthfulNeeded(ids: set<Id>) returns (r: Tape)
    requires 0 !in ids && |ids| >= 3
    ensures |r.states| > 0 && RealRun(r.states, r.events) && r.states[0].ids == ids && AllCurrent(r.states, r.events)
    ensures Diverged(r.states[|r.states| - 1])
  {
    hide Good, Honest, Punctual, Frame, Pending, Holds, Behind, Leading, Posts, AllHold, AllBehind, RealRun, AllCurrent,
      Spared, HasApplied, Acked, Taken, Overwrite, AllSent, AppendBody, Recorded, Diverged;
    var v := Bare(3, [X, Z]);
    var a, b, sharers, voters := Part(ids);
    var c :| c in voters;
    var s0, r0 := SecondTry(ids, a, b, sharers, voters, c);
    FromTheEnd(v, a, Bare(2, [X]));
    var r1 := AcceptAll(r0, s0, ids - {b}, a, v, 2, sharers, Bare(2, [X]), v, v, {c});
    NoneRecorded(r1.end, a, v);
    assert {} + (sharers + {c}) == sharers + {c};
    r := CountAll(r1, s0, ids - {b}, a, v, sharers + {c}, {});
    SinceGood(s0, r, ids - {b});
    StillApplied(s0, r.end, ids - {b}, {}, b, [Y]);
    Diverges(r.end, a, [X, Z], b, [Y], 0);
    Finish(r);
  }

  // ---------- The limit ----------

  /** Two nodes, perhaps one, apply different commands at one index, perhaps at different moments of the run. */
  ghost predicate Disagree(ids: set<Id>, states: seq<Cluster>, events: seq<Event>, j: nat, a: Id, k: nat, b: Id,
                           x: nat) {
    && Run(states, events) && states[0].ids == ids && j < |states| && k < |states|
    && a in states[j].nodes && b in states[k].nodes
    && x < |states[j].nodes[a].applied| && x < |states[k].nodes[b].applied|
    && states[j].nodes[a].applied[x] != states[k].nodes[b].applied[x]
  }

  ghost predicate CanDisagree(ids: set<Id>) {
    exists states: seq<Cluster>, events: seq<Event>, j: nat, a: Id, k: nat, b: Id, x: nat ::
      Disagree(ids, states, events, j, a, k, b, x)
  }

  lemma StepMembers(s: Cluster, e: Event, s': Cluster)
    requires Steps(s, e, s')
    ensures s'.nodes.Keys == s'.ids == s.ids
  {
    hide PacketsWF, Ready, Assemble, Act;
  }

  lemma {:induction false} SameMembership(states: seq<Cluster>, events: seq<Event>, k: nat)
    requires Run(states, events) && k < |states|
    ensures states[k].nodes.Keys == states[k].ids == states[0].ids
  {
    hide Steps;
    if k > 0 {
      SameMembership(states, events, k - 1);
      StepMembers(states[k - 1], events[k - 1], states[k]);
    }
  }

  lemma DivergedDisagree(ids: set<Id>, states: seq<Cluster>, events: seq<Event>)
    returns (j: nat, a: Id, k: nat, b: Id, x: nat)
    requires |states| > 0 && RealRun(states, events) && states[0].ids == ids && Diverged(states[|states| - 1])
    ensures Disagree(ids, states, events, j, a, k, b, x)
  {
    hide Run, LeadersDoNotStand;
    j, k := |states| - 1, |states| - 1;
    var s := states[k];
    a, b, x :| a in s.nodes && b in s.nodes && x < |s.nodes[a].applied|
      && x < |s.nodes[b].applied| && s.nodes[a].applied[x] != s.nodes[b].applied[x];
  }

  /** State-machine safety holds in all runs of a cluster exactly if it has at most two members. */
  lemma SafeIff(ids: set<Id>)
    requires 0 !in ids
    ensures |ids| <= 2 <==> !CanDisagree(ids)
  {
    hide Run, RealRun, AllCurrent, Diverged;
    if |ids| <= 2 {
      forall states: seq<Cluster>, events: seq<Event>, j: nat, a: Id, k: nat, b: Id, x: nat
        ensures !Disagree(ids, states, events, j, a, k, b, x)
      {
        if Disagree(ids, states, events, j, a, k, b, x) {
          SameMembership(states, events, j);
          PairSafety(states, events, j, a, k, b, x);
        }
      }
    } else {
      var r := TruthfulNeeded(ids);
      var j, a, k, b, x := DivergedDisagree(ids, r.states, r.events);
    }
  }
}
