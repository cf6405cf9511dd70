/**
 A run of five nodes in which a follower's commit index falls. It takes one follower that reports more
 than it shares with its leader:

  - node 4 leads term 1 and holds four entries nobody else has;
  - node 1 leads term 2 without any; node 4 answers its first message, which is empty, with match index 4;
  - node 1 appends four entries. Only node 2 copies them, node 4 takes just the first, but with what node 4
    once reported node 1 commits three, tells node 2, and then commits the fourth;
  - node 4, which holds the first entry, leads term 3 with the votes of 3 and 5 and overwrites the rest at
    1 and 2 with one entry of its own;
  - node 1 leads term 4. Its first message carries commit index 4; node 2, whose log now ends at 2, takes
    its own commit index from 3 to 2.
 */
module RaftCommitFall {
  import opened RaftNode
  import opened RaftCluster
  import opened RaftRuns
  import opened RaftScenes

  const FIVE: set<Id> := {1, 2, 3, 4, 5}

  lemma FiveSize()
    ensures |FIVE| == 5 && MajorityWins(FIVE) && 0 !in FIVE
  {
  }

  const J := Entry(1, [0])
  const JUNK := [J, J, J, J]
  const Y1 := Entry(2, [1])
  const Y2 := Entry(2, [2])
  const Y3 := Entry(2, [3])
  const Y4 := Entry(2, [4])
  const T := Entry(3, [5])

  /** Node 4 leads term 1 and holds `log`; nobody else has anything. */
  ghost predicate Hoards(s: Cluster, log: seq<Entry>) {
    && Leading(s, 4, View(1, log, 0)) && NextIs(s, 4, 1, 1)
    && Behind(s, 1, View(1, [], 0)) && Behind(s, 2, View(1, [], 0)) && Behind(s, 3, View(0, [], 0))
    && Behind(s, 5, View(0, [], 0))
  }

  lemma OneMore(r: Tape, log: seq<Entry>) returns (r': Tape)
    requires Good(r) && r.end.ids == FIVE && Hoards(r.end, log)
    ensures Good(r') && r'.end.ids == FIVE && Hoards(r'.end, log + [J])
  {
    hide Good, Frame, Pending, Is, Taken, Overwrite;
    var ae;
    r', ae := Give(r, 4, View(1, log, 0), [0], 1, 1);
    Others(r.end, r'.end, {4}, {});
  }

  /** Node 4 leads term 1 and holds four entries nobody else has. */
  lemma Junk() returns (r: Tape)
    ensures Good(r) && r.end.ids == FIVE && Hoards(r.end, JUNK)
  {
    hide Good, Honest, Punctual, Frame, Pending, Is, Taken, Overwrite, Elected;
    FiveSize();
    var v := View(0, [], 0);
    var r0 := Begin(FIVE);
    var r1 := WinOfFive(r0, 4, v, 1, v, 2, v);
    Leads(r0.end, r1.end, 4, View(1, [], 0), 1);
    Others(r0.end, r1.end, {4, 1, 2}, {});
    assert Hoards(r1.end, []);
    hide Hoards;
    var r2 := OneMore(r1, []);
    var r3 := OneMore(r2, [] + [J]);
    var r4 := OneMore(r3, [] + [J] + [J]);
    r := OneMore(r4, [] + [J] + [J] + [J]);
    assert [] + [J] + [J] + [J] + [J] == JUNK;
  }

  /** Node 1 leads term 2, without entries, and has node 4 down as matching four. */
  lemma OverReported() returns (r: Tape)
    ensures Good(r) && r.end.ids == FIVE && Leading(r.end, 1, View(2, [], 0))
    ensures MatchIs(r.end, 1, 4, 4) && NextIs(r.end, 1, 4, 5) && NextIs(r.end, 1, 2, 1)
    ensures Behind(r.end, 2, View(2, [], 0)) && Behind(r.end, 3, View(2, [], 0))
    ensures Behind(r.end, 4, View(2, JUNK, 0)) && Behind(r.end, 5, View(0, [], 0))
  {
    hide Good, Honest, Punctual, Frame, Pending, Is, Taken, Overwrite, Elected;
    FiveSize();
    var r0 := Junk();
    var v := View(2, [], 0);
    var r1 := WinOfFive(r0, 1, View(1, [], 0), 2, View(1, [], 0), 3, View(0, [], 0));
    Leads(r0.end, r1.end, 1, v, 4);
    Leads(r0.end, r1.end, 1, v, 2);
    Others(r0.end, r1.end, {1, 2, 3}, {});
    var hb := FirstWord(r0.end, r1.end, 1, v, 4);
    NothingNew(JUNK);
    FromTheStart(v, 1, View(1, JUNK, 0), JUNK);
    var r2, yes := Accept(r1, 1, v, 4, View(1, JUNK, 0), hb);
    Others(r1.end, r2.end, {4}, {hb});
    r := Note(r2, 1, v, 4, yes);
    Others(r2.end, r.end, {1}, {yes});
  }

  lemma NothingNew(log: seq<Entry>)
    ensures Overwrite(log, 0, []) == log
  {
  }

  /** Node 1, with one entry of its own, probes node 4 at `next` with `ae`. */
  ghost predicate Probes(s: Cluster, next: nat, ae: Packet)
    requires next >= 1
  {
    && Leading(s, 1, View(2, [Y1], 0)) && MatchIs(s, 1, 4, 4) && NextIs(s, 1, 4, next) && NextIs(s, 1, 2, 1)
    && Behind(s, 2, View(2, [], 0)) && Behind(s, 3, View(2, [], 0)) && Behind(s, 4, View(2, JUNK, 0))
    && Behind(s, 5, View(0, [], 0))
    && Pending(s, ae) && ae.from == 1 && ae.to == 4 && ae.body == AppendBody(View(2, [Y1], 0), 1, next)
  }

  lemma Probe(r: Tape, next: nat, ae: Packet) returns (r': Tape, ae': Packet)
    requires Good(r) && r.end.ids == FIVE && 2 <= next <= 5 && Probes(r.end, next, ae)
    ensures Good(r') && r'.end.ids == FIVE && Probes(r'.end, next - 1, ae')
  {
    hide Good, Frame, Pending, Is, Taken, Overwrite, Consistent, AppendBody;
    NoMatch(next);
    r', ae' := Retry(r, 1, View(2, [Y1], 0), 4, View(2, JUNK, 0), next, ae);
    Others(r.end, r'.end, {1, 4}, {ae});
  }

  /** Node 1 appends an entry; node 4 refuses four times and then holds that entry and nothing else. */
  lemma CutDown() returns (r: Tape)
    ensures Good(r) && r.end.ids == FIVE && Leading(r.end, 1, View(2, [Y1], 0))
    ensures MatchIs(r.end, 1, 4, 4) && NextIs(r.end, 1, 2, 1)
    ensures Behind(r.end, 2, View(2, [], 0)) && Behind(r.end, 3, View(2, [], 0))
    ensures Behind(r.end, 4, View(2, [Y1], 0)) && Behind(r.end, 5, View(0, [], 0))
  {
    hide Good, Honest, Punctual, Frame, Pending, Is, Taken, Overwrite, Elected, Consistent, AppendBody;
    FiveSize();
    var r0 := OverReported();
    var r1, ae1 := Give(r0, 1, View(2, [], 0), [1], 4, 5);
    Others(r0.end, r1.end, {1}, {});
    assert [] + [Y1] == [Y1];
    var r2, ae2 := Probe(r1, 5, ae1);
    var r3, ae3 := Probe(r2, 4, ae2);
    var r4, ae4 := Probe(r3, 3, ae3);
    var r5, ae5 := Probe(r4, 2, ae4);
    r := TakeFirst(r5, ae5);
  }

  lemma TakeFirst(r: Tape, ae: Packet) returns (r': Tape)
    requires Good(r) && r.end.ids == FIVE && Probes(r.end, 1, ae)
    ensures Good(r') && r'.end.ids == FIVE && Leading(r'.end, 1, View(2, [Y1], 0))
    ensures MatchIs(r'.end, 1, 4, 4) && NextIs(r'.end, 1, 2, 1)
    ensures Behind(r'.end, 2, View(2, [], 0)) && Behind(r'.end, 3, View(2, [], 0))
    ensures Behind(r'.end, 4, View(2, [Y1], 0)) && Behind(r'.end, 5, View(0, [], 0))
  {
    hide Good, Frame, Pending, Is, Taken, Overwrite, Consistent, AppendBody;
    FiveSize();
    JunkReplaced();
    FromTheStart(View(2, [Y1], 0), 1, View(2, JUNK, 0), [Y1]);
    var yes;
    r', yes := Accept(r, 1, View(2, [Y1], 0), 4, View(2, JUNK, 0), ae);
    Others(r.end, r'.end, {4}, {ae});
  }

  lemma NoMatch(next: nat)
    requires 2 <= next <= 5
    ensures var ae := AppendBody(View(2, [Y1], 0), 1, next);
            ae.AppendEntries? && ae.term == 2 && !Consistent(JUNK, ae.prevLogIndex, ae.prevLogTerm)
  {
    assert forall k :: 0 <= k < 4 ==> JUNK[k].term == 1;
  }

  lemma JunkReplaced()
    ensures Overwrite(JUNK, 0, [Y1]) == [Y1]
  {
  }

  const YS := [Y1, Y2, Y3]
  const YS4 := [Y1, Y2, Y3, Y4]

  /** Node 2 copies three entries, and node 1 commits them. */
  lemma ThreeCommitted() returns (r: Tape)
    ensures Good(r) && r.end.ids == FIVE && Leading(r.end, 1, View(2, YS, 3))
    ensures MatchIs(r.end, 1, 4, 4) && NextIs(r.end, 1, 2, 4)
    ensures Behind(r.end, 2, View(2, YS, 0)) && Behind(r.end, 3, View(2, [], 0))
    ensures Behind(r.end, 4, View(2, [Y1], 0)) && Behind(r.end, 5, View(0, [], 0))
  {
    hide Good, Honest, Punctual, Frame, Pending, Is, Taken, Overwrite, Elected, Consistent, AppendBody;
    FiveSize();
    var r0 := CutDown();
    assert [Y1] + [Y2] == [Y1, Y2] && [Y1, Y2] + [Y3] == YS;
    var r1, _ := Give(r0, 1, View(2, [Y1], 0), [2], 2, 1);
    Others(r0.end, r1.end, {1}, {});
    var r2, ae := Give(r1, 1, View(2, [Y1, Y2], 0), [3], 2, 1);
    Others(r1.end, r2.end, {1}, {});
    var v := View(2, YS, 0);
    Filled([], YS);
    assert [] + YS == YS;
    FromTheStart(v, 1, View(2, [], 0), YS);
    var r3, yes := Accept(r2, 1, v, 2, View(2, [], 0), ae);
    Others(r2.end, r3.end, {2}, {ae});
    assert MatchIs(r3.end, 1, 4, 4);
    r := Count(r3, 1, v, 2, yes, {2, 4});
    Others(r3.end, r.end, {1}, {yes});
  }

  /** Node 2 copies a fourth and learns of the three; node 1 commits the fourth. */
  lemma FourCommitted() returns (r: Tape)
    ensures Good(r) && r.end.ids == FIVE && Leading(r.end, 1, View(2, YS4, 4))
    ensures Behind(r.end, 2, View(2, YS4, 3)) && Behind(r.end, 3, View(2, [], 0))
    ensures Behind(r.end, 4, View(2, [Y1], 0)) && Behind(r.end, 5, View(0, [], 0))
  {
    hide Good, Honest, Punctual, Frame, Pending, Is, Taken, Overwrite, Elected, Consistent, AppendBody;
    FiveSize();
    var r0 := ThreeCommitted();
    var r1, ae := Give(r0, 1, View(2, YS, 3), [4], 2, 4);
    Others(r0.end, r1.end, {1}, {});
    var v := View(2, YS4, 3);
    assert YS + [Y4] == YS4;
    FromTheEnd(v, 1, View(2, YS, 0));
    var r2, yes := Accept(r1, 1, v, 2, View(2, YS, 0), ae);
    Others(r1.end, r2.end, {2}, {ae});
    assert MatchIs(r2.end, 1, 4, 4);
    r := Count(r2, 1, v, 2, yes, {2, 4});
    Others(r2.end, r.end, {1}, {yes});
  }

  /** Node 4 leads term 3 with the one entry it holds. */
  lemma Returned() returns (r: Tape)
    ensures Good(r) && r.end.ids == FIVE && Leading(r.end, 4, View(3, [Y1], 0))
    ensures NextIs(r.end, 4, 1, 2) && NextIs(r.end, 4, 2, 2)
    ensures Leading(r.end, 1, View(2, YS4, 4)) && Behind(r.end, 2, View(2, YS4, 3)) && Behind(r.end, 3, View(3, [], 0))
  {
    hide Good, Honest, Punctual, Frame, Pending, Is, Taken, Overwrite, Elected;
    FiveSize();
    var r0 := FourCommitted();
    r := WinOfFive(r0, 4, View(2, [Y1], 0), 3, View(2, [], 0), 5, View(0, [], 0));
    Leads(r0.end, r.end, 4, View(3, [Y1], 0), 1);
    Leads(r0.end, r.end, 4, View(3, [Y1], 0), 2);
    Others(r0.end, r.end, {4, 3, 5}, {});
  }

  /** It appends an entry, and node 1 is cut below what it committed, */
  lemma OneCut() returns (r: Tape)
    ensures Good(r) && r.end.ids == FIVE && Leading(r.end, 4, View(3, [Y1, T], 0)) && NextIs(r.end, 4, 2, 2)
    ensures Behind(r.end, 1, View(3, [Y1, T], 4)) && Behind(r.end, 2, View(2, YS4, 3))
    ensures Behind(r.end, 3, View(3, [], 0))
  {
    hide Good, Honest, Punctual, Frame, Pending, Is, Taken, Overwrite, Consistent, AppendBody;
    FiveSize();
    var r0 := Returned();
    var r1, ae := Give(r0, 4, View(3, [Y1], 0), [5], 1, 2);
    Others(r0.end, r1.end, {4}, {});
    assert [Y1] + [T] == [Y1, T];
    LastReplaced(View(3, [Y1, T], 0), 4, View(2, YS4, 4));
    var yes;
    r, yes := Accept(r1, 4, View(3, [Y1, T], 0), 1, View(2, YS4, 4), ae);
    Others(r1.end, r.end, {1}, {ae});
  }

  /** and so is node 2. */
  lemma BothCut() returns (r: Tape)
    ensures Good(r) && r.end.ids == FIVE && Leading(r.end, 4, View(3, [Y1, T], 0))
    ensures Behind(r.end, 1, View(3, [Y1, T], 4)) && Behind(r.end, 2, View(3, [Y1, T], 3))
    ensures Behind(r.end, 3, View(3, [], 0))
  {
    hide Good, Honest, Punctual, Frame, Pending, Is, Taken, Overwrite, Consistent, AppendBody;
    FiveSize();
    var r0 := OneCut();
    var r1, ae := Beat(r0, 4, View(3, [Y1, T], 0), 2, 2);
    Others(r0.end, r1.end, {4}, {});
    LastReplaced(View(3, [Y1, T], 0), 4, View(2, YS4, 3));
    var yes;
    r, yes := Accept(r1, 4, View(3, [Y1, T], 0), 2, View(2, YS4, 3), ae);
    Others(r1.end, r.end, {2}, {ae});
  }

  /** A run in which node 2's commit index is 3 and, later, 2. */
  lemma CommitCanFall() returns (states: seq<Cluster>, events: seq<Event>, j: nat)
    ensures RealRun(states, events) && states[0].ids == FIVE && j < |states|
    ensures 2 in states[j].nodes && states[j].nodes[2].commitIndex == 3
    ensures 2 in states[|states| - 1].nodes && states[|states| - 1].nodes[2].commitIndex == 2
  {
    hide Good, Honest, Punctual, Frame, Pending, Is, Taken, Overwrite, Elected, Consistent, AppendBody, RealRun;
    FiveSize();
    var r0 := BothCut();
    var v := View(4, [Y1, T], 4);
    var r1 := WinOfFive(r0, 1, View(3, [Y1, T], 4), 2, View(3, [Y1, T], 3), 3, View(3, [], 0));
    Leads(r0.end, r1.end, 1, v, 2);
    var hb := FirstWord(r0.end, r1.end, 1, v, 2);
    var w := View(4, [Y1, T], 3);
    FromTheEnd(v, 1, w);
    var r, _ := Accept(r1, 1, v, 2, w, hb);
    Finish(r1);
    Finish(r);
    CommitOf(r1.end, 2, w);
    CommitOf(r.end, 2, View(4, [Y1, T], 2));
    states, events, j := r.states, r.events, |r1.states| - 1;
  }

  lemma CommitOf(s: Cluster, i: Id, v: View)
    requires Holds(s, i, v)
    ensures i in s.nodes && s.nodes[i].commitIndex == v.commit
  {
  }
}
