/**
 What the second hypothesis of state-machine safety is for, and that the two leave something to say: two
 runs of a three-node cluster. In the first every success reply is truthful, but a leader counts one that
 answers a message of an earlier leadership, and two nodes apply different commands at one index. In the
 second both hypotheses hold and two nodes apply the same. (RaftDivergence has the runs in which only the
 first hypothesis fails.)
 */
module RaftWitness {
  import opened RaftNode
  import opened RaftCluster
  import opened RaftRuns
  import opened RaftSafety
  import opened RaftScenes

  const THREE: set<Id> := {1, 2, 3}

  lemma ThreeSize()
    ensures |THREE| == 3 && MajorityWins(THREE) && 0 !in THREE
  {
  }

  /** Two nodes have applied different commands at one index. */
  ghost predicate Diverged(s: Cluster) {
    exists a, b, x: nat :: a in s.nodes && b in s.nodes && x < |s.nodes[a].applied| && x < |s.nodes[b].applied|
      && s.nodes[a].applied[x] != s.nodes[b].applied[x]
  }

  lemma Diverges(s: Cluster, a: Id, la: seq<Entry>, b: Id, lb: seq<Entry>, x: nat)
    requires HasApplied(s, a, la) && HasApplied(s, b, lb) && x < |la| && x < |lb| && la[x].command != lb[x].command
    ensures Diverged(s)
  {
    assert s.nodes[a].applied[x] != s.nodes[b].applied[x];
  }

  /** Nobody knows of any commit. */
  function Bare(term: nat, log: seq<Entry>): View {
    View(term, log, 0)
  }

  lemma WholeLog(log: seq<Entry>)
    ensures Overwrite([], 0, log) == log && Overwrite(log, 0, []) == log
  {
  }

  // ---------- The first run ----------

  const P := Entry(1, [1])
  const Q := Entry(1, [2])
  const W := Entry(2, [3])
  const V5 := Entry(5, [4])
  const V6 := Entry(6, [5])

  /** Node 2's acknowledgement of two entries, in answer to term 3, is still on its way to node 1. */
  ghost predicate Stale(s: Cluster, p: Packet) {
    Pending(s, p) && p.from == 2 && p.to == 1 && p.body == AppendReply(3, true, 2)
  }

  lemma StillStale(s: Cluster, s': Cluster, touched: set<Id>, used: set<Packet>, stale: Packet)
    requires Frame(s, s', touched, used) && Stale(s, stale) && stale !in used
    ensures Stale(s', stale)
  {
    hide Pending;
  }

  lemma TwoAlone() returns (r: Tape)
    ensures Good(r) && Honest(r) && r.end.ids == THREE
    ensures Leading(r.end, 1, Bare(1, [P, Q])) && Behind(r.end, 2, Bare(0, [])) && Behind(r.end, 3, Bare(1, []))
  {
    hide Good, Honest, Punctual, Frame, Pending, Is, Elected, Taken, Overwrite;
    ThreeSize();
    var r0 := Begin(THREE);
    var r1, _ := Win(r0, 1, Bare(0, []), 3, Bare(0, []), 2);
    Leads(r0.end, r1.end, 1, Bare(1, []), 2);
    StillBehind(r0.end, r1.end, {1, 3}, {}, 2, Bare(0, []));
    var r2, _ := Give(r1, 1, Bare(1, []), [1], 2, 1);
    assert [] + [P] == [P] && [P] + [Q] == [P, Q];
    StillBehind(r1.end, r2.end, {1}, {}, 2, Bare(0, []));
    StillBehind(r1.end, r2.end, {1}, {}, 3, Bare(1, []));
    var ae;
    r, ae := Give(r2, 1, Bare(1, [P]), [2], 2, 1);
    StillBehind(r2.end, r.end, {1}, {}, 2, Bare(0, []));
    StillBehind(r2.end, r.end, {1}, {}, 3, Bare(1, []));
  }

  lemma ThreeAhead() returns (r: Tape)
    ensures Good(r) && Honest(r) && r.end.ids == THREE
    ensures Behind(r.end, 1, Bare(2, [P, Q])) && Behind(r.end, 2, Bare(2, [])) && Leading(r.end, 3, Bare(2, [W]))
  {
    hide Good, Honest, Punctual, Frame, Pending, Is, Elected, Taken, Overwrite;
    ThreeSize();
    var r0 := TwoAlone();
    var r1, ask := Win(r0, 3, Bare(1, []), 2, Bare(0, []), 1);
    Leads(r0.end, r1.end, 3, Bare(2, []), 1);
    StillLeading(r0.end, r1.end, {3, 2}, {}, 1, Bare(1, [P, Q]));
    var r2, _ := Give(r1, 3, Bare(2, []), [3], 1, 1);
    assert [] + [W] == [W];
    StillLeading(r1.end, r2.end, {3}, {}, 1, Bare(1, [P, Q]));
    StillBehind(r1.end, r2.end, {3}, {}, 2, Bare(2, []));
    StillPending(r1.end, r2.end, {3}, {}, ask);
    r := Hear(r2, 1, Bare(1, [P, Q]), ask);
    StillLeading(r2.end, r.end, {1}, {ask}, 3, Bare(2, [W]));
    StillBehind(r2.end, r.end, {1}, {ask}, 2, Bare(2, []));
  }

  /** Node 1 leads again, in term 3, and copies its two old entries to node 2. */
  lemma OldEntriesCopied() returns (r: Tape, stale: Packet)
    ensures Good(r) && Honest(r) && r.end.ids == THREE && Stale(r.end, stale)
    ensures Leading(r.end, 1, Bare(3, [P, Q])) && Behind(r.end, 2, Bare(3, [P, Q])) && Behind(r.end, 3, Bare(3, [W]))
  {
    hide Good, Honest, Punctual, Frame, Pending, Is, Elected, Taken, Overwrite;
    ThreeSize();
    var r0 := ThreeAhead();
    var v := Bare(3, [P, Q]);
    var r1, ask := Win(r0, 1, Bare(2, [P, Q]), 2, Bare(2, []), 3);
    Leads(r0.end, r1.end, 1, v, 2);
    var hb := FirstWord(r0.end, r1.end, 1, v, 2);
    StillLeading(r0.end, r1.end, {1, 2}, {}, 3, Bare(2, [W]));
    var r2 := Hear(r1, 3, Bare(2, [W]), ask);
    StillLeading(r1.end, r2.end, {3}, {ask}, 1, v);
    StillBehind(r1.end, r2.end, {3}, {ask}, 2, Bare(3, []));
    StillPending(r1.end, r2.end, {3}, {ask}, hb);
    var r3, ae1 := Retry(r2, 1, v, 2, Bare(3, []), 3, hb);
    StillBehind(r2.end, r3.end, {1, 2}, {hb}, 3, Bare(3, [W]));
    var r4, ae2 := Retry(r3, 1, v, 2, Bare(3, []), 2, ae1);
    StillBehind(r3.end, r4.end, {1, 2}, {ae1}, 3, Bare(3, [W]));
    WholeLog([P, Q]);
    FromTheStart(v, 1, Bare(3, []), [P, Q]);
    r, stale := Accept(r4, 1, v, 2, Bare(3, []), ae2);
    StillLeading(r4.end, r.end, {2}, {ae2}, 1, v);
    StillBehind(r4.end, r.end, {2}, {ae2}, 3, Bare(3, [W]));
  }

  lemma OldReplaced(log: seq<Entry>)
    requires |log| > 0 && log[0].term == 2
    ensures Overwrite([P, Q], 0, log) == log
  {
  }

  /** Node 3 leads term 4 and overwrites what node 1 holds. */
  lemma OldEntriesReplaced() returns (r: Tape, stale: Packet)
    ensures Good(r) && Honest(r) && r.end.ids == THREE && Stale(r.end, stale)
    ensures Behind(r.end, 1, Bare(4, [W])) && Behind(r.end, 2, Bare(4, [P, Q])) && Leading(r.end, 3, Bare(4, [W]))
  {
    hide Good, Honest, Punctual, Frame, Pending, Is, Elected, Taken, Overwrite, Stale;
    ThreeSize();
    var r0;
    r0, stale := OldEntriesCopied();
    var v := Bare(4, [W]);
    var r1, _ := Win(r0, 3, Bare(3, [W]), 2, Bare(3, [P, Q]), 1);
    Leads(r0.end, r1.end, 3, v, 1);
    var hb := FirstWord(r0.end, r1.end, 3, v, 1);
    StillLeading(r0.end, r1.end, {3, 2}, {}, 1, Bare(3, [P, Q]));
    StillStale(r0.end, r1.end, {3, 2}, {}, stale);
    OtherSender(r1.end, stale, hb);
    var r2, ae := Retry(r1, 3, v, 1, Bare(3, [P, Q]), 2, hb);
    StillBehind(r1.end, r2.end, {3, 1}, {hb}, 2, Bare(4, [P, Q]));
    StillStale(r1.end, r2.end, {3, 1}, {hb}, stale);
    OtherSender(r2.end, stale, ae);
    OldReplaced([W]);
    FromTheStart(v, 3, Bare(4, [P, Q]), [W]);
    var yes;
    r, yes := Accept(r2, 3, v, 1, Bare(4, [P, Q]), ae);
    StillBehind(r2.end, r.end, {1}, {ae}, 2, Bare(4, [P, Q]));
    StillLeading(r2.end, r.end, {1}, {ae}, 3, v);
    StillStale(r2.end, r.end, {1}, {ae}, stale);
  }

  lemma OtherSender(s: Cluster, stale: Packet, p: Packet)
    requires Stale(s, stale) && p.from != 2
    ensures stale != p
  {
  }

  /** Node 1 leads term 5 and counts the old acknowledgement for a new entry. */
  lemma StaleCounted() returns (r: Tape)
    ensures Good(r) && Honest(r) && r.end.ids == THREE
    ensures HasApplied(r.end, 1, [W, V5]) && Behind(r.end, 2, Bare(5, [P, Q])) && Behind(r.end, 3, Bare(5, [W]))
  {
    hide Good, Honest, Punctual, Frame, Pending, Is, Elected, Taken, Overwrite, HasApplied;
    ThreeSize();
    var r0, stale := OldEntriesReplaced();
    var v := Bare(5, [W]);
    var r1, ask := Win(r0, 1, Bare(4, [W]), 2, Bare(4, [P, Q]), 3);
    Leads(r0.end, r1.end, 1, v, 2);
    StillLeading(r0.end, r1.end, {1, 2}, {}, 3, Bare(4, [W]));
    StillStale(r0.end, r1.end, {1, 2}, {}, stale);
    var r2 := Hear(r1, 3, Bare(4, [W]), ask);
    StillLeading(r1.end, r2.end, {3}, {ask}, 1, v);
    StillBehind(r1.end, r2.end, {3}, {ask}, 2, Bare(5, [P, Q]));
    StillStale(r1.end, r2.end, {3}, {ask}, stale);
    var r3, _ := Give(r2, 1, v, [4], 2, 2);
    assert [W] + [V5] == [W, V5];
    StillBehind(r2.end, r3.end, {1}, {}, 2, Bare(5, [P, Q]));
    StillBehind(r2.end, r3.end, {1}, {}, 3, Bare(5, [W]));
    StillStale(r2.end, r3.end, {1}, {}, stale);
    r := Count(r3, 1, Bare(5, [W, V5]), 2, stale, {2});
    StillBehind(r3.end, r.end, {1}, {stale}, 2, Bare(5, [P, Q]));
    StillBehind(r3.end, r.end, {1}, {stale}, 3, Bare(5, [W]));
  }

  /** Counting replies of earlier leaderships breaks safety: every success reply in this run is truthful, and
      yet two nodes apply different commands at index 2. */
  lemma CurrentNeeded() returns (r: Tape)
    ensures RealRun(r.states, r.events) && r.states[0].ids == THREE && AllTruthful(r.states, r.events)
    ensures Diverged(r.states[|r.states| - 1])
  {
    hide Good, Honest, Punctual, Frame, Pending, Is, Elected, Taken, Overwrite,
      HasApplied, Diverged, RealRun, AllTruthful;
    ThreeSize();
    var r0 := StaleCounted();
    var v := Bare(6, [W]);
    var r1, _ := Win(r0, 3, Bare(5, [W]), 2, Bare(5, [P, Q]), 1);
    Leads(r0.end, r1.end, 3, v, 2);
    var hb := FirstWord(r0.end, r1.end, 3, v, 2);
    StillApplied(r0.end, r1.end, {3, 2}, {}, 1, [W, V5]);
    var r2, _ := Give(r1, 3, v, [5], 2, 2);
    assert [W] + [V6] == [W, V6];
    v := Bare(6, [W, V6]);
    StillApplied(r1.end, r2.end, {3}, {}, 1, [W, V5]);
    StillBehind(r1.end, r2.end, {3}, {}, 2, Bare(6, [P, Q]));
    StillPending(r1.end, r2.end, {3}, {}, hb);
    var r3, ae := Retry(r2, 3, v, 2, Bare(6, [P, Q]), 2, hb);
    StillApplied(r2.end, r3.end, {3, 2}, {hb}, 1, [W, V5]);
    OldReplaced([W, V6]);
    FromTheStart(v, 3, Bare(6, [P, Q]), [W, V6]);
    var r4, yes := Accept(r3, 3, v, 2, Bare(6, [P, Q]), ae);
    StillApplied(r3.end, r4.end, {2}, {ae}, 1, [W, V5]);
    StillLeading(r3.end, r4.end, {2}, {ae}, 3, v);
    r := Count(r4, 3, v, 2, yes, {2});
    StillApplied(r4.end, r.end, {3}, {yes}, 1, [W, V5]);
    Diverges(r.end, 1, [W, V5], 3, [W, V6], 1);
    Finish(r);
  }

  // ---------- The second run ----------

  const X := Entry(1, [1])
  const X2 := Entry(1, [2])

  /** Node 1 leads term 1 and holds an entry nobody else has. */
  lemma Lonely() returns (r: Tape, ae: Packet)
    ensures Good(r) && Honest(r) && Punctual(r) && r.end.ids == THREE
    ensures Leading(r.end, 1, Bare(1, [X])) && NextIs(r.end, 1, 2, 1)
    ensures Behind(r.end, 2, Bare(1, [])) && Behind(r.end, 3, Bare(0, []))
    ensures Pending(r.end, ae) && ae.from == 1 && ae.to == 2 && ae.body == AppendBody(Bare(1, [X]), 1, 1)
  {
    hide Good, Honest, Punctual, Frame, Pending, Is, Elected, Taken, Overwrite;
    ThreeSize();
    var r0 := Begin(THREE);
    var r1, _ := Win(r0, 1, Bare(0, []), 2, Bare(0, []), 3);
    Leads(r0.end, r1.end, 1, Bare(1, []), 2);
    StillBehind(r0.end, r1.end, {1, 2}, {}, 3, Bare(0, []));
    r, ae := Give(r1, 1, Bare(1, []), [1], 2, 1);
    assert [] + [X] == [X];
    StillBehind(r1.end, r.end, {1}, {}, 2, Bare(1, []));
    StillBehind(r1.end, r.end, {1}, {}, 3, Bare(0, []));
  }

  lemma Caught(s: Cluster, i: Id, v: View, v': View, log: seq<Entry>)
    requires i in s.nodes && Catches(s.nodes[i], v, v') && v.commit == 0 < v'.commit <= |v'.log|
    requires log == v'.log[..v'.commit]
    ensures HasApplied(s, i, log)
  {
  }

  lemma KeepsApplied(s: Cluster, s': Cluster, c: Id, log: seq<Entry>)
    requires SameBooks(s, s', c) && HasApplied(s, c, log)
    ensures HasApplied(s', c, log)
  {
  }

  /** The hypotheses can be met with something applied: node 1 commits a command that node 2 holds, and node 2
      applies it when it hears so. */
  lemma BothMet() returns (r: Tape)
    ensures RealRun(r.states, r.events) && r.states[0].ids == THREE && HonestRun(r.states, r.events)
    ensures HasApplied(r.states[|r.states| - 1], 1, [X]) && HasApplied(r.states[|r.states| - 1], 2, [X])
  {
    hide Good, Honest, Punctual, Frame, Pending, Is, Elected, Taken, Overwrite,
      HasApplied, RealRun, AllTruthful, AllCurrent, HonestRun;
    ThreeSize();
    var r0, ae := Lonely();
    var v := Bare(1, [X]);
    WholeLog([X]);
    FromTheStart(v, 1, Bare(1, []), [X]);
    var r1, yes := Accept(r0, 1, v, 2, Bare(1, []), ae);
    StillLeading(r0.end, r1.end, {2}, {ae}, 1, v);
    var r2 := Count(r1, 1, v, 2, yes, {2});
    StillBehind(r1.end, r2.end, {1}, {yes}, 2, v);
    var r3, more := Give(r2, 1, View(1, [X], 1), [2], 2, 2);
    assert [X] + [X2] == [X, X2];
    StillBehind(r2.end, r3.end, {1}, {}, 2, v);
    KeepsApplied(r2.end, r3.end, 1, [X]);
    FromTheEnd(View(1, [X, X2], 1), 1, v);
    assert [X, X2][..1] == [X];
    var ack;
    r, ack := Accept(r3, 1, View(1, [X, X2], 1), 2, v, more);
    StillApplied(r3.end, r.end, {2}, {more}, 1, [X]);
    Caught(r.end, 2, v, View(1, [X, X2], 1), [X]);
    Finish(r);
    FinishHonest(r.states, r.events);
  }
}
