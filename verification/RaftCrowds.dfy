/**
 Scenes of RaftScenes played with many nodes in turn: an election by any number of voters, a message taken
 by each of a set of followers, and their acknowledgements counted until the leader commits.

 `s0` is the state such a scene is told from: the messages it uses were sent since.
 */
module RaftCrowds {
  import opened RaftNode
  import opened RaftCluster
  import opened RaftRuns
  import opened RaftSafety
  import opened RaftScenes

  /** All of `who` hold this view. */
  ghost predicate AllHold(s: Cluster, who: set<Id>, v: View) {
    forall w :: w in who ==> Holds(s, w, v)
  }

  ghost predicate AllBehind(s: Cluster, who: set<Id>, v: View) {
    forall w :: w in who ==> Behind(s, w, v)
  }

  lemma JustOne(s: Cluster, i: Id, v: View)
    ensures AllBehind(s, {i}, v) <==> Behind(s, i, v)
  {
    hide Is;
  }

  lemma Both(s: Cluster, a: set<Id>, b: set<Id>, v: View)
    requires AllHold(s, a, v) && AllHold(s, b, v)
    ensures AllHold(s, a + b, v)
  {
    hide Is;
  }

  lemma BehindHold(s: Cluster, who: set<Id>, v: View)
    requires AllBehind(s, who, v)
    ensures AllHold(s, who, v)
  {
    hide Is;
  }

  /** Only `touched` nodes changed since `s0`, and what was on its way then still is. */
  ghost predicate Since(s0: Cluster, r: Tape, touched: set<Id>) {
    Good(r) && r.end.ids == s0.ids && Frame(s0, r.end, touched, {})
  }

  ghost predicate AllSent(s0: Cluster, s: Cluster, c: Id, body: Body, who: set<Id>) {
    forall w :: w in who ==> Posts(s0, s, c, w, body, 0)
  }

  lemma StillSent(s0: Cluster, s: Cluster, s': Cluster, touched: set<Id>, used: set<Packet>, c: Id, body: Body,
                  who: set<Id>)
    requires AllSent(s0, s, c, body, who) && Frame(s, s', touched, used) && forall q :: q in used ==> q.to !in who
    ensures AllSent(s0, s', c, body, who)
  {
    hide Pending, Frame;
    forall w | w in who ensures Posts(s0, s', c, w, body, 0) {
      var p :| Mail(s0, s, p, c, w, body, 0);
      StillPending(s, s', touched, used, p);
      assert Mail(s0, s', p, c, w, body, 0);
    }
  }

  /** What was sent since a later state was sent since. */
  lemma SentSince(s0: Cluster, s1: Cluster, s: Cluster, touched: set<Id>, used: set<Packet>, c: Id, body: Body,
                  who: set<Id>)
    requires Frame(s0, s1, touched, used) && AllSent(s1, s, c, body, who)
    ensures AllSent(s0, s, c, body, who)
  {
    hide Pending, Frame;
    forall w | w in who ensures Posts(s0, s, c, w, body, 0) {
      var p :| Mail(s1, s, p, c, w, body, 0);
      NotSent(s0, s1, p, touched, used);
      assert Mail(s0, s, p, c, w, body, 0);
    }
  }

  /** Only `touched` nodes changed. */
  predicate Spared(s: Cluster, s': Cluster, touched: set<Id>) {
    s'.nodes.Keys == s.nodes.Keys && forall i :: i in s.nodes && i !in touched ==> s'.nodes[i] == s.nodes[i]
  }

  lemma FrameSpares(s: Cluster, s': Cluster, touched: set<Id>, used: set<Packet>, touched': set<Id>)
    requires Frame(s, s', touched, used) && touched <= touched'
    ensures Spared(s, s', touched')
  {
    hide Pending;
  }

  lemma SparedTrans(s: Cluster, s1: Cluster, s2: Cluster, t1: set<Id>, t2: set<Id>, t: set<Id>)
    requires Spared(s, s1, t1) && Spared(s1, s2, t2) && t1 <= t && t2 <= t
    ensures Spared(s, s2, t)
  {
  }

  lemma StillHold(s: Cluster, s': Cluster, touched: set<Id>, who: set<Id>, v: View)
    requires Spared(s, s', touched) && who !! touched
    ensures AllHold(s, who, v) ==> AllHold(s', who, v)
    ensures AllBehind(s, who, v) ==> AllBehind(s', who, v)
  {
    hide Is;
  }

  /** One more scene, with messages sent since `s0`. */
  lemma Later(s0: Cluster, r: Tape, touched: set<Id>, r': Tape, t: set<Id>, used: set<Packet>)
    requires Since(s0, r, touched) && Good(r') && r'.end.ids == r.end.ids && Frame(r.end, r'.end, t, used)
    requires t <= touched && forall p :: p in used ==> p !in s0.sent
    ensures Since(s0, r', touched)
  {
    hide Good, Frame;
    FrameTrans(s0, r.end, r'.end, touched, {}, t, used, touched, {});
  }

  // ---------- Elections ----------

  /** What is asked of each voter, and what it takes for it to agree. */
  ghost predicate Asks(s0: Cluster, s: Cluster, c: Id, v: View, voters: set<Id>, vw: View) {
    && AllHold(s, voters, vw) && AllSent(s0, s, c, Ask(c, v), voters)
    && vw.term < v.term && UpToDate(LastTerm(v.log), |v.log|, vw.log)
  }

  /** All of `voters` are polled in turn; the last of them tips the balance. */
  lemma {:induction false} PollAll(r: Tape, s0: Cluster, touched: set<Id>, c: Id, v: View, votes: nat,
                                   voters: set<Id>, vw: View) returns (r': Tape)
    requires Since(s0, r, touched) && c in r.end.ids && Standing(r.end, c, v, votes)
    requires voters <= r.end.ids - {c} && voters != {} && votes + |voters| == (|r.end.ids| - 1) / 2 + 1
    requires Asks(s0, r.end, c, v, voters, vw) && voters + {c} <= touched
    ensures Since(s0, r', touched) && Follows(r, r', true, true) && Spared(r.end, r'.end, voters + {c})
    ensures Elected(s0, r'.end, c, v) && AllBehind(r'.end, voters, vw.(term := v.term))
    decreases |voters|
  {
    hide Good, Follows, Frame, Posts, Pending, UpToDate, Standing, Elected, Ask, Holds, Behind, Spared;
    var w :| w in voters;
    var rest := voters - {w};
    assert Posts(s0, r.end, c, w, Ask(c, v), 0);
    var q := Letter(s0, r.end, c, w, Ask(c, v), 0);
    r' := Poll(r, c, v, votes, w, vw, q);
    var s1, s2, vw' := r.end, r'.end, vw.(term := v.term);
    Later(s0, r, touched, r', {c, w}, {q});
    FrameSpares(s1, s2, {c, w}, {q}, voters + {c});
    if rest == {} {
      ElectedSince(s0, s1, s2, touched, {}, c, v);
    } else {
      FrameSpares(s1, s2, {c, w}, {q}, {c, w});
      StillHold(s1, s2, {c, w}, rest, vw);
      StillSent(s0, s1, s2, {c, w}, {q}, c, Ask(c, v), rest);
      var r1 := r';
      r' := PollAll(r1, s0, touched, c, v, votes + 1, rest, vw);
      FollowsTrans(r, r1, r', true, true, true, true);
      SparedTrans(s1, s2, r'.end, voters + {c}, rest + {c}, voters + {c});
      StillHold(s2, r'.end, rest + {c}, {w}, vw');
    }
  }

  /** `c` wins the next term with the votes of all of `voters`, as many as it takes. */
  lemma WinAll(r: Tape, c: Id, v: View, voters: set<Id>, vw: View) returns (r': Tape)
    requires Good(r) && c in r.end.ids && Behind(r.end, c, v)
    requires voters <= r.end.ids - {c} && voters != {} && |voters| == (|r.end.ids| - 1) / 2
    requires AllHold(r.end, voters, vw) && vw.term <= v.term && UpToDate(LastTerm(v.log), |v.log|, vw.log)
    ensures Since(r.end, r', voters + {c}) && Follows(r, r', true, true)
    ensures Elected(r.end, r'.end, c, v.(term := v.term + 1))
    ensures AllBehind(r'.end, voters, vw.(term := v.term + 1))
  {
    hide Good, Follows, Frame, Posts, Pending, UpToDate, Standing, Elected, Ask, Holds, Behind, Spared;
    var v', touched := v.(term := v.term + 1), voters + {c};
    var r1 := Stand(r, c, v);
    Nothing(r, touched);
    Later(r.end, r, touched, r1, {c}, {});
    FrameSpares(r.end, r1.end, {c}, {}, {c});
    StillHold(r.end, r1.end, {c}, voters, vw);
    ToAll(r.end, r1.end, c, Ask(c, v'), voters);
    r' := PollAll(r1, r.end, touched, c, v', 1, voters, vw);
    FollowsTrans(r, r1, r', true, true, true, true);
  }

  /** The new leader's books, for `who` of the others. */
  lemma LeadsAll(s: Cluster, s': Cluster, c: Id, v: View, who: set<Id>)
    requires Elected(s, s', c, v) && who <= s'.ids - {c}
    ensures Leading(s', c, v) && forall p :: p in who ==> NextIs(s', c, p, |v.log| + 1)
  {
    hide PostsToAll, AppendBody, Leading, NextIs;
  }

  lemma SinceGood(s0: Cluster, r: Tape, touched: set<Id>)
    requires Since(s0, r, touched)
    ensures Good(r) && r.end.ids == s0.ids && Frame(s0, r.end, touched, {}) && Spared(s0, r.end, touched)
  {
    hide Good, Pending;
  }

  /** A scene over, told from its own beginning. */
  lemma Over(r: Tape, r': Tape, t: set<Id>, used: set<Packet>, touched: set<Id>)
    requires Good(r) && Good(r') && r'.end.ids == r.end.ids && Frame(r.end, r'.end, t, used) && t <= touched
    ensures Spared(r.end, r'.end, touched)
    ensures used == {} ==> Since(r.end, r', touched)
  {
    hide Good, Pending;
  }

  lemma Nothing(r: Tape, touched: set<Id>)
    requires Good(r)
    ensures Since(r.end, r, touched)
  {
    hide Good, Pending;
  }

  lemma ToAll(s: Cluster, s': Cluster, c: Id, body: Body, who: set<Id>)
    requires PostsToAll(s, s', c, body) && who <= s.ids - {c}
    ensures AllSent(s, s', c, body, who)
  {
    hide Posts;
  }

  // ---------- Replication ----------

  /** An acknowledgement of leader `c`'s whole log, in answer to its present term, is on its way from `w`. */
  ghost predicate Acked(s0: Cluster, s: Cluster, c: Id, v: View, w: Id) {
    exists p :: Pending(s, p) && p !in s0.sent && IsAck(p, c, v, w)
  }

  predicate IsAck(p: Packet, c: Id, v: View, w: Id) {
    && p.from == w && p.to == c && p.answers == v.term
    && p.body.AppendReply? && p.body.success && p.body.term <= v.term && p.body.matchIndex >= |v.log|
  }

  ghost predicate AllAcked(s0: Cluster, s: Cluster, c: Id, v: View, who: set<Id>) {
    forall w :: w in who ==> Acked(s0, s, c, v, w)
  }

  lemma StillAcked(s0: Cluster, s: Cluster, s': Cluster, touched: set<Id>, used: set<Packet>, c: Id, v: View,
                   who: set<Id>)
    requires AllAcked(s0, s, c, v, who) && Frame(s, s', touched, used) && forall q :: q in used ==> q.from !in who
    ensures AllAcked(s0, s', c, v, who)
  {
    hide Pending, Frame;
    forall w | w in who ensures Acked(s0, s', c, v, w) {
      var p :| Pending(s, p) && p !in s0.sent && IsAck(p, c, v, w);
      StillPending(s, s', touched, used, p);
    }
  }

  lemma Stay(r: Tape, touched: set<Id>)
    requires Good(r)
    ensures Follows(r, r, true, true) && Spared(r.end, r.end, touched)
  {
    hide Good, Honest, Punctual;
  }

  lemma SameOnRecord(s: Cluster, s': Cluster, term: nat, log: seq<Entry>)
    requires s'.h.leaderLog == s.h.leaderLog
    ensures OnRecord(s', term, log) <==> OnRecord(s, term, log)
  {
  }

  lemma AckedNow(s0: Cluster, s: Cluster, s1: Cluster, touched: set<Id>, yes: Packet, c: Id, v: View, w: Id)
    requires Frame(s0, s, touched, {}) && Pending(s1, yes) && yes !in s.sent && IsAck(yes, c, v, w)
    ensures Acked(s0, s1, c, v, w)
  {
    hide Pending;
  }

  /** All of `who` take the message leader `c` has sent them, and acknowledge what is to be its log. */
  lemma {:induction false} AcceptAll(r: Tape, s0: Cluster, touched: set<Id>, c: Id, v: View, next: nat, who: set<Id>,
                                     vw: View, vw': View, later: View, done: set<Id>) returns (r': Tape)
    requires Since(s0, r, touched) && c in r.end.ids && Leading(r.end, c, v) && who <= r.end.ids - {c}
    requires AllHold(r.end, who, vw) && vw.term <= v.term && vw.commit == 0 && who <= touched
    requires 1 <= next <= |vw.log| + 1 && AllSent(s0, r.end, c, AppendBody(v, c, next), who)
    requires Consistent(vw.log, next - 1, AppendBody(v, c, next).prevLogTerm)
    requires vw' == Taken(vw, AppendBody(v, c, next)) && later.term == v.term && |later.log| <= |vw'.log|
    requires AllAcked(s0, r.end, c, later, done) && c !in done
    ensures Since(s0, r', touched) && Spared(r.end, r'.end, who) && r'.end.h.leaderLog == r.end.h.leaderLog
    ensures Follows(r, r', OnRecord(r.end, v.term, vw'.log), true)
    ensures Leading(r'.end, c, v) && AllBehind(r'.end, who, vw') && AllAcked(s0, r'.end, c, later, who + done)
    decreases |who|
  {
    hide Good, Follows, Frame, Posts, Pending, Consistent, Taken, Leading, Behind, Holds, Spared, AppendBody, Acked,
      OnRecord;
    var honest := OnRecord(r.end, v.term, vw'.log);
    if who == {} {
      r' := r;
      Stay(r, who);
      Weaker(r, r, true, true, honest, true);
      assert who + done == done;
    } else {
      var w :| w in who;
      var rest, body := who - {w}, AppendBody(v, c, next);
      assert Posts(s0, r.end, c, w, body, 0);
      var ae := Letter(s0, r.end, c, w, body, 0);
      var yes;
      r', yes := Accept(r, c, v, w, vw, ae);
      var r1 := r';
      Weaker(r, r1, (MajorityWins(r.end.ids) && vw'.log <= v.log) || honest, true, honest, true);
      SameOnRecord(r.end, r1.end, v.term, vw'.log);
      Later(s0, r, touched, r1, {w}, {ae});
      StillLeading(r.end, r1.end, {w}, {ae}, c, v);
      StillSent(s0, r.end, r1.end, {w}, {ae}, c, body, rest);
      FrameSpares(r.end, r1.end, {w}, {ae}, {w});
      StillHold(r.end, r1.end, {w}, rest, vw);
      StillAcked(s0, r.end, r1.end, {w}, {ae}, c, later, done);
      AckedNow(s0, r.end, r1.end, touched, yes, c, later, w);
      r' := AcceptAll(r1, s0, touched, c, v, next, rest, vw, vw', later, done + {w});
      assert rest + (done + {w}) == who + done;
      FollowsTrans(r, r1, r', honest, true, honest, true);
      SparedTrans(r.end, r1.end, r'.end, {w}, rest, who);
      StillHold(r1.end, r'.end, rest, {w}, vw');
    }
  }

  // ---------- Commitment ----------

  /** With one entry of its own term on top, a leader commits all of its log or nothing. */
  lemma CountActs(n: Node, from: Id, reply: Body, peers: seq<Id>, v: View)
    requires Is(n, v) && n.role == Leader && v.commit == 0 < |v.log| && v.log[|v.log| - 1].term == v.term
    requires |v.log| > 1 ==> v.log[|v.log| - 2].term != v.term
    requires reply.AppendReply? && reply.success && reply.term <= v.term
    ensures var n' := HandleAppendReply(n, from, reply, peers).node;
            && n'.role == Leader && n'.matchIndex == n.matchIndex[from := reply.matchIndex]
            && (Is(n', v) || (Is(n', v.(commit := |v.log|)) && Applies(n', v.log)))
  {
    var n1 := n.(matchIndex := n.matchIndex[from := reply.matchIndex],
                 nextIndex := n.nextIndex[from := reply.matchIndex + 1]);
    hide Replicates;
    ScanAllOrNothing(n1, peers);
  }

  lemma ScanAllOrNothing(n: Node, peers: seq<Id>)
    requires n.commitIndex == 0 < |n.log| && (|n.log| > 1 ==> n.log[|n.log| - 2].term != n.currentTerm)
    ensures CommitScan(n, peers, |n.log|) == 0 || CommitScan(n, peers, |n.log|) == |n.log|
  {
    hide Replicates;
    var m := |n.log| - 1;
    assert CommitScan(n, peers, m) == 0;
  }

  /** Leader `c` has committed and applied its whole log. */
  predicate Done(s: Cluster, c: Id, v: View) {
    Leading(s, c, v.(commit := |v.log|)) && HasApplied(s, c, v.log)
  }

  /** Leader `c` counts an acknowledgement, which may or may not let it commit. */
  lemma CountOne(r: Tape, c: Id, v: View, w: Id, yes: Packet) returns (r': Tape)
    requires Good(r) && c in r.end.ids && Leading(r.end, c, v)
    requires v.commit == 0 < |v.log| && v.log[|v.log| - 1].term == v.term
    requires |v.log| > 1 ==> v.log[|v.log| - 2].term != v.term
    requires Pending(r.end, yes) && IsAck(yes, c, v, w)
    ensures Follows(r, r', true, true) && Good(r') && r'.end.ids == r.end.ids && Frame(r.end, r'.end, {c}, {yes})
    ensures OnRecord(r'.end, v.term, v.log) && (Leading(r'.end, c, v) || Done(r'.end, c, v))
    ensures c in r.end.nodes && c in r'.end.nodes
    ensures r'.end.nodes[c].matchIndex == r.end.nodes[c].matchIndex[w := yes.body.matchIndex]
  {
    hide Good, Follows, Frame, Fired, Acted, HandleAppendReply, ListsPeers, Pending, Truthful, Is, Applies;
    var peers := PeersOf(r.end.ids, c);
    var e := Deliver(yes, peers);
    var f;
    NodeIds(r, c);
    r', f := Do(r, e);
    Silent(r.end, e, r'.end);
    ActedIs(r.end, e, f);
    IsTerm(r.end.nodes[c], v);
    CountActs(r.end.nodes[c], w, yes.body, peers, v);
    NewRecord(r.end, e, f, r'.end, if Is(f.node, v) then v else v.(commit := |v.log|));
    Weaker(r, r', Truthful(r.end, e, r'.end), Current(r.end, e), true, true);
    FollowsGood(r, r', true, true);
  }

  /** `c` has it on record that each of `who` holds its whole log. */
  predicate Recorded(s: Cluster, c: Id, v: View, who: set<Id>) {
    c in s.nodes && forall w :: w in who ==>
      w in s.nodes[c].matchIndex && s.nodes[c].matchIndex[w] >= |v.log|
  }

  lemma NoneRecorded(s: Cluster, c: Id, v: View)
    requires Leading(s, c, v)
    ensures Recorded(s, c, v, {})
  {
    hide Is;
  }

  lemma RecordedMatch(s: Cluster, c: Id, v: View, who: set<Id>)
    requires Recorded(s, c, v, who)
    ensures forall w :: w in who ==> exists m: nat :: m >= |v.log| && MatchIs(s, c, w, m)
  {
    forall w | w in who ensures exists m: nat :: m >= |v.log| && MatchIs(s, c, w, m) {
      assert MatchIs(s, c, w, s.nodes[c].matchIndex[w]);
    }
  }

  lemma RecordedMore(s: Cluster, s': Cluster, c: Id, v: View, who: set<Id>, w: Id, m: nat)
    requires Recorded(s, c, v, who) && c in s'.nodes && m >= |v.log|
    requires s'.nodes[c].matchIndex == s.nodes[c].matchIndex[w := m]
    ensures Recorded(s', c, v, who + {w})
  {
  }

  /** Leader `c` counts the one acknowledgement it still needs. */
  lemma CountLast(r: Tape, c: Id, v: View, w: Id, yes: Packet, done: set<Id>) returns (r': Tape)
    requires Good(r) && c in r.end.ids && Leading(r.end, c, v)
    requires v.commit == 0 < |v.log| && v.log[|v.log| - 1].term == v.term
    requires Pending(r.end, yes) && IsAck(yes, c, v, w) && Recorded(r.end, c, v, done)
    requires 1 + |done + {w}| > |r.end.ids| / 2
    ensures Follows(r, r', true, true) && Good(r') && r'.end.ids == r.end.ids && Frame(r.end, r'.end, {c}, {yes})
    ensures Done(r'.end, c, v) && OnRecord(r'.end, v.term, v.log)
  {
    hide Good, Follows, Frame, Pending, Leading, HasApplied, Recorded, MatchIs;
    RecordedMatch(r.end, c, v, done);
    r' := Count(r, c, v, w, yes, done + {w});
  }

  /** Leader `c` counts acknowledgements until it commits its whole log, at the last at the latest. */
  lemma {:induction false} CountAll(r: Tape, s0: Cluster, touched: set<Id>, c: Id, v: View, who: set<Id>,
                                    done: set<Id>) returns (r': Tape)
    requires Since(s0, r, touched) && c in r.end.ids && c in touched && Leading(r.end, c, v)
    requires v.commit == 0 < |v.log| && v.log[|v.log| - 1].term == v.term
    requires |v.log| > 1 ==> v.log[|v.log| - 2].term != v.term
    requires who != {} && c !in who && AllAcked(s0, r.end, c, v, who) && Recorded(r.end, c, v, done)
    requires 1 + |done + who| > |r.end.ids| / 2
    ensures Since(s0, r', touched) && Follows(r, r', true, true) && Spared(r.end, r'.end, {c})
    ensures Done(r'.end, c, v) && OnRecord(r'.end, v.term, v.log)
    decreases |who|
  {
    hide Good, Follows, Frame, Pending, Leading, Done, Spared, Recorded, IsAck, OnRecord;
    var w :| w in who;
    var rest := who - {w};
    assert Acked(s0, r.end, c, v, w);
    var yes := AckOf(s0, r.end, c, v, w);
    if rest == {} {
      assert done + who == done + {w};
      r' := CountLast(r, c, v, w, yes, done);
      Later(s0, r, touched, r', {c}, {yes});
      FrameSpares(r.end, r'.end, {c}, {yes}, {c});
    } else {
      r' := CountOne(r, c, v, w, yes);
      Later(s0, r, touched, r', {c}, {yes});
      FrameSpares(r.end, r'.end, {c}, {yes}, {c});
      if !Done(r'.end, c, v) {
        var r1 := r';
        StillAcked(s0, r.end, r1.end, {c}, {yes}, c, v, rest);
        RecordedMore(r.end, r1.end, c, v, done, w, yes.body.matchIndex);
        assert done + who == (done + {w}) + rest;
        r' := CountAll(r1, s0, touched, c, v, rest, done + {w});
        FollowsTrans(r, r1, r', true, true, true, true);
        SparedTrans(r.end, r1.end, r'.end, {c}, {c}, {c});
      }
    }
  }

  lemma AckOf(s0: Cluster, s: Cluster, c: Id, v: View, w: Id) returns (p: Packet)
    requires Acked(s0, s, c, v, w)
    ensures Pending(s, p) && p !in s0.sent && IsAck(p, c, v, w)
    ensures p.from == w && p.to == c && p.answers == v.term && p.body.AppendReply? && p.body.success
    ensures p.body.term <= v.term && p.body.matchIndex >= |v.log|
  {
    hide Pending;
    p :| Pending(s, p) && p !in s0.sent && IsAck(p, c, v, w);
  }
}
