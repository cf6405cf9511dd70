/**
 Where election safety ends: with an even number of members, four or more, half of them are enough
 to win, so one term can have two leaders. The run below elects both.
 */
module RaftSplitVote {
  import opened RaftNode
  import opened RaftCluster
  import opened RaftElection
  import opened RaftRuns

  /** A request for `v`'s first-term vote from `c`, both logs empty, is on its way. */
  ghost predicate Asked(s: Cluster, c: Id, v: Id) {
    exists p :: Pending(s, p) && IsRequest(p, c, v)
  }

  ghost predicate IsRequest(p: Packet, c: Id, v: Id) {
    p.from == c && p.to == v && p.body == RequestVote(1, c, 0, 0)
  }

  ghost predicate Standing(s: Cluster, c: Id, votes: nat) {
    c in s.nodes && s.nodes[c].role == Candidate && s.nodes[c].currentTerm == 1 && s.nodes[c].votesReceived == votes
  }

  /** `s'` is `s` but for the nodes in `touched` and the requests of `c`. */
  ghost predicate Undisturbed(s: Cluster, s': Cluster, touched: set<Id>, c: Id) {
    && s'.ids == s.ids && s'.nodes.Keys == s.nodes.Keys
    && (forall i :: i in s.nodes && i !in touched ==> s'.nodes[i] == s.nodes[i])
    && (forall d, v :: d != c && Asked(s, d, v) ==> Asked(s', d, v))
  }

  /** `e` leaves every pending packet but its own pending. */
  lemma KeepsAsking(s: Cluster, e: Event, f: Effect, s': Cluster, c: Id, v: Id)
    requires Fired(s, e, f, s') && Asked(s, c, v)
    requires e.Deliver? ==> !IsRequest(e.p, c, v)
    ensures Asked(s', c, v)
  {
    hide Pending;
    var p :| Pending(s, p) && IsRequest(p, c, v);
    assert Pending(s', p);
  }

  lemma FirstVote(v: Id, c: Id, p: Packet)
    requires IsRequest(p, c, v) && c != 0
    ensures HandleRequestVote(New(v), c, p.body)
            == Effect(New(v).(currentTerm := 1, votedFor := c), [Send(c, VoteReply(1, true))])
  {
  }

  ghost predicate Granted(s: Cluster, c: Id, v: Id) {
    exists p :: Pending(s, p) && p.from == v && p.to == c && p.body == VoteReply(1, true)
  }

  /** A fresh node grants its vote. */
  lemma Grant(states: seq<Cluster>, events: seq<Event>, c: Id, v: Id)
    returns (states': seq<Cluster>, events': seq<Event>)
    requires GoodRun(states, events) && c != v && c in Last(states).ids && v in Last(states).ids
    requires v in Last(states).nodes && Last(states).nodes[v] == New(v) && Asked(Last(states), c, v)
    ensures GoodRun(states', events') && states'[0] == states[0]
    ensures Undisturbed(Last(states), Last(states'), {v}, c)
    ensures forall w :: w != v && Asked(Last(states), c, w) ==> Asked(Last(states'), c, w)
    ensures Granted(Last(states'), c, v)
  {
    hide Run, WF, Steps, Act, HandleRequestVote, Init, Pending;
    var s := Last(states);
    NoZero(s, c);
    var p :| Pending(s, p) && IsRequest(p, c, v);
    var peers := PeersOf(s.ids, v);
    var e := Deliver(p, peers);
    PendingEnabled(s, e);
    var s', f := Fire(states, events, e);
    FirstVote(v, c, p);
    RequestReceived(s.nodes[v], e);
    states', events' := states + [s'], events + [e];
    assert Pending(s', Packet(v, c, s.stamp[v] + 1, f.out[0].body, 0));
    hide Asked;
    forall d, w | Asked(s, d, w) && !(d == c && w == v) ensures Asked(s', d, w) {
      KeepsAsking(s, e, f, s', d, w);
    }
  }

  lemma RequestReceived(n: Node, e: Event)
    requires e.Deliver? && e.p.body.RequestVote? && n.role != Leader
    ensures Act(n, e) == HandleRequestVote(n, e.p.from, e.p.body)
  {
  }

  lemma ReplyReceived(n: Node, e: Event)
    requires e.Deliver? && e.p.body.VoteReply? && n.role != Leader
    ensures Act(n, e) == HandleVoteReply(n, e.p.body, e.peers)
  {
  }

  /** The candidate counts it. */
  lemma Count(states: seq<Cluster>, events: seq<Event>, c: Id, v: Id, votes: nat)
    returns (states': seq<Cluster>, events': seq<Event>)
    requires GoodRun(states, events) && c in Last(states).ids
    requires Granted(Last(states), c, v) && Standing(Last(states), c, votes)
    ensures GoodRun(states', events') && states'[0] == states[0]
    ensures Undisturbed(Last(states), Last(states'), {c}, c)
    ensures forall w :: Asked(Last(states), c, w) ==> Asked(Last(states'), c, w)
    ensures if votes + 1 >= (|Last(states).ids| - 1) / 2 + 1
            then Leads(Last(states'), c, 1) else Standing(Last(states'), c, votes + 1)
  {
    hide Run, WF, Steps, Act, HandleVoteReply, Init, Pending;
    var s := Last(states);
    var p :| Pending(s, p) && p.from == v && p.to == c && p.body == VoteReply(1, true);
    var peers := PeersOf(s.ids, c);
    var e := Deliver(p, peers);
    PendingEnabled(s, e);
    var s', f := Fire(states, events, e);
    ReplyReceived(s.nodes[c], e);
    PeersSize(peers, s.ids, c);
    CountedVote(s.nodes[c], p.body, peers, votes);
    states', events' := states + [s'], events + [e];
    hide Asked;
    forall d, w | Asked(s, d, w) ensures Asked(s', d, w) {
      KeepsAsking(s, e, f, s', d, w);
    }
  }

  lemma CountedVote(n: Node, reply: Body, peers: seq<Id>, votes: nat)
    requires n.role == Candidate && n.currentTerm == 1 && n.votesReceived == votes && reply == VoteReply(1, true)
    ensures var n' := HandleVoteReply(n, reply, peers).node;
            && n'.currentTerm == 1
            && if votes + 1 >= |peers| / 2 + 1 then n'.role == Leader
               else n'.role == Candidate && n'.votesReceived == votes + 1
  {
  }

  lemma NoZero(s: Cluster, c: Id)
    requires WF(s) && c in s.ids
    ensures c != 0
  {
  }

  lemma UndisturbedTrans(s: Cluster, s1: Cluster, s2: Cluster, t1: set<Id>, t2: set<Id>, t: set<Id>, c: Id)
    requires Undisturbed(s, s1, t1, c) && Undisturbed(s1, s2, t2, c) && t1 <= t && t2 <= t
    ensures Undisturbed(s, s2, t, c)
  {
    hide Asked;
  }

  ghost predicate Fresh(s: Cluster, c: Id, v: Id) {
    v in s.nodes && s.nodes[v] == New(v) && Asked(s, c, v)
  }

  lemma StaysFresh(s: Cluster, s': Cluster, touched: set<Id>, c: Id, v: Id)
    requires Undisturbed(s, s', touched, c) && Fresh(s, c, v) && v !in touched
    requires Asked(s, c, v) ==> Asked(s', c, v)
    ensures Fresh(s', c, v)
  {
    hide Asked;
  }

  lemma StillFresh(s: Cluster, s': Cluster, touched: set<Id>, c: Id, d: Id, v: Id)
    requires Undisturbed(s, s', touched, c) && Fresh(s, d, v) && v !in touched && c != d
    ensures Fresh(s', d, v)
  {
    hide Asked;
  }

  lemma StillStanding(s: Cluster, s': Cluster, touched: set<Id>, c: Id, d: Id, votes: nat)
    requires Undisturbed(s, s', touched, c) && d !in touched
    ensures Standing(s, d, votes) ==> Standing(s', d, votes)
    ensures Leads(s, d, 1) ==> Leads(s', d, 1)
  {
    hide Asked;
  }

  lemma SameIds(s: Cluster, s': Cluster, touched: set<Id>, c: Id)
    requires Undisturbed(s, s', touched, c)
    ensures s'.ids == s.ids
  {
  }

  /** One voter is polled. */
  lemma Poll(states: seq<Cluster>, events: seq<Event>, c: Id, v: Id, votes: nat)
    returns (states': seq<Cluster>, events': seq<Event>)
    requires GoodRun(states, events) && c in Last(states).ids && v in Last(states).ids && c != v
    requires Fresh(Last(states), c, v) && Standing(Last(states), c, votes)
    ensures GoodRun(states', events') && states'[0] == states[0]
    ensures Undisturbed(Last(states), Last(states'), {c, v}, c)
    ensures forall w :: w != v && Asked(Last(states), c, w) ==> Asked(Last(states'), c, w)
    ensures if votes + 1 >= (|Last(states).ids| - 1) / 2 + 1
            then Leads(Last(states'), c, 1) else Standing(Last(states'), c, votes + 1)
  {
    hide Run, WF, Granted, Asked, Undisturbed;
    var states1, events1 := Grant(states, events, c, v);
    StillStanding(Last(states), Last(states1), {v}, c, c, votes);
    SameIds(Last(states), Last(states1), {v}, c);
    states', events' := Count(states1, events1, c, v, votes);
    UndisturbedTrans(Last(states), Last(states1), Last(states'), {v}, {c}, {c, v}, c);
  }

  /** All of `voters` are polled in turn; the last of them tips the balance. */
  lemma {:induction false} PollAll(states: seq<Cluster>, events: seq<Event>, c: Id, voters: set<Id>, votes: nat)
    returns (states': seq<Cluster>, events': seq<Event>)
    requires GoodRun(states, events) && c in Last(states).ids && c !in voters && voters <= Last(states).ids
    requires forall v :: v in voters ==> Fresh(Last(states), c, v)
    requires Standing(Last(states), c, votes) && voters != {} && votes + |voters| == (|Last(states).ids| - 1) / 2 + 1
    ensures GoodRun(states', events') && states'[0] == states[0]
    ensures Undisturbed(Last(states), Last(states'), voters + {c}, c)
    ensures Leads(Last(states'), c, 1)
    decreases |voters|
  {
    hide Run, WF, Fresh, Asked, Undisturbed, Standing, Leads;
    var s := Last(states);
    var v :| v in voters;
    states', events' := Poll(states, events, c, v, votes);
    var rest := voters - {v};
    assert voters == rest + {v};
    if rest == {} {
      assert {c, v} == voters + {c};
    } else {
      SameIds(s, Last(states'), {c, v}, c);
      forall w | w in rest ensures Fresh(Last(states'), c, w) {
        FreshAsked(s, c, w);
        StaysFresh(s, Last(states'), {c, v}, c, w);
      }
      var s1 := Last(states');
      states', events' := PollAll(states', events', c, rest, votes + 1);
      UndisturbedTrans(s, s1, Last(states'), {c, v}, rest + {c}, voters + {c}, c);
    }
  }

  lemma FreshAsked(s: Cluster, c: Id, v: Id)
    requires Fresh(s, c, v)
    ensures Asked(s, c, v)
  {
  }

  /** A fresh node stands for the first term and asks everyone else. */
  lemma Stand(states: seq<Cluster>, events: seq<Event>, c: Id)
    returns (states': seq<Cluster>, events': seq<Event>)
    requires GoodRun(states, events) && c in Last(states).ids && Last(states).nodes.Keys == Last(states).ids
    requires Last(states).nodes[c] == New(c)
    ensures GoodRun(states', events') && states'[0] == states[0]
    ensures Undisturbed(Last(states), Last(states'), {c}, c)
    ensures Standing(Last(states'), c, 1)
    ensures forall v :: v in Last(states).ids && v != c ==> Asked(Last(states'), c, v)
    ensures forall v :: v in Last(states).ids && v != c && Last(states).nodes[v] == New(v) ==>
      Fresh(Last(states'), c, v)
  {
    hide Run, WF, Steps, Init;
    var s := Last(states);
    var peers := PeersOf(s.ids, c);
    var e := Timeout(c, peers);
    TimeoutEnabled(s, e);
    var s', f := Fire(states, events, e);
    states', events' := states + [s'], events + [e];
    FirstStand(c, e);
    forall v | v in s.ids && v != c ensures Asked(s', c, v) {
      var j :| 0 <= j < |peers| && peers[j] == v;
      assert Pending(s', Packet(c, f.out[j].to, s.stamp[c] + 1 + j, f.out[j].body, 0));
      assert IsRequest(Packet(c, v, s.stamp[c] + 1 + j, f.out[j].body, 0), c, v);
    }
    hide Asked;
    forall d, w | d != c && Asked(s, d, w) ensures Asked(s', d, w) {
      KeepsAsking(s, e, f, s', d, w);
    }
  }

  lemma FirstStand(c: Id, e: Event)
    requires e.Timeout?
    ensures var f := Act(New(c), e);
            && |f.out| == |e.peers| && f.node.role == Candidate && f.node.currentTerm == 1 && f.node.votesReceived == 1
            && forall j :: 0 <= j < |e.peers| ==> f.out[j] == Send(e.peers[j], RequestVote(1, c, 0, 0))
  {
    var n := New(c);
    assert Act(n, e) == StartElection(n, e.peers);
    assert LastIndex(n.log) == 0 && LastTerm(n.log) == 0;
  }

  lemma {:induction false} Split(ids: set<Id>, k: nat) returns (part: set<Id>)
    requires k <= |ids|
    ensures part <= ids && |part| == k
  {
    if k == 0 {
      part := {};
    } else {
      var x :| x in ids;
      var rest := Split(ids - {x}, k - 1);
      part := rest + {x};
    }
  }

  /** Two different nodes lead one term, perhaps at different moments of the run. */
  ghost predicate SplitTerm(ids: set<Id>, states: seq<Cluster>, events: seq<Event>, j: nat, a: Id, k: nat, b: Id,
      t: nat) {
    Run(states, events) && states[0].ids == ids && j < |states| && k < |states| && Leads(states[j], a, t)
        && Leads(states[k], b, t) && a != b
  }

  lemma Halves(ids: set<Id>) returns (a: Id, va: set<Id>, b: Id, vb: set<Id>)
    requires |ids| >= 4 && |ids| % 2 == 0
    ensures a in ids && b in ids && a != b && va <= ids - {a, b} && vb <= ids - {a, b} && va !! vb
    ensures |va| == |vb| == |ids| / 2 - 1
  {
    var half := Split(ids, |ids| / 2);
    var other := ids - half;
    assert ids == half + other;
    a :| a in half;
    b :| b in other;
    va, vb := half - {a}, other - {b};
  }

  ghost predicate BothStanding(s: Cluster, ids: set<Id>, a: Id, b: Id) {
    && s.ids == ids && s.nodes.Keys == ids && Standing(s, a, 1) && Standing(s, b, 1)
    && forall v :: v in ids - {a, b} ==> Fresh(s, a, v) && Fresh(s, b, v)
  }

  lemma BothStand(ids: set<Id>, a: Id, b: Id) returns (states: seq<Cluster>, events: seq<Event>)
    requires 0 !in ids && a in ids && b in ids && a != b
    ensures GoodRun(states, events) && |states| > 0 && states[0].ids == ids && BothStanding(Last(states), ids, a, b)
  {
    hide GoodRun, Init, Run, Fresh, Undisturbed, Standing, Leads;
    InitGood(ids);
    var s0 := Init(ids);
    states, events := Stand([s0], [], a);
    GoodRunIsRun(states, events);
    var s1 := Last(states);
    Untouched(s0, s1, {a}, a);
    states, events := Stand(states, events, b);
    GoodRunIsRun(states, events);
    var s2 := Last(states);
    Untouched(s1, s2, {b}, b);
    StillStanding(s1, s2, {b}, b, a, 1);
    forall v | v in ids - {a, b} ensures Fresh(s2, a, v) && Fresh(s2, b, v) {
      StillFresh(s1, s2, {b}, b, a, v);
    }
  }

  lemma TwoLeaders(ids: set<Id>) returns (states: seq<Cluster>, events: seq<Event>, k: nat, a: Id, b: Id)
    requires 0 !in ids && |ids| >= 4 && |ids| % 2 == 0
    ensures SplitTerm(ids, states, events, k, a, k, b, 1)
  {
    hide GoodRun, Init, Run, Fresh, Undisturbed, Standing, Leads;
    var va, vb;
    a, va, b, vb := Halves(ids);
    states, events := BothStand(ids, a, b);
    var s2 := Last(states);
    states, events := PollAll(states, events, a, va, 1);
    GoodRunIsRun(states, events);
    var s3 := Last(states);
    Untouched(s2, s3, va + {a}, a);
    StillStanding(s2, s3, va + {a}, a, b, 1);
    forall v | v in vb ensures Fresh(s3, b, v) {
      StillFresh(s2, s3, va + {a}, a, b, v);
    }
    states, events := PollAll(states, events, b, vb, 1);
    GoodRunIsRun(states, events);
    StillStanding(s3, Last(states), vb + {b}, b, a, 1);
    k := |states| - 1;
  }

  lemma Untouched(s: Cluster, s': Cluster, touched: set<Id>, c: Id)
    requires Undisturbed(s, s', touched, c)
    ensures s'.ids == s.ids && s'.nodes.Keys == s.nodes.Keys
    ensures forall i :: i in s.nodes && i !in touched ==> s'.nodes[i] == s.nodes[i]
  {
    hide Asked;
  }

  ghost predicate CanSplit(ids: set<Id>) {
    exists states: seq<Cluster>, events: seq<Event>, j: nat, a: Id, k: nat, b: Id, t: nat ::
      SplitTerm(ids, states, events, j, a, k, b, t)
  }

  /** Exactly when the source's elections are safe: the membership is odd, or two. */
  lemma ElectionsSafeIff(ids: set<Id>)
    requires 0 !in ids && ids != {}
    ensures MajorityWins(ids) <==> !CanSplit(ids)
  {
    hide Run, Leads;
    if MajorityWins(ids) {
      forall states: seq<Cluster>, events: seq<Event>, j: nat, a: Id, k: nat, b: Id, t: nat
        ensures !SplitTerm(ids, states, events, j, a, k, b, t)
      {
        if Run(states, events) && |states| > 0 && states[0].ids == ids && j < |states| && k < |states|
           && Leads(states[j], a, t) && Leads(states[k], b, t) {
          ElectionSafety(states, events, j, k, a, b, t);
        }
      }
    } else {
      assert |ids| != 0;
      var states, events, k, a, b := TwoLeaders(ids);
      assert SplitTerm(ids, states, events, k, a, k, b, 1);
    }
  }
}
