/** Building concrete runs of a cluster, one event at a time. */
module RaftRuns {
  import opened RaftNode
  import opened RaftCluster

  ghost predicate Pending(s: Cluster, p: Packet) {
    p in s.sent && p !in s.delivered
  }

  /** What a step does, given what the handler of its actor returns. */
  ghost predicate Fired(s: Cluster, e: Event, f: Effect, s': Cluster) {
    var i := Actor(e);
    && i in s.nodes && i in s.stamp && s'.ids == s.ids
    && s'.nodes == s.nodes[i := f.node]
    && s'.stamp == s.stamp[i := s.stamp[i] + |f.out|] && s.sent <= s'.sent
    && (forall j :: 0 <= j < |f.out| ==> Pending(s', Packet(i, f.out[j].to, s.stamp[i] + 1 + j, f.out[j].body, Tag(e))))
    && (forall p :: Pending(s, p) && !(e.Deliver? && p == e.p) ==> Pending(s', p))
    && s'.h.leaderLog == (if f.node.role == Leader then s.h.leaderLog[f.node.currentTerm := f.node.log]
                          else s.h.leaderLog)
  }

  /** Extends a run by one enabled event. */
  lemma Fire(states: seq<Cluster>, events: seq<Event>, e: Event) returns (s': Cluster, f: Effect)
    requires Run(states, events) && |states| > 0
    requires Enabled(states[|states| - 1], e) && WF(states[|states| - 1])
    ensures Run(states + [s'], events + [e]) && Steps(states[|states| - 1], e, s') && WF(s')
    ensures Fired(states[|states| - 1], e, f, s')
    ensures CanAct(states[|states| - 1].nodes[Actor(e)], e)
    ensures f == Act(states[|states| - 1].nodes[Actor(e)], e)
  {
    hide Next, WF, Enabled, Init, Fired, Act, Run, Steps, CanAct, Actor;
    var s := states[|states| - 1];
    s', f := FireStep(s, e);
    FireOnce(s, e, f, s');
    LongerRun(states, events, e, s');
  }

  lemma FireStep(s: Cluster, e: Event) returns (s': Cluster, f: Effect)
    requires Enabled(s, e) && WF(s)
    ensures Actor(e) in s.nodes && CanAct(s.nodes[Actor(e)], e) && f == Act(s.nodes[Actor(e)], e)
    ensures Actor(e) in s.stamp && s' == Assemble(s, e, Actor(e), f) && Steps(s, e, s') && WF(s')
  {
    hide Act, Assemble, PacketsWF, CanAct;
    MemberActs(s, e);
    ReadyToAct(s, e);
    f := Act(s.nodes[Actor(e)], e);
    s' := Next(s, e);
  }

  lemma ReadyToAct(s: Cluster, e: Event)
    requires Enabled(s, e) && WF(s)
    ensures Actor(e) in s.nodes && CanAct(s.nodes[Actor(e)], e)
  {
  }

  lemma LongerRun(states: seq<Cluster>, events: seq<Event>, e: Event, s': Cluster)
    requires Run(states, events) && |states| > 0 && Steps(states[|states| - 1], e, s')
    ensures Run(states + [s'], events + [e])
  {
    hide Steps, Init;
    var states', events' := states + [s'], events + [e];
    forall k | 0 <= k < |events'| ensures Steps(states'[k], events'[k], states'[k + 1]) {
      if k < |events| {
        assert Steps(states[k], events[k], states[k + 1]);
      }
    }
  }

  lemma FireOnce(s: Cluster, e: Event, f: Effect, s': Cluster)
    requires WF(s) && Enabled(s, e) && s' == Assemble(s, e, Actor(e), f)
    ensures Fired(s, e, f, s')
  {
    hide WF, Enabled, Observe, Stamped, Pending;
    MemberActs(s, e);
    LeaderLogFires(s.h, Actor(e), s.nodes[Actor(e)], f.node, e);
    forall j | 0 <= j < |f.out|
      ensures Pending(s', Packet(Actor(e), f.out[j].to, s.stamp[Actor(e)] + 1 + j, f.out[j].body, Tag(e)))
    {
      SentFires(s, e, f, s', j);
    }
    forall p | Pending(s, p) && !(e.Deliver? && p == e.p) ensures Pending(s', p) {
      StaysPending(s, e, f, s', p);
    }
  }

  lemma MemberActs(s: Cluster, e: Event)
    requires WF(s) && Enabled(s, e)
    ensures Actor(e) in s.nodes && Actor(e) in s.stamp
  {
  }

  lemma LeaderLogFires(h: History, i: Id, n: Node, n': Node, e: Event)
    ensures Observe(h, i, n, n',
        e).leaderLog == (if n'.role == Leader then h.leaderLog[n'.currentTerm := n'.log] else h.leaderLog)
  {
  }

  lemma SentFires(s: Cluster, e: Event, f: Effect, s': Cluster, j: nat)
    requires WF(s) && Enabled(s, e) && j < |f.out| && s' == Assemble(s, e, Actor(e), f)
    ensures Pending(s', Packet(Actor(e), f.out[j].to, s.stamp[Actor(e)] + 1 + j, f.out[j].body, Tag(e)))
  {
    hide Observe, Ready, ListsPeers;
    var p := Packet(Actor(e), f.out[j].to, s.stamp[Actor(e)] + 1 + j, f.out[j].body, Tag(e));
    assert p in Stamped(Actor(e), s.stamp[Actor(e)], f.out, Tag(e));
    assert p !in s.sent;
  }

  lemma StaysPending(s: Cluster, e: Event, f: Effect, s': Cluster, p: Packet)
    requires Enabled(s, e) && Actor(e) in s.nodes && Actor(e) in s.stamp && s' == Assemble(s, e, Actor(e), f)
    requires Pending(s, p) && !(e.Deliver? && p == e.p)
    ensures Pending(s', p)
  {
    hide Observe, ListsPeers;
  }

  lemma {:induction false} ListOf(ids: set<Id>) returns (l: seq<Id>)
    ensures forall p :: p in l <==> p in ids
    ensures forall a, b :: 0 <= a < b < |l| ==> l[a] != l[b]
  {
    if ids == {} {
      l := [];
    } else {
      var x :| x in ids;
      var rest := ListOf(ids - {x});
      l := rest + [x];
    }
  }

  lemma PeersOf(ids: set<Id>, i: Id) returns (peers: seq<Id>)
    ensures ListsPeers(peers, ids, i)
  {
    peers := ListOf(ids - {i});
  }

  ghost predicate GoodRun(states: seq<Cluster>, events: seq<Event>) {
    Run(states, events) && |states| > 0 && WF(states[|states| - 1])
  }

  function Last(states: seq<Cluster>): Cluster
    requires |states| > 0
  {
    states[|states| - 1]
  }

  lemma PendingEnabled(s: Cluster, e: Event)
    requires WF(s) && e.Deliver? && Pending(s, e.p) && ListsPeers(e.peers, s.ids, e.p.to)
    ensures Enabled(s, e)
  {
    hide ListsPeers;
  }

  lemma TimeoutEnabled(s: Cluster, e: Event)
    requires WF(s) && e.Timeout? && e.id in s.ids && ListsPeers(e.peers, s.ids, e.id)
    ensures Enabled(s, e)
  {
  }

  lemma InitGood(ids: set<Id>)
    requires 0 !in ids
    ensures GoodRun([Init(ids)], []) && Init(ids).ids == ids
    ensures Init(ids).nodes.Keys == ids && forall i :: i in ids ==> Init(ids).nodes[i] == New(i)
  {
    hide WF;
  }

  lemma GoodRunIsRun(states: seq<Cluster>, events: seq<Event>)
    requires GoodRun(states, events)
    ensures Run(states, events) && |states| > 0
  {
    hide Run, WF;
  }
}
